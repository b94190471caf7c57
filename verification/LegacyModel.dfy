/**
The bridge to a legacy server (compat.go) as a transition system: one reader, any number of writers, a
16-slot channel of synthesized messages and the overflow queue behind it. A step is one section that
holds the mutex or one channel operation.
*/
module LegacyModel {
  import opened Common

  /** The id of a listen request; the mux never reuses one. */
  type StreamId = int

  const SYNTH_SLOTS: nat := 16

  datatype Kind = Tools | Prompts | Resources

  datatype ListenFilter = ListenFilter(tools: bool, prompts: bool, resources: bool)

  predicate Wants(f: ListenFilter, k: Kind) {
    match k
    case Tools => f.tools
    case Prompts => f.prompts
    case Resources => f.resources
  }

  /** event numbers the list_changed that a notice passes on. */
  datatype Message = Ack(stream: StreamId) | Notice(stream: StreamId, event: nat) | Closure(stream: StreamId) | Other

  /** Where Read has got to; it is called again as soon as it returns. */
  datatype Reader =
    | Polling
    | Draining
    | Waiting
    | Translating(kind: Kind)
    | Fanning(todo: seq<StreamId>, overflow: seq<Message>)
    | Examining
    | Weighing(pending: bool)
    | Failed

  /** A listen request being written: its acknowledgment not yet queued, or queued and not yet registered. */
  datatype Writer = Pushing(filter: ListenFilter) | Pushed(filter: ListenFilter) | Returned

  /**
  read is all that Read has returned; owed the notices due to the listeners that were registered when
  their event was taken; doomed the closures that were queued when an error was examined.
  */
  datatype Sys = Sys(
    synth: seq<Message>, queued: seq<Message>, listeners: map<StreamId, ListenFilter>, closed: bool,
    deferred: bool, reader: Reader, writers: map<StreamId, Writer>, events: nat, read: seq<Message>,
    owed: set<Message>, doomed: set<Message>)

  const START: Sys := Sys([], [], map[], false, false, Polling, map[], 0, [], {}, {})

  datatype Action =
    | Listen(stream: StreamId, filter: ListenFilter)
    | PushAck(stream: StreamId)
    | GiveUp(stream: StreamId)
    | Register(stream: StreamId)
    | Cancel(stream: StreamId)
    | PushOther
    | Close(order: seq<StreamId>)
    | Poll
    | Drain
    | TakeSynth
    | Surface
    | Arrive(kind: Kind)
    | Snapshot(ids: seq<StreamId>)
    | FanOne
    | FanEnds
    | Breaks
    | Examine
    | Weigh

  function Notices(ids: seq<StreamId>, event: nat): seq<Message> {
    seq(|ids|, i requires 0 <= i < |ids| => Notice(ids[i], event))
  }

  function Closures(ids: seq<StreamId>): seq<Message> {
    seq(|ids|, i requires 0 <= i < |ids| => Closure(ids[i]))
  }

  function Wanting(s: Sys, k: Kind): set<StreamId> { set id | id in s.listeners && Wants(s.listeners[id], k) }

  function Deliver(s: Sys, m: Message): Sys { s.(read := s.read + [m], reader := Polling) }

  ghost function Step(s: Sys, a: Action): Option<Sys> {
    match a
    case Listen(id, f) => if id in s.writers then None else Some(s.(writers := s.writers[id := Pushing(f)]))
    case PushAck(id) =>
      if id in s.writers && s.writers[id].Pushing? && |s.synth| < SYNTH_SLOTS then
        Some(s.(synth := s.synth + [Ack(id)], writers := s.writers[id := Pushed(s.writers[id].filter)]))
      else None
    case GiveUp(id) =>
      if id in s.writers && s.writers[id].Pushing? then Some(s.(writers := s.writers[id := Returned])) else None
    case Register(id) =>
      if !(id in s.writers && s.writers[id].Pushed?) then None
      else
        Some(s.(writers := s.writers[id := Returned],
                listeners := if s.closed then s.listeners else s.listeners[id := s.writers[id].filter]))
    case Cancel(id) => Some(s.(listeners := s.listeners - {id}))
    case PushOther => if |s.synth| < SYNTH_SLOTS then Some(s.(synth := s.synth + [Other])) else None
    case Close(order) =>
      if s.closed then Some(s)
      else if !(Distinct(order) && Elements(order) == s.listeners.Keys) then None
      else Some(s.(closed := true, listeners := map[], queued := s.queued + Closures(order)))
    case Poll =>
      if !s.reader.Polling? then None
      else if s.synth != [] then Some(Deliver(s, s.synth[0]).(synth := s.synth[1..]))
      else Some(s.(reader := Draining))
    case Drain =>
      if !s.reader.Draining? then None
      else if s.queued != [] then Some(Deliver(s, s.queued[0]).(queued := s.queued[1..]))
      else if s.deferred then Some(s.(deferred := false, reader := Failed))
      else Some(s.(reader := Waiting))
    case TakeSynth =>
      if s.reader.Waiting? && s.synth != [] then Some(Deliver(s, s.synth[0]).(synth := s.synth[1..])) else None
    case Surface => if s.reader.Waiting? then Some(Deliver(s, Other)) else None
    case Arrive(k) => if s.reader.Waiting? then Some(s.(reader := Translating(k))) else None
    case Snapshot(ids) =>
      if !(s.reader.Translating? && Distinct(ids) && Elements(ids) == Wanting(s, s.reader.kind)) then None
      else
        Some(s.(events := s.events + 1, reader := Fanning(ids, []),
                owed := s.owed + Elements(Notices(ids, s.events + 1))))
    case FanOne =>
      if !(s.reader.Fanning? && s.reader.todo != []) then None
      else
        var m, rest := Notice(s.reader.todo[0], s.events), s.reader.todo[1..];
        if |s.synth| < SYNTH_SLOTS then Some(s.(synth := s.synth + [m], reader := Fanning(rest, s.reader.overflow)))
        else Some(s.(reader := Fanning(rest, s.reader.overflow + [m])))
    case FanEnds =>
      if !(s.reader.Fanning? && s.reader.todo == []) then None
      else Some(s.(queued := s.queued + s.reader.overflow, reader := Polling))
    case Breaks => if s.reader.Waiting? then Some(s.(reader := Examining)) else None
    case Examine =>
      if !s.reader.Examining? then None
      else Some(s.(reader := Weighing(s.queued != []), doomed := set m | m in s.queued && m.Closure?))
    case Weigh =>
      if !s.reader.Weighing? then None
      else if s.synth != [] then Some(Deliver(s, s.synth[0]).(synth := s.synth[1..], deferred := true))
      else if s.reader.pending then Some(s.(reader := Polling, deferred := true))
      else Some(s.(reader := Failed))
  }

  ghost function Run(acts: seq<Action>): Option<Sys> {
    if acts == [] then Some(START)
    else
      var before := Run(acts[..|acts| - 1]);
      if before.None? then None else Step(before.value, acts[|acts| - 1])
  }

  // ---- Where messages are ----

  function Overflow(s: Sys): seq<Message> { if s.reader.Fanning? then s.reader.overflow else [] }

  function Todo(s: Sys): seq<StreamId> { if s.reader.Fanning? then s.reader.todo else [] }

  predicate NoNotice(ms: seq<Message>) { forall m :: m in ms ==> !m.Notice? }

  /** Notices wait outside read only while their own event is being passed on. */
  ghost predicate Staged(s: Sys) {
    && (s.reader.Draining? ==> NoNotice(s.synth))
    && (s.reader.Waiting? || s.reader.Translating? || s.reader.Examining? || s.reader.Weighing? ==>
          NoNotice(s.synth) && NoNotice(s.queued))
    && (s.reader.Fanning? ==> NoNotice(s.queued) && Distinct(s.reader.todo))
    && (forall m :: (m in s.synth || m in s.queued) && m.Notice? ==> m.event == s.events)
    && (forall m :: m in Overflow(s) ==> m.Notice? && m.event == s.events)
  }

  /** Steps that only take from the channel or the queue, or move the reader. */
  predicate Shrinks(s: Sys, t: Sys) {
    && t.events == s.events && (forall m :: m in t.synth && m.Notice? ==> m in s.synth)
    && (forall m :: m in t.queued && m.Notice? ==> m in s.queued)
  }

  lemma StepStaged(s: Sys, a: Action)
    requires Staged(s) && Step(s, a).Some? && !a.Snapshot? && !a.FanOne? && !a.FanEnds?
    ensures Staged(Step(s, a).value)
  {
    assert Shrinks(s, Step(s, a).value) by { StepShrinks(s, a); }
  }

  lemma StepShrinks(s: Sys, a: Action)
    requires Step(s, a).Some? && !a.Snapshot? && !a.FanOne? && !a.FanEnds?
    ensures Shrinks(s, Step(s, a).value)
  {
  }

  lemma FanStaged(s: Sys, a: Action)
    requires Staged(s) && Step(s, a).Some? && (a.FanOne? || a.FanEnds?)
    ensures Staged(Step(s, a).value)
  {
  }

  lemma SnapshotStaged(s: Sys, ids: seq<StreamId>)
    requires Staged(s) && Step(s, Snapshot(ids)).Some?
    ensures Staged(Step(s, Snapshot(ids)).value)
  {
  }

  // ---- Events in order ----

  predicate InOrder(s: Sys) {
    && (forall i :: 0 <= i < |s.read| && s.read[i].Notice? ==> s.read[i].event <= s.events)
    && (forall i, j :: 0 <= i < j < |s.read| && s.read[i].Notice? && s.read[j].Notice? ==> s.read[i].event <= s.read[j].event)
  }

  lemma StepInOrder(s: Sys, a: Action)
    requires Staged(s) && InOrder(s) && Step(s, a).Some?
    ensures InOrder(Step(s, a).value)
  {
    StepReadsCurrent(s, a);
    hide Step, Staged;
  }

  /** Read returns one message at a time, and a notice only of the current event. */
  lemma StepReadsCurrent(s: Sys, a: Action)
    requires Staged(s) && Step(s, a).Some?
    ensures var t := Step(s, a).value;
            && t.events >= s.events
            && (t.read == s.read || (t.read == s.read + [t.read[|s.read|]]
                  && (t.read[|s.read|].Notice? ==> t.read[|s.read|].event == s.events)))
  {
    hide Wants, Closures, Notices, Wanting, Distinct, Elements;
  }

  // ---- Acknowledgments first ----

  predicate HasRead(s: Sys, m: Message) { m in s.read }

  /** The acknowledgment has been read, or waits in the channel ahead of position at. */
  predicate AckedBy(s: Sys, id: StreamId, at: nat) {
    HasRead(s, Ack(id)) || exists k :: 0 <= k < at && k < |s.synth| && s.synth[k] == Ack(id)
  }

  predicate Acked(s: Sys) {
    && (forall id :: id in s.listeners ==> AckedBy(s, id, |s.synth|))
    && (forall id :: id in s.writers && s.writers[id].Pushed? ==> AckedBy(s, id, |s.synth|))
    && (forall i :: 0 <= i < |s.synth| && s.synth[i].Notice? ==> AckedBy(s, s.synth[i].stream, i))
    && (forall i :: 0 <= i < |s.queued| && s.queued[i].Notice? ==>
          if s.reader.Draining? then HasRead(s, Ack(s.queued[i].stream)) else AckedBy(s, s.queued[i].stream, |s.synth|))
    && (forall i :: 0 <= i < |Overflow(s)| && Overflow(s)[i].Notice? ==> AckedBy(s, Overflow(s)[i].stream, |s.synth|))
    && (forall i :: 0 <= i < |Todo(s)| ==> AckedBy(s, Todo(s)[i], |s.synth|))
  }

  predicate AckFirst(read: seq<Message>) {
    forall j :: 0 <= j < |read| && read[j].Notice? ==> exists i :: 0 <= i < j && read[i] == Ack(read[j].stream)
  }

  lemma TakeAcked(s: Sys, t: Sys)
    requires Acked(s) && Staged(s) && !s.reader.Draining? && !s.reader.Fanning? && s.synth != []
    requires t == Deliver(s, s.synth[0]).(synth := s.synth[1..], deferred := t.deferred)
    ensures Acked(t)
  {
  }

  predicate Grows(s: Sys, t: Sys) {
    s.synth <= t.synth && (forall m :: m in s.read ==> m in t.read)
  }

  predicate Keeps(s: Sys, t: Sys) {
    && Grows(s, t)
    && (forall id :: id in t.listeners ==> id in s.listeners || (id in s.writers && s.writers[id].Pushed?))
    && (forall i :: |s.synth| <= i < |t.synth| && t.synth[i].Notice? ==>
          Todo(s) != [] && t.synth[i].stream == Todo(s)[0])
    && (forall i :: 0 <= i < |t.queued| && t.queued[i].Notice? ==> t.queued[i] in s.queued || t.queued[i] in Overflow(s))
    && (forall i :: 0 <= i < |Overflow(t)| ==>
          Overflow(t)[i] in Overflow(s) || (Todo(s) != [] && Overflow(t)[i] == Notice(Todo(s)[0], s.events)))
    && (forall i :: 0 <= i < |Todo(t)| ==> Todo(t)[i] in Todo(s) || Todo(t)[i] in s.listeners)
    && (forall id :: id in t.writers && t.writers[id].Pushed? ==>
          (id in s.writers && s.writers[id].Pushed?) || (t.synth != [] && t.synth[|t.synth| - 1] == Ack(id)))
  }

  lemma KeepsAcked(s: Sys, t: Sys)
    requires Acked(s) && Keeps(s, t) && (t.reader.Draining? ==> s.reader.Draining?)
    ensures Acked(t)
  {
  }

  predicate Takes(s: Sys, a: Action) { (a.Poll? || a.TakeSynth? || a.Weigh?) && s.synth != [] }

  predicate Fans(a: Action) { a.Snapshot? || a.FanOne? || a.FanEnds? }

  /** The channel may gain one message that is no notice, and the queue lose some. */
  lemma QuietKeeps(s: Sys, t: Sys)
    requires s.synth <= t.synth <= s.synth + [Other] || (exists id :: t.synth == s.synth + [Ack(id)])
    requires s.read <= t.read && Overflow(t) == Overflow(s) && Todo(t) == Todo(s)
    requires forall m :: m in t.queued ==> m in s.queued
    requires forall id :: id in t.listeners ==> id in s.listeners || (id in s.writers && s.writers[id].Pushed?)
    requires forall id :: id in t.writers && t.writers[id].Pushed? ==>
      (id in s.writers && s.writers[id].Pushed?) || t.synth == s.synth + [Ack(id)]
    ensures Keeps(s, t)
  {
  }

  lemma StepKeeps(s: Sys, a: Action)
    requires Step(s, a).Some? && !Takes(s, a) && !a.Poll? && !Fans(a) && !a.Close?
    ensures Keeps(s, Step(s, a).value)
  {
    hide Distinct, Elements, Wanting, Closures, Notices, Wants, Keeps;
    QuietKeeps(s, Step(s, a).value);
  }

  lemma CloseKeeps(s: Sys, order: seq<StreamId>)
    requires Step(s, Close(order)).Some?
    ensures Keeps(s, Step(s, Close(order)).value)
  {
  }

  lemma SnapshotKeeps(s: Sys, ids: seq<StreamId>)
    requires Step(s, Snapshot(ids)).Some?
    ensures Keeps(s, Step(s, Snapshot(ids)).value)
  {
    assert forall i :: 0 <= i < |ids| ==> ids[i] in Elements(ids);
    hide Distinct, Closures, Notices, Wants;
  }

  lemma FanOneKeeps(s: Sys)
    requires Step(s, FanOne).Some?
    ensures Keeps(s, Step(s, FanOne).value)
  {
    hide Distinct, Closures, Notices, Wants, Wanting, Elements;
  }

  lemma FanEndsKeeps(s: Sys)
    requires Step(s, FanEnds).Some?
    ensures Keeps(s, Step(s, FanEnds).value)
  {
    hide Distinct, Closures, Notices, Wants, Wanting, Elements;
  }

  lemma FanKeeps(s: Sys, a: Action)
    requires Step(s, a).Some? && Fans(a)
    ensures Keeps(s, Step(s, a).value)
  {
    hide Step, Keeps;
    match a
    case Snapshot(ids) => SnapshotKeeps(s, ids);
    case FanOne => FanOneKeeps(s);
    case FanEnds => FanEndsKeeps(s);
  }

  lemma PollAcked(s: Sys)
    requires Acked(s) && Staged(s) && s.reader.Polling? && s.synth == []
    ensures Acked(s.(reader := Draining))
  {
    var t := s.(reader := Draining);
    assert forall id :: AckedBy(t, id, 0) == AckedBy(s, id, 0) == HasRead(s, Ack(id)) == HasRead(t, Ack(id));
  }

  lemma OnlyPollDrains(s: Sys, a: Action)
    requires Step(s, a).Some? && !Takes(s, a) && !a.Poll?
    ensures Step(s, a).value.reader.Draining? ==> s.reader.Draining?
  {
    hide Distinct, Elements, Wanting, Closures, Notices;
  }

  lemma TakeStepAcked(s: Sys, a: Action)
    requires Acked(s) && Staged(s) && Step(s, a).Some? && Takes(s, a)
    ensures Acked(Step(s, a).value)
  {
    hide Acked, Staged;
    TakeAcked(s, Step(s, a).value);
  }

  lemma StepAcked(s: Sys, a: Action)
    requires Acked(s) && Staged(s) && Step(s, a).Some?
    ensures Acked(Step(s, a).value)
  {
    hide Staged, Acked, Keeps;
    var t := Step(s, a).value;
    if Takes(s, a) {
      TakeStepAcked(s, a);
    } else if a.Poll? {
      PollAcked(s);
    } else {
      hide Step;
      OnlyPollDrains(s, a);
      if Fans(a) {
        FanKeeps(s, a);
      } else if a.Close? {
        CloseKeeps(s, a.order);
      } else {
        StepKeeps(s, a);
      }
      KeepsAcked(s, t);
    }
  }

  lemma StepAckFirst(s: Sys, a: Action)
    requires Acked(s) && Staged(s) && AckFirst(s.read) && Step(s, a).Some?
    ensures AckFirst(Step(s, a).value.read)
  {
    hide Step, Acked, Staged, AckFirst;
    StepReads(s, a);
    var t := Step(s, a).value;
    AckFirstNext(s.read, t.read);
  }

  lemma AckFirstNext(before: seq<Message>, after: seq<Message>)
    requires AckFirst(before)
    requires after == before || (|after| == |before| + 1 && after[..|before|] == before
               && (after[|before|].Notice? ==> Ack(after[|before|].stream) in before))
    ensures AckFirst(after)
  {
    forall j | 0 <= j < |after| && after[j].Notice?
      ensures exists i :: 0 <= i < j && after[i] == Ack(after[j].stream)
    {
      if j < |before| {
        var i :| 0 <= i < j && before[i] == Ack(before[j].stream);
        assert after[i] == before[i];
      } else {
        var i :| 0 <= i < |before| && before[i] == Ack(after[j].stream);
        assert after[i] == before[i];
      }
    }
  }

  lemma StepReads(s: Sys, a: Action)
    requires Acked(s) && Staged(s) && Step(s, a).Some?
    ensures var t := Step(s, a).value;
            t.read == s.read || (t.read == s.read + [t.read[|s.read|]]
              && (t.read[|s.read|].Notice? ==> HasRead(s, Ack(t.read[|s.read|].stream))))
  {
    hide Distinct, Elements, Wanting, Wants;
  }

  // ---- Nothing dropped, nothing twice ----

  ghost function Tally(s: Sys, m: Message): nat {
    multiset(s.read)[m] + multiset(s.synth)[m] + multiset(s.queued)[m] + multiset(Overflow(s))[m]
    + Weight(m.Notice? && m.event == s.events && m.stream in Todo(s))
  }

  ghost predicate Conserved(s: Sys, m: Message) {
    m.Notice? ==> Tally(s, m) == Weight(m in s.owed) && (m in s.owed ==> m.event <= s.events)
  }

  lemma Pop(q: seq<Message>, m: Message)
    requires q != []
    ensures multiset(q)[m] == multiset(q[1..])[m] + Weight(q[0] == m)
  {
    assert q == [q[0]] + q[1..];
  }

  lemma Push(q: seq<Message>, x: Message, m: Message)
    ensures multiset(q + [x])[m] == multiset(q)[m] + Weight(x == m)
  {
  }

  lemma StepConserved(s: Sys, a: Action, m: Message)
    requires Conserved(s, m) && Staged(s) && Step(s, a).Some?
    ensures Conserved(Step(s, a).value, m)
  {
    hide Step, Staged, Conserved;
    if !m.Notice? {
      NotANotice(Step(s, a).value, m);
    } else {
      match a
      case PushAck(_) => PushConserved(s, a, m);
      case PushOther => PushConserved(s, a, m);
      case Close(order) => CloseConserved(s, order, m);
      case Surface => SurfaceConserved(s, m);
      case Drain => DrainConserved(s, m);
      case FanEnds => EndConserved(s, m);
      case FanOne => FanConserved(s, m);
      case Snapshot(ids) => SnapshotConserved(s, ids, m);
      case _ =>
        if Takes(s, a) {
          TakeConserved(s, a, m);
        } else {
          QuietConserved(s, a, m);
        }
    }
  }

  lemma NotANotice(s: Sys, m: Message)
    requires !m.Notice?
    ensures Conserved(s, m)
  {
  }

  predicate Moves(a: Action) {
    a.PushAck? || a.PushOther? || a.Close? || a.Surface? || a.Drain? || a.FanEnds? || a.FanOne? || a.Snapshot?
  }

  lemma QuietConserved(s: Sys, a: Action, m: Message)
    requires Conserved(s, m) && Step(s, a).Some? && !Takes(s, a) && !Moves(a)
    ensures Conserved(Step(s, a).value, m)
  {
    hide Conserved;
    var t := Step(s, a).value;
    SameTally(s, t, m);
  }

  lemma SameTally(s: Sys, t: Sys, m: Message)
    requires Conserved(s, m) && t.read == s.read && t.synth == s.synth && t.queued == s.queued
    requires t.events == s.events && t.owed == s.owed && Overflow(t) == Overflow(s) && Todo(t) == Todo(s)
    ensures Conserved(t, m)
  {
  }

  lemma SurfaceConserved(s: Sys, m: Message)
    requires Conserved(s, m) && m.Notice? && Step(s, Surface).Some?
    ensures Conserved(Step(s, Surface).value, m)
  {
  }

  lemma PushConserved(s: Sys, a: Action, m: Message)
    requires Conserved(s, m) && m.Notice? && (a.PushAck? || a.PushOther?) && Step(s, a).Some?
    ensures Conserved(Step(s, a).value, m)
  {
    hide Conserved;
    QueuesQuietly(s, Step(s, a).value, if a.PushAck? then Ack(a.stream) else Other, m);
  }

  lemma QueuesQuietly(s: Sys, t: Sys, x: Message, m: Message)
    requires Conserved(s, m) && m.Notice? && !x.Notice? && t == s.(synth := s.synth + [x], writers := t.writers)
    ensures Conserved(t, m)
  {
    Push(s.synth, x, m);
  }

  lemma CloseConserved(s: Sys, order: seq<StreamId>, m: Message)
    requires Conserved(s, m) && m.Notice? && Step(s, Close(order)).Some?
    ensures Conserved(Step(s, Close(order)).value, m)
  {
    hide Distinct, Elements;
  }

  lemma TakeConserved(s: Sys, a: Action, m: Message)
    requires Conserved(s, m) && m.Notice? && Takes(s, a) && Step(s, a).Some?
    ensures Conserved(Step(s, a).value, m)
  {
    hide Conserved;
    TakesFirst(s, Step(s, a).value, m);
  }

  lemma TakesFirst(s: Sys, t: Sys, m: Message)
    requires Conserved(s, m) && m.Notice? && s.synth != [] && !s.reader.Fanning?
    requires t == Deliver(s, s.synth[0]).(synth := s.synth[1..], deferred := t.deferred)
    ensures Conserved(t, m)
  {
    Pop(s.synth, m);
    Push(s.read, s.synth[0], m);
  }

  lemma DrainConserved(s: Sys, m: Message)
    requires Conserved(s, m) && m.Notice? && Step(s, Drain).Some?
    ensures Conserved(Step(s, Drain).value, m)
  {
    if s.queued != [] {
      Pop(s.queued, m);
      Push(s.read, s.queued[0], m);
    }
  }

  lemma EndConserved(s: Sys, m: Message)
    requires Conserved(s, m) && m.Notice? && Step(s, FanEnds).Some?
    ensures Conserved(Step(s, FanEnds).value, m)
  {
  }

  lemma SnapshotConserved(s: Sys, ids: seq<StreamId>, m: Message)
    requires Conserved(s, m) && m.Notice? && Staged(s) && Step(s, Snapshot(ids)).Some?
    ensures Conserved(Step(s, Snapshot(ids)).value, m)
  {
    var ns := Notices(ids, s.events + 1);
    assert m in ns <==> m.event == s.events + 1 && m.stream in ids by {
      if m.event == s.events + 1 && m.stream in ids {
        var i :| 0 <= i < |ids| && ids[i] == m.stream;
        assert ns[i] == m;
      }
    }
    assert m in Elements(ns) <==> m in ns;
    hide Notices, Wanting;
  }

  lemma FanConserved(s: Sys, m: Message)
    requires Conserved(s, m) && m.Notice? && Staged(s) && Step(s, FanOne).Some?
    ensures Conserved(Step(s, FanOne).value, m)
  {
    assert Distinct(s.reader.todo);
    hide Staged, Distinct;
    var todo, x := s.reader.todo, Notice(s.reader.todo[0], s.events);
    FanTodo(todo, m.stream);
    if |s.synth| < SYNTH_SLOTS {
      FanToSynth(s, m, x);
    } else {
      FanToOverflow(s, m, x);
    }
  }

  predicate FansNext(s: Sys, m: Message, x: Message) {
    && m.Notice? && s.reader.Fanning? && s.reader.todo != [] && x == Notice(s.reader.todo[0], s.events)
    && Weight(m.stream in s.reader.todo) == Weight(m.stream == s.reader.todo[0]) + Weight(m.stream in s.reader.todo[1..])
  }

  lemma FanToSynth(s: Sys, m: Message, x: Message)
    requires Conserved(s, m) && FansNext(s, m, x)
    ensures Conserved(s.(synth := s.synth + [x], reader := Fanning(s.reader.todo[1..], s.reader.overflow)), m)
  {
    Push(s.synth, x, m);
  }

  lemma FanToOverflow(s: Sys, m: Message, x: Message)
    requires Conserved(s, m) && FansNext(s, m, x)
    ensures Conserved(s.(reader := Fanning(s.reader.todo[1..], s.reader.overflow + [x])), m)
  {
    Push(s.reader.overflow, x, m);
  }

  lemma FanTodo(todo: seq<StreamId>, id: StreamId)
    requires todo != [] && Distinct(todo)
    ensures Weight(id in todo) == Weight(id == todo[0]) + Weight(id in todo[1..])
  {
  }

  // ---- Closures before the error ----

  predicate Mourned(s: Sys) {
    && (forall m :: m in s.doomed ==> m in s.queued || m in s.read)
    && (s.reader.Failed? ==> forall m :: m in s.doomed ==> m in s.read)
    && (s.reader.Weighing? && !s.reader.pending ==> s.doomed == {})
  }

  lemma StepMourned(s: Sys, a: Action)
    requires Mourned(s) && Step(s, a).Some?
    ensures Mourned(Step(s, a).value)
  {
    if a.Drain? && s.queued != [] {
      assert s.queued == [s.queued[0]] + s.queued[1..];
    }
    hide Distinct, Elements, Wanting, Wants, Closures, Notices;
  }

  // ---- Runs ----

  ghost predicate Inv(s: Sys) {
    Staged(s) && InOrder(s) && Acked(s) && AckFirst(s.read) && Mourned(s) && forall m :: Conserved(s, m)
  }

  lemma StepInv(s: Sys, a: Action)
    requires Inv(s) && Step(s, a).Some?
    ensures Inv(Step(s, a).value)
  {
    if a.Snapshot? {
      SnapshotStaged(s, a.ids);
    } else if a.FanOne? || a.FanEnds? {
      FanStaged(s, a);
    } else {
      StepStaged(s, a);
    }
    hide Step, Staged, InOrder, Acked, AckFirst, Mourned, Conserved;
    StepInOrder(s, a);
    StepAcked(s, a);
    StepAckFirst(s, a);
    StepMourned(s, a);
    forall m
      ensures Conserved(Step(s, a).value, m)
    {
      StepConserved(s, a, m);
    }
  }

  lemma {:induction false} RunInv(acts: seq<Action>)
    requires Run(acts).Some?
    ensures Inv(Run(acts).value)
  {
    if acts != [] {
      RunInv(acts[..|acts| - 1]);
      StepInv(Run(acts[..|acts| - 1]).value, acts[|acts| - 1]);
      hide Inv, Step;
    }
  }

  /** On every stream the acknowledgment is read before any notice. */
  lemma AcknowledgedFirst(acts: seq<Action>, j: nat)
    requires Run(acts).Some? && j < |Run(acts).value.read| && Run(acts).value.read[j].Notice?
    ensures var read := Run(acts).value.read; exists i :: 0 <= i < j && read[i] == Ack(read[j].stream)
  {
    RunInv(acts);
    hide Run, Staged, InOrder, Acked, Mourned, Conserved;
  }

  /**
  Whenever the reader goes back to the legacy server, every notice owed for a list_changed - one for each
  listener that wanted it and was registered when it was taken - has been read exactly once, no other notice
  has been read, and notices were read in the order of their events.
  */
  lemma NoticesDelivered(acts: seq<Action>, m: Message)
    requires Run(acts).Some? && Run(acts).value.reader.Waiting? && m.Notice?
    ensures var s := Run(acts).value;
            && multiset(s.read)[m] == (if m in s.owed then 1 else 0)
            && forall i, j :: 0 <= i < j < |s.read| && s.read[i].Notice? && s.read[j].Notice? ==> s.read[i].event <= s.read[j].event
  {
    RunInv(acts);
    var s := Run(acts).value;
    assert Conserved(s, m);
    assert m !in s.synth && m !in s.queued;
    hide Run, Acked, AckFirst, Mourned;
  }

  /** A notice of the list_changed being taken, for a listener that is registered and wants it. */
  predicate Due(s: Sys, m: Message) {
    && s.reader.Translating? && m.Notice? && m.event == s.events + 1
    && m.stream in s.listeners
    && var f, k := s.listeners[m.stream], s.reader.kind;
       (k == Tools && f.tools) || (k == Prompts && f.prompts) || (k == Resources && f.resources)
  }

  /**
  Taking a list_changed owes a notice to each listener registered for it, and to no other; none of these
  was owed or had been read before.
  */
  lemma SnapshotOwes(acts: seq<Action>, ids: seq<StreamId>, m: Message)
    requires Run(acts).Some? && Step(Run(acts).value, Snapshot(ids)).Some?
    ensures var s := Run(acts).value; var t := Step(s, Snapshot(ids)).value;
            && (m in t.owed <==> m in s.owed || Due(s, m))
            && (Due(s, m) ==> m !in s.owed && m !in s.read)
  {
    hide Run, Step, Staged, InOrder, Acked, AckFirst, Mourned, Conserved, Due;
    RunInv(acts);
    SnapshotTakes(Run(acts).value, ids, m);
    if Due(Run(acts).value, m) {
      DueIsNew(Run(acts).value, m);
    }
  }

  lemma SnapshotTakes(s: Sys, ids: seq<StreamId>, m: Message)
    requires Step(s, Snapshot(ids)).Some?
    ensures m in Step(s, Snapshot(ids)).value.owed <==> m in s.owed || Due(s, m)
  {
    NoticesOf(ids, s.events + 1, m);
    assert m.Notice? ==> (m.stream in ids <==> m.stream in Elements(ids));
    hide Notices;
  }

  lemma NoticesOf(ids: seq<StreamId>, event: nat, m: Message)
    ensures m in Notices(ids, event) <==> m.Notice? && m.event == event && m.stream in ids
  {
    if m.Notice? && m.event == event && m.stream in ids {
      var i :| 0 <= i < |ids| && ids[i] == m.stream;
      assert Notices(ids, event)[i] == m;
    }
  }

  lemma DueIsNew(s: Sys, m: Message)
    requires Conserved(s, m) && Due(s, m)
    ensures m !in s.owed && m !in s.read
  {
  }

  /** The closures that were queued when the reader examined a transport error have all been read before it surfaces. */
  lemma ClosuresBeforeError(acts: seq<Action>)
    requires Run(acts).Some? && Run(acts).value.reader.Failed?
    ensures forall m :: m in Run(acts).value.doomed ==> m in Run(acts).value.read
  {
    RunInv(acts);
    hide Run, Staged, InOrder, Acked, AckFirst, Conserved;
  }

  /**
  A closure is no notice: one that Close queues while the reader stands between the channel and the queue is
  read before the acknowledgment of its own stream.
  */
  lemma ClosureMayOvertake()
    ensures var f := ListenFilter(true, false, false);
            var acts := [Poll, Listen(1, f), PushAck(1), Register(1), Close([1]), Drain];
            Run(acts).Some? && Run(acts).value.read == [Closure(1)] && Run(acts).value.synth == [Ack(1)]
  {
    var f := ListenFilter(true, false, false);
    var acts := [Poll, Listen(1, f), PushAck(1), Register(1), Close([1]), Drain];
    hide Run;
    RunNone();
    assert acts[..0] == [] && acts[..6] == acts;
    var s := START.(reader := Draining);
    RunNext(acts, 0, s);
    s := s.(writers := s.writers[1 := Pushing(f)]);
    RunNext(acts, 1, s);
    s := s.(writers := s.writers[1 := Pushed(f)], synth := s.synth + [Ack(1)]);
    RunNext(acts, 2, s);
    s := s.(writers := s.writers[1 := Returned], listeners := s.listeners[1 := f]);
    RunNext(acts, 3, s);
    assert Elements([1]) == s.listeners.Keys;
    s := s.(closed := true, listeners := map[], queued := s.queued + Closures([1]));
    RunNext(acts, 4, s);
    assert s.queued == [Closure(1)];
    RunNext(acts, 5, Deliver(s, s.queued[0]).(queued := s.queued[1..]));
  }

  lemma RunNone()
    ensures Run([]) == Some(START)
  {
  }

  lemma RunNext(acts: seq<Action>, n: nat, t: Sys)
    requires n < |acts| && Run(acts[..n]).Some? && Step(Run(acts[..n]).value, acts[n]) == Some(t)
    ensures Run(acts[..n + 1]) == Some(t)
  {
    assert acts[..n + 1][..n] == acts[..n];
  }
}
