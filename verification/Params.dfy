/**
Reading a request's params (params.go): the scan, the parse, and the rule that no two fields differ
only by case. encoding/json is a parameter: the tree its parse of the bytes gives, if they are JSON.
*/
module Params {
  import opened Common
  import opened Utf8
  import opened Json
  import opened ScanModel
  import opened CaseFold
  import opened Scanner

  /** Field names to raw values, each held as the tree whose text it is. */
  type Fields = map<Bytes, Value>

  datatype Fault = BadBody | Deep | Repeats(key: Bytes) | CaseClash(key: Bytes, other: Bytes) | NotString

  /** What json.Unmarshal makes of an object: for a repeated key, the last value. */
  function Members(items: Items): Fields {
    match items
    case End(_) => map[]
    case Item(_, tag, value, _, rest) =>
      (if tag.Key? then map[Decode(tag.name) := value] else map[]) + Members(rest)
  }

  ghost predicate Parses(raw: Bytes, doc: Option<Doc>) {
    if doc.Some? then DocOk(doc.value) && PrintDoc(doc.value) == raw
    else forall d :: DocOk(d) ==> PrintDoc(d) != raw
  }

  predicate UnicodeSpace(r: Rune) {
    || 0x09 <= r <= 0x0D || r == 0x20 || r == 0x85 || r == 0xA0 || r == 0x1680 || 0x2000 <= r <= 0x200A
    || r == 0x2028 || r == 0x2029 || r == 0x202F || r == 0x205F || r == 0x3000
  }

  /** bytes.TrimSpace leaves nothing. */
  predicate Blank(raw: Bytes) { forall r :: r in Runes(raw) ==> UnicodeSpace(r) }

  ghost predicate FoldDistinct(fold: Folding, keys: set<Bytes>) {
    forall a, b :: a in keys && b in keys && a != b ==> !EqualFold(fold, a, b)
  }

  predicate Less(a: Bytes, b: Bytes) {
    b != [] && (a == [] || a[0] < b[0] || (a[0] == b[0] && Less(a[1..], b[1..])))
  }

  /** checkCaseUnique: one pass over the fields with a map from canonical key to the key that gave it. */
  method CheckCaseUnique(fold: Folding, p: Fields) returns (clash: Option<Fault>)
    requires FoldingOk(fold)
    ensures clash.None? <==> FoldDistinct(fold, p.Keys)
    ensures clash.Some? ==>
      && clash.value.CaseClash? && clash.value.key in p && clash.value.other in p
      && clash.value.key != clash.value.other && EqualFold(fold, clash.value.key, clash.value.other)
  {
    hide FoldKey, EqualFold, FoldingOk, Less;
    var folded: map<Bytes, Bytes> := map[];
    var todo := p.Keys;
    while todo != {}
      invariant todo <= p.Keys
      invariant forall k :: k in p && k !in todo ==> FoldKey(fold, k) in folded && folded[FoldKey(fold, k)] == k
      invariant forall c :: c in folded ==> folded[c] in p && folded[c] !in todo && FoldKey(fold, folded[c]) == c
      decreases |todo|
    {
      var key :| key in todo;
      todo := todo - {key};
      var canonical := ComputeFoldKey(fold, key);
      if canonical in folded {
        var prior := folded[canonical];
        FoldKeyAgrees(fold, key, prior);
        FoldKeyAgrees(fold, prior, key);
        return Some(if Less(prior, key) then CaseClash(key, prior) else CaseClash(prior, key));
      }
      folded := folded[canonical := key];
    }
    forall a, b | a in p && b in p && EqualFold(fold, a, b)
      ensures a == b
    {
      FoldKeyAgrees(fold, a, b);
    }
    return None;
  }

  /** What json.Unmarshal into a map answers; a null document leaves the map nil. */
  function Unmarshal(doc: Option<Doc>): Result<Fields, Fault> {
    if doc.None? then Err(BadBody)
    else
      match doc.value.value
      case Null => Ok(map[])
      case Container(isObject, items) => if isObject then Ok(Members(items)) else Err(BadBody)
      case _ => Err(BadBody)
  }

  /** One document, one meaning: the accepted texts and what they are read as. */
  ghost predicate Unambiguous(fold: Folding, v: Value) {
    && SingleKeyed(v) && Nesting(v) <= MAX_PARAMS_DEPTH
    && (v.Null? || (v.Container? && v.isObject && FoldDistinct(fold, Elements(Keys(v.items)))))
  }

  lemma {:induction false} MembersKeys(items: Items)
    ensures Members(items).Keys == Elements(Keys(items))
  {
    if items.Item? {
      MembersKeys(items.rest);
    }
  }

  method DecodeParams(fold: Folding, raw: Bytes, doc: Option<Doc>) returns (r: Result<Fields, Fault>)
    requires FoldingOk(fold) && Parses(raw, doc)
    ensures Blank(raw) ==> r == Ok(map[])
    ensures !Blank(raw) ==> (r.Ok? <==> doc.Some? && Unambiguous(fold, doc.value.value))
    ensures !Blank(raw) && r.Ok? ==> r == Unmarshal(doc)
    ensures r.Err? && r.error.CaseClash? ==> EqualFold(fold, r.error.key, r.error.other) && r.error.key != r.error.other
    ensures r.Err? && r.error.Deep? && doc.Some? ==> Nesting(doc.value.value) > MAX_PARAMS_DEPTH
    ensures r.Err? && r.error.Repeats? && doc.Some? ==> !SingleKeyed(doc.value.value)
    ensures r.Err? && doc.Some? && Nesting(doc.value.value) <= MAX_PARAMS_DEPTH ==>
      var v := doc.value.value;
      if !SingleKeyed(v) then r.error.Repeats? else if v.Container? && v.isObject then r.error.CaseClash? else r.error == BadBody
  {
    if Blank(raw) {
      return Ok(map[]);
    }
    var v := ScanUnambiguous(raw);
    if doc.Some? {
      ScanMeans(doc.value);
    }
    hide Run, PrintDoc, DocOk, SingleKeyed, FoldDistinct, FoldingOk, Nesting;
    match v {
      case NotObject => return Err(BadBody);
      case TooDeep => return Err(Deep);
      case Ambiguous(key) => return Err(Repeats(key));
      case Clear =>
    }
    var p := Unmarshal(doc);
    if p.Err? {
      return p;
    }
    if doc.value.value.Null? {
      return Ok(map[]);
    }
    var clash := CheckCaseUnique(fold, p.value);
    MembersKeys(doc.value.value.items);
    return if clash.Some? then Err(clash.value) else p;
  }

  // ---- Reading one field ----

  /** No other field of p spells key with different case. */
  ghost predicate Readable(fold: Folding, p: Fields, key: Bytes) {
    forall other :: other in p && other != key ==> !EqualFold(fold, other, key)
  }

  method CheckReadable(fold: Folding, p: Fields, key: Bytes) returns (clash: Option<Fault>)
    requires FoldingOk(fold)
    ensures clash.None? <==> Readable(fold, p, key)
    ensures clash.Some? ==> clash.value.CaseClash?
  {
    var todo := p.Keys;
    while todo != {}
      invariant todo <= p.Keys
      invariant forall k :: k in p && k !in todo && k != key ==> !EqualFold(fold, k, key)
      decreases |todo|
    {
      var other :| other in todo;
      todo := todo - {other};
      if other != key {
        var equal := EqualFoldKey(fold, other, key);
        if equal {
          return Some(if Less(other, key) then CaseClash(key, other) else CaseClash(other, key));
        }
      }
    }
    return None;
  }
}
