# Verified models of the NATS MCP gateway

This project models the gateway's concurrent state machines and the text machinery its request path
depends on, and proves what they are for. A section of the program that holds a mutex is one atomic step;
a channel is a bounded sequence; a goroutine is a phase in a map of goroutines, so that any number of them
interleave in any order. A run is a sequence of steps, each enabled where it happens, and the main theorems
quantify over every run. Code that changes an object in place is also a class here, with the source's loops,
and each of its methods is proved equal to the function the theorems are about.

Check everything with `dafny verify dfyconfig.toml`.

| Area | Values and steps | Invariants and theorems | Objects and loops |
| --- | --- | --- | --- |
| Backend pool and reconciler | `PoolModel`, `ReconcileModel`, `GatewaySystem` | `GatewayShape`, `GatewayAdmission`, `GatewayCap`, `GatewayConservation`, `GatewayFreshness`, `GatewayTheorems`, `GatewayHistory`, `GatewayOutcomes`, `GatewayEviction`, `GatewayInflight`, `GatewayCredentials` | `Pool.dfy` (`PoolObject`), `Reconciler.dfy` (`ReconcilerObject`) |
| Credential cache | `CredModel`, `CredSystem` | `CredLocks`, `CredTheorems`, `CredBackoff`, `CredAnswers`, `CredSpacing`, `CredRotation` | `Cred.dfy` (`CredObject`) |
| Unambiguous params | `Utf8`, `Json`, `ScanModel`, `CaseFold` | in the same modules | `Scanner`, `Params` |
| Wire stream protocol | `StreamModel`, `Dispatch`, `ErrFrame` | in the same modules, `StreamAnswers` | `Wire` |
| Config redelivery | `ConfigModel` | in the same module | `ConfigSource` |
| Legacy bridge | `LegacyModel` | in the same module, `LegacyListeners`, `LegacyClosure` | `Legacy` |
| Multiplexing | `MuxModel` | in the same module, `MuxRouting` | `Mux` |
| Subjects, headers, agreement check | `Subject`, `HeaderValue`, `Integrity` | in the same modules | `Integrity.Check` |

## Where the code and its description part

The models follow the code. Each of these is a theorem or a concrete run below.

- The comment at `pkg/reconcile/reconcile.go:240-244` says that a spawn which resolved the refused definition may
  still install it; the pool's stale flag closes that window, and `FreshBetweenApplies` has no exception for it.
- The branch of `spawnEntry` that adopts a rival's entry (`pkg/backend/pool.go:443-450`) is unreachable (`NoRival`).
- `inflight` may exceed MaxConcurrent: a caller frees its slot before it counts down. What is bounded is the callers
  that hold a slot, and `CountersAreCallers` gives the exact difference;
  `InflightPassesAnyBound` is a run with any number of calls counted in flight and no slot taken.
- Forced refetches of unchanged credentials are spaced by the backoff as long as no store between them moved the
  material (`ForcedRefetchesSpaced`), but a rotation between them lifts the window. The window holds against every run
  exactly when the refetched credentials never expire or live so long that nothing replaces them inside it
  (`WindowHoldsExactly`); for every shorter life `Closest` is a run in which a refresh or an expiry brings a rotation
  early and two forced refetches come closer.
- A consumer that keeps reading gets exactly one terminal if and only if no permission violation ends the stream's
  context while an item is on offer to it (`TerminalUnlessOverlap`); if one does, the terminal can be lost
  (`ViolationDuringDelivery`).
- A request that Do publishes for decodable params with a supported version and its name still needs a readable
  `_meta`: a sibling of `progressToken` that differs by case is refused (`SiblingTokenRefused`), and every
  subject for a method without a name has such a request (`SiblingTokenIsPublished`). `DoPassesCheck` is the
  exact condition.
- `Dedup` round a source that pushes and is not Retryable can lose a revision that was pushed while its own apply was
  failing (`DedupAloneLosesAWakeup`). Every run keeps its wake-ups if and only if Retry fires a swallowed trigger again
  (`WakeupsKeptByRefiring`).
- The comment at `pkg/backend/legacy/compat.go:264-266` says that nothing can reach a stream ahead of its
  acknowledgment. Of notifications that holds (`AcknowledgedFirst`); a graceful closure can come first
  (`ClosureMayOvertake`), exactly if Close finds the reader between the channel and an empty queue, with that
  acknowledgment still in the channel and that closure queued first (`ClosureFollowsAck`).

## Model

| member | source | states |
|---|---|---|
| GatewayTheorems.RunInv | pkg/backend/pool.go:245-748 | Every run of gets, spawns, deaths, reaping, shutdown and applies, interleaved anywhere, keeps all five invariants: the shape of the maps, the slot counters, the tenant cap, the conservation of connections and the freshness of definitions |
| GatewayTheorems.FreshBetweenApplies | pkg/reconcile/reconcile.go:132-275 | Whenever no Apply is in progress, each mapped entry, each orphan and each non-stale spawn whose factory has read its definition comes from the live config's definition of that server, after adopted, refused and repeatedly refused revisions alike |
| GatewayFreshness.AllowedMoves | pkg/reconcile/reconcile.go:164-266 | What an Apply still allows for is carried over from each of its steps to the next, for definitions read before, inside and after the window between publishing and refusing |
| GatewayFreshness.ApplyKeepsFresh | pkg/reconcile/reconcile.go:164-266 | Each store of the reconciler keeps every placed backend and every spawn within what it allows for |
| GatewayFreshness.EvictKeepsFresh | pkg/backend/pool.go:670-724 | Evicting one server since a time removes or marks stale exactly enough: what is left of that server was defined early enough to stay |
| GatewayFreshness.SpawnKeepsFresh | cmd/gateway.go:221-232 | A factory reading the live config, stamping its spawn, connecting and landing keeps freshness, whichever step of Apply it falls into |
| ReconcilerObject.Reconciler.DiffServers | pkg/reconcile/reconcile.go:395-424 | The two loops find exactly the added, removed and changed names |
| ReconcilerObject.Reconciler.Transition | pkg/reconcile/reconcile.go:164-266 | One Apply leaves cur, failed and what it owes the pool: nothing, or after a refusal the eviction of the servers changed or added that were read after the Apply began, or after a success that of the servers changed or removed, whenever read; a refusal restores cur and is remembered, a success adopts the revision and forgets it |
| ReconcilerObject.Services.Stop | pkg/wire/server.go:332-346 | Exactly the named services that can be stopped are forgotten |
| ReconcilerObject.Services.SetServers | pkg/wire/server.go:265-321 | It fails exactly when a service that is not yet bound is refused; then the old set is back, but for added services that would not stop; otherwise the new set is bound, and beside it only old services that would not stop |
| GatewayTheorems.TenantCapHolds | pkg/backend/pool.go:266-300 | In every state live mapped entries, live orphans and pending spawns of a tenant are at most MaxProcsPerTenant, and pending is exactly the number of its spawns that still hold their reservation |
| GatewayCap.TenantCountIsLive | pkg/backend/pool.go:570-588 | The count that Get compares with the cap is the number of distinct live backends of the tenant plus its reservations: no backend is counted twice or missed |
| GatewayCap.ReleaseKeepsReservations | pkg/backend/pool.go:542-554 | Releasing one reservation, including the release that removes the tenant's entry, keeps pending equal to the spawns that hold one |
| GatewayCap.LandKeepsCap | pkg/backend/pool.go:426-493 | A landing spawn swaps its reservation for at most one live backend of its tenant, on the success, adoption, stale and shutdown paths |
| GatewayTheorems.BackendsConserved | pkg/backend/pool.go:401-495 | Every opened connection is in exactly one of mapped, orphaned, still starting and handed to Close, where it was put exactly once; after Shutdown and the last spawn every one was handed to Close |
| GatewayTheorems.LiveWorkIsSpared | pkg/backend/pool.go:603-631 | The step that hands a live connection with callers on it to Close is an eviction or the shutdown: age, idleness and supersession never do |
| GatewayConservation.LookupSpares | pkg/backend/pool.go:251-280 | What a lookup closes, as unusable or superseded, is dead or has no caller |
| GatewayConservation.ReapSpares | pkg/backend/pool.go:603-631 | What the reaper closes is dead or has no caller |
| GatewayTheorems.AdmissionIsChecked | pkg/backend/pool.go:342-363 | A mux is given out only at a step that finds its entry mapped under the key, alive and within its deadline |
| GatewayTheorems.CountersAreCallers | pkg/backend/pool.go:318-363 | waiters and inflight are the numbers of callers in those phases, and at most MaxConcurrent callers hold a slot of an entry at once |
| GatewayInflight.InflightPassesAnyBound | pkg/backend/pool.go:354-363 | For every MaxConcurrent and every n, given an entry that lives long enough, there is a run in which inflight is n and no slot is taken |
| GatewayTheorems.OneBackendPerKey | pkg/backend/pool.go:286-300 | A key never has an unlanded spawn beside a mapped entry, nor two unlanded spawns |
| GatewayShape.NoRival | pkg/backend/pool.go:443-450 | A landing spawn never finds a live entry at its key |
| GatewayTheorems.DeadlineBounds | pkg/backend/pool.go:452-469 | An entry's deadline respects its lifetime and its credentials' expiry, keeps thirty seconds from the expiry whenever the connection was born before that, and is the latest time that does all this |
| GatewayTheorems.BreakerOpens | pkg/backend/pool.go:281-511 | In every run a Get that finds no usable entry is refused as circuit-open exactly when the key's connect failures since its last landed spawn or its server's last eviction reach the threshold and the last one's cooldown still runs |
| GatewayOutcomes.GetOutcome | pkg/backend/pool.go:246-301 | In every run a Get is refused after Shutdown, and otherwise queues on the entry at its key exactly if that is alive and within its deadline; failing that it is refused as circuit-open exactly while the key's failures cool down; failing that it shares a spawn of its key that has not ended; failing that it is refused at the cap if and only if the tenant's live backends, but for those that make way for it, and its spawns that hold a reservation number at least MaxProcsPerTenant, and otherwise starts a spawn |
| GatewayOutcomes.GetGoesOn | pkg/backend/pool.go:246-318 | The caller then leaves, waits for that spawn or queues on that entry, and a new spawn runs exactly if one was started |
| GatewayOutcomes.GetCloses | pkg/backend/pool.go:251-280 | In every run a Get hands to Close exactly the entry at its key that is dead, or past its deadline with no caller, and, when no entry serves, the entries of older credential generations of the same server, tenant and credential set that have no caller |
| GatewayOutcomes.WakeGoesOn | pkg/backend/pool.go:303-332 | A caller woken by its spawn queues on the entry that spawn landed exactly if it is still mapped; otherwise it starts over, at most twice, or leaves with the error |
| GatewayOutcomes.SlotWhenFree | pkg/backend/pool.go:334-341 | In every run a queueing caller can take a slot exactly if fewer than MaxConcurrent callers hold one of that entry |
| GatewayOutcomes.RecheckGoesOn | pkg/backend/pool.go:342-363 | With a slot the call starts exactly if the entry is mapped under the key, alive and within its deadline |
| GatewayOutcomes.HandBackGoesOn | pkg/backend/pool.go:342-353 | Turned away there, a caller gives its slot back and starts over, at most twice, or leaves |
| GatewayOutcomes.LandsExactly | pkg/backend/pool.go:426-493 | In every run a landing spawn's backend enters service exactly if Shutdown has not run and no eviction has marked the spawn; in the other cases it is handed to Close |
| GatewayOutcomes.ReapCollects | pkg/backend/pool.go:603-631 | In every run a pass of the reaper hands to Close exactly the placed backends that are dead, or have no caller and are orphaned, unused for longer than the idle TTL or past the deadline that their landing gave them |
| GatewayHistory.FieldsAreTimes | pkg/backend/pool.go:426-470 | In every run the fields an entry is judged by are times of its own life: when its factory returned, when it landed, the deadline that gives, and when a caller last came to it or left it |
| GatewayEviction.LiveConfig | pkg/reconcile/reconcile.go:164-266 | At every point of an Apply, in every run, which config is live: the new one from Publish on, unless it is the one refused last, which stays unreachable until SetServers accepts it; the one before again after a refusal |
| GatewayEviction.EvictsExactly | pkg/reconcile/reconcile.go:215-266 | From the Begin of an Apply to its end, in every run, an eviction step hands to Close exactly the placed backends of a server that the revision changed or added, read after that Begin, if the revision was refused, and of a server that it changed or removed, whenever read, if it was adopted; it marks exactly the spawns of that server that are as yet without a stamp or so condemned |
| GatewayEviction.RefusalSparesOlder | pkg/reconcile/reconcile.go:230-254 | No step of an Apply that ends refused closes a backend, or marks a spawn, whose definition was read no later than the Apply began |
| GatewayEviction.FinishesEvicted | pkg/reconcile/reconcile.go:245-266 | An Apply that finishes has evicted every server that its verdict condemns |
| PoolObject.Pool.TenantCount | pkg/backend/pool.go:570-588 | The loops over entries and orphans count what the tenant cap is compared with |
| PoolObject.Pool.DropUnusable | pkg/backend/pool.go:251-265 | An unusable entry is unmapped; a live busy one becomes an orphan, any other is handed to Close |
| PoolObject.Pool.RetireSuperseded | pkg/backend/pool.go:524-540 | Exactly the idle entries of older credential generations of the same server, tenant and credential set go, each once |
| PoolObject.Pool.Lookup | pkg/backend/pool.go:246-301 | Get's first section: queue on the entry, share the spawn, start one, or refuse, in the source's order, with everything it hands to Close |
| PoolObject.Pool.Attach | pkg/backend/pool.go:318-332 | After a spawn the caller queues only on the entry that is still mapped |
| PoolObject.Pool.Admit | pkg/backend/pool.go:342-355 | With a slot in hand the caller leaves the queue, and its call starts only if the entry is still admissible |
| PoolObject.Pool.ReleasePending | pkg/backend/pool.go:542-554 | One reservation of the tenant is given back |
| PoolObject.Pool.RecordFailure | pkg/backend/pool.go:497-511 | One more failure, and the breaker opened from the threshold on |
| PoolObject.Pool.Install | pkg/backend/pool.go:426-493 | The last section of spawnEntry: closed, stale, adopted or installed with its deadline, and the connection closed in the first three cases |
| PoolObject.Pool.EndSpawn | pkg/backend/pool.go:381-397 | A finished spawn is no longer shared, unless another has taken its place |
| PoolObject.Pool.Reap | pkg/backend/pool.go:603-631 | Exactly the dead, idle and aged entries and the dead and drained orphans go, each once, and orphans keep their order |
| PoolObject.Pool.Evict | pkg/backend/pool.go:670-724 | Exactly the server's entries and orphans defined after the time go, each once; its breakers are cleared and its spawns without a stamp or with a later one are marked stale |
| PoolObject.Pool.MarkStale | pkg/backend/pool.go:717-721 | The loop over the spawns in flight marks exactly those that must not be installed |
| PoolObject.Pool.Shutdown | pkg/backend/pool.go:727-748 | Every entry and orphan goes, each once, and the pool is closed |
| CredTheorems.GenerationIdentity | pkg/backend/cred/cached.go:143-306 | Over all runs, with Invalidates, sweeps and rebuilt resolvers, two results of one generation are for the same tenant, user and server and carry equal material, and one entry's generations never go back |
| GatewayCredentials.PoolKeyMaterial | cmd/gateway.go:820-854 | In every run of pool and caches together, every entry the pool ever filed under a credential generation was built with exactly the material that every resolve of that generation returned, for the key's own tenant, user and server, or with none |
| GatewayCredentials.CallerGetsItsOwn | pkg/proxy/proxy.go:121-166 | A call runs on a backend that holds what the caller's own resolve returned, or one built without credentials, whatever rotated since |
| CredTheorems.NothingExpiredIsServed | pkg/backend/cred/cached.go:143-209 | No result had expired at the time its call sampled |
| CredTheorems.SingleFlight | pkg/backend/cred/cached.go:143-241 | At any instant at most one resolve per entry runs, foreground and background counted together |
| CredBackoff.EnterExactly | pkg/backend/cred/cached.go:146-188 | In every run, what a look at an entry comes to: valid credentials are served; a refresh is launched exactly if they expire, refreshAt has passed, none runs and the backoff of the failures in a row since the last store or acting Invalidate has passed; otherwise a running refresh is waited for, the backoff answers, or the source is asked |
| CredBackoff.BackoffHeeded | pkg/backend/cred/cached.go:152-200 | If a history ends with n failures in a row, the last at time t, no foreground resolve starts on that entry before t plus the n-th backoff, and no refresh is launched until it has passed |
| CredBackoff.OnlyEnterAsks | pkg/backend/cred/cached.go:143-241 | No other step starts a resolve, in the foreground or the background |
| CredBackoff.FindForgets | pkg/backend/cred/cached.go:364-384 | Looking an entry up keeps it, marks it used and forgets exactly the others unused for over half an hour, at a sweep that comes over five minutes after the last |
| CredAnswers.ResolvedRecords | pkg/backend/cred/cached.go:188-207 | In every run an answer to a foreground resolve is stored if unexpired, counts as a failure if it is an error or expired, and as nothing if its caller had gone; the call is served exactly if it was stored, and with what was stored |
| CredAnswers.RefreshLands | pkg/backend/cred/cached.go:216-241 | In every run a refresh's answer is discarded if and only if a store, or an Invalidate that acted, came after its launch; otherwise it is stored or counted as a failure, and the entry may be refreshed again either way |
| CredTheorems.RefreshReplacesItsOwn | pkg/backend/cred/cached.go:216-241 | A refresh changes its entry only while the epoch is the one it started from, and then the entry still serves exactly the credentials it was launched to replace |
| CredTheorems.WaitersWake | pkg/backend/cred/cached.go:170-179 | A caller parked on a refresh can wake, or that refresh still runs and is the one its entry names |
| CredAnswers.WakesExactly | pkg/backend/cred/cached.go:170-179 | It wakes exactly when that refresh has come back, and asks for its key again |
| CredTheorems.ForcedRefetchesSpaced | pkg/backend/cred/cached.go:280-288 | In the history of any entry of any run, two forced refetches, the first with unchanged material, lie more than failBackoff(futile) apart if no store between them moved the material, however short its life |
| CredLocks.LocksStep | pkg/backend/cred/cached.go:143-384 | Every step keeps the agreement of mutex holders, refresh flags, running refreshes, parked callers and epochs |
| CredRotation.WindowHoldsExactly | pkg/backend/cred/cached.go:280-335 | For all settings, lives and counts of futile refetches: every run keeps forced refetches at least the backoff apart if and only if the first one's credentials never expire, or their refresh-ahead time and expiry come late enough |
| CredRotation.Closest | pkg/backend/cred/cached.go:148-362 | For all of them a run whose refetches are exactly as close as that bound allows |
| CredSpacing.RunOccasions | pkg/backend/cred/cached.go:146-241 | In every run each store finds nothing to serve, or is a refresh that was launched past refreshAt for credentials that expire |
| CredSpacing.RunsOnward | pkg/backend/cred/cached.go:249-362 | From a refetch on its credentials are held untouched, or were replaced or dropped no earlier than the window, the refresh-ahead time and the expiry allow |
| CredModel.RefetchesSpaced | pkg/backend/cred/cached.go:319-362 | The spacing, for one entry and any operations in the order of their times |
| CredModel.InvalidateActs | pkg/backend/cred/cached.go:319-362 | An Invalidate acts if and only if the window has passed; it leaves nothing to serve and remembers what was held |
| CredAnswers.MissesBackOff | pkg/backend/cred/cached.go:319-345 | Invalidates that find nothing to drop are counted with the futile refetches, and each closes the window for the backoff of that count |
| CredModel.GenerationMoves | pkg/backend/cred/cached.go:249-306 | A store draws a new generation if and only if its material is not that of the store before it, whatever was dropped or failed in between |
| CredModel.BackoffExact | pkg/backend/cred/cached.go:386-392 | With 64-bit wrapping shifts failBackoff(n) is min(1s times 2 to the n-1, 30s) for every n from 1 |
| CredModel.BackoffMonotone | pkg/backend/cred/cached.go:386-392 | It never falls as failures grow, and lies between one second and thirty |
| CredModel.RefreshAheadBounds | pkg/backend/cred/cached.go:290-304 | After a store refresh-ahead begins skew and jitter before the expiry, or halfway through what is left of life if that is later; a fixed skew from now where the expiry did not advance |
| CredModel.FailuresBackOff | pkg/backend/cred/cached.go:192-201 | After the n-th failure in a row the entry backs off for the n-th backoff from that failure |
| CredObject.CacheEntry.Enter | pkg/backend/cred/cached.go:148-187 | The first section of ResolveGen: serve and perhaps launch one refresh, wait, back off, or resolve |
| CredObject.CacheEntry.Store | pkg/backend/cred/cached.go:249-306 | Expired material is refused and changes nothing; otherwise the entry becomes what Store says, and a generation is drawn exactly when the material moved |
| CredObject.CacheEntry.Refreshed | pkg/backend/cred/cached.go:216-241 | A result the entry has moved past is discarded; otherwise it is stored or counted as a failure |
| CredObject.CacheEntry.Invalidate | pkg/backend/cred/cached.go:319-362 | A no-op inside the window; otherwise the credentials are dropped and remembered, or the missing answer is counted |
| CredObject.CachedResolver.Entry | pkg/backend/cred/cached.go:364-384 | The entry of the key, made if need be; a sweep drops exactly the other entries idle too long |
| ScanModel.ScanDecides | pkg/mcpspec/params.go:425-495 | On every JSON text, with any white space, the byte scan reports exactly the first fault in document order that the recursive rule reports |
| ScanModel.ScanMeans | pkg/mcpspec/params.go:408-495 | The scan passes if and only if no object at any depth repeats a decoded key and nesting is at most 1000; its verdicts of ambiguity and depth are never wrong, and it never calls a JSON text malformed |
| ScanModel.RunValue | pkg/mcpspec/params.go:428-489 | Scanning one value in any context is the recursive check of that value and then the scan of what follows |
| ScanModel.CheckMeans | pkg/mcpspec/params.go:408-424 | The recursive rule means distinct decoded keys in every object and bounded nesting |
| ScanModel.BodyEnds | pkg/mcpspec/params.go:559-571 | A well-formed string body ends at the quote that closes it, escapes included |
| ScanModel.KeyTextDecodes | pkg/mcpspec/params.go:582-591 | The shortcut for exact spans gives the decoder's own answer |
| Json.PlainBody | pkg/mcpspec/params.go:552-571 | A body without escapes that is UTF-8 is its own text |
| Json.DecodeValid | pkg/mcpspec/params.go:573-591 | A decoded key is valid UTF-8 whatever bytes the body held |
| Utf8.EncodeDecoded | pkg/mcpspec/params.go:559-571 | Writing the rune that was read gives the bytes back, unless they were unreadable |
| Utf8.RunesOfEncode | pkg/mcpspec/params.go:232-239 | Runes written one after the other are read back as the same runes |
| Scanner.ScanFrame.AddKey | pkg/mcpspec/params.go:520-542 | The short list, the promotion that drains it and the map behave as one set of keys |
| Scanner.ScanStringEnd | pkg/mcpspec/params.go:559-571 | The index past the closing quote, and whether the span is exact; false exactly if the string never closes |
| Scanner.TakeString | pkg/mcpspec/params.go:458-476 | A string is stepped over, and decoded and recorded only where a key is expected |
| Scanner.ScanUnambiguous | pkg/mcpspec/params.go:425-495 | The loop over bytes and frames computes the scan, for every input |
| CaseFold.FoldRuneMeans | pkg/mcpspec/params.go:205-228 | Two runes fold alike if and only if, once the dotted and dotless I are joined to I, they share a folding orbit |
| CaseFold.ComputeFoldRune | pkg/mcpspec/params.go:217-228 | The walk round the orbit ends where it began and returns its least rune |
| CaseFold.FoldKeyAgrees | pkg/mcpspec/params.go:230-239 | The one-pass canonical key and the pairwise comparison agree on all pairs of strings |
| CaseFold.EqualFoldMeans | pkg/mcpspec/params.go:167-203 | Keys are equal under folding if and only if they have as many runes and each pair shares an orbit |
| CaseFold.EqualFoldKey | pkg/mcpspec/params.go:191-203 | The loop that consumes the second string decides that relation, unequal lengths included |
| CaseFold.ComputeFoldKey | pkg/mcpspec/params.go:232-239 | The loop builds the canonical key |
| Params.CheckCaseUnique | pkg/mcpspec/params.go:244-257 | One pass with a map succeeds if and only if the fields are pairwise distinct under folding; a reported clash is one |
| Params.CheckReadable | pkg/mcpspec/params.go:269-277 | It succeeds if and only if no other field differs from the key only by case |
| Params.DecodeParams | pkg/mcpspec/params.go:147-165 | It accepts if and only if the text is blank, or a JSON null or object that is unambiguous, nested at most 1000 deep and with pairwise fold-distinct fields; then the fields are the decoder's |
| StreamModel.StreamShape | pkg/wire/server.go:696-883 | Under any interleaving the frames are notifications and keepalives and then at most one terminal, every notification and inline end frame fits max_payload with its headers, and every error frame has a description |
| StreamModel.OneClaim | pkg/wire/server.go:721-745 | A stream is done exactly when one terminal has been sent or is being sent, never two |
| StreamModel.ClaimsConserved | pkg/wire/server.go:810-844 | Once no call is under way, each parked body is named in exactly one end frame or given exactly one Delete, never both |
| StreamAnswers.EndIsAnswered | pkg/wire/server.go:810-844 | In every run an End that wins its claim publishes its body if that fits, the name under which the store accepted the body if the caller takes parked bodies and it is at most 67108864 bytes, and the oversize error with its size and limit otherwise |
| StreamAnswers.ErrIsAnswered | pkg/wire/server.go:851-883 | In every run an Err that wins its claim publishes its own error |
| StreamAnswers.ParkedOnlyIfAccepted | pkg/wire/server.go:810-839 | In every run for a caller that does not take parked bodies nothing is stored and no frame names a parked body |
| StreamAnswers.FramesAreSpoken | pkg/wire/server.go:761-800 | In every run what the stream has carried before its terminal is every notification that fits and every keepalive up to the first claim, in their order, and nothing else |
| ErrFrame.FitKeepsId | pkg/wire/server.go:885-940 | A fitting error frame is sent unchanged; whatever is sent carries the request's id and the message its header copies; if leaving out the data is enough, nothing else is left out |
| ErrFrame.FitFits | pkg/wire/server.go:913-952 | The frame sent fits if and only if the original did, or the form without data did, or the id and twice the last message and the fixed overhead do |
| ErrFrame.AnswerIsWhole | pkg/wire/server.go:855-883 | Whatever errWithID reports, what it publishes has a description, a body with that code and message, and the request's id unless that id is no JSON |
| Dispatch.EveryRequestAnswered | pkg/wire/server.go:388-482 | A request that left dispatch with a usable reply subject, handled, rejected or refused by the drain, has claimed its terminal, and has sent exactly one once its calls are over |
| Dispatch.DrainFalls | pkg/wire/server.go:367-384 | Once Shutdown drains, the request counter only falls |
| Dispatch.NoHandlerAfterZero | pkg/wire/server.go:576-588 | If Shutdown saw the counter at zero, no handler runs then or later |
| Dispatch.BegunExactly | pkg/wire/server.go:580-588 | In every run a request is refused exactly if Shutdown has begun to drain, and otherwise goes to its own goroutine |
| Dispatch.RefusedIsTold | pkg/wire/server.go:666-679 | In every run all that a refused request is sent is the one error, -32010 under its own id, that asks for it again |
| Dispatch.CancelledEndsEmpty | pkg/wire/server.go:462-472 | In every run a handler that returns after its caller cancelled, with its stream open, has it ended by an empty body |
| Wire.StreamWriter.Claim | pkg/wire/server.go:737-745 | The first caller wins, and the stream is done |
| Wire.StreamWriter.Msg | pkg/wire/server.go:761-778 | Published exactly if the stream is live and the frame fits |
| Wire.StreamWriter.KeepAlive | pkg/wire/server.go:789-800 | Published exactly if the stream is live |
| Wire.StreamWriter.End | pkg/wire/server.go:810-849 | A body that fits is published as it is; one that does not is parked if the caller takes parked bodies, it is at most 67108864 bytes and the store accepts it, and is otherwise answered with the oversize error; one terminal at most, and a body parked for a stream that has ended is handed back for deletion |
| Wire.StreamWriter.Err | pkg/wire/server.go:851-853 | One terminal at most, under the request's own id |
| Wire.StreamWriter.ErrWithID | pkg/wire/server.go:855-883 | One terminal at most: the fitted report, described where its message is empty and canned where its id is no JSON |
| Wire.StreamWriter.FitErrFrame | pkg/wire/server.go:913-940 | It returns the form that Fit chooses: the original, the one without data, or the shed one |
| Wire.Violations.Register | pkg/wire/client.go:306-315 | The stream is registered under both subjects it depends on |
| Wire.Violations.Unregister | pkg/wire/client.go:316-327 | No registration of the stream is left |
| Wire.Violations.Fail | pkg/wire/client.go:159-175 | Exactly the streams that depend on the refused subject are failed |
| Wire.Pump | pkg/wire/client.go:368-452 | The reading loop delivers what Pumped says, and closes exactly when a turn ends it |
| Wire.PumpShape | pkg/wire/client.go:366-452 | The consumer reads the notification bodies in order and then exactly one terminal, if the turn that ends the loop could hand one over, and otherwise none |
| Wire.TerminalUnlessOverlap | pkg/wire/client.go:351-394 | For every script of turns that ends, a consumer that keeps reading gets exactly one terminal, and last, however the selects fall, if and only if no violation ends the context while an item is on offer |
| Wire.ViolationDuringDelivery | pkg/wire/client.go:372-394 | The run in which it happens: the violation comes while a notification is on offer, and nothing is read; had the select taken the reader, it would have been reported |
| Wire.EndToEnd | pkg/wire/client.go:366-452 | For every run of the gateway's side, a consumer that takes parked bodies wherever the gateway parks them, and keeps reading, gets the notification bodies in order and then exactly one terminal: the stream's own, a fetched parked body, or the loss that silence is read as |
| Wire.ParkedRead | pkg/wire/client.go:396-440 | A frame that names a parked body is read as that body if the client claims and the fetch succeeds, and as a lost stream otherwise |
| Wire.EndingsReported | pkg/wire/client.go:372-452 | No responders is reported as no gateway; silence, an unknown frame and a broken subscription as a lost stream |
| ConfigModel.SuppressedOnlyIfDelivered | pkg/configsource/dedup.go:64-74 | A revision is suppressed only if the same content is in flight to Run or is the one Run last applied successfully |
| ConfigModel.SuppressedExactly | pkg/configsource/dedup.go:64-90 | In every run a revision is suppressed if and only if it can be hashed and its content is what went out last, with no Retry since; otherwise it goes out |
| ConfigModel.StopsExactly | pkg/configsource/run.go:38-86 | In every run Run gives up if and only if an apply fails or a read is reported broken before any apply has succeeded; after that a failed apply is reported back and a broken read survived |
| ConfigModel.NoLostWakeup | pkg/configsource/file.go:87-146 | With polling off, when all is quiet the content that the latest suppressed read found is the one applied: a trigger swallowed while its apply was failing was fired again |
| ConfigModel.DedupAloneLosesAWakeup | pkg/configsource/dedup.go:148-196 | A concrete run of a source without that refiring ends quiet with the latest content unapplied |
| ConfigModel.WakeupsKeptByRefiring | pkg/configsource/dedup.go:84-196 | Every quiet run has applied the content its latest suppressed read found if and only if Retry fires a swallowed trigger again |
| ConfigModel.RefiringEnds | pkg/configsource/file.go:97-104 | With no new triggers the source and Run come to rest within a bound given by the state, however often applies fail |
| ConfigSource.ChangeFilter.Changed | pkg/configsource/dedup.go:64-74 | Suppressed exactly if the content is the baseline; the baseline and the swallowed flag follow |
| ConfigSource.ChangeFilter.Retry | pkg/configsource/dedup.go:84-90 | The baseline is dropped, and whether a trigger was swallowed is reported once |
| ConfigSource.File.RetryFilters | pkg/configsource/dedup.go:128-141 | Every live filter is cleared, and the answer says whether any had swallowed a trigger |
| ConfigSource.File.Reload | pkg/configsource/file.go:55-67 | Every watcher holds a trigger afterwards |
| ConfigSource.File.Retry | pkg/configsource/file.go:100-104 | If any filter had swallowed a trigger, every watcher gets one; if none had, none does |
| ConfigSource.Run | pkg/configsource/run.go:38-86 | Run ends in an error exactly if its first update is bad, and otherwise retries after exactly the failed applies |
| LegacyModel.AcknowledgedFirst | pkg/backend/legacy/compat.go:256-287 | On every listen stream the acknowledgment is read before any notification |
| LegacyModel.NoticesDelivered | pkg/backend/legacy/compat.go:550-619 | Whenever the reader returns to the legacy server, every notification owed has been read exactly once, none that was not owed has been, and they were read in the order of their events, however they split between channel and queue |
| LegacyModel.SnapshotOwes | pkg/backend/legacy/compat.go:564-571 | In every run a list_changed of tools, prompts or resources newly owes a notification to each registered listener whose filter names that kind and to no other, none of which was owed or read before |
| LegacyListeners.ListenersExactly | pkg/backend/legacy/compat.go:256-305 | In every run the listeners are exactly the streams registered and not cancelled since, none after Close, each with the filter of its own listen request |
| LegacyModel.ClosuresBeforeError | pkg/backend/legacy/compat.go:490-546 | The closures queued when the reader examined a transport error have all been read before that error surfaces |
| LegacyListeners.ErrorIsHeld | pkg/backend/legacy/compat.go:504-546 | In every run the reader holds or has returned a transport error if and only if one has come |
| LegacyListeners.ErrorSurfaces | pkg/backend/legacy/compat.go:357-378 | From every state in which an error is withheld the reader alone comes to return it, after exactly the messages in the channel and then those in the queue |
| LegacyModel.ClosureMayOvertake | pkg/backend/legacy/compat.go:357-371 | A concrete run in which a closure is read before the acknowledgment of its stream |
| LegacyClosure.ClosureFollowsAck | pkg/backend/legacy/compat.go:200-371 | For every run up to Close and every run after it, each closure that is read comes after its stream's acknowledgment if and only if Close did not find the reader draining an empty queue with that acknowledgment unread and that closure queued first |
| Legacy.Conn.Close | pkg/backend/legacy/compat.go:200-222 | One closure for each listener is queued, and no listener is left |
| Legacy.Conn.Register | pkg/backend/legacy/compat.go:277-287 | A listener is registered exactly if Close has not come first |
| Legacy.Conn.Cancel | pkg/backend/legacy/compat.go:289-305 | Listener and pending entry of the id are dropped, and the answer says whether it was a listen stream |
| Legacy.Conn.Next | pkg/backend/legacy/compat.go:358-378 | The channel, then the queue, then a withheld error, and no message lost |
| Legacy.Conn.FanOut | pkg/backend/legacy/compat.go:550-619 | Each matching listener gets one notification; the channel takes those that fit and the queue the rest, in one order |
| MuxModel.OwnAnswer | pkg/backend/mux.go:104-263 | A call returns only a response to its own muxed id, with the caller's id restored, in the result that closes a subscription too, and no two calls share a response's id |
| MuxModel.OwnNotices | pkg/backend/mux.go:265-309 | A caller hears only notifications that carry its own token or id, with what it chose restored |
| MuxRouting.ResponseReaches | pkg/backend/mux.go:233-263 | In every run a response that is read goes on to a call if and only if that call is registered and the response bears its muxed id |
| MuxRouting.NoteReaches | pkg/backend/mux.go:265-302 | In every run a notification goes on to a call if and only if that call is registered and it names its muxed id, or the muxed token of a call whose caller sent one |
| MuxRouting.RoutedArrives | pkg/backend/mux.go:259-302 | What goes on to a call arrives: a response in its channel unless one is there already, a notification at its caller |
| MuxModel.NoRegistrationLeft | pkg/backend/mux.go:147-152 | No registration of an id or token outlives its call |
| MuxModel.DeliveredWins | pkg/backend/mux.go:154-195 | In every run a response that lies in the channel of an unfinished call at any point is what the call returns under the caller's id, whatever cancellation, death, duplicates and other calls follow, unless the call's own write fails; a call that had already settled keeps what it settled on |
| MuxModel.CancelledHadNone | pkg/backend/mux.go:164-195 | A call that ends as cancelled or dead had no response in its channel at any earlier point of its run |
| MuxModel.MuxIdInjective | pkg/backend/mux.go:112-114 | Muxed ids and tokens of different calls differ |
| Mux.PendingCall.Collect | pkg/backend/mux.go:165-195 | The last look takes a delivered response, and fails otherwise |
| Mux.Multiplexer.Register | pkg/backend/mux.go:112-145 | A new number, and a registration unless the connection is dead |
| Mux.Multiplexer.Unregister | pkg/backend/mux.go:147-152 | Both registrations of the call are removed |
| Mux.Multiplexer.RouteResponse | pkg/backend/mux.go:233-263 | A response reaches the call registered under its id and no other, a duplicate is dropped, and the closure of a listen call names that caller's own id |
| Mux.Multiplexer.RouteNotification | pkg/backend/mux.go:265-309 | A notification reaches the call its token or subscription id names and no other, with the caller's own restored |
| Subject.ParseBuild | pkg/wire/subject.go:219-286 | For all token-safe tokens and methods parsing a built subject gives them back, with the name as its subject token |
| Subject.BuiltName | pkg/wire/subject.go:172-214 | The name token of a built subject is the name for tools/call and prompts/get if the name can be a token, and "_" in every other case |
| Subject.BuildsExactly | pkg/wire/subject.go:219-247 | A subject is built if and only if there is a subject that parses to those parts: nothing unreadable is built, and nothing else is refused |
| Subject.SafeAlphabet | pkg/wire/subject.go:61-66 | A token is one or more letters, digits, underscores and hyphens |
| Subject.ParseInjective | pkg/wire/subject.go:260-286 | Two subjects with one parse are one subject |
| Subject.ReachesItsOwn | pkg/wire/subject.go:288-325 | A built subject matches an endpoint subject if and only if the endpoint is for its own server and for a scope that contains it |
| HeaderValue.HeaderRoundTrip | pkg/mcpspec/headervalue.go:48-82 | Decoding an encoded value gives it back, for every valid UTF-8 value, sentinel look-alikes included |
| HeaderValue.HeaderInjective | pkg/mcpspec/headervalue.go:48-53 | Different values are encoded differently |
| HeaderValue.HeaderSafe | pkg/mcpspec/headervalue.go:84-106 | An encoded value holds only bytes 0x20 to 0x7E and no space at either end |
| HeaderValue.PlainIsKept | pkg/mcpspec/headervalue.go:45-106 | A value of printable ASCII without spaces at its ends, and not itself between the markers, is sent as it is; every other value is sent encoded between the markers |
| HeaderValue.Base64RoundTrip | pkg/mcpspec/headervalue.go:52-75 | Standard base64 decoding undoes encoding, for every octet string |
| Integrity.Check | pkg/proxy/integrity.go:87-177 | A request is accepted if and only if subject, headers and body agree and _meta is readable, and the name returned is the one they agree on; the error is -32022 exactly if only the version, on which all agree, is unsupported, and -32600 for what is no request or misshapen, -32020 for what disagrees |
| Integrity.CheckReadableMeta | pkg/mcpspec/params.go:378-389 | It succeeds exactly if _meta and the two keys read from it have no sibling that differs only by case, and says which fault it found |
| Integrity.ReadName | pkg/mcpspec/params.go:335-355 | It returns the name the body calls, and an error exactly if there is none to read, and says which fault it found |
| Integrity.SubjectFixesTheCall | pkg/proxy/integrity.go:144-150 | An accepted request's method is its subject's; for tools/call and prompts/get a named subject fixes the tool or prompt called, and the "_" subject carries only names that could have no subject of their own |
| Integrity.AcceptedNames | pkg/proxy/integrity.go:122-150 | An accepted tools/call or prompts/get has a non-empty string under "name" that the decoded header equals, and that name as its subject token if it is token-safe and "_" otherwise; an accepted resources/read has the same under "uri" with the token "_"; every other accepted method has no name and the token "_" |
| Integrity.AcceptedVersion | pkg/proxy/integrity.go:152-175 | An accepted request names version 2026-07-28 in its body's _meta and in its header |
| Integrity.DoPassesCheck | pkg/wire/client.go:257-280 | A request that Do publishes for decodable params passes Check if and only if its _meta is readable, its version supported and its name present where the method needs one |
| Integrity.BuiltIsReceived | pkg/wire/client.go:257-261 | What Do can build always parses on the other side |
| Integrity.SiblingTokenRefused | pkg/mcpspec/params.go:366-389 | With a "ProgressToken" in _meta no request passes, whatever else agrees |
| Integrity.SiblingTokenIsPublished | pkg/wire/client.go:257-280 | On every subject that Do can build for a method without a name there is a request that it publishes for decodable params and that Check refuses |

## Left out

- GatewayTheorems.FreshBetweenApplies: SetServers is a step that succeeds or fails; Reap's clock is unconstrained; Dead is sampled once for each locked section; equal timestamps are outside the claim, as the logical clock only increases.
- PoolObject.Pool: entry and spawn pointers are ids into a table; closing a mux happens after the section that returns it; the three removal loops over the entries are one loop over a map, which is then stored back.
- CredRotation.WindowHoldsExactly: times are ticks of one clock that each section advances, so the bound counts the ticks that launch, return, rejection and refetch take; concurrent sections with one timestamp are outside the claim.
- CredTheorems.GenerationIdentity: headers and environment are one value, the material; the error text of the negative cache is not modelled.
- Params.DecodeParams: encoding/json is a parameter, the tree its parse gives; on text that is not JSON only rejection is stated.
- CaseFold.FoldRuneMeans: Unicode's simple folding is a parameter, any permutation of the scalars with finite orbits in which I is the least of its own; that the two exceptions are complete for a Unicode version is not stated.
- Wire.StreamWriter.ErrWithID: error data is what it marshals to; data that cannot be marshalled, which the code drops, is absent data here.
- ErrFrame.FitFits: JSON quoting and header serialization are parameters that leave plain text alone; the number formatting of the code is taken as given.
- StreamModel.ClaimsConserved: a frame counts once it is handed to publish; the reply subject may lose it, which EndToEnd then reads as silence.
- ConfigModel.NoLostWakeup: one Watch is followed in full, other Watches on the same source appear as their Retry and Reload; SHA-256 of the marshalled config is taken as injective.
- LegacyModel.AcknowledgedFirst: listen ids are never reused, as the mux issues them; the order of a closure against a fan-out under way on another goroutine is not fixed, as in the code.
- MuxModel.OwnNotices: the shallow JSON edits that restore an id, a token or a subscription are one assignment.
- GatewayCredentials.PoolKeyMaterial: a definition without a resolver builds a backend without credentials; the HTTP token source, which resolves again for each request, and the filter on environment names are not modelled.
- NATS, micro, JetStream and net/http: publish and subscribe are an ordered, lossy channel, service start and stop are calls that may fail, and the claim store is a map whose operations may fail.
- Subprocesses, exec helpers, OAuth and file I/O: steps that return a value, an error or never.
- HTTP transport and SSE, redirects and annotation probing.
- Flags, boot parameters, config validation, URL redaction, logging, the NATS drift warning and the order of names in a Delta.
- Result stamping, TTL hints and meta stripping of the legacy bridge, and the cancellation matching on the control subject: straight-line edits of one message.
- The credential registry's lookup and prune: a rebuilt resolver is a step that may happen at any time.
