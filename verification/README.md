# Stateless PFCP session protocol: a Dafny model

A PFCP user-plane service keeps every session in Redis and none in its pods.
Any number of pods and workers run Session Establishment, Modification and
Deletion (3GPP TS 29.244) against one store; a version compare-and-swap takes
the place of ownership. This project models that protocol and proves what it is
for: no committed update is lost, a deleted session never comes back, an accepted
session is durable, every tunnel id has one owner, every transaction ends once,
within exact bounds, and gives back what it took.

## How it is built

* **The flow.** `Flow` gives every callback of `v_flow.c`, and the timeout
  handler of `v_txn.c`, as a function from the transaction, the reply and the
  ports' answers to what it asks of the ports. `FlowCallbacks` writes the same
  callbacks as they run: fields and contexts updated in place, ports called in
  order, early returns. Each method is proved equal to its function, and proved
  to write nothing to a transaction once it is handed on or destroyed: the ports
  scramble it at that moment, as a callback delivered before the port returns
  would.
  `Transitions` states the flows once more, as a table of who waits for what next
  with which contents, and proves that table, answer and bookkeeping leave nothing
  about a callback open.
* **The cluster.** `Store` holds the records with their histories, `IdPool` the
  ids of one partition over all pods, `Cluster` the whole system as one step
  machine: arrivals, requests that run, answers that are lost while the request
  still runs later, callbacks, hard timeouts, crashes, commands nobody waits
  for, time, refills, restarts. `CoreInv`, `CoreSteps`, `CoreCalls` and
  `CoreRuns` prove an invariant of every reachable state by rely and guarantee:
  a step promises the other transactions what their own knowledge rests on.
  `Promises` draws the theorems; `Steps` has what single steps leave in place.
  `OwnInv`, `OwnSteps`, `OwnRest` and `OwnCalls` prove who answers for each TEID
  and VDP rule, and `Ownership` draws those theorems; `Leaks` says where every
  TEID is that is out, `Rules` which accepted sessions have a rule. `Answers` says what each
  answer to the SMF tells about the session. `Deadlines` adds the hard timeout,
  `Deletions` says how often a deletion asks the VDP. `Progress` shows that the
  cluster can do its work, so that none of this holds for want of states, and
  `Refusals` that it can fail in the one way left open.
* **One pod.** `Ledger` runs arrivals, replies and timeouts over one context
  pool: exactly one ending, and conservation of blocks and requests. `Deliveries`
  adds the callbacks the ports owe, late ones included. `Trips` bounds the round
  trips, and reaches the bounds.
* **Below the steps.** `LuaScripts` runs the three scripts on text and proves
  that they refine the numeric commands; `Text` has decimal numbers, keys and
  the FNV loop; `SessStore` reads the replies back; `IdAlloc` has the rings, the
  guards and the reply loops; `EvalSha` the NOSCRIPT recovery and the scratch
  buffer; `CtxPool` and `TxnTable` the pool and the table; `Seid` the bit layouts.

## What is assumed of the environment

* A port that accepts a request calls back at most once, and one that refuses
  never does. What a callback does that arrives after its transaction timed out
  is not modelled; `Deliveries` says exactly which callbacks those are.
* A Redis command or script is atomic. An answered PERSIST was executed. The VDP
  installs a rule only for a create it accepts; a modify never installs one.
* The session context is opaque: a block is zeroed, built from a request, or
  changed by a request; serializing and deserializing give it back, and
  changing it keeps its SEID and TEID.
* `Ownership`, `Leaks`, `Rules`, `Answers` and `Progress` assume two things more (`Sound`), the
  first checked at the arrival of each request, the second in the final state of
  the run: requests name only sessions accepted before (`honest`), and no TEID
  counter exceeds 2^32 + 1, so the last index handed out is at most 2^32. The
  invariants of `CoreInv` and everything in `Promises` need neither.
* The test-and-set of a refill flag is atomic.

## Where the naive statement is false

* A compensating write that loses its race changes nothing and is only logged:
  the refused modification then stays (`UndoRestores` says exactly when,
  `RefusedStaysIsReachable` reaches it).
* A PERSIST that runs 30 s late is answered like any other, so an establishment
  can be ACCEPTED with no record (`LatePersistIsAccepted`; the exact condition is
  in `AcceptedMeansDurable`). As it stands the service never advances the clock behind the
  hard timeout. Once it does, a timeout of at most 30 s rules this out
  (`AcceptedIsDurableOnTime`), and of one millisecond more does not
  (`LateAcceptanceIsReachable`).
* The sweeper's delete for an establishment in VDP_WAIT is never reached: the flow
  has set the version to 1 before (`SweeperNeverDeletes`). The comment in the code
  says otherwise. Cleaning up is left to the TTL (`OrphansLapse`).
* A modification that times out between its write and the VDP's answer drops its
  snapshot block for good (`SnapshotLost` says exactly when, `LossIsReachable`
  reaches it).
* A hard timeout leaves one callback behind that finds its transaction gone
  (`TimeoutLeavesOneLate`), and nothing else does (`LateExactlyAfterTimeout`).
* A deletion whose CAS delete fails after the VDP took the rule out leaves a
  durable record with no rule (`RuleUntilDropped` says exactly which sessions,
  `RuleLessIsReachable` reaches one).
* A TEID is lost to nobody when the transaction that holds it is swept or crashes,
  or an answer or a push is lost (`OutSitsOrLeaked`), and in no other way
  (`NothingLeaksUndisturbed`).
* A deletion asks the VDP again on every CAS attempt, up to three times
  (`DelReachesBound`), so the budget of one VDP trip in PLAN.md covers it exactly
  when the replies do not take it round again (`OneVdpTrip`), which they do only
  when somebody else commits on its record (`AsksOncePerCommit`).
* TEID indices are cut to 32 bits before their range is checked, so a counter past
  the bound hands TEIDs out again (`ReissueExactly`).
* TEID validation accepts index 0 of every partition but the first, which no
  encoding yields (`TeidValidateVersusImage`).

## Model

| member | source | states |
|---|---|---|
| Seid.SeidRoundTrip | src/v_seid/src/v_seid.c:7-34 | packing and unpacking a SEID gives back partition and index; the SEID fits 64 bits, is not 0, and validates to its partition |
| Seid.SeidValidateIsImage | src/v_seid/src/v_seid.c:71-90 | SEID validation accepts exactly the image of encoding |
| Seid.TeidRoundTrip | src/v_seid/src/v_seid.c:39-64 | the same round trip for TEIDs, which fit 31 bits |
| Seid.TeidValidateVersusImage | src/v_seid/src/v_seid.c:94-113 | TEID validation accepts the image of encoding and, besides, exactly index 0 of partitions 1 to 1023 |
| Text.NumberOfDecimal | src/v_sess_store/src/v_sess_store.c:95-98 | reading a decimal version back gives the number written |
| Text.NumberStops | src/v_id_alloc/src/v_id_alloc.c:108-118 | a number is read up to the first character that is no digit |
| Text.SameTextSameNumber | src/v_db_script/inc/v_db_lua_scripts.h:17-23 | comparing version texts compares versions, and only version 0 is written "0" |
| Text.WordLengths | src/v_sess_store/src/v_sess_store.c:195-198 | no 64-bit version is cut off by its 24-byte buffer |
| Text.SessKeysAreApart | src/v_sess_store/src/v_sess_store.c:55-58 | session keys are injective in partition and SEID and fit their 64-byte buffer |
| Text.RetransKeysAreApart | src/v_retrans_cache/src/v_retrans_cache.c:83-84 | cache keys are injective in partition, F-SEID and sequence number, fit their buffer, and are never session keys |
| Text.IdKeysAreApart | src/v_id_alloc/src/v_id_alloc.c:76-77 | the free list and the two counters of each partition have keys of their own, which fit their 32-byte buffers |
| Text.IdKeysAreNoRecords | src/v_id_alloc/src/v_id_alloc.c:198-200 | none of them is the key of a session or of a cached response |
| Text.RetransPart | src/v_retrans_cache/src/v_retrans_cache.c:42-51 | the FNV-1a loop yields the hash of the eight bytes modulo 1024, a function of the F-SEID alone |
| LuaScripts.Redis.SessCasWrite | src/v_db_script/inc/v_db_lua_scripts.h:15-27 | the CAS-write script, HSET then EXPIRE in place, leaves exactly the hashes of its specification and returns 1, 0 or -1 |
| LuaScripts.CasWriteRefines | src/v_db_script/inc/v_db_lua_scripts.h:15-27 | on text the CAS write has the outcome, version, data and deadline of the numeric CAS write, for every session key at once |
| LuaScripts.ClientKnowsNewVersion | src/v_sess_store/src/v_sess_store.c:155-160 | the version the client computes from the expected one is the version the script stored |
| LuaScripts.Redis.SessDelete | src/v_db_script/inc/v_db_lua_scripts.h:32-37 | the CAS-delete script removes the hash exactly when the version text matches |
| LuaScripts.CasDeleteRefines | src/v_db_script/inc/v_db_lua_scripts.h:32-37 | on text the CAS delete refines the numeric one |
| LuaScripts.Redis.TeidRefill | src/v_db_script/inc/v_db_lua_scripts.h:43-56 | the pop loop returns the oldest free entries of a list longer than the floor, else leases a block; other lists and counters stay |
| LuaScripts.RefillRefines | src/v_db_script/inc/v_db_lua_scripts.h:43-56 | parsing the tagged reply gives exactly the indices the pool hands out; the counter moves only on a lease |
| LuaScripts.PushRefines | src/v_id_alloc/src/v_id_alloc.c:256-265 | RPUSH of the local index is the pool's free |
| LuaScripts.TickRefines | src/v_sess_store/inc/v_sess_store.h:19 | expiry of the hashes is expiry of the records |
| LuaScripts.Redis.CasWrite | src/v_sess_store/src/v_sess_store.c:181-226 | the write as the client issues it, on text that holds the records, leaves text that holds the numeric write's records, with its outcome |
| LuaScripts.Redis.CasDelete | src/v_sess_store/src/v_sess_store.c:299-332 | the same for the delete |
| LuaScripts.Redis.Persist | src/v_sess_store/src/v_sess_store.c:243-266 | the same for PERSIST |
| LuaScripts.Redis.PassTime | src/v_sess_store/inc/v_sess_store.h:19 | the same for time passing, over sessions and cached responses, so the refinement holds over every run of them |
| LuaScripts.Redis.StoreRsp | src/v_retrans_cache/src/v_retrans_cache.c:114-129 | SETEX under the request's key with the TTL as text keeps the cache as text in step with the numeric cache: the response is there for 10 s, every other entry is as it was |
| LuaScripts.Redis.GetRsp | src/v_retrans_cache/src/v_retrans_cache.c:77-100 | GET under the request's key finds bytes exactly when the numeric cache has the response, and those bytes |
| LuaScripts.CacheTicks | src/v_retrans_cache/inc/v_retrans_cache.h:17 | expiry of the cached strings is expiry of the cached responses |
| LuaScripts.Redis.Seed | src/v_id_alloc/src/v_id_alloc.c:207-220 | the SETNX seeds an absent counter and changes no other partition |
| LuaScripts.Redis.FreeTeid | src/v_id_alloc/src/v_id_alloc.c:256-265 | text that holds a partition's pool holds the pool after the free, and the other partitions stay |
| LuaScripts.Redis.RefillTeids | src/v_id_alloc/src/v_id_alloc.c:190-228 | the reply names what the pool hands out, and text and pool stay in step, for all blocks and floors |
| LuaScripts.Redis.LeaseSeids | src/v_id_alloc/src/v_id_alloc.c:69-86 | INCRBY returns the end of the block the pool leases, and touches no other counter |
| SessStore.CasRoundTrip | src/v_sess_store/src/v_sess_store.c:142-226 | issuing a CAS write, running the script and mapping its integer gives the numeric write's answer |
| SessStore.DeleteRoundTrip | src/v_sess_store/src/v_sess_store.c:273-332 | the same for a CAS delete |
| SessStore.ReadRoundTrip | src/v_sess_store/src/v_sess_store.c:65-134 | a read returns the record's data and version, or "not found", and the cut to 23 digits never bites |
| SessStore.ReadThenWriteMatches | src/v_sess_store/src/v_sess_store.c:95-98 | a version read and sent back as expected never conflicts with an unchanged record |
| SessStore.CacheRoundTrip | src/v_retrans_cache/src/v_retrans_cache.c:56-74 | a lookup hears a hit with the cached response exactly when there is one for its request, and a miss otherwise |
| SessStore.StoreThenLookup | src/v_retrans_cache/src/v_retrans_cache.c:77-129 | a response stored is what the next lookup of that request hears, and lookups of all other requests hear what they heard before |
| SessStore.FailuresAreHeard | src/v_sess_store/src/v_sess_store.c:71-76 | for every operation a failed round trip is heard as a failure; so is a reply the command cannot give (no two-field array, a code other than 1, 0 or -1, bytes that are no context), and nothing else is; PERSIST fails exactly when its round trip does |
| SessStore.OutcomesAreApart | src/v_sess_store/src/v_sess_store.c:142-177 | each other outcome is heard if and only if its own reply arrived: found, not found, written, conflict, gone, confirmed, hit, miss |
| SessStore.Client.Request | src/v_sess_store/src/v_sess_store.c:181-226 | a pending object is taken exactly when the call returns OK, and given back on every ERR path |
| SessStore.Client.OnReply | src/v_sess_store/src/v_sess_store.c:142-240 | each accepted request gets one callback, with what its reply is heard as, and its object goes back with it |
| Store.FoldIsSurvivors | src/v_flow/src/v_flow.c:296-428 | replaying a history equals applying, to the data created, the changes that survive |
| Store.FoldKeepsTeid | src/v_flow/src/v_flow.c:537-538 | no committed write changes a session's TEID |
| Store.WriteKeeps | src/v_db_script/inc/v_db_lua_scripts.h:15-27 | a CAS write that knows what it writes on keeps every record equal to the replay of its history, adds exactly its own commit, and otherwise changes nothing |
| Store.DeleteKeeps | src/v_db_script/inc/v_db_lua_scripts.h:32-37 | a CAS delete succeeds if and only if the record is there at the version asked for; then it is gone, and nothing else changes |
| Store.PersistKeeps | src/v_sess_store/src/v_sess_store.c:243-266 | PERSIST takes the deadline off a record that is there, leaves its version and data and every other record alone, and brings none back |
| Store.TickExpires | src/v_sess_store/inc/v_sess_store.h:19 | time passing removes exactly the records past their deadline and leaves the others as they were |
| IdPool.AllocTakesFromRing | src/v_id_alloc/src/v_id_alloc.c:91-101 | alloc returns the ring's head, which was leased, is not 0 and validates to the partition; a dry ring gives 0 |
| IdPool.AllocGoesOut | src/v_id_alloc/src/v_id_alloc.c:233-243 | exactly the id returned goes out, and it was not out before |
| IdPool.AllocAsksInTime | src/v_id_alloc/src/v_id_alloc.c:69-101 | after an alloc no refill is under way if and only if none was and the ring was at the watermark, so a caller that gets 0 has one coming; nothing but this pod's ring changes |
| IdPool.AllocKeeps | src/v_id_alloc/src/v_id_alloc.c:91-101 | alloc keeps every leased id at exactly one place, and the ring bound |
| IdPool.LeaseIsFresh | src/v_id_alloc/src/v_id_alloc.c:41-63 | no id of a leased block was ever leased before |
| IdPool.RefillKeeps | src/v_db_script/inc/v_db_lua_scripts.h:43-56 | a refill keeps every leased id at one place, within the counter bound, and nothing that was out comes back in |
| IdPool.LoseRefillKeeps | src/v_id_alloc/src/v_id_alloc.c:137-145 | so does a refill whose reply nobody gets |
| IdPool.DeliverKeeps | src/v_id_alloc/src/v_id_alloc.c:41-63 | so does a reply, delivered or failed; either clears the in-flight flag, and the ring gains exactly the ids delivered |
| IdPool.RestartKeeps | src/v_id_alloc/src/v_id_alloc.c:273-313 | so does a restart with empty rings |
| IdPool.RefillFits | src/v_id_alloc/src/v_id_alloc.c:57-60 | the ring-full branch is unreachable: a ring never exceeds 319 of its 1023 places |
| IdPool.FreeKeeps | src/v_id_alloc/src/v_id_alloc.c:256-265 | giving back a TEID that is out keeps every id at one place |
| IdPool.FreedComesBack | src/v_id_alloc/src/v_id_alloc.c:123-132 | the local index pushed on free encodes to the same TEID again |
| IdPool.QuarantineInEveryRun | src/v_db_script/inc/v_db_lua_scripts.h:43-56 | over every sequence of frees and refills, the entry the script pops was made by a free with at least floor + 1 - block later frees, for all floors and blocks with block at most floor + 1 |
| IdPool.FreeIsUnique | src/v_id_alloc/src/v_id_alloc.c:256-265 | that free is the only one that made the entry |
| IdPool.QuarantineTight | src/v_db_script/inc/v_db_lua_scripts.h:43-56 | that bound is reached |
| IdPool.ReissueExactly | src/v_id_alloc/src/v_id_alloc.c:123-132 | exactly when a fresh block mints a TEID whose index the counter had passed |
| IdPool.CounterPastBoundReissues | src/v_id_alloc/src/v_id_alloc.c:126 | the first block past the bound hands out index 1 again |
| IdAlloc.IdAlloc.MaybeRefill | src/v_id_alloc/src/v_id_alloc.c:190-228 | a refill goes out if and only if none is in flight, the ring is below the watermark and the dispatch is accepted; the counter is seeded exactly with the first TEID refill tried |
| IdAlloc.IdAlloc.Take | src/v_id_alloc/src/v_id_alloc.c:91-101 | alloc on the real ring is the pool's alloc |
| IdAlloc.IdAlloc.SeidReply | src/v_id_alloc/src/v_id_alloc.c:41-63 | the reply loop enqueues exactly the encodable ids of the block just leased, stopping when the ring is full |
| IdAlloc.IdAlloc.TeidReply | src/v_id_alloc/src/v_id_alloc.c:137-177 | both tagged forms enqueue exactly the TEIDs the reply names; malformed replies enqueue none |
| IdAlloc.OfferedExactly | src/v_id_alloc/src/v_id_alloc.c:137-177 | a "range" reply of three texts offers the block it names, a "list" reply one index for each entry, and every other reply nothing |
| IdAlloc.BlockBeforeIsBlock | src/v_id_alloc/src/v_id_alloc.c:51-54 | in 64-bit arithmetic, the counter's new value less one block is the start of the block just leased |
| IdAlloc.SeidReplyDelivers | src/v_id_alloc/src/v_id_alloc.c:51-62 | reading the counter's new value back, less one block, delivers what the pool leased |
| IdAlloc.TeidReplyDelivers | src/v_id_alloc/src/v_id_alloc.c:137-177 | script, reply text and parsing together deliver exactly what the pool handed out |
| FlowCallbacks.Handle | src/v_flow/src/v_flow.c:248-271 | the three entry points: invalid SEIDs are answered without a transaction, a full table drops the request, a refused lookup ends the transaction silently |
| FlowCallbacks.Finish | src/v_flow/src/v_flow.c:76-104 | one response cached and sent, context and request given back, the transaction destroyed and left alone |
| FlowCallbacks.RetransLookupCb | src/v_flow/src/v_flow.c:183-243 | a hit replays; a miss or an unreachable cache allocates, with the TEID given back on every failure; nothing is written after handing on |
| FlowCallbacks.CasWriteCb | src/v_flow/src/v_flow.c:153-177 | the pending write's outcome: VDP create, or rollback with record delete and TEID free |
| FlowCallbacks.VdpCreateCb | src/v_flow/src/v_flow.c:129-147 | accept leads to PERSIST, reject and timeout to rollback |
| FlowCallbacks.ConfirmCb | src/v_flow/src/v_flow.c:108-123 | a failed PERSIST fails the reply and rolls nothing back |
| FlowCallbacks.StartReading | src/v_flow/src/v_flow.c:432-439 | the read both retry loops re-enter |
| FlowCallbacks.ReadLookupCb | src/v_flow/src/v_flow.c:444-463 | lookup callback of Modification and Deletion |
| FlowCallbacks.ModReadDone | src/v_flow/src/v_flow.c:375-428 | snapshot in a second block, change in place, CAS write at the version read; every failure gives the snapshot back |
| FlowCallbacks.ModCasCb | src/v_flow/src/v_flow.c:328-369 | success keeps the snapshot for the VDP's answer; conflict drops it and retries up to three times; gone ends |
| FlowCallbacks.ModVdpDone | src/v_flow/src/v_flow.c:296-320 | a refusal writes the snapshot back at the new version and frees its block whether or not the write was issued |
| FlowCallbacks.ModUndoDone | src/v_flow/src/v_flow.c:282-290 | the undo's outcome never changes the answer |
| FlowCallbacks.DelReadDone | src/v_flow/src/v_flow.c:588-609 | read, then VDP delete |
| FlowCallbacks.DelVdpDone | src/v_flow/src/v_flow.c:564-582 | VDP accept, then CAS delete at the version read |
| FlowCallbacks.DelDeleteDone | src/v_flow/src/v_flow.c:526-558 | success frees the TEID of the context read; conflict starts over from the read |
| FlowCallbacks.OnTimeout | src/v_txn/src/v_txn.c:34-106 | recovery by state, then context and request go back; the snapshot and the TEID do not, and nothing is sent |
| Transitions.EntryExactly | src/v_flow/src/v_flow.c:465-523 | a request gets a transaction if and only if it is an establishment or its SEID is one that some partition and index encode, and there is room; otherwise nothing is looked up, and exactly a SEID nobody encodes is answered: SESSION_CTX_NOT_FOUND with SEID 0, not cached |
| Transitions.RefusalsAreOwed | src/v_flow/src/v_flow.c:465-493 | over any run of a pod the datagrams sent outside a transaction are exactly those answers, in the order of their requests |
| Transitions.EveryCallbackTransits | src/v_flow/src/v_flow.c:108-643 | a callback hands on if and only if the table of the three flows names a next step for the reply and the ports provide for it; then it waits for that step with the same session, the version heard, one retry more after a conflict only, and the contexts the step calls for |
| Transitions.NothingElseIsAllowed | src/v_flow/src/v_flow.c:76-681 | the table, the account of answer, TEID and rollback, and the request each wait is for determine every callback: whatever meets them is what the callback does, pool operations aside |
| Transitions.OutageIsAMiss | src/v_flow/src/v_flow.c:196-200 | in all three flows and whatever the ports answer, a lookup whose cache cannot be reached does what a miss does |
| Transitions.SweepIsSilent | src/v_txn/src/v_txn.c:34-106 | a timeout answers nobody, caches nothing and frees no TEID, in whatever wait; it sends PERSIST for an establishment that waits for it, a delete only where version 0 waits for the VDP, and nothing else |
| CoreRuns.StepKeeps | src/v_flow/src/v_flow.c:183-681 | every step of every pod, Redis, the VDP, the network and the clock keeps the core invariant |
| CoreRuns.RunKeeps | src/v_flow/src/v_flow.c:183-681 | so does every run |
| CoreInv.Assemble | src/v_flow/src/v_flow.c:183-681 | a step that honours what the others rely on and keeps its own transaction in order keeps the invariant |
| CoreSteps.ExecWriteKeeps | src/v_db_script/inc/v_db_lua_scripts.h:15-27 | an awaited CAS write tells its writer exactly what it did, and leaves the others' knowledge true |
| CoreSteps.LoseKeeps | src/v_sess_store/src/v_sess_store.c:142-153 | a lost answer whose command may still run keeps the invariant |
| CoreCalls.CallKeeps | src/v_flow/src/v_flow.c:183-681 | any callback with any port answers keeps the invariant |
| Steps.RunGrows | src/v_db_script/inc/v_db_lua_scripts.h:15-37 | over any run histories only grow, and a record that is gone stays gone |
| Promises.NoLostUpdate | src/v_flow/src/v_flow.c:296-428 | in every reachable state a record's version counts its commits, an undo stands only directly above its own change, and the data is what the changes not undone make, in version order, of the data created |
| Promises.SurvivorsStand | src/v_flow/src/v_flow.c:296-320 | the changes a replay keeps are exactly those no undo stands on |
| Promises.AcceptedModificationStands | src/v_flow/src/v_flow.c:317-320 | a modification answered ACCEPTED is part of the record's data for good |
| Promises.CommitBuildsOnLatest | src/v_flow/src/v_flow.c:375-428 | a modification's write lands exactly when the version is still the one read, and applies its request to what the record holds now |
| Promises.UndoRestores | src/v_flow/src/v_flow.c:296-312 | a compensating write lands exactly when nobody wrote since and restores the exact earlier data; otherwise it changes nothing |
| Promises.PushedIsCommitted | src/v_flow/src/v_flow.c:340-343 | in every reachable state, after however many retries, what a modification gives the VDP is the version it committed: the replay of the history up to it, its own change on top of its snapshot |
| Promises.CreatedIsPushed | src/v_flow/src/v_flow.c:168-170 | what an establishment gives the VDP is version 1 of the record it created |
| Refusals.RefusedCanStay | src/v_flow/src/v_flow.c:282-312 | from every reachable state with a record, two overlapping modifications can end with the first refused, its undo lost to the second, and its change in the fold |
| Refusals.RefusedStaysIsReachable | src/v_flow/src/v_flow.c:282-312 | such a state is reached from the empty system |
| Promises.NoResurrection | src/v_db_script/inc/v_db_lua_scripts.h:15-37 | a record that is gone, by CAS delete or expiry, never comes back in any run |
| Promises.CreateNeverConflicts | src/v_flow/src/v_flow.c:157-165 | an establishment's create lands or its answer is lost; it never conflicts and never finds the key gone |
| Promises.SeidsAreUnique | src/v_id_alloc/src/v_id_alloc.c:91-101 | no SEID is returned twice across pods, partitions, restarts and lost refills, and each validates to the partition asked for |
| Promises.RingsNeverFill | src/v_id_alloc/src/v_id_alloc.c:57-60 | in every reachable state a ring holds at most 319 ids and a refill fits whole |
| Promises.TeidsRest | src/v_db_script/inc/v_db_lua_scripts.h:43-56 | in every reachable state a TEID taken from the free list was freed at least 769 frees ago |
| Promises.AcceptedMeansDurable | src/v_flow/src/v_flow.c:108-177 | an accepted session not deleted has its record, with no TTL, if and only if PERSIST ran within 30 s of the create |
| Promises.DurableUntilDeleted | src/v_sess_store/src/v_sess_store.c:198-219 | from then on it stays, with no TTL, through every run until a CAS delete commits |
| Promises.LatePersistIsAccepted | src/v_sess_store/src/v_sess_store.c:227-240 | while no hard timeout runs: from every reachable state about to run PERSIST, a delay of 30 s gives ACCEPTED with no record |
| Deadlines.AcceptedIsDurableOnTime | stubs/v_stub_txn/src/v_stub_txn.c:54-76 | with a hard timeout of at most the pending TTL, every accepted session not deleted has its record with no TTL, in every run |
| Deadlines.TableIsDurable | stubs/v_stub_txn/src/v_stub_txn.c:11 | the table's 2000 ms suffice |
| Deadlines.LateAcceptanceIsReachable | src/v_flow/src/v_flow.c:108-147 | with one millisecond more than the pending TTL, a run from the empty system accepts a session that nobody deleted and that has no record |
| Promises.OrphansLapse | src/v_flow/src/v_flow.c:129-177 | a record whose session the VDP never accepted carries its creation TTL and is gone 30 s after the create |
| Promises.SweeperNeverDeletes | src/v_txn/src/v_txn.c:57-69 | the sweeper's delete is dead code; its only command is PERSIST, for a session the VDP accepted |
| Promises.RetriesRunOutOnlyBehindOthers | src/v_flow/src/v_flow.c:350-360 | running out of CAS retries implies at least three commits by other transactions since the first read |
| Promises.CacheHoldsProducedResponses | src/v_retrans_cache/src/v_retrans_cache.c:114-129 | every cached value is a response some finished transaction produced for that request |
| Promises.HitOnlyReplays | src/v_flow/src/v_flow.c:187-194 | a hit sends the cached response as it is and changes no record, pool, rule or cache entry |
| Promises.RetransmissionReplays | src/v_retrans_cache/src/v_retrans_cache.c:77-129 | after a store, whatever runs in between, a lookup within the TTL finds that response unless a newer store for the request ran |
| OwnInv.AssembleOwn | src/v_flow/src/v_flow.c:129-243 | a step that leaves the others' claims alone and its own in order keeps the ownership invariant |
| OwnCalls.CallIsOwn | src/v_flow/src/v_flow.c:129-243 | any callback keeps it: a TEID is pushed only by the transaction that answers for it |
| OwnSteps.ExecDeleteOwn | src/v_flow/src/v_flow.c:526-541 | of racing deletions exactly the one whose CAS delete commits gets the TEID to free |
| Ownership.StepIsOwn | src/v_flow/src/v_flow.c:129-243 | every step keeps it while requests are honest and counters bounded |
| Ownership.TeidSitsOnce | src/v_id_alloc/src/v_id_alloc.c:123-177 | a TEID in a ring, a refill on its way, the free list, a transaction, a push on its way or an accepted session is nowhere else, once there, and below the counter |
| Ownership.PushFreesOnce | src/v_id_alloc/src/v_id_alloc.c:256-265 | a push frees a TEID that is out, so no issue is freed twice, and it comes back as the same TEID |
| Ownership.RuleHasRecord | src/v_flow/src/v_flow.c:564-582 | a VDP rule has its record behind it exactly while the pending TTL did not run out before PERSIST; no CAS delete takes the record from under a rule |
| Ownership.RulesHaveTheirOwnTeid | src/v_flow/src/v_flow.c:129-147 | no two rules share a TEID |
| Leaks.OutSitsOrLeaked | src/v_txn/src/v_txn.c:97-105 | every TEID that is out sits with a transaction, a push on its way or an accepted session, unless a sweep or crash of its holder, a lost answer, a dropped push or a delete whose deletion gave up left it to nobody |
| Leaks.NothingLeaksUndisturbed | src/v_flow/src/v_flow.c:129-243 | in runs with no timeout, crash, lost answer or lost command nothing leaks: every failure gives its TEID back |
| Rules.RuleUntilDropped | src/v_flow/src/v_flow.c:564-582 | an accepted session has its rule exactly until the VDP accepts a delete for it; it has a record and no rule exactly when, besides, PERSIST was in time and no CAS delete committed |
| Rules.DeletionCanStrand | src/v_flow/src/v_flow.c:526-582 | from every reachable accepted, durable record a deletion whose CAS delete is lost answers SYSTEM_FAILURE and leaves the record with no rule |
| Rules.RuleLessIsReachable | src/v_flow/src/v_flow.c:526-582 | such a state is reached from the empty system |
| Answers.EveryCallbackAccounts | src/v_flow/src/v_flow.c:76-681 | whatever the reply and the ports' answers: one answer at the end and none before, with SEID 0 unless accepted; the cause names exactly what happened; a TEID is kept, taken over by the session or pushed, exactly one of them; a record is rolled back exactly when its create landed and its rule did not |
| Answers.AnswerIsCached | src/v_flow/src/v_flow.c:76-104 | the answer sent at the end, with its request's sequence number, is on its way to the cache under that very request; a replay stores nothing |
| Answers.AnswersAreTrue | src/v_flow/src/v_flow.c:76-681 | when it is sent, an ACCEPTED establishment was served and confirmed, an ACCEPTED modification is in the record, an ACCEPTED deletion left neither record nor rule, and a session "not found" has no record |
| Answers.AcceptedDeletionIsFinal | src/v_flow/src/v_flow.c:526-582 | once a session's CAS delete has committed it has neither record nor rule in any later sound state |
| Progress.EstablishmentSucceeds | src/v_flow/src/v_flow.c:108-271 | from every sound state with ids in its rings, an establishment whose lookup misses, or whose lookup answer is lost, and that nobody else disturbs, is accepted under a new SEID and says so, its record durable and its rule installed |
| Progress.ServiceIsReachable | src/v_id_alloc/src/v_id_alloc.c:91-101 | from the empty system, through dry rings and their first refills, a state with an accepted session, its durable record and its rule is reached |
| Ledger.CallBalances | src/v_flow/src/v_flow.c:296-428 | whatever the reply and the ports' answers, a callback trades exactly the blocks it held for those it holds |
| Ledger.RunKeepsBooks | src/v_flow/src/v_flow.c:76-271 | every run of arrivals, replies and timeouts keeps the books |
| Ledger.ExactlyOneEnding | src/v_flow/src/v_flow.c:76-104 | every transaction created is destroyed exactly once unless live, sends at most one datagram and only at its end, and waits for exactly the request it issued |
| Ledger.GoneForGood | src/v_flow/src/v_flow.c:76-104 | a transaction that is gone never waits again |
| Deliveries.LateExactlyAfterTimeout | src/v_txn/src/v_txn.c:34-106 | in every run a callback finds its transaction gone exactly when the sweeper destroyed it, and every live transaction is owed exactly one callback |
| Deliveries.NeverLateWithoutTimeouts | src/v_flow/src/v_flow.c:76-104 | without a hard timeout no callback touches a transaction that is gone |
| Deliveries.TimeoutLeavesOneLate | src/v_txn/src/v_txn.c:105 | every hard timeout leaves exactly one late callback behind |
| Ledger.PoolInUse | stubs/v_stub_mem/src/v_stub_mem.c:97-102 | the pool's in-use count is the number of ctx and impl fields set plus the snapshots lost; nothing is shared or freed twice; with nothing live or lost it is back at 0 |
| Ledger.SnapshotLost | src/v_txn/src/v_txn.c:97-105 | a block is lost exactly when a modification times out between its write and the VDP's answer |
| Ledger.LossIsReachable | src/v_txn/src/v_txn.c:97-105 | a run from the idle pod loses a block |
| Ledger.PutCommutes | stubs/v_stub_mem/src/v_stub_mem.c:70-81 | giving a block back commutes with all operations on other blocks |
| Ledger.NestedUndoBalances | src/v_flow/src/v_flow.c:296-312 | an undo answered before its modification gives the snapshot back, and whatever others do in between, comes to the same for the pool |
| Trips.PlayCosts | src/v_flow/src/v_flow.c:248-681 | over any replies the trips stay within what stage and retries left allow, and enough replies end the flow |
| Trips.EveryFlowEnds | src/v_flow/src/v_flow.c:248-681 | at most 3 Redis and 1 VDP trips for establishment, 8 and 1 for modification, 7 and 3 for deletion; 5, 16 and 13 Redis commands under NOSCRIPT |
| Trips.EstReachesBound | src/v_flow/src/v_flow.c:108-243 | an establishment that succeeds makes all of them |
| Trips.ModReachesBound | src/v_flow/src/v_flow.c:328-439 | a modification that loses two writes, lands the third and is refused makes all of them |
| Trips.DelReachesBound | src/v_flow/src/v_flow.c:526-609 | a deletion that loses every CAS asks the VDP three times |
| Deletions.OneVdpTripFromRead | src/v_flow/src/v_flow.c:526-609 | over all replies, from its first read on, a deletion makes at most one VDP trip if and only if the replies do not take it through a lost CAS to a second VDP answer |
| Deletions.OneVdpTrip | src/v_flow/src/v_flow.c:526-681 | the same from the arrival of the request |
| Deletions.DeleteConflictsExactly | src/v_db_script/inc/v_db_lua_scripts.h:32-37 | a deletion's CAS conflicts if and only if the record is there and somebody committed after the version it read |
| Deletions.AsksOncePerCommit | src/v_flow/src/v_flow.c:526-609 | in every run a deletion, over or not, has asked the VDP at most once more than others had committed on its record since its first read, at a moment it was still under way; with no such commit, once |
| EvalSha.EvalshaRefinesEval | src/v_db_script/src/v_db_script.c:204-307 | an accepted call gets one callback and returns its object with it; the body runs at most once, exactly once behind a value and never behind NOSCRIPT; at most two EVALSHA and one SCRIPT LOAD; three replies end it |
| EvalSha.OutcomeExactly | src/v_db_script/src/v_db_script.c:204-240 | for all replies, exactly what is sent and what the caller hears: a first NOSCRIPT leads to a reload and, if that succeeds, a second EVALSHA whose reply the caller gets; an error where the recovery cannot go on; otherwise the first reply |
| EvalSha.NoScriptMeansTwice | src/v_db_script/src/v_db_script.c:204-226 | NOSCRIPT reaches the caller if and only if the script was missing before the reload and after it; then two EVALSHA and one SCRIPT LOAD went out and the body never ran |
| EvalSha.RecoverySucceeds | src/v_db_script/src/v_db_script.c:86-116 | a script Redis lost is loaded and run once, and the caller gets its value |
| EvalSha.NeverStuck | src/v_db_script/src/v_db_script.c:204-240 | a call that is not over waits for a reply, and every reply brings it closer to its end |
| EvalSha.Pending.ScratchCopy | src/v_db_script/src/v_db_script.c:69-80 | bytes are appended, NULs included, or nothing changes, exactly when they would not fit |
| EvalSha.Pending.Build | src/v_db_script/src/v_db_script.c:273-303 | the copy loops lay every key and argument out in turn, and fail exactly when the lengths sum past 1024 |
| EvalSha.LayoutHolds | src/v_db_script/src/v_db_script.c:289-302 | every region then holds exactly the caller's bytes |
| EvalSha.RegionsAreApart | src/v_db_script/src/v_db_script.c:69-80 | no two regions overlap and none leaves the buffer |
| EvalSha.Pending.OnReply | src/v_db_script/src/v_db_script.c:204-226 | a reload goes out if and only if this is the call's first NOSCRIPT and the reload is accepted; everything else goes to the caller |
| EvalSha.Pending.OnLoaded | src/v_db_script/src/v_db_script.c:86-116 | the second EVALSHA carries the new SHA and the same keys and arguments |
| EvalSha.ShaTable.Load | src/v_db_script/src/v_db_script.c:86-108 | a load replaces one entry of the shared SHA table, and disturbs no call that is under way nor its arguments |
| EvalSha.Evalsha | src/v_db_script/src/v_db_script.c:244-307 | OK exactly when script, part count, SHA, pool and buffer checks pass, and then the command sent is the caller's |
| CtxPool.Pool.Alloc | stubs/v_stub_mem/src/v_stub_mem.c:49-66 | a zeroed block that was not out, or nothing exactly when all are out |
| CtxPool.Pool.Free | stubs/v_stub_mem/src/v_stub_mem.c:70-81 | a block that is out goes back; any other free changes nothing |
| CtxPool.Pool.Clear | stubs/v_stub_mem/src/v_stub_mem.c:85-93 | contents go, the stamp stays |
| CtxPool.Pool.InUse | stubs/v_stub_mem/src/v_stub_mem.c:97-102 | capacity less what is available is the number of blocks out |
| TxnTable.Table.Create | stubs/v_stub_txn/src/v_stub_txn.c:54-76 | the first free slot gets a new transaction with its deadline, or nothing exactly when none is free |
| TxnTable.Table.Destroy | stubs/v_stub_txn/src/v_stub_txn.c:91-103 | the slot is freed once; a transaction not in the table is refused |
| TxnTable.Table.FindBySeid | stubs/v_stub_txn/src/v_stub_txn.c:124-132 | some live transaction with the SEID, or none if there is none |
| TxnTable.Table.Advance | stubs/v_stub_txn/src/v_stub_txn.c:153-166 | exactly the transactions past their deadline are handed to the handler, once each, and leave the table |

## Left out

- What a late callback does: the code would touch freed memory. `Deliveries` proves which callbacks are late; nothing is said of what they do.
- Several shards, Sentinel failover and acknowledged writes lost in it: one Redis.
- Numbers in Lua are doubles; versions and counters above 2^53, and text forms with an exponent, are not modelled. A version that wraps at 2^64 is not modelled either.
- Numbers are read from their leading digits; white space, signs and overflow, which strtoull also handles, and texts longer than the parse buffers do not occur in what Redis sends for integers.
- Choice of partition: round robin and the hash of the UE address are a parameter below 1024.
- The bit operations of `v_seid.c` are written as the divisions, remainders and sums they amount to.
- Message types other than the three session requests are dropped by the code and are not modelled.
- Wire format, cause numbers and session contents: `v_pfcp` stubs; contexts are terms, responses carry kind, sequence number, cause and SEID.
- v_dispatch and v_node_state: copying and queueing; and a clock that the pods do not in fact agree on.
- The order in which two committed modifications reach the VDP: the code does not fix it, so nothing is said of which version the rule ends up with; `PushedIsCommitted` says what each request carries.
- Duplicates both still in flight: two lookups before the first store both miss, and both are served.
- A pod's crash is a crash of each of its transactions and a restart of its rings; a transaction of a dead pod may be kept longer by the model, which only allows more runs.
- Ledger.ExactlyOneEnding: counts replies to live transactions; `Deliveries` has the others.
- FlowCallbacks.Handle: the peer's address and the fields only logging reads are not modelled.
- IdAlloc.IdAlloc.SeidReply: one partition; the arrays over 1024 partitions are not modelled, nor is readiness at start-up.
- TxnTable.Table.Create: the object pool is a yes or no; the search by sequence number is the search by SEID again and is left out.
