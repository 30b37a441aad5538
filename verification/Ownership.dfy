// TEID ownership and the VDP rules, in every run whose requests name only
// accepted sessions and whose TEID counters stay at most one past 2^32.
module Ownership {
  import opened Wrappers
  import opened Seid
  import opened Flow
  import opened Store
  import opened IdPool
  import opened Cluster
  import opened CoreInv
  import opened CoreSteps
  import opened CoreRuns
  import opened Promises
  import opened OwnInv
  import opened OwnSteps
  import opened OwnRest
  import opened OwnCalls

  lemma ExecIsOwn(s: State, tid: nat, res: VdpResult)
    requires Core(s) && Own(s) && tid in s.txns && s.txns[tid].io.Sent?
    ensures Own(DoExec(s, tid, res))
  {
    hide Core, Own, DoExec;
    AwaitedKinds(s, tid);
    var cmd := s.txns[tid].io.cmd;
    if cmd.WriteRec? {
      ExecWriteOwn(s, tid, res);
    } else if cmd.DeleteRec? {
      ExecDeleteOwn(s, tid, res);
    } else if cmd.VdpCreate? || cmd.VdpDelete? {
      ExecVdpOwn(s, tid, res);
    } else {
      ExecQuietOwn(s, tid, res);
    }
  }

  lemma CrashIsOwn(s: State, tid: nat)
    requires Core(s) && Own(s) && tid in s.txns
    ensures Own(s.(txns := s.txns - {tid}))
  {
    hide Core, Own, TxnOk;
    NotStray(s, tid);
    EndIsOwn(s, s.(txns := s.txns - {tid}), tid);
  }

  lemma StepIsOwn(s: State, l: Label)
    requires Core(s) && Own(s) && Enabled(s, l)
    requires Next(s, l).honest && TeidsBounded(Next(s, l))
    ensures Own(Next(s, l))
  {
    hide Core, Own, TeidsBounded, DoBegin, DoExec, DoLose, DoCall, DoSweep, DoStray;
    match l
    case Begin(pod, req, env) => BeginIsOwn(s, pod, req, env);
    case Exec(tid, res) => ExecIsOwn(s, tid, res);
    case Lose(tid, zombie) => LoseIsOwn(s, tid, zombie);
    case Call(tid, env) => CallIsOwn(s, tid, env);
    case Sweep(tid) => SweepIsOwn(s, tid);
    case Crash(tid) => CrashIsOwn(s, tid);
    case ExecStray(id, res) => StrayIsOwn(s, id, res);
    case DropStray(id) => DropIsOwn(s, id);
    case Pass(ms) => PassIsOwn(s, ms);
    case _ => IdStepIsOwn(s, l);
  }

  // --- the two conditions, once broken, stay broken ---

  ghost predicate TeidsLater(s: State, s': State) {
    forall part: nat :: part < NUM_PARTS ==> Later(s.TeidPool(part), s'.TeidPool(part))
  }

  lemma StepGoesOn(s: State, l: Label)
    requires Core(s) && Enabled(s, l)
    ensures Next(s, l).honest ==> s.honest
    ensures TeidsLater(s, Next(s, l))
  {
    hide Core, DoExec, DoLose, DoSweep, DoStray, DoCall, Refill, LoseRefill, Deliver, Restart, Start;
    match l
    case Begin(pod, req, env) =>
    case Exec(tid, res) => ExecGoesOn(s, tid, res);
    case Lose(tid, zombie) =>
    case Call(tid, env) => CallGoesOn(s, tid, env);
    case Sweep(tid) =>
    case Crash(tid) =>
    case ExecStray(id, res) => StrayGoesOn(s, id, res);
    case DropStray(id) =>
    case Pass(ms) =>
    case _ => IdStepGoesOn(s, l);
  }

  lemma ExecGoesOn(s: State, tid: nat, res: VdpResult)
    requires Core(s) && tid in s.txns && s.txns[tid].io.Sent?
    ensures DoExec(s, tid, res).honest == s.honest && TeidsLater(s, DoExec(s, tid, res))
  {
    hide Core, Serve;
    AwaitedKinds(s, tid);
    assert DoExec(s, tid, res).teids == s.teids;
  }

  lemma CallGoesOn(s: State, tid: nat, env: Env)
    requires Core(s) && Enabled(s, Call(tid, env))
    ensures DoCall(s, tid, env).honest == s.honest && TeidsLater(s, DoCall(s, tid, env))
  {
    hide Core, DoCall, Alloc, Shape, Owned, Later, TeidsLater;
    PoolIsOk(s, Teids, env.part);
    AllocKeeps(Teids, env.part, s.TeidPool(env.part), s.txns[tid].pod);
    CallTeids(s, tid, env);
    PutGoesOn(s, Teids, env.part, Alloc(s.TeidPool(env.part), s.txns[tid].pod).0);
    SameTeids(s, PutPool(s, Teids, env.part, Alloc(s.TeidPool(env.part), s.txns[tid].pod).0), DoCall(s, tid, env));
  }

  lemma CallTeids(s: State, tid: nat, env: Env)
    requires Enabled(s, Call(tid, env))
    ensures var s' := DoCall(s, tid, env);
            && s'.honest == s.honest
            && (s'.teids == s.teids || s'.teids == s.teids[env.part := Alloc(s.TeidPool(env.part), s.txns[tid].pod).0])
  {
    hide Callback, Alloc, NewStrays, NewTxns, NewClaims, Wf, Fits;
  }

  // TEID pools that are the same, or those of a later state, are later.
  lemma SameTeids(s: State, s1: State, s': State)
    requires s'.teids == s.teids || (s'.teids == s1.teids && TeidsLater(s, s1))
    ensures TeidsLater(s, s')
  {
  }

  lemma StrayGoesOn(s: State, id: nat, res: VdpResult)
    requires id in s.stray
    ensures DoStray(s, id, res).honest == s.honest && TeidsLater(s, DoStray(s, id, res))
  {
  }

  lemma PushRuns(s: State, id: nat, res: VdpResult)
    requires id in s.stray && s.stray[id].cmd.PushTeid?
    ensures var cmd := s.stray[id].cmd;
            DoStray(s, id, res).teids == s.teids[cmd.part := Free(s.TeidPool(cmd.part), cmd.teid)]
  {
  }

  lemma IdStepGoesOn(s: State, l: Label)
    requires Core(s) && Enabled(s, l) && IdStep(l)
    ensures Next(s, l).honest == s.honest && TeidsLater(s, Next(s, l))
  {
    hide Core, Owned, Shape, Next, Enabled, Later;
    var p' := IdStepRuns(s, l);
    PutGoesOn(s, l.kind, l.part, p');
  }

  lemma PutGoesOn(s: State, kind: IdKind, part: nat, p: Pool)
    requires Later(PoolOf(s, kind, part), p)
    ensures TeidsLater(s, PutPool(s, kind, part, p))
  {
  }

  lemma LaterBounds(s: State, s': State)
    requires TeidsLater(s, s') && TeidsBounded(s')
    ensures TeidsBounded(s)
  {
  }

  lemma {:induction false} RunGoesOn(s: State, run: seq<Label>)
    requires Core(s) && Valid(s, run) && After(s, run).honest && TeidsBounded(After(s, run))
    ensures s.honest && TeidsBounded(s)
    decreases |run|
  {
    hide Core, Next, Enabled, TeidsBounded, TeidsLater;
    if run != [] {
      StepKeeps(s, run[0]);
      StepGoesOn(s, run[0]);
      RunGoesOn(Next(s, run[0]), run[1..]);
      LaterBounds(s, Next(s, run[0]));
    }
  }

  lemma {:induction false} RunIsOwn(s: State, run: seq<Label>)
    requires Core(s) && Own(s) && Valid(s, run) && After(s, run).honest && TeidsBounded(After(s, run))
    ensures Own(After(s, run))
    decreases |run|
  {
    hide Core, Own, Next, Enabled, TeidsBounded;
    if run != [] {
      StepKeeps(s, run[0]);
      RunGoesOn(Next(s, run[0]), run[1..]);
      StepIsOwn(s, run[0]);
      RunIsOwn(Next(s, run[0]), run[1..]);
    }
  }

  lemma StartIsOwn()
    ensures Own(START)
  {
  }

  ghost predicate Sound(s: State) {
    Reachable(s) && s.honest && TeidsBounded(s)
  }

  lemma SoundIsOwn(s: State)
    requires Sound(s)
    ensures Core(s) && Own(s)
  {
    hide Core, Own, TeidsBounded;
    var run :| Valid(START, run) && s == After(START, run);
    StartIsCore();
    StartIsOwn();
    RunKeeps(START, run);
    RunIsOwn(START, run);
  }

  // --- every TEID sits at one place ---

  datatype Spot =
    | RingSlot(pod: nat, i: nat)
    | ReplySlot(pod: nat, i: nat)
    | FreeSlot(i: nat)
    | WithTxn(tid: nat)
    | WithPush(id: nat)
    | WithSession(key: Key)

  // The transaction must give this TEID back or hand it to a session.
  predicate Holding(live: Live, teid: nat) {
    var t := live.t;
    || (t.cb.EstWriteCb? && t.teid == teid)
    || (t.cb.EstVdpCb? && live.io != Got(Vdp(Accept)) && live.io != Got(Err) && t.teid == teid)
    || (t.cb.DelDeleteCb? && live.io.Got? && live.io.r.CasOk? && t.ctx.Some? && CtxTeid(t.ctx.value.val) == teid)
  }

  predicate Sits(s: State, part: nat, teid: nat, at: Spot) {
    var p := s.TeidPool(part);
    match at
    case RingSlot(pod, i) => i < |p.Ring(pod)| && p.Ring(pod)[i] == teid
    case ReplySlot(pod, i) => p.AskOf(pod).Replied? && i < |p.AskOf(pod).ids| && p.AskOf(pod).ids[i] == teid
    case FreeSlot(i) => i < |p.free| && part * TEID_PART + p.free[i].local == teid
    case WithTxn(tid) =>
      tid in s.txns && Holding(s.txns[tid], teid)
      && (if s.txns[tid].t.cb.DelDeleteCb? then s.txns[tid].t.RecKey().part else s.txns[tid].t.part) == part
    case WithPush(id) => id in s.stray && s.stray[id].cmd == PushTeid(part, teid)
    case WithSession(k) =>
      && k in s.served && k.part == part && k in s.db.keys && !s.db.keys[k].erased && TeidOf(s.db, k) == teid
  }

  function PlaceOf(at: Spot): Place {
    match at
    case RingSlot(pod, _) => InRing(pod)
    case ReplySlot(pod, _) => InReply(pod)
    case FreeSlot(_) => InFree
    case _ => Place.Out
  }

  lemma SpotIsPlace(s: State, part: nat, teid: nat, at: Spot)
    requires Core(s) && Own(s) && part < NUM_PARTS && Sits(s, part, teid, at)
    ensures var p := s.TeidPool(part); teid in p.place && p.place[teid] == PlaceOf(at)
    ensures at.WithTxn? ==> teid in s.claims && s.claims[teid] == ByTxn(at.tid)
    ensures at.WithPush? ==> teid in s.claims && s.claims[teid] == ByPush(at.id)
    ensures at.WithSession? ==> teid in s.claims && s.claims[teid] == BySession(at.key)
  {
    hide Core, Own, Genuine, TeidsOwned, ClaimsOk, KeysOk, OwnTxns, OwnStrays, TeidValidate;
    TeidsAreOwned(s, part);
    var p := s.TeidPool(part);
    match at
    case RingSlot(pod, i) => assert AllAt(p.place, p.Ring(pod), InRing(pod));
    case ReplySlot(pod, i) => assert AllAt(p.place, p.AskOf(pod).ids, InReply(pod));
    case FreeSlot(i) => assert FreeIds(part, p.free)[i] in FreeIds(part, p.free);
    case WithTxn(tid) =>
      OwnTxnNow(s, tid);
      ClaimedIsOut(s, teid);
    case WithPush(id) =>
      OwnStrayNow(s, id);
      ClaimedIsOut(s, teid);
    case WithSession(k) =>
      ServedHolds(s, k);
      ClaimedIsOut(s, teid);
  }

  lemma ServedHolds(s: State, k: Key)
    requires Own(s) && k in s.served
    ensures SessionHolds(s, k)
  {
  }

  // A TEID in a ring, a refill on its way, the free list, a transaction, a push
  // on its way or an accepted session is nowhere else, and was leased.
  lemma TeidSitsOnce(s: State, part: nat, teid: nat, a: Spot, b: Spot)
    requires Sound(s) && part < NUM_PARTS && Sits(s, part, teid, a) && Sits(s, part, teid, b)
    ensures a == b
    ensures TeidValidate(teid) == Some(part)
    ensures var next := s.TeidPool(part).next; next.Some? && TeidLocal(teid) < next.value
  {
    hide Core, Own, TeidsBounded, TeidValidate, Sound, Sits;
    SoundIsOwn(s);
    SpotIsPlace(s, part, teid, a);
    SpotIsPlace(s, part, teid, b);
    TeidsAreOwned(s, part);
    GenuineValidates(Teids, part, teid);
    if PlaceOf(a) != Place.Out {
      SameSlot(s.TeidPool(part), part, teid, s, a, b);
    }
  }

  lemma SameSlot(p: Pool, part: nat, teid: nat, s: State, a: Spot, b: Spot)
    requires p == s.TeidPool(part) && Owned(Teids, part, p)
    requires Sits(s, part, teid, a) && Sits(s, part, teid, b) && PlaceOf(a) == PlaceOf(b)
    requires PlaceOf(a) != Place.Out
    ensures a == b
  {
    hide Genuine;
    match a
    case RingSlot(pod, i) => assert AllAt(p.place, p.Ring(pod), InRing(pod));
    case ReplySlot(pod, i) => assert AllAt(p.place, p.AskOf(pod).ids, InReply(pod));
    case FreeSlot(i) => assert FreeIds(part, p.free)[i] == FreeIds(part, p.free)[b.i] ==> i == b.i;
    case _ =>
  }

  // A push gives back a TEID that is out, so none is freed twice, and the entry
  // it leaves mints that same TEID again.
  lemma PushFreesOnce(s: State, id: nat, part: nat, teid: nat, res: VdpResult)
    requires Sound(s) && id in s.stray && s.stray[id].cmd == PushTeid(part, teid)
    ensures part < NUM_PARTS && IsOut(s.TeidPool(part), teid)
    ensures var p := s.TeidPool(part); var p' := Next(s, ExecStray(id, res)).TeidPool(part);
            && p'.free == p.free + [Freed(TeidLocal(teid), p.frees)]
            && !IsOut(p', teid) && Mint(Teids, part, TeidLocal(teid)) == Some(teid)
  {
    hide Core, Own, TeidsBounded, Reachable, TeidValidate, Mint;
    SoundIsOwn(s);
    OwnStrayNow(s, id);
    ClaimedIsOut(s, teid);
    PartOf(teid);
    TeidsAreOwned(s, part);
    FreedComesBack(part, s.TeidPool(part), teid);
    PushRuns(s, id, res);
  }

  // --- rules and records ---

  // A rule in the VDP has its record behind it, unless the pending TTL of the
  // create ran out before PERSIST ran; no CAS delete ever takes the record away
  // from under a rule.
  lemma RuleHasRecord(s: State, k: Key)
    requires Sound(s) && k in s.rules
    ensures k in s.db.keys && !s.db.Erased(k)
    ensures var l := s.db.keys[k];
            s.db.Has(k) <==> (if l.persisted.Some? then l.persisted.value else s.db.now) < l.born + PENDING_TTL
  {
    hide Core, Own, TeidsBounded, Reachable;
    SoundIsOwn(s);
    CoreParts(s);
    RuleKeys(s, k);
    assert LifeOk(s.db.now, s.db.keys[k]);
  }

  lemma RuleKeys(s: State, k: Key)
    requires Own(s) && k in s.rules
    ensures k in s.db.keys && !s.db.keys[k].erased
  {
    hide TeidsOwned, ClaimsOk, OwnTxns, OwnStrays;
  }

  // Two rules never share a TEID in one partition.
  lemma RulesHaveTheirOwnTeid(s: State, k1: Key, k2: Key)
    requires Sound(s) && k1 in s.rules && k2 in s.rules
    requires k1 in s.db.keys && k2 in s.db.keys && TeidOf(s.db, k1) == TeidOf(s.db, k2)
    ensures k1 == k2
  {
    hide Core, TeidsBounded, Reachable, TeidsOwned, ClaimsOk, OwnTxns, OwnStrays, TeidOf, TeidValidate;
    SoundIsOwn(s);
    ServedHolds(s, k1);
    ServedHolds(s, k2);
  }
}
