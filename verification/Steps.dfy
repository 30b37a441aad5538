// What every single step leaves in place: histories only grow, a SEID that is
// out stays out, and a cached response stays until it lapses or is replaced.
module Steps {
  import opened Wrappers
  import opened Seid
  import opened Flow
  import opened Store
  import opened IdPool
  import opened Cluster
  import opened CoreInv
  import opened CoreSteps
  import opened CoreCalls
  import opened CoreRuns

  lemma GrowsOn(a: Db, b: Db, c: Db)
    requires Grows(a, b) && Grows(b, c)
    ensures Grows(a, c)
  {
  }

  // A command that may run makes histories grow.
  lemma ServeGrows(s: State, cmd: Cmd, tag: Commit, res: VdpResult)
    requires DbInv(s.db)
    requires cmd.WriteRec? ==> WriteOk(s.db, cmd.key, cmd.exp, cmd.data, cmd.pending, tag)
    ensures Grows(s.db, Serve(s, cmd, tag, res).0.db)
  {
    hide Grows, DbInv, WriteOk, Vdped, ServePush, Spend, ExecWrite, ExecDelete, ExecPersist, ExecSet, ExecGet;
    hide ExecRead;
    GrowsSelf(s.db);
    match cmd
    case WriteRec(k, exp, data, pending) => WriteKeeps(s.db, k, exp, data, pending, tag);
    case DeleteRec(k, exp) => DeleteKeeps(s.db, k, exp);
    case PersistRec(k) => PersistKeeps(s.db, k);
    case StoreRsp(smf, sn, rsp) => StoreGrows(s.db, smf, sn, rsp);
    case _ => assert Vdped(s, cmd, res).db == s.db;
  }

  // What an awaited write leaves.
  lemma WriteRuns(s: State, tid: nat, res: VdpResult)
    requires tid in s.txns && s.txns[tid].io.Sent? && s.txns[tid].io.cmd.WriteRec?
    ensures var s' := DoExec(s, tid, res); var cmd := s.txns[tid].io.cmd;
            var w := ExecWrite(s.db, cmd.key, cmd.exp, cmd.data, cmd.pending, Tag(tid, s.txns[tid].t));
            s' == s.(db := w.0, txns := s.txns[tid := s.txns[tid].(io := Got(w.1))], tickets := s'.tickets)
  {
  }

  lemma ExecGrows(s: State, tid: nat, res: VdpResult)
    requires Core(s) && tid in s.txns && s.txns[tid].io.Sent?
    ensures Grows(s.db, DoExec(s, tid, res).db)
  {
    hide Grows, DbInv, TicketsOk, PoolsOk, AcceptedOk, KeptOk, StraysOk, TxnOk, WriteOk, Serve;
    var live := s.txns[tid];
    assert TxnOk(s, tid, live);
    if live.io.cmd.WriteRec? {
      TagFits(s, tid, live);
    }
    ServeGrows(s, live.io.cmd, Tag(tid, live.t), res);
  }

  lemma StrayStepGrows(s: State, id: nat, res: VdpResult)
    requires Core(s) && id in s.stray
    ensures Grows(s.db, DoStray(s, id, res).db)
  {
    hide Grows, DbInv, TicketsOk, PoolsOk, AcceptedOk, KeptOk, TxnsOk, StrayOk, WriteOk, Serve;
    StrayIsNoTxn(s, id);
    var x := s.stray[id];
    if x.cmd.WriteRec? {
      StrayWriteFits(s, id, x);
    }
    ServeGrows(s.(stray := s.stray - {id}), x.cmd, x.tag, res);
  }

  lemma StoreGrows(db: Db, smf: nat, sn: nat, rsp: Rsp)
    ensures Grows(db, ExecSet(db, smf, sn, rsp))
  {
  }

  lemma SettleGrows(s: State, tid: nat, live: Live, out: Out)
    ensures Grows(s.db, Settle(s, tid, live, out).db)
  {
  }

  lemma StepGrows(s: State, l: Label)
    requires Core(s) && Enabled(s, l)
    ensures Grows(s.db, Next(s, l).db)
  {
    hide Core, Grows, DoBegin, DoExec, DoLose, DoCall, DoSweep, DoStray;
    GrowsSelf(s.db);
    match l
    case Exec(tid, res) => ExecGrows(s, tid, res);
    case Call(tid, env) => CallGrows(s, tid, env);
    case ExecStray(id, res) => StrayStepGrows(s, id, res);
    case Pass(ms) => PassGrows(s, ms);
    case _ =>
  }

  lemma PassGrows(s: State, ms: nat)
    requires Core(s)
    ensures Grows(s.db, Tick(s.db, ms))
  {
    hide Grows, DbInv;
    TickKeeps(s.db, ms);
  }

  lemma CallGrows(s: State, tid: nat, env: Env)
    requires Enabled(s, Call(tid, env))
    ensures Grows(s.db, DoCall(s, tid, env).db)
  {
    hide Grows, Settle, Callback, Alloc;
    var live := s.txns[tid];
    var (s1, env1) := Allocated(s, live, live.io.r, env);
    SettleGrows(s1, tid, live, Callback(live.t, live.io.r, env1));
  }

  lemma {:induction false} RunGrows(s: State, run: seq<Label>)
    requires Core(s) && Valid(s, run)
    ensures Grows(s.db, After(s, run).db)
    decreases |run|
  {
    hide Core, Grows, Next, Enabled;
    GrowsSelf(s.db);
    if run != [] {
      StepGrows(s, run[0]);
      StepKeeps(s, run[0]);
      RunGrows(Next(s, run[0]), run[1..]);
      GrowsOn(s.db, Next(s, run[0]).db, After(s, run).db);
    }
  }

  // --- SEIDs ---

  lemma OutStays(s: State, l: Label, part: nat, id: nat)
    requires Core(s) && Enabled(s, l) && part < NUM_PARTS && IsOut(s.SeidPool(part), id)
    ensures IsOut(Next(s, l).SeidPool(part), id)
  {
    hide Core, IsOut;
    match l
    case Call(tid, env) => CallOutStays(s, tid, env, part, id);
    case Begin(_, _, _) =>
    case Exec(_, _) =>
    case Lose(_, _) =>
    case Sweep(_) =>
    case Crash(_) =>
    case ExecStray(_, _) =>
    case DropStray(_) =>
    case Pass(_) =>
    case _ => IdStepOutStays(s, l, part, id);
  }

  lemma CallOutStays(s: State, tid: nat, env: Env, part: nat, id: nat)
    requires Core(s) && Enabled(s, Call(tid, env)) && part < NUM_PARTS && IsOut(s.SeidPool(part), id)
    ensures IsOut(DoCall(s, tid, env).SeidPool(part), id)
  {
    hide Core, Owned, Shape, Callback, Alloc;
    PoolIsOk(s, Seids, env.part);
    AllocGoesOut(Seids, env.part, s.SeidPool(env.part), s.txns[tid].pod);
  }

  lemma IdStepOutStays(s: State, l: Label, part: nat, id: nat)
    requires Core(s) && Enabled(s, l) && IdStep(l) && part < NUM_PARTS && IsOut(s.SeidPool(part), id)
    ensures IsOut(Next(s, l).SeidPool(part), id)
  {
    hide Owned, Shape, Core, Next, Enabled, IsOut, SameOut;
    var p' := IdStepRuns(s, l);
    PoolIsOk(s, l.kind, l.part);
    PutOutStays(s, l.kind, l.part, p', part, id);
  }

  lemma PutOutStays(s: State, kind: IdKind, q: nat, p: Pool, part: nat, id: nat)
    requires kind.Seids? ==> SameOut(PoolOf(s, kind, q), p)
    requires IsOut(s.SeidPool(part), id)
    ensures IsOut(PutPool(s, kind, q, p).SeidPool(part), id)
  {
  }

  lemma {:induction false} RunOutStays(s: State, run: seq<Label>, part: nat, id: nat)
    requires Core(s) && Valid(s, run) && part < NUM_PARTS && IsOut(s.SeidPool(part), id)
    ensures IsOut(After(s, run).SeidPool(part), id)
    decreases |run|
  {
    hide Core, IsOut, Next, Enabled;
    if run != [] {
      OutStays(s, run[0], part, id);
      StepKeeps(s, run[0]);
      RunOutStays(Next(s, run[0]), run[1..], part, id);
    }
  }

  // --- the retransmission cache ---

  predicate Caches(db: Db, smf: nat, sn: nat, rsp: Rsp, until: nat) {
    db.now < until ==> (smf, sn) in db.cache && db.cache[(smf, sn)] == Cached(rsp, until)
  }

  // The step runs a store for this request.
  predicate Stores(s: State, l: Label, smf: nat, sn: nat) {
    l.ExecStray? && l.id in s.stray && s.stray[l.id].cmd.StoreRsp?
    && s.stray[l.id].cmd.smf == smf && s.stray[l.id].cmd.sn == sn
  }

  predicate NeverStores(s: State, run: seq<Label>, smf: nat, sn: nat)
    requires Valid(s, run)
    decreases |run|
  {
    run == [] || (!Stores(s, run[0], smf, sn) && NeverStores(Next(s, run[0]), run[1..], smf, sn))
  }

  lemma ExecCache(s: State, tid: nat, res: VdpResult)
    requires Core(s) && tid in s.txns && s.txns[tid].io.Sent?
    ensures DoExec(s, tid, res).db.cache == s.db.cache && DoExec(s, tid, res).db.now == s.db.now
  {
    hide Core, Serve;
    AwaitedKinds(s, tid);
  }

  lemma CachesStays(s: State, l: Label, smf: nat, sn: nat, rsp: Rsp, until: nat)
    requires Core(s) && Enabled(s, l) && Caches(s.db, smf, sn, rsp, until) && !Stores(s, l, smf, sn)
    ensures Caches(Next(s, l).db, smf, sn, rsp, until)
  {
    hide Core, DoBegin, DoExec, DoLose, DoCall, DoSweep, Serve;
    match l
    case Exec(tid, res) => ExecCache(s, tid, res);
    case ExecStray(_, _) =>
    case Call(tid, env) => CallCache(s, tid, env);
    case _ =>
  }

  lemma CallCache(s: State, tid: nat, env: Env)
    requires Enabled(s, Call(tid, env))
    ensures DoCall(s, tid, env).db.cache == s.db.cache && DoCall(s, tid, env).db.now == s.db.now
  {
    hide Callback, Alloc;
  }

  lemma {:induction false} RunCachesStays(s: State, run: seq<Label>, smf: nat, sn: nat, rsp: Rsp, until: nat)
    requires Core(s) && Valid(s, run) && Caches(s.db, smf, sn, rsp, until) && NeverStores(s, run, smf, sn)
    ensures Caches(After(s, run).db, smf, sn, rsp, until)
    decreases |run|
  {
    hide Core, Next, Enabled;
    if run != [] {
      StepKeeps(s, run[0]);
      CachesStays(s, run[0], smf, sn, rsp, until);
      RunCachesStays(Next(s, run[0]), run[1..], smf, sn, rsp, until);
    }
  }
}
