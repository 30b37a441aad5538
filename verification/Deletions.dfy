// How often a deletion asks the VDP: exactly when once, over any replies, and
// why more than once in the cluster.
module Deletions {
  import opened Seid
  import opened Flow
  import opened Store
  import opened IdPool
  import opened Cluster
  import opened CoreInv
  import opened CoreSteps
  import opened CoreRuns
  import opened Promises
  import opened Trips

  // --- over any replies ---

  // The VDP is asked a second time and answers: the first round reads the record,
  // deletes the rule and loses its CAS delete, and the second reads again.
  predicate Again(s: Script) {
    && |s| >= 5
    && s[0].0.Found? && s[0].1.issued
    && s[1].0 == Vdp(Accept) && s[1].1.issued
    && s[2].0.CasConflict? && s[2].1.issued
    && s[3].0.Found? && s[3].1.issued
    && s[4].0.Vdp?
  }

  // Where a deletion's callbacks hand on.
  lemma DelHands(t: Txn, r: Reply, env: Env)
    requires Wf(t) && Fits(t.cb, r)
    ensures var out := Callback(t, r, env);
            match t.cb
            case DelReadCb =>
              if r.Found? && env.issued then GoesTo(out, DelVdpCb, t.casRetry) else out.fate.Gone?
            case DelVdpCb =>
              if r == Vdp(Accept) && env.issued then GoesTo(out, DelDeleteCb, t.casRetry) else out.fate.Gone?
            case DelDeleteCb =>
              if r.CasConflict? && env.issued && t.casRetry + 1 < CAS_MAX_RETRY then
                GoesTo(out, DelReadCb, t.casRetry + 1)
              else out.fate.Gone?
            case DelLookupCb =>
              if !r.Hit? && env.blk.Some? && env.issued then GoesTo(out, DelReadCb, t.casRetry) else out.fate.Gone?
            case _ => true
  {
  }

  // A deletion's trips: this one, and those of what it hands on.
  lemma PlayHead(t: Txn, s: Script)
    requires Wf(t) && IsDel(t.cb)
    ensures var on := s != [] && Fits(t.cb, s[0].0);
            Play(t, s).trips.vdp ==
              if !on then 0
              else
                var out := Callback(t, s[0].0, s[0].1);
                Trip(t.cb).vdp + (if out.fate.Await? then Play(out.fate.t, s[1..]).trips.vdp else 0)
    ensures s != [] && Fits(t.cb, s[0].0) ==> Trip(t.cb).vdp == (if t.cb.DelVdpCb? then 1 else 0)
  {
    hide Callback, Fits;
  }

  lemma VdpFromVdp(t: Txn, s: Script)
    requires Wf(t) && t.cb.DelVdpCb?
    ensures Play(t, s).trips.vdp >= 1 <==> s != [] && s[0].0.Vdp?
  {
    hide Callback, Play, Trip;
    PlayHead(t, s);
    if s != [] && Fits(t.cb, s[0].0) {
      DelHands(t, s[0].0, s[0].1);
    }
  }

  lemma VdpFromRead(t: Txn, s: Script)
    requires Wf(t) && t.cb.DelReadCb?
    ensures Play(t, s).trips.vdp >= 1 <==> |s| >= 2 && s[0].0.Found? && s[0].1.issued && s[1].0.Vdp?
  {
    hide Callback, Play, Trip;
    PlayHead(t, s);
    if s != [] && Fits(t.cb, s[0].0) {
      DelHands(t, s[0].0, s[0].1);
      var out := Callback(t, s[0].0, s[0].1);
      if out.fate.Await? {
        VdpFromVdp(out.fate.t, s[1..]);
      }
    }
  }

  lemma VdpFromDelete(t: Txn, s: Script)
    requires Wf(t) && t.cb.DelDeleteCb? && t.casRetry == 0
    ensures Play(t, s).trips.vdp >= 1 <==>
              |s| >= 3 && s[0].0.CasConflict? && s[0].1.issued && s[1].0.Found? && s[1].1.issued && s[2].0.Vdp?
  {
    hide Callback, Play, Trip;
    PlayHead(t, s);
    if s != [] && Fits(t.cb, s[0].0) {
      DelHands(t, s[0].0, s[0].1);
      var out := Callback(t, s[0].0, s[0].1);
      if out.fate.Await? {
        VdpFromRead(out.fate.t, s[1..]);
      }
    }
  }

  lemma TwiceFromVdp(t: Txn, s: Script)
    requires Wf(t) && t.cb.DelVdpCb? && t.casRetry == 0
    ensures Play(t, s).trips.vdp >= 2 <==>
              |s| >= 4 && s[0].0 == Vdp(Accept) && s[0].1.issued && s[1].0.CasConflict? && s[1].1.issued
              && s[2].0.Found? && s[2].1.issued && s[3].0.Vdp?
  {
    hide Callback, Play, Trip;
    PlayHead(t, s);
    if s != [] && Fits(t.cb, s[0].0) {
      DelHands(t, s[0].0, s[0].1);
      var out := Callback(t, s[0].0, s[0].1);
      if out.fate.Await? {
        VdpFromDelete(out.fate.t, s[1..]);
      }
    }
  }

  // From its first read on, a deletion stays within one VDP trip exactly when the
  // replies do not take it round again.
  lemma OneVdpTripFromRead(t: Txn, s: Script)
    requires Wf(t) && t.cb.DelReadCb? && t.casRetry == 0
    ensures Play(t, s).trips.vdp <= 1 <==> !Again(s)
  {
    hide Callback, Play, Trip;
    PlayHead(t, s);
    if s != [] && Fits(t.cb, s[0].0) {
      DelHands(t, s[0].0, s[0].1);
      var out := Callback(t, s[0].0, s[0].1);
      if out.fate.Await? {
        TwiceFromVdp(out.fate.t, s[1..]);
      }
    }
  }

  // The lookup lets the deletion go on to its first read.
  predicate GoesOn(s: Script) {
    s != [] && (s[0].0.Miss? || s[0].0.Err?) && s[0].1.blk.Some? && s[0].1.issued
  }

  // So does the whole deletion: the budget of one VDP trip covers it exactly when
  // the lookup ends it or the replies do not take it round again.
  lemma OneVdpTrip(req: Req, env: Env, s: Script)
    requires req.kind.Del? && Start(req, env).1.fate.Await?
    ensures Wf(Start(req, env).1.fate.t)
    ensures Play(Start(req, env).1.fate.t, s).trips.vdp <= 1 <==> !(GoesOn(s) && Again(s[1..]))
  {
    var t := Start(req, env).1.fate.t;
    StartsAtLookup(req, env);
    hide Callback, Start, Play, Trip;
    PlayHead(t, s);
    if s != [] && Fits(t.cb, s[0].0) {
      DelHands(t, s[0].0, s[0].1);
      var out := Callback(t, s[0].0, s[0].1);
      if out.fate.Await? {
        OneVdpTripFromRead(out.fate.t, s[1..]);
      }
    }
  }

  lemma StartsAtLookup(req: Req, env: Env)
    requires req.kind.Del? && Start(req, env).1.fate.Await?
    ensures var t := Start(req, env).1.fate.t; Wf(t) && t.cb.DelLookupCb? && t.casRetry == 0
  {
    hide SeidValidate;
  }

  // --- in the cluster ---

  // A CAS delete conflicts exactly when the record is there at a later version
  // than the one read: somebody committed in between.
  lemma DeleteConflictsExactly(s: State, tid: nat, res: VdpResult)
    requires Reachable(s) && tid in s.txns && s.txns[tid].io.Sent? && s.txns[tid].t.cb.DelDeleteCb?
    ensures var t := s.txns[tid].t; var k := t.RecKey();
            DoExec(s, tid, res).txns[tid].io == Got(CasConflict) <==> s.db.Has(k) && t.dbVer < |s.db.keys[k].hist|
  {
    hide Core, DbInv, Seen, Behind;
    ReachableIsCore(s);
    CoreRecords(s);
    DeleterRead(s, tid);
    DeleteRuns(s, tid, res);
    var k := s.txns[tid].t.RecKey();
    if s.db.Has(k) {
      RecordAt(s.db, k);
    }
  }

  lemma RecordAt(db: Db, k: Key)
    requires DbInv(db) && db.Has(k)
    ensures db.At(k).ver == |db.keys[k].hist|
  {
    assert LifeOk(db.now, db.keys[k]);
  }

  lemma DeleterRead(s: State, tid: nat)
    requires Core(s) && tid in s.txns && s.txns[tid].io.Sent? && s.txns[tid].t.cb.DelDeleteCb?
    ensures var t := s.txns[tid].t; var k := t.RecKey();
            s.txns[tid].io.cmd == DeleteRec(k, t.dbVer) && k in s.db.keys && 1 <= t.dbVer <= |s.db.keys[k].hist|
  {
    hide DbInv, PoolsOk, TicketsOk, AcceptedOk, KeptOk, StraysOk, EstOk, ModOk, Behind;
    assert TxnOk(s, tid, s.txns[tid]);
  }

  // This step sends a deletion's request to the VDP.
  predicate Sends(s: State, l: Label, tid: nat)
    requires Enabled(s, l)
  {
    var s' := Next(s, l);
    l.Call? && l.tid == tid && tid in s'.txns && s'.txns[tid].t.cb.DelVdpCb?
  }

  // How often a run sends one for this transaction.
  function VdpAsked(s: State, run: seq<Label>, tid: nat): nat
    requires Valid(s, run)
    decreases |run|
  {
    if run == [] then 0
    else (if Sends(s, run[0], tid) then 1 else 0) + VdpAsked(Next(s, run[0]), run[1..], tid)
  }

  // How often it has, by what the transaction remembers.
  function AskedBy(s: State, tid: nat): nat {
    if tid !in s.txns || !IsDel(s.txns[tid].t.cb) then 0
    else s.txns[tid].t.casRetry + (if s.txns[tid].t.cb.DelVdpCb? || s.txns[tid].t.cb.DelDeleteCb? then 1 else 0)
  }

  lemma CallAsks(s: State, tid: nat, env: Env)
    requires Core(s) && Enabled(s, Call(tid, env))
    ensures var s' := DoCall(s, tid, env);
            && (forall o :: o != tid ==> AskedBy(s', o) == AskedBy(s, o))
            && (tid in s'.txns ==>
                  AskedBy(s', tid) == AskedBy(s, tid) + (if s'.txns[tid].t.cb.DelVdpCb? then 1 else 0))
  {
    hide Core, Callback, Alloc, NewStrays, NewClaims, Fits, Wf;
    var live := s.txns[tid];
    var env1 := Allocated(s, live, live.io.r, env).1;
    LookupHasNoRetry(s, tid);
    KindStays(live.t, live.io.r, env1);
    if IsDel(live.t.cb) {
      DelHands(live.t, live.io.r, env1);
    }
  }

  lemma LookupHasNoRetry(s: State, tid: nat)
    requires Core(s) && tid in s.txns
    ensures s.txns[tid].t.cb.DelLookupCb? ==> s.txns[tid].t.casRetry == 0
  {
    hide DbInv, PoolsOk, TicketsOk, AcceptedOk, KeptOk, StraysOk, EstOk, ModOk, Behind;
    assert TxnOk(s, tid, s.txns[tid]);
  }

  lemma KindStays(t: Txn, r: Reply, env: Env)
    requires Wf(t) && Fits(t.cb, r)
    ensures var out := Callback(t, r, env); out.fate.Await? ==> (IsDel(out.fate.t.cb) <==> IsDel(t.cb))
  {
    hide Callback;
  }

  lemma StepAsks(s: State, l: Label, tid: nat)
    requires Core(s) && Enabled(s, l) && tid in Next(s, l).txns
    ensures AskedBy(Next(s, l), tid) == AskedBy(s, tid) + (if Sends(s, l, tid) then 1 else 0)
  {
    hide Core, DoCall, DoExec, DoLose, DoBegin, DoStray, AskedBy;
    match l
    case Call(o, env) => CallAsks(s, o, env);
    case Begin(pod, req, env) => BeginAsks(s, pod, req, env, tid);
    case Exec(o, res) => AnswersAsk(s, o, res, tid);
    case Lose(o, zombie) => LosesAsk(s, o, zombie, tid);
    case Sweep(o) => EndsAsk(s, DoSweep(s, o), tid);
    case ExecStray(id, res) => StraysAsk(s, id, res, tid);
    case _ => EndsAsk(s, Next(s, l), tid);
  }

  // A transaction that is as it was, or heard an answer, has asked as often.
  lemma EndsAsk(s: State, s': State, tid: nat)
    requires tid in s'.txns && tid in s.txns ==> s'.txns[tid].t == s.txns[tid].t
    requires tid in s'.txns ==> tid in s.txns
    ensures tid in s'.txns ==> AskedBy(s', tid) == AskedBy(s, tid)
  {
  }

  lemma AnswersAsk(s: State, o: nat, res: VdpResult, tid: nat)
    requires o in s.txns && s.txns[o].io.Sent?
    ensures AskedBy(DoExec(s, o, res), tid) == AskedBy(s, tid)
  {
    hide Serve, Tag;
  }

  lemma LosesAsk(s: State, o: nat, zombie: bool, tid: nat)
    requires o in s.txns
    ensures AskedBy(DoLose(s, o, zombie), tid) == AskedBy(s, tid)
  {
    hide Tag;
  }

  lemma StraysAsk(s: State, id: nat, res: VdpResult, tid: nat)
    requires id in s.stray
    ensures AskedBy(DoStray(s, id, res), tid) == AskedBy(s, tid)
  {
    hide Serve;
  }

  lemma BeginAsks(s: State, pod: nat, req: Req, env: Env, tid: nat)
    requires Core(s)
    ensures AskedBy(DoBegin(s, pod, req, env), tid) == AskedBy(s, tid)
  {
    hide DbInv, PoolsOk, TicketsOk, AcceptedOk, KeptOk, StraysOk, TxnOk, SeidValidate;
  }

  // A transaction that is gone does not come back.
  lemma GoneTxnStays(s: State, l: Label, tid: nat)
    requires Core(s) && Enabled(s, l) && tid < s.nextId && tid !in s.txns
    ensures tid !in Next(s, l).txns && tid < Next(s, l).nextId
  {
    hide Core, Serve, Callback, Alloc, NewStrays, NewClaims;
  }

  lemma {:induction false} RunGone(s: State, run: seq<Label>, tid: nat)
    requires Core(s) && Valid(s, run) && tid < s.nextId && tid !in s.txns
    ensures tid !in After(s, run).txns
    decreases |run|
  {
    hide Core, Next, Enabled;
    if run != [] {
      GoneTxnStays(s, run[0], tid);
      StepKeeps(s, run[0]);
      RunGone(Next(s, run[0]), run[1..], tid);
    }
  }

  lemma {:induction false} RunAsks(s: State, run: seq<Label>, tid: nat)
    requires Core(s) && Valid(s, run) && tid in After(s, run).txns && (tid in s.txns || tid >= s.nextId)
    ensures AskedBy(After(s, run), tid) == AskedBy(s, tid) + VdpAsked(s, run, tid)
    decreases |run|
  {
    hide Core, Next, Enabled, Sends, AskedBy;
    if run != [] {
      var s1 := Next(s, run[0]);
      StepKeeps(s, run[0]);
      if tid !in s1.txns && tid < s1.nextId {
        RunGone(s1, run[1..], tid);
      }
      RunAsks(s1, run[1..], tid);
      if tid in s1.txns {
        StepAsks(s, run[0], tid);
      } else {
        NothingAsked(s, run[0], tid);
      }
    }
  }

  lemma NothingAsked(s: State, l: Label, tid: nat)
    requires Core(s) && Enabled(s, l) && tid !in Next(s, l).txns && tid >= Next(s, l).nextId
    ensures AskedBy(s, tid) == 0 && AskedBy(Next(s, l), tid) == 0 && !Sends(s, l, tid)
  {
    hide Next, Enabled, DbInv, PoolsOk, TicketsOk, AcceptedOk, KeptOk, StraysOk, TxnOk;
    IdsGrow(s, l);
  }

  lemma IdsGrow(s: State, l: Label)
    requires Enabled(s, l)
    ensures s.nextId <= Next(s, l).nextId
  {
    hide Serve, Callback, Allocated, NewStrays, NewClaims, NewTxns, Fits, Wf;
  }

  // What a deletion that is under way after this run has asked: at most once more
  // than others have committed on its record since the version it read first.
  ghost predicate AsksBehind(run: seq<Label>, tid: nat)
    requires Valid(START, run)
  {
    var s := After(START, run);
    && tid in s.txns && IsDel(s.txns[tid].t.cb)
    && var live := s.txns[tid];
       var k := live.t.RecKey();
       && (live.first == 0 ==> VdpAsked(START, run, tid) == 0)
       && (live.first > 0 ==>
             && k in s.db.keys && live.first <= |s.db.keys[k].hist|
             && (forall i :: live.first <= i < |s.db.keys[k].hist| ==> s.db.keys[k].hist[i].who != tid)
             && VdpAsked(START, run, tid) <= 1 + |s.db.keys[k].hist| - live.first)
  }

  lemma AsksWhileUnderWay(run: seq<Label>, tid: nat)
    requires Valid(START, run) && tid in After(START, run).txns && IsDel(After(START, run).txns[tid].t.cb)
    ensures AsksBehind(run, tid)
  {
    hide Core;
    StartIsCore();
    RunKeeps(START, run);
    RunAsks(START, run, tid);
    RetriesAreBehind(After(START, run), tid);
  }

  lemma {:induction false} RunInit(s: State, run: seq<Label>, l: Label)
    requires Valid(s, run + [l])
    ensures Valid(s, run) && Enabled(After(s, run), l) && After(s, run + [l]) == Next(After(s, run), l)
    decreases |run|
  {
    hide Enabled, Next;
    if run == [] {
      assert run + [l] == [l];
      assert Valid(Next(s, l), []);
    } else {
      assert (run + [l])[1..] == run[1..] + [l];
      RunInit(Next(s, run[0]), run[1..], l);
    }
  }

  lemma {:induction false} AskedInit(s: State, run: seq<Label>, l: Label, tid: nat)
    requires Valid(s, run + [l]) && Valid(s, run) && Enabled(After(s, run), l)
    ensures VdpAsked(s, run + [l], tid)
            == VdpAsked(s, run, tid) + (if Sends(After(s, run), l, tid) then 1 else 0)
    decreases |run|
  {
    hide Enabled, Next, Sends;
    if run == [] {
      assert run + [l] == [l];
      assert VdpAsked(Next(s, l), [], tid) == 0;
    } else {
      assert (run + [l])[1..] == run[1..] + [l];
      AskedInit(Next(s, run[0]), run[1..], l, tid);
    }
  }

  // In every run, a transaction that asked the VDP to delete, over or not, had
  // asked as often at some moment of the run when it was under way, and then at
  // most once more than others had committed on its record since the version it
  // read first. So when nobody commits between its first read and its CAS
  // delete, it asks once, however it ends.
  lemma {:induction false} AsksOncePerCommit(run: seq<Label>, tid: nat) returns (n: nat)
    requires Valid(START, run) && VdpAsked(START, run, tid) > 0
    ensures n <= |run| && Valid(START, run[..n]) && VdpAsked(START, run[..n], tid) == VdpAsked(START, run, tid)
    ensures AsksBehind(run[..n], tid)
    decreases |run|
  {
    hide Core, Next, Enabled, Sends;
    var s := After(START, run);
    if tid in s.txns && IsDel(s.txns[tid].t.cb) {
      n := |run|;
      assert run[..n] == run;
      AsksWhileUnderWay(run, tid);
    } else {
      var init, l := run[..|run| - 1], run[|run| - 1];
      assert run == init + [l];
      RunInit(START, init, l);
      AskedInit(START, init, l, tid);
      if Sends(After(START, init), l, tid) {
        SendsWhileUnderWay(After(START, init), l, tid);
      }
      n := AsksOncePerCommit(init, tid);
      assert run[..n] == init[..n];
    }
  }

  lemma SendsWhileUnderWay(s: State, l: Label, tid: nat)
    requires Enabled(s, l) && Sends(s, l, tid)
    ensures tid in Next(s, l).txns && IsDel(Next(s, l).txns[tid].t.cb)
  {
    hide Next, Enabled;
  }

  lemma RetriesAreBehind(s: State, tid: nat)
    requires Core(s) && tid in s.txns && IsDel(s.txns[tid].t.cb)
    ensures var live := s.txns[tid];
            if live.first == 0 then AskedBy(s, tid) == 0
            else Behind(s.db, live.t.RecKey(), tid, live.first, live.t.casRetry)
  {
    hide DbInv, PoolsOk, TicketsOk, AcceptedOk, KeptOk, StraysOk, EstOk, ModOk, Seen;
    assert TxnOk(s, tid, s.txns[tid]);
  }
}
