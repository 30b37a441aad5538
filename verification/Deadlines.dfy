// The hard timeout and what it makes of "accepted means durable".
module Deadlines {
  import opened Wrappers
  import opened Flow
  import opened Store
  import opened IdPool
  import opened Cluster
  import opened CoreInv
  import opened CoreCalls
  import opened CoreRuns
  import opened Steps
  import opened Promises
  import opened Ownership
  import opened Progress
  import TxnTable

  // No callback reaches a transaction `limit` ms after it was created: the
  // sweeper has destroyed it by then.
  predicate InTime(s: State, l: Label, limit: nat) {
    l.Call? && l.tid in s.txns ==> s.db.now < s.txns[l.tid].since + limit
  }

  predicate OnTime(s: State, run: seq<Label>, limit: nat)
    requires Valid(s, run)
    decreases |run|
  {
    run == [] || (InTime(s, run[0], limit) && OnTime(Next(s, run[0]), run[1..], limit))
  }

  // PERSIST ran on every accepted session within the pending TTL.
  ghost predicate Prompt(s: State) {
    forall k :: k in s.accepted ==> PromptFor(s.db, k)
  }

  predicate PromptFor(db: Db, k: Key) {
    k in db.keys && db.keys[k].persisted.Some? && db.keys[k].persisted.value < db.keys[k].born + PENDING_TTL
  }

  lemma PromptGrows(db: Db, db': Db, k: Key)
    requires PromptFor(db, k) && Grows(db, db')
    ensures PromptFor(db', k)
  {
    assert LifeGrows(db.keys[k], db'.keys[k]);
  }

  // Only the callback of a confirmed establishment accepts a session.
  lemma AcceptsInCalls(s: State, l: Label, k: Key)
    requires Core(s) && Enabled(s, l) && k in Next(s, l).accepted && k !in s.accepted
    ensures l.Call? && l.tid in s.txns
    ensures var live := s.txns[l.tid];
            k == live.t.RecKey() && live.t.cb.EstConfirmCb? && live.io.Got? && live.io.r.Done?
  {
    hide Core, DoExec, DoLose, DoBegin, DoSweep, DoCall, Serve, DoStray;
    match l
    case Call(tid, env) => AcceptsInCall(s, tid, env, k);
    case ExecStray(id, res) => DoStrayAccepts(s, id, res);
    case _ =>
  }

  lemma DoStrayAccepts(s: State, id: nat, res: VdpResult)
    requires id in s.stray
    ensures DoStray(s, id, res).accepted == s.accepted
  {
    hide Serve;
  }

  lemma AcceptsInCall(s: State, tid: nat, env: Env, k: Key)
    requires Enabled(s, Call(tid, env)) && k in DoCall(s, tid, env).accepted && k !in s.accepted
    ensures var live := s.txns[tid];
            k == live.t.RecKey() && live.t.cb.EstConfirmCb? && live.io.Got? && live.io.r.Done?
  {
    hide Callback, NewStrays, NewTxns, NewClaims, Alloc;
    var live := s.txns[tid];
    var env1 := Allocated(s, live, live.io.r, env).1;
    CallIsTame(live.t, live.io.r, env1);
  }

  // A confirmation that arrives within the hard timeout was of a young record.
  lemma ConfirmedIsPrompt(s: State, tid: nat, limit: nat)
    requires Core(s) && tid in s.txns && limit <= PENDING_TTL && s.db.now < s.txns[tid].since + limit
    requires s.txns[tid].t.cb.EstConfirmCb? && s.txns[tid].io.Got? && s.txns[tid].io.r.Done?
    ensures PromptFor(s.db, s.txns[tid].t.RecKey())
  {
    hide TicketsOk, KeptOk, AcceptedOk, StraysOk, PoolsOk, ModOk, DelOk;
    var k := s.txns[tid].t.RecKey();
    assert TxnOk(s, tid, s.txns[tid]);
    assert LifeOk(s.db.now, s.db.keys[k]);
  }

  lemma StepIsPrompt(s: State, l: Label, limit: nat)
    requires Core(s) && Enabled(s, l) && InTime(s, l, limit) && limit <= PENDING_TTL && Prompt(s)
    ensures Prompt(Next(s, l))
  {
    hide Core, Next, Enabled, PromptFor;
    StepGrows(s, l);
    forall k | k in Next(s, l).accepted ensures PromptFor(Next(s, l).db, k) {
      if k !in s.accepted {
        AcceptsInCalls(s, l, k);
        ConfirmedIsPrompt(s, l.tid, limit);
      }
      PromptGrows(s.db, Next(s, l).db, k);
    }
  }

  lemma {:induction false} RunIsPrompt(s: State, run: seq<Label>, limit: nat)
    requires Core(s) && Valid(s, run) && OnTime(s, run, limit) && limit <= PENDING_TTL && Prompt(s)
    ensures Prompt(After(s, run))
    decreases |run|
  {
    hide Core, Next, Enabled, Prompt, InTime;
    if run != [] {
      StepIsPrompt(s, run[0], limit);
      StepKeeps(s, run[0]);
      RunIsPrompt(Next(s, run[0]), run[1..], limit);
    }
  }

  // With a hard timeout of at most the pending TTL, every accepted session has
  // its record, with no TTL, until a CAS delete commits on it.
  lemma AcceptedIsDurableOnTime(run: seq<Label>, limit: nat, k: Key)
    requires Valid(START, run) && OnTime(START, run, limit) && limit <= PENDING_TTL
    requires k in After(START, run).accepted
    ensures var db := After(START, run).db;
            db.Erased(k) || (db.Has(k) && db.At(k).ttl == None)
  {
    hide Core, OnTime;
    var s := After(START, run);
    StartIsCore();
    RunIsPrompt(START, run, limit);
    assert PromptFor(s.db, k);
    if !s.db.Erased(k) {
      AcceptedMeansDurable(s, k);
    }
  }

  // The table's 2000 ms are well within it.
  lemma TableIsDurable(run: seq<Label>, k: Key)
    requires Valid(START, run) && OnTime(START, run, TxnTable.HARD_TIMEOUT_MS)
    requires k in After(START, run).accepted
    ensures var db := After(START, run).db;
            db.Erased(k) || (db.Has(k) && db.At(k).ttl == None)
  {
    AcceptedIsDurableOnTime(run, TxnTable.HARD_TIMEOUT_MS, k);
  }

  // --- and no more than the pending TTL ---

  // While no time passes, everything is on time.
  ghost predicate Young(s: State) {
    forall tid :: tid in s.txns ==> s.txns[tid].since == s.db.now
  }

  lemma StepStaysYoung(s: State, l: Label)
    requires Core(s) && Enabled(s, l) && !l.Pass? && Young(s)
    ensures Young(Next(s, l))
  {
    hide Core, DoExec, DoCall, DoLose, DoBegin, DoStray;
    match l
    case Exec(tid, res) => ExecStaysYoung(s, tid, res);
    case ExecStray(id, res) => StrayStaysYoung(s, id, res);
    case Call(tid, env) => CallStaysYoung(s, tid, env);
    case Lose(tid, zombie) => LoseStaysYoung(s, tid, zombie);
    case Begin(pod, req, env) => BeginStaysYoung(s, pod, req, env);
    case _ =>
  }

  lemma ExecStaysYoung(s: State, tid: nat, res: VdpResult)
    requires Core(s) && tid in s.txns && s.txns[tid].io.Sent? && Young(s)
    ensures Young(DoExec(s, tid, res))
  {
    hide Core, Serve, Tag;
    ExecCache(s, tid, res);
  }

  lemma LoseStaysYoung(s: State, tid: nat, zombie: bool)
    requires tid in s.txns && Young(s)
    ensures Young(DoLose(s, tid, zombie))
  {
    hide Tag;
  }

  lemma BeginStaysYoung(s: State, pod: nat, req: Req, env: Env)
    requires Young(s)
    ensures Young(DoBegin(s, pod, req, env))
  {
    hide Start;
  }

  lemma StrayStaysYoung(s: State, id: nat, res: VdpResult)
    requires id in s.stray
    ensures DoStray(s, id, res).txns == s.txns && DoStray(s, id, res).db.now == s.db.now
  {
    hide Serve;
  }

  lemma CallStaysYoung(s: State, tid: nat, env: Env)
    requires Enabled(s, Call(tid, env)) && Young(s)
    ensures Young(DoCall(s, tid, env))
  {
    hide Callback, Alloc, NewStrays, NewClaims;
    CallCache(s, tid, env);
  }

  lemma {:induction false} StillIsOnTime(s: State, run: seq<Label>, limit: nat)
    requires Core(s) && Young(s) && Valid(s, run) && limit > 0 && forall l :: l in run ==> !l.Pass?
    ensures OnTime(s, run, limit) && Young(After(s, run))
    decreases |run|
  {
    hide Core, Next, Enabled;
    if run != [] {
      StepStaysYoung(s, run[0]);
      StepKeeps(s, run[0]);
      StillIsOnTime(Next(s, run[0]), run[1..], limit);
    }
  }

  lemma {:induction false} OnTimeAppend(s: State, run: seq<Label>, l: Label, limit: nat)
    requires Valid(s, run) && OnTime(s, run, limit) && Enabled(After(s, run), l) && InTime(After(s, run), l, limit)
    requires Valid(s, run + [l])
    ensures OnTime(s, run + [l], limit)
    decreases |run|
  {
    hide Enabled, Next, InTime;
    if run == [] {
      assert run + [l] == [l];
      assert OnTime(Next(s, l), [], limit);
    } else {
      assert (run + [l])[1..] == run[1..] + [l];
      OnTimeAppend(Next(s, run[0]), run[1..], l, limit);
    }
  }

  // One millisecond more, and a run from the empty system accepts a session that
  // nobody deleted and that has no record.
  lemma LateAcceptanceIsReachable() returns (run: seq<Label>, k: Key)
    ensures Valid(START, run) && OnTime(START, run, PENDING_TTL + 1)
    ensures var s := After(START, run); k in s.accepted && !s.db.Erased(k) && !s.db.Has(k)
  {
    hide Core, Sound, Enabled, DoExec, DoCall, Valid, After, OnTime;
    var s, first := RingsFill();
    var more, s1;
    more, s1, k := EstablishmentConfirms(s, 0, FirstReq(1), GOOD, Exec(s.nextId, Accept));
    LeadsBoth(START, first, s, more, s1);
    StillLeads(first + more, s1);
    run := LateAcceptance(first + more, s1, s.nextId, k);
  }

  lemma StillLeads(run: seq<Label>, s: State)
    requires Leads(START, run, s)
    ensures Valid(START, run) && After(START, run) == s && OnTime(START, run, PENDING_TTL + 1) && Young(s)
  {
    hide Core, OnTime;
    StartIsCore();
    StillIsOnTime(START, run, PENDING_TTL + 1);
  }

  lemma LateAcceptance(run: seq<Label>, s: State, tid: nat, k: Key) returns (more: seq<Label>)
    requires Valid(START, run) && After(START, run) == s && OnTime(START, run, PENDING_TTL + 1) && Young(s)
    requires tid in s.txns && s.txns[tid].t.cb.EstConfirmCb? && s.txns[tid].t.RecKey() == k && s.txns[tid].io.Sent?
    requires s.db.Has(k) && s.db.keys[k].persisted.None?
    ensures Valid(START, more) && OnTime(START, more, PENDING_TTL + 1)
    ensures var s' := After(START, more); k in s'.accepted && !s'.db.Erased(k) && !s'.db.Has(k)
  {
    hide Next, Enabled, InTime;
    var pass, exec, call := Pass(PENDING_TTL), Exec(tid, Accept), Call(tid, GOOD);
    var s1, s2, s3 := LateSteps(s, tid, k);
    RunAppend(START, run, pass);
    OnTimeAppend(START, run, pass, PENDING_TTL + 1);
    RunAppend(START, run + [pass], exec);
    OnTimeAppend(START, run + [pass], exec, PENDING_TTL + 1);
    RunAppend(START, run + [pass] + [exec], call);
    OnTimeAppend(START, run + [pass] + [exec], call, PENDING_TTL + 1);
    more := run + [pass] + [exec] + [call];
  }

  // The clock, the transaction and the record along those three steps.
  lemma LateSteps(s: State, tid: nat, k: Key) returns (s1: State, s2: State, s3: State)
    requires Reachable(s) && Young(s) && s.db.Has(k) && s.db.keys[k].persisted.None?
    requires tid in s.txns && s.txns[tid].t.cb.EstConfirmCb? && s.txns[tid].t.RecKey() == k && s.txns[tid].io.Sent?
    ensures var pass, exec, call := Pass(PENDING_TTL), Exec(tid, Accept), Call(tid, GOOD);
            && Enabled(s, pass) && s1 == Next(s, pass) && InTime(s, pass, PENDING_TTL + 1)
            && Enabled(s1, exec) && s2 == Next(s1, exec) && InTime(s1, exec, PENDING_TTL + 1)
            && Enabled(s2, call) && s3 == Next(s2, call) && InTime(s2, call, PENDING_TTL + 1)
    ensures k in s3.accepted && !s3.db.Erased(k) && !s3.db.Has(k)
  {
    hide Core, Serve, DoCall, DoExec, DbInv, Reachable, Wf, Fits;
    ReachableIsCore(s);
    LatePersistIsAccepted(s, tid, Accept, GOOD);
    ConfirmAsks(s, tid);
    CoreRecords(s);
    NotErased(s.db, k);
    s1 := s.(db := Tick(s.db, PENDING_TTL));
    PersistLeaves(s1, tid, k);
    s2 := DoExec(s1, tid, Accept);
    CallLeavesKeys(s2, tid);
    s3 := DoCall(s2, tid, GOOD);
  }

  lemma NotErased(db: Db, k: Key)
    requires DbInv(db) && db.Has(k)
    ensures !db.Erased(k)
  {
    assert LifeOk(db.now, db.keys[k]);
  }

  lemma PersistLeaves(s: State, tid: nat, k: Key)
    requires tid in s.txns && s.txns[tid].io == Sent(PersistRec(k)) && !s.db.Erased(k)
    ensures var s' := DoExec(s, tid, Accept);
            && !s'.db.Erased(k) && s'.db.now == s.db.now
            && tid in s'.txns && s'.txns[tid].since == s.txns[tid].since
  {
    hide Vdped, ServePush, ServeWrite, ExecWrite, ExecDelete, ExecSet, ExecGet, ExecRead, Tag;
  }

  lemma CallLeavesKeys(s: State, tid: nat)
    requires Enabled(s, Call(tid, GOOD))
    ensures DoCall(s, tid, GOOD).db.keys == s.db.keys
  {
    hide Callback, Alloc, NewStrays, NewClaims, NewTxns;
  }
}
