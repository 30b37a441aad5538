// Which accepted sessions have a rule in the VDP: all but those whose delete the
// VDP accepted, whatever became of the deletion that asked for it.
module Rules {
  import opened Wrappers
  import opened Seid
  import opened Flow
  import opened Store
  import opened IdPool
  import opened Cluster
  import opened CoreInv
  import opened CoreRuns
  import opened Promises
  import opened OwnInv
  import opened OwnSteps
  import opened OwnRest
  import opened Ownership
  import opened Progress

  // The session whose delete the VDP accepts in this step.
  function Drops(s: State, l: Label): set<Key> {
    match l
    case Exec(tid, res) =>
      if tid in s.txns && s.txns[tid].io.Sent? && s.txns[tid].io.cmd.VdpDelete? && res.Accept?
      then {s.txns[tid].io.cmd.key} else {}
    case ExecStray(id, res) =>
      if id in s.stray && s.stray[id].cmd.VdpDelete? && res.Accept? then {s.stray[id].cmd.key} else {}
    case _ => {}
  }

  function Dropped(s: State, run: seq<Label>): set<Key>
    requires Valid(s, run)
    decreases |run|
  {
    if run == [] then {} else Drops(s, run[0]) + Dropped(Next(s, run[0]), run[1..])
  }

  ghost predicate RulesOk(s: State, dropped: set<Key>) {
    && dropped <= s.accepted
    && forall k :: k in s.served ==> (k in s.rules <==> k !in dropped)
  }

  // What a step does to the rules.
  ghost predicate RulesMove(s: State, s': State, dropped: set<Key>) {
    && s.accepted <= s'.accepted && dropped <= s.accepted
    && ((s'.rules == s.rules - dropped && s'.served == s.served)
        || (dropped == {} && exists k :: k !in s.accepted && s'.rules == s.rules + {k} && s'.served == s.served + {k}))
  }

  lemma RulesFollow(s: State, s': State, dropped: set<Key>, now: set<Key>)
    requires RulesOk(s, dropped) && RulesMove(s, s', now)
    ensures RulesOk(s', dropped + now)
  {
  }

  lemma ServeLeavesRules(s: State, cmd: Cmd, tag: Commit, res: VdpResult)
    requires !(res.Accept? && (cmd.VdpCreate? || cmd.VdpDelete?))
    ensures var s' := Serve(s, cmd, tag, res).0;
            s'.rules == s.rules && s'.served == s.served && s'.accepted == s.accepted
  {
    hide ExecWrite, ExecDelete, ExecPersist, ExecSet, ExecGet, ExecRead, Free, Spend;
  }

  lemma ServeMovesRules(s: State, cmd: Cmd, tag: Commit)
    requires cmd.VdpCreate? ==> cmd.key !in s.accepted
    requires cmd.VdpDelete? ==> cmd.key in s.accepted
    requires cmd.VdpCreate? || cmd.VdpDelete?
    ensures RulesMove(s, Serve(s, cmd, tag, Accept).0, if cmd.VdpDelete? then {cmd.key} else {})
  {
    hide ExecWrite, ExecDelete, ExecPersist, ExecSet, ExecGet, ExecRead, Free, Spend, RulesMove;
    RulesMoveBy(s, Serve(s, cmd, tag, Accept).0, cmd.key, cmd.VdpDelete?);
  }

  lemma RulesMoveBy(s: State, s': State, k: Key, out: bool)
    requires s'.accepted == s.accepted && (out <==> k in s.accepted)
    requires if out then s'.rules == s.rules - {k} && s'.served == s.served
             else s'.rules == s.rules + {k} && s'.served == s.served + {k}
    ensures RulesMove(s, s', if out then {k} else {})
  {
  }

  lemma RulesStayPut(s: State, s': State)
    requires s'.rules == s.rules && s'.served == s.served && s.accepted <= s'.accepted
    ensures RulesMove(s, s', {})
  {
    assert s.rules - {} == s.rules;
  }

  lemma RulesMoveOn(s: State, s1: State, s2: State, s': State, now: set<Key>)
    requires RulesMove(s1, s2, now)
    requires s1.rules == s.rules && s1.served == s.served && s1.accepted == s.accepted
    requires s'.rules == s2.rules && s'.served == s2.served && s'.accepted == s2.accepted
    ensures RulesMove(s, s', now)
  {
  }

  lemma ExecMovesRules(s: State, tid: nat, res: VdpResult)
    requires Core(s) && Own(s) && tid in s.txns && s.txns[tid].io.Sent?
    ensures RulesMove(s, DoExec(s, tid, res), Drops(s, Exec(tid, res)))
  {
    hide Core, Own, Serve, Tag, AcceptedOk, TicketsOk, DbInv, RulesMove, TeidOf, First, Claimed;
    var cmd := s.txns[tid].io.cmd;
    var tag := Tag(tid, s.txns[tid].t);
    var s1 := Serve(s, cmd, tag, res).0;
    CoreParts(s);
    if res.Accept? && (cmd.VdpCreate? || cmd.VdpDelete?) {
      VdpAsks(s, tid);
      AcceptedServes(s);
      ServeMovesRules(s, cmd, tag);
    } else {
      ServeLeavesRules(s, cmd, tag, res);
      RulesStayPut(s, s1);
    }
    RulesMoveOn(s, s, s1, DoExec(s, tid, res), Drops(s, Exec(tid, res)));
  }

  lemma AcceptedServes(s: State)
    requires AcceptedOk(s)
    ensures forall k :: k in s.accepted ==> k in s.served
  {
  }

  lemma StrayMovesRules(s: State, id: nat, res: VdpResult)
    requires Core(s) && Own(s) && id in s.stray
    ensures RulesMove(s, DoStray(s, id, res), Drops(s, ExecStray(id, res)))
  {
    hide Core, Own, Serve, RulesMove, TeidOf, First, Claimed, Stuck;
    var cmd := s.stray[id].cmd;
    var s0 := s.(stray := s.stray - {id});
    var s1 := Serve(s0, cmd, s.stray[id].tag, res).0;
    OwnStrayNow(s, id);
    if res.Accept? && (cmd.VdpCreate? || cmd.VdpDelete?) {
      ServeMovesRules(s0, cmd, s.stray[id].tag);
    } else {
      ServeLeavesRules(s0, cmd, s.stray[id].tag, res);
      RulesStayPut(s0, s1);
    }
    RulesMoveOn(s, s0, s1, s1, Drops(s, ExecStray(id, res)));
  }

  lemma StepMovesRules(s: State, l: Label)
    requires Core(s) && Own(s) && Enabled(s, l)
    ensures RulesMove(s, Next(s, l), Drops(s, l))
  {
    hide Core, Own, DoExec, DoStray, Callback, Allocated, NewStrays, NewTxns, NewClaims;
    match l
    case Exec(tid, res) => ExecMovesRules(s, tid, res);
    case ExecStray(id, res) => StrayMovesRules(s, id, res);
    case _ =>
  }

  lemma {:induction false} RunMovesRules(s: State, run: seq<Label>, dropped: set<Key>)
    requires Core(s) && Own(s) && Valid(s, run) && After(s, run).honest && TeidsBounded(After(s, run))
    requires RulesOk(s, dropped)
    ensures RulesOk(After(s, run), dropped + Dropped(s, run))
    decreases |run|
  {
    hide Core, Own, Next, Enabled, TeidsBounded, RulesOk, Drops;
    if run != [] {
      var l := run[0];
      StepKeeps(s, l);
      RunGoesOn(Next(s, l), run[1..]);
      StepIsOwn(s, l);
      StepMovesRules(s, l);
      RulesFollow(s, Next(s, l), dropped, Drops(s, l));
      RunMovesRules(Next(s, l), run[1..], dropped + Drops(s, l));
      assert dropped + Drops(s, l) + Dropped(Next(s, l), run[1..]) == dropped + Dropped(s, run);
    } else {
      assert dropped + {} == dropped;
    }
  }

  // An accepted session has its rule exactly until the VDP accepts a delete for
  // it. So the accepted sessions with a record and no rule are exactly those with
  // a timely PERSIST whose deletion got that far and committed no CAS delete.
  lemma RuleUntilDropped(run: seq<Label>, k: Key)
    requires Valid(START, run) && Sound(After(START, run)) && k in After(START, run).accepted
    ensures k in After(START, run).rules <==> k !in Dropped(START, run)
    ensures var s := After(START, run);
            && k in s.db.keys && s.db.keys[k].persisted.Some?
            && (s.db.Has(k) && k !in s.rules <==>
                  && k in Dropped(START, run) && !s.db.Erased(k)
                  && s.db.keys[k].persisted.value < s.db.keys[k].born + PENDING_TTL)
  {
    hide Own, Core, Sound;
    RulesAfter(run);
    RecordWhenAccepted(After(START, run), k);
  }

  lemma RulesAfter(run: seq<Label>)
    requires Valid(START, run) && Sound(After(START, run))
    ensures RulesOk(After(START, run), Dropped(START, run)) && AcceptedOk(After(START, run))
    ensures forall k :: k in After(START, run).accepted ==> k in After(START, run).served
  {
    hide Own, Core, AcceptedOk;
    StartIsCore();
    StartIsOwn();
    RunMovesRules(START, run, {});
    RunKeeps(START, run);
    CoreParts(After(START, run));
    AcceptedServes(After(START, run));
    assert {} + Dropped(START, run) == Dropped(START, run);
  }

  lemma RecordWhenAccepted(s: State, k: Key)
    requires Sound(s) && k in s.accepted
    ensures k in s.db.keys && s.db.keys[k].persisted.Some?
    ensures s.db.Has(k) <==>
              !s.db.Erased(k) && s.db.keys[k].persisted.value < s.db.keys[k].born + PENDING_TTL
  {
    hide Own, Core;
    SoundIsOwn(s);
    CoreRecords(s);
    assert LifeOk(s.db.now, s.db.keys[k]);
  }

  // --- a record without a rule ---

  function DelTxn(cb: Cb, req: Req, k: Key, ver: nat, ctx: Option<Slot>): Txn {
    Txn(cb, StateOf(cb), ver, 0, k.part, k.seid, 0, req, ctx, None)
  }

  predicate DelFor(s: State, req: Req, k: Key) {
    req.kind.Del? && req.seid == k.seid && SeidValidate(k.seid) == Some(k.part) && (req.smf, req.sn) !in s.db.cache
  }

  lemma DelBegins(s: State, pod: nat, req: Req, k: Key, env: Env)
    requires DelFor(s, req, k) && Good(env)
    ensures var s' := DoBegin(s, pod, req, env);
            && Waits(s', s.nextId, pod, DelTxn(DelLookupCb, req, k, 0, None), GetCached(req.smf, req.sn))
            && s'.db == s.db && s'.rules == s.rules && s'.accepted == s.accepted
  {
    hide SeidValidate;
  }

  lemma DelLookupHop(s: State, tid: nat, pod: nat, req: Req, k: Key, env: Env)
    requires Good(env) && DelFor(s, req, k)
    requires Waits(s, tid, pod, DelTxn(DelLookupCb, req, k, 0, None), GetCached(req.smf, req.sn))
    ensures Enabled(DoExec(s, tid, Accept), Call(tid, env))
    ensures var s' := Hop(s, tid, Accept, env);
            && Waits(s', tid, pod, DelTxn(DelReadCb, req, k, 0, Some(Slot(env.blk.value, Blank))), ReadRec(k))
            && s'.db.keys == s.db.keys && s.accepted <= s'.accepted
  {
    MissRuns(s, tid, Accept);
    var s1 := DoExec(s, tid, Accept);
    hide DoExec;
    CallsOn(s1, tid, env);
    AcceptedStay(s1, tid, env);
  }

  lemma AcceptedStay(s: State, tid: nat, env: Env)
    requires Enabled(s, Call(tid, env))
    ensures s.accepted <= DoCall(s, tid, env).accepted
  {
    hide Callback, Allocated, NewStrays, NewTxns, NewClaims;
  }

  lemma DelReadHop(s: State, tid: nat, pod: nat, req: Req, k: Key, blk: nat, env: Env)
    requires Good(env) && req.kind.Del? && s.db.Has(k)
    requires Waits(s, tid, pod, DelTxn(DelReadCb, req, k, 0, Some(Slot(blk, Blank))), ReadRec(k))
    ensures Enabled(DoExec(s, tid, Accept), Call(tid, env))
    ensures var s' := Hop(s, tid, Accept, env); var rec := s.db.At(k);
            && Waits(s', tid, pod, DelTxn(DelVdpCb, req, k, rec.ver, Some(Slot(blk, rec.data))), VdpDelete(k))
            && s'.db.keys == s.db.keys && s.accepted <= s'.accepted
  {
    ReadIsFound(s, tid, k);
    var s1 := DoExec(s, tid, Accept);
    hide DoExec;
    CallsOn(s1, tid, env);
    AcceptedStay(s1, tid, env);
  }

  lemma ReadIsFound(s: State, tid: nat, k: Key)
    requires tid in s.txns && s.txns[tid].io == Sent(ReadRec(k)) && s.db.Has(k)
    ensures var r := Found(s.db.At(k).data, s.db.At(k).ver);
            DoExec(s, tid, Accept) == s.(txns := s.txns[tid := s.txns[tid].(io := Got(r))])
  {
    hide Vdped, ServePush, ServeWrite, ExecWrite, ExecDelete, ExecPersist, ExecSet, Tag;
  }

  // The VDP takes the rule out; the CAS delete is on its way.
  lemma DropHop(s: State, tid: nat, pod: nat, req: Req, k: Key, ver: nat, slot: Slot, env: Env)
    requires Good(env) && req.kind.Del?
    requires Waits(s, tid, pod, DelTxn(DelVdpCb, req, k, ver, Some(slot)), VdpDelete(k))
    ensures Enabled(DoExec(s, tid, Accept), Call(tid, env))
    ensures var s' := Hop(s, tid, Accept, env);
            && Waits(s', tid, pod, DelTxn(DelDeleteCb, req, k, ver, Some(slot)), DeleteRec(k, ver))
            && s'.db.keys == s.db.keys && s.accepted <= s'.accepted && k !in s'.rules
  {
    VdpRuns(s, tid, Accept);
    var s1 := DoExec(s, tid, Accept);
    hide DoExec;
    CallsOn(s1, tid, env);
    AcceptedStay(s1, tid, env);
  }

  // The CAS delete is lost before it runs: SYSTEM_FAILURE is sent.
  lemma FailHop(s: State, tid: nat, pod: nat, req: Req, k: Key, ver: nat, slot: Slot, env: Env)
    requires Good(env) && req.kind.Del?
    requires Waits(s, tid, pod, DelTxn(DelDeleteCb, req, k, ver, Some(slot)), DeleteRec(k, ver))
    ensures Enabled(DoLose(s, tid, false), Call(tid, env))
    ensures var s' := DoCall(DoLose(s, tid, false), tid, env);
            && s'.db.keys == s.db.keys && s.accepted <= s'.accepted && s'.rules == s.rules && tid !in s'.txns
            && (req.smf, req.sn, Rsp(Del, req.sn, SystemFailure, 0)) in s'.db.produced
  {
    var s1 := DoLose(s, tid, false);
    assert s1 == s.(txns := s.txns[tid := s.txns[tid].(io := Got(Err))]);
    hide DoLose;
    CallsOn(s1, tid, env);
    AcceptedStay(s1, tid, env);
  }

  // An accepted session with a durable record and no rule, after a deletion that
  // was answered SYSTEM_FAILURE.
  predicate RuleLess(s: State, req: Req, k: Key) {
    && k in s.accepted && s.db.Has(k) && s.db.At(k).ttl == None && k !in s.rules
    && (req.smf, req.sn, Rsp(Del, req.sn, SystemFailure, 0)) in s.db.produced
  }

  // From every state a run reaches with an accepted, durable record, a deletion
  // whose CAS delete is lost leaves it so.
  lemma DeletionCanStrand(first: seq<Label>, s: State, k: Key, req: Req, env: Env) returns (run: seq<Label>, s': State)
    requires Leads(START, first, s) && DelFor(s, req, k) && Good(env)
    requires k in s.accepted && s.db.Has(k) && s.db.At(k).ttl == None
    ensures Leads(START, run, s') && RuleLess(s', req, k)
  {
    hide DoExec, DoCall, DoBegin, DoLose, Hop, Enabled, Leads, Wf, SeidValidate;
    var tid := s.nextId;
    var rec := s.db.At(k);
    var blk := env.blk.value;
    DelBegins(s, 0, req, k, env);
    run := first + [Begin(0, req, env)];
    BeginLeadsOn(first, s, req, env);
    var s1 := DoBegin(s, 0, req, env);
    DelLookupHop(s1, tid, 0, req, k, env);
    run := AddHop(START, run, s1, tid, Accept, env);
    var s2 := Hop(s1, tid, Accept, env);
    DelReadHop(s2, tid, 0, req, k, blk, env);
    run := AddHop(START, run, s2, tid, Accept, env);
    var s3 := Hop(s2, tid, Accept, env);
    DropHop(s3, tid, 0, req, k, rec.ver, Slot(blk, rec.data), env);
    run := AddHop(START, run, s3, tid, Accept, env);
    var s4 := Hop(s3, tid, Accept, env);
    FailHop(s4, tid, 0, req, k, rec.ver, Slot(blk, rec.data), env);
    s' := DoCall(DoLose(s4, tid, false), tid, env);
    LoseLeadsOn(run, s4, tid, env);
    run := run + [Lose(tid, false)] + [Call(tid, env)];
  }

  lemma BeginLeadsOn(first: seq<Label>, s: State, req: Req, env: Env)
    requires Leads(START, first, s)
    ensures Leads(START, first + [Begin(0, req, env)], DoBegin(s, 0, req, env))
  {
    hide DoBegin, Leads;
    LeadsOn(START, first, s, Begin(0, req, env));
  }

  lemma LoseLeadsOn(run: seq<Label>, s: State, tid: nat, env: Env)
    requires Leads(START, run, s) && tid in s.txns && Enabled(DoLose(s, tid, false), Call(tid, env))
    ensures Leads(START, run + [Lose(tid, false)] + [Call(tid, env)], DoCall(DoLose(s, tid, false), tid, env))
  {
    hide DoLose, DoCall, Leads;
    LeadsOn(START, run, s, Lose(tid, false));
    LeadsOn(START, run + [Lose(tid, false)], DoLose(s, tid, false), Call(tid, env));
  }

  // Such a state is reached from the empty system.
  lemma RuleLessIsReachable() returns (s: State, req: Req, k: Key)
    ensures Reachable(s) && RuleLess(s, req, k)
  {
    hide Core, Enabled, Sound, Reachable, RuleLess, SeidValidate, Valid, After;
    var s1, first;
    s1, first, k := ServiceLeads();
    req := Req(Del, 0, 2, k.seid, 0);
    var run;
    run, s := DeletionCanStrand(first, s1, k, req, GOOD);
    LeadsIsReachable(run, s);
  }
}
