// Where every TEID that is out is, and which ones are lost to nobody.
module Leaks {
  import opened Wrappers
  import opened Seid
  import opened Flow
  import opened Store
  import opened IdPool
  import opened Cluster
  import opened CoreInv
  import opened CoreSteps
  import opened CoreCalls
  import opened CoreRuns
  import opened Steps
  import opened Promises
  import opened OwnInv
  import opened OwnSteps
  import opened OwnRest
  import opened OwnCalls
  import opened Ownership
  import opened Answers

  // The TEID a transaction must give back or hand to a session.
  function Held(live: Live): set<nat> {
    var t := live.t;
    if t.cb.EstWriteCb? || (t.cb.EstVdpCb? && live.io != Got(Vdp(Accept)) && live.io != Got(Err)) then {t.teid}
    else if t.cb.DelDeleteCb? && live.io.Got? && live.io.r.CasOk? && t.ctx.Some? then {CtxTeid(t.ctx.value.val)}
    else {}
  }

  // The TEIDs a step leaves to nobody: a transaction that holds one is swept or
  // crashes, or the answer that decides about it is lost; a push is dropped; or a
  // delete commits whose deletion has given up.
  function Leaks(s: State, l: Label): set<nat> {
    match l
    case Sweep(tid) => if tid in s.txns then Held(s.txns[tid]) else {}
    case Crash(tid) => if tid in s.txns then Held(s.txns[tid]) else {}
    case Lose(tid, _) => if tid in s.txns && !s.txns[tid].t.cb.EstWriteCb? then Held(s.txns[tid]) else {}
    case DropStray(id) => if id in s.stray && s.stray[id].cmd.PushTeid? then {s.stray[id].cmd.teid} else {}
    case ExecStray(id, _) => if id in s.stray then StrandedBy(s, s.stray[id].cmd) else {}
    case _ => {}
  }

  function StrandedBy(s: State, cmd: Cmd): set<nat> {
    if cmd.DeleteRec? && cmd.key in s.served && cmd.key in s.db.keys && ExecDelete(s.db, cmd.key, cmd.exp).1.CasOk?
    then {TeidOf(s.db, cmd.key)} else {}
  }

  function Leaked(s: State, run: seq<Label>): set<nat>
    requires Valid(s, run)
    decreases |run|
  {
    if run == [] then {} else Leaks(s, run[0]) + Leaked(Next(s, run[0]), run[1..])
  }

  // Whoever the claim names has the TEID.
  predicate Answered(s: State, id: nat)
    requires id in s.claims
  {
    match s.claims[id]
    case ByTxn(tid) => tid in s.txns && id in Held(s.txns[tid])
    case ByPush(x) => x in s.stray && s.stray[x].cmd.PushTeid? && s.stray[x].cmd.teid == id
    case BySession(k) => k in s.served && k in s.db.keys && !s.db.keys[k].erased && TeidOf(s.db, k) == id
  }

  ghost predicate NoneMissing(s: State, leaked: set<nat>) {
    forall id :: id in s.claims ==> id in leaked || Answered(s, id)
  }

  // The claim stands, and whoever had the TEID has it still.
  ghost predicate HeldOn(s: State, s': State, id: nat) {
    id in s.claims && id in s'.claims && s'.claims[id] == s.claims[id] && (Answered(s, id) ==> Answered(s', id))
  }

  // Nothing that bears on this claim changed.
  ghost predicate Untouched(s: State, s': State, id: nat) {
    id in s.claims && id in s'.claims && s'.claims[id] == s.claims[id]
    && match s.claims[id]
       case ByTxn(tid) => tid in s.txns && id in Held(s.txns[tid]) ==> tid in s'.txns && id in Held(s'.txns[tid])
       case ByPush(x) =>
         x in s.stray && s.stray[x].cmd.PushTeid? && s.stray[x].cmd.teid == id ==>
           x in s'.stray && s'.stray[x] == s.stray[x]
       case BySession(k) =>
         k in s.served && k in s.db.keys && !s.db.keys[k].erased && TeidOf(s.db, k) == id && k in s'.db.keys ==>
           !s'.db.keys[k].erased
  }

  lemma UntouchedHolds(s: State, s': State, id: nat)
    requires DbInv(s.db) && Grows(s.db, s'.db) && s.served <= s'.served && Untouched(s, s', id)
    ensures HeldOn(s, s', id)
  {
    match s.claims[id]
    case BySession(k) =>
      if k in s.db.keys {
        assert LifeOk(s.db.now, s.db.keys[k]);
        assert LifeGrows(s.db.keys[k], s'.db.keys[k]);
      }
    case _ =>
  }

  lemma NoneGoMissing(s: State, s': State, leaked: set<nat>, now: set<nat>)
    requires NoneMissing(s, leaked)
    requires forall id :: id in s'.claims ==> id in now || HeldOn(s, s', id) || Answered(s', id)
    ensures NoneMissing(s', leaked + now)
  {
    hide Answered;
  }

  // --- the awaited request runs ---

  lemma ExecHolds(s: State, tid: nat, res: VdpResult, id: nat)
    requires Core(s) && Own(s) && tid in s.txns && s.txns[tid].io.Sent?
    requires id in DoExec(s, tid, res).claims
    ensures HeldOn(s, DoExec(s, tid, res), id) || Answered(DoExec(s, tid, res), id)
  {
    hide Core, Own, DoExec, Serve, Grows, DbInv, HeldOn, Answered;
    CoreParts(s);
    ExecGrows(s, tid, res);
    AwaitedKinds(s, tid);
    ExecServes(s, tid, res);
    var cmd := s.txns[tid].io.cmd;
    if cmd.DeleteRec? {
      DeleteHolds(s, tid, res, id);
    } else if cmd.VdpCreate? && res.Accept? {
      CreateHolds(s, tid, id);
    } else {
      QuietHolds(s, tid, res, id);
      UntouchedHolds(s, DoExec(s, tid, res), id);
    }
  }

  lemma ExecServes(s: State, tid: nat, res: VdpResult)
    requires tid in s.txns && s.txns[tid].io.Sent?
    ensures s.served <= DoExec(s, tid, res).served
  {
    hide Tag, Serve;
    ServeServes(s, s.txns[tid].io.cmd, Tag(tid, s.txns[tid].t), res);
  }

  lemma ServeServes(s: State, cmd: Cmd, tag: Commit, res: VdpResult)
    ensures s.served <= Serve(s, cmd, tag, res).0.served
  {
    hide ExecWrite, ExecDelete, ExecPersist, ExecSet, ExecGet, ExecRead, Free, Spend, Vdped;
    assert s.served <= Vdped(s, cmd, res).served;
  }

  // A command that neither deletes a record nor installs a rule.
  lemma QuietHolds(s: State, tid: nat, res: VdpResult, id: nat)
    requires Core(s) && Own(s) && tid in s.txns && s.txns[tid].io.Sent? && id in DoExec(s, tid, res).claims
    requires var cmd := s.txns[tid].io.cmd;
             !cmd.DeleteRec? && !(cmd.VdpCreate? && res.Accept?) && !cmd.PushTeid? && !cmd.StoreRsp?
    ensures Untouched(s, DoExec(s, tid, res), id)
  {
    hide Core, Own, DoExec, ExecWrite, Tag, TeidOf;
    var live := s.txns[tid];
    var cmd := live.io.cmd;
    KindOfWait(s, tid);
    if cmd.WriteRec? {
      WriteRuns(s, tid, res);
      WriteErases(s.db, cmd.key, cmd.exp, cmd.data, cmd.pending, Tag(tid, live.t));
    } else if cmd.VdpCreate? || cmd.VdpDelete? {
      VdpRuns(s, tid, res);
    } else {
      QuietRuns(s, tid, res);
    }
  }

  // Which command the holders of a TEID wait for.
  lemma KindOfWait(s: State, tid: nat)
    requires Core(s) && tid in s.txns && s.txns[tid].io.Sent?
    ensures var cb := s.txns[tid].t.cb; var cmd := s.txns[tid].io.cmd;
            && (cb.EstVdpCb? <==> cmd.VdpCreate?) && (cb.DelDeleteCb? <==> cmd.DeleteRec?)
            && (cb.EstWriteCb? ==> cmd.WriteRec?)
  {
    hide DbInv, AcceptedOk, TicketsOk, PoolsOk, KeptOk, StraysOk, EstOk, ModOk, DelOk;
    assert TxnOk(s, tid, s.txns[tid]);
  }

  lemma DeleteHolds(s: State, tid: nat, res: VdpResult, id: nat)
    requires Core(s) && Own(s) && tid in s.txns && s.txns[tid].io.Sent? && s.txns[tid].io.cmd.DeleteRec?
    requires id in DoExec(s, tid, res).claims
    ensures HeldOn(s, DoExec(s, tid, res), id) || Answered(DoExec(s, tid, res), id)
  {
    hide Core, Own, DoExec, ExecDelete, SessionHolds, TeidValidate;
    hide DbInv, Grows, TeidOf, HeldOn, Claimed, Untouched, Fold;
    var live := s.txns[tid];
    var k := live.t.RecKey();
    var s' := DoExec(s, tid, res);
    CoreParts(s);
    ExecGrows(s, tid, res);
    DeleterKnows(s, tid);
    DeleteRunsOwn(s, tid, res);
    DeleteErases(s.db, k, live.t.dbVer);
    DeleteFails(s.db, k, live.t.dbVer);
    if s'.txns[tid].io.r.CasOk? && id == TeidOf(s.db, k) {
      assert Answered(s', id);
    } else {
      DeleteTouches(s, s', tid, k, id);
      UntouchedHolds(s, s', id);
    }
  }

  lemma DeleteTouches(s: State, s': State, tid: nat, k: Key, id: nat)
    requires tid in s.txns && s.txns[tid].io.Sent? && tid in s'.txns
    requires s' == s.(db := s'.db, txns := s.txns[tid := s'.txns[tid]], claims := s'.claims)
    requires s.txns[tid].t.cb.DelDeleteCb? && id in s.claims && id in s'.claims && s'.claims[id] == s.claims[id]
    requires k in s.db.keys && (s'.db == s.db || id != TeidOf(s.db, k))
    requires forall j :: j in s'.db.keys && s'.db.keys[j].erased ==> j == k || (j in s.db.keys && s.db.keys[j].erased)
    ensures Untouched(s, s', id)
  {
    hide TeidOf;
  }

  lemma DeleteFails(db: Db, k: Key, exp: nat)
    ensures !ExecDelete(db, k, exp).1.CasOk? ==> ExecDelete(db, k, exp).0 == db
  {
  }

  lemma CreateHolds(s: State, tid: nat, id: nat)
    requires Core(s) && Own(s) && tid in s.txns && s.txns[tid].io.Sent? && s.txns[tid].io.cmd.VdpCreate?
    requires id in DoExec(s, tid, Accept).claims
    ensures HeldOn(s, DoExec(s, tid, Accept), id) || Answered(DoExec(s, tid, Accept), id)
  {
    hide Core, Own, DoExec, TeidValidate, DbInv, Grows, TeidOf, First, HeldOn;
    var live := s.txns[tid];
    var k := live.t.RecKey();
    var s' := DoExec(s, tid, Accept);
    CoreParts(s);
    ExecGrows(s, tid, Accept);
    VdpAsks(s, tid);
    VdpRuns(s, tid, Accept);
    OpenIsThere(s, k);
    if id == CtxTeid(live.io.cmd.ctx) {
      assert Answered(s', id);
    } else {
      if id in Held(live) {
        HolderOfOne(s, tid, id);
      }
      UntouchedHolds(s, s', id);
    }
  }

  lemma OpenIsThere(s: State, k: Key)
    requires Own(s) && k !in s.closed && k in s.db.keys
    ensures !s.db.keys[k].erased
  {
    hide TeidsOwned, ClaimsOk, OwnTxns, OwnStrays;
  }

  // A transaction that asks the VDP for a rule holds its session's TEID alone.
  lemma HolderOfOne(s: State, tid: nat, id: nat)
    requires Core(s) && tid in s.txns && s.txns[tid].io.Sent? && s.txns[tid].io.cmd.VdpCreate?
    requires id in Held(s.txns[tid])
    ensures id == CtxTeid(s.txns[tid].io.cmd.ctx)
  {
    hide DbInv, AcceptedOk, TicketsOk, PoolsOk, KeptOk, StraysOk, ModOk, DelOk;
    assert TxnOk(s, tid, s.txns[tid]);
  }

  // --- transactions end without a callback, or lose an answer ---

  lemma EndHolds(s: State, s': State, tid: nat, id: nat)
    requires Core(s) && tid in s.txns && id in s.claims && id !in Held(s.txns[tid])
    requires s' == s.(txns := s.txns - {tid}, stray := s'.stray, nextId := s'.nextId)
    requires forall x :: x in s.stray ==> x in s'.stray && s'.stray[x] == s.stray[x]
    ensures HeldOn(s, s', id)
  {
    hide Core, DbInv;
    CoreParts(s);
    GrowsSelf(s.db);
    UntouchedHolds(s, s', id);
  }

  lemma SweepHolds(s: State, tid: nat, id: nat)
    requires Core(s) && tid in s.txns && id in s.claims && id !in Held(s.txns[tid])
    ensures HeldOn(s, DoSweep(s, tid), id)
  {
    hide Core, HeldOn;
    FreshId(s);
    EndHolds(s, DoSweep(s, tid), tid, id);
  }

  lemma LoseHolds(s: State, tid: nat, zombie: bool, id: nat)
    requires Core(s) && Own(s) && tid in s.txns && id in DoLose(s, tid, zombie).claims
    requires !s.txns[tid].t.cb.EstWriteCb? ==> id !in Held(s.txns[tid])
    ensures HeldOn(s, DoLose(s, tid, zombie), id)
  {
    hide Core, Own, DbInv, HeldOn, TeidOf, First, TeidValidate, Tag;
    var s' := DoLose(s, tid, zombie);
    CoreParts(s);
    FreshId(s);
    GrowsSelf(s.db);
    if s'.claims != s.claims {
      VdpAsks(s, tid);
      HoldsWhatItAsks(s, tid);
    }
    UntouchedHolds(s, s', id);
  }

  lemma HoldsWhatItAsks(s: State, tid: nat)
    requires Core(s) && tid in s.txns && s.txns[tid].io.Sent? && s.txns[tid].io.cmd.VdpCreate?
    ensures CtxTeid(s.txns[tid].io.cmd.ctx) in Held(s.txns[tid])
  {
    hide DbInv, AcceptedOk, TicketsOk, PoolsOk, KeptOk, StraysOk, ModOk, DelOk;
    assert TxnOk(s, tid, s.txns[tid]);
  }

  // --- stray commands ---

  lemma StrayHolds(s: State, id: nat, res: VdpResult, teid: nat)
    requires Core(s) && Own(s) && id in s.stray && teid in DoStray(s, id, res).claims
    requires teid !in StrandedBy(s, s.stray[id].cmd)
    ensures HeldOn(s, DoStray(s, id, res), teid)
  {
    hide Core, Own, Serve, Grows, DbInv, HeldOn, Untouched, StrandedBy, DoStray;
    CoreParts(s);
    StrayStepGrows(s, id, res);
    StrayServes(s, id, res);
    var cmd := s.stray[id].cmd;
    if cmd.PushTeid? {
      PushUntouched(s, id, res, teid);
    } else if cmd.DeleteRec? {
      DeleteUntouched(s, id, res, teid);
    } else if cmd.VdpCreate? || cmd.VdpDelete? {
      VdpUntouched(s, id, res, teid);
    } else {
      RestUntouched(s, id, res, teid);
    }
    UntouchedHolds(s, DoStray(s, id, res), teid);
  }

  lemma StrayServes(s: State, id: nat, res: VdpResult)
    requires id in s.stray
    ensures s.served <= DoStray(s, id, res).served
  {
    hide Serve;
    ServeServes(s.(stray := s.stray - {id}), s.stray[id].cmd, s.stray[id].tag, res);
  }

  lemma PushUntouched(s: State, id: nat, res: VdpResult, teid: nat)
    requires id in s.stray && s.stray[id].cmd.PushTeid? && teid in DoStray(s, id, res).claims
    ensures Untouched(s, DoStray(s, id, res), teid)
  {
    hide Free, TeidOf;
  }

  lemma DeleteUntouched(s: State, id: nat, res: VdpResult, teid: nat)
    requires id in s.stray && s.stray[id].cmd.DeleteRec? && teid in DoStray(s, id, res).claims
    requires Core(s) && Own(s) && teid !in StrandedBy(s, s.stray[id].cmd)
    ensures Untouched(s, DoStray(s, id, res), teid)
  {
    hide Core, Own, TeidOf, ExecDelete;
    var cmd := s.stray[id].cmd;
    DeleteErases(s.db, cmd.key, cmd.exp);
    DeleteFails(s.db, cmd.key, cmd.exp);
  }

  lemma VdpUntouched(s: State, id: nat, res: VdpResult, teid: nat)
    requires id in s.stray && (s.stray[id].cmd.VdpCreate? || s.stray[id].cmd.VdpDelete?)
    requires Core(s) && Own(s) && teid in DoStray(s, id, res).claims
    ensures Untouched(s, DoStray(s, id, res), teid)
  {
    hide Core, Own, TeidOf, First, TeidValidate, Stuck;
    OwnStrayNow(s, id);
  }

  lemma RestUntouched(s: State, id: nat, res: VdpResult, teid: nat)
    requires id in s.stray && teid in DoStray(s, id, res).claims
    requires var cmd := s.stray[id].cmd; !cmd.PushTeid? && !cmd.DeleteRec? && !cmd.VdpCreate? && !cmd.VdpDelete?
    ensures Untouched(s, DoStray(s, id, res), teid)
  {
    hide Serve, TeidOf;
    StrayRestRuns(s.(stray := s.stray - {id}), s.stray[id], res);
  }

  lemma DropHolds(s: State, id: nat, teid: nat)
    requires Core(s) && id in s.stray && teid in s.claims
    requires s.stray[id].cmd.PushTeid? ==> teid != s.stray[id].cmd.teid
    ensures HeldOn(s, s.(stray := s.stray - {id}), teid)
  {
    hide Core, DbInv, HeldOn;
    CoreParts(s);
    GrowsSelf(s.db);
    UntouchedHolds(s, s.(stray := s.stray - {id}), teid);
  }

  // --- callbacks ---

  // The TEID a callback finds in its transaction's hands is what it must account for.
  lemma HeldIsBefore(t: Txn, live: Live, r: Reply, env: Env, id: nat)
    requires live.t == t && live.io == Got(r) && Wf(t) && Fits(t.cb, r) && id in Held(live)
    requires t.cb.EstWriteCb? ==> r.CasOk? || r.Err? || r.CasConflict? || r.CasGone?
    ensures TeidBefore(t, r, env) == Some((t.part, id)) && !(t.cb.EstVdpCb? && r == Vdp(Accept))
  {
  }

  // So it is pushed, or held on.
  lemma CallKeepsHeld(t: Txn, live: Live, r: Reply, env: Env, out: Out, id: nat)
    requires live.t == t && live.io == Got(r) && Wf(t) && Fits(t.cb, r) && id in Held(live)
    requires TeidGoesOneWay(t, r, env, out)
    ensures out.push == Some(PushTeid(t.part, id))
            || (out.fate.Await? && (out.fate.t.cb.EstWriteCb? || out.fate.t.cb.EstVdpCb?) && out.fate.t.teid == id)
  {
    HeldIsBefore(t, live, r, env, id);
    hide TeidBefore;
  }

  // A callback's push is on its way, and what it hands on with a TEID holds it.
  lemma SettledAnswers(s: State, tid: nat, live: Live, out: Out, id: nat)
    requires out.push.Some? ==> out.push.value.PushTeid?
    requires out.push.Some? ==> out.fate.Gone?
    ensures out.push.Some? && out.push.value.teid == id ==>
              id in Settle(s, tid, live, out).claims && Answered(Settle(s, tid, live, out), id)
    ensures out.fate.Await? && (out.fate.t.cb.EstWriteCb? || out.fate.t.cb.EstVdpCb?) && out.fate.t.teid == id ==>
              var s' := Settle(s, tid, live, out); tid in s'.txns && id in Held(s'.txns[tid])
  {
    hide TeidOf;
  }

  lemma CallHolds(s: State, tid: nat, env: Env, id: nat)
    requires Core(s) && Own(s) && Enabled(s, Call(tid, env)) && id in DoCall(s, tid, env).claims
    ensures HeldOn(s, DoCall(s, tid, env), id) || Answered(DoCall(s, tid, env), id)
  {
    hide Core, Own, Callback, Allocated, Settle;
    hide HeldOn, Answered, AnswersOnce, CauseTells, TeidGoesOneWay, RollsBackExactly;
    hide Hands, RollsBack, Held;
    var live := s.txns[tid];
    var r := live.io.r;
    var (s1, env1) := Allocated(s, live, r, env);
    var out := Callback(live.t, r, env1);
    AllocatedLeaves(s, live, r, env);
    EveryCallbackAccounts(live.t, r, env1);
    CallIsOwnTame(live.t, r, env1);
    NotStray(s, tid);
    FreshIds(s);
    if id in Held(live) {
      CallKeepsHeld(live.t, live, r, env1, out, id);
    }
    SettledAnswers(s1, tid, live, out, id);
    SettleHolds(s, s1, tid, live, out, id);
  }

  lemma AllocatedLeaves(s: State, live: Live, r: Reply, env: Env)
    ensures var s1 := Allocated(s, live, r, env).0; s1 == s.(seids := s1.seids, teids := s1.teids)
  {
    hide Alloc;
  }

  ghost predicate IdsFree(s: State) { forall x :: x in s.stray ==> x < s.nextId }

  lemma FreshIds(s: State)
    requires Core(s)
    ensures IdsFree(s)
  {
    hide DbInv, AcceptedOk, TicketsOk, PoolsOk, KeptOk, TxnsOk, StrayOk;
  }

  // The other claims stand, with whoever had them.
  lemma SettleHolds(s: State, s1: State, tid: nat, live: Live, out: Out, id: nat)
    requires s1 == s.(seids := s1.seids, teids := s1.teids) && IdsFree(s)
    requires tid in s.txns && s.txns[tid] == live && tid !in s.stray
    requires out.push.Some? ==> out.push.value.PushTeid?
    requires id in Settle(s1, tid, live, out).claims
    requires id in Held(live) ==>
               (out.push.Some? && out.push.value.teid == id)
               || (out.fate.Await? && (out.fate.t.cb.EstWriteCb? || out.fate.t.cb.EstVdpCb?) && out.fate.t.teid == id)
    requires out.push.Some? && out.push.value.teid == id ==> Answered(Settle(s1, tid, live, out), id)
    requires out.fate.Await? && (out.fate.t.cb.EstWriteCb? || out.fate.t.cb.EstVdpCb?) && out.fate.t.teid == id ==>
               var s' := Settle(s1, tid, live, out); tid in s'.txns && id in Held(s'.txns[tid])
    ensures HeldOn(s, Settle(s1, tid, live, out), id) || Answered(Settle(s1, tid, live, out), id)
  {
    hide Held;
    var s' := Settle(s1, tid, live, out);
    if id in s.claims && s'.claims[id] == s.claims[id] && s.claims[id].BySession? {
      SameSession(s, s', s.claims[id].key);
    }
  }

  lemma SameSession(s: State, s': State, k: Key)
    requires s'.db.keys == s.db.keys
    ensures k in s.db.keys ==> TeidOf(s'.db, k) == TeidOf(s.db, k)
  {
  }

  // --- every step ---

  lemma StepHolds(s: State, l: Label, id: nat)
    requires Core(s) && Own(s) && Enabled(s, l) && id in Next(s, l).claims && id !in Leaks(s, l)
    ensures HeldOn(s, Next(s, l), id) || Answered(Next(s, l), id)
  {
    hide Core, Own, HeldOn, Answered, Held, DoExec, DoCall, DoLose, DoStray, DoSweep, StrandedBy;
    match l
    case Begin(pod, req, env) => BeginHolds(s, pod, req, env, id);
    case Exec(tid, res) => ExecHolds(s, tid, res, id);
    case Lose(tid, zombie) => LoseHolds(s, tid, zombie, id);
    case Call(tid, env) => CallHolds(s, tid, env, id);
    case Sweep(tid) => SweepHolds(s, tid, id);
    case Crash(tid) => EndHolds(s, s.(txns := s.txns - {tid}), tid, id);
    case ExecStray(x, res) => StrayHolds(s, x, res, id);
    case DropStray(x) => DropHolds(s, x, id);
    case Pass(ms) => PassHolds(s, ms, id);
    case _ => IdStepHolds(s, l, id);
  }

  lemma BeginHolds(s: State, pod: nat, req: Req, env: Env, id: nat)
    requires Core(s) && id in s.claims
    ensures HeldOn(s, DoBegin(s, pod, req, env), id)
  {
    hide Core, Start, Held;
    FreshId(s);
  }

  lemma PassHolds(s: State, ms: nat, id: nat)
    requires Core(s) && id in s.claims
    ensures HeldOn(s, s.(db := Tick(s.db, ms)), id)
  {
    hide Core, DbInv, HeldOn, Held;
    CoreParts(s);
    TickKeeps(s.db, ms);
    UntouchedHolds(s, s.(db := Tick(s.db, ms)), id);
  }

  lemma IdStepHolds(s: State, l: Label, id: nat)
    requires Core(s) && Enabled(s, l) && IdStep(l) && id in s.claims
    ensures HeldOn(s, Next(s, l), id)
  {
    hide Core, Next, Enabled, Held, Owned, Shape, SameOut, Later;
    var p := IdStepRuns(s, l);
  }

  lemma {:induction false} RunHolds(s: State, run: seq<Label>, leaked: set<nat>)
    requires Core(s) && Own(s) && Valid(s, run) && After(s, run).honest && TeidsBounded(After(s, run))
    requires NoneMissing(s, leaked)
    ensures NoneMissing(After(s, run), leaked + Leaked(s, run))
    decreases |run|
  {
    hide Core, Own, Next, Enabled, TeidsBounded, NoneMissing, Leaks;
    if run != [] {
      var l := run[0];
      StepKeeps(s, l);
      RunGoesOn(Next(s, l), run[1..]);
      StepIsOwn(s, l);
      StepLosesNone(s, l, leaked);
      RunHolds(Next(s, l), run[1..], leaked + Leaks(s, l));
      assert leaked + Leaks(s, l) + Leaked(Next(s, l), run[1..]) == leaked + Leaked(s, run);
    } else {
      assert leaked + {} == leaked;
    }
  }

  lemma StepLosesNone(s: State, l: Label, leaked: set<nat>)
    requires Core(s) && Own(s) && Enabled(s, l) && NoneMissing(s, leaked)
    ensures NoneMissing(Next(s, l), leaked + Leaks(s, l))
  {
    hide Core, Own, Next, Enabled, Leaks, HeldOn, Answered;
    forall id | id in Next(s, l).claims
      ensures id in Leaks(s, l) || HeldOn(s, Next(s, l), id) || Answered(Next(s, l), id)
    {
      if id !in Leaks(s, l) {
        StepHolds(s, l, id);
      }
    }
    NoneGoMissing(s, Next(s, l), leaked, Leaks(s, l));
  }

  // --- what is out is somewhere, or was lost to nobody ---

  // Every TEID that is out sits with a transaction, a push on its way or a
  // session the VDP accepted, unless one of the named steps left it to nobody.
  lemma OutSitsOrLeaked(run: seq<Label>, part: nat, id: nat) returns (at: Spot)
    requires Valid(START, run) && Sound(After(START, run))
    requires part < NUM_PARTS && IsOut(After(START, run).TeidPool(part), id)
    ensures id in Leaked(START, run) || Sits(After(START, run), part, id, at)
  {
    hide Core, Own, IsOut, Answered, Sits, Reachable, TeidsBounded;
    var s := After(START, run);
    StartIsCore();
    StartIsOwn();
    SoundIsOwn(s);
    RunHolds(START, run, {});
    assert {} + Leaked(START, run) == Leaked(START, run);
    OutIsClaimed(s, part, id);
    at := WithTxn(0);
    if id !in Leaked(START, run) {
      at := SpotOf(s, part, id);
    }
  }

  lemma OutIsClaimed(s: State, part: nat, id: nat)
    requires Own(s) && part < NUM_PARTS && IsOut(s.TeidPool(part), id)
    ensures id in s.claims && TeidValidate(id) == Some(part)
  {
    hide KeysOk, OwnTxns, OwnStrays, TeidValidate, IsOut, Owned;
    OutHere(s, part, id);
  }

  lemma SpotOf(s: State, part: nat, id: nat) returns (at: Spot)
    requires Core(s) && Own(s) && id in s.claims && Answered(s, id) && TeidValidate(id) == Some(part)
    ensures Sits(s, part, id, at)
  {
    hide Core, Own, TeidValidate, TeidOf;
    match s.claims[id]
    case ByTxn(tid) =>
      OwnTxnNow(s, tid);
      at := WithTxn(tid);
    case ByPush(x) =>
      OwnStrayNow(s, x);
      at := WithPush(x);
    case BySession(k) =>
      ServedHolds(s, k);
      at := WithSession(k);
  }

  // --- without losses nothing leaks ---

  predicate Undisturbed(l: Label) { !l.Sweep? && !l.Crash? && !l.Lose? && !l.DropStray? }

  // The deletes nobody waits for are rollbacks: the VDP never accepted their session.
  ghost predicate OnlyRollbacks(s: State) {
    forall x :: x in s.stray && s.stray[x].cmd.DeleteRec? ==> s.stray[x].cmd.key !in s.served
  }

  // A session newly served was open.
  ghost predicate ServesOpen(s: State, s': State) {
    forall k :: k in s'.served && k !in s.served ==> k !in s.closed
  }

  lemma StepServesOpen(s: State, l: Label)
    requires Core(s) && Own(s) && Enabled(s, l)
    ensures ServesOpen(s, Next(s, l))
  {
    hide Core, Own, DoExec, DoStray, Callback, Allocated, NewStrays, NewTxns, NewClaims, Start;
    match l
    case Exec(tid, res) => ExecServesOpen(s, tid, res);
    case ExecStray(x, res) => StrayServesOpen(s, x, res);
    case _ =>
  }

  lemma ExecServesOpen(s: State, tid: nat, res: VdpResult)
    requires Core(s) && Own(s) && tid in s.txns && s.txns[tid].io.Sent?
    ensures ServesOpen(s, DoExec(s, tid, res))
  {
    hide Core, Own, Serve, TeidOf, First, Claimed, Tag;
    if s.txns[tid].io.cmd.VdpCreate? {
      VdpAsks(s, tid);
    }
    ServesOnlyRules(s, s.txns[tid].io.cmd, Tag(tid, s.txns[tid].t), res);
  }

  lemma StrayServesOpen(s: State, x: nat, res: VdpResult)
    requires Core(s) && Own(s) && x in s.stray
    ensures ServesOpen(s, DoStray(s, x, res))
  {
    hide Core, Own, Serve, TeidOf, First, Claimed, Stuck;
    OwnStrayNow(s, x);
    ServesOnlyRules(s.(stray := s.stray - {x}), s.stray[x].cmd, s.stray[x].tag, res);
  }

  lemma ServesOnlyRules(s: State, cmd: Cmd, tag: Commit, res: VdpResult)
    ensures var s' := Serve(s, cmd, tag, res).0;
            forall k :: k in s'.served && k !in s.served ==> cmd.VdpCreate? && res.Accept? && k == cmd.key
  {
    hide ExecWrite, ExecDelete, ExecPersist, ExecSet, ExecGet, ExecRead, Free, Spend;
  }

  // New deletes come from rollbacks of open sessions.
  lemma CallRollsBackOpen(s: State, tid: nat, env: Env, x: nat)
    requires Core(s) && Own(s) && Enabled(s, Call(tid, env)) && x in DoCall(s, tid, env).stray
    ensures var s' := DoCall(s, tid, env);
            && s'.served == s.served
            && ((x in s.stray && s'.stray[x] == s.stray[x])
                || (s'.stray[x].cmd.DeleteRec? ==> s'.stray[x].cmd.key !in s.served))
  {
    hide Core, Own, Callback, Allocated, Pushes, Hands, NewTxns, NewClaims, TeidValidate;
    var live := s.txns[tid];
    var (s1, env1) := Allocated(s, live, live.io.r, env);
    AllocatedLeaves(s, live, live.io.r, env);
    CallIsOwnTame(live.t, live.io.r, env1);
    CallIsTame(live.t, live.io.r, env1);
    OwnTxnNow(s, tid);
    FreshIds(s);
  }

  lemma StepRollsBack(s: State, l: Label)
    requires Core(s) && Own(s) && Enabled(s, l) && Undisturbed(l) && OnlyRollbacks(s)
    ensures OnlyRollbacks(Next(s, l)) && Leaks(s, l) == {}
  {
    hide Core, Own, Enabled, DoCall, DoExec, DoStray, DoBegin, TeidOf, ServesOpen;
    StepServesOpen(s, l);
    forall x | x in Next(s, l).stray && Next(s, l).stray[x].cmd.DeleteRec?
      ensures Next(s, l).stray[x].cmd.key !in Next(s, l).served
    {
      StrayComesFrom(s, l, x);
      RollbackStays(s, Next(s, l), x);
    }
  }

  lemma StrayComesFrom(s: State, l: Label, x: nat)
    requires Core(s) && Own(s) && Enabled(s, l) && Undisturbed(l) && x in Next(s, l).stray
    ensures (x in s.stray && Next(s, l).stray[x] == s.stray[x])
            || (Next(s, l).stray[x].cmd.DeleteRec? ==>
                  Next(s, l).stray[x].cmd.key !in s.served && Next(s, l).served == s.served)
  {
    hide Core, Own, DoCall, Serve, Start;
    match l
    case Call(tid, env) => CallRollsBackOpen(s, tid, env, x);
    case _ =>
  }

  lemma RollbackStays(s: State, s': State, x: nat)
    requires Core(s) && Own(s) && OnlyRollbacks(s) && ServesOpen(s, s') && x in s'.stray && s'.stray[x].cmd.DeleteRec?
    requires (x in s.stray && s'.stray[x] == s.stray[x]) || (s'.stray[x].cmd.key !in s.served && s'.served == s.served)
    ensures s'.stray[x].cmd.key !in s'.served
  {
    hide Core, Own;
    if x in s.stray && s'.stray[x] == s.stray[x] {
      OwnStrayNow(s, x);
    }
  }

  lemma {:induction false} RunRollsBack(s: State, run: seq<Label>)
    requires Core(s) && Own(s) && Valid(s, run) && After(s, run).honest && TeidsBounded(After(s, run))
    requires OnlyRollbacks(s) && forall l :: l in run ==> Undisturbed(l)
    ensures Leaked(s, run) == {}
    decreases |run|
  {
    hide Core, Own, Next, Enabled, TeidsBounded, OnlyRollbacks, Leaks;
    if run != [] {
      StepKeeps(s, run[0]);
      RunGoesOn(Next(s, run[0]), run[1..]);
      StepIsOwn(s, run[0]);
      StepRollsBack(s, run[0]);
      RunRollsBack(Next(s, run[0]), run[1..]);
    }
  }

  // In runs with no timeout, crash, lost answer or lost command, every TEID that
  // is out sits somewhere: every failure gives back what it took.
  lemma NothingLeaksUndisturbed(run: seq<Label>, part: nat, id: nat) returns (at: Spot)
    requires Valid(START, run) && Sound(After(START, run)) && forall l :: l in run ==> Undisturbed(l)
    requires part < NUM_PARTS && IsOut(After(START, run).TeidPool(part), id)
    ensures Leaked(START, run) == {} && Sits(After(START, run), part, id, at)
  {
    hide Core, Own, IsOut, Sits, Reachable, TeidsBounded, Undisturbed;
    StartIsCore();
    StartIsOwn();
    RunRollsBack(START, run);
    at := OutSitsOrLeaked(run, part, id);
  }
}
