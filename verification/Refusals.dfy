// A modification that the VDP refused and that stays all the same: from every
// reachable state with a record, and from the empty system.
module Refusals {
  import opened Wrappers
  import opened Seid
  import opened Flow
  import opened Store
  import opened Cluster
  import opened CoreInv
  import opened OwnSteps
  import opened Steps
  import opened Promises
  import opened Ownership
  import opened Progress

  function ModTxn(cb: Cb, req: Req, k: Key, ver: nat, ctx: Option<Slot>, impl: Option<Slot>): Txn {
    Txn(cb, StateOf(cb), ver, 0, k.part, k.seid, 0, req, ctx, impl)
  }

  // A request for session k that no cache entry answers.
  predicate AsksFor(s: State, req: Req, k: Key) {
    req.kind.Mod? && req.seid == k.seid && SeidValidate(k.seid) == Some(k.part) && (req.smf, req.sn) !in s.db.cache
  }

  // What a hop of one transaction leaves to the others.
  ghost predicate Apart(s: State, s': State, tid: nat) {
    && s'.db.cache == s.db.cache && s.accepted <= s'.accepted && s.nextId <= s'.nextId
    && forall o :: o in s.txns && o != tid ==> o in s'.txns && s'.txns[o] == s.txns[o]
  }

  lemma HopIsApart(s: State, tid: nat, res: VdpResult, env: Env)
    requires tid in s.txns && s.txns[tid].io.Sent? && !s.txns[tid].io.cmd.StoreRsp?
    requires Enabled(DoExec(s, tid, res), Call(tid, env))
    ensures Apart(s, Hop(s, tid, res, env), tid)
  {
    var s1 := DoExec(s, tid, res);
    ExecIsApart(s, tid, res);
    hide DoExec;
    CallIsApart(s1, tid, env);
  }

  lemma ExecIsApart(s: State, tid: nat, res: VdpResult)
    requires tid in s.txns && s.txns[tid].io.Sent? && !s.txns[tid].io.cmd.StoreRsp?
    ensures Apart(s, DoExec(s, tid, res), tid)
  {
    hide Serve, Tag;
  }

  lemma CallIsApart(s: State, tid: nat, env: Env)
    requires Enabled(s, Call(tid, env))
    ensures Apart(s, DoCall(s, tid, env), tid)
  {
    hide Callback, Allocated, NewStrays, NewClaims, Wf, Fits;
  }

  lemma ModBegins(s: State, pod: nat, req: Req, k: Key, env: Env)
    requires AsksFor(s, req, k) && Good(env)
    ensures var s' := DoBegin(s, pod, req, env);
            && Waits(s', s.nextId, pod, ModTxn(ModLookupCb, req, k, 0, None, None), GetCached(req.smf, req.sn))
            && s' == s.(txns := s'.txns, nextId := s'.nextId, honest := s'.honest)
            && s'.nextId == s.nextId + 1
            && (forall o :: o in s.txns && o != s.nextId ==> o in s'.txns && s'.txns[o] == s.txns[o])
  {
    hide SeidValidate;
  }

  lemma ModLookupHop(s: State, tid: nat, pod: nat, req: Req, k: Key, env: Env)
    requires Good(env) && AsksFor(s, req, k)
    requires Waits(s, tid, pod, ModTxn(ModLookupCb, req, k, 0, None, None), GetCached(req.smf, req.sn))
    ensures Enabled(DoExec(s, tid, Accept), Call(tid, env))
    ensures var s' := Hop(s, tid, Accept, env);
            && Waits(s', tid, pod, ModTxn(ModReadCb, req, k, 0, Some(Slot(env.blk.value, Blank)), None), ReadRec(k))
            && s'.db.keys == s.db.keys
  {
    MissRuns(s, tid, Accept);
    hide DoExec;
    CallsOn(DoExec(s, tid, Accept), tid, env);
  }

  // The record is read and changed; the write goes out at the version read.
  lemma ModReadHop(s: State, tid: nat, pod: nat, req: Req, k: Key, blk: nat, env: Env)
    requires Good(env) && req.kind.Mod? && s.db.Has(k)
    requires Waits(s, tid, pod, ModTxn(ModReadCb, req, k, 0, Some(Slot(blk, Blank)), None), ReadRec(k))
    ensures Enabled(DoExec(s, tid, Accept), Call(tid, env))
    ensures var s' := Hop(s, tid, Accept, env); var rec := s.db.At(k);
            && Waits(s', tid, pod, Writing(req, k, rec, blk, env.blk.value),
                     WriteRec(k, rec.ver, Changed(rec.data, req), false))
            && s'.db.keys == s.db.keys
  {
    ReadRuns(s, tid, k);
    hide DoExec;
    CallsOn(DoExec(s, tid, Accept), tid, env);
  }

  function Writing(req: Req, k: Key, rec: Rec, blk: nat, snap: nat): Txn {
    ModTxn(ModWriteCb, req, k, rec.ver, Some(Slot(blk, Changed(rec.data, req))), Some(Slot(snap, rec.data)))
  }

  // Written at version ver + 1, waiting for the VDP.
  function Written(req: Req, k: Key, rec: Rec, blk: nat, snap: nat): Txn {
    Writing(req, k, rec, blk, snap).(cb := ModVdpCb, state := VdpWait, dbVer := rec.ver + 1)
  }

  lemma ReadRuns(s: State, tid: nat, k: Key)
    requires tid in s.txns && s.txns[tid].io == Sent(ReadRec(k)) && s.db.Has(k)
    ensures var r := Found(s.db.At(k).data, s.db.At(k).ver);
            DoExec(s, tid, Accept) == s.(txns := s.txns[tid := s.txns[tid].(io := Got(r))])
  {
    hide Vdped, ServePush, ServeWrite, ExecWrite, ExecDelete, ExecPersist, ExecSet, Tag;
  }

  // The write lands on the record it was computed from.
  lemma ModWriteHop(s: State, tid: nat, pod: nat, req: Req, k: Key, blk: nat, snap: nat, env: Env)
    requires Good(env) && req.kind.Mod? && s.db.Has(k) && s.db.At(k).ver >= 1
    requires var rec := s.db.At(k);
             Waits(s, tid, pod, Writing(req, k, rec, blk, snap), WriteRec(k, rec.ver, Changed(rec.data, req), false))
    ensures Enabled(DoExec(s, tid, Accept), Call(tid, env))
    ensures var s' := Hop(s, tid, Accept, env); var rec := s.db.At(k);
            && Waits(s', tid, pod, Written(req, k, rec, blk, snap), VdpModify(k, Changed(rec.data, req)))
            && s'.db.Has(k) && s'.db.At(k).ver == rec.ver + 1
            && s'.db.keys[k].hist == s.db.keys[k].hist + [Change(tid, req)]
  {
    WriteRuns(s, tid, Accept);
    var s1 := DoExec(s, tid, Accept);
    assert s1.txns[tid].io == Got(CasOk(s.db.At(k).ver + 1)) && s1.db.Has(k);
    hide DoExec;
    CallsOn(s1, tid, env);
  }

  // A modification nobody disturbs, up to its request to the VDP.
  lemma ModReachesVdp(s0: State, first: seq<Label>, s: State, pod: nat, req: Req, k: Key, e1: Env, e2: Env)
    returns (run: seq<Label>, s': State)
    requires Leads(s0, first, s) && AsksFor(s, req, k) && Good(e1) && Good(e2)
    requires s.db.Has(k) && s.db.At(k).ver >= 1 && s.nextId !in s.txns
    ensures Leads(s0, run, s') && Apart(s, s', s.nextId) && s.nextId < s'.nextId
    ensures var rec := s.db.At(k);
            && Waits(s', s.nextId, pod, Written(req, k, rec, e1.blk.value, e2.blk.value),
                     VdpModify(k, Changed(rec.data, req)))
            && s'.db.Has(k) && s'.db.At(k).ver == rec.ver + 1
            && s'.db.keys[k].hist == s.db.keys[k].hist + [Change(s.nextId, req)]
  {
    hide DoExec, DoCall, DoBegin, Hop, Enabled, Leads, Wf, SeidValidate;
    var tid := s.nextId;
    ModBegins(s, pod, req, k, e1);
    var s1 := DoBegin(s, pod, req, e1);
    run := BeginLeads(s0, first, s, pod, req, e1);
    ModLookupHop(s1, tid, pod, req, k, e1);
    HopIsApart(s1, tid, Accept, e1);
    run := AddHop(s0, run, s1, tid, Accept, e1);
    var s2 := Hop(s1, tid, Accept, e1);
    ModReadHop(s2, tid, pod, req, k, e1.blk.value, e2);
    HopIsApart(s2, tid, Accept, e2);
    run := AddHop(s0, run, s2, tid, Accept, e2);
    var s3 := Hop(s2, tid, Accept, e2);
    ModWriteHop(s3, tid, pod, req, k, e1.blk.value, e2.blk.value, e1);
    HopIsApart(s3, tid, Accept, e1);
    run := AddHop(s0, run, s3, tid, Accept, e1);
    s' := Hop(s3, tid, Accept, e1);
  }

  lemma BeginLeads(s0: State, first: seq<Label>, s: State, pod: nat, req: Req, env: Env) returns (run: seq<Label>)
    requires Leads(s0, first, s)
    ensures Leads(s0, run, DoBegin(s, pod, req, env))
  {
    hide DoBegin, Leads;
    LeadsOn(s0, first, s, Begin(pod, req, env));
    run := first + [Begin(pod, req, env)];
  }

  // The VDP refuses: the undo goes out at the version written.
  lemma RefuseHop(s: State, tid: nat, pod: nat, req: Req, k: Key, rec: Rec, blk: nat, snap: nat, env: Env)
    requires Good(env) && req.kind.Mod?
    requires Waits(s, tid, pod, Written(req, k, rec, blk, snap), VdpModify(k, Changed(rec.data, req)))
    ensures Enabled(DoExec(s, tid, Reject), Call(tid, env))
    ensures var s' := Hop(s, tid, Reject, env);
            && tid in s'.txns && s'.txns[tid].t == Written(req, k, rec, blk, snap).(cb := ModUndoCb, impl := None)
            && Wf(s'.txns[tid].t) && s'.txns[tid].io == Sent(WriteRec(k, rec.ver + 1, rec.data, false))
            && s'.db.keys == s.db.keys
  {
    VdpRuns(s, tid, Reject);
    var s1 := DoExec(s, tid, Reject);
    hide DoExec;
    CallsOn(s1, tid, env);
  }

  // The undo meets a later version: it changes nothing, and REJECTED goes out.
  lemma UndoLosesHop(s: State, tid: nat, req: Req, k: Key, env: Env)
    requires Good(env) && tid in s.txns && s.txns[tid].t.cb.ModUndoCb? && Wf(s.txns[tid].t) && s.txns[tid].t.req == req
    requires s.txns[tid].io.Sent? && s.txns[tid].io.cmd.WriteRec? && s.txns[tid].io.cmd.key == k
    requires s.db.Has(k) && 0 < s.txns[tid].io.cmd.exp < s.db.At(k).ver
    ensures DoExec(s, tid, Accept).txns[tid].io == Got(CasConflict)
    ensures Enabled(DoExec(s, tid, Accept), Call(tid, env))
    ensures var s' := Hop(s, tid, Accept, env);
            && tid !in s'.txns && s'.db.keys == s.db.keys
            && (req.smf, req.sn, Rsp(req.kind, req.sn, Rejected, 0)) in s'.db.produced
  {
    WriteRuns(s, tid, Accept);
    var s1 := DoExec(s, tid, Accept);
    assert s1.txns[tid].io == Got(CasConflict) && s1.db == s.db;
    hide DoExec;
    CallsOn(s1, tid, env);
  }

  // The undo of `tid` is on its way, and another commit already stands above the
  // change it would undo.
  predicate Overtaken(s: State, tid: nat, k: Key) {
    && tid in s.txns && s.txns[tid].t.cb.ModUndoCb? && s.txns[tid].io.Sent? && s.txns[tid].io.cmd.WriteRec?
    && s.txns[tid].io.cmd.key == k && s.db.Has(k) && s.txns[tid].t.dbVer < s.db.At(k).ver
  }

  // Refused, and in the record's data all the same.
  predicate RefusedStays(s: State, tid: nat, req: Req, k: Key) {
    && tid !in s.txns && (req.smf, req.sn, Rsp(Mod, req.sn, Rejected, 0)) in s.db.produced
    && s.db.Has(k)
    && var h := s.db.keys[k].hist;
       && (exists i :: 0 <= i < |h| && h[i] == Change(tid, req) && Stands(h, i))
       && req in Standings(h, |h|)
       && |h| > 0 && h[0].Create? && s.db.At(k).data == ChangeAll(h[0].data, Standings(h, |h|))
  }

  lemma RefusedIsInTheFold(s: State, tid: nat, req: Req, k: Key, i: nat)
    requires Reachable(s) && s.db.Has(k) && i < |s.db.keys[k].hist|
    requires s.db.keys[k].hist[i] == Change(tid, req) && Stands(s.db.keys[k].hist, i)
    requires tid !in s.txns && (req.smf, req.sn, Rsp(Mod, req.sn, Rejected, 0)) in s.db.produced
    ensures RefusedStays(s, tid, req, k)
  {
    NoLostUpdate(s, k);
    StandsSurvives(s.db.keys[k].hist, i, |s.db.keys[k].hist|);
  }

  // From every reachable state with a record, two modifications that overlap can
  // end so: the first is refused by the VDP, its undo loses its CAS to the
  // second, and its change stays in the fold.
  lemma RefusedCanStay(first: seq<Label>, s: State, k: Key, req1: Req, req2: Req, e1: Env, e2: Env)
    returns (mid: State, s': State)
    requires Leads(START, first, s) && s.db.Has(k) && AsksFor(s, req1, k) && AsksFor(s, req2, k)
    requires Good(e1) && Good(e2)
    ensures Reachable(mid) && Overtaken(mid, s.nextId, k)
    ensures DoExec(mid, s.nextId, Accept).txns[s.nextId].io == Got(CasConflict)
    ensures Reachable(s') && RefusedStays(s', s.nextId, req1, k)
  {
    hide DoExec, DoCall, DoBegin, Hop, Enabled, Leads, Wf, SeidValidate, Reachable, Core, Stands, RefusedStays;
    var tid := s.nextId;
    LeadsIsReachable(first, s);
    NextIsFree(s);
    NoLostUpdate(s, k);
    var rec := s.db.At(k);
    var run, s1 := ModReachesVdp(START, first, s, 0, req1, k, e1, e2);
    LeadsIsReachable(run, s1);
    NextIsFree(s1);
    var s2;
    run, s2 := ModReachesVdp(START, run, s1, 1, req2, k, e1, e2);
    RefuseHop(s2, tid, 0, req1, k, rec, e1.blk.value, e2.blk.value, e1);
    run := AddHop(START, run, s2, tid, Reject, e1);
    mid := Hop(s2, tid, Reject, e1);
    LeadsIsReachable(run, mid);
    UndoLosesHop(mid, tid, req1, k, e1);
    run := AddHop(START, run, mid, tid, Accept, e1);
    s' := Hop(mid, tid, Accept, e1);
    LeadsIsReachable(run, s');
    OvertakenStands(s.db.keys[k].hist, tid, req1, s1.nextId, req2);
    RefusedIsInTheFold(s', tid, req1, k, |s.db.keys[k].hist|);
  }

  lemma OvertakenStands(h: seq<Commit>, a: nat, req1: Req, b: nat, req2: Req)
    ensures var h' := h + [Change(a, req1)] + [Change(b, req2)];
            h'[|h|] == Change(a, req1) && Stands(h', |h|)
  {
  }

  lemma NextIsFree(s: State)
    requires Reachable(s)
    ensures s.nextId !in s.txns
  {
    hide DbInv, AcceptedOk, TicketsOk, PoolsOk, KeptOk, TxnOk, StrayOk, StraysOk;
    ReachableIsCore(s);
  }

  // And such a state is reached from the empty system.
  lemma RefusedStaysIsReachable() returns (mid: State, s: State, tid: nat, req: Req, k: Key)
    ensures Reachable(mid) && Overtaken(mid, tid, k)
    ensures DoExec(mid, tid, Accept).txns[tid].io == Got(CasConflict)
    ensures Reachable(s) && RefusedStays(s, tid, req, k)
  {
    hide Core, Enabled, Sound, Reachable, RefusedStays, Overtaken, DoExec, SeidValidate, Valid, After;
    var s1, first;
    s1, first, k := ServiceLeads();
    req := Req(Mod, 0, 2, k.seid, 0);
    tid := s1.nextId;
    mid, s := RefusedCanStay(first, s1, k, req, Req(Mod, 0, 3, k.seid, 0), GOOD, GOOD.(blk := Some(1)));
  }

}
