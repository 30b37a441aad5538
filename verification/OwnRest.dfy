// Arrivals, losses, timeouts, stray commands and refills keep the ownership
// invariant.
module OwnRest {
  import opened Wrappers
  import opened Seid
  import opened Flow
  import opened Store
  import opened IdPool
  import opened Cluster
  import opened CoreInv
  import opened CoreSteps
  import opened Steps
  import opened OwnInv
  import opened OwnSteps

  lemma BeginIsOwn(s: State, pod: nat, req: Req, env: Env)
    requires Core(s) && Own(s) && DoBegin(s, pod, req, env).honest
    ensures Own(DoBegin(s, pod, req, env))
  {
    hide Core, Grows, OwnRely, TeidsOwned, ClaimsOk, KeysOk, OwnTxns, OwnStrays, DbInv, Start, StuckStays, OwnTxn;
    var s' := DoBegin(s, pod, req, env);
    var out := Start(req, env).1;
    if out.fate.Await? {
      CoreParts(s);
      GrowsSelf(s.db);
      StuckIsStuck(s, s', s.nextId);
      QuietOwn(s, s', s.nextId);
      FreshId(s);
      assert s'.honest ==> OwnTxn(s', s.nextId, s'.txns[s.nextId]) by { StartOwns(s', s.nextId, req, env); }
      AssembleOwn(s, s', s.nextId);
    }
  }

  lemma StartOwns(s: State, tid: nat, req: Req, env: Env)
    requires Start(req, env).1.fate.Await? && tid in s.txns && s.txns[tid].t == Start(req, env).1.fate.t
    requires req.kind.Est? || s.txns[tid].t.RecKey() in s.accepted
    ensures OwnTxn(s, tid, s.txns[tid])
  {
  }

  lemma FreshId(s: State)
    requires Core(s)
    ensures s.nextId !in s.stray && s.nextId !in s.txns
  {
  }

  // --- endings without a callback ---

  lemma EndIsOwn(s: State, s': State, tid: nat)
    requires Core(s) && Own(s) && tid in s.txns
    requires s' == s.(txns := s.txns - {tid}, stray := s'.stray, nextId := s'.nextId) && s.nextId <= s'.nextId
    requires forall id :: id in s'.stray ==>
               (id in s.stray && s'.stray[id] == s.stray[id]) || s'.stray[id].cmd.PersistRec?
    requires tid !in s'.stray
    ensures Own(s')
  {
    hide Core, Grows, OwnRely, TeidsOwned, ClaimsOk, KeysOk, OwnTxns, OwnStrays, DbInv;
    CoreParts(s);
    GrowsSelf(s.db);
    StuckIsStuck(s, s', tid);
    QuietOwn(s, s', tid);
    AssembleOwn(s, s', tid);
  }

  lemma SweepIsOwn(s: State, tid: nat)
    requires Core(s) && Own(s) && tid in s.txns
    ensures Own(DoSweep(s, tid))
  {
    hide Core, Own, TxnOk;
    NotStray(s, tid);
    FreshId(s);
    SweepSends(s, tid, s.txns[tid]);
    EndIsOwn(s, DoSweep(s, tid), tid);
  }

  // --- a lost answer ---

  lemma LoseIsOwn(s: State, tid: nat, zombie: bool)
    requires Core(s) && Own(s) && tid in s.txns
    ensures Own(DoLose(s, tid, zombie))
  {
    hide Core, Own, DoLose;
    var live := s.txns[tid];
    FreshId(s);
    if zombie && live.io.Sent? && live.io.cmd.VdpCreate? {
      LoseCreateIsOwn(s, tid);
    } else {
      if zombie && live.io.Sent? {
        LostCommand(s, tid);
      }
      LoseLeaves(s, tid, zombie);
      LoseRestIsOwn(s, DoLose(s, tid, zombie), tid);
    }
  }

  lemma LoseLeaves(s: State, tid: nat, zombie: bool)
    requires tid in s.txns && !(zombie && s.txns[tid].io.Sent? && s.txns[tid].io.cmd.VdpCreate?)
    ensures var s' := DoLose(s, tid, zombie);
            && s' == s.(txns := s.txns[tid := s.txns[tid].(io := Got(Err))], stray := s'.stray,
                        nextId := s'.nextId, tickets := s'.tickets)
            && s.nextId <= s'.nextId
            && forall id :: id in s'.stray ==>
                 (id in s.stray && s'.stray[id] == s.stray[id])
                 || (id == s.nextId && zombie && s.txns[tid].io.Sent? && s'.stray[id].cmd == s.txns[tid].io.cmd)
  {
  }

  // The answer is lost, and what may still run claims nothing.
  lemma LoseRestIsOwn(s: State, s': State, tid: nat)
    requires Core(s) && Own(s) && tid in s.txns
    requires s' == s.(txns := s.txns[tid := s.txns[tid].(io := Got(Err))], stray := s'.stray,
                      nextId := s'.nextId, tickets := s'.tickets)
    requires s.nextId <= s'.nextId
    requires forall id :: id in s'.stray ==>
               (id in s.stray && s'.stray[id] == s.stray[id])
               || (id == s.nextId && var cmd := s'.stray[id].cmd;
                   && !cmd.PushTeid? && !cmd.VdpCreate?
                   && (cmd.VdpDelete? ==> cmd.key in s.accepted) && (cmd.DeleteRec? ==> cmd.key in s.closed))
    ensures Own(s')
  {
    hide Core, Grows, OwnRely, TeidsOwned, ClaimsOk, KeysOk, OwnTxns, OwnStrays, DbInv, TeidValidate, TxnOk;
    CoreParts(s);
    GrowsSelf(s.db);
    NotStray(s, tid);
    OwnTxnNow(s, tid);
    StuckIsStuck(s, s', tid);
    QuietOwn(s, s', tid);
    AssembleOwn(s, s', tid);
  }

  // The other commands that may still run touch no open session's TEID.
  lemma LostCommand(s: State, tid: nat)
    requires Core(s) && Own(s) && tid in s.txns && s.txns[tid].io.Sent? && !s.txns[tid].io.cmd.VdpCreate?
    ensures var cmd := s.txns[tid].io.cmd;
            && !cmd.PushTeid?
            && (cmd.VdpDelete? ==> cmd.key in s.accepted) && (cmd.DeleteRec? ==> cmd.key in s.closed)
  {
    hide DbInv, AcceptedOk, PoolsOk, KeptOk, TicketsOk, StraysOk, TeidsOwned, ClaimsOk, OwnStrays, KeysOk;
    hide TeidValidate;
    hide EstOk, ModOk, DelOk;
    assert TxnOk(s, tid, s.txns[tid]) && OwnTxn(s, tid, s.txns[tid]);
  }

  // The rule of a lost create may still go in: the session takes the TEID.
  lemma LoseCreateIsOwn(s: State, tid: nat)
    requires Core(s) && Own(s) && tid in s.txns && s.txns[tid].io.Sent? && s.txns[tid].io.cmd.VdpCreate?
    ensures Own(DoLose(s, tid, true))
  {
    hide Core, Grows, OwnRely, TeidsOwned, ClaimsOk, KeysOk, OwnTxns, OwnStrays, DbInv, AcceptedOk;
    hide TeidValidate, TxnOk;
    hide TeidOf, First, OwnTxn, OwnStray, Stuck, StuckStays, Claimed;
    var live := s.txns[tid];
    var k := live.t.RecKey();
    var s' := DoLose(s, tid, true);
    CoreParts(s);
    NotStray(s, tid);
    FreshId(s);
    VdpAsks(s, tid);
    StuckAfterAnswer(s, s', tid);
    SessionTakes(s, s', tid, k, live.io.cmd.ctx);
    LostCreateStray(s, s', tid);
    LostOwnsNothing(s', tid);
    AssembleOwn(s, s', tid);
  }

  lemma LostOwnsNothing(s: State, tid: nat)
    requires tid in s.txns && s.txns[tid].io == Got(Err) && s.txns[tid].t.cb.EstVdpCb?
    ensures OwnTxn(s, tid, s.txns[tid])
  {
  }

  lemma LostCreateStray(s: State, s': State, tid: nat)
    requires AcceptedOk(s) && tid < s.nextId && tid in s.txns && s.txns[tid].io.Sent? && s.txns[tid].io.cmd.VdpCreate?
    requires var cmd := s.txns[tid].io.cmd; var k := cmd.key;
             && s.txns[tid].t.cb.EstVdpCb? && k in s.db.keys && CtxTeid(cmd.ctx) == TeidOf(s.db, k)
             && Claimed(s, k.part, CtxTeid(cmd.ctx), ByTxn(tid)) && Open(s, k) && First(s.db, k).who == tid
    requires s' == DoLose(s, tid, true)
    ensures OwnStray(s', s.nextId, s'.stray[s.nextId])
  {
    hide TeidOf, First, TeidValidate;
  }

  lemma SessionTakes(s: State, s': State, a: nat, k: Key, ctx: Ctx)
    requires Own(s) && DbInv(s.db) && StuckStays(s, s') && s.nextId <= s'.nextId
    requires k in s.db.keys && CtxTeid(ctx) == TeidOf(s.db, k) && Claimed(s, k.part, CtxTeid(ctx), ByTxn(a))
    requires s' == s.(txns := s'.txns, stray := s'.stray, nextId := s'.nextId,
                      claims := s.claims[CtxTeid(ctx) := BySession(k)])
    ensures OwnRely(s, s', a) && ClaimsOk(s'.teids, s'.claims) && KeysOk(s')
  {
    hide OwnTxns, OwnStrays, TeidsOwned, Grows, TeidValidate, Stuck, DbInv;
    GrowsSelf(s.db);
    assert OwnRely(s, s', a);
    hide SessionHolds;
    KeysStay(s, s', a);
  }

  // --- stray commands ---

  lemma StrayIsOwn(s: State, id: nat, res: VdpResult)
    requires Core(s) && Own(s) && id in s.stray
    ensures Own(DoStray(s, id, res))
  {
    hide Core, Own, Serve;
    var x := s.stray[id];
    if x.cmd.PushTeid? {
      StrayPushIsOwn(s, id, x.cmd.part, x.cmd.teid, res);
    } else if x.cmd.VdpCreate? && res.Accept? {
      StrayCreateIsOwn(s, id, res);
    } else if x.cmd.VdpDelete? && res.Accept? {
      StrayOutIsOwn(s, id, res);
    } else if x.cmd.DeleteRec? {
      StrayDeleteIsOwn(s, id, res);
    } else {
      StrayRestIsOwn(s, id, res);
    }
  }

  lemma OwnStrayNow(s: State, id: nat)
    requires Core(s) && Own(s) && id in s.stray
    ensures OwnStray(s, id, s.stray[id]) && id !in s.txns && id < s.nextId
  {
  }

  lemma StrayRestIsOwn(s: State, id: nat, res: VdpResult)
    requires Core(s) && Own(s) && id in s.stray
    requires var cmd := s.stray[id].cmd;
             !cmd.PushTeid? && !cmd.DeleteRec? && ((cmd.VdpCreate? || cmd.VdpDelete?) ==> !res.Accept?)
    ensures Own(DoStray(s, id, res))
  {
    hide Core, Grows, OwnRely, TeidsOwned, ClaimsOk, KeysOk, OwnTxns, OwnStrays, DbInv, DoStray, OwnStray;
    var s' := DoStray(s, id, res);
    CoreParts(s);
    OwnStrayNow(s, id);
    StrayRestRuns(s.(stray := s.stray - {id}), s.stray[id], res);
    assert s' == s.(stray := s.stray - {id}, db := s'.db, tickets := s'.tickets) by {
      DoStrayIs(s, id, res);
    }
    assert Grows(s.db, s'.db) by {
      StrayStepGrows(s, id, res);
    }
    DoStrayIs(s, id, res);
    StuckIsStuck(s, s', id);
    QuietOwn(s, s', id);
    AssembleOwn(s, s', id);
  }

  lemma DoStrayIs(s: State, id: nat, res: VdpResult)
    requires id in s.stray
    ensures DoStray(s, id, res) == Serve(s.(stray := s.stray - {id}), s.stray[id].cmd, s.stray[id].tag, res).0
  {
  }

  lemma StrayRestRuns(s: State, x: Stray, res: VdpResult)
    requires !x.cmd.PushTeid? && !x.cmd.DeleteRec? && ((x.cmd.VdpCreate? || x.cmd.VdpDelete?) ==> !res.Accept?)
    ensures var s' := Serve(s, x.cmd, x.tag, res).0;
            && s' == s.(db := s'.db, tickets := s'.tickets)
            && forall k :: k in s'.db.keys && s'.db.keys[k].erased ==> k in s.db.keys && s.db.keys[k].erased
  {
    hide Serve;
    if x.cmd.PersistRec? || x.cmd.WriteRec? {
      StrayRecordRuns(s, x, res);
    } else {
      StrayNothingRuns(s, x, res);
    }
  }

  lemma StrayNothingRuns(s: State, x: Stray, res: VdpResult)
    requires !x.cmd.PushTeid? && !x.cmd.DeleteRec? && !x.cmd.PersistRec? && !x.cmd.WriteRec?
    requires (x.cmd.VdpCreate? || x.cmd.VdpDelete?) ==> !res.Accept?
    ensures var s' := Serve(s, x.cmd, x.tag, res).0; s' == s.(db := s'.db) && s'.db.keys == s.db.keys
  {
  }

  lemma StrayRecordRuns(s: State, x: Stray, res: VdpResult)
    requires x.cmd.PersistRec? || x.cmd.WriteRec?
    ensures var s' := Serve(s, x.cmd, x.tag, res).0;
            && s' == s.(db := s'.db, tickets := s'.tickets)
            && forall k :: k in s'.db.keys && s'.db.keys[k].erased ==> k in s.db.keys && s.db.keys[k].erased
  {
    hide Vdped, ServePush, ExecWrite, ExecDelete, ExecPersist, ExecGet, ExecRead, ExecSet, Spend;
    if x.cmd.PersistRec? {
      WriteErases(s.db, x.cmd.key, 0, Blank, false, NO_TAG);
    } else {
      WriteErases(s.db, x.cmd.key, x.cmd.exp, x.cmd.data, x.cmd.pending, x.tag);
    }
  }

  lemma StrayDeleteIsOwn(s: State, id: nat, res: VdpResult)
    requires Core(s) && Own(s) && id in s.stray && s.stray[id].cmd.DeleteRec?
    ensures Own(DoStray(s, id, res))
  {
    hide Core, Grows, OwnRely, TeidsOwned, ClaimsOk, OwnTxns, OwnStrays, DbInv, ExecDelete, SessionHolds;
    var s' := DoStray(s, id, res);
    var cmd := s.stray[id].cmd;
    CoreParts(s);
    OwnStrayNow(s, id);
    StrayStepGrows(s, id, res);
    DeleteErases(s.db, cmd.key, cmd.exp);
    StuckIsStuck(s, s', id);
    ErasedRely(s, s', id);
    AssembleOwn(s, s', id);
  }

  lemma ErasedRely(s: State, s': State, a: nat)
    requires Own(s) && DbInv(s.db) && Grows(s.db, s'.db) && StuckStays(s, s')
    requires s' == s.(db := s'.db, stray := s'.stray)
    requires forall k :: k in s'.db.keys && s'.db.keys[k].erased ==>
               k in s.closed || (k in s.db.keys && s.db.keys[k].erased)
    ensures OwnRely(s, s', a) && ClaimsOk(s'.teids, s'.claims) && KeysOk(s')
  {
  }

  lemma StrayOutIsOwn(s: State, id: nat, res: VdpResult)
    requires Core(s) && Own(s) && id in s.stray && s.stray[id].cmd.VdpDelete? && res.Accept?
    ensures Own(DoStray(s, id, res))
  {
    hide Core, Grows, OwnRely, TeidsOwned, ClaimsOk, OwnTxns, OwnStrays, DbInv, SessionHolds, KeysOk;
    var s' := DoStray(s, id, res);
    CoreParts(s);
    OwnStrayNow(s, id);
    StuckIsStuck(s, s', id);
    RuleGoesOut(s, s', id, s.stray[id].cmd.key);
    AssembleOwn(s, s', id);
  }

  lemma StrayCreateIsOwn(s: State, id: nat, res: VdpResult)
    requires Core(s) && Own(s) && id in s.stray && s.stray[id].cmd.VdpCreate? && res.Accept?
    ensures Own(DoStray(s, id, res))
  {
    hide Core, Grows, OwnRely, TeidsOwned, ClaimsOk, OwnTxns, OwnStrays, DbInv, SessionHolds, KeysOk, TeidOf;
    hide First, TeidValidate;
    var s' := DoStray(s, id, res);
    CoreParts(s);
    OwnStrayNow(s, id);
    StuckIsStuck(s, s', id);
    RuleGoesIn(s, s', id, s.stray[id].cmd.key, s.stray[id].cmd.ctx, BySession(s.stray[id].cmd.key));
    AssembleOwn(s, s', id);
  }

  // The push frees a TEID that is out, once.
  lemma StrayPushIsOwn(s: State, id: nat, part: nat, teid: nat, res: VdpResult)
    requires Core(s) && Own(s) && id in s.stray && s.stray[id].cmd == PushTeid(part, teid)
    ensures Own(DoStray(s, id, res))
  {
    hide Core, Grows, OwnRely, TeidsOwned, ClaimsOk, OwnTxns, OwnStrays, DbInv, KeysOk, TeidValidate, Free;
    var s' := DoStray(s, id, res);
    CoreParts(s);
    OwnStrayNow(s, id);
    StuckIsStuck(s, s', id);
    PushClaims(s, part, teid, id);
    PushRely(s, s', id, teid);
    AssembleOwn(s, s', id);
  }

  lemma PartOf(teid: nat)
    requires TeidValidate(teid).Some?
    ensures TeidValidate(teid).value < NUM_PARTS
  {
  }

  lemma PushClaims(s: State, part: nat, teid: nat, id: nat)
    requires Own(s) && Claimed(s, part, teid, ByPush(id))
    ensures IsOut(s.TeidPool(part), teid)
    ensures var teids' := s.teids[part := Free(s.TeidPool(part), teid)];
            TeidsOwned(teids') && ClaimsOk(teids', s.claims - {teid})
  {
    hide KeysOk, OwnTxns, OwnStrays, Owned, TeidValidate;
    PartOf(teid);
    FreeKeeps(part, s.TeidPool(part), teid);
    var teids' := s.teids[part := Free(s.TeidPool(part), teid)];
    forall q: nat | q < NUM_PARTS ensures Owned(Teids, q, InPart(teids', q)) {
      assert InPart(teids', q) == if q == part then Free(s.TeidPool(part), teid) else InPart(s.teids, q);
    }
    forall q: nat, x | q < NUM_PARTS && IsOut(InPart(teids', q), x) ensures x in s.claims - {teid} {
      assert IsOut(InPart(s.teids, q), x);
      if x == teid {
        OutHere(s, q, teid);
      }
    }
  }

  // An id that is out is out of the pool of the partition it decodes to.
  lemma OutHere(s: State, q: nat, teid: nat)
    requires TeidsOwned(s.teids) && q < NUM_PARTS && IsOut(InPart(s.teids, q), teid)
    ensures TeidValidate(teid) == Some(q)
  {
    assert Owned(Teids, q, InPart(s.teids, q));
    GenuineValidates(Teids, q, teid);
  }

  lemma PushRely(s: State, s': State, a: nat, teid: nat)
    requires Own(s) && DbInv(s.db) && StuckStays(s, s') && teid in s.claims && s.claims[teid] == ByPush(a)
    requires s' == s.(teids := s'.teids, stray := s'.stray, claims := s.claims - {teid})
    ensures OwnRely(s, s', a) && KeysOk(s')
  {
    hide OwnTxns, OwnStrays, TeidsOwned, ClaimsOk, Grows, DbInv, Stuck, TeidValidate;
    GrowsSelf(s.db);
    assert OwnRely(s, s', a);
    hide SessionHolds;
    KeysStay(s, s', a);
  }

  lemma DropIsOwn(s: State, id: nat)
    requires Core(s) && Own(s) && id in s.stray
    ensures Own(s.(stray := s.stray - {id}))
  {
    hide Core, Grows, OwnRely, TeidsOwned, ClaimsOk, KeysOk, OwnTxns, OwnStrays, DbInv;
    var s' := s.(stray := s.stray - {id});
    CoreParts(s);
    OwnStrayNow(s, id);
    GrowsSelf(s.db);
    StuckIsStuck(s, s', id);
    QuietOwn(s, s', id);
    AssembleOwn(s, s', id);
  }

  // --- the clock and the refills ---

  lemma PassIsOwn(s: State, ms: nat)
    requires Core(s) && Own(s)
    ensures Own(s.(db := Tick(s.db, ms)))
  {
    hide Core, Grows, OwnRely, TeidsOwned, ClaimsOk, KeysOk, OwnTxns, OwnStrays, DbInv;
    var s' := s.(db := Tick(s.db, ms));
    CoreParts(s);
    FreshId(s);
    TickKeeps(s.db, ms);
    StuckIsStuck(s, s', s.nextId);
    QuietOwn(s, s', s.nextId);
    AssembleOwn(s, s', s.nextId);
  }

  lemma PoolIsOwn(s: State, kind: IdKind, part: nat, p: Pool)
    requires Core(s) && Own(s) && part < NUM_PARTS
    requires kind.Teids? ==> Owned(Teids, part, p) && SameOut(s.TeidPool(part), p)
    ensures Own(PutPool(s, kind, part, p))
  {
    hide Core, Grows, OwnRely, TeidsOwned, ClaimsOk, KeysOk, OwnTxns, OwnStrays, DbInv, SameOut, Owned;
    var s' := PutPool(s, kind, part, p);
    CoreParts(s);
    FreshId(s);
    GrowsSelf(s.db);
    StuckIsStuck(s, s', s.nextId);
    QuietOwn(s, s.(seids := s'.seids), s.nextId);
    PoolRely(s, s', s.nextId);
    if kind.Teids? {
      PoolClaims(s, part, p);
    }
    AssembleOwn(s, s', s.nextId);
  }

  lemma PoolRely(s: State, s': State, a: nat)
    requires Own(s) && DbInv(s.db) && StuckStays(s, s') && s' == s.(seids := s'.seids, teids := s'.teids)
    ensures OwnRely(s, s', a) && KeysOk(s')
  {
  }

  lemma PoolClaims(s: State, part: nat, p: Pool)
    requires Own(s) && part < NUM_PARTS && Owned(Teids, part, p) && SameOut(s.TeidPool(part), p)
    ensures TeidsOwned(s.teids[part := p]) && ClaimsOk(s.teids[part := p], s.claims)
  {
    hide OwnTxns, OwnStrays, KeysOk, Owned, TeidValidate, IsOut;
    var teids' := s.teids[part := p];
    forall q: nat ensures q != part ==> InPart(teids', q) == InPart(s.teids, q) {
    }
    forall q: nat | q < NUM_PARTS ensures Owned(Teids, q, InPart(teids', q)) {
      assert InPart(teids', q) == if q == part then p else InPart(s.teids, q);
    }
  }

  lemma IdStepIsOwn(s: State, l: Label)
    requires Core(s) && Own(s) && Enabled(s, l) && IdStep(l) && TeidsBounded(Next(s, l))
    ensures Own(Next(s, l))
  {
    hide Core, Own, Owned, Shape, SameOut, Later, Next, Enabled, Bounded;
    var p' := IdStepRuns(s, l);
    if l.kind.Teids? {
      TeidsAreOwned(s, l.part);
      assert Next(s, l).TeidPool(l.part) == p';
    }
    PoolIsOwn(s, l.kind, l.part, p');
  }

  lemma TeidsAreOwned(s: State, part: nat)
    requires Own(s) && part < NUM_PARTS
    ensures Owned(Teids, part, s.TeidPool(part))
  {
  }
}
