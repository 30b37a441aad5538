// The awaited requests, the stray commands and the clock keep the ownership
// invariant.
module OwnSteps {
  import opened Wrappers
  import opened Seid
  import opened Flow
  import opened Store
  import opened IdPool
  import opened Cluster
  import opened CoreInv
  import opened CoreSteps
  import opened Steps
  import opened OwnInv

  ghost predicate StuckStays(s: State, s': State) {
    forall w: nat :: w < s.nextId && Stuck(s, w) ==> Stuck(s', w)
  }

  lemma StuckIsStuck(s: State, s': State, a: nat)
    requires forall o :: o in s'.txns && o != a ==> o >= s.nextId || (o in s.txns && s'.txns[o] == s.txns[o])
    requires a in s'.txns ==> a >= s.nextId || !Stuck(s, a) || Stuck(s', a)
    ensures StuckStays(s, s')
  {
  }

  lemma StuckAfterAnswer(s: State, s': State, tid: nat)
    requires Moves(s, s', tid)
    ensures StuckStays(s, s')
  {
  }

  lemma AnswerIsOwn(s: State, s': State, tid: nat)
    requires Core(s) && Own(s) && OwnRely(s, s', tid) && Moves(s, s', tid)
    requires TeidsOwned(s'.teids) && ClaimsOk(s'.teids, s'.claims) && KeysOk(s')
    requires s'.stray == s.stray && OwnTxn(s', tid, s'.txns[tid])
    ensures Own(s')
  {
    hide Core, Own, OwnRely, TeidsOwned, ClaimsOk, KeysOk, OwnTxn, OwnStray, TxnOk;
    NotStray(s, tid);
    AssembleOwn(s, s', tid);
  }

  // A step that leaves claims and marks alone.
  lemma QuietOwn(s: State, s': State, a: nat)
    requires Own(s) && DbInv(s.db) && Grows(s.db, s'.db) && StuckStays(s, s')
    requires s' == s.(db := s'.db, txns := s'.txns, stray := s'.stray, nextId := s'.nextId, seids := s'.seids,
                      tickets := s'.tickets, honest := s'.honest, kept := s'.kept)
    requires s.nextId <= s'.nextId
    requires forall k :: k in s'.db.keys && s'.db.keys[k].erased ==> k in s.db.keys && s.db.keys[k].erased
    ensures OwnRely(s, s', a) && TeidsOwned(s'.teids) && ClaimsOk(s'.teids, s'.claims) && KeysOk(s')
  {
  }

  // --- the awaited request runs ---

  lemma WriteErases(db: Db, k: Key, exp: nat, data: Ctx, pending: bool, tag: Commit)
    ensures var db' := ExecWrite(db, k, exp, data, pending, tag).0;
            forall j :: j in db'.keys && db'.keys[j].erased ==> j in db.keys && db.keys[j].erased
    ensures var db' := ExecPersist(db, k).0;
            forall j :: j in db'.keys && db'.keys[j].erased ==> j in db.keys && db.keys[j].erased
  {
  }

  lemma ExecWriteOwn(s: State, tid: nat, res: VdpResult)
    requires Core(s) && Own(s) && tid in s.txns && s.txns[tid].io.Sent? && s.txns[tid].io.cmd.WriteRec?
    ensures Own(DoExec(s, tid, res))
  {
    hide Core, Own, DoExec, ExecWrite, Grows, Tag, OwnRely, TeidsOwned, ClaimsOk, KeysOk, OwnTxn, OwnStray, TxnOk;
    var live := s.txns[tid];
    var cmd := live.io.cmd;
    var s' := DoExec(s, tid, res);
    WriteRuns(s, tid, res);
    ExecGrows(s, tid, res);
    WriteErases(s.db, cmd.key, cmd.exp, cmd.data, cmd.pending, Tag(tid, live.t));
    StuckAfterAnswer(s, s', tid);
    CoreParts(s);
    QuietOwn(s, s', tid);
    GoneIsGone(s.db, cmd.key, cmd.exp, cmd.data, cmd.pending, Tag(tid, live.t));
    WriteOpens(s, s', tid, s'.txns[tid].io.r);
    AnswerIsOwn(s, s', tid);
  }

  lemma CoreParts(s: State)
    requires Core(s)
    ensures DbInv(s.db) && AcceptedOk(s) && TicketsOk(s)
  {
  }

  lemma NotStray(s: State, tid: nat)
    requires Core(s) && tid in s.txns
    ensures tid !in s.stray && TxnOk(s, tid, s.txns[tid]) && tid < s.nextId
  {
  }

  // The create that lands is for a key nobody has seen.
  lemma WriteOpens(s: State, s': State, tid: nat, r: Reply)
    requires Core(s) && Own(s) && tid in s.txns && s.txns[tid].io.Sent? && s.txns[tid].io.cmd.WriteRec?
    requires s' == s.(db := s'.db, txns := s'.txns, tickets := s'.tickets)
    requires r.CasGone? ==> !s'.db.Has(s.txns[tid].io.cmd.key)
    ensures OwnTxn(s', tid, s.txns[tid].(io := Got(r)))
  {
    hide DbInv, AcceptedOk, PoolsOk, KeptOk, StraysOk, TeidsOwned, ClaimsOk, OwnStrays, TeidValidate, ModOk, DelOk;
    var live := s.txns[tid];
    assert TxnOk(s, tid, live) && OwnTxn(s, tid, live);
  }

  // GONE is answered only when the record is not there.
  lemma GoneIsGone(db: Db, k: Key, exp: nat, data: Ctx, pending: bool, tag: Commit)
    ensures var w := ExecWrite(db, k, exp, data, pending, tag); w.1.CasGone? ==> !w.0.Has(k)
    ensures var w := ExecDelete(db, k, exp); w.1.CasGone? ==> !w.0.Has(k)
    ensures ExecRead(db, k) == NotFound ==> !db.Has(k)
  {
  }

  lemma DeleteRunsOwn(s: State, tid: nat, res: VdpResult)
    requires tid in s.txns && s.txns[tid].io.Sent? && s.txns[tid].io.cmd.DeleteRec? && s.txns[tid].t.ctx.Some?
    ensures var s' := DoExec(s, tid, res); var cmd := s.txns[tid].io.cmd;
            var (db', r) := ExecDelete(s.db, cmd.key, cmd.exp);
            s' == s.(db := db', txns := s.txns[tid := s.txns[tid].(io := Got(r))],
                     claims := if r.CasOk? then s.claims[CtxTeid(s.txns[tid].t.ctx.value.val) := ByTxn(tid)]
                               else s.claims)
  {
  }

  // What a deletion about to commit knows: its copy has the session's TEID.
  lemma DeleterKnows(s: State, tid: nat)
    requires Core(s) && Own(s) && tid in s.txns && s.txns[tid].io.Sent? && s.txns[tid].io.cmd.DeleteRec?
    ensures var t := s.txns[tid].t; var k := t.RecKey();
            && s.txns[tid].io.cmd == DeleteRec(k, t.dbVer) && t.cb.DelDeleteCb? && t.ctx.Some?
            && k in s.accepted && k in s.closed && k in s.served && SessionHolds(s, k)
            && CtxTeid(t.ctx.value.val) == TeidOf(s.db, k)
  {
    hide TeidsOwned, ClaimsOk, OwnStrays, PoolsOk, TicketsOk, KeptOk, StraysOk, TeidValidate, Behind, EstOk, ModOk;
    var live := s.txns[tid];
    var k := live.t.RecKey();
    assert TxnOk(s, tid, live) && OwnTxn(s, tid, live);
    var h := s.db.keys[k].hist;
    assert LifeOk(s.db.now, s.db.keys[k]);
    LawfulPrefix(h, live.t.dbVer);
    FoldKeepsTeid(h[..live.t.dbVer]);
    assert h[..live.t.dbVer][0] == h[0];
  }

  // The committed delete moves the session's TEID to the deleter.
  lemma DeleteClaims(s: State, s': State, tid: nat, k: Key, r: Reply)
    requires Own(s) && DbInv(s.db) && Grows(s.db, s'.db) && StuckStays(s, s')
    requires k in s.accepted && k in s.closed && k in s.served && SessionHolds(s, k)
    requires k in s'.db.keys && (r.CasOk? ==> s.db.Has(k) && s'.db.keys[k].erased)
    requires s' == s.(db := s'.db, txns := s'.txns, claims := s'.claims)
    requires s'.claims == if r.CasOk? then s.claims[TeidOf(s.db, k) := ByTxn(tid)] else s.claims
    requires forall j :: j in s'.db.keys && s'.db.keys[j].erased ==> j == k || (j in s.db.keys && s.db.keys[j].erased)
    ensures OwnRely(s, s', tid) && ClaimsOk(s'.teids, s'.claims) && KeysOk(s')
    ensures r.CasOk? ==> Claimed(s', k.part, TeidOf(s.db, k), ByTxn(tid))
  {
    hide OwnTxns, OwnStrays, TeidsOwned, Grows, TeidValidate, Stuck, SessionHolds, TeidOf, DbInv, IsOut;
    if r.CasOk? {
      HeldUntilNow(s, k);
    }
    assert ClaimsStay(s, s', tid);
    assert OwnRely(s, s', tid);
    KeysStay(s, s', tid);
  }

  lemma HeldUntilNow(s: State, k: Key)
    requires DbInv(s.db) && SessionHolds(s, k) && s.db.Has(k)
    ensures Claimed(s, k.part, TeidOf(s.db, k), BySession(k))
  {
  }

  lemma ExecDeleteOwn(s: State, tid: nat, res: VdpResult)
    requires Core(s) && Own(s) && tid in s.txns && s.txns[tid].io.Sent? && s.txns[tid].io.cmd.DeleteRec?
    ensures Own(DoExec(s, tid, res))
  {
    hide Core, DoExec, ExecDelete, Grows, OwnRely, TeidsOwned, ClaimsOk, KeysOk, OwnTxns, OwnStrays, TeidValidate;
    hide SessionHolds, TeidOf, DbInv, OwnTxn, OwnStray, Stuck, StuckStays, Claimed;
    var live := s.txns[tid];
    var k := live.t.RecKey();
    var s' := DoExec(s, tid, res);
    CoreParts(s);
    DeleterKnows(s, tid);
    DeleteRunsOwn(s, tid, res);
    DeleteKeeps(s.db, k, live.t.dbVer);
    DeleteErases(s.db, k, live.t.dbVer);
    GoneIsGone(s.db, k, live.t.dbVer, Blank, false, NO_TAG);
    StuckAfterAnswer(s, s', tid);
    DeleteClaims(s, s', tid, k, s'.txns[tid].io.r);
    DeleterOwns(s', tid);
    AnswerIsOwn(s, s', tid);
  }

  lemma DeleterOwns(s: State, tid: nat)
    requires tid in s.txns && s.txns[tid].io.Got? && s.txns[tid].t.cb.DelDeleteCb? && s.txns[tid].t.ctx.Some?
    requires var t := s.txns[tid].t; var r := s.txns[tid].io.r; var k := t.RecKey();
             && k in s.accepted && k in s.closed && (r.CasGone? ==> !s.db.Has(k))
             && (r.CasOk? ==> Claimed(s, k.part, CtxTeid(t.ctx.value.val), ByTxn(tid)))
    ensures OwnTxn(s, tid, s.txns[tid])
  {
  }

  lemma DeleteErases(db: Db, k: Key, exp: nat)
    ensures var (db', r) := ExecDelete(db, k, exp);
            && (r.CasOk? ==> k in db'.keys && db'.keys[k].erased)
            && forall j :: j in db'.keys && db'.keys[j].erased ==> j == k || (j in db.keys && db.keys[j].erased)
  {
  }

  // --- the VDP answers ---

  lemma VdpRuns(s: State, tid: nat, res: VdpResult)
    requires tid in s.txns && s.txns[tid].io.Sent?
    requires var cmd := s.txns[tid].io.cmd; cmd.VdpCreate? || cmd.VdpModify? || cmd.VdpDelete?
    ensures DoExec(s, tid, res)
            == Vdped(s, s.txns[tid].io.cmd, res).(txns := s.txns[tid := s.txns[tid].(io := Got(Vdp(res)))])
  {
  }

  // A rule goes in for an open session, whose TEID it takes over.
  lemma RuleGoesIn(s: State, s': State, a: nat, k: Key, ctx: Ctx, c: Claim)
    requires Own(s) && DbInv(s.db) && s'.db == s.db && StuckStays(s, s') && s.nextId <= s'.nextId
    requires k in s.db.keys && CtxTeid(ctx) == TeidOf(s.db, k) && Claimed(s, k.part, CtxTeid(ctx), c)
    requires c == ByTxn(a) || c == BySession(k)
    requires k !in s.closed && (First(s.db, k).who == a || Stuck(s, First(s.db, k).who))
    requires s' == s.(txns := s'.txns, stray := s'.stray, rules := s.rules + {k}, served := s.served + {k},
                      claims := s.claims[CtxTeid(ctx) := BySession(k)])
    ensures OwnRely(s, s', a) && ClaimsOk(s'.teids, s'.claims) && KeysOk(s')
  {
    hide OwnTxns, OwnStrays, TeidsOwned, Grows, TeidValidate, Stuck, DbInv;
    GrowsSelf(s.db);
    assert SessionHolds(s', k);
    assert OwnRely(s, s', a);
    hide SessionHolds;
    KeysStay(s, s', a);
  }

  // A rule goes out for an accepted session, which is closed from then on.
  lemma RuleGoesOut(s: State, s': State, a: nat, k: Key)
    requires Own(s) && DbInv(s.db) && AcceptedOk(s) && s'.db == s.db && StuckStays(s, s') && s.nextId <= s'.nextId
    requires k in s.accepted
    requires s' == s.(txns := s'.txns, stray := s'.stray, rules := s.rules - {k}, closed := s.closed + {k})
    ensures OwnRely(s, s', a) && KeysOk(s')
  {
    hide OwnTxns, OwnStrays, TeidsOwned, Grows, TeidValidate, Stuck, DbInv, SessionHolds, ClaimsOk;
    GrowsSelf(s.db);
    assert OwnRely(s, s', a);
    KeysStay(s, s', a);
  }

  // What the transaction behind a VDP request knows.
  lemma VdpAsks(s: State, tid: nat)
    requires Core(s) && Own(s) && tid in s.txns && s.txns[tid].io.Sent?
    requires var cmd := s.txns[tid].io.cmd; cmd.VdpCreate? || cmd.VdpDelete?
    ensures var cmd := s.txns[tid].io.cmd; var t := s.txns[tid].t; var k := t.RecKey();
            && cmd.key == k
            && (if cmd.VdpCreate? then
                  && t.cb.EstVdpCb? && k in s.db.keys && CtxTeid(cmd.ctx) == TeidOf(s.db, k)
                  && Claimed(s, k.part, CtxTeid(cmd.ctx), ByTxn(tid)) && Open(s, k) && First(s.db, k).who == tid
                else t.cb.DelVdpCb? && k in s.accepted)
  {
    hide DbInv, AcceptedOk, PoolsOk, KeptOk, TicketsOk, StraysOk, TeidsOwned, ClaimsOk, OwnStrays, KeysOk;
    hide TeidValidate;
    hide ModOk, DelOk, Mine;
    var live := s.txns[tid];
    assert TxnOk(s, tid, live) && OwnTxn(s, tid, live);
    if live.io.cmd.VdpCreate? {
      CreatorOf(s, tid, live);
    }
  }

  lemma ExecVdpOwn(s: State, tid: nat, res: VdpResult)
    requires Core(s) && Own(s) && tid in s.txns && s.txns[tid].io.Sent?
    requires s.txns[tid].io.cmd.VdpCreate? || s.txns[tid].io.cmd.VdpDelete?
    ensures Own(DoExec(s, tid, res))
  {
    hide Core, DoExec, Grows, OwnRely, TeidsOwned, ClaimsOk, KeysOk, OwnTxns, OwnStrays, TeidValidate, TeidOf;
    hide First, DbInv, OwnTxn, OwnStray, Stuck, StuckStays;
    var live := s.txns[tid];
    var k := live.t.RecKey();
    var s' := DoExec(s, tid, res);
    CoreParts(s);
    VdpAsks(s, tid);
    VdpRuns(s, tid, res);
    OwnTxnNow(s, tid);
    StuckAfterAnswer(s, s', tid);
    if !res.Accept? {
      GrowsSelf(s.db);
      QuietOwn(s, s', tid);
    } else if live.io.cmd.VdpCreate? {
      RuleGoesIn(s, s', tid, k, live.io.cmd.ctx, ByTxn(tid));
    } else {
      RuleGoesOut(s, s', tid, k);
    }
    VdpOwnTxn(s, s', tid, res);
    AnswerIsOwn(s, s', tid);
  }

  lemma VdpOwnTxn(s: State, s': State, tid: nat, res: VdpResult)
    requires tid in s.txns && s'.accepted == s.accepted && (!res.Accept? ==> s'.claims == s.claims)
    requires !res.Accept? ==> s'.served == s.served && s'.closed == s.closed
    requires var t := s.txns[tid].t;
             || (t.cb.EstVdpCb? && (res.Accept? || OwnTxn(s, tid, s.txns[tid])) && s.txns[tid].io.Sent?)
             || (t.cb.DelVdpCb? && t.RecKey() in s.accepted && (res.Accept? ==> t.RecKey() in s'.closed))
    ensures OwnTxn(s', tid, s.txns[tid].(io := Got(Vdp(res))))
  {
  }

  lemma OwnTxnNow(s: State, tid: nat)
    requires Own(s) && tid in s.txns
    ensures OwnTxn(s, tid, s.txns[tid])
  {
  }

  // --- other answers ---

  lemma ExecQuietOwn(s: State, tid: nat, res: VdpResult)
    requires Core(s) && Own(s) && tid in s.txns && s.txns[tid].io.Sent?
    requires var cmd := s.txns[tid].io.cmd; cmd.GetCached? || cmd.ReadRec? || cmd.PersistRec? || cmd.VdpModify?
    ensures Own(DoExec(s, tid, res))
  {
    hide Core, DoExec, Grows, OwnRely, TeidsOwned, ClaimsOk, KeysOk, OwnTxns, OwnStrays, TeidValidate, DbInv;
    hide OwnTxn, OwnStray, Stuck, StuckStays;
    var live := s.txns[tid];
    var s' := DoExec(s, tid, res);
    CoreParts(s);
    QuietRuns(s, tid, res);
    ExecGrows(s, tid, res);
    OwnTxnNow(s, tid);
    StuckAfterAnswer(s, s', tid);
    QuietOwn(s, s', tid);
    QuietKinds(s, tid);
    QuietOwnTxn(s, s', tid, s'.txns[tid].io.r);
    AnswerIsOwn(s, s', tid);
  }

  lemma QuietKinds(s: State, tid: nat)
    requires Core(s) && tid in s.txns && s.txns[tid].io.Sent?
    requires var cmd := s.txns[tid].io.cmd; cmd.GetCached? || cmd.ReadRec? || cmd.PersistRec? || cmd.VdpModify?
    ensures Quiet(s.txns[tid].t.cb)
    ensures s.txns[tid].io.cmd.ReadRec? ==> s.txns[tid].io.cmd.key == s.txns[tid].t.RecKey()
  {
    hide DbInv, AcceptedOk, TicketsOk, PoolsOk, KeptOk, StraysOk, EstOk, ModOk, DelOk;
    assert TxnOk(s, tid, s.txns[tid]);
  }

  predicate Quiet(cb: Cb) {
    !cb.EstWriteCb? && !cb.EstVdpCb? && !cb.ModWriteCb? && !cb.DelVdpCb? && !cb.DelDeleteCb?
  }

  lemma QuietOwnTxn(s: State, s': State, tid: nat, r: Reply)
    requires tid in s.txns && Quiet(s.txns[tid].t.cb) && OwnTxn(s, tid, s.txns[tid]) && s'.accepted == s.accepted
    requires r == NotFound ==> !s'.db.Has(s.txns[tid].t.RecKey())
    ensures OwnTxn(s', tid, s.txns[tid].(io := Got(r)))
  {
  }

  lemma QuietRuns(s: State, tid: nat, res: VdpResult)
    requires tid in s.txns && s.txns[tid].io.Sent?
    requires var cmd := s.txns[tid].io.cmd; cmd.GetCached? || cmd.ReadRec? || cmd.PersistRec? || cmd.VdpModify?
    ensures var s' := DoExec(s, tid, res);
            && s' == s.(db := s'.db, txns := s'.txns)
            && (exists r :: s'.txns == s.txns[tid := s.txns[tid].(io := Got(r))])
            && (s'.txns[tid].io == Got(NotFound) ==>
                  s.txns[tid].io.cmd.ReadRec? && !s'.db.Has(s.txns[tid].io.cmd.key))
            && forall k :: k in s'.db.keys && s'.db.keys[k].erased ==> k in s.db.keys && s.db.keys[k].erased
  {
  }
}
