// Who answers for each TEID and each VDP rule, as long as requests name only
// accepted sessions and no TEID counter runs past its bound.
module OwnInv {
  import opened Wrappers
  import opened Seid
  import opened Flow
  import opened Store
  import opened IdPool
  import opened Cluster
  import opened CoreInv

  // The commit that created a record, and the TEID it was created with.
  function First(db: Db, k: Key): Commit
    requires k in db.keys
  {
    if |db.keys[k].hist| > 0 then db.keys[k].hist[0] else NO_TAG
  }

  function TeidOf(db: Db, k: Key): nat
    requires k in db.keys
  {
    if First(db, k).Create? then CtxTeid(First(db, k).data) else 0
  }

  predicate Claimed(s: State, part: nat, teid: nat, c: Claim) {
    teid in s.claims && s.claims[teid] == c && TeidValidate(teid) == Some(part)
  }

  // The VDP has not accepted this session, and still may.
  predicate Open(s: State, k: Key) { k !in s.served && k !in s.closed }

  // Its create request to the VDP was lost, or it is gone altogether.
  predicate Stuck(s: State, tid: nat) {
    tid in s.txns ==> s.txns[tid].t.cb.EstVdpCb? && s.txns[tid].io == Got(Err)
  }

  predicate OwnTxn(s: State, tid: nat, live: Live) {
    var t := live.t;
    match t.cb
    case EstLookupCb => true
    case EstWriteCb =>
      && Claimed(s, t.part, t.teid, ByTxn(tid))
      && (live.io.Got? && live.io.r.CasOk? ==> Open(s, t.RecKey()))
    case EstVdpCb =>
      live.io == Got(Vdp(Accept)) || live.io == Got(Err)
      || (Claimed(s, t.part, t.teid, ByTxn(tid)) && Open(s, t.RecKey()))
    case EstConfirmCb => true
    case DelVdpCb => t.RecKey() in s.accepted && (live.io == Got(Vdp(Accept)) ==> t.RecKey() in s.closed)
    case ModReadCb => t.RecKey() in s.accepted && (live.io == Got(NotFound) ==> !s.db.Has(t.RecKey()))
    case DelReadCb => t.RecKey() in s.accepted && (live.io == Got(NotFound) ==> !s.db.Has(t.RecKey()))
    case ModWriteCb => t.RecKey() in s.accepted && (live.io == Got(CasGone) ==> !s.db.Has(t.RecKey()))
    case DelDeleteCb =>
      && t.RecKey() in s.accepted && t.RecKey() in s.closed
      && (live.io == Got(CasGone) ==> !s.db.Has(t.RecKey()))
      && (live.io.Got? && live.io.r.CasOk? ==>
            t.ctx.Some? && Claimed(s, t.part, CtxTeid(t.ctx.value.val), ByTxn(tid)))
    case _ => t.RecKey() in s.accepted
  }

  predicate OwnStray(s: State, id: nat, x: Stray) {
    match x.cmd
    case PushTeid(part, teid) => Claimed(s, part, teid, ByPush(id))
    case VdpCreate(k, ctx) =>
      && k in s.db.keys && CtxTeid(ctx) == TeidOf(s.db, k)
      && Claimed(s, k.part, CtxTeid(ctx), BySession(k))
      && k !in s.closed && k !in s.accepted
      && First(s.db, k).who < s.nextId && Stuck(s, First(s.db, k).who)
    case VdpDelete(k) => k in s.accepted
    case DeleteRec(k, _) => k in s.closed
    case _ => true
  }

  // The TEIDs out of the pools are exactly those somebody answers for.
  ghost predicate ClaimsOk(teids: map<nat, Pool>, claims: map<nat, Claim>) {
    && (forall part: nat, id :: part < NUM_PARTS && IsOut(InPart(teids, part), id) ==> id in claims)
    && (forall id :: id in claims ==>
          TeidValidate(id).Some? && IsOut(InPart(teids, TeidValidate(id).value), id))
  }

  ghost predicate TeidsOwned(teids: map<nat, Pool>) {
    forall part: nat :: part < NUM_PARTS ==> Owned(Teids, part, InPart(teids, part))
  }

  // An accepted rule's session answers for its TEID until a delete commits.
  predicate SessionHolds(s: State, k: Key) {
    k in s.db.keys && (!s.db.keys[k].erased ==> Claimed(s, k.part, TeidOf(s.db, k), BySession(k)))
  }

  ghost predicate KeysOk(s: State) {
    && (forall k :: k in s.served ==> SessionHolds(s, k))
    && (forall k :: k in s.closed ==> k in s.db.keys)
    && s.rules <= s.served && s.rules !! s.closed
    && (forall k :: k in s.db.keys && s.db.keys[k].erased ==> k in s.closed)
  }

  ghost predicate OwnTxns(s: State) {
    forall tid :: tid in s.txns ==> OwnTxn(s, tid, s.txns[tid])
  }

  ghost predicate OwnStrays(s: State) {
    forall id :: id in s.stray ==> OwnStray(s, id, s.stray[id])
  }

  ghost predicate Own(s: State) {
    TeidsOwned(s.teids) && ClaimsOk(s.teids, s.claims) && KeysOk(s) && OwnTxns(s) && OwnStrays(s)
  }

  ghost predicate TeidsBounded(s: State) {
    forall part: nat :: part < NUM_PARTS ==> Bounded(Teids, s.TeidPool(part))
  }

  // --- what a step of `a` leaves to everybody else ---

  ghost predicate ClaimsStay(s: State, s': State, a: nat) {
    forall id :: id in s.claims ==>
      var c := s.claims[id];
      ((c.ByTxn? && c.tid != a) || (c.ByPush? && c.id != a)
       || (c.BySession? && !(c.key in s'.db.keys && s'.db.keys[c.key].erased))) ==>
        id in s'.claims && s'.claims[id] == c
  }

  // A session is served, closed or accepted only by its own creator, by a stray
  // create of a creator that is stuck, or by a deletion of an accepted session.
  ghost predicate MarksStay(s: State, s': State, a: nat) {
    && s.served <= s'.served && s.closed <= s'.closed && s.accepted <= s'.accepted
    && (forall k :: k in s'.served && k !in s.served ==>
          k in s.db.keys && (First(s.db, k).who == a || Stuck(s, First(s.db, k).who)))
    && (forall k :: k in s'.closed && k !in s.closed ==>
          k in s.db.keys && (k in s.accepted || (First(s.db, k).who == a && !Stuck(s, a))))
    && (forall k :: k in s'.accepted && k !in s.accepted ==>
          k in s.db.keys && First(s.db, k).who == a && !Stuck(s, a))
  }

  ghost predicate OwnRely(s: State, s': State, a: nat) {
    && Grows(s.db, s'.db) && s.nextId <= s'.nextId
    && ClaimsStay(s, s', a) && MarksStay(s, s', a)
    && (forall w: nat :: w < s.nextId && Stuck(s, w) ==> Stuck(s', w))
  }

  lemma OpenStays(s: State, s': State, a: nat, k: Key, o: nat)
    requires MarksStay(s, s', a) && Open(s, k) && AcceptedOk(s)
    requires k in s.db.keys && First(s.db, k).who == o && o != a && !Stuck(s, o)
    ensures Open(s', k)
  {
  }

  lemma CreatorOf(s: State, tid: nat, live: Live)
    requires TxnOk(s, tid, live)
    requires live.t.cb.EstVdpCb? || live.t.cb.EstConfirmCb?
             || (live.t.cb.EstWriteCb? && live.io.Got? && live.io.r.CasOk?)
    ensures live.t.RecKey() in s.db.keys && |s.db.keys[live.t.RecKey()].hist| > 0
    ensures First(s.db, live.t.RecKey()).who == tid
    ensures TeidOf(s.db, live.t.RecKey()) == live.t.teid
  {
  }

  lemma GoneStays(s: State, s': State, k: Key)
    requires AcceptedOk(s) && Grows(s.db, s'.db) && k in s.accepted && !s.db.Has(k)
    ensures !s'.db.Has(k)
  {
    assert LifeGrows(s.db.keys[k], s'.db.keys[k]);
  }

  lemma OwnTxnStays(s: State, s': State, a: nat, tid: nat, live: Live)
    requires tid in s.txns && s.txns[tid] == live && TxnOk(s, tid, live) && OwnTxn(s, tid, live)
    requires OwnRely(s, s', a) && tid != a && AcceptedOk(s)
    ensures OwnTxn(s', tid, live)
  {
    hide TxnOk, TeidValidate, Grows, AcceptedOk;
    var t := live.t;
    if t.RecKey() in s.accepted && !s.db.Has(t.RecKey()) {
      GoneStays(s, s', t.RecKey());
    }
    if t.cb.EstVdpCb? || t.cb.EstConfirmCb? || (t.cb.EstWriteCb? && live.io.Got? && live.io.r.CasOk?) {
      CreatorOf(s, tid, live);
      if !Stuck(s, tid) && Open(s, t.RecKey()) {
        OpenStays(s, s', a, t.RecKey(), tid);
      }
    }
  }

  lemma OwnStrayStays(s: State, s': State, a: nat, id: nat, x: Stray)
    requires OwnStray(s, id, x) && OwnRely(s, s', a) && id != a && DbInv(s.db)
    requires forall k :: k in s'.db.keys && s'.db.keys[k].erased ==> k in s'.closed
    ensures OwnStray(s', id, x)
  {
  }

  // Marks that only grow as the step says leave the rest in order.
  lemma KeysStay(s: State, s': State, a: nat)
    requires KeysOk(s) && OwnRely(s, s', a) && DbInv(s.db)
    requires forall k :: k in s'.served && k !in s.served ==> SessionHolds(s', k)
    requires s'.rules <= s'.served && s'.rules !! s'.closed
    requires forall k :: k in s'.db.keys && s'.db.keys[k].erased ==>
               k in s'.closed || (k in s.db.keys && s.db.keys[k].erased)
    ensures KeysOk(s')
  {
  }

  lemma AssembleOwn(s: State, s': State, a: nat)
    requires Core(s) && Own(s) && OwnRely(s, s', a)
    requires TeidsOwned(s'.teids) && ClaimsOk(s'.teids, s'.claims) && KeysOk(s')
    requires forall o :: o in s'.txns && o != a ==> o in s.txns && s'.txns[o] == s.txns[o]
    requires a in s'.txns ==> OwnTxn(s', a, s'.txns[a])
    requires a in s'.stray ==> a !in s.stray
    requires forall id :: id in s'.stray ==>
               (id in s.stray && s'.stray[id] == s.stray[id]) || OwnStray(s', id, s'.stray[id])
    ensures Own(s')
  {
    hide TxnOk, OwnTxn, OwnStray, ClaimsOk, TeidsOwned, OwnRely, PoolsOk, TicketsOk, DbInv, AcceptedOk;
    hide StraysOk, KeptOk;
    forall o | o in s'.txns && o != a ensures OwnTxn(s', o, s'.txns[o]) {
      OwnTxnStays(s, s', a, o, s.txns[o]);
    }
    forall id | id in s'.stray && id in s.stray && s'.stray[id] == s.stray[id]
      ensures OwnStray(s', id, s'.stray[id])
    {
      OwnStrayStays(s, s', a, id, s.stray[id]);
    }
  }
}
