// What every reachable state keeps, whatever is lost, late, repeated or
// crashed, and whatever SEIDs the requests name.
module CoreInv {
  import opened Wrappers
  import opened Seid
  import opened Flow
  import opened Store
  import opened IdPool
  import opened Cluster

  // --- what one transaction knows ---

  // The record exists and its create was this transaction's.
  ghost predicate Mine(db: Db, k: Key, tid: nat, data: Ctx) {
    k in db.keys && |db.keys[k].hist| > 0 && db.keys[k].hist[0] == Create(tid, data)
  }

  // A retry loop that read version `first` first: at least n commits of others
  // have landed since, and none of its own.
  ghost predicate Behind(db: Db, k: Key, tid: nat, first: nat, n: nat) {
    && k in db.keys && 1 <= first && first + n <= |db.keys[k].hist|
    && forall i :: first <= i < |db.keys[k].hist| ==> db.keys[k].hist[i].who != tid
  }

  // The loop before and after the read of its round: `ver` was read.
  ghost predicate Looping(db: Db, tid: nat, live: Live) {
    if live.first == 0 then live.t.casRetry == 0
    else Behind(db, live.t.RecKey(), tid, live.first, live.t.casRetry)
  }

  ghost predicate Round(db: Db, tid: nat, live: Live, ver: nat, data: Ctx) {
    && Seen(db, live.t.RecKey(), ver, data)
    && Behind(db, live.t.RecKey(), tid, live.first, live.t.casRetry)
    && live.first + live.t.casRetry <= ver
  }

  // What a read brings back, before the loop has recorded it.
  ghost predicate Fresh(db: Db, tid: nat, live: Live, data: Ctx, ver: nat) {
    && Seen(db, live.t.RecKey(), ver, data)
    && (if live.first == 0 then
          live.t.casRetry == 0 && Behind(db, live.t.RecKey(), tid, ver, 0)
        else Round(db, tid, live, ver, data))
  }

  ghost predicate LookupOk(db: Db, live: Live) {
    live.io.Got? && live.io.r.Hit? ==>
      (live.t.req.smf, live.t.req.sn, live.io.r.rsp) in db.produced
  }

  ghost predicate EstOk(s: State, tid: nat, live: Live)
    requires Wf(live.t)
  {
    var t := live.t;
    match t.cb
    case EstLookupCb => LookupOk(s.db, live)
    case EstWriteCb =>
      && t.ctx.value.val == Built(t.req, t.seid, t.teid)
      && (live.io.Sent? ==> t.RecKey() in s.tickets && s.tickets[t.RecKey()] == Hold(tid))
      && (live.io.Got? && !live.io.r.Err? ==>
            live.io.r == CasOk(1) && Mine(s.db, t.RecKey(), tid, t.ctx.value.val)
            && s.db.keys[t.RecKey()].born >= live.since)
    case EstVdpCb =>
      && t.ctx.value.val == Built(t.req, t.seid, t.teid)
      && Mine(s.db, t.RecKey(), tid, t.ctx.value.val) && t.dbVer == 1
      && s.db.keys[t.RecKey()].born >= live.since
      && (live.io == Got(Vdp(Accept)) ==> t.RecKey() in s.served)
    case EstConfirmCb =>
      && t.RecKey() in s.served
      && t.ctx.value.val == Built(t.req, t.seid, t.teid)
      && Mine(s.db, t.RecKey(), tid, t.ctx.value.val) && t.dbVer == 1
      && s.db.keys[t.RecKey()].born >= live.since
      && (live.io.Got? && live.io.r.Done? ==> s.db.keys[t.RecKey()].persisted.Some?)
    case _ => true
  }

  ghost predicate ModOk(s: State, tid: nat, live: Live)
    requires Wf(live.t)
  {
    var t := live.t;
    match t.cb
    case ModLookupCb => LookupOk(s.db, live) && live.first == 0 && t.casRetry == 0
    case ModReadCb =>
      && Looping(s.db, tid, live)
      && (live.io.Got? && live.io.r.Found? ==> Fresh(s.db, tid, live, live.io.r.data, live.io.r.ver))
    case ModWriteCb =>
      && Seen(s.db, t.RecKey(), t.dbVer, t.impl.value.val)
      && t.ctx.value.val == Changed(t.impl.value.val, t.req)
      && (live.io.Sent? ==> Round(s.db, tid, live, t.dbVer, t.impl.value.val))
      && (live.io.Got? && live.io.r.CasConflict? ==>
            Behind(s.db, t.RecKey(), tid, live.first, t.casRetry + 1))
      && (live.io.Got? && live.io.r.CasOk? ==>
            && live.io.r.newVer == t.dbVer + 1 && Standing(s.db, t.RecKey(), t.dbVer + 1, tid, t.req)
            && Seen(s.db, t.RecKey(), t.dbVer + 1, t.ctx.value.val))
    case ModVdpCb =>
      && Standing(s.db, t.RecKey(), t.dbVer, tid, t.req)
      && Seen(s.db, t.RecKey(), t.dbVer, t.ctx.value.val)
      && Seen(s.db, t.RecKey(), t.dbVer - 1, t.impl.value.val)
    case ModUndoCb =>
      live.io.Sent? && live.io.cmd.WriteRec? ==>
        && ChangedBy(s.db, t.RecKey(), t.dbVer, tid)
        && Seen(s.db, t.RecKey(), t.dbVer - 1, live.io.cmd.data)
    case _ => true
  }

  ghost predicate DelOk(s: State, tid: nat, live: Live)
    requires Wf(live.t)
  {
    var t := live.t;
    match t.cb
    case DelLookupCb => LookupOk(s.db, live) && live.first == 0 && t.casRetry == 0
    case DelReadCb =>
      && Looping(s.db, tid, live)
      && (live.io.Got? && live.io.r.Found? ==> Fresh(s.db, tid, live, live.io.r.data, live.io.r.ver))
    case DelVdpCb => Round(s.db, tid, live, t.dbVer, t.ctx.value.val)
    case DelDeleteCb =>
      && Round(s.db, tid, live, t.dbVer, t.ctx.value.val)
      && (live.io.Got? && live.io.r.CasConflict? ==>
            Behind(s.db, t.RecKey(), tid, live.first, t.casRetry + 1))
      && (live.io.Got? && live.io.r.CasOk? ==> s.db.Erased(t.RecKey()))
    case _ => true
  }

  ghost predicate TxnOk(s: State, tid: nat, live: Live) {
    && Wf(live.t) && live.since <= s.db.now
    && (live.io.Sent? ==> Asks(live.t, live.io.cmd))
    && (live.io.Got? ==> live.io.r.Err? || Fits(live.t.cb, live.io.r))
    && EstOk(s, tid, live) && ModOk(s, tid, live) && DelOk(s, tid, live)
  }

  // --- what a stray command knows ---

  predicate WriteCb(cb: Cb) {
    cb.EstWriteCb? || cb.ModWriteCb? || cb.ModUndoCb?
  }

  // The writer of a stray write has given up on it, or is about to.
  ghost predicate GaveUp(s: State, who: nat) {
    who < s.nextId && (who in s.txns ==> s.txns[who].io == Got(Err) && WriteCb(s.txns[who].t.cb))
  }

  ghost predicate StrayOk(s: State, id: nat, x: Stray) {
    match x.cmd
    case WriteRec(k, exp, data, pending) =>
      && GaveUp(s, x.tag.who)
      && (if exp == 0 then
            pending && x.tag.Create? && x.tag.data == data && k in s.tickets && s.tickets[k] == Hold(id)
          else WriteOk(s.db, k, exp, data, pending, x.tag) && (x.tag.Undo? ==> x.tag.who !in s.kept))
    case StoreRsp(smf, sn, rsp) => (smf, sn, rsp) in s.db.produced
    case PersistRec(k) => k in s.served
    case _ => true
  }

  // --- the rest of the state ---

  // Version n is this transaction's change, and its own undo is not above it.
  ghost predicate Standing(db: Db, k: Key, n: nat, who: nat, req: Req) {
    && ChangedBy(db, k, n, who) && db.keys[k].hist[n - 1].req == req
    && (n < |db.keys[k].hist| ==> !(db.keys[k].hist[n].Undo? && db.keys[k].hist[n].who == who))
  }

  // A key can be created only while its ticket is held, and its SEID is out.
  ghost predicate TicketsOk(s: State) {
    && (forall k :: k in s.db.keys ==> k in s.tickets)
    && (forall k :: k in s.tickets ==>
          && k.part < NUM_PARTS && IsOut(s.SeidPool(k.part), k.seid)
          && (s.tickets[k].Spent? <==> k in s.db.keys)
          && (s.tickets[k].Hold? ==> s.tickets[k].id < s.nextId))
  }

  ghost predicate PoolsOk(seids: map<nat, Pool>, teids: map<nat, Pool>) {
    && (forall part: nat :: part < NUM_PARTS ==>
          Shape(Seids, part, InPart(seids, part)) && Owned(Seids, part, InPart(seids, part)))
    && (forall part: nat :: part < NUM_PARTS ==> Shape(Teids, part, InPart(teids, part)))
  }

  ghost predicate AcceptedOk(s: State) {
    && (forall k :: k in s.accepted ==> k in s.db.keys && s.db.keys[k].persisted.Some?)
    && (forall k :: k in s.db.keys && s.db.keys[k].persisted.Some? ==> k in s.served)
  }

  ghost predicate KeptOk(s: State) {
    forall tid :: tid in s.kept ==>
      && tid < s.nextId && tid !in s.txns
      && Standing(s.db, s.kept[tid].key, s.kept[tid].ver, tid, s.kept[tid].req)
  }

  ghost predicate TxnsOk(s: State) {
    forall tid :: tid in s.txns ==> tid < s.nextId && TxnOk(s, tid, s.txns[tid])
  }

  ghost predicate StraysOk(s: State) {
    forall id :: id in s.stray ==> id < s.nextId && id !in s.txns && StrayOk(s, id, s.stray[id])
  }

  ghost predicate Core(s: State) {
    && DbInv(s.db) && TicketsOk(s) && PoolsOk(s.seids, s.teids) && AcceptedOk(s) && KeptOk(s)
    && TxnsOk(s) && StraysOk(s)
  }

  // --- what a step of `a` guarantees to everybody else ---

  // Commits that `a` adds are its own or of a writer that gave up, and undo no
  // accepted modification.
  ghost predicate NewBy(s: State, db': Db, a: nat) {
    forall k, i :: k in s.db.keys && k in db'.keys && |s.db.keys[k].hist| <= i < |db'.keys[k].hist| ==>
      var c := db'.keys[k].hist[i]; (c.who == a || GaveUp(s, c.who)) && !(c.Undo? && c.who in s.kept)
  }

  ghost predicate Rely(s: State, s': State, a: nat) {
    && Grows(s.db, s'.db) && NewBy(s, s'.db, a) && s.nextId <= s'.nextId && s.served <= s'.served
    && (forall k :: k in s.tickets && s.tickets[k].Hold? && s.tickets[k].id != a ==>
          k in s'.tickets && s'.tickets[k] == s.tickets[k])
    && (forall w :: GaveUp(s, w) ==> GaveUp(s', w))
    && (forall w :: w in s'.kept && w !in s.kept ==> w == a && !GaveUp(s, a))
  }

  // A loop that has not given up is not overtaken by itself.
  lemma BehindGrows(s: State, s': State, a: nat, k: Key, tid: nat, first: nat, n: nat)
    requires Behind(s.db, k, tid, first, n) && Rely(s, s', a)
    requires tid != a && !GaveUp(s, tid)
    ensures Behind(s'.db, k, tid, first, n)
  {
  }

  lemma StandingGrows(s: State, s': State, a: nat, k: Key, n: nat, who: nat, req: Req)
    requires Standing(s.db, k, n, who, req) && Rely(s, s', a)
    requires (who != a && !GaveUp(s, who)) || who in s.kept
    ensures Standing(s'.db, k, n, who, req)
  {
  }

  lemma EstStable(s: State, s': State, a: nat, tid: nat, live: Live)
    requires Wf(live.t) && EstOk(s, tid, live) && Rely(s, s', a) && tid != a
    ensures EstOk(s', tid, live)
  {
  }

  lemma RoundStable(s: State, s': State, a: nat, tid: nat, live: Live, ver: nat, data: Ctx)
    requires Round(s.db, tid, live, ver, data) && Rely(s, s', a) && tid != a && !GaveUp(s, tid)
    ensures Round(s'.db, tid, live, ver, data)
  {
    SeenGrows(s.db, s'.db, live.t.RecKey(), ver, data);
    BehindGrows(s, s', a, live.t.RecKey(), tid, live.first, live.t.casRetry);
  }

  lemma ReadStable(s: State, s': State, a: nat, tid: nat, live: Live)
    requires Looping(s.db, tid, live) && Rely(s, s', a) && tid != a && !GaveUp(s, tid)
    requires live.io.Got? && live.io.r.Found? ==> Fresh(s.db, tid, live, live.io.r.data, live.io.r.ver)
    ensures Looping(s'.db, tid, live)
    ensures live.io.Got? && live.io.r.Found? ==> Fresh(s'.db, tid, live, live.io.r.data, live.io.r.ver)
  {
    var k := live.t.RecKey();
    if live.first != 0 {
      BehindGrows(s, s', a, k, tid, live.first, live.t.casRetry);
    }
    if live.io.Got? && live.io.r.Found? {
      SeenGrows(s.db, s'.db, k, live.io.r.ver, live.io.r.data);
      if live.first == 0 {
        BehindGrows(s, s', a, k, tid, live.io.r.ver, 0);
      }
    }
  }

  lemma ModStable(s: State, s': State, a: nat, tid: nat, live: Live)
    requires tid in s.txns && s.txns[tid] == live
    requires Wf(live.t) && ModOk(s, tid, live) && Rely(s, s', a) && tid != a
    ensures ModOk(s', tid, live)
  {
    var t := live.t;
    var k := t.RecKey();
    match t.cb
    case ModReadCb => ReadStable(s, s', a, tid, live);
    case ModWriteCb =>
      SeenGrows(s.db, s'.db, k, t.dbVer, t.impl.value.val);
      if live.io.Sent? {
        RoundStable(s, s', a, tid, live, t.dbVer, t.impl.value.val);
      } else if live.io.r.CasConflict? {
        BehindGrows(s, s', a, k, tid, live.first, t.casRetry + 1);
      } else if live.io.r.CasOk? {
        StandingGrows(s, s', a, k, t.dbVer + 1, tid, t.req);
        SeenGrows(s.db, s'.db, k, t.dbVer + 1, t.ctx.value.val);
      }
    case ModVdpCb =>
      StandingGrows(s, s', a, k, t.dbVer, tid, t.req);
      SeenGrows(s.db, s'.db, k, t.dbVer, t.ctx.value.val);
      SeenGrows(s.db, s'.db, k, t.dbVer - 1, t.impl.value.val);
    case ModUndoCb =>
      if live.io.Sent? && live.io.cmd.WriteRec? {
        ChangedByGrows(s.db, s'.db, k, t.dbVer, tid);
        SeenGrows(s.db, s'.db, k, t.dbVer - 1, live.io.cmd.data);
      }
    case _ =>
  }

  lemma DelStable(s: State, s': State, a: nat, tid: nat, live: Live)
    requires tid in s.txns && s.txns[tid] == live
    requires Wf(live.t) && DelOk(s, tid, live) && Rely(s, s', a) && tid != a
    ensures DelOk(s', tid, live)
  {
    var t := live.t;
    var k := t.RecKey();
    match t.cb
    case DelReadCb => ReadStable(s, s', a, tid, live);
    case DelVdpCb => RoundStable(s, s', a, tid, live, t.dbVer, t.ctx.value.val);
    case DelDeleteCb =>
      RoundStable(s, s', a, tid, live, t.dbVer, t.ctx.value.val);
      if live.io.Got? && live.io.r.CasConflict? {
        BehindGrows(s, s', a, k, tid, live.first, t.casRetry + 1);
      }
    case _ =>
  }

  lemma StrayStable(s: State, s': State, a: nat, id: nat, x: Stray)
    requires StrayOk(s, id, x) && Rely(s, s', a) && id != a
    ensures StrayOk(s', id, x)
  {
    if x.cmd.WriteRec? && x.cmd.exp > 0 {
      WriteOkGrows(s.db, s'.db, x.cmd.key, x.cmd.exp, x.cmd.data, x.cmd.pending, x.tag);
    }
  }

  // A step keeps the invariant when it keeps the shared parts, honours what the
  // others rely on, and leaves its own transaction and strays in order.
  lemma Assemble(s: State, s': State, a: nat)
    requires Core(s) && Rely(s, s', a)
    requires a in s.txns || a >= s.nextId || (a in s.stray && a !in s'.stray && a !in s'.txns)
    requires DbInv(s'.db) && TicketsOk(s') && PoolsOk(s'.seids, s'.teids) && KeptOk(s') && AcceptedOk(s')
    requires forall o :: o in s'.txns && o != a ==> o in s.txns && s'.txns[o] == s.txns[o]
    requires a in s'.txns ==> a < s'.nextId && TxnOk(s', a, s'.txns[a])
    requires forall id :: id in s'.stray ==>
               (id in s.stray && s'.stray[id] == s.stray[id])
               || (s.nextId <= id < s'.nextId && id !in s'.txns && StrayOk(s', id, s'.stray[id]))
    ensures Core(s')
  {
    forall o | o in s'.txns && o != a ensures o < s'.nextId && TxnOk(s', o, s'.txns[o]) {
      var live := s.txns[o];
      assert TxnOk(s, o, live);
      EstStable(s, s', a, o, live);
      ModStable(s, s', a, o, live);
      DelStable(s, s', a, o, live);
    }
    forall id | id in s'.stray && id in s.stray && s'.stray[id] == s.stray[id]
      ensures id < s'.nextId && id !in s'.txns && StrayOk(s', id, s'.stray[id])
    {
      StrayStable(s, s', a, id, s.stray[id]);
    }
  }
}
