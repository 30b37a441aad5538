// The session records in Redis, the commands that touch them, and the history
// of committed writes each record carries as a ghost.
module Store {
  import opened Wrappers
  import opened Flow

  // Milliseconds: V_SESS_PENDING_TTL is 30 s, V_RETRANS_TTL is 10 s.
  const PENDING_TTL: nat := 30_000
  const RETRANS_TTL: nat := 10_000

  datatype Rec = Rec(ver: nat, data: Ctx, ttl: Option<nat>)

  // One committed write: which transaction wrote, and what it meant.
  datatype Commit =
    | Create(who: nat, data: Ctx)
    | Change(who: nat, req: Req)
    | Undo(who: nat)

  datatype Cached = Cached(rsp: Rsp, until: nat)

  // One session key that was ever written. `rec` is the hash now in Redis; the
  // rest is history: the committed writes, when the record was created, when
  // PERSIST first ran on the key, and whether a CAS delete removed it.
  datatype Life = Life(rec: Option<Rec>, hist: seq<Commit>, born: nat, persisted: Option<nat>,
                       erased: bool)

  // `produced` is history too: every response a finished transaction produced.
  datatype Db = Db(now: nat, keys: map<Key, Life>, cache: map<(nat, nat), Cached>,
                   produced: set<(nat, nat, Rsp)>)
  {
    predicate Has(k: Key) { k in keys && keys[k].rec.Some? }

    function At(k: Key): Rec requires Has(k) { keys[k].rec.value }

    predicate Erased(k: Key) { k in keys && keys[k].erased }

    function Set(k: Key, l: Life): Db { this.(keys := keys[k := l]) }
  }

  // --- what a history means ---

  // Version order, undone writes skipped as they are met.
  function Fold(h: seq<Commit>): Ctx {
    if h == [] then Blank
    else
      match h[|h| - 1]
      case Create(_, data) => data
      case Change(_, req) => Changed(Fold(h[..|h| - 1]), req)
      case Undo(_) => if |h| < 2 then Blank else Fold(h[..|h| - 2])
  }

  // A history starts with the one create, and an undo stands directly above
  // the change of the same transaction.
  predicate Lawful(h: seq<Commit>) {
    && |h| > 0 && h[0].Create?
    && (forall i :: 0 < i < |h| ==> !h[i].Create?)
    && (forall i :: 0 < i < |h| && h[i].Undo? ==> h[i - 1].Change? && h[i - 1].who == h[i].who)
  }

  // The requests whose change was not undone, in version order.
  function Survivors(h: seq<Commit>): seq<Req> {
    if h == [] then []
    else
      match h[|h| - 1]
      case Create(_, _) => []
      case Change(_, req) => Survivors(h[..|h| - 1]) + [req]
      case Undo(_) => if |h| < 2 then [] else Survivors(h[..|h| - 2])
  }

  function ChangeAll(c: Ctx, reqs: seq<Req>): Ctx {
    if reqs == [] then c else Changed(ChangeAll(c, reqs[..|reqs| - 1]), reqs[|reqs| - 1])
  }

  lemma LawfulPrefix(h: seq<Commit>, n: nat)
    requires Lawful(h) && 0 < n <= |h|
    ensures Lawful(h[..n])
  {
  }

  // The record's data is what the surviving changes make of the created data.
  lemma {:induction false} FoldIsSurvivors(h: seq<Commit>)
    requires Lawful(h)
    ensures Fold(h) == ChangeAll(h[0].data, Survivors(h))
    decreases |h|
  {
    var last := h[|h| - 1];
    match last
    case Create(_, _) =>
    case Change(_, req) =>
      FoldIsSurvivors(h[..|h| - 1]);
      var reqs := Survivors(h[..|h| - 1]) + [req];
      assert reqs[..|reqs| - 1] == Survivors(h[..|h| - 1]);
    case Undo(_) =>
      FoldIsSurvivors(h[..|h| - 2]);
  }

  // No request of a session changes its TEID.
  lemma {:induction false} FoldKeepsTeid(h: seq<Commit>)
    requires Lawful(h)
    ensures CtxTeid(Fold(h)) == CtxTeid(h[0].data)
    decreases |h|
  {
    var last := h[|h| - 1];
    match last
    case Create(_, _) =>
    case Change(_, req) => FoldKeepsTeid(h[..|h| - 1]);
    case Undo(_) => FoldKeepsTeid(h[..|h| - 2]);
  }

  // --- the commands ---

  // The CAS-write script (numeric form; LuaScripts proves the text form).
  function ExecWrite(db: Db, k: Key, exp: nat, data: Ctx, pending: bool, tag: Commit): (Db, Reply) {
    var deadline := Some(db.now + PENDING_TTL);
    if exp == 0 then
      if db.Has(k) then (db, CasConflict)
      else
        var rec := Some(Rec(1, data, if pending then deadline else None));
        var life := if k in db.keys then db.keys[k].(rec := rec, hist := db.keys[k].hist + [tag])
                    else Life(rec, [tag], db.now, None, false);
        (db.Set(k, life), CasOk(1))
    else if !db.Has(k) then (db, CasGone)
    else if db.At(k).ver != exp then (db, CasConflict)
    else
      var rec := Rec(exp + 1, data, if pending then deadline else db.At(k).ttl);
      (db.Set(k, db.keys[k].(rec := Some(rec), hist := db.keys[k].hist + [tag])), CasOk(exp + 1))
  }

  // The CAS-delete script.
  function ExecDelete(db: Db, k: Key, exp: nat): (Db, Reply) {
    if !db.Has(k) then (db, CasGone)
    else if db.At(k).ver != exp then (db, CasConflict)
    else (db.Set(k, db.keys[k].(rec := None, erased := true)), CasOk(0))
  }

  // PERSIST answers the same whether or not the record was there.
  function ExecPersist(db: Db, k: Key): (Db, Reply) {
    if k !in db.keys then (db, Done)
    else
      var life := db.keys[k];
      var stamped := life.(persisted := if life.persisted.Some? then life.persisted else Some(db.now));
      if life.rec.Some? then (db.Set(k, stamped.(rec := Some(life.rec.value.(ttl := None)))), Done)
      else (db.Set(k, stamped), Done)
  }

  function ExecRead(db: Db, k: Key): Reply {
    if db.Has(k) then Found(db.At(k).data, db.At(k).ver) else NotFound
  }

  function ExecGet(db: Db, smf: nat, sn: nat): Reply {
    if (smf, sn) in db.cache then Hit(db.cache[(smf, sn)].rsp) else Miss
  }

  function ExecSet(db: Db, smf: nat, sn: nat, rsp: Rsp): Db {
    db.(cache := db.cache[(smf, sn) := Cached(rsp, db.now + RETRANS_TTL)])
  }

  // Time passes and expired keys go.
  function Tick(db: Db, ms: nat): Db {
    var now := db.now + ms;
    db.(now := now,
        keys := map k | k in db.keys :: Expire(db.keys[k], now),
        cache := map c | c in db.cache && now < db.cache[c].until :: db.cache[c])
  }

  function Expire(l: Life, now: nat): Life {
    if l.rec.Some? && l.rec.value.ttl.Some? && l.rec.value.ttl.value <= now then l.(rec := None) else l
  }

  // --- the invariant of the records ---

  ghost predicate LifeOk(now: nat, l: Life) {
    && Lawful(l.hist)
    && l.born <= now && (l.persisted.Some? ==> l.persisted.value <= now)
    && (l.rec.Some? ==> l.rec.value.ver == |l.hist| && l.rec.value.data == Fold(l.hist))
    && (l.erased ==> l.rec.None?)
    && (!l.erased && l.persisted.None? ==>
          (l.rec.Some? <==> now < l.born + PENDING_TTL)
          && (l.rec.Some? ==> l.rec.value.ttl == Some(l.born + PENDING_TTL)))
    && (!l.erased && l.persisted.Some? ==>
          (l.rec.Some? <==> l.persisted.value < l.born + PENDING_TTL)
          && (l.rec.Some? ==> l.rec.value.ttl == None))
  }

  ghost predicate DbInv(db: Db) {
    && (forall k :: k in db.keys ==> LifeOk(db.now, db.keys[k]))
    && (forall c :: c in db.cache ==> (c.0, c.1, db.cache[c].rsp) in db.produced)
  }

  // A value read earlier: version n of the record, and the data it had then.
  ghost predicate Seen(db: Db, k: Key, n: nat, data: Ctx) {
    k in db.keys && 1 <= n <= |db.keys[k].hist| && data == Fold(db.keys[k].hist[..n])
  }

  // Version n of the record is a change written by `who`.
  ghost predicate ChangedBy(db: Db, k: Key, n: nat, who: nat) {
    && k in db.keys && 2 <= n <= |db.keys[k].hist|
    && db.keys[k].hist[n - 1].Change? && db.keys[k].hist[n - 1].who == who
  }

  // What a write that may still execute promises about itself.
  ghost predicate WriteOk(db: Db, k: Key, exp: nat, data: Ctx, pending: bool, tag: Commit) {
    if exp == 0 then k !in db.keys && pending && tag.Create? && tag.data == data
    else
      && !pending && !tag.Create?
      && (tag.Change? ==> data.Changed? && data.req == tag.req && Seen(db, k, exp, data.base))
      && (tag.Undo? ==> ChangedBy(db, k, exp, tag.who) && Seen(db, k, exp - 1, data))
  }

  // A life only gains history, and a record that is gone stays gone.
  ghost predicate LifeGrows(l: Life, l': Life) {
    && l.hist <= l'.hist
    && l'.born == l.born
    && (l.persisted.Some? ==> l'.persisted == l.persisted)
    && (l.erased ==> l'.erased)
    && (l.rec.None? ==> l'.rec.None?)
  }

  ghost predicate Grows(db: Db, db': Db) {
    && db.now <= db'.now
    && (forall k :: k in db.keys ==> k in db'.keys && LifeGrows(db.keys[k], db'.keys[k]))
    && db.produced <= db'.produced
  }

  lemma FoldLast(h: seq<Commit>, tag: Commit)
    requires Lawful(h) && !tag.Create?
    requires tag.Undo? ==> |h| >= 2 && h[|h| - 1].Change? && h[|h| - 1].who == tag.who
    ensures Lawful(h + [tag])
    ensures tag.Change? ==> Fold(h + [tag]) == Changed(Fold(h), tag.req)
    ensures tag.Undo? ==> Fold(h + [tag]) == Fold(h[..|h| - 1])
  {
    var h' := h + [tag];
    assert h'[..|h'| - 1] == h;
    assert h'[..|h'| - 2] == h[..|h| - 1];
  }

  lemma CommitKeepsLife(now: nat, l: Life, data: Ctx, tag: Commit)
    requires LifeOk(now, l) && l.rec.Some? && !tag.Create?
    requires tag.Change? ==> data == Changed(Fold(l.hist), tag.req)
    requires tag.Undo? ==> |l.hist| >= 2 && l.hist[|l.hist| - 1].Change?
                           && l.hist[|l.hist| - 1].who == tag.who
                           && data == Fold(l.hist[..|l.hist| - 1])
    ensures var l' := l.(rec := Some(Rec(l.rec.value.ver + 1, data, l.rec.value.ttl)), hist := l.hist + [tag]);
            LifeOk(now, l') && LifeGrows(l, l')
  {
    FoldLast(l.hist, tag);
  }

  lemma WriteKeeps(db: Db, k: Key, exp: nat, data: Ctx, pending: bool, tag: Commit)
    requires DbInv(db) && WriteOk(db, k, exp, data, pending, tag)
    ensures var (db', r) := ExecWrite(db, k, exp, data, pending, tag);
            && DbInv(db') && Grows(db, db')
            && (exp == 0 ==> r == CasOk(1) && k in db'.keys && db'.keys[k].hist == [tag] && db'.keys[k].born == db.now)
            && db'.now == db.now
            && (r.CasOk? && exp > 0 ==>
                  r == CasOk(exp + 1) && |db.keys[k].hist| == exp
                  && db'.keys[k].hist == db.keys[k].hist + [tag])
            && (!r.CasOk? ==> db' == db)
  {
    var (db', r) := ExecWrite(db, k, exp, data, pending, tag);
    if r.CasOk? && exp > 0 {
      var h := db.keys[k].hist;
      assert LifeOk(db.now, db.keys[k]) && |h| == exp;
      assert h[..exp] == h;
      CommitKeepsLife(db.now, db.keys[k], data, tag);
    }
  }

  lemma DeleteKeeps(db: Db, k: Key, exp: nat)
    requires DbInv(db)
    ensures var (db', r) := ExecDelete(db, k, exp);
            && DbInv(db') && Grows(db, db')
            && (r.CasOk? <==> db.Has(k) && db.At(k).ver == exp)
            && (r.CasOk? ==> db'.Erased(k) && !db'.Has(k))
            && (!r.CasOk? ==> db' == db)
            && (forall j :: j in db.keys && j != k ==> db'.keys[j] == db.keys[j])
            && db'.keys.Keys == db.keys.Keys
            && forall j :: j in db.keys ==> db'.keys[j].persisted == db.keys[j].persisted
  {
  }

  lemma PersistKeeps(db: Db, k: Key)
    requires DbInv(db)
    ensures var db' := ExecPersist(db, k).0;
            && DbInv(db') && Grows(db, db')
            && (k in db.keys ==> db'.keys[k].persisted.Some? && db'.keys[k].hist == db.keys[k].hist)
            && (db'.Has(k) <==> db.Has(k)) && (db.Has(k) ==> db'.At(k) == db.At(k).(ttl := None))
            && db'.keys.Keys == db.keys.Keys && (forall j :: j in db.keys && j != k ==> db'.keys[j] == db.keys[j])
  {
    var db' := ExecPersist(db, k).0;
    if k in db.keys {
      assert LifeOk(db.now, db.keys[k]);
      assert LifeOk(db'.now, db'.keys[k]);
    }
  }

  lemma TickKeeps(db: Db, ms: nat)
    requires DbInv(db)
    ensures DbInv(Tick(db, ms)) && Grows(db, Tick(db, ms))
  {
    var db' := Tick(db, ms);
    forall k | k in db'.keys ensures LifeOk(db'.now, db'.keys[k]) {
      LifeAges(db.now, db'.now, db.keys[k]);
    }
    hide LifeOk;
  }

  lemma LifeAges(now: nat, later: nat, l: Life)
    requires LifeOk(now, l) && now <= later
    ensures LifeOk(later, Expire(l, later)) && LifeGrows(l, Expire(l, later))
  {
  }

  // Exactly the records past their deadline go; the others are as they were.
  lemma TickExpires(db: Db, ms: nat, k: Key)
    ensures var db' := Tick(db, ms);
            && (db'.Has(k) <==> db.Has(k) && (db.At(k).ttl.Some? ==> db.now + ms < db.At(k).ttl.value))
            && (db'.Has(k) ==> db'.At(k) == db.At(k))
  {
  }

  lemma SeenGrows(db: Db, db': Db, k: Key, n: nat, data: Ctx)
    requires Seen(db, k, n, data) && Grows(db, db')
    ensures Seen(db', k, n, data)
  {
    assert LifeGrows(db.keys[k], db'.keys[k]);
    assert db'.keys[k].hist[..n] == db.keys[k].hist[..n];
  }

  lemma ChangedByGrows(db: Db, db': Db, k: Key, n: nat, who: nat)
    requires ChangedBy(db, k, n, who) && Grows(db, db')
    ensures ChangedBy(db', k, n, who)
  {
  }

  lemma WriteOkGrows(db: Db, db': Db, k: Key, exp: nat, data: Ctx, pending: bool, tag: Commit)
    requires WriteOk(db, k, exp, data, pending, tag) && Grows(db, db') && exp > 0
    ensures WriteOk(db', k, exp, data, pending, tag)
  {
    if tag.Change? {
      SeenGrows(db, db', k, exp, data.base);
    } else {
      ChangedByGrows(db, db', k, exp, tag.who);
      SeenGrows(db, db', k, exp - 1, data);
    }
  }
}
