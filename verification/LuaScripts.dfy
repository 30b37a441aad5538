// The three Lua scripts of src/v_db_script/inc/v_db_lua_scripts.h as they run
// in Redis, on text: versions are decimal strings compared as strings. Each is
// proved to refine the numeric command the cluster uses.
module LuaScripts {
  import opened Wrappers
  import opened Seid
  import opened Flow
  import opened Store
  import opened IdPool
  import opened Text

  // A session hash: its two fields and when it expires.
  datatype Hash = Hash(ver: string, data: Ctx, expires: Option<nat>)

  class Redis {
    var now: nat
    var hashes: map<string, Hash>
    var lists: map<string, seq<string>>
    var counters: map<string, int>
    var strings: map<string, Cached>

    constructor ()
      ensures Holds(Db(0, map[], map[], {})) && HoldsCache(Db(0, map[], map[], {}))
      ensures lists == map[] && counters == map[]
    {
      now := 0;
      hashes, lists, counters, strings := map[], map[], map[], map[];
    }

    // The records as text: version, data and deadline of every session.
    ghost predicate Holds(db: Db)
      reads this
    {
      TextOf(now, hashes, db)
    }

    // The cached responses as text.
    ghost predicate HoldsCache(db: Db)
      reads this
    {
      now == db.now && CacheOf(strings, db)
    }

    // EXPIRE, in seconds.
    method Expire(key: string, seconds: string)
      requires key in hashes
      modifies this`hashes
      ensures hashes == old(hashes)[key := old(hashes)[key].(expires := Some(now + 1000 * Number(seconds)))]
    {
      hashes := hashes[key := hashes[key].(expires := Some(now + 1000 * Number(seconds)))];
    }

    // HSET of both fields leaves the deadline of an existing key alone.
    method HSet(key: string, ver: string, data: Ctx)
      modifies this`hashes
      ensures hashes == old(hashes)[
                key := Hash(ver, data, if key in old(hashes) then old(hashes)[key].expires else None)]
    {
      hashes := hashes[key := Hash(ver, data, if key in hashes then hashes[key].expires else None)];
    }

    // The CAS-write script.
    method SessCasWrite(key: string, expected: string, data: Ctx, ttl: string) returns (r: int)
      modifies this`hashes
      ensures (r, hashes) == CasWriteText(now, old(hashes), key, expected, data, ttl)
    {
      var v := if key in hashes then Some(hashes[key].ver) else None;
      if expected == "0" {
        if v.Some? { return 0; }
        HSet(key, "1", data);
        if ttl != "0" { Expire(key, ttl); }
        assert hashes == old(hashes)[key := hashes[key]];
        return 1;
      }
      if v.None? { return -1; }
      if v.value != expected { return 0; }
      HSet(key, Decimal(Number(v.value) + 1), data);
      if ttl != "0" { Expire(key, ttl); }
      assert hashes == old(hashes)[key := hashes[key]];
      return 1;
    }

    // The CAS-delete script.
    method SessDelete(key: string, expected: string) returns (r: int)
      modifies this`hashes
      ensures (r, hashes) == CasDeleteText(old(hashes), key, expected)
    {
      var v := if key in hashes then Some(hashes[key].ver) else None;
      if v.None? { return -1; }
      if v.value != expected { return 0; }
      hashes := hashes - {key};
      return 1;
    }

    function List(key: string): seq<string> reads this { if key in lists then lists[key] else [] }

    function Counter(key: string): int reads this { if key in counters then counters[key] else 0 }

    // The refill script: a tagged reply.
    method TeidRefill(freeKey: string, nextKey: string, blk: string, floor: string) returns (reply: seq<string>)
      modifies this`lists, this`counters
      ensures reply == RefillText(old(List(freeKey)), old(Counter(nextKey)), Number(blk), Number(floor), blk).0
      ensures List(freeKey) == RefillText(old(List(freeKey)), old(Counter(nextKey)), Number(blk), Number(floor), blk).1
      ensures forall k :: k != freeKey ==> List(k) == old(List(k))
      ensures counters == if reply[0] == "range" then old(counters)[nextKey := old(Counter(nextKey)) + Number(blk)]
                          else old(counters)
    {
      hide Number, Signed, Decimal;
      var out: seq<string> := [];
      if |List(freeKey)| > Number(floor) {
        var i := 0;
        while i < Number(blk)
          invariant 0 <= i <= Number(blk) && i <= old(|List(freeKey)|)
          invariant out == old(List(freeKey))[..i]
          invariant List(freeKey) == old(List(freeKey))[i..]
          invariant forall k :: k != freeKey ==> List(k) == old(List(k))
          invariant counters == old(counters)
        {
          if List(freeKey) == [] { break; }
          out := out + [List(freeKey)[0]];
          lists := lists[freeKey := List(freeKey)[1..]];
          i := i + 1;
        }
      }
      assert "list" != "range" by { assert |"list"| != |"range"|; }
      if out == [] {
        counters := counters[nextKey := Counter(nextKey) + Number(blk)];
        return ["range", Signed(Counter(nextKey) - Number(blk)), blk];
      }
      return ["list"] + out;
    }

    // RPUSH
    method Push(key: string, value: string)
      modifies this`lists
      ensures List(key) == old(List(key)) + [value]
      ensures forall k :: k != key ==> List(k) == old(List(k))
    {
      lists := lists[key := List(key) + [value]];
    }

    // --- as the client calls them ---

    // v_sess_cas_write: key, version and TTL as text.
    method CasWrite(k: Key, exp: nat, data: Ctx, pending: bool, ghost db: Db, ghost tag: Commit) returns (r: int)
      requires Holds(db) && Positive(db)
      modifies this`hashes
      ensures var w := ExecWrite(db, k, exp, data, pending, tag);
              Holds(w.0) && Positive(w.0) && r == Code(w.1)
    {
      CasWriteRefines(now, hashes, db, k, exp, data, pending, tag);
      r := SessCasWrite(SessKey(k), Decimal(exp), data, TtlText(pending));
    }

    // v_sess_delete
    method CasDelete(k: Key, exp: nat, ghost db: Db) returns (r: int)
      requires Holds(db) && Positive(db)
      modifies this`hashes
      ensures var w := ExecDelete(db, k, exp);
              Holds(w.0) && Positive(w.0) && r == Code(w.1)
    {
      CasDeleteRefines(now, hashes, db, k, exp);
      r := SessDelete(SessKey(k), Decimal(exp));
    }

    // v_sess_confirm: PERSIST
    method Persist(k: Key, ghost db: Db)
      requires Holds(db) && Positive(db)
      modifies this`hashes
      ensures Holds(ExecPersist(db, k).0) && Positive(ExecPersist(db, k).0)
    {
      PersistRefines(now, hashes, db, k);
      var key := SessKey(k);
      if key in hashes {
        hashes := hashes[key := hashes[key].(expires := None)];
      }
    }

    // Time passes and expired keys go.
    method PassTime(ms: nat, ghost db: Db)
      requires Holds(db) && Positive(db)
      modifies this`now, this`hashes, this`strings
      ensures Holds(Tick(db, ms)) && Positive(Tick(db, ms))
      ensures old(HoldsCache(db)) ==> HoldsCache(Tick(db, ms))
    {
      TickRefines(now, hashes, db, ms);
      CacheTicks(strings, db, ms);
      now := now + ms;
      hashes := Unexpired(hashes, now);
      strings := map key | key in strings && now < strings[key].until :: strings[key];
    }

    // v_retrans_store: SETEX with the TTL as text.
    method StoreRsp(smf: nat, sn: nat, rsp: Rsp, ghost db: Db)
      requires smf < U64 && HoldsCache(db)
      modifies this`strings
      ensures HoldsCache(ExecSet(db, smf, sn, rsp))
    {
      CacheKeysAreApart(smf, sn);
      Seconds();
      var part := RetransPart(smf);
      strings := strings[RetransKey(part, smf, sn) := Cached(rsp, now + 1000 * Number("10"))];
      hide CacheKey, Number;
    }

    // v_retrans_lookup: GET; None is NIL.
    method GetRsp(smf: nat, sn: nat, ghost db: Db) returns (bytes: Option<Rsp>)
      requires smf < U64 && HoldsCache(db)
      ensures bytes == Fetch(strings, smf, sn)
      ensures ExecGet(db, smf, sn) == if bytes.Some? then Hit(bytes.value) else Miss
    {
      var part := RetransPart(smf);
      var key := RetransKey(part, smf, sn);
      bytes := if key in strings then Some(strings[key].rsp) else None;
    }

    // A partition's free list and counter as text. Nobody leased yet, so the
    // counter is absent, or seeded to 1.
    ghost predicate HoldsIds(part: nat, p: Pool)
      reads this
    {
      && List(FreeKey(part)) == TextAll(Locals(p.free))
      && (if p.next.Some? then NextKey(part) in counters && counters[NextKey(part)] == p.next.value
          else NextKey(part) in counters ==> counters[NextKey(part)] == 1)
    }

    predicate Seeded(part: nat) reads this { NextKey(part) in counters }

    // The SETNX before a partition's first refill.
    method Seed(part: nat, ghost p: Pool)
      requires HoldsIds(part, p)
      modifies this`counters
      ensures HoldsIds(part, p) && Seeded(part)
      ensures forall q, other :: q != part && old(HoldsIds(q, other)) ==> HoldsIds(q, other)
    {
      forall q | q != part ensures NextKey(q) != NextKey(part) { IdKeysAreApart(q, part); }
      if NextKey(part) !in counters {
        counters := counters[NextKey(part) := 1];
      }
    }

    // v_teid_free
    method FreeTeid(part: nat, teid: nat, ghost p: Pool)
      requires HoldsIds(part, p)
      modifies this`lists
      ensures HoldsIds(part, Free(p, teid))
      ensures forall q, other :: q != part && old(HoldsIds(q, other)) ==> HoldsIds(q, other)
    {
      forall q | q != part ensures FreeKey(q) != FreeKey(part) { IdKeysAreApart(q, part); }
      PushRefines(p, teid);
      Push(FreeKey(part), Decimal(TeidLocal(teid)));
    }

    // teid_maybe_refill's EVALSHA: the reply names what the pool hands out, and
    // the pool it leaves is the pool's.
    method RefillTeids(part: nat, blk: nat, floor: nat, ghost p: Pool) returns (reply: seq<string>)
      requires HoldsIds(part, p) && blk > 0
      modifies this`lists, this`counters
      ensures |reply| > 0 && (reply[0] == "range" ==> |reply| == 3)
      ensures var w := Script(Teids, p, old(Seeded(part)), blk, floor);
              ReplyLocals(reply) == w.1 && HoldsIds(part, w.0)
      ensures forall q, other :: q != part && old(HoldsIds(q, other)) ==> HoldsIds(q, other)
    {
      forall q | q != part ensures FreeKey(q) != FreeKey(part) && NextKey(q) != NextKey(part) {
        IdKeysAreApart(q, part);
      }
      RefillRefines(p, blk, floor, Seeded(part));
      NumberOfDecimal(blk);
      NumberOfDecimal(floor);
      reply := TeidRefill(FreeKey(part), NextKey(part), Decimal(blk), Decimal(floor));
    }

    // The SEID counter of a partition.
    ghost predicate HoldsSeids(part: nat, p: Pool)
      reads this
    {
      Counter(SeidNextKey(part)) == if p.next.Some? then p.next.value else 0
    }

    // seid_maybe_refill's INCRBY: the counter's new value ends the block leased.
    method LeaseSeids(part: nat, blk: nat, ghost p: Pool) returns (end: int)
      requires HoldsSeids(part, p)
      modifies this`counters
      ensures var w := Script(Seids, p, false, blk, 0);
              HoldsSeids(part, w.0) && w.0.next == Some(end)
      ensures forall q, other :: q != part && old(HoldsSeids(q, other)) ==> HoldsSeids(q, other)
      ensures forall q, other :: old(HoldsIds(q, other)) ==> HoldsIds(q, other)
    {
      forall q ensures q != part ==> SeidNextKey(q) != SeidNextKey(part)
               ensures NextKey(q) != SeidNextKey(part)
      {
        IdKeysAreApart(q, part);
      }
      end := Counter(SeidNextKey(part)) + blk;
      counters := counters[SeidNextKey(part) := end];
    }
  }

  // --- what the scripts do, on text ---

  function CasWriteText(now: nat, hashes: map<string, Hash>, key: string, expected: string, data: Ctx, ttl: string)
    : (int, map<string, Hash>)
  {
    var was := if key in hashes then hashes[key].expires else None;
    var expires := if ttl != "0" then Some(now + 1000 * Number(ttl)) else was;
    if expected == "0" then
      if key in hashes then (0, hashes) else (1, hashes[key := Hash("1", data, expires)])
    else if key !in hashes then (-1, hashes)
    else if hashes[key].ver != expected then (0, hashes)
    else (1, hashes[key := Hash(Decimal(Number(hashes[key].ver) + 1), data, expires)])
  }

  function CasDeleteText(hashes: map<string, Hash>, key: string, expected: string): (int, map<string, Hash>) {
    if key !in hashes then (-1, hashes)
    else if hashes[key].ver != expected then (0, hashes)
    else (1, hashes - {key})
  }

  function Signed(n: int): string { if n < 0 then "-" + Decimal(-n) else Decimal(n) }

  // The reply and the free list it leaves.
  function RefillText(free: seq<string>, next: int, blk: nat, floor: nat, blkText: string): (seq<string>, seq<string>) {
    var n := if |free| <= floor then 0 else if blk <= |free| then blk else |free|;
    if n == 0 then (["range", Signed(next), blkText], free)
    else (["list"] + free[..n], free[n..])
  }

  // --- CAS on text refines CAS on numbers ---

  // The integer a script returns for each outcome.
  function Code(r: Reply): int {
    match r
    case CasOk(_) => 1
    case CasConflict => 0
    case _ => -1
  }

  function TtlText(pending: bool): string { if pending then "30" else "0" }

  ghost predicate TextOf(now: nat, hashes: map<string, Hash>, db: Db) {
    && now == db.now
    && (forall k :: db.Has(k) <==> SessKey(k) in hashes)
    && (forall k :: db.Has(k) ==> hashes[SessKey(k)] == Hash(Decimal(db.At(k).ver), db.At(k).data, db.At(k).ttl))
  }

  lemma Seconds()
    ensures Number("30") == 30 && 1000 * Number("30") == PENDING_TTL && "30" != "0"
    ensures 1000 * Number("10") == RETRANS_TTL
  {
    assert Decimal(30) == "30" && Decimal(10) == "10";
    NumberOfDecimal(30);
    NumberOfDecimal(10);
  }

  // Every cached response is under its request's key, and no other request's key
  // is there.
  ghost predicate CacheOf(strings: map<string, Cached>, db: Db) {
    forall smf: nat, sn: nat ::
      && ((smf, sn) in db.cache <==> CacheKey(smf, sn) in strings)
      && ((smf, sn) in db.cache ==> strings[CacheKey(smf, sn)] == db.cache[(smf, sn)])
  }

  // What GET brings back.
  function Fetch(strings: map<string, Cached>, smf: nat, sn: nat): Option<Rsp> {
    if CacheKey(smf, sn) in strings then Some(strings[CacheKey(smf, sn)].rsp) else None
  }

  // Redis expires exactly the entries that are past their time.
  lemma CacheTicks(strings: map<string, Cached>, db: Db, ms: nat)
    ensures CacheOf(strings, db) ==>
              CacheOf(map key | key in strings && db.now + ms < strings[key].until :: strings[key], Tick(db, ms))
  {
    hide CacheKey;
  }

  // What the script does to the hash of one session is what the numeric CAS
  // write does to its record: same outcome, same version, data and deadline. A
  // record's version is at least 1, so "0" is never the version of a record.
  lemma CasWriteRefines(now: nat, hashes: map<string, Hash>, db: Db, k: Key, exp: nat, data: Ctx, pending: bool,
                        tag: Commit)
    requires TextOf(now, hashes, db) && (db.Has(k) ==> db.At(k).ver >= 1)
    ensures var (db', r) := ExecWrite(db, k, exp, data, pending, tag);
            var (code, hashes') := CasWriteText(now, hashes, SessKey(k), Decimal(exp), data, TtlText(pending));
            code == Code(r) && TextOf(now, hashes', db')
  {
    hide TextOf;
    var (db', r) := ExecWrite(db, k, exp, data, pending, tag);
    var (code, hashes') := CasWriteText(now, hashes, SessKey(k), Decimal(exp), data, TtlText(pending));
    Seconds();
    SameTextSameNumber(exp, 0);
    TextHere(now, hashes, db, k);
    if db.Has(k) {
      SameTextSameNumber(db.At(k).ver, exp);
      NumberOfDecimal(db.At(k).ver);
    }
    assert Decimal(1) == "1";
    if r.CasOk? {
      PutText(now, hashes, db, k, db'.keys[k]);
      assert hashes' == hashes[SessKey(k) := HashOf(db'.At(k))];
    }
  }

  function HashOf(rec: Rec): Hash { Hash(Decimal(rec.ver), rec.data, rec.ttl) }

  lemma TextHere(now: nat, hashes: map<string, Hash>, db: Db, k: Key)
    requires TextOf(now, hashes, db)
    ensures now == db.now && (db.Has(k) <==> SessKey(k) in hashes)
    ensures db.Has(k) ==> hashes[SessKey(k)] == HashOf(db.At(k))
  {
  }

  // One session's hash and record change together.
  lemma PutText(now: nat, hashes: map<string, Hash>, db: Db, k: Key, l: Life)
    requires TextOf(now, hashes, db)
    ensures l.rec.Some? ==> TextOf(now, hashes[SessKey(k) := HashOf(l.rec.value)], db.Set(k, l))
    ensures l.rec.None? ==> TextOf(now, hashes - {SessKey(k)}, db.Set(k, l))
  {
    OthersKeepText(k);
    hide SessKey, Decimal;
  }

  lemma OthersKeepText(k: Key)
    ensures forall j :: j != k ==> SessKey(j) != SessKey(k)
  {
    forall j | j != k ensures SessKey(j) != SessKey(k) {
      SessKeysAreApart(j, k);
    }
  }

  lemma CasDeleteRefines(now: nat, hashes: map<string, Hash>, db: Db, k: Key, exp: nat)
    requires TextOf(now, hashes, db)
    ensures var (db', r) := ExecDelete(db, k, exp);
            var (code, hashes') := CasDeleteText(hashes, SessKey(k), Decimal(exp));
            code == Code(r) && TextOf(now, hashes', db')
  {
    hide TextOf;
    TextHere(now, hashes, db, k);
    if db.Has(k) {
      SameTextSameNumber(db.At(k).ver, exp);
      PutText(now, hashes, db, k, db.keys[k].(rec := None, erased := true));
    }
  }

  function Unexpired(hashes: map<string, Hash>, now: nat): map<string, Hash> {
    map key | key in hashes && !(hashes[key].expires.Some? && hashes[key].expires.value <= now) :: hashes[key]
  }

  lemma TickRefines(now: nat, hashes: map<string, Hash>, db: Db, ms: nat)
    requires TextOf(now, hashes, db) && Positive(db)
    ensures TextOf(now + ms, Unexpired(hashes, now + ms), Tick(db, ms)) && Positive(Tick(db, ms))
  {
    var db' := Tick(db, ms);
    forall k ensures db'.Has(k) <==> SessKey(k) in Unexpired(hashes, now + ms)
             ensures db'.Has(k) ==> db'.At(k) == db.At(k)
    {
      TickExpires(db, ms, k);
      TextHere(now, hashes, db, k);
    }
  }

  // Every record's version is at least 1.
  ghost predicate Positive(db: Db) { forall k :: db.Has(k) ==> db.At(k).ver >= 1 }

  lemma PersistRefines(now: nat, hashes: map<string, Hash>, db: Db, k: Key)
    requires TextOf(now, hashes, db) && Positive(db)
    ensures var key := SessKey(k); var db' := ExecPersist(db, k).0;
            TextOf(now, if key in hashes then hashes[key := hashes[key].(expires := None)] else hashes, db')
            && Positive(db')
  {
    TextHere(now, hashes, db, k);
    if db.Has(k) {
      var l := ExecPersist(db, k).0.keys[k];
      PutText(now, hashes, db, k, l);
      assert HashOf(l.rec.value) == hashes[SessKey(k)].(expires := None);
    }
  }

  // The version the client computes from the one it expected is the version the
  // script stored.
  lemma ClientKnowsNewVersion(now: nat, hashes: map<string, Hash>, key: string, exp: nat, data: Ctx, ttl: string)
    ensures var (code, hashes') := CasWriteText(now, hashes, key, Decimal(exp), data, ttl);
            code == 1 ==>
              && key in hashes'
              && hashes'[key].ver == Decimal(if exp == 0 then 1 else exp + 1)
              && Number(hashes'[key].ver) == (if exp == 0 then 1 else exp + 1)
  {
    SameTextSameNumber(exp, 0);
    NumberOfDecimal(exp);
    NumberOfDecimal(1);
    NumberOfDecimal(exp + 1);
    assert Decimal(1) == "1";
  }

  // --- the refill script refines the pool's ---

  function TextAll(ns: seq<nat>): seq<string> { seq(|ns|, i requires 0 <= i < |ns| => Decimal(ns[i])) }

  function Locals(free: seq<Freed>): seq<nat> { seq(|free|, i requires 0 <= i < |free| => free[i].local) }

  function NumberAll(ts: seq<string>): seq<nat> { seq(|ts|, i requires 0 <= i < |ts| => Number(ts[i])) }

  lemma NumbersOfText(ns: seq<nat>)
    ensures NumberAll(TextAll(ns)) == ns
  {
    forall i | 0 <= i < |ns| ensures NumberAll(TextAll(ns))[i] == ns[i] {
      NumberOfDecimal(ns[i]);
    }
  }

  // The local indices a reply stands for.
  function ReplyLocals(reply: seq<string>): seq<nat>
    requires |reply| > 0 && (reply[0] == "range" ==> |reply| == 3)
  {
    if reply[0] == "range" then
      var base := Number(reply[1]);
      seq(Number(reply[2]), i requires 0 <= i => base + i)
    else NumberAll(reply[1..])
  }

  // What the counter reads when the script runs.
  function CounterOf(p: Pool, seeded: bool): nat {
    if p.next.Some? then p.next.value else if seeded then 1 else 0
  }

  // The script's reply names exactly the indices the pool hands out, and it
  // leaves the same free list; the counter moves only when a block was leased.
  lemma RefillRefines(p: Pool, blk: nat, floor: nat, seeded: bool)
    requires blk > 0
    ensures var (reply, free) := RefillText(TextAll(Locals(p.free)), CounterOf(p, seeded), blk, floor, Decimal(blk));
            var (p', locals) := Script(Teids, p, seeded, blk, floor);
            && |reply| > 0 && (reply[0] == "range" ==> |reply| == 3) && ReplyLocals(reply) == locals
            && free == TextAll(Locals(p'.free))
            && p'.next == (if reply[0] == "range" then Some(CounterOf(p, seeded) + blk) else p.next)
  {
    hide TextAll, Locals, NumberAll, Decimal, ReplyLocals;
    assert |TextAll(Locals(p.free))| == |p.free| by { TextLength(p.free); }
    if |p.free| > floor {
      PopRefines(p, blk, floor, seeded);
    } else {
      LeaseRefines(CounterOf(p, seeded), blk);
    }
  }

  lemma TextLength(free: seq<Freed>)
    ensures |TextAll(Locals(free))| == |free|
  {
  }

  lemma LeaseRefines(next: nat, blk: nat)
    ensures ReplyLocals(["range", Decimal(next), Decimal(blk)]) == seq(blk, i requires 0 <= i => next + i)
  {
    NumberOfDecimal(next);
    NumberOfDecimal(blk);
  }

  lemma PopRefines(p: Pool, blk: nat, floor: nat, seeded: bool)
    requires blk > 0 && |p.free| > floor
    ensures var n := if blk <= |p.free| then blk else |p.free|;
            var texts := TextAll(Locals(p.free));
            && |["list"] + texts[..n]| > 0 && (["list"] + texts[..n])[0] != "range"
            && ReplyLocals(["list"] + texts[..n]) == Script(Teids, p, seeded, blk, floor).1
            && texts[n..] == TextAll(Locals(p.free[n..]))
  {
    var n := if blk <= |p.free| then blk else |p.free|;
    var ls := Locals(p.free);
    assert |"range"| == 5 && |"list"| == 4;
    NumbersOfText(ls[..n]);
    assert (["list"] + TextAll(ls)[..n])[1..] == TextAll(ls[..n]);
    assert Script(Teids, p, seeded, blk, floor).1 == ls[..n];
    assert ls[n..] == Locals(p.free[n..]);
  }

  // RPUSH of the local index is the pool's free.
  lemma PushRefines(p: Pool, teid: nat)
    ensures TextAll(Locals(Free(p, teid).free)) == TextAll(Locals(p.free)) + [Decimal(TeidLocal(teid))]
  {
  }
}
