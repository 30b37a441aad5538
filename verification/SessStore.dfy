// Session reads and writes and the retransmission cache as the client sees them
// (src/v_sess_store, src/v_retrans_cache): what goes out, how a reply is read,
// and the pending objects in between.
module SessStore {
  import opened Wrappers
  import opened Seid
  import opened Flow
  import opened Store
  import opened Text
  import opened LuaScripts

  const VER_BUF: nat := 24

  // What arrives: Bad is a failed round trip, Empty one that succeeds with no
  // reply, Odd a reply of a type nobody asked for or bytes that are no context.
  datatype Wire =
    | Bad
    | Empty
    | Nil
    | Int(i: int)
    | Fields(data: Option<Ctx>, ver: Option<string>)
    | Bytes(rsp: Rsp)
    | Odd

  // What a pending object remembers.
  datatype Op = ReadOp | CasOp(exp: nat) | DeleteOp | ConfirmOp | CacheOp

  // --- reading a reply ---

  // The version text, cut to what the buffer holds.
  function VerOf(text: string): nat { Number(if |text| < VER_BUF - 1 then text else text[..VER_BUF - 1]) }

  function Heard(op: Op, w: Wire): Reply {
    match op
    case ReadOp =>
      if !w.Fields? then Err
      else if w.data.None? || w.ver.None? then NotFound
      else Found(w.data.value, VerOf(w.ver.value))
    case CasOp(exp) =>
      if !w.Int? then Err
      else if w.i == 1 then CasOk(if exp == 0 then 1 else exp + 1)
      else if w.i == 0 then CasConflict
      else if w.i == -1 then CasGone
      else Err
    case DeleteOp =>
      if !w.Int? then Err
      else if w.i == 1 then CasOk(0)
      else if w.i == 0 then CasConflict
      else if w.i == -1 then CasGone
      else Err
    case ConfirmOp => if w.Bad? then Err else Done
    case CacheOp => if w.Nil? || w.Empty? then Miss else if w.Bytes? then Hit(w.rsp) else Err
  }

  // What the command of an operation can answer when the round trip succeeds.
  predicate Answers(op: Op, w: Wire) {
    match op
    case ReadOp => w.Fields?
    case CasOp(_) | DeleteOp => w in {Int(1), Int(0), Int(-1)}
    case ConfirmOp => !w.Bad?
    case CacheOp => w.Nil? || w.Empty? || w.Bytes?
  }

  // A failed round trip is heard as a failure whatever was asked for, and nothing
  // but a reply the command can give is heard as anything else.
  lemma FailuresAreHeard(op: Op, w: Wire)
    ensures Heard(op, Bad) == Err
    ensures Heard(op, w).Err? <==> !Answers(op, w)
  {
  }

  // Each outcome is heard exactly when its reply arrived: no reply is taken for
  // another.
  lemma OutcomesAreApart(op: Op, w: Wire)
    ensures Heard(op, w).NotFound? <==> op.ReadOp? && w.Fields? && (w.data.None? || w.ver.None?)
    ensures Heard(op, w).Found? <==> op.ReadOp? && w.Fields? && w.data.Some? && w.ver.Some?
    ensures Heard(op, w).CasOk? <==> (op.CasOp? || op.DeleteOp?) && w == Int(1)
    ensures Heard(op, w).CasConflict? <==> (op.CasOp? || op.DeleteOp?) && w == Int(0)
    ensures Heard(op, w).CasGone? <==> (op.CasOp? || op.DeleteOp?) && w == Int(-1)
    ensures Heard(op, w).Done? <==> op.ConfirmOp? && !w.Bad?
    ensures Heard(op, w).Hit? <==> op.CacheOp? && w.Bytes?
    ensures Heard(op, w).Miss? <==> op.CacheOp? && (w.Nil? || w.Empty?)
  {
  }

  // --- out and back ---

  // HMGET data ver
  function Fetched(hashes: map<string, Hash>, key: string): Wire {
    if key in hashes then Fields(Some(hashes[key].data), Some(hashes[key].ver)) else Fields(None, None)
  }

  // A CAS write that goes out as text, runs as a script and comes back as an
  // integer tells the client exactly what the numeric write answers.
  lemma CasRoundTrip(now: nat, hashes: map<string, Hash>, db: Db, k: Key, exp: nat, data: Ctx, pending: bool,
                     tag: Commit)
    requires TextOf(now, hashes, db) && (db.Has(k) ==> db.At(k).ver >= 1)
    ensures var code := CasWriteText(now, hashes, SessKey(k), Decimal(exp), data, TtlText(pending)).0;
            Heard(CasOp(exp), Int(code)) == ExecWrite(db, k, exp, data, pending, tag).1
  {
    CasWriteRefines(now, hashes, db, k, exp, data, pending, tag);
    hide CasWriteText, TextOf;
  }

  lemma DeleteRoundTrip(now: nat, hashes: map<string, Hash>, db: Db, k: Key, exp: nat)
    requires TextOf(now, hashes, db)
    ensures var code := CasDeleteText(hashes, SessKey(k), Decimal(exp)).0;
            Heard(DeleteOp, Int(code)) == ExecDelete(db, k, exp).1
  {
    CasDeleteRefines(now, hashes, db, k, exp);
    hide CasDeleteText, TextOf;
  }

  // A read brings back the record's data and version, as long as the version is
  // a 64-bit number.
  lemma ReadRoundTrip(now: nat, hashes: map<string, Hash>, db: Db, k: Key)
    requires TextOf(now, hashes, db) && (db.Has(k) ==> db.At(k).ver < U64)
    ensures Heard(ReadOp, Fetched(hashes, SessKey(k))) == ExecRead(db, k)
  {
    if db.Has(k) {
      WordLengths(db.At(k).ver);
      NumberOfDecimal(db.At(k).ver);
    }
  }

  // A version read and written back as the expected version is the same text,
  // so an unchanged record never conflicts with its own reader.
  lemma ReadThenWriteMatches(now: nat, hashes: map<string, Hash>, db: Db, k: Key, data: Ctx)
    requires TextOf(now, hashes, db) && db.Has(k) && 1 <= db.At(k).ver < U64
    ensures var r := Heard(ReadOp, Fetched(hashes, SessKey(k)));
            r.Found? && CasWriteText(now, hashes, SessKey(k), Decimal(r.ver), data, "0").0 == 1
  {
    ReadRoundTrip(now, hashes, db, k);
    SameTextSameNumber(db.At(k).ver, 0);
  }

  // GET: the bytes under the request's key, or NIL.
  function Gotten(strings: map<string, Cached>, smf: nat, sn: nat): Wire {
    var bytes := Fetch(strings, smf, sn);
    if bytes.Some? then Bytes(bytes.value) else Nil
  }

  // A lookup hears exactly the response cached for its request.
  lemma CacheRoundTrip(strings: map<string, Cached>, db: Db, smf: nat, sn: nat)
    requires CacheOf(strings, db)
    ensures Heard(CacheOp, Gotten(strings, smf, sn)) == ExecGet(db, smf, sn)
  {
    hide CacheKey;
    assert (smf, sn) in db.cache <==> CacheKey(smf, sn) in strings;
  }

  // A response stored is the one the next lookup of that request hears until it
  // lapses, and the lookups of all other requests hear what they heard before.
  lemma StoreThenLookup(strings: map<string, Cached>, db: Db, smf: nat, sn: nat, rsp: Rsp, m: nat, n: nat)
    requires CacheOf(strings, db)
    ensures var strings' := strings[CacheKey(smf, sn) := Cached(rsp, db.now + RETRANS_TTL)];
            && CacheOf(strings', ExecSet(db, smf, sn, rsp))
            && Heard(CacheOp, Gotten(strings', smf, sn)) == Hit(rsp)
            && ((m, n) != (smf, sn) ==>
                  Heard(CacheOp, Gotten(strings', m, n)) == Heard(CacheOp, Gotten(strings, m, n)))
  {
    CacheKeysAreApart(smf, sn);
    hide CacheKey;
  }

  // --- pending objects ---

  // The pool of pending objects, the requests under way, and the callbacks made.
  class Client {
    const cap: nat
    var free: nat
    var out: map<nat, Op>
    var calls: seq<(nat, Reply)>
    var next: nat

    constructor (cap: nat)
      ensures Valid() && this.cap == cap && calls == [] && out == map[]
    {
      this.cap := cap;
      free, out, calls, next := cap, map[], [], 0;
    }

    ghost predicate Valid() reads this {
      && free + |out| == cap
      && (forall id :: id in out ==> id < next)
      && (forall i :: 0 <= i < |calls| ==> calls[i].0 < next && calls[i].0 !in out)
      && (forall i, j :: 0 <= i < j < |calls| ==> calls[i].0 != calls[j].0)
      && (forall id: nat :: id < next && id !in out ==> exists i :: 0 <= i < |calls| && calls[i].0 == id)
    }

    // v_sess_read, v_sess_cas_write, v_sess_confirm, v_sess_delete and
    // v_retrans_lookup: an object is taken, and given back unless the command
    // went out. OK means exactly one callback is to come, ERR none.
    method Request(op: Op, serialized: bool, issued: bool) returns (id: Option<nat>)
      requires Valid()
      modifies this`free, this`out, this`next
      ensures Valid() && calls == old(calls)
      ensures id.Some? <==> serialized && issued && old(free) > 0
      ensures id.Some? ==> id.value == old(next) && id.value !in old(out) && out == old(out)[id.value := op]
                           && free == old(free) - 1
      ensures id.None? ==> out == old(out) && free == old(free)
    {
      if !serialized || free == 0 { return None; }
      free := free - 1;
      if !issued {
        free := free + 1;
        return None;
      }
      id := Some(next);
      out := out[next := op];
      next := next + 1;
      assert out - {id.value} == old(out);
    }

    // The reply callbacks: read the reply, call back, give the object back.
    method OnReply(id: nat, w: Wire)
      requires Valid() && id in out
      modifies this`free, this`out, this`calls
      ensures Valid()
      ensures calls == old(calls) + [(id, Heard(old(out)[id], w))]
      ensures out == old(out) - {id} && free == old(free) + 1
    {
      ghost var was := calls;
      calls := calls + [(id, Heard(out[id], w))];
      out := out - {id};
      free := free + 1;
      assert calls[|was|].0 == id;
      forall x: nat | x < next && x !in out ensures exists i :: 0 <= i < |calls| && calls[i].0 == x {
        if x != id {
          var i :| 0 <= i < |was| && was[i].0 == x;
          assert calls[i].0 == x;
        }
      }
    }
  }
}
