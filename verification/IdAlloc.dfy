// One pod's id rings for one partition, as src/v_id_alloc/src/v_id_alloc.c
// updates them: dequeue, in-flight guards, and the loops that parse a refill
// reply. Proved against the pool of IdPool.
module IdAlloc {
  import opened Wrappers
  import opened Seid
  import opened IdPool
  import opened Text
  import opened LuaScripts

  // An rte_ring: enqueue refuses when it is full.
  class Ring {
    var ids: seq<nat>

    constructor ()
      ensures ids == []
    {
      ids := [];
    }

    method Enqueue(id: nat) returns (ok: bool)
      modifies this
      ensures ok == (|old(ids)| < RING_USABLE)
      ensures ids == if ok then old(ids) + [id] else old(ids)
    {
      ok := |ids| < RING_USABLE;
      if ok { ids := ids + [id]; }
    }

    method Dequeue() returns (ok: bool, id: nat)
      modifies this
      ensures ok == (old(ids) != [])
      ensures ok ==> id == old(ids)[0] && ids == old(ids)[1..]
      ensures !ok ==> ids == old(ids)
    {
      ok := ids != [];
      id := 0;
      if ok {
        id := ids[0];
        ids := ids[1..];
      }
    }
  }

  // A reply as hiredis hands it over.
  datatype DbReply = Nothing | Integer(i: int) | Texts(ts: seq<string>)

  class IdAlloc {
    const part: nat
    const seids: Ring
    const teids: Ring
    var seidAsked: bool
    var teidAsked: bool
    var teidSeeded: bool

    constructor (part: nat)
      requires part < NUM_PARTS
      ensures this.part == part && fresh(seids) && fresh(teids) && seids != teids
      ensures seids.ids == [] && teids.ids == [] && !seidAsked && !teidAsked && !teidSeeded
    {
      this.part := part;
      seids := new Ring();
      teids := new Ring();
      seidAsked, teidAsked, teidSeeded := false, false, false;
    }

    function RingOf(kind: IdKind): Ring { if kind.Seids? then seids else teids }

    function Asked(kind: IdKind): bool reads this { if kind.Seids? then seidAsked else teidAsked }

    // The rings of this pod are those of the pool.
    ghost predicate Mirrors(kind: IdKind, p: Pool, pod: nat)
      reads this, seids, teids
    {
      && part < NUM_PARTS && seids != teids
      && RingOf(kind).ids == p.Ring(pod)
      && (Asked(kind) <==> !p.AskOf(pod).Idle?)
    }

    // seid_maybe_refill / teid_maybe_refill: at most one refill in flight, and
    // only below the watermark. The SETNX seed goes out once, before the first
    // TEID refill.
    method MaybeRefill(kind: IdKind, issued: bool) returns (asks: bool, seeds: bool)
      modifies this`seidAsked, this`teidAsked, this`teidSeeded
      ensures asks == (|RingOf(kind).ids| < ID_WATERMARK && !old(Asked(kind)) && issued)
      ensures Asked(kind) == (old(Asked(kind)) || asks)
      ensures kind.Seids? ==> teidAsked == old(teidAsked) && teidSeeded == old(teidSeeded) && !seeds
      ensures kind.Teids? ==> seidAsked == old(seidAsked) && teidSeeded == (old(teidSeeded) || seeds)
      ensures seeds <==> kind.Teids? && !old(teidSeeded) && |RingOf(kind).ids| < ID_WATERMARK && !old(Asked(kind))
    {
      asks, seeds := false, false;
      if |RingOf(kind).ids| >= ID_WATERMARK { return; }
      if Asked(kind) { return; }
      if kind.Teids? && !teidSeeded {
        teidSeeded := true;
        seeds := true;
      }
      asks := issued;
      if kind.Seids? { seidAsked := issued; } else { teidAsked := issued; }
    }

    // v_seid_alloc / v_teid_alloc: 0 when the ring is dry.
    method Take(kind: IdKind, issued: bool, ghost p: Pool, ghost pod: nat) returns (id: nat)
      requires Mirrors(kind, p, pod)
      modifies this`seidAsked, this`teidAsked, this`teidSeeded, RingOf(kind)
      ensures id == Alloc(p, pod).1
      ensures Mirrors(kind, if issued then Alloc(p, pod).0 else Unasked(Alloc(p, pod).0, p, pod), pod)
    {
      var asks, seeds := MaybeRefill(kind, issued);
      var ok, first := RingOf(kind).Dequeue();
      id := if ok then first else 0;
    }

    // seid_refill_reply_cb: the counter after the lease ends the block; the
    // arithmetic is that of 64-bit words.
    method SeidReply(reply: DbReply)
      modifies this`seidAsked, seids
      ensures !seidAsked
      ensures seids.ids == if reply.Integer? then
                             Fill(old(seids.ids), MintAll(Seids, part, BlockBefore(reply.i)))
                           else old(seids.ids)
    {
      hide Fill, MintAll;
      seidAsked := false;
      if !reply.Integer? { return; }
      var base := (reply.i - ID_BLK_SIZE) % U64;
      ghost var locals := BlockBefore(reply.i);
      FillNone(seids.ids);
      NothingMinted(Seids, part, locals);
      var i := 0;
      while i < ID_BLK_SIZE
        invariant 0 <= i <= ID_BLK_SIZE && !seidAsked
        invariant seids.ids == Fill(old(seids.ids), MintAll(Seids, part, locals[..i]))
      {
        ghost var minted := MintAll(Seids, part, locals[..i]);
        MintOneMore(Seids, part, locals, i);
        var seid := SeidEncode(part, (base + i) % U64);
        i := i + 1;
        if seid.Some? {
          FillOneMore(old(seids.ids), minted, seid.value);
          var ok := seids.Enqueue(seid.value);
          if !ok {
            FullStaysFull(old(seids.ids), part, locals, i, Seids);
            return;
          }
        } else {
          assert minted + [] == minted;
        }
      }
      assert locals[..ID_BLK_SIZE] == locals;
    }

    // enqueue_teid: the local index is cut to 32 bits before it is encoded.
    method EnqueueTeid(local: nat)
      modifies teids
      ensures teids.ids == if Mint(Teids, part, local).Some? then
                             Fill(old(teids.ids), [Mint(Teids, part, local).value])
                           else old(teids.ids)
    {
      var teid := TeidEncode(part, local % U32);
      if teid.Some? {
        var ok := teids.Enqueue(teid.value);
      }
    }

    // teid_refill_reply_cb: a tagged array, "range" start count or "list" ids.
    method TeidReply(reply: DbReply)
      requires seids != teids && part < NUM_PARTS
      modifies this`teidAsked, teids
      ensures !teidAsked
      ensures teids.ids == Fill(old(teids.ids), MintAll(Teids, part, Offered(reply)))
    {
      teidAsked := false;
      if !reply.Texts? || |reply.ts| < 1 { FillNone(teids.ids); return; }
      if reply.ts[0] == "range" {
        if |reply.ts| != 3 { FillNone(teids.ids); return; }
        var base := Number(reply.ts[1]);
        var count := Number(reply.ts[2]);
        EnqueueAll(seq(count, i requires 0 <= i => base + i));
      } else if reply.ts[0] == "list" {
        EnqueueAll(NumberAll(reply.ts[1..]));
      } else {
        FillNone(teids.ids);
      }
    }

    method EnqueueAll(locals: seq<nat>)
      modifies teids
      ensures teids.ids == Fill(old(teids.ids), MintAll(Teids, part, locals))
    {
      FillNone(teids.ids);
      for i := 0 to |locals|
        invariant teids.ids == Fill(old(teids.ids), MintAll(Teids, part, locals[..i]))
      {
        ghost var minted := MintAll(Teids, part, locals[..i]);
        MintOneMore(Teids, part, locals, i);
        if Mint(Teids, part, locals[i]).Some? {
          FillOneMore(old(teids.ids), minted, Mint(Teids, part, locals[i]).value);
        }
        EnqueueTeid(locals[i]);
      }
      assert locals[..|locals|] == locals;
    }
  }

  // The pool after an alloc whose refill could not be sent.
  function Unasked(p': Pool, p: Pool, pod: nat): Pool {
    if p.AskOf(pod).Idle? then p'.(asks := p'.asks[pod := Idle]) else p'
  }

  // The local indices a reply offers; a malformed one offers none.
  function Offered(reply: DbReply): seq<nat> {
    if !reply.Texts? || |reply.ts| < 1 then []
    else if reply.ts[0] == "range" then
      if |reply.ts| != 3 then [] else ReplyLocals(reply.ts)
    else if reply.ts[0] == "list" then NumberAll(reply.ts[1..])
    else []
  }

  // Only what the script can answer offers anything: a block of the size it names,
  // or the numbers of its list. Everything else offers nothing.
  lemma OfferedExactly(reply: DbReply)
    ensures var ts := if reply.Texts? then reply.ts else [];
            && (|ts| > 0 && ts[0] == "list" ==> |Offered(reply)| == |ts| - 1)
            && (|ts| == 3 && ts[0] == "range" ==>
                  |Offered(reply)| == Number(ts[2])
                  && forall i :: 0 <= i < Number(ts[2]) ==> Offered(reply)[i] == Number(ts[1]) + i)
            && (!(|ts| > 0 && ts[0] == "list") && !(|ts| == 3 && ts[0] == "range") ==> Offered(reply) == [])
  {
    assert |"list"| != |"range"|;
  }

  lemma MintOneMore(kind: IdKind, part: nat, locals: seq<nat>, i: nat)
    requires i < |locals|
    ensures MintAll(kind, part, locals[..i + 1])
            == MintAll(kind, part, locals[..i])
               + (if Mint(kind, part, locals[i]).Some? then [Mint(kind, part, locals[i]).value] else [])
  {
    assert locals[..i + 1][..i] == locals[..i];
  }

  // The block that ends at a counter value, in 64-bit words.
  function BlockBefore(end: int): seq<nat> {
    seq(ID_BLK_SIZE, i requires 0 <= i => ((end - ID_BLK_SIZE) % U64 + i) % U64)
  }

  // For every counter Redis can hold after a lease it is the block just leased.
  lemma BlockBeforeIsBlock(base: nat)
    requires base + ID_BLK_SIZE < U64
    ensures BlockBefore(base + ID_BLK_SIZE) == Block(base)
  {
  }

  lemma NothingMinted(kind: IdKind, part: nat, locals: seq<nat>)
    ensures MintAll(kind, part, locals[..0]) == []
  {
  }

  lemma FillNone(ring: seq<nat>)
    ensures Fill(ring, []) == ring && MintAll(Teids, 0, []) == []
  {
  }

  lemma FillOneMore(ring: seq<nat>, ids: seq<nat>, id: nat)
    ensures Fill(ring, ids + [id])
            == if |Fill(ring, ids)| < RING_USABLE then Fill(ring, ids) + [id] else Fill(ring, ids)
    ensures Fill(Fill(ring, ids), [id]) == Fill(ring, ids + [id])
  {
  }

  // Once the ring is full the rest of the block would not fit either.
  lemma {:induction false} FullStaysFull(ring: seq<nat>, part: nat, locals: seq<nat>, i: nat, kind: IdKind)
    requires i <= |locals| && |Fill(ring, MintAll(kind, part, locals[..i]))| >= RING_USABLE
    ensures Fill(ring, MintAll(kind, part, locals)) == Fill(ring, MintAll(kind, part, locals[..i]))
    decreases |locals| - i
  {
    if i == |locals| {
      assert locals[..i] == locals;
    } else {
      MintOneMore(kind, part, locals, i);
      FullStaysFull(ring, part, locals, i + 1, kind);
    }
  }

  // --- the replies and the pool ---

  // A refill reply enqueues exactly what the pool delivers: the SEID block the
  // counter leased, or what the TEID script's reply names.
  lemma SeidReplyDelivers(p: Pool, q: Pool, part: nat, pod: nat)
    requires q.AskOf(pod) == Replied(MintAll(Seids, part, Script(Seids, p, false, ID_BLK_SIZE, TEID_FREE_FLOOR).1))
    requires var next := Script(Seids, p, false, ID_BLK_SIZE, TEID_FREE_FLOOR).0.next; next.value < U64
    ensures var next := Script(Seids, p, false, ID_BLK_SIZE, TEID_FREE_FLOOR).0.next;
            Deliver(q, pod, true).AskOf(pod).Idle? &&
            Deliver(q, pod, true).Ring(pod) == Fill(q.Ring(pod), MintAll(Seids, part, BlockBefore(next.value)))
  {
    var next := if p.next.Some? then p.next.value else 0;
    BlockBeforeIsBlock(next);
    assert Script(Seids, p, false, ID_BLK_SIZE, TEID_FREE_FLOOR).1 == Block(next);
  }

  lemma TeidReplyDelivers(p: Pool, q: Pool, part: nat, pod: nat, seeded: bool)
    requires q.AskOf(pod) == Replied(MintAll(Teids, part, Script(Teids, p, seeded, ID_BLK_SIZE, TEID_FREE_FLOOR).1))
    ensures var (reply, free) := RefillText(TextAll(Locals(p.free)), CounterOf(p, seeded), ID_BLK_SIZE,
                                            TEID_FREE_FLOOR, Decimal(ID_BLK_SIZE));
            Deliver(q, pod, true).AskOf(pod).Idle? &&
            Deliver(q, pod, true).Ring(pod) == Fill(q.Ring(pod), MintAll(Teids, part, Offered(Texts(reply))))
  {
    RefillRefines(p, ID_BLK_SIZE, TEID_FREE_FLOOR, seeded);
    var reply := RefillText(TextAll(Locals(p.free)), CounterOf(p, seeded), ID_BLK_SIZE,
                            TEID_FREE_FLOOR, Decimal(ID_BLK_SIZE)).0;
    assert reply[0] == "range" || reply[0] == "list";
  }
}
