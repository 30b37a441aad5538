// The ids of one kind in one partition: the Redis counter and free list, and
// for every pod its ring and its refill in flight (src/v_id_alloc). `place`
// says where each id that was ever leased is now.
module IdPool {
  import opened Wrappers
  import opened Seid

  const ID_BLK_SIZE: nat := 256
  const ID_WATERMARK: nat := 64
  const TEID_FREE_FLOOR: nat := 1024
  // V_ID_RING_SIZE is 1024; an rte_ring holds one less.
  const RING_USABLE: nat := 1023

  datatype IdKind = Seids | Teids

  // What a refill in flight has come to: `ids` are the ids in the reply.
  datatype Ask = Idle | Asked | Replied(ids: seq<nat>)

  // Lost covers a reply nobody got; a pod that dies leaves its ids where they were.
  datatype Place = InReply(pod: nat) | InRing(pod: nat) | Out | InFree | Lost

  // An entry of the free list: the local index, and how many frees came before.
  datatype Freed = Freed(local: nat, stamp: nat)

  datatype Pool = Pool(next: Option<nat>, free: seq<Freed>, frees: nat,
                       rings: map<nat, seq<nat>>, asks: map<nat, Ask>, place: map<nat, Place>)
  {
    function Ring(pod: nat): seq<nat> { if pod in rings then rings[pod] else [] }

    function AskOf(pod: nat): Ask { if pod in asks then asks[pod] else Idle }
  }

  const NO_IDS: Pool := Pool(None, [], 0, map[], map[], map[])

  // The id a leased local index becomes. enqueue_teid() narrows the index to 32
  // bits before v_teid_encode() checks its range.
  function Mint(kind: IdKind, part: nat, local: nat): Option<nat> {
    match kind
    case Seids => SeidEncode(part, local)
    case Teids => TeidEncode(part, local % U32)
  }

  function LocalOf(kind: IdKind, id: nat): nat {
    match kind
    case Seids => SeidLocal(id)
    case Teids => TeidLocal(id)
  }

  // The ids minted from a list of local indices; those that do not encode are skipped.
  function MintAll(kind: IdKind, part: nat, locals: seq<nat>): seq<nat> {
    if locals == [] then []
    else
      var first := MintAll(kind, part, locals[..|locals| - 1]);
      var last := Mint(kind, part, locals[|locals| - 1]);
      if last.Some? then first + [last.value] else first
  }

  function Block(base: nat): seq<nat> {
    seq(ID_BLK_SIZE, i requires 0 <= i => base + i)
  }

  // Enqueueing stops where the ring is full.
  function Fill(ring: seq<nat>, ids: seq<nat>): seq<nat> {
    if |ring| + |ids| <= RING_USABLE then ring + ids
    else if |ring| >= RING_USABLE then ring
    else ring + ids[..RING_USABLE - |ring|]
  }

  function Mark(place: map<nat, Place>, ids: seq<nat>, at: Place): map<nat, Place> {
    place + map id | id in ids :: at
  }

  // --- the steps ---

  // v_seid_alloc / v_teid_alloc: ask for a refill below the watermark, then dequeue.
  function Alloc(p: Pool, pod: nat): (Pool, nat) {
    var ring := p.Ring(pod);
    var p1 := if |ring| < ID_WATERMARK && p.AskOf(pod).Idle? then p.(asks := p.asks[pod := Asked]) else p;
    if ring == [] then (p1, 0)
    else (p1.(rings := p.rings[pod := ring[1..]], place := Mark(p.place, [ring[0]], Out)), ring[0])
  }

  // The refill script (for SEIDs, the plain INCRBY): pop a block from a free
  // list longer than the floor, else lease a block from the counter. `seeded`
  // says whether the SETNX that precedes it got through.
  function Script(kind: IdKind, p: Pool, seeded: bool, blk: nat, floor: nat): (Pool, seq<nat>) {
    if kind.Teids? && |p.free| > floor && blk > 0 then
      var n := if blk <= |p.free| then blk else |p.free|;
      (p.(free := p.free[n..]), seq(n, i requires 0 <= i < n => p.free[i].local))
    else
      var base := if p.next.Some? then p.next.value else if kind.Teids? && seeded then 1 else 0;
      (p.(next := Some(base + blk)), seq(blk, i requires 0 <= i => base + i))
  }

  function Refill(kind: IdKind, part: nat, p: Pool, seeded: bool, pod: nat): Pool {
    var (p1, locals) := Script(kind, p, seeded, ID_BLK_SIZE, TEID_FREE_FLOOR);
    var ids := MintAll(kind, part, locals);
    p1.(asks := p.asks[pod := Replied(ids)], place := Mark(p.place, ids, InReply(pod)))
  }

  // A refill that ran for nobody: its pod died or its reply was lost.
  function LoseRefill(kind: IdKind, part: nat, p: Pool, seeded: bool): Pool {
    var (p1, locals) := Script(kind, p, seeded, ID_BLK_SIZE, TEID_FREE_FLOOR);
    p1.(place := Mark(p.place, MintAll(kind, part, locals), Lost))
  }

  // The refill callback: clear the in-flight flag, then enqueue on success.
  function Deliver(p: Pool, pod: nat, ok: bool): Pool {
    var p1 := p.(asks := p.asks[pod := Idle]);
    if ok && p.AskOf(pod).Replied? then
      var ids := p.AskOf(pod).ids;
      p1.(rings := p.rings[pod := Fill(p.Ring(pod), ids)], place := Mark(p.place, ids, InRing(pod)))
    else p1
  }

  // A pod restarts with empty rings.
  function Restart(p: Pool, pod: nat): Pool {
    p.(rings := p.rings[pod := []], asks := p.asks[pod := Idle])
  }

  // The RPUSH of v_teid_free.
  function Free(p: Pool, id: nat): Pool {
    p.(free := p.free + [Freed(TeidLocal(id), p.frees)], frees := p.frees + 1,
       place := Mark(p.place, [id], InFree))
  }

  // --- the invariant ---

  ghost predicate NoDup<T>(s: seq<T>) {
    forall i, j :: 0 <= i < j < |s| ==> s[i] != s[j]
  }

  // Leased ids: each encodes its own local index, which the counter has passed.
  ghost predicate Genuine(kind: IdKind, part: nat, next: Option<nat>, place: map<nat, Place>) {
    forall id :: id in place ==>
      && next.Some? && LocalOf(kind, id) < next.value
      && Mint(kind, part, LocalOf(kind, id)) == Some(id)
  }

  ghost predicate AllAt(place: map<nat, Place>, ids: seq<nat>, at: Place) {
    NoDup(ids) && forall id :: id in ids ==> id in place && place[id] == at
  }

  // The id a free-list entry stands for.
  function FreeIds(part: nat, free: seq<Freed>): seq<nat> {
    seq(|free|, i requires 0 <= i < |free| => part * TEID_PART + free[i].local)
  }

  // One in-flight refill a ring, asked for below the watermark.
  ghost predicate RingBound(p: Pool, pod: nat) {
    && |p.Ring(pod)| <= ID_WATERMARK - 1 + ID_BLK_SIZE
    && (!p.AskOf(pod).Idle? ==> |p.Ring(pod)| < ID_WATERMARK)
    && (p.AskOf(pod).Replied? ==> |p.AskOf(pod).ids| <= ID_BLK_SIZE)
  }

  // The free list is a queue: its entries are the latest frees, oldest first.
  ghost predicate FreeOk(kind: IdKind, p: Pool) {
    && |p.free| <= p.frees
    && (kind.Seids? ==> p.free == [])
    && (forall i :: 0 <= i < |p.free| ==> p.free[i].stamp == p.frees - |p.free| + i)
  }

  ghost predicate Shape(kind: IdKind, part: nat, p: Pool) {
    && part < NUM_PARTS
    && FreeOk(kind, p)
    && forall pod: nat :: RingBound(p, pod)
  }

  ghost predicate RingsOwned(p: Pool, place: map<nat, Place>) {
    forall pod: nat :: AllAt(place, p.Ring(pod), InRing(pod))
  }

  ghost predicate AsksOwned(p: Pool, place: map<nat, Place>) {
    forall pod: nat :: p.AskOf(pod).Replied? ==> AllAt(place, p.AskOf(pod).ids, InReply(pod))
  }

  ghost predicate FreeOwned(part: nat, free: seq<Freed>, place: map<nat, Place>) {
    && AllAt(place, FreeIds(part, free), InFree)
    && forall i :: 0 <= i < |free| ==> 0 < free[i].local < TEID_PART
  }

  // Every leased id is at one place, once.
  ghost predicate Owned(kind: IdKind, part: nat, p: Pool) {
    && Genuine(kind, part, p.next, p.place)
    && RingsOwned(p, p.place)
    && AsksOwned(p, p.place)
    && FreeOwned(part, p.free, p.place)
  }

  predicate IsOut(p: Pool, id: nat) {
    id in p.place && p.place[id] == Out
  }

  // Nothing but one pod's ring and refill changes.
  ghost predicate OnlyOf(p: Pool, p': Pool, pod: nat) {
    && p'.next == p.next && p'.free == p.free && p'.frees == p.frees
    && forall q: nat :: q != pod ==> p'.Ring(q) == p.Ring(q) && p'.AskOf(q) == p.AskOf(q)
  }

  // The counter and the number of frees never go back.
  predicate Later(p: Pool, p': Pool) {
    && (p.next.Some? ==> p'.next.Some? && p.next.value <= p'.next.value)
    && p.frees <= p'.frees
  }

  ghost predicate SameOut(p: Pool, p': Pool) {
    forall id :: IsOut(p, id) <==> IsOut(p', id)
  }

  // The SEID counter never wraps; the TEID counter must stay at most one past 2^32.
  predicate Bounded(kind: IdKind, p: Pool) {
    kind.Seids? || p.next.None? || p.next.value <= U32 + 1
  }

  // --- minting ---

  lemma MintDecodes(kind: IdKind, part: nat, local: nat)
    requires Mint(kind, part, local).Some?
    requires kind.Teids? ==> local <= U32
    ensures LocalOf(kind, Mint(kind, part, local).value) == local
  {
    match kind
    case Seids => SeidRoundTrip(part, local);
    case Teids => TeidRoundTrip(part, local % U32);
  }

  lemma {:induction false} MintAllDecodes(kind: IdKind, part: nat, locals: seq<nat>, id: nat)
    requires kind.Teids? ==> forall i :: 0 <= i < |locals| ==> locals[i] <= U32
    requires id in MintAll(kind, part, locals)
    ensures LocalOf(kind, id) in locals && Mint(kind, part, LocalOf(kind, id)) == Some(id)
  {
    var last := locals[|locals| - 1];
    if Mint(kind, part, last) == Some(id) {
      MintDecodes(kind, part, last);
    } else {
      MintAllDecodes(kind, part, locals[..|locals| - 1], id);
    }
  }

  lemma {:induction false} MintAllNoDup(kind: IdKind, part: nat, locals: seq<nat>)
    requires kind.Teids? ==> forall i :: 0 <= i < |locals| ==> locals[i] <= U32
    requires NoDup(locals)
    ensures NoDup(MintAll(kind, part, locals))
  {
    if locals != [] {
      var init := locals[..|locals| - 1];
      var last := Mint(kind, part, locals[|locals| - 1]);
      MintAllNoDup(kind, part, init);
      if last.Some? && last.value in MintAll(kind, part, init) {
        MintAllDecodes(kind, part, init, last.value);
        MintDecodes(kind, part, locals[|locals| - 1]);
      }
    }
  }

  lemma {:induction false} MintAllLength(kind: IdKind, part: nat, locals: seq<nat>)
    ensures |MintAll(kind, part, locals)| <= |locals|
  {
    if locals != [] {
      MintAllLength(kind, part, locals[..|locals| - 1]);
    }
  }

  // The entries of a free list mint exactly the ids they stand for.
  lemma {:induction false} MintFree(part: nat, free: seq<Freed>, locals: seq<nat>)
    requires part < NUM_PARTS && |locals| == |free|
    requires forall i :: 0 <= i < |free| ==> free[i].local == locals[i] && 0 < locals[i] < TEID_PART
    ensures MintAll(Teids, part, locals) == FreeIds(part, free)
  {
    if free != [] {
      var n := |free| - 1;
      MintFree(part, free[..n], locals[..n]);
      assert Mint(Teids, part, locals[n]) == Some(part * TEID_PART + free[n].local);
    }
  }

  // What is at one place is not moved by moving what is at another.
  lemma Unmoved(place: map<nat, Place>, ids: seq<nat>, at: Place, moved: seq<nat>, from: Place, to: Place)
    requires AllAt(place, ids, at) && at != from
    requires forall id :: id in moved && id in place ==> place[id] == from
    ensures AllAt(Mark(place, moved, to), ids, at)
  {
  }

  lemma RingsStay(p: Pool, moved: seq<nat>, from: Place, to: Place)
    requires RingsOwned(p, p.place) && !from.InRing?
    requires forall id :: id in moved && id in p.place ==> p.place[id] == from
    ensures RingsOwned(p, Mark(p.place, moved, to))
  {
  }

  lemma AsksStay(p: Pool, moved: seq<nat>, from: Place, to: Place)
    requires AsksOwned(p, p.place) && !from.InReply?
    requires forall id :: id in moved && id in p.place ==> p.place[id] == from
    ensures AsksOwned(p, Mark(p.place, moved, to))
  {
  }

  lemma RingsEqual(p: Pool, p': Pool, place: map<nat, Place>)
    requires RingsOwned(p, place) && p'.rings == p.rings
    ensures RingsOwned(p', place)
  {
  }

  lemma AllAtBoth(place: map<nat, Place>, a: seq<nat>, b: seq<nat>, at: Place)
    requires AllAt(place, a, at) && AllAt(place, b, at)
    requires forall id :: id in a ==> id !in b
    ensures AllAt(place, a + b, at)
  {
    var ab := a + b;
    forall i, j | 0 <= i < j < |ab| ensures ab[i] != ab[j] {
      assert ab[i] == (if i < |a| then a[i] else b[i - |a|]);
      assert ab[j] == (if j < |a| then a[j] else b[j - |a|]);
      assert i < |a| ==> a[i] in a;
      assert j >= |a| ==> b[j - |a|] in b;
    }
  }

  // --- allocating ---

  lemma AllocKeeps(kind: IdKind, part: nat, p: Pool, pod: nat)
    requires Shape(kind, part, p)
    ensures Shape(kind, part, Alloc(p, pod).0) && Later(p, Alloc(p, pod).0)
    ensures Owned(kind, part, p) ==> Owned(kind, part, Alloc(p, pod).0)
  {
    var p' := Alloc(p, pod).0;
    forall q: nat ensures RingBound(p', q) {
      assert RingBound(p, q);
    }
    if Owned(kind, part, p) {
      AllocOwned(kind, part, p, pod);
    }
  }

  lemma AllocOwned(kind: IdKind, part: nat, p: Pool, pod: nat)
    requires Owned(kind, part, p)
    ensures Owned(kind, part, Alloc(p, pod).0)
  {
    hide Mint, LocalOf;
    var p' := Alloc(p, pod).0;
    var ring := p.Ring(pod);
    if ring != [] {
      assert AllAt(p.place, ring, InRing(pod));
      DequeueRings(p, pod);
      AsksStay(p, [ring[0]], InRing(pod), Out);
      Unmoved(p.place, FreeIds(part, p.free), InFree, [ring[0]], InRing(pod), Out);
    }
    RingsEqual(p.(rings := p'.rings), p', p'.place);
  }

  lemma DequeueRings(p: Pool, pod: nat)
    requires RingsOwned(p, p.place) && p.Ring(pod) != []
    ensures var ring := p.Ring(pod);
            RingsOwned(p.(rings := p.rings[pod := ring[1..]]), Mark(p.place, [ring[0]], Out))
  {
  }

  lemma GenuineValidates(kind: IdKind, part: nat, id: nat)
    requires Mint(kind, part, LocalOf(kind, id)) == Some(id)
    ensures id != 0
    ensures if kind.Seids? then SeidValidate(id) == Some(part) else TeidValidate(id) == Some(part)
  {
  }

  // What alloc returns was leased and waited in the pod's ring until now; it
  // validates to the partition asked for, and the dry ring returns 0.
  lemma AllocTakesFromRing(kind: IdKind, part: nat, p: Pool, pod: nat)
    requires Owned(kind, part, p)
    ensures var (p', id) := Alloc(p, pod);
            if p.Ring(pod) == [] then id == 0 && p'.place == p.place
            else
              && id != 0 && id in p.place && p.place[id] == InRing(pod)
              && p'.place == p.place[id := Out]
              && (if kind.Seids? then SeidValidate(id) == Some(part) else TeidValidate(id) == Some(part))
  {
    hide Mint, LocalOf, SeidValidate, TeidValidate;
    if p.Ring(pod) != [] {
      assert AllAt(p.place, p.Ring(pod), InRing(pod));
      GenuineValidates(kind, part, p.Ring(pod)[0]);
    }
  }

  // Exactly the id returned goes out, and it was not out before.
  lemma AllocGoesOut(kind: IdKind, part: nat, p: Pool, pod: nat)
    requires Owned(kind, part, p)
    ensures var (p', id) := Alloc(p, pod);
            && (forall x :: IsOut(p', x) <==> IsOut(p, x) || (id != 0 && x == id))
            && (id != 0 ==> !IsOut(p, id))
  {
    hide Owned, SeidValidate, TeidValidate, Alloc;
    AllocTakesFromRing(kind, part, p, pod);
  }

  // After an alloc there is no refill under way exactly when none was and the
  // ring was at the watermark: a pod that gets 0 has asked, so it is not stuck,
  // and a pod asks for one at a time.
  lemma AllocAsksInTime(p: Pool, pod: nat)
    ensures var (p', id) := Alloc(p, pod);
            && OnlyOf(p, p', pod)
            && (p'.AskOf(pod).Idle? <==> p.AskOf(pod).Idle? && |p.Ring(pod)| >= ID_WATERMARK)
            && (!p.AskOf(pod).Idle? ==> p'.AskOf(pod) == p.AskOf(pod))
            && (id == 0 && 0 !in p.Ring(pod) ==> !p'.AskOf(pod).Idle?)
            && p.Ring(pod) == (if p.Ring(pod) == [] then [] else [id]) + p'.Ring(pod)
  {
  }

  // --- refilling ---

  // A leased block is new: no id in it was ever leased before.
  lemma LeaseIsFresh(kind: IdKind, part: nat, p: Pool, base: nat, n: nat, id: nat)
    requires Genuine(kind, part, p.next, p.place)
    requires p.next.Some? ==> base == p.next.value
    requires kind.Teids? ==> base + n <= U32 + 1
    requires id in MintAll(kind, part, seq(n, i requires 0 <= i => base + i))
    ensures id !in p.place && LocalOf(kind, id) < base + n
            && Mint(kind, part, LocalOf(kind, id)) == Some(id)
  {
    MintAllDecodes(kind, part, seq(n, i requires 0 <= i => base + i), id);
  }

  // The popped entries are the head of the free list, and the rest stays free.
  lemma PopOwned(part: nat, p: Pool, locals: seq<nat>, n: nat)
    requires part < NUM_PARTS && FreeOwned(part, p.free, p.place) && n <= |p.free|
    requires locals == seq(n, i requires 0 <= i < n => p.free[i].local)
    ensures var ids := MintAll(Teids, part, locals);
            && AllAt(p.place, ids, InFree)
            && forall to :: FreeOwned(part, p.free[n..], Mark(p.place, ids, to))
  {
    hide Mint;
    var all := FreeIds(part, p.free);
    var ids := MintAll(Teids, part, locals);
    MintFree(part, p.free[..n], locals);
    assert ids == all[..n];
    assert FreeIds(part, p.free[n..]) == all[n..];
    assert forall id :: id in all[n..] ==> id in all && id !in ids;
  }

  lemma LeaseOwned(kind: IdKind, part: nat, p: Pool, base: nat, n: nat)
    requires Genuine(kind, part, p.next, p.place)
    requires p.next.Some? ==> base == p.next.value
    requires kind.Teids? ==> base + n <= U32 + 1
    ensures var ids := MintAll(kind, part, seq(n, i requires 0 <= i => base + i));
            && NoDup(ids)
            && (forall id :: id in ids ==> id !in p.place)
            && forall to :: Genuine(kind, part, Some(base + n), Mark(p.place, ids, to))
  {
    hide Mint, LocalOf;
    var locals := seq(n, i requires 0 <= i => base + i);
    MintAllNoDup(kind, part, locals);
    forall id | id in MintAll(kind, part, locals)
      ensures id !in p.place && LocalOf(kind, id) < base + n
              && Mint(kind, part, LocalOf(kind, id)) == Some(id)
    {
      LeaseIsFresh(kind, part, p, base, n, id);
    }
  }

  // What the script hands out, and what it leaves.
  lemma ScriptOwned(kind: IdKind, part: nat, p: Pool, seeded: bool, to: Place)
    requires part < NUM_PARTS && FreeOk(kind, p) && Owned(kind, part, p)
    requires Bounded(kind, Script(kind, p, seeded, ID_BLK_SIZE, TEID_FREE_FLOOR).0)
    ensures var (p1, locals) := Script(kind, p, seeded, ID_BLK_SIZE, TEID_FREE_FLOOR);
            var ids := MintAll(kind, part, locals);
            && NoDup(ids)
            && (forall id :: id in ids && id in p.place ==> p.place[id] == InFree)
            && FreeOwned(part, p1.free, Mark(p.place, ids, to))
            && Genuine(kind, part, p1.next, Mark(p.place, ids, to))
  {
    hide Mint, LocalOf, MintAll, FreeIds;
    var (p1, locals) := Script(kind, p, seeded, ID_BLK_SIZE, TEID_FREE_FLOOR);
    if kind.Teids? && |p.free| > TEID_FREE_FLOOR {
      PopOwned(part, p, locals, ID_BLK_SIZE);
    } else {
      LeaseOwned(kind, part, p, p1.next.value - ID_BLK_SIZE, ID_BLK_SIZE);
      assert locals == seq(ID_BLK_SIZE, i requires 0 <= i => p1.next.value - ID_BLK_SIZE + i);
    }
  }

  lemma RefillKeeps(kind: IdKind, part: nat, p: Pool, seeded: bool, pod: nat)
    requires Shape(kind, part, p) && p.AskOf(pod).Asked?
    ensures var p' := Refill(kind, part, p, seeded, pod);
            && Shape(kind, part, p') && Later(p, p')
            && (Owned(kind, part, p) && Bounded(kind, p') ==> Owned(kind, part, p') && SameOut(p, p'))
  {
    hide Mint, LocalOf;
    var p' := Refill(kind, part, p, seeded, pod);
    MintAllLength(kind, part, Script(kind, p, seeded, ID_BLK_SIZE, TEID_FREE_FLOOR).1);
    forall q: nat ensures RingBound(p', q) {
      assert RingBound(p, q);
    }
    if Owned(kind, part, p) && Bounded(kind, p') {
      RefillOwned(kind, part, p, seeded, pod);
    }
  }

  lemma RefillOwned(kind: IdKind, part: nat, p: Pool, seeded: bool, pod: nat)
    requires part < NUM_PARTS && FreeOk(kind, p) && Owned(kind, part, p)
    requires Bounded(kind, Refill(kind, part, p, seeded, pod))
    ensures Owned(kind, part, Refill(kind, part, p, seeded, pod)) && SameOut(p, Refill(kind, part, p, seeded, pod))
  {
    hide Mint, LocalOf, FreeOk, MintAll, FreeIds, Genuine, FreeOwned;
    var p' := Refill(kind, part, p, seeded, pod);
    var ids := MintAll(kind, part, Script(kind, p, seeded, ID_BLK_SIZE, TEID_FREE_FLOOR).1);
    ScriptOwned(kind, part, p, seeded, InReply(pod));
    RingsStay(p, ids, InFree, InReply(pod));
    RingsEqual(p, p', p'.place);
    AsksStay(p, ids, InFree, InReply(pod));
  }

  lemma LoseRefillKeeps(kind: IdKind, part: nat, p: Pool, seeded: bool)
    requires Shape(kind, part, p)
    ensures var p' := LoseRefill(kind, part, p, seeded);
            && Shape(kind, part, p') && Later(p, p')
            && (Owned(kind, part, p) && Bounded(kind, p') ==> Owned(kind, part, p') && SameOut(p, p'))
  {
    hide Mint, LocalOf;
    var p' := LoseRefill(kind, part, p, seeded);
    forall q: nat ensures RingBound(p', q) {
      assert RingBound(p, q);
    }
    if Owned(kind, part, p) && Bounded(kind, p') {
      LoseRefillOwned(kind, part, p, seeded);
    }
  }

  lemma LoseRefillOwned(kind: IdKind, part: nat, p: Pool, seeded: bool)
    requires part < NUM_PARTS && FreeOk(kind, p) && Owned(kind, part, p)
    requires Bounded(kind, LoseRefill(kind, part, p, seeded))
    ensures Owned(kind, part, LoseRefill(kind, part, p, seeded)) && SameOut(p, LoseRefill(kind, part, p, seeded))
  {
    hide Mint, LocalOf, FreeOk, MintAll, FreeIds, Genuine, FreeOwned;
    var p' := LoseRefill(kind, part, p, seeded);
    var ids := MintAll(kind, part, Script(kind, p, seeded, ID_BLK_SIZE, TEID_FREE_FLOOR).1);
    ScriptOwned(kind, part, p, seeded, Lost);
    RingsStay(p, ids, InFree, Lost);
    RingsEqual(p, p', p'.place);
    AsksStay(p, ids, InFree, Lost);
  }

  // The ring is never full when a refill arrives, so no leased id is dropped.
  lemma RefillFits(kind: IdKind, part: nat, p: Pool, pod: nat)
    requires Shape(kind, part, p) && p.AskOf(pod).Replied?
    ensures Fill(p.Ring(pod), p.AskOf(pod).ids) == p.Ring(pod) + p.AskOf(pod).ids
    ensures |p.Ring(pod) + p.AskOf(pod).ids| <= 319 < RING_USABLE
  {
    assert RingBound(p, pod);
  }

  lemma DeliverKeeps(kind: IdKind, part: nat, p: Pool, pod: nat, ok: bool)
    requires Shape(kind, part, p)
    ensures var p' := Deliver(p, pod, ok);
            && Shape(kind, part, p') && Later(p, p')
            && (Owned(kind, part, p) ==> Owned(kind, part, p') && SameOut(p, p'))
            && p'.AskOf(pod).Idle?
            && p'.Ring(pod) == p.Ring(pod) + (if ok && p.AskOf(pod).Replied? then p.AskOf(pod).ids else [])
            && OnlyOf(p, p', pod)
  {
    hide Mint, LocalOf;
    var p' := Deliver(p, pod, ok);
    assert RingBound(p, pod);
    forall q: nat ensures RingBound(p', q) {
      assert RingBound(p, q) && RingBound(p, pod);
    }
    if Owned(kind, part, p) {
      if ok && p.AskOf(pod).Replied? {
        RefillFits(kind, part, p, pod);
        DeliverOwned(kind, part, p, pod);
      } else {
        RingsEqual(p, p', p'.place);
      }
    }
  }

  lemma DeliverOwned(kind: IdKind, part: nat, p: Pool, pod: nat)
    requires Owned(kind, part, p) && p.AskOf(pod).Replied?
    requires Fill(p.Ring(pod), p.AskOf(pod).ids) == p.Ring(pod) + p.AskOf(pod).ids
    ensures Owned(kind, part, Deliver(p, pod, true)) && SameOut(p, Deliver(p, pod, true))
  {
    hide Mint, LocalOf;
    var p' := Deliver(p, pod, true);
    var ids := p.AskOf(pod).ids;
    assert AllAt(p.place, ids, InReply(pod)) && AllAt(p.place, p.Ring(pod), InRing(pod));
    RingsStay(p, ids, InReply(pod), InRing(pod));
    DeliverRings(p, p', pod, ids);
    forall q: nat | p'.AskOf(q).Replied? ensures AllAt(p'.place, p'.AskOf(q).ids, InReply(q)) {
      assert q != pod && p'.AskOf(q) == p.AskOf(q);
      Unmoved(p.place, p.AskOf(q).ids, InReply(q), ids, InReply(pod), InRing(pod));
    }
    Unmoved(p.place, FreeIds(part, p.free), InFree, ids, InReply(pod), InRing(pod));
  }

  lemma DeliverRings(p: Pool, p': Pool, pod: nat, ids: seq<nat>)
    requires RingsOwned(p, p'.place) && AllAt(p'.place, ids, InRing(pod))
    requires p'.rings == p.rings[pod := p.Ring(pod) + ids]
    requires forall id :: id in p.Ring(pod) ==> id !in ids
    ensures RingsOwned(p', p'.place)
  {
    forall q: nat ensures AllAt(p'.place, p'.Ring(q), InRing(q)) {
      assert AllAt(p'.place, p.Ring(q), InRing(q));
      if q == pod {
        AllAtBoth(p'.place, p.Ring(q), ids, InRing(q));
      } else {
        assert p'.Ring(q) == p.Ring(q);
      }
    }
  }

  lemma RestartKeeps(kind: IdKind, part: nat, p: Pool, pod: nat)
    requires Shape(kind, part, p)
    ensures var p' := Restart(p, pod);
            && Shape(kind, part, p') && Later(p, p')
            && (Owned(kind, part, p) ==> Owned(kind, part, p') && SameOut(p, p'))
  {
    hide Mint, LocalOf;
    var p' := Restart(p, pod);
    forall q: nat ensures RingBound(p', q) {
      assert RingBound(p, q);
    }
    if Owned(kind, part, p) {
      forall q: nat ensures AllAt(p'.place, p'.Ring(q), InRing(q)) {
        assert AllAt(p.place, p.Ring(q), InRing(q));
      }
    }
  }

  // --- freeing ---

  // An id that is out decodes to the local index that mints it again.
  lemma FreedComesBack(part: nat, p: Pool, id: nat)
    requires Genuine(Teids, part, p.next, p.place) && id in p.place
    ensures Mint(Teids, part, TeidLocal(id)) == Some(id)
    ensures part * TEID_PART + TeidLocal(id) == id && 0 < TeidLocal(id) < TEID_PART
  {
    TeidRoundTrip(part, TeidLocal(id) % U32);
  }

  lemma FreeShape(part: nat, p: Pool, id: nat)
    requires Shape(Teids, part, p)
    ensures Shape(Teids, part, Free(p, id)) && Later(p, Free(p, id))
  {
    var p' := Free(p, id);
    forall q: nat ensures RingBound(p', q) {
      assert RingBound(p, q);
    }
  }

  // Giving back a TEID that is out keeps every id at one place.
  lemma FreeKeeps(part: nat, p: Pool, id: nat)
    requires Owned(Teids, part, p)
    requires id in p.place && p.place[id] == Out
    ensures Owned(Teids, part, Free(p, id))
  {
    hide Mint, LocalOf, FreeOwned;
    var p' := Free(p, id);
    RingsStay(p, [id], Out, InFree);
    RingsEqual(p, p', p'.place);
    AsksStay(p, [id], Out, InFree);
    FreeListGrows(part, p, id);
  }

  lemma FreeListGrows(part: nat, p: Pool, id: nat)
    requires Genuine(Teids, part, p.next, p.place) && FreeOwned(part, p.free, p.place)
    requires id in p.place && p.place[id] == Out
    ensures FreeOwned(part, Free(p, id).free, Free(p, id).place)
  {
    FreedComesBack(part, p, id);
    FreeAppend(part, p.free, p.place, Freed(TeidLocal(id), p.frees), id);
  }

  lemma FreeAppend(part: nat, free: seq<Freed>, place: map<nat, Place>, f: Freed, id: nat)
    requires FreeOwned(part, free, place) && id in place && place[id] == Out
    requires part * TEID_PART + f.local == id && 0 < f.local < TEID_PART
    ensures FreeOwned(part, free + [f], Mark(place, [id], InFree))
  {
    var ids := FreeIds(part, free);
    assert FreeIds(part, free + [f]) == ids + [id];
    AllAtBoth(Mark(place, [id], InFree), ids, [id], InFree);
  }

  // --- what the free list and the counter promise ---

  // Quarantine: when the script pops a TEID, at least floor + 1 - block later
  // frees lie between its free and now, for every floor and block size.
  lemma Quarantine(p: Pool, seeded: bool, blk: nat, floor: nat, i: nat)
    requires FreeOk(Teids, p) && 0 < blk <= floor + 1
    requires |p.free| > floor && i < |Script(Teids, p, seeded, blk, floor).1|
    ensures i < blk && p.free[i].local == Script(Teids, p, seeded, blk, floor).1[i]
    ensures p.frees - p.free[i].stamp - 1 >= floor + 1 - blk
  {
  }

  // Frees and script runs on one free list, whatever the block and the floor.
  datatype FreeMove = FreeIt(id: nat) | RunIt(seeded: bool)

  function Moved(p: Pool, ms: seq<FreeMove>, blk: nat, floor: nat): Pool {
    if ms == [] then p
    else
      var q := Moved(p, ms[..|ms| - 1], blk, floor);
      match ms[|ms| - 1]
      case FreeIt(id) => Free(q, id)
      case RunIt(seeded) => Script(Teids, q, seeded, blk, floor).0
  }

  function Frees(ms: seq<FreeMove>): nat {
    if ms == [] then 0 else Frees(ms[..|ms| - 1]) + if ms[|ms| - 1].FreeIt? then 1 else 0
  }

  // The entry's free is the move at `a`: it pushed this index, and as many frees
  // came before it as the stamp says.
  ghost predicate FreedBy(ms: seq<FreeMove>, f: Freed, a: nat) {
    a < |ms| && ms[a].FreeIt? && TeidLocal(ms[a].id) == f.local && Frees(ms[..a]) == f.stamp
  }

  ghost predicate WasFreed(ms: seq<FreeMove>, f: Freed) { exists a: nat :: FreedBy(ms, f, a) }

  ghost predicate AllFreedBy(ms: seq<FreeMove>, free: seq<Freed>) {
    forall i :: 0 <= i < |free| ==> WasFreed(ms, free[i])
  }

  // The free list stays a queue of the latest frees, and each entry is one.
  lemma {:induction false} FreeListIsQueue(p: Pool, ms: seq<FreeMove>, blk: nat, floor: nat)
    requires p.free == [] && p.frees == 0
    ensures var q := Moved(p, ms, blk, floor);
            FreeOk(Teids, q) && q.frees == Frees(ms) && AllFreedBy(ms, q.free)
  {
    if ms != [] {
      var n := |ms| - 1;
      var q := Moved(p, ms[..n], blk, floor);
      FreeListIsQueue(p, ms[..n], blk, floor);
      match ms[n]
      case FreeIt(id) => FreedOneMore(ms, q.free, Freed(TeidLocal(id), q.frees));
      case RunIt(seeded) =>
        RunLeaves(q, seeded, blk, floor);
        FreedStays(ms, q.free, |q.free| - |Script(Teids, q, seeded, blk, floor).0.free|);
    }
  }

  lemma RunLeaves(q: Pool, seeded: bool, blk: nat, floor: nat)
    requires FreeOk(Teids, q)
    ensures var q' := Script(Teids, q, seeded, blk, floor).0;
            && FreeOk(Teids, q') && q'.frees == q.frees && |q'.free| <= |q.free|
            && q'.free == q.free[|q.free| - |q'.free|..]
  {
  }

  lemma FreedStays(ms: seq<FreeMove>, free: seq<Freed>, d: nat)
    requires ms != [] && AllFreedBy(ms[..|ms| - 1], free) && d <= |free|
    ensures AllFreedBy(ms, free[d..])
  {
    var tail := free[d..];
    forall i | 0 <= i < |tail| ensures WasFreed(ms, tail[i]) {
      assert tail[i] == free[d + i] && WasFreed(ms[..|ms| - 1], free[d + i]);
      var a: nat :| FreedBy(ms[..|ms| - 1], free[d + i], a);
      assert ms[..|ms| - 1][..a] == ms[..a];
      assert FreedBy(ms, tail[i], a);
    }
  }

  lemma FreedOneMore(ms: seq<FreeMove>, free: seq<Freed>, f: Freed)
    requires ms != [] && AllFreedBy(ms[..|ms| - 1], free)
    requires ms[|ms| - 1].FreeIt? && f == Freed(TeidLocal(ms[|ms| - 1].id), Frees(ms[..|ms| - 1]))
    ensures AllFreedBy(ms, free + [f])
  {
    FreedStays(ms, free, 0);
    assert free[0..] == free;
    var all := free + [f];
    forall i | 0 <= i < |all| ensures WasFreed(ms, all[i]) {
      if i == |free| {
        assert FreedBy(ms, all[i], |ms| - 1);
      } else {
        assert all[i] == free[i] && WasFreed(ms, free[i]);
      }
    }
  }

  // Quarantine over any run: the entry the script pops was made by one free, and
  // at least floor + 1 - block later frees lie behind that free, for all floors
  // and blocks with block at most floor + 1.
  lemma QuarantineInEveryRun(p: Pool, ms: seq<FreeMove>, seeded: bool, blk: nat, floor: nat, i: nat)
    requires p.free == [] && p.frees == 0 && 0 < blk <= floor + 1
    requires var q := Moved(p, ms, blk, floor);
             |q.free| > floor && i < |Script(Teids, q, seeded, blk, floor).1|
    ensures var q := Moved(p, ms, blk, floor);
            && i < |q.free| && Script(Teids, q, seeded, blk, floor).1[i] == q.free[i].local
            && (exists a: nat :: FreedBy(ms, q.free[i], a))
            && (forall a: nat :: FreedBy(ms, q.free[i], a) ==> Frees(ms) - Frees(ms[..a]) - 1 >= floor + 1 - blk)
  {
    FreeListIsQueue(p, ms, blk, floor);
    var q := Moved(p, ms, blk, floor);
    Quarantine(q, seeded, blk, floor, i);
    hide Moved, Script, Frees, FreeOk;
    assert WasFreed(ms, q.free[i]);
  }

  // No other free has that entry's stamp.
  lemma {:induction false} FreeIsUnique(ms: seq<FreeMove>, f: Freed, a: nat, b: nat)
    requires FreedBy(ms, f, a) && FreedBy(ms, f, b)
    ensures a == b
  {
    if a < b {
      FreesGrow(ms, a, b);
    } else if b < a {
      FreesGrow(ms, b, a);
    }
  }

  lemma {:induction false} FreesGrow(ms: seq<FreeMove>, a: nat, b: nat)
    requires a < b <= |ms| && ms[a].FreeIt?
    ensures Frees(ms[..a]) < Frees(ms[..b])
  {
    assert ms[..b][..b - 1] == ms[..b - 1];
    if a < b - 1 {
      FreesGrow(ms, a, b - 1);
    }
  }

  // The bound is met: the last entry popped from a list one longer than the
  // floor saw exactly that many later frees.
  lemma QuarantineTight(p: Pool, seeded: bool, blk: nat, floor: nat)
    requires FreeOk(Teids, p) && 0 < blk <= floor + 1 && |p.free| == floor + 1
    ensures |Script(Teids, p, seeded, blk, floor).1| == blk
    ensures p.frees - p.free[blk - 1].stamp - 1 == floor + 1 - blk
  {
  }

  // When a fresh block mints a TEID whose index the counter already passed.
  predicate Reissues(part: nat, base: nat) {
    exists l :: base <= l < base + ID_BLK_SIZE
                && Mint(Teids, part, l).Some? && TeidLocal(Mint(Teids, part, l).value) < base
  }

  // Exactly when: the block reaches past 2^32, and the narrowed indices fall
  // in the 21-bit range.
  lemma ReissueExactly(part: nat, base: nat)
    requires part < NUM_PARTS
    ensures Reissues(part, base) <==>
              && base + ID_BLK_SIZE - 1 > U32
              && (base % U32 < TEID_PART || base % U32 + ID_BLK_SIZE - 1 > U32)
  {
    MintedIndex(part, base);
    if base + ID_BLK_SIZE - 1 > U32 {
      if base % U32 == 0 || base % U32 + ID_BLK_SIZE - 1 > U32 {
        WrapsToOne(part, base);
      } else if base % U32 < TEID_PART {
        assert Mint(Teids, part, base).Some?;
      }
    }
  }

  lemma MintedIndex(part: nat, base: nat)
    ensures forall l :: base <= l < base + ID_BLK_SIZE && Mint(Teids, part, l).Some? ==>
              TeidLocal(Mint(Teids, part, l).value) == l % U32 < TEID_PART
  {
  }

  // A block that reaches the next multiple of 2^32 mints index 1 past it.
  lemma WrapsToOne(part: nat, base: nat)
    requires part < NUM_PARTS && base + ID_BLK_SIZE - 1 > U32
    requires base % U32 == 0 || base % U32 + ID_BLK_SIZE - 1 > U32
    ensures Reissues(part, base)
  {
    var l := OnePast(base);
    TeidRoundTrip(part, 1);
    hide TeidLocal;
    assert Mint(Teids, part, l) == TeidEncode(part, 1);
  }

  lemma OnePast(base: nat) returns (l: nat)
    ensures base < l && l % U32 == 1 && l - base == if base % U32 == 0 then 1 else U32 - base % U32 + 1
  {
    var q, r := base / U32, base % U32;
    l := (if r == 0 then q else q + 1) * U32 + 1;
  }

  // The first block past the bound hands out index 1 again.
  lemma CounterPastBoundReissues(part: nat)
    requires part < NUM_PARTS
    ensures Mint(Teids, part, U32 + 1) == Mint(Teids, part, 1) == TeidEncode(part, 1)
    ensures Reissues(part, U32 + 1)
  {
  }
}
