// The context pool of stubs/v_stub_mem: blocks stamped with a magic number while
// they are out, so that a second free is noticed.
module CtxPool {
  import opened Flow

  const MAGIC: nat := 0x5345_5343

  class CtxBlock {
    var magic: nat
    var val: Ctx

    constructor ()
      ensures magic == 0
    {
      magic, val := 0, Blank;
    }
  }

  // `all` are the blocks of the mempool, `avail` those in it.
  class Pool {
    const all: seq<CtxBlock>
    var avail: seq<CtxBlock>

    // A block is in the mempool exactly when it does not carry the magic.
    ghost predicate Valid() reads this, all {
      && (forall i, j :: 0 <= i < j < |all| ==> all[i] != all[j])
      && (forall i, j :: 0 <= i < j < |avail| ==> avail[i] != avail[j])
      && (forall b :: b in avail ==> b in all)
      && (forall b :: b in all ==> (b.magic == MAGIC <==> b !in avail))
    }

    ghost function Used(): set<CtxBlock> reads this {
      (set b | b in all && b !in avail)
    }

    constructor (blocks: seq<CtxBlock>)
      requires forall i, j :: 0 <= i < j < |blocks| ==> blocks[i] != blocks[j]
      requires forall b :: b in blocks ==> b.magic == 0
      ensures Valid() && all == blocks && Used() == {}
    {
      all := blocks;
      avail := blocks;
    }

    // v_port_ctx_alloc: a zeroed, stamped block, or nothing when all are out.
    method Alloc() returns (b: CtxBlock?)
      requires Valid()
      modifies this, all
      ensures Valid()
      ensures b == null <==> old(avail) == []
      ensures b == null ==> avail == old(avail) && forall x :: x in all ==> x.val == old(x.val)
      ensures b != null ==>
                && b in all && b !in old(Used()) && Used() == old(Used()) + {b} && b.val == Blank
                && forall x :: x in all && x != b ==> x.val == old(x.val) && x.magic == old(x.magic)
    {
      if avail == [] { return null; }
      b := avail[0];
      assert b in avail && b in all;
      avail := avail[1..];
      b.magic, b.val := 0, Blank;
      b.magic := MAGIC;
      assert forall x :: x in old(avail) && x != b ==> x in avail;
    }

    // v_port_ctx_free: a block without the magic is refused, so freeing twice
    // changes nothing the second time.
    method Free(b: CtxBlock?)
      requires Valid() && (b != null ==> b in all)
      modifies this, all
      ensures Valid()
      ensures b != null && b in old(Used()) ==>
                && Used() == old(Used()) - {b} && b.val == Blank && b.magic != MAGIC
                && forall x :: x in all && x != b ==> x.val == old(x.val) && x.magic == old(x.magic)
      ensures b == null || b !in old(Used()) ==>
                avail == old(avail) && forall x :: x in all ==> x.val == old(x.val) && x.magic == old(x.magic)
    {
      if b == null { return; }
      if b.magic != MAGIC { return; }
      b.magic, b.val := 0, Blank;
      avail := avail + [b];
    }

    // v_port_ctx_clear: everything goes but the magic.
    method Clear(b: CtxBlock?)
      requires Valid() && (b != null ==> b in all)
      modifies all
      ensures Valid() && avail == old(avail)
      ensures b != null ==> b.val == Blank
      ensures forall x :: x in all && x != b ==> x.val == old(x.val)
    {
      if b == null { return; }
      var magic := b.magic;
      b.magic, b.val := 0, Blank;
      b.magic := magic;
    }

    // v_port_ctx_pool_in_use
    method InUse() returns (n: nat)
      requires Valid()
      ensures n == |Used()|
    {
      InUseIsCount(all, avail);
      n := |all| - |avail|;
    }
  }

  function ToSet(s: seq<CtxBlock>): set<CtxBlock> { set b | b in s }

  lemma {:induction false} SizeOfDistinct(s: seq<CtxBlock>)
    requires forall i, j :: 0 <= i < j < |s| ==> s[i] != s[j]
    ensures |ToSet(s)| == |s|
  {
    if s != [] {
      var n := |s| - 1;
      SizeOfDistinct(s[..n]);
      assert ToSet(s) == ToSet(s[..n]) + {s[n]} && s[n] !in ToSet(s[..n]);
    }
  }

  // Capacity less what is available is the number of blocks out.
  lemma InUseIsCount(all: seq<CtxBlock>, avail: seq<CtxBlock>)
    requires forall i, j :: 0 <= i < j < |all| ==> all[i] != all[j]
    requires forall i, j :: 0 <= i < j < |avail| ==> avail[i] != avail[j]
    requires forall b :: b in avail ==> b in all
    ensures |(set b | b in all && b !in avail)| == |all| - |avail|
  {
    SizeOfDistinct(all);
    SizeOfDistinct(avail);
    assert (set b | b in all && b !in avail) == ToSet(all) - ToSet(avail);
    assert ToSet(avail) <= ToSet(all);
  }
}
