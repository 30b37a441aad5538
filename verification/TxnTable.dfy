// The transaction table of stubs/v_stub_txn: a fixed array of slots scanned
// linearly, with one hard timeout for each transaction.
module TxnTable {
  const HARD_TIMEOUT_MS: nat := 2000

  class Entry {
    var deadline: nat
    var seid: nat
    var smf: nat
    var sn: nat

    constructor (deadline: nat)
      ensures this.deadline == deadline && seid == 0 && smf == 0 && sn == 0
    {
      this.deadline := deadline;
      seid, smf, sn := 0, 0, 0;
    }
  }

  // The first slot that holds x, if any.
  ghost predicate FirstAt(s: seq<Entry?>, x: Entry?, i: int) {
    -1 <= i < |s|
    && (i >= 0 ==> s[i] == x)
    && (forall j :: 0 <= j < (if i >= 0 then i else |s|) ==> s[j] != x)
  }

  // Which slots have timed out and were not fired for.
  predicate Due(s: seq<Entry?>, fired: seq<bool>, now: nat, i: nat)
    requires i < |s| == |fired|
    reads set e: Entry | e in s
  {
    s[i] != null && !fired[i] && s[i].deadline <= now
  }

  class Table {
    const slots: array<Entry?>
    const fired: array<bool>
    var now: nat
    // Every timeout fired so far, in order.
    ghost var expired: seq<Entry>

    // A transaction is in at most one slot.
    ghost predicate Valid() reads this, slots {
      && slots.Length == fired.Length
      && forall i, j :: 0 <= i < j < slots.Length && slots[i] != null ==> slots[i] != slots[j]
    }

    constructor (cap: nat)
      ensures Valid() && fresh(slots) && fresh(fired) && slots.Length == cap && now == 0 && expired == []
      ensures forall i :: 0 <= i < cap ==> slots[i] == null && !fired[i]
    {
      slots := new Entry?[cap](i => null);
      fired := new bool[cap](i => false);
      now := 0;
      expired := [];
    }

    // The linear scan of v_port_txn_create and slot_of.
    method Find(x: Entry?) returns (slot: int)
      ensures FirstAt(slots[..], x, slot)
    {
      slot := -1;
      var i := 0;
      while i < slots.Length
        invariant 0 <= i <= slots.Length
        invariant slot == -1
        invariant forall j :: 0 <= j < i ==> slots[j] != x
      {
        if slots[i] == x { return i; }
        i := i + 1;
      }
    }

    // v_port_txn_create: the first free slot, and a deadline.
    method Create(pooled: bool) returns (t: Entry?)
      requires Valid()
      modifies slots, fired
      ensures Valid()
      ensures t == null <==> !pooled || null !in old(slots[..])
      ensures t == null ==> slots[..] == old(slots[..]) && fired[..] == old(fired[..])
      ensures t != null ==>
                && fresh(t) && t.deadline == now + HARD_TIMEOUT_MS
                && exists i :: FirstAt(old(slots[..]), null, i) && 0 <= i < slots.Length
                               && slots[..] == old(slots[..])[i := t] && fired[..] == old(fired[..])[i := false]
    {
      var slot := Find(null);
      if slot < 0 || !pooled { return null; }
      t := new Entry(now + HARD_TIMEOUT_MS);
      slots[slot] := t;
      fired[slot] := false;
    }

    // v_port_txn_destroy: a transaction that is not in the table is refused, so
    // destroying twice changes nothing the second time.
    method Destroy(t: Entry?)
      requires Valid()
      modifies slots, fired
      ensures Valid()
      ensures t == null || t !in old(slots[..]) ==> slots[..] == old(slots[..]) && fired[..] == old(fired[..])
      ensures t != null && t in old(slots[..]) ==>
                && t !in slots[..]
                && exists i :: 0 <= i < slots.Length && old(slots[i]) == t
                               && slots[..] == old(slots[..])[i := null] && fired[..] == old(fired[..])[i := false]
    {
      if t == null { return; }
      var slot := Find(t);
      if slot < 0 { return; }
      slots[slot] := null;
      fired[slot] := false;
    }

    // v_port_txn_find_by_seid: some live transaction with this SEID.
    method FindBySeid(seid: nat) returns (t: Entry?)
      ensures t != null ==> t in slots[..] && t.seid == seid
      ensures t == null ==> forall e :: e in slots[..] && e != null ==> e.seid != seid
    {
      t := null;
      var i := 0;
      while i < slots.Length
        invariant 0 <= i <= slots.Length
        invariant forall j :: 0 <= j < i && slots[j] != null ==> slots[j].seid != seid
      {
        if slots[i] != null && slots[i].seid == seid { return slots[i]; }
        i := i + 1;
      }
    }

    // v_port_txn_test_advance_ms with a handler that destroys the transaction:
    // exactly the transactions past their deadline are handed to it, once each.
    method Advance(ms: nat)
      requires Valid()
      modifies this, slots, fired
      ensures Valid() && now == old(now) + ms
      ensures forall i :: 0 <= i < slots.Length ==>
                slots[i] == if old(slots[i] != null && !fired[i] && slots[i].deadline <= now + ms) then null
                            else old(slots[i])
      ensures fired[..] == old(fired[..])
      ensures old(expired) <= expired
      ensures forall e: Entry :: e in expired[|old(expired)|..]
                <==> exists i :: 0 <= i < slots.Length && old(slots[i]) == e
                                 && old(!fired[i]) && e.deadline <= now
      ensures forall a, b :: |old(expired)| <= a < b < |expired| ==> expired[a] != expired[b]
    {
      now := now + ms;
      ghost var was := slots[..];
      ghost var done := fired[..];
      ghost var from := |expired|;
      var i := 0;
      while i < slots.Length
        invariant 0 <= i <= slots.Length && now == old(now) + ms
        invariant from <= |expired| && expired[..from] == old(expired)
        invariant forall j :: 0 <= j < i ==> slots[j] == if Due(was, done, now, j) then null else was[j]
        invariant forall j :: i <= j < slots.Length ==> slots[j] == was[j] && fired[j] == done[j]
        invariant fired[..] == done
        invariant forall e: Entry :: e in expired[from..]
                    <==> exists j :: 0 <= j < i && was[j] == e && Due(was, done, now, j)
        invariant forall a, b :: from <= a < b < |expired| ==> expired[a] != expired[b]
        invariant Valid()
      {
        var t := slots[i];
        if t != null && !fired[i] && t.deadline <= now {
          fired[i] := true;
          assert t !in expired[from..];
          ghost var before := expired;
          expired := expired + [t];
          Destroy(t);
          assert fired[..] == done;
          assert expired[from..] == before[from..] + [t];
          assert Due(was, done, now, i);
        } else {
          assert !Due(was, done, now, i);
        }
        i := i + 1;
      }
    }
  }
}
