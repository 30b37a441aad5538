// The callbacks the ports still owe a pod, late ones included. A callback names
// its transaction; the code does not look whether it is still there.
module Deliveries {
  import opened Seid
  import opened Flow
  import opened Ledger

  // `due` are the callbacks outstanding, by number, and the transaction each is
  // to be called with; `expired` the transactions the sweeper destroyed.
  datatype Bench = Bench(pod: Pod, due: map<nat, nat>, next: nat, expired: set<nat>)

  const QUIET: Bench := Bench(IDLE, map[], 0, {})

  datatype Deed =
    | Arrival(req: Req, env: Env)
    | Delivery(n: nat, r: Reply, env: Env)
    | Timeout(id: nat)

  // The callback will be called with a transaction that is no longer there.
  predicate Late(b: Bench, n: nat)
    requires n in b.due
  {
    b.due[n] !in b.pod.live
  }

  predicate CanPerform(b: Bench, d: Deed) {
    match d
    case Arrival(_, _) => true
    case Delivery(n, r, env) => n in b.due && (!Late(b, n) ==> CanMove(b.pod, Hear(b.due[n], r, env)))
    case Timeout(id) => id in b.pod.live
  }

  // A transaction that waits again has issued one request, and one callback.
  function Owed(due: map<nat, nat>, next: nat, p: Pod, id: nat): map<nat, nat> {
    if id in p.live then due[next := id] else due
  }

  function Perform(b: Bench, d: Deed): Bench
    requires CanPerform(b, d)
  {
    match d
    case Arrival(req, env) =>
      var p := Do(b.pod, Arrive(req, env));
      Bench(p, Owed(b.due, b.next, p, b.pod.next), b.next + 1, b.expired)
    case Delivery(n, r, env) =>
      if Late(b, n) then b.(due := b.due - {n})
      else
        var id := b.due[n];
        var p := Do(b.pod, Hear(id, r, env));
        Bench(p, Owed(b.due - {n}, b.next, p, id), b.next + 1, b.expired)
    case Timeout(id) => b.(pod := Do(b.pod, Expire(id)), expired := b.expired + {id})
  }

  predicate CanPlay(b: Bench, ds: seq<Deed>)
    decreases |ds|
  {
    ds == [] || (CanPerform(b, ds[0]) && CanPlay(Perform(b, ds[0]), ds[1..]))
  }

  function PlayAll(b: Bench, ds: seq<Deed>): Bench
    requires CanPlay(b, ds)
    decreases |ds|
  {
    if ds == [] then b else PlayAll(Perform(b, ds[0]), ds[1..])
  }

  // Every live transaction is owed exactly one callback, and a callback that is
  // owed to no live transaction is owed to one that timed out.
  ghost predicate DueOk(b: Bench) {
    && (forall n :: n in b.due ==> n < b.next && b.due[n] < b.pod.next)
    && (forall n, m :: n in b.due && m in b.due && n != m ==> b.due[n] != b.due[m])
    && (forall id :: id in b.pod.live ==> Expected(b, id))
    && (forall n :: n in b.due ==> b.due[n] in b.pod.live || b.due[n] in b.expired)
    && (forall id :: id in b.expired ==> id !in b.pod.live && id < b.pod.next)
  }

  ghost predicate Expected(b: Bench, id: nat) { exists n :: n in b.due && b.due[n] == id }

  ghost predicate BenchOk(b: Bench) { Books(b.pod) && DueOk(b) }

  // What a move does to the set of live transactions.
  lemma MoveLives(p: Pod, m: Move)
    requires Books(p) && CanMove(p, m)
    ensures var p' := Do(p, m);
            && p.next <= p'.next
            && (m.Arrive? ==> p'.live.Keys - {p.next} == p.live.Keys && p.next !in p.live
                              && (p.next in p'.live ==> p'.next == p.next + 1))
            && (m.Hear? ==> p'.live.Keys - {m.id} == p.live.Keys - {m.id} && p'.next == p.next)
            && (m.Expire? ==> p'.live.Keys == p.live.Keys - {m.id} && p'.next == p.next)
  {
    hide BookAll, Callback, SeidValidate, PoolOk, CountsOk, EndsOk;
  }

  lemma PerformKeeps(b: Bench, d: Deed)
    requires BenchOk(b) && CanPerform(b, d)
    ensures BenchOk(Perform(b, d))
  {
    hide Books, Do;
    match d
    case Arrival(req, env) =>
      MoveKeepsBooks(b.pod, Arrive(req, env));
      MoveLives(b.pod, Arrive(req, env));
      ArrivalKeeps(b, Perform(b, d));
    case Delivery(n, r, env) =>
      if !Late(b, n) {
        MoveKeepsBooks(b.pod, Hear(b.due[n], r, env));
        MoveLives(b.pod, Hear(b.due[n], r, env));
      }
      DeliveryKeeps(b, Perform(b, d), n);
    case Timeout(id) =>
      MoveKeepsBooks(b.pod, Move.Expire(id));
      MoveLives(b.pod, Move.Expire(id));
  }

  // A request that starts a transaction is owed its first callback.
  lemma ArrivalKeeps(b: Bench, b': Bench)
    requires DueOk(b) && b.pod.next !in b.pod.live && b.pod.next <= b'.pod.next
    requires b'.pod.live.Keys - {b.pod.next} == b.pod.live.Keys
    requires b.pod.next in b'.pod.live ==> b'.pod.next == b.pod.next + 1
    requires b'.due == Owed(b.due, b.next, b'.pod, b.pod.next) && b'.next == b.next + 1 && b'.expired == b.expired
    ensures DueOk(b')
  {
    var id := b.pod.next;
    forall o | o != id ensures o in b'.pod.live <==> o in b.pod.live {
      assert o in b'.pod.live.Keys - {id} <==> o in b.pod.live.Keys;
    }
    if id in b'.pod.live {
      OwedNew(b, b', id);
    } else {
      OwedNothing(b, b');
    }
  }

  // A transaction that is owed nothing is owed one callback more.
  lemma OwedNew(b: Bench, b': Bench, id: nat)
    requires DueOk(b) && id !in b.pod.live && id !in b.expired && id in b'.pod.live && id < b'.pod.next
    requires b.pod.next <= b'.pod.next && b'.next == b.next + 1 && b'.expired == b.expired
    requires b'.due == b.due[b.next := id]
    requires forall o :: o != id ==> (o in b'.pod.live <==> o in b.pod.live)
    ensures DueOk(b')
  {
    forall o | o in b'.pod.live ensures Expected(b', o) {
      if o == id {
        assert b'.due[b.next] == o;
      } else {
        assert Expected(b, o);
        var m :| m in b.due && b.due[m] == o;
        assert m in b'.due && b'.due[m] == o;
      }
    }
  }

  lemma OwedNothing(b: Bench, b': Bench)
    requires DueOk(b) && b.pod.next !in b.pod.live && b.pod.next !in b'.pod.live && b.pod.next <= b'.pod.next
    requires b'.next == b.next + 1 && b'.expired == b.expired && b'.due == b.due
    requires forall o :: o != b.pod.next ==> (o in b'.pod.live <==> o in b.pod.live)
    ensures DueOk(b')
  {
    forall o | o in b'.pod.live ensures Expected(b', o) {
      assert Expected(b, o);
      var m :| m in b.due && b.due[m] == o;
      assert b'.due[m] == o;
    }
  }

  // A callback that was owed is delivered, and at most one new one is owed, to
  // the same transaction.
  lemma DeliveryKeeps(b: Bench, b': Bench, n: nat)
    requires DueOk(b) && n in b.due && b'.expired == b.expired && b.pod.next == b'.pod.next
    requires if Late(b, n) then b' == b.(due := b.due - {n})
             else
               var id := b.due[n];
               && b'.pod.live.Keys - {id} == b.pod.live.Keys - {id}
               && b'.due == Owed(b.due - {n}, b.next, b'.pod, id) && b'.next == b.next + 1
    ensures DueOk(b')
  {
    var id := b.due[n];
    forall o | o != id ensures o in b'.pod.live <==> o in b.pod.live {
      if !Late(b, n) {
        assert o in b'.pod.live.Keys - {id} <==> o in b.pod.live.Keys - {id};
      }
    }
    if id in b'.pod.live {
      var mid := b.(due := b.due - {n}, pod := b.pod.(live := b.pod.live - {id}));
      OwedNoMore(b, mid, n);
      OwedNew(mid, b', id);
    } else {
      OwedNoMore(b, b', n);
    }
  }

  lemma OwedNoMore(b: Bench, b': Bench, n: nat)
    requires DueOk(b) && n in b.due && b'.expired == b.expired && b.pod.next == b'.pod.next
    requires b.due[n] !in b'.pod.live && b.next <= b'.next && b'.due == b.due - {n}
    requires forall o :: o != b.due[n] ==> (o in b'.pod.live <==> o in b.pod.live)
    ensures DueOk(b')
  {
    forall o | o in b'.pod.live ensures Expected(b', o) {
      assert Expected(b, o);
      var m :| m in b.due && b.due[m] == o;
      assert m in b'.due && b'.due[m] == o;
    }
  }

  lemma {:induction false} PlayKeeps(b: Bench, ds: seq<Deed>)
    requires BenchOk(b) && CanPlay(b, ds)
    ensures BenchOk(PlayAll(b, ds))
    decreases |ds|
  {
    hide BenchOk, Perform, CanPerform;
    if ds != [] {
      PerformKeeps(b, ds[0]);
      PlayKeeps(Perform(b, ds[0]), ds[1..]);
    }
  }

  lemma QuietIsOk()
    ensures BenchOk(QUIET)
  {
    IdleBooks();
  }

  // --- what callbacks find ---

  // In every run a callback finds its transaction gone exactly when the sweeper
  // destroyed it; every live transaction is owed one callback and no other.
  lemma LateExactlyAfterTimeout(ds: seq<Deed>, n: nat)
    requires CanPlay(QUIET, ds) && n in PlayAll(QUIET, ds).due
    ensures var b := PlayAll(QUIET, ds);
            && (Late(b, n) <==> b.due[n] in b.expired)
            && (forall m :: m in b.due && b.due[m] == b.due[n] ==> m == n)
            && (forall id :: id in b.pod.live ==> Expected(b, id))
  {
    QuietIsOk();
    PlayKeeps(QUIET, ds);
  }

  // So without a hard timeout no callback is ever late.
  lemma {:induction false} NeverLateWithoutTimeouts(b: Bench, ds: seq<Deed>)
    requires BenchOk(b) && b.expired == {} && CanPlay(b, ds) && forall d :: d in ds ==> !d.Timeout?
    ensures PlayAll(b, ds).expired == {} && forall n :: n in PlayAll(b, ds).due ==> !Late(PlayAll(b, ds), n)
    decreases |ds|
  {
    hide Perform, CanPerform, BenchOk;
    if ds != [] {
      PerformKeeps(b, ds[0]);
      ExpiresByTimeout(b, ds[0]);
      NeverLateWithoutTimeouts(Perform(b, ds[0]), ds[1..]);
    } else {
      NoneExpiredNoneLate(b);
    }
  }

  lemma ExpiresByTimeout(b: Bench, d: Deed)
    requires CanPerform(b, d) && !d.Timeout?
    ensures Perform(b, d).expired == b.expired
  {
    hide Do, CanMove;
  }

  lemma NoneExpiredNoneLate(b: Bench)
    requires BenchOk(b) && b.expired == {}
    ensures forall n :: n in b.due ==> !Late(b, n)
  {
    hide Books;
  }

  // And every hard timeout leaves exactly one callback behind that is late.
  lemma TimeoutLeavesOneLate(b: Bench, id: nat) returns (n: nat)
    requires BenchOk(b) && CanPerform(b, Deed.Timeout(id))
    ensures var b' := Perform(b, Deed.Timeout(id));
            && n in b'.due && Late(b', n) && !Late(b, n)
            && forall m :: m in b'.due && m != n ==> (Late(b', m) <==> Late(b, m))
  {
    hide Books, BookAll;
    assert Expected(b, id);
    n :| n in b.due && b.due[n] == id;
  }
}
