// One pod's books over any run of arrivals, replies and timeouts: which
// transactions are live, which context blocks are out of the pool, and the log
// of what was created, answered and destroyed.
module Ledger {
  import opened Wrappers
  import opened Seid
  import opened Flow

  // Refused is the answer to a request that got no transaction.
  datatype Event = Made(id: nat) | Said(id: nat, rsp: Rsp) | Died(id: nat) | Refused(rsp: Rsp)

  // A live transaction and the one request it waits for.
  datatype Awaiting = Awaiting(t: Txn, cmd: Cmd)

  // The context pool and the decoded requests: `used` are the blocks out of the
  // pool, `inUse` the pool's own count, `msgs` the requests not given back. An
  // operation the pool would refuse clears `ok`.
  datatype Stock = Stock(used: set<nat>, inUse: int, msgs: int, ok: bool)

  // `lost` is history: the snapshots that timed-out modifications dropped.
  datatype Pod = Pod(live: map<nat, Awaiting>, stock: Stock, lost: set<nat>, log: seq<Event>, next: nat)

  const IDLE: Pod := Pod(map[], Stock({}, 0, 0, true), {}, [], 0)

  datatype Move =
    | Arrive(req: Req, env: Env)
    | Hear(id: nat, r: Reply, env: Env)
    | Expire(id: nat)

  // --- the books ---

  function Book(x: Stock, op: PoolOp): Stock {
    match op
    case TakeCtx(b) => Stock(x.used + {b}, x.inUse + 1, x.msgs, x.ok && b !in x.used)
    case PutCtx(b) => Stock(x.used - {b}, x.inUse - 1, x.msgs, x.ok && b in x.used)
    case PutReq => x.(msgs := x.msgs - 1)
  }

  function BookAll(x: Stock, ops: seq<PoolOp>): Stock
    decreases |ops|
  {
    if ops == [] then x else BookAll(Book(x, ops[0]), ops[1..])
  }

  // What a callback of transaction `id` leaves: the pool operations, at most one
  // datagram, and the transaction destroyed or waiting again.
  function Land(p: Pod, id: nat, out: Out): Pod {
    var p1 := p.(stock := BookAll(p.stock, out.ops));
    var said := if out.send.Some? then [Said(id, out.send.value)] else [];
    match out.fate
    case Gone => p1.(live := p1.live - {id}, log := p1.log + said + [Died(id)])
    case Await(t, cmd) => p1.(live := p1.live[id := Awaiting(t, cmd)], log := p1.log + said)
  }

  predicate CanMove(p: Pod, m: Move) {
    match m
    case Arrive(_, _) => true
    // The pool hands out a block that is in it.
    case Hear(id, r, env) =>
      && id in p.live && Wf(p.live[id].t) && Fits(p.live[id].t.cb, r)
      && (env.blk.Some? ==> env.blk.value !in p.stock.used)
    case Expire(id) => id in p.live
  }

  function Do(p: Pod, m: Move): Pod
    requires CanMove(p, m)
  {
    match m
    case Arrive(req, env) =>
      var (made, out) := Start(req, env);
      var p1 := p.(stock := p.stock.(msgs := p.stock.msgs + 1));
      if made then Land(p1.(log := p.log + [Made(p.next)], next := p.next + 1), p.next, out)
      else
        p1.(stock := BookAll(p1.stock, out.ops),
            log := if out.send.Some? then p.log + [Refused(out.send.value)] else p.log)
    case Hear(id, r, env) => Land(p, id, Callback(p.live[id].t, r, env))
    case Expire(id) =>
      var t := p.live[id].t;
      Land(p, id, TimeoutHandler(t)).(lost := p.lost + (if t.impl.Some? then {t.impl.value.blk} else {}))
  }

  predicate CanRun(p: Pod, ms: seq<Move>)
    decreases |ms|
  {
    ms == [] || (CanMove(p, ms[0]) && CanRun(Do(p, ms[0]), ms[1..]))
  }

  function RunAll(p: Pod, ms: seq<Move>): Pod
    requires CanRun(p, ms)
    decreases |ms|
  {
    if ms == [] then p else RunAll(Do(p, ms[0]), ms[1..])
  }

  // --- who holds which block ---

  function InSlot(slot: Option<Slot>): set<nat> { if slot.Some? then {slot.value.blk} else {} }

  function PutSlot(slot: Option<Slot>): seq<PoolOp> { if slot.Some? then [PutCtx(slot.value.blk)] else [] }

  function CtxOf(t: Txn): set<nat> { InSlot(t.ctx) }

  function ImplOf(t: Txn): set<nat> { InSlot(t.impl) }

  predicate Apart(t: Txn) { CtxOf(t) !! ImplOf(t) }

  function Blocks(t: Txn): set<nat> { CtxOf(t) + ImplOf(t) }

  // Every block out of the pool is in exactly one field of one live
  // transaction, or was lost.
  ghost predicate Accounts(live: map<nat, Awaiting>, used: set<nat>, lost: set<nat>) {
    && lost <= used
    && (forall id :: id in live ==> Apart(live[id].t) && Blocks(live[id].t) <= used - lost)
    && (forall b :: b in used ==> b in lost || exists id :: id in live && b in Blocks(live[id].t))
    && (forall i, j :: i in live && j in live && i != j ==> Blocks(live[i].t) !! Blocks(live[j].t))
  }

  ghost predicate PoolOk(p: Pod) { p.stock.ok && Accounts(p.live, p.stock.used, p.lost) }

  ghost predicate WaitsOk(p: Pod) {
    forall id :: id in p.live ==> id < p.next && Wf(p.live[id].t) && Asks(p.live[id].t, p.live[id].cmd)
  }

  // The pool's own count and the requests still held.
  ghost predicate CountsOk(p: Pod) { p.stock.inUse == |p.stock.used| && p.stock.msgs == |p.live| }

  function Deaths(log: seq<Event>, id: nat): nat {
    if log == [] then 0
    else Deaths(log[..|log| - 1], id) + if log[|log| - 1] == Died(id) then 1 else 0
  }

  function Births(log: seq<Event>, id: nat): nat {
    if log == [] then 0
    else Births(log[..|log| - 1], id) + if log[|log| - 1] == Made(id) then 1 else 0
  }

  function Sayings(log: seq<Event>, id: nat): nat {
    if log == [] then 0
    else
      var e := log[|log| - 1];
      Sayings(log[..|log| - 1], id) + if e.Said? && e.id == id then 1 else 0
  }

  // Created once, answered only when it ends, ended once.
  ghost predicate EndsOk(p: Pod) {
    forall id: nat ::
      && Births(p.log, id) == (if id < p.next then 1 else 0)
      && Deaths(p.log, id) == (if id < p.next && id !in p.live then 1 else 0)
      && Sayings(p.log, id) <= Deaths(p.log, id)
  }

  ghost predicate Books(p: Pod) {
    PoolOk(p) && WaitsOk(p) && CountsOk(p) && EndsOk(p)
  }

  // --- what a callback does to the pool ---

  // Blocks `gone` went back and blocks `got` came out.
  ghost predicate Trades(x: Stock, y: Stock, gone: set<nat>, got: set<nat>, msgs: int) {
    && y.used == x.used - gone + got
    && (x.inUse == |x.used| ==> y.inUse == |y.used|)
    && y.msgs == x.msgs + msgs
    && (x.ok ==> y.ok)
  }

  lemma TradesThen(x: Stock, y: Stock, z: Stock, gone1: set<nat>, got: set<nat>, gone2: set<nat>, m: int, n: int)
    requires Trades(x, y, gone1, got, m) && Trades(y, z, gone2, {}, n) && gone2 !! got
    ensures Trades(x, z, gone1 + gone2, got, m + n)
  {
  }

  lemma {:induction false} BookBoth(x: Stock, a: seq<PoolOp>, b: seq<PoolOp>)
    ensures BookAll(x, a + b) == BookAll(BookAll(x, a), b)
    decreases |a|
  {
    if a == [] {
      assert a + b == b;
    } else {
      assert (a + b)[1..] == a[1..] + b;
      BookBoth(Book(x, a[0]), a[1..], b);
    }
  }

  lemma PutTrades(x: Stock, slot: Option<Slot>)
    requires InSlot(slot) <= x.used
    ensures Trades(x, BookAll(x, PutSlot(slot)), InSlot(slot), {}, 0)
  {
  }

  lemma TakeTrades(x: Stock, b: nat)
    requires b !in x.used
    ensures Trades(x, BookAll(x, [TakeCtx(b)]), {}, {b}, 0)
  {
  }

  lemma LastTrades(x: Stock, ctx: Option<Slot>)
    requires InSlot(ctx) <= x.used
    ensures Trades(x, BookAll(x, PutSlot(ctx) + [PutReq]), InSlot(ctx), {}, -1)
  {
    var y := BookAll(x, PutSlot(ctx));
    BookBoth(x, PutSlot(ctx), [PutReq]);
    PutTrades(x, ctx);
    assert BookAll(y, [PutReq]) == Book(y, PutReq);
    hide BookAll, InSlot, PutSlot;
  }

  // Ending: the blocks held and the request go back.
  lemma EndTrades(x: Stock, drop: Option<Slot>, ctx: Option<Slot>)
    requires InSlot(drop) <= x.used && InSlot(ctx) <= x.used && InSlot(drop) !! InSlot(ctx)
    ensures Trades(x, BookAll(x, PutSlot(drop) + (PutSlot(ctx) + [PutReq])), InSlot(drop) + InSlot(ctx), {}, -1)
  {
    hide BookAll, InSlot, PutSlot;
    var y := BookAll(x, PutSlot(drop));
    BookBoth(x, PutSlot(drop), PutSlot(ctx) + [PutReq]);
    PutTrades(x, drop);
    LastTrades(y, ctx);
    TradesThen(x, y, BookAll(y, PutSlot(ctx) + [PutReq]), InSlot(drop), {}, InSlot(ctx), 0, -1);
  }

  // The blocks a transaction still holds after a callback.
  function Left(out: Out): set<nat> {
    if out.fate.Await? then Blocks(out.fate.t) else {}
  }

  // A callback trades the blocks it held for the blocks it holds, and gives the
  // request back exactly when it ends.
  ghost predicate Balances(x: Stock, t: Txn, out: Out) {
    && Trades(x, BookAll(x, out.ops), Blocks(t), Left(out), if out.fate.Gone? then -1 else 0)
    && (out.fate.Await? ==> Apart(out.fate.t) && Left(out) !! (x.used - Blocks(t)))
    && (out.send.Some? ==> out.fate.Gone?)
  }

  ghost predicate Ready(x: Stock, t: Txn, env: Env) {
    && Wf(t) && Apart(t) && Blocks(t) <= x.used
    && (env.blk.Some? ==> env.blk.value !in x.used)
  }

  // Which operations a callback books, by what becomes of its two blocks.
  predicate Bookings(t: Txn, env: Env, out: Out) {
    var put := PutSlot(t.ctx);
    var drop := PutSlot(t.impl);
    match out.fate
    case Gone =>
      || out.ops == drop + (put + [PutReq])
      || (t.impl.None? && env.blk.Some? && t.ctx.None?
          && out.ops == [TakeCtx(env.blk.value)] + ([PutCtx(env.blk.value)] + [PutReq]))
      || (t.impl.None? && env.blk.Some?
          && out.ops == [TakeCtx(env.blk.value)] + ([PutCtx(env.blk.value)] + (put + [PutReq])))
    case Await(u, _) =>
      || (out.ops == [] && CtxOf(u) == CtxOf(t) && ImplOf(u) == ImplOf(t))
      || (out.ops == drop && CtxOf(u) == CtxOf(t) && u.impl.None?)
      || (env.blk.Some? && t.ctx.None? && t.impl.None? && out.ops == [TakeCtx(env.blk.value)]
          && CtxOf(u) == {env.blk.value} && u.impl.None?)
      || (env.blk.Some? && t.impl.None? && out.ops == [TakeCtx(env.blk.value)]
          && CtxOf(u) == CtxOf(t) && ImplOf(u) == {env.blk.value})
  }

  lemma EstBooks(t: Txn, r: Reply, env: Env)
    requires Wf(t) && Fits(t.cb, r)
    requires IsEst(t.cb)
    ensures Bookings(t, env, Callback(t, r, env))
  {
  }

  lemma ModBooks(t: Txn, r: Reply, env: Env)
    requires Wf(t) && Fits(t.cb, r)
    requires IsMod(t.cb)
    ensures Bookings(t, env, Callback(t, r, env))
  {
  }

  lemma DelBooks(t: Txn, r: Reply, env: Env)
    requires Wf(t) && Fits(t.cb, r)
    requires IsDel(t.cb)
    ensures Bookings(t, env, Callback(t, r, env))
  {
  }

  // A block taken on the way and given back again, then the ending.
  lemma TakenEndTrades(x: Stock, b: nat, ctx: Option<Slot>)
    requires b !in x.used && InSlot(ctx) <= x.used
    ensures Trades(x, BookAll(x, [TakeCtx(b), PutCtx(b)] + (PutSlot(ctx) + [PutReq])), InSlot(ctx), {}, -1)
  {
    hide BookAll, InSlot, PutSlot, Trades;
    var y := BookAll(x, [TakeCtx(b), PutCtx(b)]);
    BookBoth(x, [TakeCtx(b), PutCtx(b)], PutSlot(ctx) + [PutReq]);
    BackAgain(x, b);
    LastTrades(y, ctx);
  }

  lemma BackAgain(x: Stock, b: nat)
    requires b !in x.used
    ensures BookAll(x, [TakeCtx(b), PutCtx(b)]) == x
  {
    var y := Book(x, TakeCtx(b));
    assert [TakeCtx(b), PutCtx(b)][1..] == [PutCtx(b)];
    assert BookAll(y, [PutCtx(b)]) == Book(y, PutCtx(b));
    assert x.used + {b} - {b} == x.used;
  }

  lemma GoneBalances(x: Stock, t: Txn, env: Env, out: Out)
    requires Ready(x, t, env) && Bookings(t, env, out) && out.fate.Gone?
    ensures Balances(x, t, out)
  {
    hide BookAll, Trades;
    EndTrades(x, t.impl, t.ctx);
    assert Blocks(t) == ImplOf(t) + CtxOf(t);
    if env.blk.Some? {
      var b := env.blk.value;
      TakenEndTrades(x, b, t.ctx);
      var put := PutSlot(t.ctx) + [PutReq];
      assert [TakeCtx(b)] + ([PutCtx(b)] + put) == [TakeCtx(b), PutCtx(b)] + put;
      assert t.ctx.None? ==> put == [PutReq];
      assert t.impl.None? ==> Blocks(t) == InSlot(t.ctx);
    }
  }

  lemma AwaitBalances(x: Stock, t: Txn, env: Env, out: Out)
    requires Ready(x, t, env) && Bookings(t, env, out) && out.fate.Await? && out.send.None?
    ensures Balances(x, t, out)
  {
    hide BookAll, InSlot, PutSlot, Trades, Balances, Blocks;
    var u := out.fate.t;
    NoSlots(t, u);
    if env.blk.Some? && out.ops == [TakeCtx(env.blk.value)] {
      TakenBalances(x, t, out, env.blk.value);
    } else if out.ops == [] && CtxOf(u) == CtxOf(t) && ImplOf(u) == ImplOf(t) {
      KeptBalances(x, t, out);
    } else {
      DroppedBalances(x, t, out);
    }
  }

  lemma NoSlots(t: Txn, u: Txn)
    ensures t.impl.None? ==> PutSlot(t.impl) == [] && ImplOf(t) == {}
    ensures t.ctx.None? ==> CtxOf(t) == {}
    ensures u.impl.None? ==> ImplOf(u) == {}
    ensures PutSlot(t.impl) == [] || PutSlot(t.impl)[0].PutCtx?
  {
  }

  lemma KeptBalances(x: Stock, t: Txn, out: Out)
    requires Apart(t) && Blocks(t) <= x.used && out.fate.Await? && out.send.None?
    requires out.ops == [] && CtxOf(out.fate.t) == CtxOf(t) && ImplOf(out.fate.t) == ImplOf(t)
    ensures Balances(x, t, out)
  {
  }

  lemma DroppedBalances(x: Stock, t: Txn, out: Out)
    requires Apart(t) && Blocks(t) <= x.used && out.fate.Await? && out.send.None?
    requires out.ops == PutSlot(t.impl) && CtxOf(out.fate.t) == CtxOf(t) && ImplOf(out.fate.t) == {}
    ensures Balances(x, t, out)
  {
    PutTrades(x, t.impl);
    hide InSlot, PutSlot, BookAll;
    assert x.used - Blocks(t) + CtxOf(t) == x.used - ImplOf(t);
    assert CtxOf(t) + {} == CtxOf(t);
  }

  lemma TakenBalances(x: Stock, t: Txn, out: Out, b: nat)
    requires Apart(t) && Blocks(t) <= x.used && b !in x.used && out.fate.Await? && out.send.None?
    requires out.ops == [TakeCtx(b)] && ImplOf(t) == {}
    requires (CtxOf(out.fate.t) == {b} && ImplOf(out.fate.t) == {} && CtxOf(t) == {})
             || (CtxOf(out.fate.t) == CtxOf(t) && ImplOf(out.fate.t) == {b})
    ensures Balances(x, t, out)
  {
    hide InSlot, BookAll, Trades;
    TakeTrades(x, b);
    TakenTrades(x, BookAll(x, out.ops), Blocks(t), b);
    assert Blocks(out.fate.t) == Blocks(t) + {b};
  }

  lemma TakenTrades(x: Stock, y: Stock, held: set<nat>, b: nat)
    requires Trades(x, y, {}, {b}, 0) && held <= x.used
    ensures Trades(x, y, held, held + {b}, 0)
  {
  }

  lemma CallBalances(x: Stock, t: Txn, r: Reply, env: Env)
    requires Ready(x, t, env) && Fits(t.cb, r)
    ensures Balances(x, t, Callback(t, r, env))
  {
    hide BookAll, InSlot, PutSlot, Trades, Callback, Bookings, Balances;
    var out := Callback(t, r, env);
    CallBooks(t, r, env);
    if out.fate.Gone? {
      GoneBalances(x, t, env, out);
    } else {
      AwaitBalances(x, t, env, out);
    }
  }

  lemma CallBooks(t: Txn, r: Reply, env: Env)
    requires Wf(t) && Fits(t.cb, r)
    ensures Bookings(t, env, Callback(t, r, env))
    ensures Callback(t, r, env).send.Some? ==> Callback(t, r, env).fate.Gone?
  {
    hide Bookings, Callback;
    if IsEst(t.cb) {
      EstBooks(t, r, env);
    } else if IsDel(t.cb) {
      DelBooks(t, r, env);
    } else {
      ModBooks(t, r, env);
    }
    SaysOnlyAtTheEnd(t, r, env);
  }

  // A callback that hands its transaction on sends nothing.
  lemma SaysOnlyAtTheEnd(t: Txn, r: Reply, env: Env)
    requires Wf(t) && Fits(t.cb, r)
    ensures Callback(t, r, env).send.Some? ==> Callback(t, r, env).fate.Gone?
  {
  }

  // --- the invariant over runs ---

  function Held(p: Pod, id: nat): set<nat> { if id in p.live then Blocks(p.live[id].t) else {} }

  // One transaction's blocks change; the others keep theirs.
  lemma PoolStays(p: Pod, p': Pod, id: nat, left: set<nat>, lost: set<nat>)
    requires PoolOk(p)
    requires forall o :: o != id ==> (o in p'.live <==> o in p.live) && (o in p.live ==> p'.live[o] == p.live[o])
    requires id in p'.live ==> Apart(p'.live[id].t)
    requires Held(p', id) == left && left !! lost && lost <= Held(p, id)
    requires p'.stock.used == p.stock.used - Held(p, id) + (left + lost)
    requires left !! (p.stock.used - Held(p, id))
    requires p'.stock.ok && p'.lost == p.lost + lost
    ensures PoolOk(p')
  {
  }

  lemma Counted(log: seq<Event>, e: Event, id: nat)
    ensures Deaths(log + [e], id) == Deaths(log, id) + (if e == Died(id) then 1 else 0)
    ensures Births(log + [e], id) == Births(log, id) + (if e == Made(id) then 1 else 0)
    ensures Sayings(log + [e], id) == Sayings(log, id) + (if e.Said? && e.id == id then 1 else 0)
  {
  }

  // A transaction that ends says at most one thing, then dies.
  lemma EndsStay(p: Pod, p': Pod, id: nat, out: Out)
    requires EndsOk(p) && id in p.live && id < p.next
    requires out.send.Some? ==> out.fate.Gone?
    requires p' == Land(p, id, out).(stock := p'.stock, lost := p'.lost)
    ensures EndsOk(p')
  {
    hide BookAll;
    var said := if out.send.Some? then [Said(id, out.send.value)] else [];
    forall o: nat
      ensures Births(p'.log, o) == (if o < p'.next then 1 else 0)
      ensures Deaths(p'.log, o) == (if o < p'.next && o !in p'.live then 1 else 0)
      ensures Sayings(p'.log, o) <= Deaths(p'.log, o)
    {
      if said == [] {
        assert p.log + said == p.log;
      } else {
        Counted(p.log, said[0], o);
      }
      Counted(p.log + said, Died(id), o);
    }
  }

  lemma LandKeepsPool(p: Pod, p': Pod, id: nat, out: Out)
    requires PoolOk(p) && id in p.live && Balances(p.stock, p.live[id].t, out)
    requires p' == Land(p, id, out)
    ensures PoolOk(p')
  {
    hide BookAll, Blocks, Apart, Accounts;
    PoolStays(p, p', id, Left(out), {});
  }

  lemma LandKeepsCounts(p: Pod, p': Pod, id: nat, out: Out)
    requires CountsOk(p) && id in p.live && Balances(p.stock, p.live[id].t, out)
    requires p' == Land(p, id, out)
    ensures CountsOk(p')
  {
  }

  lemma LandKeepsWaits(p: Pod, p': Pod, id: nat, out: Out)
    requires WaitsOk(p) && id in p.live && Continues(p.live[id].t, out)
    requires p' == Land(p, id, out)
    ensures WaitsOk(p')
  {
  }

  lemma HearKeeps(p: Pod, id: nat, r: Reply, env: Env)
    requires Books(p) && CanMove(p, Hear(id, r, env))
    ensures Books(Do(p, Hear(id, r, env)))
  {
    hide BookAll, Callback, EndsOk, CountsOk, Land, Blocks, Apart, Asks, Wf, Fits, Balances, Trades, WaitsOk;
    var t := p.live[id].t;
    var out := Callback(t, r, env);
    var p' := Do(p, Hear(id, r, env));
    assert id < p.next by { LiveIsOld(p, id); }
    CallBalances(p.stock, t, r, env);
    assert out.send.Some? ==> out.fate.Gone? by { SaysOnlyAtTheEnd(t, r, env); }
    EndsStay(p, p', id, out);
    LandKeepsPool(p, p', id, out);
    LandKeepsCounts(p, p', id, out);
    LandKeepsWaits(p, p', id, out);
  }

  lemma LiveIsOld(p: Pod, id: nat)
    requires WaitsOk(p) && id in p.live
    ensures id < p.next
  {
  }

  lemma ExpireKeeps(p: Pod, id: nat)
    requires Books(p) && CanMove(p, Move.Expire(id))
    ensures Books(Do(p, Move.Expire(id)))
  {
    hide BookAll, EndsOk, Asks, Wf, PoolOk, Land;
    var t := p.live[id].t;
    var p' := Do(p, Move.Expire(id));
    EndsStay(p, p', id, TimeoutHandler(t));
    ExpireKeepsPool(p, p', id);
  }

  lemma ExpireKeepsPool(p: Pod, p': Pod, id: nat)
    requires PoolOk(p) && CountsOk(p) && WaitsOk(p) && id in p.live && p' == Do(p, Move.Expire(id))
    ensures PoolOk(p') && CountsOk(p') && WaitsOk(p')
  {
    hide BookAll, Asks, Wf, Accounts, Trades;
    var t := p.live[id].t;
    assert Blocks(t) <= p.stock.used && Apart(t) by { HeldIsOut(p, id); }
    LastTrades(p.stock, t.ctx);
    assert Trades(p.stock, p'.stock, CtxOf(t), {}, -1);
    ExpiredPool(p, p', id, t);
  }

  lemma HeldIsOut(p: Pod, id: nat)
    requires PoolOk(p) && id in p.live
    ensures Blocks(p.live[id].t) <= p.stock.used && Apart(p.live[id].t)
  {
  }

  lemma ExpiredPool(p: Pod, p': Pod, id: nat, t: Txn)
    requires PoolOk(p) && CountsOk(p) && WaitsOk(p) && id in p.live && t == p.live[id].t
    requires Trades(p.stock, p'.stock, CtxOf(t), {}, -1) && Blocks(t) <= p.stock.used && Apart(t)
    requires p'.live == p.live - {id} && p'.lost == p.lost + ImplOf(t) && p'.next == p.next
    ensures PoolOk(p') && CountsOk(p') && WaitsOk(p')
  {
    hide Accounts, InSlot, Wf, Asks, CountsOk, WaitsOk;
    assert p.stock.used - CtxOf(t) == p.stock.used - Blocks(t) + ({} + ImplOf(t));
    PoolStays(p, p', id, {}, ImplOf(t));
    ExpiredCounts(p, p', id, t);
  }

  lemma ExpiredCounts(p: Pod, p': Pod, id: nat, t: Txn)
    requires CountsOk(p) && WaitsOk(p) && id in p.live
    requires Trades(p.stock, p'.stock, CtxOf(t), {}, -1) && p'.live == p.live - {id} && p'.next == p.next
    ensures CountsOk(p') && WaitsOk(p')
  {
    hide InSlot, Wf, Asks;
  }

  lemma ArriveKeeps(p: Pod, req: Req, env: Env)
    requires Books(p)
    ensures Books(Do(p, Arrive(req, env)))
  {
    hide Start, PoolOk, EndsOk, WaitsOk, CountsOk, BookAll;
    var (made, out) := Start(req, env);
    var p' := Do(p, Arrive(req, env));
    assert p.next !in p.live by { NextIsNew(p); }
    StartBooks(p.stock, req, env);
    if made {
      MadeKeepsEnds(p, p', out);
      if out.fate.Await? {
        NoOps(p.stock.(msgs := p.stock.msgs + 1));
        ArrivedPool(p, p', p.next, Awaiting(out.fate.t, out.fate.cmd));
      } else {
        assert p'.live == p.live;
        StillbornPool(p, p');
      }
    } else {
      StillbornPool(p, p');
      RefusedKeepsEnds(p, p', out);
    }
  }

  lemma RefusedKeepsEnds(p: Pod, p': Pod, out: Out)
    requires EndsOk(p)
    requires p' == p.(log := if out.send.Some? then p.log + [Refused(out.send.value)] else p.log)
    ensures EndsOk(p')
  {
    if out.send.Some? {
      forall o: nat
        ensures Births(p'.log, o) == Births(p.log, o) && Deaths(p'.log, o) == Deaths(p.log, o)
        ensures Sayings(p'.log, o) == Sayings(p.log, o)
      {
        Counted(p.log, Refused(out.send.value), o);
      }
    }
  }

  lemma NoOps(x: Stock)
    ensures BookAll(x, []) == x
  {
  }

  lemma NextIsNew(p: Pod)
    requires WaitsOk(p)
    ensures p.next !in p.live
  {
  }

  // A request that starts no transaction is given back at once.
  lemma StartBooks(x: Stock, req: Req, env: Env)
    ensures var (made, out) := Start(req, env); var x1 := x.(msgs := x.msgs + 1);
            && (out.fate.Gone? ==> BookAll(x1, out.ops) == x)
            && (out.fate.Await? ==> made && out.ops == [] && Wf(out.fate.t) && Asks(out.fate.t, out.fate.cmd)
                                    && Blocks(out.fate.t) == {} && Apart(out.fate.t))
            && (made ==> out.send.None?)
  {
  }

  lemma ArrivedPool(p: Pod, p': Pod, id: nat, w: Awaiting)
    requires PoolOk(p) && CountsOk(p) && WaitsOk(p) && id == p.next && id !in p.live
    requires p'.stock == p.stock.(msgs := p.stock.msgs + 1) && p'.lost == p.lost && p'.next == id + 1
    requires p'.live == p.live[id := w] && Wf(w.t) && Asks(w.t, w.cmd) && Blocks(w.t) == {} && Apart(w.t)
    ensures PoolOk(p') && CountsOk(p') && WaitsOk(p')
  {
    hide Accounts, Wf, Asks, Blocks, Apart;
    PoolStays(p, p', id, {}, {});
  }

  // A transaction that could issue nothing is gone at once.
  lemma StillbornPool(p: Pod, p': Pod)
    requires PoolOk(p) && CountsOk(p) && WaitsOk(p)
    requires p'.stock == p.stock && p'.lost == p.lost && p'.live == p.live && p.next <= p'.next
    ensures PoolOk(p') && CountsOk(p') && WaitsOk(p')
  {
  }

  lemma MadeKeepsEnds(p: Pod, p': Pod, out: Out)
    requires EndsOk(p) && p.next !in p.live && out.send.None?
    requires p' == Land(p.(log := p.log + [Made(p.next)], next := p.next + 1), p.next, out)
                     .(stock := p'.stock, lost := p'.lost)
    ensures EndsOk(p')
  {
    hide BookAll;
    forall o: nat
      ensures Births(p'.log, o) == (if o < p'.next then 1 else 0)
      ensures Deaths(p'.log, o) == (if o < p'.next && o !in p'.live then 1 else 0)
      ensures Sayings(p'.log, o) <= Deaths(p'.log, o)
    {
      var log := p.log + [Made(p.next)];
      Counted(p.log, Made(p.next), o);
      Counted(log, Died(p.next), o);
      assert log + [] == log;
    }
  }

  lemma MoveKeepsBooks(p: Pod, m: Move)
    requires Books(p) && CanMove(p, m)
    ensures Books(Do(p, m))
  {
    hide Books, Do;
    match m
    case Arrive(req, env) => ArriveKeeps(p, req, env);
    case Hear(id, r, env) => HearKeeps(p, id, r, env);
    case Expire(id) => ExpireKeeps(p, id);
  }

  lemma {:induction false} RunKeepsBooks(p: Pod, ms: seq<Move>)
    requires Books(p) && CanRun(p, ms)
    ensures Books(RunAll(p, ms)) && p.next <= RunAll(p, ms).next
    decreases |ms|
  {
    hide Books;
    if ms != [] {
      MoveKeepsBooks(p, ms[0]);
      NextGrows(p, ms[0]);
      RunKeepsBooks(Do(p, ms[0]), ms[1..]);
    }
  }

  lemma NextGrows(p: Pod, m: Move)
    requires CanMove(p, m)
    ensures p.next <= Do(p, m).next
    ensures forall id :: id in Do(p, m).live ==> id in p.live || id >= p.next
  {
  }

  lemma IdleBooks()
    ensures Books(IDLE)
  {
  }

  // --- what the books promise ---

  // Every transaction created is destroyed exactly once, unless it is live; it
  // sends at most one datagram, and none before it ends; while it lives it
  // waits for exactly the one request it issued.
  lemma ExactlyOneEnding(ms: seq<Move>, id: nat)
    requires CanRun(IDLE, ms)
    ensures var p := RunAll(IDLE, ms);
            && (id < p.next ==> Births(p.log, id) == 1)
            && (id < p.next ==> Deaths(p.log, id) == if id in p.live then 0 else 1)
            && Sayings(p.log, id) <= Deaths(p.log, id)
            && (id in p.live ==> id < p.next && Asks(p.live[id].t, p.live[id].cmd))
  {
    IdleBooks();
    RunKeepsBooks(IDLE, ms);
  }

  // Nothing reaches a transaction once it is gone.
  lemma {:induction false} GoneForGood(p: Pod, ms: seq<Move>, id: nat)
    requires Books(p) && CanRun(p, ms) && id < p.next && id !in p.live
    ensures id !in RunAll(p, ms).live
    decreases |ms|
  {
    hide Books, Do, CanMove;
    if ms != [] {
      MoveKeepsBooks(p, ms[0]);
      NextGrows(p, ms[0]);
      GoneForGood(Do(p, ms[0]), ms[1..], id);
    }
  }

  // The ctx and impl fields that are set, over all live transactions.
  function Fields(live: map<nat, Awaiting>): set<(nat, bool)> {
    (set id | id in live && live[id].t.ctx.Some? :: (id, false))
    + (set id | id in live && live[id].t.impl.Some? :: (id, true))
  }

  lemma {:induction false} FieldsCount(live: map<nat, Awaiting>, used: set<nat>, lost: set<nat>)
    requires Accounts(live, used, lost)
    ensures |used| == |Fields(live)| + |lost|
    decreases |live|
  {
    if live == map[] {
      assert used == lost && Fields(live) == {};
    } else {
      var id :| id in live;
      FieldsRest(live, used, lost, id);
      FieldsCount(live - {id}, used - Blocks(live[id].t), lost);
      BlocksCount(used, live[id].t);
      FieldsOfOne(live, id);
    }
  }

  lemma FieldsRest(live: map<nat, Awaiting>, used: set<nat>, lost: set<nat>, id: nat)
    requires Accounts(live, used, lost) && id in live
    ensures Accounts(live - {id}, used - Blocks(live[id].t), lost)
  {
    hide Blocks, Apart;
    var rest := live - {id};
    forall b | b in used - Blocks(live[id].t) && b !in lost
      ensures exists o :: o in rest && b in Blocks(rest[o].t)
    {
      var o :| o in live && b in Blocks(live[o].t);
      assert o in rest;
    }
  }

  function Set(slot: Option<Slot>): nat { if slot.Some? then 1 else 0 }

  lemma BlocksCount(used: set<nat>, t: Txn)
    requires Apart(t) && Blocks(t) <= used
    ensures |used| == |used - Blocks(t)| + Set(t.ctx) + Set(t.impl)
  {
  }

  lemma FieldsOfOne(live: map<nat, Awaiting>, id: nat)
    requires id in live
    ensures |Fields(live)| == |Fields(live - {id})| + Set(live[id].t.ctx) + Set(live[id].t.impl)
  {
    var t := live[id].t;
    var rest := Fields(live - {id});
    var ctx := if t.ctx.Some? then {(id, false)} else {};
    var impl := if t.impl.Some? then {(id, true)} else {};
    FieldsSplit(live, id, ctx + impl);
    assert |ctx| == Set(t.ctx) && |impl| == Set(t.impl) && |ctx + impl| == |ctx| + |impl|;
    assert |rest + (ctx + impl)| == |rest| + |ctx + impl|;
  }

  lemma FieldsSplit(live: map<nat, Awaiting>, id: nat, mine: set<(nat, bool)>)
    requires id in live
    requires mine == (if live[id].t.ctx.Some? then {(id, false)} else {})
                     + (if live[id].t.impl.Some? then {(id, true)} else {})
    ensures Fields(live) == Fields(live - {id}) + mine && Fields(live - {id}) !! mine
  {
  }

  // The pool's in-use count is the number of ctx and impl fields set in live
  // transactions plus the snapshots timeouts dropped; no block is in two fields,
  // and no operation was refused.
  lemma PoolInUse(ms: seq<Move>)
    requires CanRun(IDLE, ms)
    ensures var p := RunAll(IDLE, ms);
            && p.stock.inUse == |Fields(p.live)| + |p.lost|
            && p.stock.msgs == |p.live|
            && p.stock.ok
            && (p.live == map[] && p.lost == {} ==> p.stock.used == {} && p.stock.inUse == 0 && p.stock.msgs == 0)
            && forall i, j :: i in p.live && j in p.live && i != j ==> Blocks(p.live[i].t) !! Blocks(p.live[j].t)
  {
    IdleBooks();
    RunKeepsBooks(IDLE, ms);
    var p := RunAll(IDLE, ms);
    FieldsCount(p.live, p.stock.used, p.lost);
  }

  // A snapshot is lost exactly when a modification times out between its write
  // and the VDP's answer.
  lemma SnapshotLost(p: Pod, m: Move)
    requires Books(p) && CanMove(p, m)
    ensures Do(p, m).lost != p.lost
            <==> m.Expire? && (p.live[m.id].t.cb.ModWriteCb? || p.live[m.id].t.cb.ModVdpCb?)
  {
    hide Callback, BookAll, SeidValidate, EndsOk, CountsOk;
    if m.Expire? && p.live[m.id].t.impl.Some? {
      assert p.live[m.id].t.impl.value.blk in Blocks(p.live[m.id].t);
      assert p.live[m.id].t.impl.value.blk !in p.lost;
    }
  }

  // A SEID of partition 0, and ports that answer well with this block.
  const A_SEID: nat := SEID_FMT

  function WellWith(blk: nat): Env { Env(true, 0, 0, 0, Some(blk), true, true, true, true, true) }

  // And such a timeout is reached: a modification reads, writes and times out.
  lemma LossIsReachable() returns (ms: seq<Move>)
    ensures CanRun(IDLE, ms) && RunAll(IDLE, ms).live == map[] && RunAll(IDLE, ms).lost == {1}
  {
    var m0, m1 := Arrive(Req(Mod, 0, 0, A_SEID, 0), WellWith(0)), Hear(0, Miss, WellWith(0));
    var m2, m3 := Hear(0, Found(Blank, 1), WellWith(1)), Move.Expire(0);
    var p1 := Do(IDLE, m0);
    ArrivesForLoss();
    ReadsForLoss(p1);
    var p2 := Do(p1, m1);
    var p3 := Do(p2, m2);
    var p4 := Do(p3, m3);
    hide Do, CanMove;
    assert RunAll(p4, []) == p4 && CanRun(p4, []);
    assert [m3][1..] == [] && [m2, m3][1..] == [m3] && [m1, m2, m3][1..] == [m2, m3];
    ms := [m0, m1, m2, m3];
    assert ms[1..] == [m1, m2, m3];
    assert CanRun(p3, [m3]) && RunAll(p3, [m3]) == p4;
    assert CanRun(p2, [m2, m3]) && RunAll(p2, [m2, m3]) == p4;
    assert CanRun(p1, [m1, m2, m3]) && RunAll(p1, [m1, m2, m3]) == p4;
  }

  lemma ArrivesForLoss()
    ensures var p1 := Do(IDLE, Arrive(Req(Mod, 0, 0, A_SEID, 0), WellWith(0)));
            && p1.live.Keys == {0} && p1.stock.used == {} && p1.lost == {}
            && p1.live[0].t == NewTxn(ModLookupCb, 0, A_SEID, Req(Mod, 0, 0, A_SEID, 0))
  {
    assert SeidValidate(A_SEID) == Some(0);
  }

  lemma ReadsForLoss(p1: Pod)
    requires p1.live.Keys == {0} && p1.stock.used == {} && p1.lost == {}
    requires p1.live[0].t == NewTxn(ModLookupCb, 0, A_SEID, Req(Mod, 0, 0, A_SEID, 0))
    ensures CanMove(p1, Hear(0, Miss, WellWith(0)))
    ensures var p2 := Do(p1, Hear(0, Miss, WellWith(0)));
            && CanMove(p2, Hear(0, Found(Blank, 1), WellWith(1)))
            && var p3 := Do(p2, Hear(0, Found(Blank, 1), WellWith(1)));
               && CanMove(p3, Move.Expire(0))
               && var p4 := Do(p3, Move.Expire(0)); p4.live == map[] && p4.lost == {1}
  {
    assert BookAll(p1.stock, [TakeCtx(0)]) == Book(p1.stock, TakeCtx(0));
  }

  // --- the order of the pool's operations does not matter ---

  predicate Spares(ops: seq<PoolOp>, b: nat) {
    forall op :: op in ops ==> (op.PutReq? || op.blk != b)
  }

  // A block that is out can go back before or after operations on other blocks.
  lemma {:induction false} PutCommutes(x: Stock, b: nat, ops: seq<PoolOp>)
    requires Spares(ops, b)
    ensures BookAll(x, [PutCtx(b)] + ops) == BookAll(x, ops + [PutCtx(b)])
    decreases |ops|
  {
    if ops == [] {
      assert [PutCtx(b)] + ops == ops + [PutCtx(b)];
    } else {
      var y := Book(x, ops[0]);
      assert ([PutCtx(b)] + ops)[1..] == ops && (ops + [PutCtx(b)])[1..] == ops[1..] + [PutCtx(b)];
      assert ([PutCtx(b)] + ops[1..])[1..] == ops[1..];
      PutCommutes(y, b, ops[1..]);
      BooksCommute(x, b, ops[0]);
    }
  }

  lemma BooksCommute(x: Stock, b: nat, op: PoolOp)
    requires op.PutReq? || op.blk != b
    ensures Book(Book(x, PutCtx(b)), op) == Book(Book(x, op), PutCtx(b))
  {
    if op.TakeCtx? {
      assert x.used - {b} + {op.blk} == x.used + {op.blk} - {b};
    } else if op.PutCtx? {
      assert x.used - {b} - {op.blk} == x.used - {op.blk} - {b};
    }
  }

  // The undo a refused modification issues may be answered before mod_vdp_cb
  // gives its snapshot back: then the pool sees the undo's operations first, and
  // whatever other transactions do to their own blocks in between. It comes to
  // the same.
  lemma NestedUndoBalances(x: Stock, t: Txn, res: VdpResult, env: Env, r: Reply, env2: Env, others: seq<PoolOp>)
    requires Wf(t) && Apart(t) && t.cb.ModVdpCb? && !res.Accept? && env.issued
    requires Fits(ModUndoCb, r) && Spares(others, t.impl.value.blk)
    ensures var first := ModVdp(t, Vdp(res), env);
            && first.fate.Await? && Wf(first.fate.t) && first.fate.t.cb.ModUndoCb?
            && var undo := ModUndo(first.fate.t, r, env2).ops;
               && first.ops == [PutCtx(t.impl.value.blk)]
               && BookAll(x, first.ops + (undo + others)) == BookAll(x, (undo + others) + first.ops)
  {
    hide BookAll, Apart;
    UndoSpares(t, res, env, r, env2);
    hide ModVdp, ModUndo;
    PutCommutes(x, t.impl.value.blk, ModUndo(ModVdp(t, Vdp(res), env).fate.t, r, env2).ops + others);
  }

  // The undo's own operations do not touch the snapshot's block.
  lemma UndoSpares(t: Txn, res: VdpResult, env: Env, r: Reply, env2: Env)
    requires Wf(t) && Apart(t) && t.cb.ModVdpCb? && !res.Accept? && env.issued && Fits(ModUndoCb, r)
    ensures var first := ModVdp(t, Vdp(res), env);
            && first.fate.Await? && Wf(first.fate.t) && first.fate.t.cb.ModUndoCb?
            && first.ops == [PutCtx(t.impl.value.blk)]
            && Spares(ModUndo(first.fate.t, r, env2).ops, t.impl.value.blk)
  {
  }
}
