// The callbacks of src/v_flow/src/v_flow.c and the timeout handler of
// src/v_txn/src/v_txn.c as they run: fields of a transaction and contexts
// updated in place, ports called in order. Each is proved against its function
// in Flow.
module FlowCallbacks {
  import opened Wrappers
  import opened Seid
  import opened Flow

  // A block of the context pool.
  class Block {
    const id: nat
    var val: Ctx

    constructor (id: nat)
      ensures this.id == id && val == Blank
    {
      this.id := id;
      val := Blank;
    }
  }

  // The fields of a transaction as they are in memory.
  datatype Raw = Raw(state: TxnState, dbVer: nat, casRetry: nat, part: nat, seid: nat, teid: nat, req: Req,
                     ctx: Block?, impl: Block?)

  class TxnRec {
    var state: TxnState
    var dbVer: nat
    var casRetry: nat
    var part: nat
    var seid: nat
    var teid: nat
    var req: Req
    var ctx: Block?
    var impl: Block?

    constructor (req: Req)
      ensures As(EstLookupCb) == NewTxn(EstLookupCb, 0, 0, req) && ctx == null && impl == null
    {
      state, dbVer, casRetry, part, seid, teid := Recv, 0, 0, 0, 0, 0;
      this.req := req;
      ctx, impl := null, null;
    }

    ghost function Blocks(): set<object> reads this {
      (if ctx != null then {ctx} else {}) + (if impl != null then {impl} else {})
    }

    ghost predicate Apart() reads this { ctx != null ==> ctx != impl }

    function SlotOf(b: Block?): Option<Slot> reads b {
      if b == null then None else Some(Slot(b.id, b.val))
    }

    // The transaction as Flow sees it while it waits for `cb`.
    function As(cb: Cb): Txn reads this, ctx, impl {
      Txn(cb, state, dbVer, casRetry, part, seid, teid, req, SlotOf(ctx), SlotOf(impl))
    }

    ghost function Fields(): Raw reads this {
      Raw(state, dbVer, casRetry, part, seid, teid, req, ctx, impl)
    }

    // Whatever another callback, or the reuse of the memory, makes of it.
    method Scramble()
      modifies this, Blocks()
    {
      if ctx != null { ctx.val := *; }
      if impl != null { impl.val := *; }
      state, dbVer, casRetry, part, seid, teid, req := *, *, *, *, *, *, *;
      ctx, impl := *, *;
    }
  }

  // The ports while one callback runs: the answers they give, and what was asked
  // of them. Once a transaction is handed on or destroyed it may be anything,
  // since its next callback may run before the port returns; `left` is what it
  // was then.
  class Ports {
    const env: Env
    var ops: seq<PoolOp>
    var push: Option<Cmd>
    var aside: Option<Cmd>
    var store: Option<Rsp>
    var send: Option<Rsp>
    var fate: Option<Fate>
    ghost var left: Option<Raw>

    constructor (env: Env)
      ensures this.env == env && Idle() && fresh(this)
    {
      this.env := env;
      ops, push, aside, store, send, fate, left := [], None, None, None, None, None, None;
    }

    ghost predicate Idle() reads this {
      ops == [] && push.None? && aside.None? && store.None? && send.None? && fate.None? && left.None?
    }

    // Everything asked of the ports, once the transaction's fate is settled.
    ghost function Asked(): Out
      requires fate.Some?
      reads this
    {
      Out(fate.value, ops, push, aside, store, send)
    }

    // Nothing wrote to the transaction after it was handed on or destroyed.
    ghost predicate Untouched(t: TxnRec) reads this, t { left == Some(t.Fields()) }

    // v_port_ctx_alloc
    method CtxAlloc() returns (b: Block?)
      modifies this`ops
      ensures env.blk.None? ==> b == null && ops == old(ops)
      ensures env.blk.Some? ==>
                b != null && fresh(b) && b.id == env.blk.value && b.val == Blank && ops == old(ops) + [TakeCtx(b.id)]
    {
      b := null;
      if env.blk.Some? {
        b := new Block(env.blk.value);
        ops := ops + [TakeCtx(b.id)];
      }
    }

    // v_port_ctx_free: the block is zeroed.
    method CtxFree(b: Block)
      modifies this`ops, b
      ensures ops == old(ops) + [PutCtx(b.id)] && b.val == Blank
    {
      b.val := Blank;
      ops := ops + [PutCtx(b.id)];
    }

    // v_port_pfcp_msg_free
    method MsgFree()
      modifies this`ops
      ensures ops == old(ops) + [PutReq]
    {
      ops := ops + [PutReq];
    }

    // v_teid_free
    method TeidFree(part: nat, teid: nat)
      requires push.None?
      modifies this`push
      ensures push == Some(PushTeid(part, teid))
    {
      push := Some(PushTeid(part, teid));
    }

    // A command whose reply nobody waits for.
    method Aside(cmd: Cmd)
      requires aside.None?
      modifies this`aside
      ensures aside == Some(cmd)
    {
      aside := Some(cmd);
    }

    // Any port that takes a callback and the transaction as its argument.
    method Issue(t: TxnRec, cb: Cb, cmd: Cmd) returns (ok: bool)
      requires fate.None?
      modifies this`fate, this`left, t, t.Blocks()
      ensures ok == env.issued
      ensures ok ==> fate == Some(Await(old(t.As(cb)), cmd)) && Untouched(t)
      ensures !ok ==> fate == old(fate) && left == old(left) && t.Fields() == old(t.Fields())
                      && t.As(cb) == old(t.As(cb))
      ensures fate.Some? <==> ok
    {
      ok := env.issued;
      if ok {
        fate := Some(Await(t.As(cb), cmd));
        t.Scramble();
        left := Some(t.Fields());
      }
    }

    // v_port_txn_destroy
    method Destroy(t: TxnRec)
      requires fate.None?
      modifies this`fate, this`left, t
      ensures fate == Some(Gone) && Untouched(t)
    {
      fate := Some(Gone);
      t.state, t.dbVer, t.casRetry, t.part, t.seid, t.teid, t.req := *, *, *, *, *, *, *;
      t.ctx, t.impl := *, *;
      left := Some(t.Fields());
    }

    // v_retrans_store and v_dispatch_tx_enqueue of one encoded response.
    method Respond(rsp: Rsp)
      requires store.None? && send.None?
      modifies this`store, this`send
      ensures store == Some(rsp) && send == Some(rsp)
    {
      store := Some(rsp);
      send := Some(rsp);
    }
  }

  ghost predicate Entered(p: Ports, t: TxnRec)
    reads p, t
  {
    p.Idle() && t.Apart()
  }

  // What finish() adds to what was asked before.
  ghost predicate Finished(p: Ports, t: TxnRec, was: Txn, cause: Cause, ops: seq<PoolOp>, push: Option<Cmd>,
                           aside: Option<Cmd>)
    reads p, t
  {
    var out := Flow.Finish(was, cause, p.env);
    && p.fate.Some? && p.Untouched(t)
    && p.Asked() == Out(Gone, ops + out.ops, push, aside, out.store, out.send)
  }

  method Finish(t: TxnRec, cause: Cause, p: Ports)
    requires p.fate.None? && p.store.None? && p.send.None?
    modifies t, t.Blocks(), p
    ensures Finished(p, t, old(t.As(EstLookupCb)), cause, old(p.ops), old(p.push), old(p.aside))
  {
    if p.env.encoded {
      p.Respond(Response(t.As(EstLookupCb), cause));
    }
    t.state := Replied;
    if t.ctx != null {
      p.CtxFree(t.ctx);
      t.ctx := null;
    }
    p.MsgFree();
    p.Destroy(t);
  }

  // A duplicate: the cached response goes out as it is.
  method SendCached(t: TxnRec, rsp: Rsp, p: Ports)
    requires p.Idle()
    modifies t, p
    ensures p.fate.Some? && p.Untouched(t) && p.Asked() == Replay(rsp)
  {
    p.send := Some(rsp);
    p.MsgFree();
    p.Destroy(t);
  }

  // --- entry points ---

  // handle_establishment, handle_modification and handle_deletion.
  method Handle(req: Req, p: Ports) returns (t: TxnRec?)
    requires p.Idle()
    modifies p
    ensures p.fate.Some? && (t != null <==> Start(req, p.env).0) && p.Asked() == Start(req, p.env).1
    ensures t != null ==> p.Untouched(t)
  {
    t := null;
    var part := 0;
    if !req.kind.Est? {
      var valid := SeidValidate(req.seid);
      if valid.None? {
        if p.env.encoded {
          p.send := Some(Rsp(req.kind, req.sn, CtxNotFound, 0));
        }
        p.MsgFree();
        p.fate := Some(Gone);
        return;
      }
      part := valid.value;
    }
    if !p.env.room {
      p.MsgFree();
      p.fate := Some(Gone);
      return;
    }
    t := new TxnRec(req);
    if !req.kind.Est? {
      t.part := part;
      t.seid := req.seid;
    }
    t.state := Recv;
    var cb := match req.kind case Est => EstLookupCb case Mod => ModLookupCb case Del => DelLookupCb;
    var ok := p.Issue(t, cb, GetCached(req.smf, req.sn));
    if !ok {
      p.MsgFree();
      p.Destroy(t);
    }
  }

  // --- establishment ---

  method RetransLookupCb(t: TxnRec, r: Reply, p: Ports)
    requires Entered(p, t) && Wf(t.As(EstLookupCb)) && Fits(EstLookupCb, r)
    modifies t, t.Blocks(), p
    ensures p.fate.Some? && p.Untouched(t) && p.Asked() == EstLookup(old(t.As(EstLookupCb)), r, p.env)
  {
    hide Continues;
    if r.Hit? {
      SendCached(t, r.rsp, p);
      return;
    }
    var part := p.env.part;
    t.part := part;
    var seid := p.env.seid;
    var teid := p.env.teid;
    if seid == 0 || teid == 0 {
      if teid != 0 {
        p.TeidFree(part, teid);
      }
      Finish(t, NoResources, p);
      return;
    }
    t.seid := seid;
    t.teid := teid;
    var ctx := p.CtxAlloc();
    if ctx == null {
      p.TeidFree(part, teid);
      Finish(t, SystemFailure, p);
      return;
    }
    t.ctx := ctx;
    BuildAndWrite(t, p);
  }

  method BuildAndWrite(t: TxnRec, p: Ports)
    requires t.ctx != null && t.impl == null
    requires p.fate.None? && p.push.None? && p.aside.None? && p.store.None? && p.send.None?
    modifies t, t.Blocks(), p
    ensures p.fate.Some? && p.Untouched(t)
    ensures p.Asked() == EstBuild(old(t.As(EstLookupCb)), p.env).After(old(p.ops))
  {
    var ctx := t.ctx;
    if !p.env.built {
      p.TeidFree(t.part, t.teid);
      Finish(t, SystemFailure, p);
      return;
    }
    ctx.val := Built(t.req, t.seid, t.teid);
    t.state := DbWriteWait;
    var ok := p.Issue(t, EstWriteCb, WriteRec(Key(t.part, t.seid), 0, ctx.val, true));
    if !ok {
      p.TeidFree(t.part, t.teid);
      Finish(t, SystemFailure, p);
    }
  }

  method CasWriteCb(t: TxnRec, r: Reply, p: Ports)
    requires Entered(p, t) && Wf(t.As(EstWriteCb)) && Fits(EstWriteCb, r)
    modifies t, t.Blocks(), p
    ensures p.fate.Some? && p.Untouched(t) && p.Asked() == EstWrite(old(t.As(EstWriteCb)), r, p.env)
  {
    if !r.CasOk? {
      p.TeidFree(t.part, t.teid);
      Finish(t, SystemFailure, p);
      return;
    }
    t.dbVer := r.newVer;
    t.state := VdpWait;
    var ok := p.Issue(t, EstVdpCb, VdpCreate(Key(t.part, t.seid), t.ctx.val));
    if !ok {
      p.Aside(DeleteRec(Key(t.part, t.seid), t.dbVer));
      p.TeidFree(t.part, t.teid);
      Finish(t, SystemFailure, p);
    }
  }

  method VdpCreateCb(t: TxnRec, r: Reply, p: Ports)
    requires Entered(p, t) && Wf(t.As(EstVdpCb)) && Fits(EstVdpCb, r)
    modifies t, t.Blocks(), p
    ensures p.fate.Some? && p.Untouched(t) && p.Asked() == EstVdp(old(t.As(EstVdpCb)), r, p.env)
  {
    if !r.res.Accept? {
      p.Aside(DeleteRec(Key(t.part, t.seid), t.dbVer));
      p.TeidFree(t.part, t.teid);
      Finish(t, Rejected, p);
      return;
    }
    t.state := DbConfirmWait;
    var ok := p.Issue(t, EstConfirmCb, PersistRec(Key(t.part, t.seid)));
    if !ok {
      Finish(t, SystemFailure, p);
    }
  }

  method ConfirmCb(t: TxnRec, r: Reply, p: Ports)
    requires Entered(p, t) && Wf(t.As(EstConfirmCb)) && Fits(EstConfirmCb, r)
    modifies t, t.Blocks(), p
    ensures p.fate.Some? && p.Untouched(t) && p.Asked() == EstConfirm(old(t.As(EstConfirmCb)), r, p.env)
  {
    if r.Err? {
      Finish(t, SystemFailure, p);
      return;
    }
    Finish(t, Accepted, p);
  }

  // --- modification and deletion: the read ---

  // mod_start_read and del_start_read
  method StartReading(t: TxnRec, cb: Cb, p: Ports)
    requires p.fate.None? && p.store.None? && p.send.None? && t.Apart()
    modifies t, t.Blocks(), p
    ensures p.fate.Some? && p.Untouched(t)
    ensures var out := StartRead(old(t.As(cb)), cb, p.env);
            p.Asked() == Out(out.fate, old(p.ops) + out.ops, old(p.push), old(p.aside), out.store, out.send)
  {
    t.state := DbReadWait;
    var ok := p.Issue(t, cb, ReadRec(Key(t.part, t.seid)));
    if !ok {
      Finish(t, SystemFailure, p);
    }
  }

  // mod_retrans_lookup_cb and del_retrans_lookup_cb
  method ReadLookupCb(t: TxnRec, cb: Cb, r: Reply, p: Ports)
    requires cb.ModLookupCb? || cb.DelLookupCb?
    requires Entered(p, t) && Wf(t.As(cb)) && Fits(cb, r)
    modifies t, t.Blocks(), p
    ensures p.fate.Some? && p.Untouched(t) && p.Asked() == Lookup(old(t.As(cb)), r, p.env)
  {
    if r.Hit? {
      SendCached(t, r.rsp, p);
      return;
    }
    t.ctx := p.CtxAlloc();
    if t.ctx == null {
      Finish(t, SystemFailure, p);
      return;
    }
    StartReading(t, if cb.ModLookupCb? then ModReadCb else DelReadCb, p);
  }

  // --- modification ---

  // The reader has filled t.ctx with what it found.
  method ModReadDone(t: TxnRec, r: Reply, p: Ports)
    requires Entered(p, t) && Wf(t.As(ModReadCb)) && Fits(ModReadCb, r)
    requires r.Found? ==> t.ctx.val == r.data
    modifies t, t.Blocks(), p
    ensures p.fate.Some? && p.Untouched(t) && p.Asked() == ModRead(old(t.As(ModReadCb)), r, p.env)
  {
    if r.Err? {
      Finish(t, SystemFailure, p);
      return;
    }
    if r.NotFound? {
      Finish(t, CtxNotFound, p);
      return;
    }
    t.dbVer := r.ver;
    var ctx := t.ctx;
    var prev := p.CtxAlloc();
    hide Continues;
    if prev == null {
      Finish(t, SystemFailure, p);
      return;
    }
    SnapshotAndWrite(t, prev, p);
  }

  method SnapshotAndWrite(t: TxnRec, prev: Block, p: Ports)
    requires t.ctx != null && t.ctx != prev && t.impl == null
    requires p.fate.None? && p.push.None? && p.aside.None? && p.store.None? && p.send.None?
    modifies t, t.Blocks(), prev, p
    ensures p.fate.Some? && p.Untouched(t)
    ensures p.Asked() == ModSnapshot(old(t.As(ModReadCb)), prev.id, p.env).After(old(p.ops))
  {
    var ctx := t.ctx;
    if !p.env.copied {
      p.CtxFree(prev);
      Finish(t, SystemFailure, p);
      return;
    }
    prev.val := ctx.val;
    t.impl := prev;
    if !p.env.changed {
      p.CtxFree(prev);
      t.impl := null;
      Finish(t, SystemFailure, p);
      return;
    }
    ctx.val := Changed(ctx.val, t.req);
    t.state := DbWriteWait;
    var ok := p.Issue(t, ModWriteCb, WriteRec(Key(t.part, t.seid), t.dbVer, ctx.val, false));
    if !ok {
      p.CtxFree(prev);
      t.impl := null;
      Finish(t, SystemFailure, p);
    }
  }

  method DropSnapshot(t: TxnRec, p: Ports)
    requires t.Apart()
    modifies t`impl, t.impl, p`ops
    ensures t.impl == null && t.Apart()
    ensures t.As(ModWriteCb) == old(t.As(ModWriteCb)).(impl := None)
    ensures p.ops == old(p.ops) + (if old(t.impl) == null then [] else [PutCtx(old(t.impl).id)])
  {
    if t.impl != null {
      p.CtxFree(t.impl);
      t.impl := null;
    }
  }

  method ModCasCb(t: TxnRec, r: Reply, p: Ports)
    requires Entered(p, t) && Wf(t.As(ModWriteCb)) && Fits(ModWriteCb, r)
    modifies t, t.Blocks(), p
    ensures p.fate.Some? && p.Untouched(t) && p.Asked() == ModWrite(old(t.As(ModWriteCb)), r, p.env)
  {
    hide Continues;
    if r.Err? {
      DropSnapshot(t, p);
      Finish(t, SystemFailure, p);
      return;
    }
    if r.CasOk? {
      t.dbVer := r.newVer;
      t.state := VdpWait;
      var ok := p.Issue(t, ModVdpCb, VdpModify(Key(t.part, t.seid), t.ctx.val));
      if !ok {
        DropSnapshot(t, p);
        Finish(t, SystemFailure, p);
      }
    } else if r.CasConflict? {
      ModRetry(t, r, p);
    } else {
      DropSnapshot(t, p);
      Finish(t, CtxNotFound, p);
    }
  }

  // The conflict branch: read again, unless the retries have run out.
  method ModRetry(t: TxnRec, r: Reply, p: Ports)
    requires Entered(p, t) && Wf(t.As(ModWriteCb)) && r.CasConflict?
    modifies t, t.Blocks(), p
    ensures p.fate.Some? && p.Untouched(t) && p.Asked() == ModWrite(old(t.As(ModWriteCb)), r, p.env)
  {
    hide Continues;
    DropSnapshot(t, p);
    t.casRetry := t.casRetry + 1;
    if t.casRetry >= CAS_MAX_RETRY {
      Finish(t, SystemFailure, p);
      return;
    }
    t.ctx.val := Blank;
    StartReading(t, ModReadCb, p);
  }

  // The undo write serializes the snapshot before it returns, so the block is
  // freed whether or not the write was issued.
  method ModVdpDone(t: TxnRec, r: Reply, p: Ports)
    requires Entered(p, t) && Wf(t.As(ModVdpCb)) && Fits(ModVdpCb, r)
    modifies t, t.Blocks(), p
    ensures p.fate.Some? && p.Untouched(t) && p.Asked() == ModVdp(old(t.As(ModVdpCb)), r, p.env)
  {
    var prev := t.impl;
    t.impl := null;
    if !r.res.Accept? {
      var ok := p.Issue(t, ModUndoCb, WriteRec(Key(t.part, t.seid), t.dbVer, prev.val, false));
      p.CtxFree(prev);
      if !ok {
        Finish(t, SystemFailure, p);
      }
      return;
    }
    p.CtxFree(prev);
    Finish(t, Accepted, p);
  }

  method ModUndoDone(t: TxnRec, r: Reply, p: Ports)
    requires Entered(p, t) && Wf(t.As(ModUndoCb)) && Fits(ModUndoCb, r)
    modifies t, t.Blocks(), p
    ensures p.fate.Some? && p.Untouched(t) && p.Asked() == ModUndo(old(t.As(ModUndoCb)), r, p.env)
  {
    Finish(t, Rejected, p);
  }

  // --- deletion ---

  method DelReadDone(t: TxnRec, r: Reply, p: Ports)
    requires Entered(p, t) && Wf(t.As(DelReadCb)) && Fits(DelReadCb, r)
    requires r.Found? ==> t.ctx.val == r.data
    modifies t, t.Blocks(), p
    ensures p.fate.Some? && p.Untouched(t) && p.Asked() == DelRead(old(t.As(DelReadCb)), r, p.env)
  {
    if r.Err? {
      Finish(t, SystemFailure, p);
      return;
    }
    if r.NotFound? {
      Finish(t, CtxNotFound, p);
      return;
    }
    t.dbVer := r.ver;
    t.state := VdpWait;
    var ok := p.Issue(t, DelVdpCb, VdpDelete(Key(t.part, t.seid)));
    if !ok {
      Finish(t, SystemFailure, p);
    }
  }

  method DelVdpDone(t: TxnRec, r: Reply, p: Ports)
    requires Entered(p, t) && Wf(t.As(DelVdpCb)) && Fits(DelVdpCb, r)
    modifies t, t.Blocks(), p
    ensures p.fate.Some? && p.Untouched(t) && p.Asked() == DelVdp(old(t.As(DelVdpCb)), r, p.env)
  {
    if !r.res.Accept? {
      Finish(t, Rejected, p);
      return;
    }
    t.state := DbWriteWait;
    var ok := p.Issue(t, DelDeleteCb, DeleteRec(Key(t.part, t.seid), t.dbVer));
    if !ok {
      Finish(t, SystemFailure, p);
    }
  }

  method DelDeleteDone(t: TxnRec, r: Reply, p: Ports)
    requires Entered(p, t) && Wf(t.As(DelDeleteCb)) && Fits(DelDeleteCb, r)
    modifies t, t.Blocks(), p
    ensures p.fate.Some? && p.Untouched(t) && p.Asked() == DelDelete(old(t.As(DelDeleteCb)), r, p.env)
  {
    if r.Err? {
      Finish(t, SystemFailure, p);
      return;
    }
    if r.CasOk? {
      p.TeidFree(t.part, CtxTeid(t.ctx.val));
      Finish(t, Accepted, p);
    } else if r.CasConflict? {
      t.casRetry := t.casRetry + 1;
      if t.casRetry >= CAS_MAX_RETRY {
        Finish(t, SystemFailure, p);
        return;
      }
      t.ctx.val := Blank;
      StartReading(t, DelReadCb, p);
    } else {
      Finish(t, CtxNotFound, p);
    }
  }

  // --- the hard timeout ---

  method OnTimeout(t: TxnRec, cb: Cb, p: Ports)
    requires Entered(p, t)
    modifies t, t.Blocks(), p
    ensures p.fate.Some? && p.Untouched(t) && p.Asked() == TimeoutHandler(old(t.As(cb)))
  {
    Recover(t, cb, p);
    Release(t, p);
  }

  // The action the state allows.
  method Recover(t: TxnRec, cb: Cb, p: Ports)
    requires p.aside.None?
    modifies p`aside
    ensures p.aside == TimeoutHandler(t.As(cb)).aside
  {
    if t.state.VdpWait? {
      if t.dbVer == 0 {
        p.Aside(DeleteRec(Key(t.part, t.seid), 1));
      }
    } else if t.state.DbConfirmWait? {
      p.Aside(PersistRec(Key(t.part, t.seid)));
    }
  }

  // ctx and req go back; impl and the TEID do not.
  method Release(t: TxnRec, p: Ports)
    requires p.fate.None?
    modifies t, t.ctx, p`ops, p`fate, p`left
    ensures p.fate == Some(Gone) && p.Untouched(t)
    ensures p.ops == old(p.ops) + (if old(t.ctx) == null then [] else [PutCtx(old(t.ctx).id)]) + [PutReq]
  {
    if t.ctx != null {
      p.CtxFree(t.ctx);
      t.ctx := null;
    }
    p.MsgFree();
    p.Destroy(t);
  }
}
