// What each callback of src/v_flow/src/v_flow.c does to its transaction, as a
// function of the transaction, the reply it is called with and the answers of
// the ports it calls. FlowCallbacks proves the imperative callbacks against
// these functions; Ledger and Cluster prove what the protocol promises.
module Flow {
  import opened Wrappers
  import opened Seid

  const CAS_MAX_RETRY: nat := 3

  datatype Kind = Est | Mod | Del

  datatype Cause = Accepted | Rejected | CtxNotFound | SystemFailure | NoResources

  // A decoded request; `body` stands for everything the flow never looks at.
  datatype Req = Req(kind: Kind, smf: nat, sn: nat, seid: nat, body: nat)

  // The opaque session context: a zeroed block, what build_session made, or
  // what modify_session made of an earlier context.
  datatype Ctx = Blank | Built(req: Req, seid: nat, teid: nat) | Changed(base: Ctx, req: Req)

  function CtxSeid(c: Ctx): nat {
    match c
    case Blank => 0
    case Built(_, seid, _) => seid
    case Changed(base, _) => CtxSeid(base)
  }

  function CtxTeid(c: Ctx): nat {
    match c
    case Blank => 0
    case Built(_, _, teid) => teid
    case Changed(base, _) => CtxTeid(base)
  }

  // A response. encode_rsp puts SEID 0 in the header when it gets no context.
  datatype Rsp = Rsp(kind: Kind, sn: nat, cause: Cause, seid: nat)

  datatype Key = Key(part: nat, seid: nat)

  datatype Cmd =
    | GetCached(smf: nat, sn: nat)
    | ReadRec(key: Key)
    | WriteRec(key: Key, exp: nat, data: Ctx, pending: bool)
    | DeleteRec(key: Key, exp: nat)
    | PersistRec(key: Key)
    | VdpCreate(key: Key, ctx: Ctx)
    | VdpModify(key: Key, ctx: Ctx)
    | VdpDelete(key: Key)
    | PushTeid(part: nat, teid: nat)
    | StoreRsp(smf: nat, sn: nat, rsp: Rsp)

  datatype VdpResult = Accept | Reject | Timeout

  // What a callback is called with. Err is a status other than RET_CODE_OK.
  datatype Reply =
    | Err
    | Hit(rsp: Rsp)
    | Miss
    | Found(data: Ctx, ver: nat)
    | NotFound
    | CasOk(newVer: nat)
    | CasConflict
    | CasGone
    | Done
    | Vdp(res: VdpResult)

  datatype TxnState = Recv | DbReadWait | DbWriteWait | VdpWait | DbConfirmWait | Replied

  // The callback a transaction waits for.
  datatype Cb =
    | EstLookupCb | EstWriteCb | EstVdpCb | EstConfirmCb
    | ModLookupCb | ModReadCb | ModWriteCb | ModVdpCb | ModUndoCb
    | DelLookupCb | DelReadCb | DelVdpCb | DelDeleteCb

  // A block of the context pool and the context it holds.
  datatype Slot = Slot(blk: nat, val: Ctx)

  // struct v_txn. `impl` is the snapshot a Modification keeps for its undo.
  datatype Txn = Txn(cb: Cb, state: TxnState, dbVer: nat, casRetry: nat, part: nat, seid: nat,
                     teid: nat, req: Req, ctx: Option<Slot>, impl: Option<Slot>)
  {
    function RecKey(): Key { Key(part, seid) }
  }

  // What the ports answer while one callback runs: is there room in the table,
  // the partition chosen, the ids allocated (0 is "ring dry"), the pool block
  // handed out, and whether build_session, the snapshot copy, modify_session,
  // the issuing of the next request and encode_rsp succeed.
  datatype Env = Env(room: bool, part: nat, seid: nat, teid: nat, blk: Option<nat>, built: bool,
                     copied: bool, changed: bool, issued: bool, encoded: bool)

  datatype PoolOp = TakeCtx(blk: nat) | PutCtx(blk: nat) | PutReq

  // Where the transaction goes: destroyed, or handed on with one request issued.
  datatype Fate = Gone | Await(t: Txn, cmd: Cmd)

  // `push` is v_teid_free, `aside` a store command nobody waits for, `store`
  // the response put in the retransmission cache, `send` the datagram sent.
  datatype Out = Out(fate: Fate, ops: seq<PoolOp>, push: Option<Cmd>, aside: Option<Cmd>,
                     store: Option<Rsp>, send: Option<Rsp>)
  {
    function After(first: seq<PoolOp>): Out { this.(ops := first + ops) }

    function Freeing(part: nat, teid: nat): Out { this.(push := Some(PushTeid(part, teid))) }
  }

  // Which fields a transaction holds while it waits for each callback.
  predicate Wf(t: Txn) {
    && (t.ctx.None? <==> IsLookup(t.cb))
    && (t.impl.Some? <==> t.cb.ModWriteCb? || t.cb.ModVdpCb?)
    && t.casRetry < CAS_MAX_RETRY
    && t.state == StateOf(t.cb) && t.req.kind == KindOf(t.cb)
    && (t.cb.EstVdpCb? || t.cb.EstConfirmCb? || t.cb.ModVdpCb? || t.cb.ModUndoCb? ==> t.dbVer >= 1)
  }

  predicate IsLookup(cb: Cb) {
    cb.EstLookupCb? || cb.ModLookupCb? || cb.DelLookupCb?
  }

  // Which flow a callback belongs to.
  function KindOf(cb: Cb): Kind {
    match cb
    case EstLookupCb | EstWriteCb | EstVdpCb | EstConfirmCb => Est
    case ModLookupCb | ModReadCb | ModWriteCb | ModVdpCb | ModUndoCb => Mod
    case DelLookupCb | DelReadCb | DelVdpCb | DelDeleteCb => Del
  }

  predicate IsEst(cb: Cb) { KindOf(cb) == Est }

  predicate IsMod(cb: Cb) { KindOf(cb) == Mod }

  predicate IsDel(cb: Cb) { KindOf(cb) == Del }

  // The table state during each wait. The undo write leaves VDP_WAIT in place.
  function StateOf(cb: Cb): TxnState {
    match cb
    case EstLookupCb => Recv
    case ModLookupCb => Recv
    case DelLookupCb => Recv
    case ModReadCb => DbReadWait
    case DelReadCb => DbReadWait
    case EstWriteCb => DbWriteWait
    case ModWriteCb => DbWriteWait
    case DelDeleteCb => DbWriteWait
    case EstVdpCb => VdpWait
    case ModVdpCb => VdpWait
    case ModUndoCb => VdpWait
    case DelVdpCb => VdpWait
    case EstConfirmCb => DbConfirmWait
  }

  // The replies each callback can be called with.
  predicate Fits(cb: Cb, r: Reply) {
    match cb
    case EstLookupCb => r.Err? || r.Hit? || r.Miss?
    case ModLookupCb => r.Err? || r.Hit? || r.Miss?
    case DelLookupCb => r.Err? || r.Hit? || r.Miss?
    case ModReadCb => r.Err? || r.Found? || r.NotFound?
    case DelReadCb => r.Err? || r.Found? || r.NotFound?
    case EstWriteCb => r.Err? || (r.CasOk? && r.newVer >= 1) || r.CasConflict? || r.CasGone?
    case ModWriteCb => r.Err? || (r.CasOk? && r.newVer >= 1) || r.CasConflict? || r.CasGone?
    case ModUndoCb => r.Err? || r.CasOk? || r.CasConflict? || r.CasGone?
    case DelDeleteCb => r.Err? || r.CasOk? || r.CasConflict? || r.CasGone?
    case EstConfirmCb => r.Err? || r.Done?
    case EstVdpCb => r.Vdp?
    case ModVdpCb => r.Vdp?
    case DelVdpCb => r.Vdp?
  }

  // The request each wait is for.
  predicate Asks(t: Txn, cmd: Cmd) {
    match t.cb
    case EstLookupCb => cmd == GetCached(t.req.smf, t.req.sn)
    case ModLookupCb => cmd == GetCached(t.req.smf, t.req.sn)
    case DelLookupCb => cmd == GetCached(t.req.smf, t.req.sn)
    case ModReadCb => cmd == ReadRec(t.RecKey())
    case DelReadCb => cmd == ReadRec(t.RecKey())
    case EstWriteCb => t.ctx.Some? && cmd == WriteRec(t.RecKey(), 0, t.ctx.value.val, true)
    case ModWriteCb => t.ctx.Some? && cmd == WriteRec(t.RecKey(), t.dbVer, t.ctx.value.val, false)
    case ModUndoCb => cmd.WriteRec? && cmd.key == t.RecKey() && cmd.exp == t.dbVer && !cmd.pending
    case DelDeleteCb => cmd == DeleteRec(t.RecKey(), t.dbVer)
    case EstConfirmCb => cmd == PersistRec(t.RecKey())
    case EstVdpCb => t.ctx.Some? && cmd == VdpCreate(t.RecKey(), t.ctx.value.val)
    case ModVdpCb => t.ctx.Some? && cmd == VdpModify(t.RecKey(), t.ctx.value.val)
    case DelVdpCb => cmd == VdpDelete(t.RecKey())
  }

  // --- the common ending and the retransmission hit ---

  function Response(t: Txn, cause: Cause): Rsp {
    Rsp(t.req.kind, t.req.sn, cause,
        if cause == Accepted && t.ctx.Some? then CtxSeid(t.ctx.value.val) else 0)
  }

  // finish(): response, cache, send, release, destroy.
  function Finish(t: Txn, cause: Cause, env: Env): Out {
    var rsp := if env.encoded then Some(Response(t, cause)) else None;
    Out(Gone, (if t.ctx.Some? then [PutCtx(t.ctx.value.blk)] else []) + [PutReq], None, None, rsp, rsp)
  }

  function Replay(rsp: Rsp): Out {
    Out(Gone, [PutReq], None, None, None, Some(rsp))
  }

  function HandOn(t: Txn, cmd: Cmd): Out {
    Out(Await(t, cmd), [], None, None, None, None)
  }

  // --- entry points ---

  function NewTxn(cb: Cb, part: nat, seid: nat, req: Req): Txn {
    Txn(cb, Recv, 0, 0, part, seid, 0, req, None, None)
  }

  // handle_establishment / handle_modification / handle_deletion; the flag says
  // whether a transaction was created.
  function Start(req: Req, env: Env): (bool, Out) {
    var valid := if req.kind.Est? then Some(0) else SeidValidate(req.seid);
    if valid.None? then
      var rsp := if env.encoded then Some(Rsp(req.kind, req.sn, CtxNotFound, 0)) else None;
      (false, Out(Gone, [PutReq], None, None, None, rsp))
    else if !env.room then
      (false, Out(Gone, [PutReq], None, None, None, None))
    else
      var t := match req.kind
        case Est => NewTxn(EstLookupCb, 0, 0, req)
        case Mod => NewTxn(ModLookupCb, valid.value, req.seid, req)
        case Del => NewTxn(DelLookupCb, valid.value, req.seid, req);
      if !env.issued then (true, Out(Gone, [PutReq], None, None, None, None))
      else (true, HandOn(t, GetCached(req.smf, req.sn)))
  }

  // What is handed on keeps the transaction's request and its shape, and waits
  // for exactly the request that was issued.
  predicate Continues(t: Txn, out: Out) {
    out.fate.Await? ==>
      Wf(out.fate.t) && Asks(out.fate.t, out.fate.cmd) && out.fate.t.req == t.req
  }

  // --- establishment ---

  // retrans_lookup_cb: an unreachable cache counts as a miss.
  function EstLookup(t: Txn, r: Reply, env: Env): (out: Out)
    requires Wf(t) && t.cb.EstLookupCb? && Fits(t.cb, r)
    ensures Continues(t, out)
  {
    if r.Hit? then Replay(r.rsp)
    else
      var t1 := t.(part := env.part);
      if env.seid == 0 || env.teid == 0 then
        var out := Finish(t1, NoResources, env);
        if env.teid != 0 then out.Freeing(env.part, env.teid) else out
      else
        var t2 := t1.(seid := env.seid, teid := env.teid);
        if env.blk.None? then Finish(t2, SystemFailure, env).Freeing(env.part, env.teid)
        else
          EstBuild(t2.(ctx := Some(Slot(env.blk.value, Blank))), env).After([TakeCtx(env.blk.value)])
  }

  // The second half: build the session into the block and write it.
  function EstBuild(t: Txn, env: Env): Out
    requires t.ctx.Some?
  {
    if !env.built then Finish(t, SystemFailure, env).Freeing(t.part, t.teid)
    else
      var data := Built(t.req, t.seid, t.teid);
      var t1 := t.(ctx := Some(t.ctx.value.(val := data)), state := DbWriteWait, cb := EstWriteCb);
      if !env.issued then Finish(t1, SystemFailure, env).Freeing(t.part, t.teid)
      else HandOn(t1, WriteRec(t1.RecKey(), 0, data, true))
  }

  // Rolling back: delete the pending record and give the TEID back.
  function Rollback(t: Txn, cause: Cause, env: Env): Out {
    Finish(t, cause, env).Freeing(t.part, t.teid).(aside := Some(DeleteRec(t.RecKey(), t.dbVer)))
  }

  // cas_write_cb
  function EstWrite(t: Txn, r: Reply, env: Env): (out: Out)
    requires Wf(t) && t.cb.EstWriteCb? && Fits(t.cb, r)
    ensures Continues(t, out)
  {
    if !r.CasOk? then Finish(t, SystemFailure, env).Freeing(t.part, t.teid)
    else
      var t1 := t.(dbVer := r.newVer, state := VdpWait, cb := EstVdpCb);
      if !env.issued then Rollback(t1, SystemFailure, env)
      else HandOn(t1, VdpCreate(t1.RecKey(), t1.ctx.value.val))
  }

  // vdp_create_cb
  function EstVdp(t: Txn, r: Reply, env: Env): (out: Out)
    requires Wf(t) && t.cb.EstVdpCb? && Fits(t.cb, r)
    ensures Continues(t, out)
  {
    if !r.res.Accept? then Rollback(t, Rejected, env)
    else
      var t1 := t.(state := DbConfirmWait, cb := EstConfirmCb);
      if !env.issued then Finish(t1, SystemFailure, env)
      else HandOn(t1, PersistRec(t1.RecKey()))
  }

  // confirm_cb
  function EstConfirm(t: Txn, r: Reply, env: Env): (out: Out)
    requires Wf(t) && t.cb.EstConfirmCb? && Fits(t.cb, r)
    ensures Continues(t, out)
  {
    Finish(t, if r.Err? then SystemFailure else Accepted, env)
  }

  // --- modification ---

  function StartRead(t: Txn, cb: Cb, env: Env): Out {
    var t1 := t.(state := DbReadWait, cb := cb);
    if !env.issued then Finish(t1, SystemFailure, env)
    else HandOn(t1, ReadRec(t1.RecKey()))
  }

  // mod_retrans_lookup_cb and del_retrans_lookup_cb
  function Lookup(t: Txn, r: Reply, env: Env): (out: Out)
    requires Wf(t) && (t.cb.ModLookupCb? || t.cb.DelLookupCb?) && Fits(t.cb, r)
    ensures Continues(t, out)
  {
    if r.Hit? then Replay(r.rsp)
    else if env.blk.None? then Finish(t, SystemFailure, env)
    else
      var blk := env.blk.value;
      var next := if t.cb.ModLookupCb? then ModReadCb else DelReadCb;
      StartRead(t.(ctx := Some(Slot(blk, Blank))), next, env).After([TakeCtx(blk)])
  }

  // mod_read_cb: snapshot, modify in place, write.
  function ModRead(t: Txn, r: Reply, env: Env): (out: Out)
    requires Wf(t) && t.cb.ModReadCb? && Fits(t.cb, r)
    ensures Continues(t, out)
  {
    if r.Err? then Finish(t, SystemFailure, env)
    else if r.NotFound? then Finish(t, CtxNotFound, env)
    else
      var ctx := t.ctx.value.(val := r.data);
      var t1 := t.(dbVer := r.ver, ctx := Some(ctx));
      if env.blk.None? then Finish(t1, SystemFailure, env)
      else
        ModSnapshot(t1, env.blk.value, env).After([TakeCtx(env.blk.value)])
  }

  // The second half: `blk` takes the copy the undo will need.
  function ModSnapshot(t: Txn, blk: nat, env: Env): Out
    requires t.ctx.Some?
  {
    var data := t.ctx.value.val;
    if !env.copied || !env.changed then Finish(t, SystemFailure, env).After([PutCtx(blk)])
    else
      var t1 := t.(ctx := Some(t.ctx.value.(val := Changed(data, t.req))), state := DbWriteWait, cb := ModWriteCb);
      if !env.issued then Finish(t1, SystemFailure, env).After([PutCtx(blk)])
      else
        var t2 := t1.(impl := Some(Slot(blk, data)));
        HandOn(t2, WriteRec(t2.RecKey(), t2.dbVer, t2.ctx.value.val, false))
  }

  // mod_cas_cb
  function ModWrite(t: Txn, r: Reply, env: Env): (out: Out)
    requires Wf(t) && t.cb.ModWriteCb? && Fits(t.cb, r)
    ensures Continues(t, out)
  {
    var drop := [PutCtx(t.impl.value.blk)];
    var bare := t.(impl := None);
    match r
    case CasOk(newVer) =>
      var t1 := t.(dbVer := newVer, state := VdpWait, cb := ModVdpCb);
      if !env.issued then Finish(t1.(impl := None), SystemFailure, env).After(drop)
      else HandOn(t1, VdpModify(t1.RecKey(), t1.ctx.value.val))
    case CasConflict =>
      var t1 := bare.(casRetry := t.casRetry + 1);
      if t1.casRetry >= CAS_MAX_RETRY then Finish(t1, SystemFailure, env).After(drop)
      else StartRead(t1.(ctx := Some(t.ctx.value.(val := Blank))), ModReadCb, env).After(drop)
    case CasGone => Finish(bare, CtxNotFound, env).After(drop)
    case _ => Finish(bare, SystemFailure, env).After(drop)
  }

  // mod_vdp_cb: the snapshot is written back when the VDP refuses; its block
  // goes back to the pool before a failed issue is noticed.
  function ModVdp(t: Txn, r: Reply, env: Env): (out: Out)
    requires Wf(t) && t.cb.ModVdpCb? && Fits(t.cb, r)
    ensures Continues(t, out)
  {
    var drop := [PutCtx(t.impl.value.blk)];
    var bare := t.(impl := None);
    if r.res.Accept? then Finish(bare, Accepted, env).After(drop)
    else if !env.issued then Finish(bare, SystemFailure, env).After(drop)
    else
      HandOn(bare.(cb := ModUndoCb), WriteRec(t.RecKey(), t.dbVer, t.impl.value.val, false)).After(drop)
  }

  // mod_compensate_write_cb
  function ModUndo(t: Txn, r: Reply, env: Env): (out: Out)
    requires Wf(t) && t.cb.ModUndoCb? && Fits(t.cb, r)
    ensures Continues(t, out)
  {
    Finish(t, Rejected, env)
  }

  // --- deletion ---

  // del_read_cb
  function DelRead(t: Txn, r: Reply, env: Env): (out: Out)
    requires Wf(t) && t.cb.DelReadCb? && Fits(t.cb, r)
    ensures Continues(t, out)
  {
    if r.Err? then Finish(t, SystemFailure, env)
    else if r.NotFound? then Finish(t, CtxNotFound, env)
    else
      var t1 := t.(dbVer := r.ver, ctx := Some(t.ctx.value.(val := r.data)),
                   state := VdpWait, cb := DelVdpCb);
      if !env.issued then Finish(t1, SystemFailure, env)
      else HandOn(t1, VdpDelete(t1.RecKey()))
  }

  // del_vdp_cb
  function DelVdp(t: Txn, r: Reply, env: Env): (out: Out)
    requires Wf(t) && t.cb.DelVdpCb? && Fits(t.cb, r)
    ensures Continues(t, out)
  {
    if !r.res.Accept? then Finish(t, Rejected, env)
    else
      var t1 := t.(state := DbWriteWait, cb := DelDeleteCb);
      if !env.issued then Finish(t1, SystemFailure, env)
      else HandOn(t1, DeleteRec(t1.RecKey(), t1.dbVer))
  }

  // del_delete_cb
  function DelDelete(t: Txn, r: Reply, env: Env): (out: Out)
    requires Wf(t) && t.cb.DelDeleteCb? && Fits(t.cb, r)
    ensures Continues(t, out)
  {
    match r
    case CasOk(_) => Finish(t, Accepted, env).Freeing(t.part, CtxTeid(t.ctx.value.val))
    case CasConflict =>
      var t1 := t.(casRetry := t.casRetry + 1);
      if t1.casRetry >= CAS_MAX_RETRY then Finish(t1, SystemFailure, env)
      else StartRead(t1.(ctx := Some(t.ctx.value.(val := Blank))), DelReadCb, env)
    case CasGone => Finish(t, CtxNotFound, env)
    case _ => Finish(t, SystemFailure, env)
  }

  function Callback(t: Txn, r: Reply, env: Env): (out: Out)
    requires Wf(t) && Fits(t.cb, r)
    ensures Continues(t, out)
  {
    match t.cb
    case EstLookupCb => EstLookup(t, r, env)
    case EstWriteCb => EstWrite(t, r, env)
    case EstVdpCb => EstVdp(t, r, env)
    case EstConfirmCb => EstConfirm(t, r, env)
    case ModLookupCb => Lookup(t, r, env)
    case ModReadCb => ModRead(t, r, env)
    case ModWriteCb => ModWrite(t, r, env)
    case ModVdpCb => ModVdp(t, r, env)
    case ModUndoCb => ModUndo(t, r, env)
    case DelLookupCb => Lookup(t, r, env)
    case DelReadCb => DelRead(t, r, env)
    case DelVdpCb => DelVdp(t, r, env)
    case DelDeleteCb => DelDelete(t, r, env)
  }

  // --- the hard-timeout sweeper (src/v_txn/src/v_txn.c) ---

  // timeout_handler: `impl` is not released and no response is sent.
  function TimeoutHandler(t: Txn): Out {
    var aside :=
      match t.state
      case VdpWait => if t.dbVer == 0 then Some(DeleteRec(t.RecKey(), 1)) else None
      case DbConfirmWait => Some(PersistRec(t.RecKey()))
      case _ => None;
    Out(Gone, (if t.ctx.Some? then [PutCtx(t.ctx.value.blk)] else []) + [PutReq], None, aside, None, None)
  }
}
