// Where every request and every reply leads: the flows as one table of
// transitions, stated apart from the callbacks, and proved to leave nothing
// about a callback open.
module Transitions {
  import opened Wrappers
  import opened Seid
  import opened Flow
  import opened Answers
  import Ledger

  // --- a request arrives ---

  // Some partition and local index encode this SEID.
  ghost predicate Encodes(part: nat, seid: nat) {
    exists local: nat :: SeidEncode(part, local) == Some(seid)
  }

  lemma ValidateIsEncodes(seid: nat)
    ensures forall part: nat :: SeidValidate(seid) == Some(part) <==> Encodes(part, seid)
  {
    if seid < U64 {
      SeidValidateIsImage(seid);
    }
    forall part: nat, local: nat | SeidEncode(part, local) == Some(seid)
      ensures SeidValidate(seid) == Some(part)
    {
      SeidRoundTrip(part, local);
    }
  }

  // An establishment is for nobody yet; every other request must name a SEID that
  // could have been handed out.
  ghost predicate Concerns(req: Req, part: nat) {
    if req.kind.Est? then part == 0 else Encodes(part, req.seid)
  }

  // Exactly the requests that concern somebody and find room get a transaction;
  // exactly those that concern nobody are answered at once, "not found" with SEID
  // 0; the answer is not cached, and the request goes back unless a lookup is on
  // its way.
  lemma EntryExactly(req: Req, env: Env)
    ensures var (made, out) := Start(req, env); var known := exists part: nat :: Concerns(req, part);
            && (made <==> known && env.room)
            && (out.fate.Await? <==> made && env.issued)
            && out.ops == (if out.fate.Await? then [] else [PutReq])
            && out.send == (if !known && env.encoded then Some(Rsp(req.kind, req.sn, CtxNotFound, 0)) else None)
            && out.store.None? && out.push.None? && out.aside.None?
    ensures var out := Start(req, env).1;
            out.fate.Await? ==>
              var t := out.fate.t;
              && out.fate.cmd == GetCached(req.smf, req.sn) && IsLookup(t.cb) && Wf(t) && t.req == req
              && Concerns(req, t.part) && t.seid == (if req.kind.Est? then 0 else req.seid)
              && t.teid == t.dbVer == t.casRetry == 0
  {
    ValidateIsEncodes(req.seid);
    var valid := SeidValidate(req.seid);
    hide SeidValidate, Encodes;
    if req.kind.Est? {
      assert Concerns(req, 0);
    } else if valid.Some? {
      assert Concerns(req, valid.value);
    } else {
      assert forall part: nat :: !Encodes(part, req.seid);
    }
  }

  // The answers owed to the requests of a run that concern nobody, in order.
  ghost function Refusals(ms: seq<Ledger.Move>): seq<Rsp> {
    if ms == [] then []
    else
      var m := ms[0];
      var unknown := m.Arrive? && m.env.encoded && forall part: nat :: !Concerns(m.req, part);
      (if unknown then [Rsp(m.req.kind, m.req.sn, CtxNotFound, 0)] else []) + Refusals(ms[1..])
  }

  // Those a pod has given.
  function Refused(log: seq<Ledger.Event>): seq<Rsp> {
    if log == [] then []
    else
      var e := log[|log| - 1];
      Refused(log[..|log| - 1]) + (if e.Refused? then [e.rsp] else [])
  }

  lemma MoveRefuses(p: Ledger.Pod, m: Ledger.Move)
    requires Ledger.CanMove(p, m)
    ensures Refused(Ledger.Do(p, m).log) == Refused(p.log) + Refusals([m])
  {
    hide Callback, TimeoutHandler, Ledger.BookAll, Concerns;
    var p' := Ledger.Do(p, m);
    assert [m][1..] == [];
    if m.Arrive? {
      EntryExactly(m.req, m.env);
      var (made, out) := Start(m.req, m.env);
      hide Start;
      if made {
        LandRefusesNone(p.(log := p.log + [Ledger.Made(p.next)]), p.next, out);
        AddRefused(p.log, Ledger.Made(p.next));
      } else if out.send.Some? {
        AddRefused(p.log, Ledger.Event.Refused(out.send.value));
      }
    } else if m.Hear? {
      LandRefusesNone(p, m.id, Callback(p.live[m.id].t, m.r, m.env));
    } else {
      LandRefusesNone(p, m.id, TimeoutHandler(p.live[m.id].t));
    }
  }

  lemma AddRefused(log: seq<Ledger.Event>, e: Ledger.Event)
    ensures Refused(log + [e]) == Refused(log) + (if e.Refused? then [e.rsp] else [])
  {
    assert (log + [e])[..|log|] == log;
  }

  lemma LandRefusesNone(p: Ledger.Pod, id: nat, out: Out)
    ensures Refused(Ledger.Land(p, id, out).log) == Refused(p.log)
  {
    hide Ledger.BookAll;
    var said := if out.send.Some? then [Ledger.Said(id, out.send.value)] else [];
    if out.send.Some? {
      AddRefused(p.log, said[0]);
    } else {
      assert p.log + said == p.log;
    }
    AddRefused(p.log + said, Ledger.Died(id));
  }

  // Over any run of a pod, the datagrams sent outside a transaction are exactly
  // the refusals of the requests that concern nobody.
  lemma {:induction false} RefusalsAreOwed(p: Ledger.Pod, ms: seq<Ledger.Move>)
    requires Ledger.CanRun(p, ms)
    ensures Refused(Ledger.RunAll(p, ms).log) == Refused(p.log) + Refusals(ms)
    decreases |ms|
  {
    hide Ledger.Do, Ledger.CanMove, Refused;
    if ms != [] {
      MoveRefuses(p, ms[0]);
      assert [ms[0]][1..] == [];
      RefusalsAreOwed(Ledger.Do(p, ms[0]), ms[1..]);
    }
  }

  // --- a reply arrives ---

  // The reply each flow goes on with, and where to.
  function Successor(t: Txn, r: Reply): Option<Cb> {
    match (t.cb, r)
    case (_, Hit(_)) => None
    case (EstLookupCb, _) => Some(EstWriteCb)
    case (EstWriteCb, CasOk(_)) => Some(EstVdpCb)
    case (EstVdpCb, Vdp(Accept)) => Some(EstConfirmCb)
    case (ModLookupCb, _) => Some(ModReadCb)
    case (ModReadCb, Found(_, _)) => Some(ModWriteCb)
    case (ModWriteCb, CasOk(_)) => Some(ModVdpCb)
    case (ModVdpCb, Vdp(res)) => if res.Accept? then None else Some(ModUndoCb)
    case (DelLookupCb, _) => Some(DelReadCb)
    case (DelReadCb, Found(_, _)) => Some(DelVdpCb)
    case (DelVdpCb, Vdp(Accept)) => Some(DelDeleteCb)
    case (_, CasConflict) =>
      if t.casRetry + 1 >= CAS_MAX_RETRY then None
      else if t.cb.ModWriteCb? then Some(ModReadCb)
      else if t.cb.DelDeleteCb? then Some(DelReadCb)
      else None
    case _ => None
  }

  // What going on takes from the ports: ids, blocks, and the request issued.
  predicate Provided(t: Txn, next: Cb, env: Env) {
    && env.issued
    && (next.EstWriteCb? ==> env.seid != 0 && env.teid != 0 && env.built)
    && (next.ModWriteCb? ==> env.copied && env.changed)
    && (IsLookup(t.cb) || next.ModWriteCb? ==> env.blk.Some?)
  }

  // What the contexts hold while the transaction waits: the session built or
  // changed, the session as read, or nothing; and the snapshot for the undo.
  predicate Contexts(t: Txn, r: Reply, env: Env, u: Txn) {
    && u.ctx.Some? && (t.ctx.Some? ==> u.ctx.value.blk == t.ctx.value.blk)
    && (t.ctx.None? ==> env.blk == Some(u.ctx.value.blk))
    && (match u.cb
        case EstWriteCb => u.ctx.value.val == Built(t.req, env.seid, env.teid)
        case ModReadCb | DelReadCb => u.ctx.value.val == Blank
        case ModWriteCb => r.Found? && u.ctx.value.val == Changed(r.data, t.req)
        case DelVdpCb => r.Found? && u.ctx.value.val == r.data
        case _ => u.ctx == t.ctx)
    && (if u.cb.ModWriteCb? then
          r.Found? && u.impl.Some? && u.impl.value.val == r.data && env.blk == Some(u.impl.value.blk)
        else u.impl == if u.cb.ModVdpCb? then t.impl else None)
  }

  // The transaction that waits again: the session it is for, the version it knows
  // and its retries.
  predicate Carries(t: Txn, r: Reply, env: Env, u: Txn) {
    && u.req == t.req
    && (if t.cb.EstLookupCb? then (u.part, u.seid, u.teid) == (env.part, env.seid, env.teid)
        else (u.part, u.seid, u.teid) == (t.part, t.seid, t.teid))
    && u.dbVer == (if r.Found? then r.ver else if r.CasOk? then r.newVer else t.dbVer)
    && u.casRetry == (if r.CasConflict? then t.casRetry + 1 else t.casRetry)
  }

  // It goes on exactly when the table says so and the ports provide for it.
  predicate Transits(t: Txn, r: Reply, env: Env, out: Out) {
    var next := Successor(t, r);
    && (out.fate.Await? <==> next.Some? && Provided(t, next.value, env))
    && (out.fate.Await? ==>
          && out.fate.t.cb == next.value && Carries(t, r, env, out.fate.t) && Contexts(t, r, env, out.fate.t)
          && (next.value.ModUndoCb? ==>
                t.impl.Some? && out.fate.cmd == WriteRec(t.RecKey(), t.dbVer, t.impl.value.val, false)))
  }

  lemma EstTransits(t: Txn, r: Reply, env: Env)
    requires Wf(t) && Fits(t.cb, r) && IsEst(t.cb)
    ensures Transits(t, r, env, Callback(t, r, env))
  {
    hide Continues;
  }

  lemma ModTransits(t: Txn, r: Reply, env: Env)
    requires Wf(t) && Fits(t.cb, r) && IsMod(t.cb)
    ensures Transits(t, r, env, Callback(t, r, env))
  {
    hide Continues;
  }

  lemma DelTransits(t: Txn, r: Reply, env: Env)
    requires Wf(t) && Fits(t.cb, r) && IsDel(t.cb)
    ensures Transits(t, r, env, Callback(t, r, env))
  {
    hide Continues;
  }

  lemma EveryCallbackTransits(t: Txn, r: Reply, env: Env)
    requires Wf(t) && Fits(t.cb, r)
    ensures Transits(t, r, env, Callback(t, r, env))
  {
    hide Transits, Callback, Wf, Fits;
    if IsEst(t.cb) {
      EstTransits(t, r, env);
    } else if IsMod(t.cb) {
      ModTransits(t, r, env);
    } else {
      DelTransits(t, r, env);
    }
  }

  // The table, the account of the answer, the TEID and the rollback, and the
  // request each wait is for leave nothing open: whatever meets them is what the
  // callback does, pool operations aside, which the books of the pod settle.
  lemma NothingElseIsAllowed(t: Txn, r: Reply, env: Env, out: Out)
    requires Wf(t) && Fits(t.cb, r)
    requires Transits(t, r, env, out) && Accountable(t, r, env, out) && Continues(t, out)
    ensures out == Callback(t, r, env).(ops := out.ops)
  {
    hide Callback;
    EveryCallbackTransits(t, r, env);
    EveryCallbackAccounts(t, r, env);
    var its := Callback(t, r, env);
    if out.fate.Await? {
      SameWait(t, r, env, out, its);
    }
    SameWords(t, r, env, out, its);
  }

  lemma SameWait(t: Txn, r: Reply, env: Env, a: Out, b: Out)
    requires Wf(t) && Fits(t.cb, r)
    requires Transits(t, r, env, a) && Continues(t, a) && a.fate.Await?
    requires Transits(t, r, env, b) && Continues(t, b) && b.fate.Await?
    ensures a.fate == b.fate
  {
    hide Successor, Provided;
  }

  lemma SameWords(t: Txn, r: Reply, env: Env, a: Out, b: Out)
    requires a.fate == b.fate && Accountable(t, r, env, a) && Accountable(t, r, env, b)
    ensures a == b.(ops := a.ops)
  {
    hide CauseOf, TeidBefore;
  }

  // --- the cache cannot be reached ---

  // A lookup whose answer is lost is a miss, in all three flows and whatever the
  // ports answer.
  lemma OutageIsAMiss(t: Txn, env: Env)
    requires Wf(t) && IsLookup(t.cb)
    ensures Callback(t, Err, env) == Callback(t, Miss, env)
  {
  }

  // --- the hard timeout ---

  // Whatever a transaction waits for, its timeout tells the SMF nothing, caches
  // nothing and frees no TEID. It sends one command at most: PERSIST again for an
  // establishment that waits for it, or a delete of version 1 where the VDP is
  // asked about a record of version 0.
  lemma SweepIsSilent(t: Txn)
    requires Wf(t)
    ensures var out := TimeoutHandler(t);
            && out.fate.Gone? && out.send.None? && out.store.None? && out.push.None?
            && out.aside ==
                 (if t.cb.EstConfirmCb? then Some(PersistRec(t.RecKey()))
                  else if t.cb.DelVdpCb? && t.dbVer == 0 then Some(DeleteRec(t.RecKey(), 1))
                  else None)
  {
  }
}
