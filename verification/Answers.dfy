// What an answer sent to the SMF tells: about the callback that sent it, about
// the TEID, and about the session in every sound state and ever after.
module Answers {
  import opened Wrappers
  import opened Seid
  import opened Flow
  import opened Store
  import opened Cluster
  import opened CoreInv
  import opened Steps
  import opened OwnInv
  import opened OwnSteps
  import opened Ownership

  // --- one callback ---

  // A transaction that ends without a cache hit answers its request, in the
  // request's kind and number, with the session's SEID on success and 0
  // otherwise, and caches what it sends; one that goes on says nothing.
  predicate AnswersOnce(t: Txn, r: Reply, env: Env, out: Out) {
    if out.fate.Await? then out.send.None? && out.store.None?
    else if r.Hit? then out.send == Some(r.rsp) && out.store.None?
    else
      && out.store == out.send && (out.send.Some? <==> env.encoded)
      && (out.send.Some? ==>
            && out.send.value.kind == t.req.kind && out.send.value.sn == t.req.sn
            && out.send.value.seid ==
                 (if out.send.value.cause.Accepted? && t.ctx.Some? then CtxSeid(t.ctx.value.val) else 0))
  }

  // The cause names exactly what happened.
  function CauseOf(t: Txn, r: Reply, env: Env): Cause {
    if (t.cb.EstConfirmCb? && r.Done?) || (t.cb.ModVdpCb? && r == Vdp(Accept)) || (t.cb.DelDeleteCb? && r.CasOk?)
    then Accepted
    else if (t.cb.EstVdpCb? && r != Vdp(Accept)) || (t.cb.DelVdpCb? && r != Vdp(Accept)) || t.cb.ModUndoCb?
    then Rejected
    else if r.NotFound? || (r.CasGone? && !t.cb.EstWriteCb?) then CtxNotFound
    else if t.cb.EstLookupCb? && (env.seid == 0 || env.teid == 0) then NoResources
    else SystemFailure
  }

  predicate CauseTells(t: Txn, r: Reply, env: Env, out: Out) {
    out.fate.Gone? && !r.Hit? && out.send.Some? ==> out.send.value.cause == CauseOf(t, r, env)
  }

  // The TEID a transaction must answer for before the callback.
  function TeidBefore(t: Txn, r: Reply, env: Env): Option<(nat, nat)> {
    if Allocates(t, r) then (if env.teid == 0 then None else Some((env.part, env.teid)))
    else if t.cb.EstWriteCb? || t.cb.EstVdpCb? then Some((t.part, t.teid))
    else if t.cb.DelDeleteCb? && r.CasOk? && t.ctx.Some? then Some((t.part, CtxTeid(t.ctx.value.val)))
    else None
  }

  // It goes exactly one way: kept by the transaction, taken over by the session
  // the VDP accepted, or pushed to its free list. None is dropped, none doubled.
  predicate TeidGoesOneWay(t: Txn, r: Reply, env: Env, out: Out) {
    var before := TeidBefore(t, r, env);
    var kept := out.fate.Await? && (out.fate.t.cb.EstWriteCb? || out.fate.t.cb.EstVdpCb?);
    var taken := t.cb.EstVdpCb? && r == Vdp(Accept);
    && (before.None? ==> out.push.None? && !kept && !taken)
    && (before.Some? ==>
          && (kept ==> (out.fate.t.part, out.fate.t.teid) == before.value)
          && (out.push == if kept || taken then None else Some(PushTeid(before.value.0, before.value.1)))
          && !(kept && taken))
  }

  // A record is rolled back exactly when the create landed and the rule did not.
  predicate RollsBackExactly(t: Txn, r: Reply, out: Out) {
    out.aside ==
      if out.fate.Gone? && ((t.cb.EstWriteCb? && r.CasOk?) || (t.cb.EstVdpCb? && r != Vdp(Accept)))
      then Some(DeleteRec(t.RecKey(), if r.CasOk? then r.newVer else t.dbVer))
      else None
  }

  predicate Accountable(t: Txn, r: Reply, env: Env, out: Out) {
    AnswersOnce(t, r, env, out) && CauseTells(t, r, env, out) && TeidGoesOneWay(t, r, env, out)
    && RollsBackExactly(t, r, out)
  }

  lemma EstAccounts(t: Txn, r: Reply, env: Env)
    requires Wf(t) && Fits(t.cb, r) && IsEst(t.cb)
    ensures Accountable(t, r, env, Callback(t, r, env))
  {
    hide Continues;
  }

  lemma ModAccounts(t: Txn, r: Reply, env: Env)
    requires Wf(t) && Fits(t.cb, r) && IsMod(t.cb)
    ensures Accountable(t, r, env, Callback(t, r, env))
  {
    hide Continues;
  }

  lemma DelAccounts(t: Txn, r: Reply, env: Env)
    requires Wf(t) && Fits(t.cb, r) && IsDel(t.cb)
    ensures Accountable(t, r, env, Callback(t, r, env))
  {
    hide Continues;
  }

  lemma EveryCallbackAccounts(t: Txn, r: Reply, env: Env)
    requires Wf(t) && Fits(t.cb, r)
    ensures Accountable(t, r, env, Callback(t, r, env))
  {
    hide Accountable, Callback, Wf, Fits;
    if IsEst(t.cb) {
      EstAccounts(t, r, env);
    } else if IsMod(t.cb) {
      ModAccounts(t, r, env);
    } else {
      DelAccounts(t, r, env);
    }
  }

  // --- the answer and the session ---

  // What an answer about session k means for the state it is sent in.
  ghost predicate True(s: State, tid: nat, t: Txn, k: Key, rsp: Rsp) {
    match (rsp.kind, rsp.cause)
    case (Est, Accepted) => k in s.served && k in s.db.keys && s.db.keys[k].persisted.Some? && rsp.seid == k.seid
    case (Mod, Accepted) => Standing(s.db, k, t.dbVer, tid, t.req)
    case (Del, Accepted) => k in s.db.keys && s.db.keys[k].erased && k !in s.rules && k in s.closed
    case (Mod, CtxNotFound) => k in s.db.keys && !s.db.Has(k)
    case (Del, CtxNotFound) => k in s.db.keys && !s.db.Has(k)
    case _ => true
  }

  // Every answer that is not a replay is true when it is sent: an accepted
  // session was served and confirmed; an accepted modification is in the record;
  // an accepted deletion left neither record nor rule; a session "not found" has
  // no record.
  lemma AnswersAreTrue(s: State, tid: nat, env: Env)
    requires Sound(s) && Enabled(s, Call(tid, env)) && !s.txns[tid].io.r.Hit?
    ensures var live := s.txns[tid]; var out := Callback(live.t, live.io.r, Allocated(s, live, live.io.r, env).1);
            out.send.Some? ==>
              out.send.value.kind == live.t.req.kind && True(s, tid, live.t, live.t.RecKey(), out.send.value)
  {
    hide Core, Own, Sound, Callback, Allocated, True, AnswersOnce, TeidGoesOneWay, RollsBackExactly, CauseOf;
    hide Wf, Fits;
    SoundIsOwn(s);
    var live := s.txns[tid];
    var env1 := Allocated(s, live, live.io.r, env).1;
    var out := Callback(live.t, live.io.r, env1);
    EveryCallbackAccounts(live.t, live.io.r, env1);
    AnswerShape(live.t, live.io.r, env1, out);
    KindIsKept(live.t);
    if out.send.Some? {
      TruthOf(s, tid, env1, out.send.value);
    }
  }

  // What is sent at the end is on its way to the cache too, under the very request
  // it answers; a replay stores nothing.
  lemma AnswerIsCached(s: State, tid: nat, env: Env)
    requires Enabled(s, Call(tid, env))
    ensures var live := s.txns[tid]; var s' := Next(s, Call(tid, env));
            var out := Callback(live.t, live.io.r, Allocated(s, live, live.io.r, env).1);
            var id := s.nextId + 2;
            && (out.send.Some? && !live.io.r.Hit? ==>
                  && id in s'.stray && out.send.value.sn == live.t.req.sn
                  && s'.stray[id].cmd == StoreRsp(live.t.req.smf, live.t.req.sn, out.send.value))
            && (id in s'.stray && id !in s.stray ==>
                  out.send.Some? && !live.io.r.Hit? && s'.stray[id].cmd.StoreRsp?)
  {
    hide Callback, Allocated, TeidGoesOneWay, RollsBackExactly, CauseTells, Wf, Fits, NewClaims;
    var live := s.txns[tid];
    EveryCallbackAccounts(live.t, live.io.r, Allocated(s, live, live.io.r, env).1);
  }

  lemma KindIsKept(t: Txn)
    requires Wf(t)
    ensures KindOf(t.cb) == t.req.kind
  {
  }

  lemma AnswerShape(t: Txn, r: Reply, env: Env, out: Out)
    requires Accountable(t, r, env, out) && !r.Hit?
    ensures out.send.Some? ==>
              && out.fate.Gone? && out.send.value.kind == t.req.kind
              && out.send.value.cause == CauseOf(t, r, env)
              && out.send.value.seid ==
                   (if out.send.value.cause.Accepted? && t.ctx.Some? then CtxSeid(t.ctx.value.val) else 0)
  {
    hide CauseOf;
  }

  lemma TruthOf(s: State, tid: nat, env: Env, rsp: Rsp)
    requires Core(s) && Own(s) && tid in s.txns && s.txns[tid].io.Got? && Fits(s.txns[tid].t.cb, s.txns[tid].io.r)
    requires var live := s.txns[tid];
             && rsp.kind == live.t.req.kind == KindOf(live.t.cb)
             && rsp.cause == CauseOf(live.t, live.io.r, env)
             && rsp.seid == (if rsp.cause.Accepted? && live.t.ctx.Some? then CtxSeid(live.t.ctx.value.val) else 0)
    ensures True(s, tid, s.txns[tid].t, s.txns[tid].t.RecKey(), rsp)
  {
    hide Core, Own, TxnOk, DbInv, OwnTxn, AcceptedOk, TicketsOk;
    var live := s.txns[tid];
    NotStray(s, tid);
    OwnTxnNow(s, tid);
    CoreParts(s);
    ClosedHasNoRule(s);
    if rsp.kind.Est? {
      EstIsTrue(s, tid, live, env, rsp);
    } else {
      RestIsTrue(s, tid, live, env, rsp);
    }
  }

  predicate NoRuleClosed(s: State) { s.rules !! s.closed }

  lemma ClosedHasNoRule(s: State)
    requires Own(s)
    ensures NoRuleClosed(s)
  {
    hide TeidsOwned, ClaimsOk, OwnTxns, OwnStrays;
  }

  lemma EstIsTrue(s: State, tid: nat, live: Live, env: Env, rsp: Rsp)
    requires TxnOk(s, tid, live) && live.io.Got? && IsEst(live.t.cb) && rsp.kind.Est?
    requires rsp.cause == CauseOf(live.t, live.io.r, env)
    requires rsp.seid == (if rsp.cause.Accepted? && live.t.ctx.Some? then CtxSeid(live.t.ctx.value.val) else 0)
    ensures True(s, tid, live.t, live.t.RecKey(), rsp)
  {
    hide ModOk, DelOk, Seen, Behind;
  }

  lemma RestIsTrue(s: State, tid: nat, live: Live, env: Env, rsp: Rsp)
    requires TxnOk(s, tid, live) && OwnTxn(s, tid, live) && AcceptedOk(s) && NoRuleClosed(s)
    requires live.io.Got? && Fits(live.t.cb, live.io.r) && !IsEst(live.t.cb)
    requires rsp.kind == KindOf(live.t.cb) && rsp.cause == CauseOf(live.t, live.io.r, env)
    ensures True(s, tid, live.t, live.t.RecKey(), rsp)
  {
    hide EstOk, Seen, Behind, TeidValidate;
  }

  // A committed deletion is final: in every later sound state the session has
  // neither record nor rule.
  lemma AcceptedDeletionIsFinal(s: State, k: Key, run: seq<Label>)
    requires Sound(s) && k in s.db.keys && s.db.keys[k].erased
    requires Valid(s, run) && Sound(After(s, run))
    ensures var s' := After(s, run); !s'.db.Has(k) && k !in s'.rules && s'.db.Erased(k)
  {
    hide Core, Own, Sound, DbInv;
    SoundIsOwn(s);
    SoundIsOwn(After(s, run));
    RunGrows(s, run);
    var s' := After(s, run);
    assert LifeGrows(s.db.keys[k], s'.db.keys[k]);
    CoreParts(s');
    RecordOk(s'.db, k);
    ErasedHasNoRule(s', k);
  }

  lemma RecordOk(db: Db, k: Key)
    requires DbInv(db) && k in db.keys
    ensures LifeOk(db.now, db.keys[k])
  {
  }

  lemma ErasedHasNoRule(s: State, k: Key)
    requires Own(s) && k in s.db.keys && s.db.keys[k].erased
    ensures k !in s.rules
  {
    hide TeidsOwned, ClaimsOk, OwnTxns, OwnStrays;
  }
}
