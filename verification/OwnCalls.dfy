// Callbacks keep the ownership invariant, and so does every run.
module OwnCalls {
  import opened Wrappers
  import opened Seid
  import opened Flow
  import opened Store
  import opened IdPool
  import opened Cluster
  import opened CoreInv
  import opened CoreSteps
  import opened CoreCalls
  import opened Steps
  import opened OwnInv
  import opened OwnSteps
  import opened OwnRest

  // Which TEID a callback gives back, whose record it rolls back, and what it
  // hands on.
  predicate Pushes(t: Txn, r: Reply, env: Env, out: Out) {
    out.push.Some? ==>
      && out.fate.Gone?
      && (|| (Allocates(t, r) && env.teid != 0 && out.push.value == PushTeid(env.part, env.teid))
          || (t.cb.EstWriteCb? && out.push.value == PushTeid(t.part, t.teid))
          || (t.cb.EstVdpCb? && r != Vdp(Accept) && r != Err && out.push.value == PushTeid(t.part, t.teid))
          || (t.cb.DelDeleteCb? && r.CasOk? && t.ctx.Some?
              && out.push.value == PushTeid(t.part, CtxTeid(t.ctx.value.val))))
  }

  predicate RollsBack(t: Txn, r: Reply, out: Out) {
    out.aside.Some? ==>
      && out.fate.Gone? && out.aside.value.DeleteRec? && out.aside.value.key == t.RecKey()
      && ((t.cb.EstWriteCb? && r.CasOk?) || (t.cb.EstVdpCb? && r != Vdp(Accept) && r != Err))
  }

  predicate Hands(t: Txn, r: Reply, env: Env, out: Out) {
    out.fate.Await? ==>
      var u := out.fate.t;
      match u.cb
      case EstLookupCb => false
      case EstWriteCb => Mints(out) && Allocates(t, r) && u.part == env.part && u.teid == env.teid != 0
      case EstVdpCb => t.cb.EstWriteCb? && r.CasOk? && u.RecKey() == t.RecKey() && u.teid == t.teid
      case EstConfirmCb => true
      case DelDeleteCb => t.cb.DelVdpCb? && r == Vdp(Accept) && u.RecKey() == t.RecKey()
      case _ => !IsEst(t.cb) && u.RecKey() == t.RecKey()
  }

  predicate OwnTame(t: Txn, r: Reply, env: Env, out: Out) {
    && Pushes(t, r, env, out) && RollsBack(t, r, out) && Hands(t, r, env, out)
    && (Allocates(t, r) && env.teid != 0 ==> out.push.Some? || Mints(out))
    && (Allocates(t, r) ==> out.aside.None?)
    && (Accepts(t, out) ==> t.cb.EstConfirmCb? && out.fate.Gone? && out.push.None? && out.aside.None?)
  }

  lemma CallIsOwnTame(t: Txn, r: Reply, env: Env)
    requires Wf(t) && Fits(t.cb, r)
    ensures OwnTame(t, r, env, Callback(t, r, env))
  {
    if IsEst(t.cb) {
      EstIsOwnTame(t, r, env);
    } else if IsMod(t.cb) {
      ModIsOwnTame(t, r, env);
    } else {
      DelIsOwnTame(t, r, env);
    }
  }

  lemma EstIsOwnTame(t: Txn, r: Reply, env: Env)
    requires Wf(t) && Fits(t.cb, r) && IsEst(t.cb)
    ensures OwnTame(t, r, env, Callback(t, r, env))
  {
  }

  lemma ModIsOwnTame(t: Txn, r: Reply, env: Env)
    requires Wf(t) && Fits(t.cb, r) && IsMod(t.cb)
    ensures OwnTame(t, r, env, Callback(t, r, env))
  {
  }

  lemma DelIsOwnTame(t: Txn, r: Reply, env: Env)
    requires Wf(t) && Fits(t.cb, r) && IsDel(t.cb)
    ensures OwnTame(t, r, env, Callback(t, r, env))
  {
  }

  // --- the claims after a callback ---

  // The TEID a miss takes out of the pool.
  ghost predicate TeidOut(s: State, s1: State, part: nat, teid: nat) {
    && s1 == s.(seids := s1.seids, teids := s1.teids)
    && TeidsOwned(s1.teids)
    && (forall q: nat, id :: q < NUM_PARTS ==>
          (IsOut(InPart(s1.teids, q), id) <==> IsOut(InPart(s.teids, q), id) || (q == part && teid != 0 && id == teid)))
    && (teid != 0 ==> TeidValidate(teid) == Some(part) && teid !in s.claims)
  }

  lemma TeidGoesOut(s: State, live: Live, r: Reply, env: Env)
    requires Core(s) && Own(s) && env.part < NUM_PARTS
    ensures var (s1, env1) := Allocated(s, live, r, env);
            && env1.part == env.part
            && TeidOut(s, s1, env.part, if Allocates(live.t, r) then env1.teid else 0)
  {
    hide Core, Own, TeidOut, Alloc;
    if Allocates(live.t, r) {
      TeidTaken(s, Allocated(s, live, r, env).0, env.part, live.pod);
    } else {
      NoneTaken(s, env.part);
    }
  }

  lemma NoneTaken(s: State, part: nat)
    requires Own(s)
    ensures TeidOut(s, s, part, 0)
  {
  }

  lemma TeidTaken(s: State, s1: State, part: nat, pod: nat)
    requires Core(s) && Own(s) && part < NUM_PARTS
    requires s1 == s.(seids := s1.seids, teids := s.teids[part := Alloc(s.TeidPool(part), pod).0])
    ensures TeidOut(s, s1, part, Alloc(s.TeidPool(part), pod).1)
  {
    hide Core, Own, Owned, Alloc, TeidValidate, IsOut, Shape;
    var p := s.TeidPool(part);
    var teid := Alloc(p, pod).1;
    TeidsStand(s);
    TeidsAreOwned(s, part);
    PoolIsOk(s, Teids, part);
    AllocKeeps(Teids, part, p, pod);
    AllocTakesFromRing(Teids, part, p, pod);
    AllocGoesOut(Teids, part, p, pod);
    if teid in s.claims {
      ClaimedIsOut(s, teid);
    }
    PoolReplaced(s, s1, part);
  }

  lemma TeidsStand(s: State)
    requires Own(s)
    ensures TeidsOwned(s.teids)
  {
  }

  lemma ClaimedIsOut(s: State, id: nat)
    requires Own(s) && id in s.claims
    ensures TeidValidate(id).Some? && IsOut(InPart(s.teids, TeidValidate(id).value), id)
  {
    hide TeidsOwned, KeysOk, OwnTxns, OwnStrays, TeidValidate, IsOut;
  }

  lemma PoolReplaced(s: State, s1: State, part: nat)
    requires TeidsOwned(s.teids) && part < NUM_PARTS
    requires s1 == s.(seids := s1.seids, teids := s.teids[part := InPart(s1.teids, part)])
    requires Owned(Teids, part, InPart(s1.teids, part))
    ensures TeidsOwned(s1.teids)
    ensures forall q: nat :: q != part ==> InPart(s1.teids, q) == InPart(s.teids, q)
  {
    hide Owned;
    forall q: nat | q < NUM_PARTS ensures Owned(Teids, q, InPart(s1.teids, q)) {
      assert q != part ==> InPart(s1.teids, q) == InPart(s.teids, q);
    }
  }

  // The TEID in a callback's hands: just allocated, or its own.
  predicate InHand(s: State, tid: nat, part: nat, teid: nat, got: nat) {
    (got != 0 && teid == got) || (got == 0 && Claimed(s, part, teid, ByTxn(tid)))
  }

  lemma ClaimsSettle(s: State, s1: State, tid: nat, live: Live, out: Out, part: nat, got: nat)
    requires ClaimsOk(s.teids, s.claims) && TeidOut(s, s1, part, got)
    requires out.push.Some? ==> out.push.value.PushTeid?
                                && InHand(s, tid, out.push.value.part, out.push.value.teid, got)
    requires out.push.None? && Mints(out) ==> out.fate.t.teid == got != 0
    requires got != 0 ==> out.push.Some? || Mints(out)
    ensures var s' := Settle(s1, tid, live, out); TeidsOwned(s'.teids) && ClaimsOk(s'.teids, s'.claims)
  {
    ClaimedAfter(s, s1, tid, out, part, got);
    hide TeidsOwned, NewStrays, NewTxns, NewClaims, ClaimsOk, Mints;
    ClaimsMove(s, s1, NewClaims(s1, tid, out), part, got);
  }

  // A callback claims the TEID it got, and otherwise one that had a claim.
  lemma ClaimedAfter(s: State, s1: State, tid: nat, out: Out, part: nat, got: nat)
    requires s1.claims == s.claims
    requires out.push.Some? ==> out.push.value.PushTeid?
                                && InHand(s, tid, out.push.value.part, out.push.value.teid, got)
    requires out.push.None? && Mints(out) ==> out.fate.t.teid == got != 0
    requires got != 0 ==> out.push.Some? || Mints(out)
    ensures NewClaims(s1, tid, out).Keys == s.claims.Keys + (if got != 0 then {got} else {})
  {
    hide TeidValidate;
  }

  lemma ClaimsMove(s: State, s1: State, claims: map<nat, Claim>, part: nat, got: nat)
    requires ClaimsOk(s.teids, s.claims) && TeidOut(s, s1, part, got)
    requires claims.Keys == s.claims.Keys + (if got != 0 then {got} else {})
    ensures ClaimsOk(s1.teids, claims)
  {
    hide TeidsOwned, TeidValidate, IsOut;
    if got != 0 {
      PartOf(got);
    }
    forall q: nat, id | q < NUM_PARTS && IsOut(InPart(s1.teids, q), id) ensures id in claims.Keys {
      assert IsOut(InPart(s.teids, q), id) ==> id in s.claims;
    }
    forall id | id in claims.Keys
      ensures TeidValidate(id).Some? && IsOut(InPart(s1.teids, TeidValidate(id).value), id)
    {
      if id in s.claims {
        PartOf(id);
      }
    }
  }

  // --- what the others keep ---

  lemma SettleClaimsStay(s: State, s1: State, tid: nat, live: Live, out: Out, part: nat, got: nat)
    requires TeidOut(s, s1, part, got)
    requires out.push.Some? ==> out.push.value.PushTeid?
                                && InHand(s, tid, out.push.value.part, out.push.value.teid, got)
    requires out.push.None? && Mints(out) ==> out.fate.t.teid == got != 0
    ensures ClaimsStay(s, Settle(s1, tid, live, out), tid)
  {
  }

  lemma SettleMarksStay(s: State, s1: State, tid: nat, live: Live, r: Reply, env: Env, out: Out)
    requires s1 == s.(seids := s1.seids, teids := s1.teids)
    requires TxnOk(s, tid, live) && live.io == Got(r) && tid in s.txns && s.txns[tid] == live
    requires OwnTame(live.t, r, env, out) && Fits(live.t.cb, r)
    ensures MarksStay(s, Settle(s1, tid, live, out), tid)
  {
    hide TxnOk, NewStrays, NewTxns, NewClaims, Pushes, Hands, First;
    if out.aside.Some? || Accepts(live.t, out) {
      CreatorOf(s, tid, live);
    }
  }

  lemma SettleStuckStays(s: State, s1: State, tid: nat, live: Live, r: Reply, out: Out)
    requires s1 == s.(seids := s1.seids, teids := s1.teids)
    requires live.io == Got(r) && tid in s.txns && s.txns[tid] == live && Fits(live.t.cb, r)
    ensures StuckStays(s, Settle(s1, tid, live, out))
  {
  }

  lemma SettleKeys(s: State, s1: State, tid: nat, live: Live, r: Reply, env: Env, out: Out)
    requires s1 == s.(seids := s1.seids, teids := s1.teids) && Core(s) && Own(s)
    requires live.io == Got(r) && tid in s.txns && s.txns[tid] == live && Fits(live.t.cb, r)
    requires OwnTame(live.t, r, env, out) && OwnTxn(s, tid, live)
    requires OwnRely(s, Settle(s1, tid, live, out), tid)
    ensures KeysOk(Settle(s1, tid, live, out))
  {
    hide Core, TxnOk, NewStrays, NewTxns, NewClaims, Pushes, Hands, OwnRely, SessionHolds, TeidsOwned;
    hide ClaimsOk, OwnTxns, OwnStrays, DbInv;
    CoreParts(s);
    KeysStay(s, Settle(s1, tid, live, out), tid);
  }

  // --- the transaction and the strays it leaves ---

  lemma HandedIsOwn(s: State, s1: State, tid: nat, live: Live, r: Reply, env: Env, out: Out, got: nat)
    requires TeidOut(s, s1, env.part, got) && live.io == Got(r) && OwnTxn(s, tid, live)
    requires OwnTame(live.t, r, env, out) && out.fate.Await? && Fits(live.t.cb, r)
    requires got == (if Allocates(live.t, r) then env.teid else 0)
    ensures OwnTxn(Settle(s1, tid, live, out), tid, HandedOn(live, out))
  {
  }

  lemma PushedIsInHand(s: State, tid: nat, live: Live, r: Reply, env: Env, out: Out, got: nat)
    requires live.io == Got(r) && OwnTxn(s, tid, live) && OwnTame(live.t, r, env, out) && Fits(live.t.cb, r)
    requires got == (if Allocates(live.t, r) then env.teid else 0)
    ensures out.push.Some? ==> out.push.value.PushTeid?
                               && InHand(s, tid, out.push.value.part, out.push.value.teid, got)
    ensures out.push.Some? && got != 0 ==> out.push.value == PushTeid(env.part, got)
    ensures out.push.None? && Mints(out) ==> out.fate.t.teid == got != 0
    ensures got != 0 ==> out.push.Some? || Mints(out)
  {
  }

  lemma SettledStrayIsOwn(s: State, s1: State, tid: nat, live: Live, r: Reply, env: Env, out: Out, got: nat, id: nat)
    requires TeidOut(s, s1, env.part, got)
    requires OwnTame(live.t, r, env, out)
    requires out.push.Some? ==> out.push.value.PushTeid?
                                && InHand(s, tid, out.push.value.part, out.push.value.teid, got)
    requires out.push.Some? && got != 0 ==> out.push.value == PushTeid(env.part, got)
    requires id in NewStrays(s1, live.t, out)
    ensures (id in s.stray && NewStrays(s1, live.t, out)[id] == s.stray[id])
            || OwnStray(Settle(s1, tid, live, out), id, NewStrays(s1, live.t, out)[id])
  {
    hide TeidsOwned, TeidValidate, IsOut, NewTxns, Hands;
  }

  lemma CallRely(s: State, s1: State, tid: nat, live: Live, r: Reply, env: Env, out: Out, got: nat)
    requires Core(s) && Own(s) && TeidOut(s, s1, env.part, got)
    requires tid in s.txns && s.txns[tid] == live && live.io == Got(r) && Fits(live.t.cb, r)
    requires OwnTame(live.t, r, env, out) && got == (if Allocates(live.t, r) then env.teid else 0)
    ensures var s' := Settle(s1, tid, live, out);
            OwnRely(s, s', tid) && TeidsOwned(s'.teids) && ClaimsOk(s'.teids, s'.claims) && KeysOk(s')
  {
    hide Core, TxnOk, TeidOut, OwnTame, Settle, TeidsOwned, ClaimsOk, KeysOk, OwnTxns, OwnStrays, OwnTxn;
    hide InHand, Grows;
    hide ClaimsStay, MarksStay;
    assert s1 == s.(seids := s1.seids, teids := s1.teids) by { TeidOutLeaves(s, s1, env.part, got); }
    NotStray(s, tid);
    OwnTxnNow(s, tid);
    PushedIsInHand(s, tid, live, r, env, out, got);
    SettleGrows(s1, tid, live, out);
    ClaimsSettle(s, s1, tid, live, out, env.part, got);
    SettleClaimsStay(s, s1, tid, live, out, env.part, got);
    SettleMarksStay(s, s1, tid, live, r, env, out);
    SettleStuckStays(s, s1, tid, live, r, out);
    SettleNext(s1, tid, live, out);
    SettleKeys(s, s1, tid, live, r, env, out);
  }

  lemma TeidOutLeaves(s: State, s1: State, part: nat, got: nat)
    requires TeidOut(s, s1, part, got)
    ensures s1 == s.(seids := s1.seids, teids := s1.teids)
  {
  }

  lemma SettleNext(s: State, tid: nat, live: Live, out: Out)
    ensures Settle(s, tid, live, out).nextId == s.nextId + 3
    ensures Settle(s, tid, live, out).txns == NewTxns(s, tid, live, out)
    ensures Settle(s, tid, live, out).stray == NewStrays(s, live.t, out)
  {
  }

  lemma CallIsOwn(s: State, tid: nat, env: Env)
    requires Core(s) && Own(s) && Enabled(s, Call(tid, env))
    ensures Own(DoCall(s, tid, env))
  {
    hide Core, TxnOk, TeidOut, OwnTame, Settle, TeidsOwned, ClaimsOk, KeysOk, OwnTxns, OwnStrays, OwnTxn;
    hide OwnStray, InHand;
    hide Allocated, Callback, OwnRely, NewStrays, Mints;
    var live := s.txns[tid];
    var r := live.io.r;
    var (s1, env1) := Allocated(s, live, r, env);
    var out := Callback(live.t, r, env1);
    var got := if Allocates(live.t, r) then env1.teid else 0;
    var s' := Settle(s1, tid, live, out);
    TeidGoesOut(s, live, r, env);
    TeidOutLeaves(s, s1, env.part, got);
    CallIsOwnTame(live.t, r, env1);
    NotStray(s, tid);
    OwnTxnNow(s, tid);
    CallRely(s, s1, tid, live, r, env1, out, got);
    PushedIsInHand(s, tid, live, r, env1, out, got);
    SettleNext(s1, tid, live, out);
    if out.fate.Await? {
      HandedIsOwn(s, s1, tid, live, r, env1, out, got);
    }
    forall id | id in s'.stray
      ensures (id in s.stray && s'.stray[id] == s.stray[id]) || OwnStray(s', id, s'.stray[id])
    {
      SettledStrayIsOwn(s, s1, tid, live, r, env1, out, got, id);
    }
    SettledIds(s1, tid, live, out);
    AssembleOwn(s, s', tid);
  }

  lemma SettledIds(s: State, tid: nat, live: Live, out: Out)
    requires tid < s.nextId && tid !in s.stray
    ensures tid !in NewStrays(s, live.t, out)
  {
  }
}
