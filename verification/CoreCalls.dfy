// Callbacks and stray commands keep the core invariant.
module CoreCalls {
  import opened Wrappers
  import opened Seid
  import opened Flow
  import opened Store
  import opened IdPool
  import opened Cluster
  import opened CoreInv
  import opened CoreSteps

  // --- commands nobody waits for ---

  lemma StrayKeeps(s: State, id: nat, res: VdpResult)
    requires Core(s) && id in s.stray
    ensures Core(DoStray(s, id, res))
  {
    hide Core;
    var x := s.stray[id];
    if x.cmd.WriteRec? {
      StrayWriteKeeps(s, id, x);
    } else if x.cmd.DeleteRec? || x.cmd.PersistRec? {
      StrayTouchKeeps(s, id, res);
    } else if x.cmd.StoreRsp? {
      StrayStoreKeeps(s, id, res);
    } else if x.cmd.PushTeid? {
      StrayPushKeeps(s, id, x.cmd.part, x.cmd.teid);
    } else {
      StrayQuietKeeps(s, id, res);
    }
  }

  lemma StrayIsNoTxn(s: State, id: nat)
    requires Core(s) && id in s.stray
    ensures id !in s.txns && StrayOk(s, id, s.stray[id])
  {
  }

  // A stray command ran: the rest is as it was.
  lemma StrayGone(s: State, s': State, id: nat)
    requires Core(s) && id in s.stray && Rely(s, s', id)
    requires s'.txns == s.txns && s'.stray == s.stray - {id} && s'.nextId == s.nextId
    requires s'.accepted == s.accepted && s'.kept == s.kept && s.served <= s'.served && Grows(s.db, s'.db)
    requires forall k :: k in s'.db.keys && s'.db.keys[k].persisted.Some? ==>
               k in s'.served || (k in s.db.keys && s.db.keys[k].persisted.Some?)
    requires DbInv(s'.db) && TicketsOk(s') && PoolsOk(s'.seids, s'.teids)
    ensures Core(s')
  {
    hide TxnOk, PoolsOk, DbInv, Rely, AcceptedOk, KeptOk, TicketsOk, StrayOk, Grows;
    KeptStays(s, s', id);
    AcceptedStays(s, s');
    Assemble(s, s', id);
  }

  // The ticket and everybody else's claims survive the write.
  lemma StrayWriteRely(s: State, s': State, id: nat, x: Stray)
    requires DbInv(s.db) && TicketsOk(s) && StrayOk(s, id, x) && id !in s.txns && x.cmd.WriteRec?
    requires s' == ServeWrite(s.(stray := s.stray - {id}), x.cmd, x.tag).0
    ensures Rely(s, s', id) && DbInv(s'.db) && Grows(s.db, s'.db)
  {
    hide DbInv, ExecWrite, GaveUp, Grows, Rely, StrayOk, TicketsOk, WriteOk;
    StrayWriteFits(s, id, x);
    WriteKeeps(s.db, x.cmd.key, x.cmd.exp, x.cmd.data, x.cmd.pending, x.tag);
    WriteRely(s, s', id, x.cmd, x.tag);
  }

  lemma StrayWriteTickets(s: State, s': State, id: nat, x: Stray)
    requires DbInv(s.db) && TicketsOk(s) && StrayOk(s, id, x) && x.cmd.WriteRec?
    requires s' == ServeWrite(s.(stray := s.stray - {id}), x.cmd, x.tag).0
    ensures TicketsOk(s')
  {
    hide DbInv, GaveUp, StrayOk, TicketsOk, WriteOk;
    StrayWriteFits(s, id, x);
    WriteKeys(s.db, x.cmd, x.tag);
    hide ExecWrite;
    var w := ExecWrite(s.db, x.cmd.key, x.cmd.exp, x.cmd.data, x.cmd.pending, x.tag);
    WriteTickets(s, w.0, id, x.cmd.key, x.cmd.exp, w.1);
    TicketsElsewhere(s.(db := w.0, tickets := Spend(s, x.cmd.key, x.cmd.exp, w.1)), s');
  }

  // Tickets speak of the records, the SEIDs and themselves only.
  lemma TicketsElsewhere(s: State, s': State)
    requires TicketsOk(s) && s'.db == s.db && s'.tickets == s.tickets && s'.seids == s.seids && s'.nextId == s.nextId
    ensures TicketsOk(s')
  {
  }

  lemma StrayWriteKeeps(s: State, id: nat, x: Stray)
    requires Core(s) && id in s.stray && s.stray[id] == x && x.cmd.WriteRec?
    ensures Core(ServeWrite(s.(stray := s.stray - {id}), x.cmd, x.tag).0)
  {
    hide AcceptedOk, DbInv, ExecWrite, Grows, KeptOk, PoolsOk, Rely, Spend, StrayOk, StraysOk, TicketsOk, TxnsOk;
    var s' := ServeWrite(s.(stray := s.stray - {id}), x.cmd, x.tag).0;
    StrayIsNoTxn(s, id);
    StrayWriteRely(s, s', id, x);
    StrayWriteTickets(s, s', id, x);
    WriteKeys(s.db, x.cmd, x.tag);
    StrayGone(s, s', id);
  }

  // Only a create adds a key.
  lemma WriteKeys(db: Db, cmd: Cmd, tag: Commit)
    requires cmd.WriteRec?
    ensures var (db', r) := ExecWrite(db, cmd.key, cmd.exp, cmd.data, cmd.pending, tag);
            && (r.CasOk? && cmd.exp == 0 ==> db'.keys.Keys == db.keys.Keys + {cmd.key})
            && (!(r.CasOk? && cmd.exp == 0) ==> db'.keys.Keys == db.keys.Keys)
            && (forall k :: k in db'.keys && db'.keys[k].persisted.Some? ==>
                  k in db.keys && db.keys[k].persisted.Some?)
  {
  }

  lemma StrayWriteFits(s: State, id: nat, x: Stray)
    requires StrayOk(s, id, x) && TicketsOk(s) && x.cmd.WriteRec?
    ensures WriteOk(s.db, x.cmd.key, x.cmd.exp, x.cmd.data, x.cmd.pending, x.tag)
    ensures GaveUp(s, x.tag.who) && (x.tag.Undo? ==> x.tag.who !in s.kept)
    ensures x.cmd.exp == 0 ==> x.cmd.key in s.tickets && s.tickets[x.cmd.key] == Hold(id)
  {
  }

  lemma StrayTouchKeeps(s: State, id: nat, res: VdpResult)
    requires Core(s) && id in s.stray
    requires s.stray[id].cmd.DeleteRec? || s.stray[id].cmd.PersistRec?
    ensures Core(DoStray(s, id, res))
  {
    hide AcceptedOk, DbInv, KeptOk, PoolsOk, Rely, StraysOk, TicketsOk, TxnsOk;
    StrayIsNoTxn(s, id);
    var cmd := s.stray[id].cmd;
    var s' := DoStray(s, id, res);
    if cmd.DeleteRec? {
      DeleteKeeps(s.db, cmd.key, cmd.exp);
      DeleteRely(s, s', id, cmd.key, cmd.exp);
    } else {
      PersistKeeps(s.db, cmd.key);
      PersistRely(s, s', id, cmd.key);
    }
    TicketsStay(s, s');
    StrayGone(s, s', id);
  }

  lemma StrayStoreKeeps(s: State, id: nat, res: VdpResult)
    requires Core(s) && id in s.stray && s.stray[id].cmd.StoreRsp?
    ensures Core(DoStray(s, id, res))
  {
    hide AcceptedOk, KeptOk, LifeOk, PoolsOk, Rely, StraysOk, TicketsOk, TxnsOk;
    StrayIsNoTxn(s, id);
    var s' := DoStray(s, id, res);
    QuietRely(s, s', id);
    TicketsStay(s, s');
    StrayGone(s, s', id);
  }

  // Reads and VDP commands leave everything the core speaks of alone.
  lemma StrayQuietTouches(s: State, x: Stray, res: VdpResult)
    requires !x.cmd.WriteRec? && !x.cmd.DeleteRec? && !x.cmd.PersistRec? && !x.cmd.StoreRsp? && !x.cmd.PushTeid?
    ensures var s' := Serve(s, x.cmd, x.tag, res).0;
            s' == s.(rules := s'.rules, served := s'.served, claims := s'.claims, closed := s'.closed)
            && s.served <= s'.served
  {
  }

  lemma StrayQuietKeeps(s: State, id: nat, res: VdpResult)
    requires Core(s) && id in s.stray
    requires var cmd := s.stray[id].cmd;
             !cmd.WriteRec? && !cmd.DeleteRec? && !cmd.PersistRec? && !cmd.StoreRsp? && !cmd.PushTeid?
    ensures Core(DoStray(s, id, res))
  {
    hide AcceptedOk, DbInv, KeptOk, PoolsOk, Rely, StraysOk, TicketsOk, TxnsOk, Serve;
    StrayIsNoTxn(s, id);
    var s' := DoStray(s, id, res);
    StrayQuietTouches(s.(stray := s.stray - {id}), s.stray[id], res);
    QuietRely(s, s', id);
    TicketsStay(s, s');
    StrayGone(s, s', id);
  }

  lemma StrayPushKeeps(s: State, id: nat, part: nat, teid: nat)
    requires Core(s) && id in s.stray
    ensures Core(ServePush(s.(stray := s.stray - {id}), part, teid))
  {
    hide AcceptedOk, DbInv, Free, KeptOk, PoolsOk, Rely, StraysOk, TicketsOk, TxnsOk;
    StrayIsNoTxn(s, id);
    var s' := ServePush(s.(stray := s.stray - {id}), part, teid);
    QuietRely(s, s', id);
    TicketsStay(s, s');
    FreedPools(s.seids, s.teids, part, teid);
    StrayGone(s, s', id);
  }

  lemma FreedPools(seids: map<nat, Pool>, teids: map<nat, Pool>, part: nat, teid: nat)
    requires PoolsOk(seids, teids)
    ensures PoolsOk(seids, teids[part := Free(InPart(teids, part), teid)])
  {
    hide Owned, Shape;
    var teids' := teids[part := Free(InPart(teids, part), teid)];
    if part < NUM_PARTS {
      FreeShape(part, InPart(teids, part), teid);
    }
    forall q: nat | q < NUM_PARTS ensures Shape(Teids, q, InPart(teids', q)) {
      assert q != part ==> InPart(teids', q) == InPart(teids, q);
    }
  }

  // --- callbacks ---

  // What the rest of the proof needs to know of any callback.
  predicate Tame(t: Txn, r: Reply, env: Env, out: Out) {
    && (r.Err? && WriteCb(t.cb) ==> out.fate.Gone?)
    && (out.push.Some? ==> out.push.value.PushTeid?)
    && (out.aside.Some? ==> IsEst(t.cb) && out.aside.value.DeleteRec? && out.aside.value.key == t.RecKey())
    && (Mints(out) ==> t.cb.EstLookupCb? && !r.Hit? && out.push.None?
                       && out.fate.t.part == env.part && out.fate.t.seid == env.seid != 0
                       && out.fate.t.teid == env.teid != 0)
    && (Accepts(t, out) ==> r.Done? && out.fate.Gone?)
    && (Keeps(t, out) ==> r == Vdp(Accept) && out.fate.Gone?)
  }

  lemma CallIsTame(t: Txn, r: Reply, env: Env)
    requires Wf(t) && Fits(t.cb, r)
    ensures Tame(t, r, env, Callback(t, r, env))
  {
    if IsEst(t.cb) {
      EstIsTame(t, r, env);
    } else {
      RestIsTame(t, r, env);
    }
  }

  lemma EstIsTame(t: Txn, r: Reply, env: Env)
    requires Wf(t) && Fits(t.cb, r) && IsEst(t.cb)
    ensures Tame(t, r, env, Callback(t, r, env))
  {
  }

  lemma RestIsTame(t: Txn, r: Reply, env: Env)
    requires Wf(t) && Fits(t.cb, r) && !IsEst(t.cb)
    ensures Tame(t, r, env, Callback(t, r, env))
  {
  }

  // The transaction as it is handed on.
  function HandedOn(live: Live, out: Out): Live
    requires out.fate.Await?
  {
    var first := if live.first == 0 && live.io.Got? && live.io.r.Found? then live.io.r.ver else live.first;
    Live(live.pod, out.fate.t, Sent(out.fate.cmd), first, live.since)
  }

  ghost predicate Called(s: State, tid: nat, live: Live, env: Env, out: Out, s': State) {
    && Wf(live.t) && live.io.Got? && Fits(live.t.cb, live.io.r)
    && out == Callback(live.t, live.io.r, env) && out.fate.Await?
    && s'.db.keys == s.db.keys && s'.db.now == s.db.now && s'.db.produced >= s.db.produced
    && s.served <= s'.served
    && (Mints(out) ==> out.fate.t.RecKey() in s'.tickets && s'.tickets[out.fate.t.RecKey()] == Hold(tid))
  }

  lemma EstCallOwn(s: State, tid: nat, live: Live, env: Env, out: Out, s': State)
    requires Called(s, tid, live, env, out, s') && IsEst(live.t.cb) && EstOk(s, tid, live)
    ensures IsEst(out.fate.t.cb) && EstOk(s', tid, HandedOn(live, out))
  {
  }

  lemma ModCallOwn(s: State, tid: nat, live: Live, env: Env, out: Out, s': State)
    requires Called(s, tid, live, env, out, s') && IsMod(live.t.cb) && ModOk(s, tid, live)
    ensures IsMod(out.fate.t.cb) && ModOk(s', tid, HandedOn(live, out))
  {
    hide Fold;
    match live.t.cb
    case ModLookupCb =>
    case ModReadCb => ModReadOwn(s, tid, live, env, out, s');
    case ModWriteCb => ModWroteOwn(s, tid, live, env, out, s');
    case ModVdpCb =>
    case _ =>
  }

  lemma ModReadOwn(s: State, tid: nat, live: Live, env: Env, out: Out, s': State)
    requires Called(s, tid, live, env, out, s') && live.t.cb.ModReadCb? && ModOk(s, tid, live)
    ensures out.fate.t.cb.ModWriteCb? && ModOk(s', tid, HandedOn(live, out))
  {
    hide Fold;
  }

  lemma ModWroteOwn(s: State, tid: nat, live: Live, env: Env, out: Out, s': State)
    requires Called(s, tid, live, env, out, s') && live.t.cb.ModWriteCb? && ModOk(s, tid, live)
    ensures (out.fate.t.cb.ModVdpCb? || out.fate.t.cb.ModReadCb?) && ModOk(s', tid, HandedOn(live, out))
  {
    hide Fold;
  }

  lemma DelCallOwn(s: State, tid: nat, live: Live, env: Env, out: Out, s': State)
    requires Called(s, tid, live, env, out, s') && IsDel(live.t.cb) && DelOk(s, tid, live)
    ensures IsDel(out.fate.t.cb) && DelOk(s', tid, HandedOn(live, out))
  {
    hide Fold;
  }

  lemma CallOwn(s: State, tid: nat, live: Live, env: Env, out: Out, s': State)
    requires Called(s, tid, live, env, out, s') && TxnOk(s, tid, live)
    ensures TxnOk(s', tid, HandedOn(live, out))
  {
    hide EstOk, ModOk, DelOk, Callback;
    ForeignOk(s', tid, HandedOn(live, out));
    if IsEst(live.t.cb) {
      EstCallOwn(s, tid, live, env, out, s');
    } else if IsMod(live.t.cb) {
      ModCallOwn(s, tid, live, env, out, s');
    } else {
      DelCallOwn(s, tid, live, env, out, s');
    }
  }

  // The ids a lookup miss takes are new: the SEID was in no ticket.
  lemma AllocatedFits(s: State, live: Live, r: Reply, env: Env)
    requires Core(s) && env.part < NUM_PARTS
    ensures var (s1, env1) := Allocated(s, live, r, env);
            && s1 == s.(seids := s1.seids, teids := s1.teids)
            && PoolsOk(s1.seids, s1.teids) && TicketsOk(s1) && env1.part == env.part
            && (Allocates(live.t, r) && env1.seid != 0 ==>
                  IsOut(s1.SeidPool(env.part), env1.seid) && Key(env.part, env1.seid) !in s.tickets)
  {
    hide Shape, Owned, TxnsOk, StraysOk, DbInv, KeptOk, AcceptedOk, TicketsOk, PoolsOk, Alloc;
    if Allocates(live.t, r) {
      PoolIsOk(s, Seids, env.part);
      PoolIsOk(s, Teids, env.part);
      AllocKeeps(Seids, env.part, s.SeidPool(env.part), live.pod);
      AllocKeeps(Teids, env.part, s.TeidPool(env.part), live.pod);
      AllocPools(s, env.part, Alloc(s.SeidPool(env.part), live.pod).0, Alloc(s.TeidPool(env.part), live.pod).0);
      AllocTickets(s, env.part, live.pod, Allocated(s, live, r, env).0);
    }
  }

  lemma AllocPools(s: State, part: nat, sp: Pool, tp: Pool)
    requires PoolsOk(s.seids, s.teids) && part < NUM_PARTS
    requires Shape(Seids, part, sp) && Owned(Seids, part, sp) && Shape(Teids, part, tp)
    ensures PoolsOk(s.seids[part := sp], s.teids[part := tp])
  {
    hide PoolsOk;
    PoolsStay(s, Seids, part, sp);
    PoolsStay(PutPool(s, Seids, part, sp), Teids, part, tp);
  }

  lemma AllocTickets(s: State, part: nat, pod: nat, s1: State)
    requires TicketsOk(s) && Owned(Seids, part, s.SeidPool(part))
    requires s1 == s.(seids := s.seids[part := Alloc(s.SeidPool(part), pod).0], teids := s1.teids)
    ensures TicketsOk(s1)
    ensures var seid := Alloc(s.SeidPool(part), pod).1;
            seid != 0 ==> IsOut(s1.SeidPool(part), seid) && Key(part, seid) !in s.tickets
  {
    AllocGoesOut(Seids, part, s.SeidPool(part), pod);
    hide Owned, Alloc;
  }

  lemma SettleRely(s: State, s1: State, tid: nat, live: Live, out: Out)
    requires s1 == s.(seids := s1.seids, teids := s1.teids)
    requires tid in s.txns && s.txns[tid] == live && live.io.Got?
    requires GaveUp(s, tid) ==> out.fate.Gone?
    requires Mints(out) ==> out.fate.t.RecKey() !in s.tickets
    requires Keeps(live.t, out) ==> live.t.cb.ModVdpCb?
    ensures Rely(s, Settle(s1, tid, live, out), tid)
  {
  }

  lemma SettleTickets(s: State, tid: nat, live: Live, out: Out)
    requires TicketsOk(s) && tid < s.nextId
    requires Mints(out) ==> var k := out.fate.t.RecKey();
               k.part < NUM_PARTS && IsOut(s.SeidPool(k.part), k.seid) && k !in s.tickets
    ensures TicketsOk(Settle(s, tid, live, out))
  {
  }

  lemma SettleAccepted(s: State, tid: nat, live: Live, out: Out)
    requires AcceptedOk(s)
    requires Accepts(live.t, out) ==>
               live.t.RecKey() in s.db.keys && s.db.keys[live.t.RecKey()].persisted.Some?
    ensures AcceptedOk(Settle(s, tid, live, out))
  {
  }

  lemma SettleKept(s: State, tid: nat, live: Live, out: Out)
    requires KeptOk(s) && tid < s.nextId
    requires Keeps(live.t, out) ==>
               out.fate.Gone? && Standing(s.db, live.t.RecKey(), live.t.dbVer, tid, live.t.req)
    requires tid in s.txns
    ensures KeptOk(Settle(s, tid, live, out))
  {
  }

  lemma SettleStrays(s: State, tid: nat, live: Live, out: Out, id: nat)
    requires out.push.Some? ==> out.push.value.PushTeid?
    requires out.aside.Some? ==> out.aside.value.DeleteRec?
    requires id in NewStrays(s, live.t, out)
    ensures (id in s.stray && NewStrays(s, live.t, out)[id] == s.stray[id])
            || (s.nextId <= id < s.nextId + 3
                && StrayOk(Settle(s, tid, live, out), id, NewStrays(s, live.t, out)[id]))
  {
  }

  // An accepted establishment was confirmed, an accepted modification stands.
  lemma CallReports(s: State, tid: nat, live: Live, env: Env, out: Out)
    requires TxnOk(s, tid, live) && live.io.Got? && Tame(live.t, live.io.r, env, out)
    ensures Accepts(live.t, out) ==>
              live.t.RecKey() in s.db.keys && s.db.keys[live.t.RecKey()].persisted.Some?
    ensures Keeps(live.t, out) ==>
              out.fate.Gone? && Standing(s.db, live.t.RecKey(), live.t.dbVer, tid, live.t.req)
  {
  }

  lemma CallShared(s: State, s1: State, tid: nat, live: Live, env: Env, out: Out)
    requires Core(s) && tid in s.txns && s.txns[tid] == live && live.io.Got? && TxnOk(s, tid, live)
    requires s1 == s.(seids := s1.seids, teids := s1.teids) && TicketsOk(s1)
    requires Tame(live.t, live.io.r, env, out) && env.part < NUM_PARTS
    requires Mints(out) ==> IsOut(s1.SeidPool(env.part), env.seid) && Key(env.part, env.seid) !in s.tickets
    ensures var s' := Settle(s1, tid, live, out);
            Rely(s, s', tid) && TicketsOk(s') && AcceptedOk(s') && KeptOk(s')
  {
    hide TxnOk, StrayOk, PoolsOk, DbInv, Settle, Rely, TicketsOk, Standing;
    CallReports(s, tid, live, env, out);
    SettleRely(s, s1, tid, live, out);
    SettleTickets(s1, tid, live, out);
    SettleAccepted(s1, tid, live, out);
    SettleKept(s1, tid, live, out);
  }

  lemma CallKeeps(s: State, tid: nat, env: Env)
    requires Core(s) && Enabled(s, Call(tid, env))
    ensures Core(DoCall(s, tid, env))
  {
    hide TxnOk, StrayOk, PoolsOk, DbInv, Rely, AcceptedOk, KeptOk, TicketsOk, Callback, NewStrays, Allocated;
    hide NewClaims;
    var live := s.txns[tid];
    assert TxnOk(s, tid, live);
    var (s1, env1) := Allocated(s, live, live.io.r, env);
    var out := Callback(live.t, live.io.r, env1);
    var s' := Settle(s1, tid, live, out);
    AllocatedFits(s, live, live.io.r, env);
    CallIsTame(live.t, live.io.r, env1);
    CallShared(s, s1, tid, live, env1, out);
    if out.fate.Await? {
      CallOwn(s, tid, live, env1, out, s');
    }
    forall id | id in s'.stray
      ensures (id in s.stray && s'.stray[id] == s.stray[id])
              || (s.nextId <= id < s'.nextId && StrayOk(s', id, s'.stray[id]))
    {
      SettleStrays(s1, tid, live, out, id);
    }
    ProducedGrows(s.db, s'.db.produced);
    Assemble(s, s', tid);
  }

  lemma ProducedGrows(db: Db, produced: set<(nat, nat, Rsp)>)
    requires DbInv(db) && db.produced <= produced
    ensures DbInv(db.(produced := produced))
  {
  }
}
