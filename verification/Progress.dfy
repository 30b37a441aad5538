// The cluster can do what it is for: from every sound state with ids in a pod's
// rings, an establishment nobody disturbs is accepted, with its record durable
// and its rule in the VDP.
module Progress {
  import opened Wrappers
  import opened Seid
  import opened Flow
  import opened IdPool
  import opened Cluster
  import opened CoreInv
  import opened CoreSteps
  import opened CoreRuns
  import opened Steps
  import opened Promises
  import opened OwnInv
  import opened OwnSteps
  import opened OwnRest
  import opened Ownership

  lemma {:induction false} RunAppend(s: State, run: seq<Label>, l: Label)
    requires Valid(s, run) && Enabled(After(s, run), l)
    ensures Valid(s, run + [l]) && After(s, run + [l]) == Next(After(s, run), l)
    decreases |run|
  {
    hide Enabled, Next;
    if run == [] {
      assert run + [l] == [l];
      assert Valid(Next(s, l), []);
    } else {
      assert (run + [l])[1..] == run[1..] + [l];
      RunAppend(Next(s, run[0]), run[1..], l);
    }
  }

  // A run in which no time passes and no stray command runs, and where it leads.
  predicate Leads(s: State, run: seq<Label>, s': State) {
    Valid(s, run) && After(s, run) == s' && forall l :: l in run ==> !l.Pass? && !l.ExecStray?
  }

  lemma LeadsOn(s: State, run: seq<Label>, s1: State, l: Label)
    requires Leads(s, run, s1) && Enabled(s1, l) && !l.Pass? && !l.ExecStray?
    ensures Leads(s, run + [l], Next(s1, l))
  {
    hide Enabled, Next;
    RunAppend(s, run, l);
  }

  // The transaction waits alone for this command.
  predicate Waits(s: State, tid: nat, pod: nat, t: Txn, cmd: Cmd) {
    tid in s.txns && s.txns[tid].pod == pod && s.txns[tid].t == t && s.txns[tid].io == Sent(cmd) && Wf(t)
  }

  // Every port answers well.
  predicate Good(env: Env) {
    env.room && env.built && env.copied && env.changed && env.issued && env.encoded && env.blk.Some?
    && env.part < NUM_PARTS
  }

  function EstTxn(cb: Cb, req: Req, k: Key, teid: nat, blk: nat): Txn {
    Txn(cb, StateOf(cb), if cb.EstWriteCb? then 0 else 1, 0, k.part, k.seid, teid, req,
        Some(Slot(blk, Built(req, k.seid, teid))), None)
  }

  // One hop: the command runs, then the callback.
  function Hop(s: State, tid: nat, res: VdpResult, env: Env): State
    requires tid in s.txns && s.txns[tid].io.Sent?
    requires Enabled(DoExec(s, tid, res), Call(tid, env))
  {
    DoCall(DoExec(s, tid, res), tid, env)
  }

  lemma Begins(s: State, pod: nat, req: Req, env: Env)
    requires req.kind.Est? && Good(env)
    ensures var s' := DoBegin(s, pod, req, env);
            && Waits(s', s.nextId, pod, NewTxn(EstLookupCb, 0, 0, req), GetCached(req.smf, req.sn))
            && s' == s.(txns := s'.txns, nextId := s'.nextId, honest := s'.honest)
  {
  }

  // How the lookup ends without a hit: the cache has nothing, or its answer is
  // lost, whether or not the GET still runs later.
  predicate NoHit(s: State, tid: nat, l: Label) {
    match l
    case Exec(id, _) =>
      id == tid && tid in s.txns && s.txns[tid].io.Sent? && s.txns[tid].io.cmd.GetCached?
      && (s.txns[tid].io.cmd.smf, s.txns[tid].io.cmd.sn) !in s.db.cache
    case Lose(id, _) => id == tid && tid in s.txns && s.txns[tid].io.Sent? && s.txns[tid].io.cmd.GetCached?
    case _ => false
  }

  lemma NoHitRuns(s: State, tid: nat, l: Label)
    requires NoHit(s, tid, l)
    ensures Enabled(s, l)
    ensures var s' := Next(s, l); var r := if l.Exec? then Miss else Err;
            && s'.txns == s.txns[tid := s.txns[tid].(io := Got(r))]
            && s' == s.(txns := s'.txns, stray := s'.stray, nextId := s'.nextId)
  {
    hide DoExec, Tag;
    if l.Exec? {
      MissRuns(s, tid, l.res);
    }
  }

  // Either way the ids at the head of the rings are taken.
  lemma LookupHop(s: State, tid: nat, pod: nat, req: Req, l: Label, env: Env)
    requires Waits(s, tid, pod, NewTxn(EstLookupCb, 0, 0, req), GetCached(req.smf, req.sn)) && Good(env)
    requires NoHit(s, tid, l)
    requires s.SeidPool(env.part).Ring(pod) != [] && s.TeidPool(env.part).Ring(pod) != []
    requires s.SeidPool(env.part).Ring(pod)[0] != 0 && s.TeidPool(env.part).Ring(pod)[0] != 0
    ensures Enabled(s, l) && Enabled(Next(s, l), Call(tid, env))
    ensures var s' := Next(Next(s, l), Call(tid, env));
            var k := Key(env.part, s.SeidPool(env.part).Ring(pod)[0]);
            var teid := s.TeidPool(env.part).Ring(pod)[0];
            var t := EstTxn(EstWriteCb, req, k, teid, env.blk.value);
            && Waits(s', tid, pod, t, WriteRec(k, 0, t.ctx.value.val, true))
            && s'.db == s.db && s'.rules == s.rules
  {
    hide NewStrays, NewClaims;
    NoHitRuns(s, tid, l);
    var s1 := Next(s, l);
    hide Next;
    LookupCalls(s1, tid, pod, req, env);
  }

  lemma LookupCalls(s: State, tid: nat, pod: nat, req: Req, env: Env)
    requires tid in s.txns && s.txns[tid].pod == pod && s.txns[tid].t == NewTxn(EstLookupCb, 0, 0, req)
    requires s.txns[tid].io == Got(Miss) || s.txns[tid].io == Got(Err)
    requires Wf(s.txns[tid].t) && Good(env)
    requires s.SeidPool(env.part).Ring(pod) != [] && s.TeidPool(env.part).Ring(pod) != []
    requires s.SeidPool(env.part).Ring(pod)[0] != 0 && s.TeidPool(env.part).Ring(pod)[0] != 0
    ensures Enabled(s, Call(tid, env))
    ensures var s' := Next(s, Call(tid, env));
            var k := Key(env.part, s.SeidPool(env.part).Ring(pod)[0]);
            var teid := s.TeidPool(env.part).Ring(pod)[0];
            var t := EstTxn(EstWriteCb, req, k, teid, env.blk.value);
            && Waits(s', tid, pod, t, WriteRec(k, 0, t.ctx.value.val, true))
            && s'.db == s.db && s'.rules == s.rules
  {
    hide NewStrays, NewClaims;
    var (s2, env1) := Allocated(s, s.txns[tid], s.txns[tid].io.r, env);
    assert env1.seid == s.SeidPool(env.part).Ring(pod)[0] && env1.teid == s.TeidPool(env.part).Ring(pod)[0];
  }

  lemma MissRuns(s: State, tid: nat, res: VdpResult)
    requires tid in s.txns && s.txns[tid].io.Sent? && s.txns[tid].io.cmd.GetCached?
    requires (s.txns[tid].io.cmd.smf, s.txns[tid].io.cmd.sn) !in s.db.cache
    ensures DoExec(s, tid, res) == s.(txns := s.txns[tid := s.txns[tid].(io := Got(Miss))])
  {
  }

  // A create on a key never written lands.
  lemma WriteHop(s: State, tid: nat, pod: nat, req: Req, k: Key, teid: nat, res: VdpResult, env: Env)
    requires Good(env)
    requires var t := EstTxn(EstWriteCb, req, k, teid, env.blk.value);
             Waits(s, tid, pod, t, WriteRec(k, 0, t.ctx.value.val, true))
    requires k !in s.db.keys
    ensures Enabled(DoExec(s, tid, res), Call(tid, env))
    ensures var s' := Hop(s, tid, res, env);
            var t := EstTxn(EstVdpCb, req, k, teid, env.blk.value);
            && Waits(s', tid, pod, t, VdpCreate(k, t.ctx.value.val))
            && s'.db.Has(k) && s'.db.keys[k].persisted.None?
  {
    hide NewStrays, NewClaims, Alloc;
    WriteRuns(s, tid, res);
    var s1 := DoExec(s, tid, res);
    assert s1.txns[tid].io == Got(CasOk(1)) && s1.db.Has(k);
    hide DoExec;
    CallsOn(s1, tid, env);
  }

  // A callback that is no lookup leaves the records and the rules alone.
  lemma CallsOn(s: State, tid: nat, env: Env)
    requires Enabled(s, Call(tid, env)) && !s.txns[tid].t.cb.EstLookupCb?
    ensures var s' := DoCall(s, tid, env); var live := s.txns[tid];
            var out := Callback(live.t, live.io.r, env);
            && s'.db.keys == s.db.keys && s'.rules == s.rules
            && s'.txns == NewTxns(s, tid, live, out)
            && (Accepts(live.t, out) ==> live.t.RecKey() in s'.accepted)
            && (out.store.Some? ==> (live.t.req.smf, live.t.req.sn, out.store.value) in s'.db.produced)
  {
  }

  // The VDP accepts: the rule is in.
  lemma RuleHop(s: State, tid: nat, pod: nat, req: Req, k: Key, teid: nat, env: Env)
    requires Good(env)
    requires var t := EstTxn(EstVdpCb, req, k, teid, env.blk.value);
             Waits(s, tid, pod, t, VdpCreate(k, t.ctx.value.val))
    requires s.db.Has(k)
    ensures Enabled(DoExec(s, tid, Accept), Call(tid, env))
    ensures var s' := Hop(s, tid, Accept, env);
            && Waits(s', tid, pod, EstTxn(EstConfirmCb, req, k, teid, env.blk.value), PersistRec(k))
            && s'.db.keys == s.db.keys && k in s'.rules
  {
    VdpRuns(s, tid, Accept);
    var s1 := DoExec(s, tid, Accept);
    assert s1.txns[tid].io == Got(Vdp(Accept)) && k in s1.rules && s1.db == s.db;
    hide DoExec;
    CallsOn(s1, tid, env);
  }

  // PERSIST runs in time: the session is accepted, and the answer says so.
  lemma ConfirmHop(s: State, tid: nat, pod: nat, req: Req, k: Key, teid: nat, res: VdpResult, env: Env)
    requires req.kind.Est? && s.db.Has(k) && k in s.rules
    requires Good(env) && Waits(s, tid, pod, EstTxn(EstConfirmCb, req, k, teid, env.blk.value), PersistRec(k))
    ensures Enabled(DoExec(s, tid, res), Call(tid, env)) && Served(Hop(s, tid, res, env), req, k)
  {
    PersistDone(s, tid, k, res);
    var s1 := DoExec(s, tid, res);
    hide DoExec;
    CallsOn(s1, tid, env);
  }

  // The session is accepted, with its record and its rule, and ACCEPTED with its
  // SEID was sent.
  predicate Served(s: State, req: Req, k: Key) {
    && k in s.accepted && s.db.Has(k) && s.db.At(k).ttl == None && k in s.rules
    && (req.smf, req.sn, Rsp(Est, req.sn, Accepted, k.seid)) in s.db.produced
  }

  lemma PersistDone(s: State, tid: nat, k: Key, res: VdpResult)
    requires tid in s.txns && s.txns[tid].io == Sent(PersistRec(k)) && s.db.Has(k)
    ensures var s' := DoExec(s, tid, res);
            && s'.txns == s.txns[tid := s.txns[tid].(io := Got(Done))] && s'.rules == s.rules
            && s'.db.Has(k) && s'.db.At(k).ttl == None
  {
  }

  // The ids at the head of a sound state's rings: not 0, and the SEID's key is
  // one nobody ever wrote.
  lemma HeadsAreNew(s: State, part: nat, pod: nat)
    requires Sound(s) && part < NUM_PARTS
    requires s.SeidPool(part).Ring(pod) != [] && s.TeidPool(part).Ring(pod) != []
    ensures s.SeidPool(part).Ring(pod)[0] != 0 && s.TeidPool(part).Ring(pod)[0] != 0
    ensures Key(part, s.SeidPool(part).Ring(pod)[0]) !in s.db.keys
  {
    hide Core, Own, Sound, Owned, Shape, Alloc, SeidValidate, TeidValidate, IsOut;
    SoundIsOwn(s);
    PoolIsOk(s, Seids, part);
    TeidsAreOwned(s, part);
    AllocTakesFromRing(Seids, part, s.SeidPool(part), pod);
    AllocTakesFromRing(Teids, part, s.TeidPool(part), pod);
    AllocGoesOut(Seids, part, s.SeidPool(part), pod);
    HeadIsGiven(s.SeidPool(part), pod);
    HeadIsGiven(s.TeidPool(part), pod);
    CoreParts(s);
    assert forall k :: k in s.db.keys ==> IsOut(s.SeidPool(k.part), k.seid);
  }

  lemma HeadIsGiven(p: Pool, pod: nat)
    ensures p.Ring(pod) != [] ==> Alloc(p, pod).1 == p.Ring(pod)[0]
  {
  }

  // An establishment nobody disturbs, and whose lookup does not hit, succeeds: it
  // makes no difference whether the cache answers that it has nothing or its
  // answer is lost.
  lemma EstablishmentSucceeds(s: State, pod: nat, req: Req, env: Env, l: Label) returns (run: seq<Label>, k: Key)
    requires Sound(s) && req.kind.Est? && Good(env) && NoHit(DoBegin(s, pod, req, env), s.nextId, l)
    requires s.SeidPool(env.part).Ring(pod) != [] && s.TeidPool(env.part).Ring(pod) != []
    ensures [Begin(pod, req, env), l] <= run
    ensures k == Key(env.part, s.SeidPool(env.part).Ring(pod)[0])
    ensures Valid(s, run) && Leads(s, run, After(s, run)) && Served(After(s, run), req, k)
  {
    hide Sound, Waits, DoExec, DoCall, DoBegin, Hop, EstTxn, Enabled, Served;
    var s1;
    run, s1, k := EstablishmentConfirms(s, pod, req, env, l);
    var teid := s.TeidPool(env.part).Ring(pod)[0];
    WaitsIsSent(s1, s.nextId, pod, EstTxn(EstConfirmCb, req, k, teid, env.blk.value), PersistRec(k));
    ConfirmHop(s1, s.nextId, pod, req, k, teid, Accept, env);
    run := AddHop(s, run, s1, s.nextId, Accept, env);
  }

  // Undisturbed, an establishment gets as far as waiting for its PERSIST.
  lemma EstablishmentConfirms(s: State, pod: nat, req: Req, env: Env, l: Label)
    returns (run: seq<Label>, s1: State, k: Key)
    requires Sound(s) && req.kind.Est? && Good(env) && NoHit(DoBegin(s, pod, req, env), s.nextId, l)
    requires s.SeidPool(env.part).Ring(pod) != [] && s.TeidPool(env.part).Ring(pod) != []
    ensures [Begin(pod, req, env), l] <= run
    ensures k == Key(env.part, s.SeidPool(env.part).Ring(pod)[0])
    ensures Leads(s, run, s1) && s1.db.Has(k) && s1.db.keys[k].persisted.None? && k in s1.rules
    ensures Waits(s1, s.nextId, pod, EstTxn(EstConfirmCb, req, k, s.TeidPool(env.part).Ring(pod)[0], env.blk.value),
                  PersistRec(k))
  {
    hide Sound, Waits, DoExec, DoCall, DoBegin, Hop, EstTxn, Enabled, Valid, After;
    k := Key(env.part, s.SeidPool(env.part).Ring(pod)[0]);
    HeadsAreNew(s, env.part, pod);
    Begins(s, pod, req, env);
    var s0 := DoBegin(s, pod, req, env);
    BeginRuns(s, pod, req, env);
    LookupHop(s0, s.nextId, pod, req, l, env);
    run := AddLookup(s, [Begin(pod, req, env)], s0, s.nextId, l, env);
    run, s1 := WriteConfirms(s, run, Next(Next(s0, l), Call(s.nextId, env)), s.nextId, pod, req, k,
                             s.TeidPool(env.part).Ring(pod)[0], env);
  }

  lemma BeginRuns(s: State, pod: nat, req: Req, env: Env)
    ensures Leads(s, [Begin(pod, req, env)], DoBegin(s, pod, req, env))
  {
    hide DoBegin;
    var run := [Begin(pod, req, env)];
    RunAppend(s, [], run[0]);
    assert [] + run == run;
  }

  // From the create on its way to the wait for PERSIST.
  lemma WriteConfirms(s: State, first: seq<Label>, s1: State, tid: nat, pod: nat, req: Req, k: Key, teid: nat,
                      env: Env)
    returns (run: seq<Label>, s3: State)
    requires Good(env) && Leads(s, first, s1) && k !in s1.db.keys
    requires var t := EstTxn(EstWriteCb, req, k, teid, env.blk.value);
             Waits(s1, tid, pod, t, WriteRec(k, 0, t.ctx.value.val, true))
    ensures first <= run && Leads(s, run, s3) && s3.db.Has(k) && s3.db.keys[k].persisted.None? && k in s3.rules
    ensures Waits(s3, tid, pod, EstTxn(EstConfirmCb, req, k, teid, env.blk.value), PersistRec(k))
  {
    hide DoExec, DoCall, Hop, EstTxn, Enabled, Leads, Wf;
    WriteHop(s1, tid, pod, req, k, teid, Accept, env);
    run := AddHop(s, first, s1, tid, Accept, env);
    var s2 := Hop(s1, tid, Accept, env);
    RuleHop(s2, tid, pod, req, k, teid, env);
    run := AddHop(s, run, s2, tid, Accept, env);
    s3 := Hop(s2, tid, Accept, env);
  }

  lemma AddLookup(s: State, run: seq<Label>, s1: State, tid: nat, l: Label, env: Env) returns (more: seq<Label>)
    requires Leads(s, run, s1) && NoHit(s1, tid, l) && Enabled(s1, l) && Enabled(Next(s1, l), Call(tid, env))
    ensures run + [l] <= more && Leads(s, more, Next(Next(s1, l), Call(tid, env)))
  {
    hide Next, Enabled, Leads;
    LeadsOn(s, run, s1, l);
    LeadsOn(s, run + [l], Next(s1, l), Call(tid, env));
    more := run + [l] + [Call(tid, env)];
  }

  lemma AddHop(s: State, run: seq<Label>, s1: State, tid: nat, res: VdpResult, env: Env)
    returns (more: seq<Label>)
    requires Leads(s, run, s1)
    requires tid in s1.txns && s1.txns[tid].io.Sent? && Enabled(DoExec(s1, tid, res), Call(tid, env))
    ensures run <= more && Leads(s, more, Hop(s1, tid, res, env))
  {
    hide DoExec, DoCall, Leads;
    LeadsOn(s, run, s1, Exec(tid, res));
    LeadsOn(s, run + [Exec(tid, res)], DoExec(s1, tid, res), Call(tid, env));
    more := run + [Exec(tid, res)] + [Call(tid, env)];
  }

  // --- from the empty system ---

  // A pool nobody has asked of but one pod, which has.
  const ASKED: Pool := NO_IDS.(asks := map[0 := Asked])

  const GOOD: Env := Env(true, 0, 0, 0, Some(0), true, true, true, true, true)

  function FirstReq(sn: nat): Req { Req(Est, 0, sn, 0, 0) }

  // The first establishment finds dry rings, and asks for both refills.
  lemma FirstCallAsks()
    ensures var s := DoBegin(START, 0, FirstReq(0), GOOD);
            && Waits(s, 0, 0, NewTxn(EstLookupCb, 0, 0, FirstReq(0)), GetCached(0, 0))
            && Enabled(DoExec(s, 0, Accept), Call(0, GOOD))
            && var s' := Hop(s, 0, Accept, GOOD);
               && s'.seids == map[0 := ASKED] && s'.teids == map[0 := ASKED]
               && s'.db.cache == map[] && s'.honest
  {
    Begins(START, 0, FirstReq(0), GOOD);
    var s := DoBegin(START, 0, FirstReq(0), GOOD);
    MissRuns(s, 0, Accept);
    hide NewStrays, NewClaims, NewTxns;
  }

  lemma {:induction false} MintsSome(kind: IdKind, part: nat, locals: seq<nat>)
    requires locals != [] && Mint(kind, part, locals[0]).Some?
    ensures MintAll(kind, part, locals) != []
  {
    if |locals| > 1 {
      MintsSome(kind, part, locals[..|locals| - 1]);
    } else {
      assert locals[..0] == [];
    }
  }

  // Script and reply fill an empty ring.
  lemma RefillFills(kind: IdKind)
    ensures var p := Deliver(Refill(kind, 0, ASKED, true, 0), 0, true);
            p.Ring(0) != [] && Bounded(kind, p)
  {
    var p := Refill(kind, 0, ASKED, true, 0);
    var locals := Script(kind, ASKED, true, ID_BLK_SIZE, TEID_FREE_FLOOR).1;
    assert Mint(kind, 0, locals[0]).Some?;
    MintsSome(kind, 0, locals);
    assert p.AskOf(0) == Ask.Replied(MintAll(kind, 0, locals)) && p.Ring(0) == [];
  }

  // Running one refill and its reply replaces one pool.
  lemma RefillRuns(s: State, run: seq<Label>, s1: State, kind: IdKind) returns (more: seq<Label>)
    requires Leads(s, run, s1) && PoolOf(s1, kind, 0) == ASKED
    ensures Leads(s, more, PutPool(s1, kind, 0, Deliver(Refill(kind, 0, ASKED, true, 0), 0, true)))
  {
    hide Refill, Deliver, Leads;
    var ask, reply := RunRefill(kind, 0, 0, true), GotRefill(kind, 0, 0, true);
    RefillNext(s1, kind, Refill(kind, 0, ASKED, true, 0));
    LeadsOn(s, run, s1, ask);
    LeadsOn(s, run + [ask], Next(s1, ask), reply);
    more := run + [ask] + [reply];
  }

  lemma RefillNext(s: State, kind: IdKind, p: Pool)
    requires PoolOf(s, kind, 0) == ASKED && p == Refill(kind, 0, ASKED, true, 0)
    ensures var ask, reply := RunRefill(kind, 0, 0, true), GotRefill(kind, 0, 0, true);
            && Enabled(s, ask) && Next(s, ask) == PutPool(s, kind, 0, p)
            && Enabled(Next(s, ask), reply)
            && Next(Next(s, ask), reply) == PutPool(s, kind, 0, Deliver(p, 0, true))
  {
    hide Refill, Deliver;
  }

  // The first establishment and the refills it asks for fill both rings.
  lemma RingsFill() returns (s: State, run: seq<Label>)
    ensures Leads(START, run, s) && Sound(s) && s.db.cache == map[]
    ensures s.SeidPool(0).Ring(0) != [] && s.TeidPool(0).Ring(0) != []
  {
    hide Waits, DoExec, DoCall, DoBegin, Hop, Enabled, Refill, Deliver;
    FirstCallAsks();
    BeginRuns(START, 0, FirstReq(0), GOOD);
    var s0 := DoBegin(START, 0, FirstReq(0), GOOD);
    WaitsIsSent(s0, 0, 0, NewTxn(EstLookupCb, 0, 0, FirstReq(0)), GetCached(0, 0));
    run := AddHop(START, [Begin(0, FirstReq(0), GOOD)], s0, 0, Accept, GOOD);
    var s1 := Hop(s0, 0, Accept, GOOD);
    run := RefillRuns(START, run, s1, Seids);
    var s2 := PutPool(s1, Seids, 0, Deliver(Refill(Seids, 0, ASKED, true, 0), 0, true));
    run := RefillRuns(START, run, s2, Teids);
    s := PutPool(s2, Teids, 0, Deliver(Refill(Teids, 0, ASKED, true, 0), 0, true));
    RefillFills(Seids);
    RefillFills(Teids);
  }

  // So there are reachable states with an accepted session, its record and its rule.
  lemma ServiceIsReachable() returns (s: State, k: Key)
    ensures Reachable(s) && Served(s, FirstReq(1), k)
  {
    hide Waits, Enabled, Served, Sound, Valid, After;
    var s3, run := RingsFill();
    var more;
    more, k := EstablishmentSucceeds(s3, 0, FirstReq(1), GOOD, Exec(s3.nextId, Accept));
    s := After(s3, more);
    RunsJoin(START, run, more);
  }

  lemma WaitsIsSent(s: State, tid: nat, pod: nat, t: Txn, cmd: Cmd)
    requires Waits(s, tid, pod, t, cmd)
    ensures tid in s.txns && s.txns[tid].io.Sent?
  {
  }

  lemma LeadsBoth(s: State, a: seq<Label>, s1: State, b: seq<Label>, s2: State)
    requires Leads(s, a, s1) && Leads(s1, b, s2)
    ensures Leads(s, a + b, s2)
  {
    RunsJoin(s, a, b);
  }

  lemma {:induction false} RunsJoin(s: State, a: seq<Label>, b: seq<Label>)
    requires Valid(s, a) && Valid(After(s, a), b)
    ensures Valid(s, a + b) && After(s, a + b) == After(After(s, a), b)
    decreases |a|
  {
    hide Enabled, Next;
    if a == [] {
      assert a + b == b;
    } else {
      assert (a + b)[1..] == a[1..] + b;
      RunsJoin(Next(s, a[0]), a[1..], b);
    }
  }

  // Such a run stores no response.
  lemma {:induction false} LeadsStoresNothing(s: State, run: seq<Label>, s': State)
    requires Core(s) && Leads(s, run, s')
    ensures s'.db.cache == s.db.cache
    decreases |run|
  {
    hide Core, Next, Enabled;
    if run != [] {
      StepStoresNothing(s, run[0]);
      StepKeeps(s, run[0]);
      LeadsStoresNothing(Next(s, run[0]), run[1..], s');
    }
  }

  lemma StepStoresNothing(s: State, l: Label)
    requires Core(s) && Enabled(s, l) && !l.Pass? && !l.ExecStray?
    ensures Next(s, l).db.cache == s.db.cache
  {
    hide Core, DoExec, DoCall;
    match l
    case Exec(tid, res) => ExecCache(s, tid, res);
    case Call(tid, env) => CallCache(s, tid, env);
    case _ =>
  }

  lemma LeadsIsReachable(run: seq<Label>, s: State)
    requires Leads(START, run, s)
    ensures Reachable(s)
  {
  }

  // A record's SEID validates to the record's partition.
  lemma SeidOfRecord(s: State, k: Key)
    requires Reachable(s) && s.db.Has(k)
    ensures SeidValidate(k.seid) == Some(k.part)
  {
    hide Core, Owned, Shape, SeidValidate;
    ReachableIsCore(s);
    CoreParts(s);
    assert k in s.tickets;
    PoolIsOk(s, Seids, k.part);
    SeidIsGenuine(s.SeidPool(k.part), k.part, k.seid);
  }

  lemma SeidIsGenuine(p: Pool, part: nat, id: nat)
    requires Owned(Seids, part, p) && IsOut(p, id)
    ensures SeidValidate(id) == Some(part)
  {
    GenuineValidates(Seids, part, id);
  }

  // A served session, and a cache that still answers nothing.
  lemma ServiceLeads() returns (s: State, run: seq<Label>, k: Key)
    ensures Leads(START, run, s) && Served(s, FirstReq(1), k) && s.db.cache == map[]
    ensures SeidValidate(k.seid) == Some(k.part)
  {
    hide Core, Enabled, Sound, Served, SeidValidate, Valid, After, Leads;
    var s0, first := RingsFill();
    var more;
    more, k := EstablishmentSucceeds(s0, 0, FirstReq(1), GOOD, Exec(s0.nextId, Accept));
    s := After(s0, more);
    run := first + more;
    LeadsBoth(START, first, s0, more, s);
    StartIsCore();
    LeadsStoresNothing(START, run, s);
    LeadsIsReachable(run, s);
    ServedHasRecord(s, k);
    SeidOfRecord(s, k);
  }

  lemma ServedHasRecord(s: State, k: Key)
    ensures Served(s, FirstReq(1), k) ==> s.db.Has(k)
  {
  }
}
