// What holds in every run from the empty system, however the pods, Redis, the
// VDP, the network and the clock interleave.
module Promises {
  import opened Wrappers
  import opened Seid
  import opened Flow
  import opened Store
  import opened IdPool
  import opened Cluster
  import opened CoreInv
  import opened CoreSteps
  import opened CoreRuns
  import opened Steps

  ghost predicate Reachable(s: State) {
    exists run :: Valid(START, run) && s == After(START, run)
  }

  lemma ReachableIsCore(s: State)
    requires Reachable(s)
    ensures Core(s)
  {
    hide Core;
    var run :| Valid(START, run) && s == After(START, run);
    StartIsCore();
    RunKeeps(START, run);
  }

  // --- no lost update ---

  // The change at version i + 1 was not undone.
  predicate Stands(h: seq<Commit>, i: nat)
    requires i < |h|
  {
    h[i].Change? && (i + 1 < |h| ==> !h[i + 1].Undo?)
  }

  // The requests of the first n commits of h that stand in h.
  function Standings(h: seq<Commit>, n: nat): seq<Req>
    requires n <= |h|
  {
    if n == 0 then []
    else Standings(h, n - 1) + if Stands(h, n - 1) then [h[n - 1].req] else []
  }

  lemma {:induction false} StandingsOfPrefix(h: seq<Commit>, m: nat, n: nat)
    requires n <= m <= |h| && (n == m && m < |h| ==> !h[m].Undo?)
    ensures Standings(h, n) == Standings(h[..m], n)
  {
    if n > 0 {
      if n < m || m == |h| || n == 1 {
        assert Stands(h, n - 1) == Stands(h[..m], n - 1);
      }
      StandingsOfShorter(h, m, n - 1);
    }
  }

  lemma {:induction false} StandingsOfShorter(h: seq<Commit>, m: nat, n: nat)
    requires n < m <= |h|
    ensures Standings(h, n) == Standings(h[..m], n)
  {
    if n > 0 {
      StandingsOfShorter(h, m, n - 1);
      assert Stands(h, n - 1) == Stands(h[..m], n - 1);
    }
  }

  // What Survivors drops is exactly what an undo stands on.
  lemma {:induction false} SurvivorsStand(h: seq<Commit>)
    requires Lawful(h)
    ensures Survivors(h) == Standings(h, |h|)
    decreases |h|
  {
    var n := |h|;
    match h[n - 1]
    case Create(_, _) =>
    case Change(_, req) =>
      SurvivorsStand(h[..n - 1]);
      StandingsOfPrefix(h, n - 1, n - 1);
    case Undo(_) =>
      SurvivorsStand(h[..n - 2]);
      StandingsOfPrefix(h, n - 2, n - 2);
  }

  lemma {:induction false} StandsSurvives(h: seq<Commit>, i: nat, n: nat)
    requires i < n <= |h| && Stands(h, i)
    ensures h[i].req in Standings(h, n)
  {
    if i < n - 1 {
      StandsSurvives(h, i, n - 1);
    }
  }

  // A record's version counts its commits, the first created it, an undo stands
  // only directly above its own change, and the data is what the changes that
  // were not undone make, in version order, of the data created.
  lemma NoLostUpdate(s: State, k: Key)
    requires Reachable(s) && s.db.Has(k)
    ensures var h := s.db.keys[k].hist;
            && Lawful(h)
            && s.db.At(k).ver == |h|
            && s.db.At(k).data == ChangeAll(h[0].data, Standings(h, |h|))
            && CtxTeid(s.db.At(k).data) == CtxTeid(h[0].data)
  {
    ReachableIsCore(s);
    var h := s.db.keys[k].hist;
    assert LifeOk(s.db.now, s.db.keys[k]);
    FoldIsSurvivors(h);
    SurvivorsStand(h);
    FoldKeepsTeid(h);
  }

  // A modification answered ACCEPTED is part of the record's data for good: its
  // change is in the history and no undo stands on it.
  lemma AcceptedModificationStands(s: State, tid: nat)
    requires Reachable(s) && tid in s.kept
    ensures var kept := s.kept[tid];
            && kept.key in s.db.keys
            && var h := s.db.keys[kept.key].hist;
               && 2 <= kept.ver <= |h|
               && h[kept.ver - 1] == Change(tid, kept.req) && Stands(h, kept.ver - 1)
               && kept.req in Standings(h, |h|)
  {
    ReachableIsCore(s);
    var kept := s.kept[tid];
    assert Standing(s.db, kept.key, kept.ver, tid, kept.req);
    var h := s.db.keys[kept.key].hist;
    assert LifeOk(s.db.now, s.db.keys[kept.key]);
    StandsSurvives(h, kept.ver - 1, |h|);
  }

  // A modification's CAS write lands exactly when the record still has the
  // version read, and then applies its request to what the record holds now.
  lemma CommitBuildsOnLatest(s: State, tid: nat, res: VdpResult)
    requires Reachable(s) && tid in s.txns && s.txns[tid].io.Sent? && s.txns[tid].t.cb.ModWriteCb?
    ensures var t := s.txns[tid].t; var k := t.RecKey(); var s' := DoExec(s, tid, res);
            && (s'.txns[tid].io == Got(CasOk(t.dbVer + 1)) <==> s.db.Has(k) && s.db.At(k).ver == t.dbVer)
            && (s'.txns[tid].io == Got(CasOk(t.dbVer + 1)) ==>
                  s'.db.Has(k) && s'.db.At(k) ==
                    s.db.At(k).(ver := t.dbVer + 1, data := Changed(s.db.At(k).data, t.req)))
            && (s'.txns[tid].io != Got(CasOk(t.dbVer + 1)) ==> s'.db == s.db)
  {
    hide Core, Seen, ExecWrite, DbInv;
    ReachableIsCore(s);
    CoreRecords(s);
    var live := s.txns[tid];
    WriteAsks(s, tid);
    WriteLands(s.db, live.t.RecKey(), live.t.dbVer, live.t.impl.value.val, live.t.req, Tag(tid, live.t));
    WriteRuns(s, tid, res);
  }

  // The undo of a modification the VDP refused lands exactly when nobody has
  // written since, and then the record holds what it held before the
  // modification. Otherwise nothing changes: the refused change stays.
  lemma UndoRestores(s: State, tid: nat, res: VdpResult)
    requires Reachable(s) && tid in s.txns && s.txns[tid].io.Sent? && s.txns[tid].t.cb.ModUndoCb?
    ensures var t := s.txns[tid].t; var k := t.RecKey(); var s' := DoExec(s, tid, res);
            && k in s.db.keys && 2 <= t.dbVer <= |s.db.keys[k].hist|
            && s.db.keys[k].hist[t.dbVer - 1].Change? && s.db.keys[k].hist[t.dbVer - 1].who == tid
            && (s'.txns[tid].io == Got(CasOk(t.dbVer + 1)) <==> s.db.Has(k) && s.db.At(k).ver == t.dbVer)
            && (s'.txns[tid].io == Got(CasOk(t.dbVer + 1)) ==>
                  s'.db.Has(k) && s'.db.At(k).data == Fold(s.db.keys[k].hist[..t.dbVer - 1]))
            && (s'.txns[tid].io != Got(CasOk(t.dbVer + 1)) ==> s'.db == s.db)
  {
    hide Core, ExecWrite, DbInv, Fold;
    ReachableIsCore(s);
    var live := s.txns[tid];
    UndoAsks(s, tid);
    UndoLands(s.db, live.t.RecKey(), live.t.dbVer, live.io.cmd.data, Tag(tid, live.t));
    WriteRuns(s, tid, res);
  }

  lemma UndoAsks(s: State, tid: nat)
    requires Core(s) && tid in s.txns && s.txns[tid].io.Sent? && s.txns[tid].t.cb.ModUndoCb?
    ensures var t := s.txns[tid].t; var cmd := s.txns[tid].io.cmd;
            && cmd.WriteRec? && cmd == WriteRec(t.RecKey(), t.dbVer, cmd.data, false)
            && ChangedBy(s.db, t.RecKey(), t.dbVer, tid) && Seen(s.db, t.RecKey(), t.dbVer - 1, cmd.data)
  {
    hide DbInv, PoolsOk, TicketsOk, AcceptedOk, KeptOk, StraysOk, EstOk, DelOk, Behind;
    assert TxnOk(s, tid, s.txns[tid]);
  }

  lemma UndoLands(db: Db, k: Key, ver: nat, data: Ctx, tag: Commit)
    requires ver > 0 && k in db.keys
    ensures var w := ExecWrite(db, k, ver, data, false, tag);
            && (w.1 == CasOk(ver + 1) <==> db.Has(k) && db.At(k).ver == ver)
            && (w.1 == CasOk(ver + 1) ==> w.0.Has(k) && w.0.At(k).data == data)
            && (w.1 != CasOk(ver + 1) ==> w.0 == db)
  {
  }

  lemma WriteAsks(s: State, tid: nat)
    requires Core(s) && tid in s.txns && s.txns[tid].io.Sent? && s.txns[tid].t.cb.ModWriteCb?
    ensures var t := s.txns[tid].t;
            && t.impl.Some?
            && s.txns[tid].io.cmd == WriteRec(t.RecKey(), t.dbVer, Changed(t.impl.value.val, t.req), false)
            && Seen(s.db, t.RecKey(), t.dbVer, t.impl.value.val)
  {
    hide DbInv, PoolsOk, TicketsOk, AcceptedOk, KeptOk, StraysOk, EstOk, DelOk, Behind;
    assert TxnOk(s, tid, s.txns[tid]);
  }

  lemma WriteLands(db: Db, k: Key, ver: nat, data: Ctx, req: Req, tag: Commit)
    requires DbInv(db) && Seen(db, k, ver, data)
    ensures var w := ExecWrite(db, k, ver, Changed(data, req), false, tag);
            && (w.1 == CasOk(ver + 1) <==> db.Has(k) && db.At(k).ver == ver)
            && (w.1 == CasOk(ver + 1) ==>
                  w.0.Has(k) && w.0.At(k) == db.At(k).(ver := ver + 1, data := Changed(db.At(k).data, req)))
            && (w.1 != CasOk(ver + 1) ==> w.0 == db)
  {
    var h := db.keys[k].hist;
    assert LifeOk(db.now, db.keys[k]);
    assert h[..|h|] == h;
  }

  // --- what the VDP is given ---

  // After however many retries, a modification that waits for the VDP holds what
  // it committed, its own change on top of the version before; what is on its way
  // to the VDP is that version, and its snapshot is the version below.
  lemma PushedIsCommitted(s: State, tid: nat)
    requires Reachable(s) && tid in s.txns && s.txns[tid].t.cb.ModVdpCb?
    ensures var t := s.txns[tid].t; var k := t.RecKey();
            && t.ctx.Some? && t.impl.Some?
            && Seen(s.db, k, t.dbVer, t.ctx.value.val) && ChangedBy(s.db, k, t.dbVer, tid)
            && Seen(s.db, k, t.dbVer - 1, t.impl.value.val)
            && t.ctx.value.val == Changed(t.impl.value.val, t.req)
            && (s.txns[tid].io.Sent? ==>
                  s.txns[tid].io.cmd == VdpModify(k, Fold(s.db.keys[k].hist[..t.dbVer])))
  {
    hide DbInv, PoolsOk, TicketsOk, AcceptedOk, KeptOk, StraysOk, EstOk, DelOk, Behind, Fold;
    ReachableIsCore(s);
    assert TxnOk(s, tid, s.txns[tid]);
    CommitIsChange(s.db, s.txns[tid].t.RecKey(), s.txns[tid].t.dbVer);
  }

  lemma CommitIsChange(db: Db, k: Key, n: nat)
    requires k in db.keys && 2 <= n <= |db.keys[k].hist| && db.keys[k].hist[n - 1].Change?
    ensures var h := db.keys[k].hist; Fold(h[..n]) == Changed(Fold(h[..n - 1]), h[n - 1].req)
  {
    assert db.keys[k].hist[..n][..n - 1] == db.keys[k].hist[..n - 1];
  }

  // An establishment that waits for the VDP holds version 1 of the record it
  // created, and so does its request.
  lemma CreatedIsPushed(s: State, tid: nat)
    requires Reachable(s) && tid in s.txns && s.txns[tid].t.cb.EstVdpCb?
    ensures var t := s.txns[tid].t; var k := t.RecKey();
            && t.dbVer == 1 && t.ctx.Some? && Seen(s.db, k, 1, t.ctx.value.val)
            && t.ctx.value.val == Built(t.req, k.seid, t.teid)
            && s.db.keys[k].hist[0] == Create(tid, t.ctx.value.val)
            && (s.txns[tid].io.Sent? ==> s.txns[tid].io.cmd == VdpCreate(k, Fold(s.db.keys[k].hist[..1])))
  {
    hide DbInv, PoolsOk, TicketsOk, AcceptedOk, KeptOk, StraysOk, ModOk, DelOk;
    ReachableIsCore(s);
    assert TxnOk(s, tid, s.txns[tid]);
    var h := s.db.keys[s.txns[tid].t.RecKey()].hist;
    assert h[..1][0] == h[0];
  }

  // --- no resurrection ---

  // A session record that is gone never comes back.
  lemma NoResurrection(s: State, run: seq<Label>, k: Key)
    requires Reachable(s) && k in s.db.keys && !s.db.Has(k) && Valid(s, run)
    ensures !After(s, run).db.Has(k)
  {
    hide Core;
    ReachableIsCore(s);
    RunGrows(s, run);
    assert LifeGrows(s.db.keys[k], After(s, run).db.keys[k]);
  }

  // An establishment's create never meets another record: it lands or its
  // answer is lost.
  lemma CreateNeverConflicts(s: State, tid: nat)
    requires Reachable(s) && tid in s.txns && s.txns[tid].t.cb.EstWriteCb?
    ensures s.txns[tid].io.Sent? ==> s.txns[tid].t.RecKey() !in s.db.keys
    ensures s.txns[tid].io.Got? ==> s.txns[tid].io.r == CasOk(1) || s.txns[tid].io.r.Err?
  {
    hide PoolsOk, DbInv, AcceptedOk, KeptOk, StraysOk;
    ReachableIsCore(s);
    assert TxnOk(s, tid, s.txns[tid]);
  }

  // --- SEIDs are issued once ---

  // The SEID a miss gets from v_seid_alloc.
  function SeidGiven(s: State, tid: nat, env: Env): nat
    requires Enabled(s, Call(tid, env)) && Allocates(s.txns[tid].t, s.txns[tid].io.r)
  {
    Allocated(s, s.txns[tid], s.txns[tid].io.r, env).1.seid
  }

  lemma SeidGoesOut(s: State, tid: nat, env: Env)
    requires Core(s) && Enabled(s, Call(tid, env)) && Allocates(s.txns[tid].t, s.txns[tid].io.r)
    ensures var id := SeidGiven(s, tid, env);
            id != 0 ==>
              && SeidValidate(id) == Some(env.part)
              && !IsOut(s.SeidPool(env.part), id)
              && IsOut(Next(s, Call(tid, env)).SeidPool(env.part), id)
  {
    hide Core, Owned, Callback, Alloc, SeidValidate, Shape;
    PoolIsOk(s, Seids, env.part);
    AllocTakesFromRing(Seids, env.part, s.SeidPool(env.part), s.txns[tid].pod);
  }

  // No SEID is returned twice, whichever pods, partitions, restarts and lost
  // refills lie between, and each validates to the partition asked for.
  lemma SeidsAreUnique(s: State, tid1: nat, env1: Env, run: seq<Label>, tid2: nat, env2: Env)
    requires Reachable(s)
    requires Enabled(s, Call(tid1, env1)) && Allocates(s.txns[tid1].t, s.txns[tid1].io.r)
    requires Valid(Next(s, Call(tid1, env1)), run)
    requires var s2 := After(Next(s, Call(tid1, env1)), run);
             Enabled(s2, Call(tid2, env2)) && Allocates(s2.txns[tid2].t, s2.txns[tid2].io.r)
    ensures var id := SeidGiven(s, tid1, env1);
            id != 0 ==>
              && SeidValidate(id) == Some(env1.part)
              && id != SeidGiven(After(Next(s, Call(tid1, env1)), run), tid2, env2)
  {
    hide Core, SeidGiven, SeidValidate, IsOut, DoCall, Allocates;
    var s1 := Next(s, Call(tid1, env1));
    var s2 := After(s1, run);
    var id := SeidGiven(s, tid1, env1);
    ReachableIsCore(s);
    SeidGoesOut(s, tid1, env1);
    StepKeeps(s, Call(tid1, env1));
    RunKeeps(s1, run);
    SeidGoesOut(s2, tid2, env2);
    if id != 0 {
      RunOutStays(s1, run, env1.part, id);
    }
  }

  // --- rings and quarantine ---

  // No ring ever holds more than 319 ids, so a refill always fits whole.
  lemma RingsNeverFill(s: State, kind: IdKind, part: nat, pod: nat)
    requires Reachable(s) && part < NUM_PARTS
    ensures var p := PoolOf(s, kind, part);
            && |p.Ring(pod)| <= 319 < RING_USABLE
            && (p.AskOf(pod).Replied? ==> Deliver(p, pod, true).Ring(pod) == p.Ring(pod) + p.AskOf(pod).ids)
  {
    hide Core, Owned;
    ReachableIsCore(s);
    PoolIsOk(s, kind, part);
    var p := PoolOf(s, kind, part);
    assert RingBound(p, pod);
    if p.AskOf(pod).Replied? {
      RefillFits(kind, part, p, pod);
    }
  }

  // A TEID that a refill takes from the free list was freed at least 769 frees
  // of its partition ago.
  lemma TeidsRest(s: State, part: nat, seeded: bool, i: nat)
    requires Reachable(s) && part < NUM_PARTS && |s.TeidPool(part).free| > TEID_FREE_FLOOR
    requires i < |Script(Teids, s.TeidPool(part), seeded, ID_BLK_SIZE, TEID_FREE_FLOOR).1|
    ensures var p := s.TeidPool(part);
            && i < |p.free|
            && Script(Teids, p, seeded, ID_BLK_SIZE, TEID_FREE_FLOOR).1[i] == p.free[i].local
            && p.frees - p.free[i].stamp - 1 >= 769
  {
    hide Core, Owned;
    ReachableIsCore(s);
    PoolIsOk(s, Teids, part);
    Quarantine(s.TeidPool(part), seeded, ID_BLK_SIZE, TEID_FREE_FLOOR, i);
  }

  // --- accepted means durable ---

  // Exactly when an accepted session has its record: PERSIST ran within the
  // pending TTL of the create. From then on it has no TTL.
  lemma AcceptedMeansDurable(s: State, k: Key)
    requires Reachable(s) && k in s.accepted && !s.db.Erased(k)
    ensures k in s.db.keys && s.db.keys[k].persisted.Some?
    ensures s.db.Has(k) <==> s.db.keys[k].persisted.value < s.db.keys[k].born + PENDING_TTL
    ensures s.db.Has(k) ==> s.db.At(k).ttl == None
  {
    ReachableIsCore(s);
    assert LifeOk(s.db.now, s.db.keys[k]);
  }

  // Once there, the record of an accepted session stays, with no TTL, through
  // every run until a CAS delete commits on it.
  lemma DurableUntilDeleted(s: State, run: seq<Label>, k: Key)
    requires Reachable(s) && k in s.accepted && s.db.Has(k) && Valid(s, run)
    ensures var s' := After(s, run);
            s'.db.Erased(k) || (s'.db.Has(k) && s'.db.At(k).ttl == None)
  {
    hide Core;
    ReachableIsCore(s);
    RunKeeps(s, run);
    RunGrows(s, run);
    var s' := After(s, run);
    assert LifeGrows(s.db.keys[k], s'.db.keys[k]);
    assert DbInv(s.db) && DbInv(s'.db) && k in s.db.keys && s.db.keys[k].persisted.Some? by {
      CoreRecords(s);
      CoreRecords(s');
    }
    assert LifeOk(s.db.now, s.db.keys[k]) && LifeOk(s'.db.now, s'.db.keys[k]);
  }

  lemma CoreRecords(s: State)
    requires Core(s)
    ensures DbInv(s.db) && AcceptedOk(s)
  {
  }

  // The condition matters: a PERSIST that runs 30 s late is answered all the
  // same, and the establishment is accepted with no record behind it.
  lemma LatePersistIsAccepted(s: State, tid: nat, res: VdpResult, env: Env)
    requires Reachable(s) && tid in s.txns && env.part < NUM_PARTS && env.encoded
    requires s.txns[tid].t.cb.EstConfirmCb? && s.txns[tid].io.Sent?
    requires var k := s.txns[tid].t.RecKey(); k in s.db.keys && s.db.keys[k].persisted.None?
    ensures var k := s.txns[tid].t.RecKey(); var s1 := Next(s, Pass(PENDING_TTL));
            && Enabled(s1, Exec(tid, res))
            && var s2 := Next(s1, Exec(tid, res));
               && Enabled(s2, Call(tid, env))
               && var s3 := Next(s2, Call(tid, env)); k in s3.accepted && !s3.db.Has(k)
  {
    hide Core, DbInv, Serve, Callback, Settle, Allocated, DoCall, DoExec;
    ReachableIsCore(s);
    ConfirmAsks(s, tid);
    CoreRecords(s);
    var k := s.txns[tid].t.RecKey();
    var s1 := Next(s, Pass(PENDING_TTL));
    LapsesLate(s.db, k);
    PersistRuns(s1, tid, k, res);
    ConfirmAccepts(DoExec(s1, tid, res), tid, env);
  }

  lemma LapsesLate(db: Db, k: Key)
    requires DbInv(db) && k in db.keys && db.keys[k].persisted.None?
    ensures var db' := Tick(db, PENDING_TTL); k in db'.keys && !db'.Has(k)
  {
  }

  lemma PersistRuns(s: State, tid: nat, k: Key, res: VdpResult)
    requires tid in s.txns && s.txns[tid].io == Sent(PersistRec(k)) && k in s.db.keys && !s.db.Has(k)
    ensures var s' := DoExec(s, tid, res);
            k in s'.db.keys && !s'.db.Has(k) && tid in s'.txns && s'.txns[tid] == s.txns[tid].(io := Got(Done))
  {
  }

  lemma ConfirmAccepts(s: State, tid: nat, env: Env)
    requires tid in s.txns && s.txns[tid].io == Got(Done) && s.txns[tid].t.cb.EstConfirmCb?
    requires Wf(s.txns[tid].t) && env.part < NUM_PARTS && env.encoded
    ensures var s' := DoCall(s, tid, env);
            s.txns[tid].t.RecKey() in s'.accepted && s'.db.keys == s.db.keys
  {
  }

  lemma ConfirmAsks(s: State, tid: nat)
    requires Core(s) && tid in s.txns && s.txns[tid].t.cb.EstConfirmCb? && s.txns[tid].io.Sent?
    ensures s.txns[tid].io.cmd == PersistRec(s.txns[tid].t.RecKey()) && Wf(s.txns[tid].t)
  {
    assert TxnOk(s, tid, s.txns[tid]);
  }

  // --- orphans clean themselves up ---

  // A record whose session the VDP never accepted carries the TTL its create
  // gave it, however many writes followed, and is gone when that runs out.
  lemma OrphansLapse(s: State, k: Key)
    requires Reachable(s) && k in s.db.keys && k !in s.served
    ensures s.db.Has(k) ==>
              s.db.At(k).ttl == Some(s.db.keys[k].born + PENDING_TTL) && s.db.now < s.db.keys[k].born + PENDING_TTL
  {
    ReachableIsCore(s);
    assert LifeOk(s.db.now, s.db.keys[k]);
  }

  // The sweeper deletes nothing: its delete for an establishment asks for a
  // version 0 that no transaction in VDP_WAIT has. It only retries PERSIST, and
  // only for a session the VDP accepted.
  lemma SweeperNeverDeletes(s: State, tid: nat)
    requires Reachable(s) && tid in s.txns
    ensures var t := s.txns[tid].t; var aside := TimeoutHandler(t).aside;
            aside == if t.cb.EstConfirmCb? then Some(PersistRec(t.RecKey())) else None
    ensures s.txns[tid].t.cb.EstConfirmCb? ==> s.txns[tid].t.RecKey() in s.served
  {
    hide PoolsOk, DbInv, TicketsOk, AcceptedOk, KeptOk, StraysOk, TxnOk;
    ReachableIsCore(s);
    SweepSends(s, tid, s.txns[tid]);
  }

  // --- lock-freedom ---

  // A transaction that runs out of CAS retries was overtaken by at least three
  // commits of other transactions since the version it read first.
  lemma RetriesRunOutOnlyBehindOthers(s: State, tid: nat)
    requires Reachable(s) && tid in s.txns && s.txns[tid].io == Got(CasConflict)
    requires s.txns[tid].t.cb.ModWriteCb? || s.txns[tid].t.cb.DelDeleteCb?
    requires s.txns[tid].t.casRetry + 1 >= CAS_MAX_RETRY
    ensures var k := s.txns[tid].t.RecKey(); var first := s.txns[tid].first;
            && k in s.db.keys
            && var h := s.db.keys[k].hist;
               1 <= first && first + CAS_MAX_RETRY <= |h| && forall i :: first <= i < |h| ==> h[i].who != tid
  {
    hide PoolsOk, DbInv, TicketsOk, AcceptedOk, KeptOk, StraysOk;
    ReachableIsCore(s);
    var live := s.txns[tid];
    assert TxnOk(s, tid, live);
    assert ModOk(s, tid, live) && DelOk(s, tid, live);
    assert Behind(s.db, live.t.RecKey(), tid, live.first, live.t.casRetry + 1);
  }

  // --- retransmission ---

  // Every cached value is a response some finished transaction produced for that request.
  lemma CacheHoldsProducedResponses(s: State, smf: nat, sn: nat)
    requires Reachable(s) && (smf, sn) in s.db.cache
    ensures (smf, sn, s.db.cache[(smf, sn)].rsp) in s.db.produced
  {
    ReachableIsCore(s);
  }

  // A duplicate that hits sends the cached response as it is, and changes no
  // record, pool, rule or cache entry.
  lemma HitOnlyReplays(s: State, tid: nat, env: Env)
    requires Enabled(s, Call(tid, env)) && s.txns[tid].io.r.Hit?
    ensures Callback(s.txns[tid].t, s.txns[tid].io.r, env).send == Some(s.txns[tid].io.r.rsp)
    ensures var s' := Next(s, Call(tid, env)); s' == s.(txns := s.txns - {tid}, nextId := s'.nextId)
  {
  }

  // From the moment the store has run until its TTL, whatever else happens, a
  // lookup for the same request finds that response.
  lemma RetransmissionReplays(s: State, id: nat, res: VdpResult, run: seq<Label>, tid: nat)
    requires Reachable(s) && id in s.stray && s.stray[id].cmd.StoreRsp?
    requires Valid(Next(s, ExecStray(id, res)), run)
    requires NeverStores(Next(s, ExecStray(id, res)), run, s.stray[id].cmd.smf, s.stray[id].cmd.sn)
    requires var s1 := After(Next(s, ExecStray(id, res)), run);
             && s1.db.now < s.db.now + RETRANS_TTL
             && tid in s1.txns && s1.txns[tid].io == Sent(GetCached(s.stray[id].cmd.smf, s.stray[id].cmd.sn))
    ensures var s1 := After(Next(s, ExecStray(id, res)), run);
            var s2 := DoExec(s1, tid, res);
            tid in s2.txns && s2.txns[tid].io == Got(Hit(s.stray[id].cmd.rsp))
  {
    hide Core, NeverStores;
    ReachableIsCore(s);
    var cmd := s.stray[id].cmd;
    StepKeeps(s, ExecStray(id, res));
    RunCachesStays(Next(s, ExecStray(id, res)), run, cmd.smf, cmd.sn, cmd.rsp, s.db.now + RETRANS_TTL);
  }
}
