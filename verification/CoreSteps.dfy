// Every step of the cluster keeps the core invariant.
module CoreSteps {
  import opened Wrappers
  import opened Seid
  import opened Flow
  import opened Store
  import opened IdPool
  import opened Cluster
  import opened CoreInv

  lemma GrowsSelf(db: Db)
    ensures Grows(db, db)
  {
  }

  // The accepted modifications stay in order while histories grow.
  lemma KeptStays(s: State, s': State, a: nat)
    requires KeptOk(s) && Rely(s, s', a) && s'.kept == s.kept
    requires forall o :: o in s'.txns ==> o in s.txns || o >= s.nextId
    ensures KeptOk(s')
  {
  }

  // PERSIST runs only for keys the VDP accepted.
  lemma AcceptedStays(s: State, s': State)
    requires AcceptedOk(s) && s'.accepted == s.accepted && s.served <= s'.served && Grows(s.db, s'.db)
    requires forall k :: k in s'.db.keys && s'.db.keys[k].persisted.Some? ==>
               k in s'.served || (k in s.db.keys && s.db.keys[k].persisted.Some?)
    ensures AcceptedOk(s')
  {
  }

  // Most steps run PERSIST for nobody.
  lemma SharedStays(s: State, s': State, a: nat)
    requires Core(s) && Rely(s, s', a)
    requires s'.accepted == s.accepted && s'.kept == s.kept
    requires forall o :: o in s'.txns ==> o in s.txns || o >= s.nextId
    requires forall k :: k in s'.db.keys ==>
               if k in s.db.keys then s'.db.keys[k].persisted == s.db.keys[k].persisted
               else s'.db.keys[k].persisted.None?
    ensures AcceptedOk(s') && KeptOk(s')
  {
    KeptStays(s, s', a);
    AcceptedStays(s, s');
  }

  // --- arrivals ---

  lemma StartFits(req: Req, env: Env)
    ensures var out := Start(req, env).1;
            out.fate.Await? ==>
              Wf(out.fate.t) && Asks(out.fate.t, out.fate.cmd) && IsLookup(out.fate.t.cb)
              && out.fate.t.casRetry == 0
  {
  }

  lemma TicketsStay(s: State, s': State)
    requires TicketsOk(s) && s'.tickets == s.tickets && s'.seids == s.seids && s.nextId <= s'.nextId
    requires forall k :: k in s'.db.keys <==> k in s.db.keys
    ensures TicketsOk(s')
  {
  }

  // Moving one transaction lets nobody who gave up come back.
  lemma StillGivenUp(s: State, s': State, a: nat)
    requires s.nextId <= s'.nextId
    requires forall o :: o in s'.txns && o != a ==> o >= s.nextId || (o in s.txns && s'.txns[o] == s.txns[o])
    requires a in s'.txns ==> a >= s.nextId || !GaveUp(s, a)
    ensures forall w :: GaveUp(s, w) ==> GaveUp(s', w)
  {
  }

  // A step that leaves the records, the tickets and what is kept alone.
  lemma QuietRely(s: State, s': State, a: nat)
    requires s'.db.keys == s.db.keys && s'.db.now == s.db.now && s.db.produced <= s'.db.produced
    requires s'.tickets == s.tickets && s'.kept == s.kept && s.nextId <= s'.nextId
    requires forall o :: o in s'.txns && o != a ==> o >= s.nextId || (o in s.txns && s'.txns[o] == s.txns[o])
    requires a in s'.txns ==> a >= s.nextId || !GaveUp(s, a)
    requires s.served <= s'.served
    ensures Rely(s, s', a)
  {
  }

  lemma BeginKeeps(s: State, pod: nat, req: Req, env: Env)
    requires Core(s)
    ensures Core(DoBegin(s, pod, req, env))
  {
    hide StrayOk, PoolsOk, DbInv, Rely, TxnOk, AcceptedOk, KeptOk;
    var s' := DoBegin(s, pod, req, env);
    var out := Start(req, env).1;
    if out.fate.Await? {
      StartFits(req, env);
      QuietRely(s, s', s.nextId);
      SharedStays(s, s', s.nextId);
      BeginOwn(s', s.nextId, s'.txns[s.nextId]);
      Assemble(s, s', s.nextId);
    }
  }

  lemma BeginOwn(s: State, tid: nat, live: Live)
    requires Wf(live.t) && live.io.Sent? && Asks(live.t, live.io.cmd) && IsLookup(live.t.cb)
    requires live.t.casRetry == 0 && live.first == 0 && live.since <= s.db.now
    ensures TxnOk(s, tid, live)
  {
  }

  // --- the awaited request runs ---

  // One transaction that waited for an answer is changed, and no other.
  predicate Moves(s: State, s': State, tid: nat) {
    tid in s.txns && s.txns[tid].io.Sent? && tid in s'.txns && s'.txns == s.txns[tid := s'.txns[tid]]
    && s.nextId <= s'.nextId
  }

  lemma AnswerKeeps(s: State, s': State, tid: nat)
    requires Core(s) && Rely(s, s', tid) && Moves(s, s', tid)
    requires DbInv(s'.db) && TicketsOk(s') && PoolsOk(s'.seids, s'.teids) && KeptOk(s') && AcceptedOk(s')
    requires s'.stray == s.stray && TxnOk(s', tid, s'.txns[tid])
    ensures Core(s')
  {
    hide TxnOk, StrayOk, PoolsOk, DbInv, Rely, AcceptedOk, KeptOk, TicketsOk;
    Assemble(s, s', tid);
  }

  lemma ReadNow(s: State, tid: nat, live: Live)
    requires DbInv(s.db) && TxnOk(s, tid, live)
    requires live.t.cb.ModReadCb? || live.t.cb.DelReadCb?
    ensures var r := ExecRead(s.db, live.t.RecKey());
            r.Found? ==> Fresh(s.db, tid, live.(io := Got(r)), r.data, r.ver)
  {
    var k := live.t.RecKey();
    if s.db.Has(k) {
      var h := s.db.keys[k].hist;
      assert LifeOk(s.db.now, s.db.keys[k]);
      assert h[..|h|] == h;
      hide LifeOk, Lawful, Fold, ChangedBy;
      assert Seen(s.db, k, |h|, s.db.At(k).data);
    }
  }

  // An answer that leaves the records alone.
  lemma QuietAnswerOwn(s: State, tid: nat, live: Live, r: Reply)
    requires DbInv(s.db) && TxnOk(s, tid, live) && live.io.Sent?
    requires match live.io.cmd
             case GetCached(smf, sn) => r == ExecGet(s.db, smf, sn)
             case ReadRec(key) => r == ExecRead(s.db, key)
             case VdpCreate(key, _) => r.Vdp? && (r.res.Accept? ==> key in s.served)
             case VdpModify(_, _) => r.Vdp?
             case VdpDelete(_) => r.Vdp?
             case _ => false
    ensures TxnOk(s, tid, live.(io := Got(r)))
  {
    if live.io.cmd.ReadRec? {
      ReadNow(s, tid, live);
    }
    hide LifeOk, Seen, Behind, ChangedBy, Mine;
  }

  // Reads and VDP requests leave everything the core speaks of alone.
  lemma QuietExecTouches(s: State, tid: nat, res: VdpResult)
    requires tid in s.txns && s.txns[tid].io.Sent?
    requires var cmd := s.txns[tid].io.cmd;
             cmd.GetCached? || cmd.ReadRec? || cmd.VdpCreate? || cmd.VdpModify? || cmd.VdpDelete?
    ensures var s' := DoExec(s, tid, res);
            && s' == s.(txns := s'.txns, rules := s'.rules, served := s'.served, claims := s'.claims,
                        closed := s'.closed)
            && s.served <= s'.served
            && exists r :: s'.txns == s.txns[tid := s.txns[tid].(io := Got(r))]
                           && match s.txns[tid].io.cmd
                              case GetCached(smf, sn) => r == ExecGet(s.db, smf, sn)
                              case ReadRec(key) => r == ExecRead(s.db, key)
                              case VdpCreate(key, _) => r.Vdp? && (r.res.Accept? ==> key in s'.served)
                              case _ => r.Vdp?
  {
  }

  lemma QuietExecKeeps(s: State, tid: nat, res: VdpResult)
    requires Core(s) && tid in s.txns && s.txns[tid].io.Sent?
    requires var cmd := s.txns[tid].io.cmd;
             cmd.GetCached? || cmd.ReadRec? || cmd.VdpCreate? || cmd.VdpModify? || cmd.VdpDelete?
    ensures Core(DoExec(s, tid, res))
  {
    hide TxnOk, StrayOk, PoolsOk, DbInv, Rely, AcceptedOk, KeptOk, TicketsOk, DoExec;
    var live := s.txns[tid];
    var s' := DoExec(s, tid, res);
    QuietExecTouches(s, tid, res);
    assert TxnOk(s, tid, live);
    QuietRely(s, s', tid);
    SharedStays(s, s', tid);
    TicketsStay(s, s');
    OwnIsLocal(s, s', tid, live);
    QuietAnswerOwn(s', tid, live, s'.txns[tid].io.r);
    AnswerKeeps(s, s', tid);
  }

  // What a transaction knows depends on the records and tickets only.
  lemma OwnIsLocal(s: State, s': State, tid: nat, live: Live)
    requires TxnOk(s, tid, live) && s'.db == s.db && s'.tickets == s.tickets
    requires s.served <= s'.served
    ensures TxnOk(s', tid, live)
  {
  }

  lemma ExecPersistKeeps(s: State, tid: nat, res: VdpResult)
    requires Core(s) && tid in s.txns && s.txns[tid].io.Sent? && s.txns[tid].io.cmd.PersistRec?
    ensures Core(DoExec(s, tid, res))
  {
    hide TxnOk, StrayOk, PoolsOk, DbInv, Rely, AcceptedOk, KeptOk, TicketsOk;
    var live := s.txns[tid];
    var s' := DoExec(s, tid, res);
    assert TxnOk(s, tid, live);
    PersistKeeps(s.db, live.io.cmd.key);
    PersistAsks(s, tid, live);
    PersistRely(s, s', tid, live.io.cmd.key);
    KeptStays(s, s', tid);
    AcceptedStays(s, s');
    TicketsStay(s, s');
    PersistOwn(s, s', tid, live);
    AnswerKeeps(s, s', tid);
  }

  lemma PersistAsks(s: State, tid: nat, live: Live)
    requires TxnOk(s, tid, live) && live.io.Sent? && live.io.cmd.PersistRec?
    ensures live.io.cmd == PersistRec(live.t.RecKey()) && live.t.RecKey() in s.served
  {
  }

  lemma PersistRely(s: State, s': State, a: nat, k: Key)
    requires DbInv(s.db) && s'.db == ExecPersist(s.db, k).0 && Grows(s.db, s'.db)
    requires s'.tickets == s.tickets && s'.kept == s.kept && s.nextId <= s'.nextId
    requires forall o :: o in s'.txns && o != a ==> o in s.txns && s'.txns[o] == s.txns[o]
    requires a in s'.txns ==> !GaveUp(s, a)
    requires s.served <= s'.served
    ensures Rely(s, s', a)
  {
    StillGivenUp(s, s', a);
  }

  lemma PersistOwn(s: State, s': State, tid: nat, live: Live)
    requires TxnOk(s, tid, live) && live.io.Sent? && live.io.cmd == PersistRec(live.t.RecKey())
    requires s'.db == ExecPersist(s.db, live.t.RecKey()).0
    requires s.served <= s'.served
    ensures TxnOk(s', tid, live.(io := Got(Done)))
  {
  }

  lemma ExecDeleteKeeps(s: State, tid: nat, res: VdpResult)
    requires Core(s) && tid in s.txns && s.txns[tid].io.Sent? && s.txns[tid].io.cmd.DeleteRec?
    ensures Core(DoExec(s, tid, res))
  {
    hide TxnOk, StrayOk, PoolsOk, DbInv, Rely, AcceptedOk, KeptOk, TicketsOk, DoExec, ExecDelete;
    var live := s.txns[tid];
    var cmd := live.io.cmd;
    var s' := DoExec(s, tid, res);
    assert TxnOk(s, tid, live);
    DeleteRuns(s, tid, res);
    DeleteAsks(s, tid, live);
    DeleteKeeps(s.db, cmd.key, cmd.exp);
    DeleteRely(s, s', tid, cmd.key, cmd.exp);
    SharedStays(s, s', tid);
    TicketsStay(s, s');
    DeleteOwn(s, s', tid, live);
    AnswerKeeps(s, s', tid);
  }

  lemma DeleteRuns(s: State, tid: nat, res: VdpResult)
    requires tid in s.txns && s.txns[tid].io.Sent? && s.txns[tid].io.cmd.DeleteRec?
    ensures var s' := DoExec(s, tid, res); var cmd := s.txns[tid].io.cmd;
            var (db', r) := ExecDelete(s.db, cmd.key, cmd.exp);
            s' == s.(db := db', txns := s.txns[tid := s.txns[tid].(io := Got(r))], claims := s'.claims)
  {
  }

  lemma DeleteAsks(s: State, tid: nat, live: Live)
    requires TxnOk(s, tid, live) && live.io.Sent? && live.io.cmd.DeleteRec?
    ensures live.io.cmd == DeleteRec(live.t.RecKey(), live.t.dbVer) && live.t.cb.DelDeleteCb?
  {
  }

  lemma DeleteRely(s: State, s': State, a: nat, k: Key, exp: nat)
    requires s'.db == ExecDelete(s.db, k, exp).0 && Grows(s.db, s'.db)
    requires s'.tickets == s.tickets && s'.kept == s.kept && s.nextId <= s'.nextId
    requires forall o :: o in s'.txns && o != a ==> o in s.txns && s'.txns[o] == s.txns[o]
    requires a in s'.txns ==> !GaveUp(s, a)
    requires s.served <= s'.served
    ensures Rely(s, s', a)
  {
  }

  // A version that no longer matches has been overtaken; a delete adds no
  // commit, so the round is otherwise as it was.
  lemma DeleteOwn(s: State, s': State, tid: nat, live: Live)
    requires DbInv(s.db) && TxnOk(s, tid, live) && live.t.cb.DelDeleteCb? && live.io.Sent?
    requires s'.db == ExecDelete(s.db, live.t.RecKey(), live.t.dbVer).0 && Grows(s.db, s'.db)
    requires s.served <= s'.served
    ensures TxnOk(s', tid, live.(io := Got(ExecDelete(s.db, live.t.RecKey(), live.t.dbVer).1)))
  {
    SeenGrows(s.db, s'.db, live.t.RecKey(), live.t.dbVer, live.t.ctx.value.val);
    if s.db.Has(live.t.RecKey()) {
      assert LifeOk(s.db.now, s.db.keys[live.t.RecKey()]);
    }
    hide Seen;
  }

  // --- a CAS write runs ---

  lemma TagFits(s: State, tid: nat, live: Live)
    requires TxnOk(s, tid, live) && live.io.Sent? && live.io.cmd.WriteRec? && TicketsOk(s)
    ensures var cmd := live.io.cmd;
            && WriteOk(s.db, cmd.key, cmd.exp, cmd.data, cmd.pending, Tag(tid, live.t))
            && cmd.key == live.t.RecKey()
            && (cmd.exp == 0 <==> live.t.cb.EstWriteCb?)
            && (cmd.exp > 0 ==> cmd.exp == live.t.dbVer && (live.t.cb.ModWriteCb? || live.t.cb.ModUndoCb?))
            && (cmd.exp == 0 ==> cmd.key in s.tickets && s.tickets[cmd.key] == Hold(tid))
            && Tag(tid, live.t).who == tid
  {
  }

  lemma WriteTickets(s: State, db': Db, a: nat, k: Key, exp: nat, r: Reply)
    requires TicketsOk(s)
    requires exp == 0 ==> k in s.tickets && s.tickets[k] == Hold(a)
    requires forall j :: j in s.db.keys ==> j in db'.keys
    requires forall j :: j in db'.keys ==> j in s.db.keys || (j == k && exp == 0)
    requires r.CasOk? && exp == 0 ==> k in db'.keys
    requires !(r.CasOk? && exp == 0) ==> db'.keys.Keys == s.db.keys.Keys
    ensures TicketsOk(s.(db := db', tickets := Spend(s, k, exp, r)))
  {
  }

  lemma WriteNewBy(s: State, a: nat, cmd: Cmd, tag: Commit)
    requires cmd.WriteRec? && WriteOk(s.db, cmd.key, cmd.exp, cmd.data, cmd.pending, tag)
    requires DbInv(s.db)
    requires tag.who == a || GaveUp(s, tag.who)
    requires tag.Undo? ==> tag.who !in s.kept
    ensures var db' := ExecWrite(s.db, cmd.key, cmd.exp, cmd.data, cmd.pending, tag).0;
            NewBy(s, db', a) && Grows(s.db, db')
  {
    hide DbInv, LifeOk, Fold, Lawful, GaveUp;
    WriteKeeps(s.db, cmd.key, cmd.exp, cmd.data, cmd.pending, tag);
    hide WriteOk;
  }

  lemma WriteRely(s: State, s': State, a: nat, cmd: Cmd, tag: Commit)
    requires cmd.WriteRec? && WriteOk(s.db, cmd.key, cmd.exp, cmd.data, cmd.pending, tag)
    requires DbInv(s.db)
    requires tag.who == a || GaveUp(s, tag.who)
    requires tag.Undo? ==> tag.who !in s.kept
    requires cmd.exp == 0 ==> cmd.key in s.tickets && s.tickets[cmd.key] == Hold(a)
    requires var w := ExecWrite(s.db, cmd.key, cmd.exp, cmd.data, cmd.pending, tag);
             s'.db == w.0 && s'.tickets == Spend(s, cmd.key, cmd.exp, w.1)
    requires s'.kept == s.kept && s.nextId <= s'.nextId
    requires forall o :: o in s'.txns && o != a ==> o in s.txns && s'.txns[o] == s.txns[o]
    requires a in s'.txns ==> !GaveUp(s, a)
    requires s.served <= s'.served
    ensures Rely(s, s', a)
  {
    hide DbInv, WriteOk, Grows, NewBy;
    WriteNewBy(s, a, cmd, tag);
    StillGivenUp(s, s', a);
  }

  // A transaction owes nothing to the other kinds of flow.
  lemma ForeignOk(s: State, tid: nat, live: Live)
    requires Wf(live.t)
    ensures !IsEst(live.t.cb) ==> EstOk(s, tid, live)
    ensures !IsMod(live.t.cb) ==> ModOk(s, tid, live)
    ensures !IsDel(live.t.cb) ==> DelOk(s, tid, live)
  {
  }

  // What the writer learns from its own write.
  lemma WriteOwn(s: State, s': State, tid: nat, live: Live)
    requires DbInv(s.db) && TxnOk(s, tid, live) && live.io.Sent? && live.io.cmd.WriteRec?
    requires live.io.cmd.exp == 0 <==> live.t.cb.EstWriteCb?
    requires var cmd := live.io.cmd; var tag := Tag(tid, live.t);
             && WriteOk(s.db, cmd.key, cmd.exp, cmd.data, cmd.pending, tag)
             && s'.db == ExecWrite(s.db, cmd.key, cmd.exp, cmd.data, cmd.pending, tag).0
    requires s.served <= s'.served
    ensures var cmd := live.io.cmd;
            var r := ExecWrite(s.db, cmd.key, cmd.exp, cmd.data, cmd.pending, Tag(tid, live.t)).1;
            TxnOk(s', tid, live.(io := Got(r)))
  {
    hide LifeOk, DbInv, WriteOk, Grows, ModOk, EstOk, DelOk, Tag;
    var cmd := live.io.cmd;
    var (db', r) := ExecWrite(s.db, cmd.key, cmd.exp, cmd.data, cmd.pending, Tag(tid, live.t));
    WriteKeeps(s.db, cmd.key, cmd.exp, cmd.data, cmd.pending, Tag(tid, live.t));
    ForeignOk(s', tid, live.(io := Got(r)));
    if live.t.cb.ModWriteCb? {
      ModWriteOwn(s, s', tid, live);
    } else if live.t.cb.EstWriteCb? {
      EstWriteOwn(s, s', tid, live);
    } else {
      UndoOwn(s', tid, live.(io := Got(r)));
    }
  }

  lemma UndoOwn(s: State, tid: nat, live: Live)
    requires Wf(live.t) && live.t.cb.ModUndoCb? && live.io.Got?
    ensures ModOk(s, tid, live)
  {
  }

  lemma EstWriteOwn(s: State, s': State, tid: nat, live: Live)
    requires Wf(live.t) && live.io.Sent? && Asks(live.t, live.io.cmd)
    requires live.t.cb.EstWriteCb? && EstOk(s, tid, live)
    requires s'.db.keys.Keys >= {live.t.RecKey()} && s'.db.keys[live.t.RecKey()].hist == [Tag(tid, live.t)]
    requires s'.db.keys[live.t.RecKey()].born >= live.since
    requires s.served <= s'.served
    ensures EstOk(s', tid, live.(io := Got(CasOk(1))))
  {
  }

  // A change that landed on top of the version read is the next version.
  lemma CommittedIsSeen(h: seq<Commit>, db': Db, k: Key, base: Ctx, tag: Commit)
    requires Lawful(h) && tag.Change?
    ensures k in db'.keys && db'.keys[k].hist == h + [tag] && base == Fold(h) ==>
              Seen(db', k, |h| + 1, Changed(base, tag.req))
  {
    FoldLast(h, tag);
    assert (h + [tag])[..|h| + 1] == h + [tag];
  }

  lemma ModWriteOwn(s: State, s': State, tid: nat, live: Live)
    requires DbInv(s.db) && Wf(live.t) && live.io.Sent? && Asks(live.t, live.io.cmd)
    requires live.t.cb.ModWriteCb? && ModOk(s, tid, live)
    requires var cmd := live.io.cmd; var tag := Tag(tid, live.t);
             var (db', r) := ExecWrite(s.db, cmd.key, cmd.exp, cmd.data, cmd.pending, tag);
             && s'.db == db' && Grows(s.db, s'.db)
             && (r.CasOk? ==> r == CasOk(cmd.exp + 1) && |s.db.keys[cmd.key].hist| == cmd.exp
                              && s'.db.keys[cmd.key].hist == s.db.keys[cmd.key].hist + [tag])
             && (!r.CasOk? ==> s'.db == s.db)
    requires s.served <= s'.served
    ensures var cmd := live.io.cmd;
            var r := ExecWrite(s.db, cmd.key, cmd.exp, cmd.data, cmd.pending, Tag(tid, live.t)).1;
            ModOk(s', tid, live.(io := Got(r)))
  {
    var k := live.t.RecKey();
    SeenGrows(s.db, s'.db, k, live.t.dbVer, live.t.impl.value.val);
    if s.db.Has(k) {
      assert LifeOk(s.db.now, s.db.keys[k]);
      CommittedIsSeen(s.db.keys[k].hist, s'.db, k, live.t.impl.value.val, Tag(tid, live.t));
    }
    hide LifeOk, DbInv, Seen, Grows;
  }

  lemma ExecWriteKeeps(s: State, tid: nat, res: VdpResult)
    requires Core(s) && tid in s.txns && s.txns[tid].io.Sent? && s.txns[tid].io.cmd.WriteRec?
    ensures Core(DoExec(s, tid, res))
  {
    hide TxnOk, StrayOk, PoolsOk, DbInv, Rely, AcceptedOk, KeptOk, TicketsOk, WriteOk, Spend, Grows;
    var live := s.txns[tid];
    var cmd := live.io.cmd;
    var tag := Tag(tid, live.t);
    var s' := DoExec(s, tid, res);
    assert TxnOk(s, tid, live);
    TagFits(s, tid, live);
    NotKept(s, tid);
    WriteKeeps(s.db, cmd.key, cmd.exp, cmd.data, cmd.pending, tag);
    WriteRely(s, s', tid, cmd, tag);
    SharedStays(s, s', tid);
    WriteTickets(s, s'.db, tid, cmd.key, cmd.exp, s'.txns[tid].io.r);
    TicketsStay(s.(db := s'.db, tickets := s'.tickets), s');
    WriteOwn(s, s', tid, live);
    AnswerKeeps(s, s', tid);
  }

  lemma NotKept(s: State, tid: nat)
    requires Core(s) && tid in s.txns
    ensures tid !in s.kept
  {
  }

  // --- an answer is lost ---

  lemma LoseKeeps(s: State, tid: nat, zombie: bool)
    requires Core(s) && tid in s.txns
    ensures Core(DoLose(s, tid, zombie))
  {
    hide TxnOk, StrayOk, PoolsOk, DbInv, Rely, AcceptedOk, KeptOk, TicketsOk;
    var live := s.txns[tid];
    var s' := DoLose(s, tid, zombie);
    assert TxnOk(s, tid, live);
    LoseOwn(s, s', tid, live);
    StillLost(s, s', tid);
    if s'.nextId > s.nextId {
      LostWrite(s, tid, live);
      LoseRely(s, s', tid);
      LoseTickets(s, s', tid);
      LoseStray(s, s', tid, live);
    } else {
      LoseRely(s, s', tid);
      TicketsStay(s, s');
    }
    SharedStays(s, s', tid);
    Assemble(s, s', tid);
  }

  lemma StillLost(s: State, s': State, tid: nat)
    requires tid in s.txns && s'.txns == s.txns[tid := s.txns[tid].(io := Got(Err))] && s.nextId <= s'.nextId
    ensures forall w :: GaveUp(s, w) ==> GaveUp(s', w)
  {
  }

  // What a write on its way says, for when it becomes a stray.
  lemma LostWrite(s: State, tid: nat, live: Live)
    requires TicketsOk(s) && TxnOk(s, tid, live) && live.io.Sent?
    ensures live.io.cmd.WriteRec? ==>
              var cmd := live.io.cmd; var tag := Tag(tid, live.t);
              && WriteCb(live.t.cb) && tag.who == tid
              && (if cmd.exp == 0 then
                    && cmd.pending && tag.Create? && tag.data == cmd.data
                    && cmd.key in s.tickets && s.tickets[cmd.key] == Hold(tid)
                  else WriteOk(s.db, cmd.key, cmd.exp, cmd.data, cmd.pending, tag))
    ensures !live.io.cmd.StoreRsp?
  {
    if live.io.cmd.WriteRec? {
      TagFits(s, tid, live);
    }
  }

  // The ticket of a lost create passes to the stray.
  predicate PassesTicket(s: State, s': State, tid: nat) {
    || s'.tickets == s.tickets
    || exists k :: k in s.tickets && s.tickets[k] == Hold(tid) && s'.tickets == s.tickets[k := Hold(s.nextId)]
  }

  lemma LoseRely(s: State, s': State, tid: nat)
    requires s'.db == s.db && s'.kept == s.kept && s.nextId <= s'.nextId && PassesTicket(s, s', tid)
    requires forall w :: GaveUp(s, w) ==> GaveUp(s', w)
    requires s.served <= s'.served
    ensures Rely(s, s', tid)
  {
  }

  lemma LoseTickets(s: State, s': State, tid: nat)
    requires TicketsOk(s) && PassesTicket(s, s', tid)
    requires s'.db == s.db && s'.seids == s.seids && s.nextId < s'.nextId
    ensures TicketsOk(s')
  {
  }

  lemma LoseOwn(s: State, s': State, tid: nat, live: Live)
    requires TxnOk(s, tid, live) && s'.db == s.db
    requires s.served <= s'.served
    ensures TxnOk(s', tid, live.(io := Got(Err)))
  {
  }

  lemma LoseStray(s: State, s': State, tid: nat, live: Live)
    requires Core(s) && tid in s.txns && s.txns[tid] == live && live.io.Sent?
    requires s' == DoLose(s, tid, true)
    ensures StrayOk(s', s.nextId, s'.stray[s.nextId])
  {
    hide TxnOk, PoolsOk, DbInv, TicketsOk, KeptOk, AcceptedOk, StraysOk, WriteOk;
    assert TxnOk(s, tid, live);
    NotKept(s, tid);
    LostWrite(s, tid, live);
    if live.io.cmd.PersistRec? {
      PersistAsks(s, tid, live);
    }
  }

  // --- transactions end without a callback ---

  // The sweeper retries PERSIST only after the VDP accepted; its delete for an
  // establishment is dead code, since no transaction reaches VDP_WAIT at version 0.
  lemma SweepSends(s: State, tid: nat, live: Live)
    requires TxnOk(s, tid, live)
    ensures var out := TimeoutHandler(live.t);
            out.aside.Some? <==> live.t.cb.EstConfirmCb?
    ensures live.t.cb.EstConfirmCb? ==>
              TimeoutHandler(live.t).aside == Some(PersistRec(live.t.RecKey())) && live.t.RecKey() in s.served
  {
  }

  lemma SweepKeeps(s: State, tid: nat)
    requires Core(s) && tid in s.txns
    ensures Core(DoSweep(s, tid))
  {
    hide TxnOk, PoolsOk, DbInv, Rely, AcceptedOk, KeptOk, TicketsOk;
    var s' := DoSweep(s, tid);
    assert TxnOk(s, tid, s.txns[tid]);
    SweepSends(s, tid, s.txns[tid]);
    QuietRely(s, s', tid);
    SharedStays(s, s', tid);
    TicketsStay(s, s');
    Assemble(s, s', tid);
  }

  lemma CrashKeeps(s: State, tid: nat)
    requires Core(s) && tid in s.txns
    ensures Core(s.(txns := s.txns - {tid}))
  {
    hide TxnOk, PoolsOk, DbInv, Rely, AcceptedOk, KeptOk, TicketsOk;
    var s' := s.(txns := s.txns - {tid});
    QuietRely(s, s', tid);
    SharedStays(s, s', tid);
    TicketsStay(s, s');
    Assemble(s, s', tid);
  }

  // --- the network and the clock ---

  lemma DropStrayKeeps(s: State, id: nat)
    requires Core(s) && id in s.stray
    ensures Core(s.(stray := s.stray - {id}))
  {
    hide TxnOk, StrayOk, PoolsOk, DbInv, Rely, AcceptedOk, KeptOk, TicketsOk;
    var s' := s.(stray := s.stray - {id});
    QuietRely(s, s', id);
    SharedStays(s, s', id);
    TicketsStay(s, s');
    Assemble(s, s', id);
  }

  lemma PassKeeps(s: State, ms: nat)
    requires Core(s)
    ensures Core(s.(db := Tick(s.db, ms)))
  {
    hide TxnOk, StrayOk, PoolsOk, DbInv, Rely, AcceptedOk, KeptOk, TicketsOk;
    var s' := s.(db := Tick(s.db, ms));
    TickKeeps(s.db, ms);
    PassRely(s, s', ms);
    SharedStays(s, s', s.nextId);
    TicketsStay(s, s');
    Assemble(s, s', s.nextId);
  }

  lemma PassRely(s: State, s': State, ms: nat)
    requires DbInv(s.db) && s' == s.(db := Tick(s.db, ms)) && Grows(s.db, s'.db)
    ensures Rely(s, s', s.nextId)
  {
  }

  lemma PoolStepKeeps(s: State, kind: IdKind, part: nat, p: Pool)
    requires Core(s) && part < NUM_PARTS
    requires Shape(kind, part, p) && (kind.Seids? ==> Owned(kind, part, p) && SameOut(PoolOf(s, kind, part), p))
    ensures Core(PutPool(s, kind, part, p))
  {
    hide TxnOk, StrayOk, DbInv, Rely, AcceptedOk, KeptOk, Shape, Owned, PoolsOk, TicketsOk;
    var s' := PutPool(s, kind, part, p);
    QuietRely(s, s', s.nextId);
    SharedStays(s, s', s.nextId);
    PoolsStay(s, kind, part, p);
    PoolStepTickets(s, kind, part, p);
    Assemble(s, s', s.nextId);
  }

  lemma PoolsStay(s: State, kind: IdKind, part: nat, p: Pool)
    requires PoolsOk(s.seids, s.teids) && part < NUM_PARTS
    requires Shape(kind, part, p) && (kind.Seids? ==> Owned(kind, part, p))
    ensures PoolsOk(PutPool(s, kind, part, p).seids, PutPool(s, kind, part, p).teids)
  {
    hide Shape, Owned;
    var s' := PutPool(s, kind, part, p);
    forall q: nat | q < NUM_PARTS
      ensures Shape(Seids, q, InPart(s'.seids, q)) && Owned(Seids, q, InPart(s'.seids, q))
              && Shape(Teids, q, InPart(s'.teids, q))
    {
      assert InPart(s'.seids, q) == (if q == part && kind.Seids? then p else InPart(s.seids, q));
      assert InPart(s'.teids, q) == (if q == part && kind.Teids? then p else InPart(s.teids, q));
    }
  }

  lemma PoolStepTickets(s: State, kind: IdKind, part: nat, p: Pool)
    requires TicketsOk(s) && (kind.Seids? ==> SameOut(PoolOf(s, kind, part), p))
    ensures TicketsOk(PutPool(s, kind, part, p))
  {
  }

  predicate IdStep(l: Label) { l.RunRefill? || l.LostRefill? || l.GotRefill? || l.Reboot? }

  // A step of the id rings replaces one pool, and keeps what the pools keep.
  lemma IdStepRuns(s: State, l: Label) returns (p': Pool)
    requires Core(s) && Enabled(s, l) && IdStep(l)
    ensures Next(s, l) == PutPool(s, l.kind, l.part, p') && l.part < NUM_PARTS
    ensures var p := PoolOf(s, l.kind, l.part);
            && Shape(l.kind, l.part, p') && Later(p, p')
            && (Owned(l.kind, l.part, p) && Bounded(l.kind, p') ==> Owned(l.kind, l.part, p') && SameOut(p, p'))
  {
    hide Owned, Shape, Core, SameOut, Later, Bounded;
    var p := PoolOf(s, l.kind, l.part);
    PoolIsOk(s, l.kind, l.part);
    match l
    case RunRefill(kind, part, pod, seeded) =>
      RefillKeeps(kind, part, p, seeded, pod);
      p' := Refill(kind, part, p, seeded, pod);
    case LostRefill(kind, part, seeded) =>
      LoseRefillKeeps(kind, part, p, seeded);
      p' := LoseRefill(kind, part, p, seeded);
    case GotRefill(kind, part, pod, ok) =>
      DeliverKeeps(kind, part, p, pod, ok);
      p' := Deliver(p, pod, ok);
    case Reboot(kind, part, pod) =>
      RestartKeeps(kind, part, p, pod);
      p' := Restart(p, pod);
  }

  lemma IdStepKeeps(s: State, l: Label)
    requires Core(s) && Enabled(s, l) && IdStep(l)
    ensures Core(Next(s, l))
  {
    hide Owned, Shape, Core, Next, Enabled, SameOut, Later;
    var p' := IdStepRuns(s, l);
    PoolIsOk(s, l.kind, l.part);
    PoolStepKeeps(s, l.kind, l.part, p');
  }

  lemma PoolIsOk(s: State, kind: IdKind, part: nat)
    requires Core(s) && part < NUM_PARTS
    ensures Shape(kind, part, PoolOf(s, kind, part))
    ensures kind.Seids? ==> Owned(kind, part, PoolOf(s, kind, part))
  {
  }
}
