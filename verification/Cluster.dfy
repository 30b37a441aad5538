// The whole system as one step machine: any number of pods and transactions
// against one Redis store and one VDP, with every delay, loss, timeout and
// crash a step of its own. A step is named by a label; Enabled says when it can
// happen and Next what it does.
module Cluster {
  import opened Wrappers
  import opened Seid
  import opened Flow
  import opened Store
  import opened IdPool

  // The request a transaction waits for: on its way, or answered.
  datatype Io = Sent(cmd: Cmd) | Got(r: Reply)

  // A live transaction; `first` is the version it read first, 0 before that, and
  // `since` when it was created, which arms its hard timeout.
  datatype Live = Live(pod: nat, t: Txn, io: Io, first: nat, since: nat)

  // A command nobody waits for, which may still run once; `tag` is what its
  // write would mean.
  datatype Stray = Stray(cmd: Cmd, tag: Commit)

  // Who may still create a session key: a transaction or a stray command.
  datatype Ticket = Hold(id: nat) | Spent

  // Who answers for a TEID that is out.
  datatype Claim = ByTxn(tid: nat) | ByPush(id: nat) | BySession(key: Key)

  // An accepted modification: the session, the version it made, the request.
  datatype Kept = Kept(key: Key, ver: nat, req: Req)

  // `db`, `seids`, `teids` and `rules` are Redis and the VDP, `txns` and the
  // rings inside the pools are the pods' memory, `stray` is the network. The
  // rest is history: tickets and claims, the keys named in an ACCEPTED
  // establishment response, the keys for which no rule can be created any more,
  // those for which the VDP accepted one, whether every request named an
  // accepted session, and the accepted modifications.
  datatype State = State(
    db: Db, seids: map<nat, Pool>, teids: map<nat, Pool>, rules: set<Key>,
    txns: map<nat, Live>, stray: map<nat, Stray>, nextId: nat,
    tickets: map<Key, Ticket>, claims: map<nat, Claim>, accepted: set<Key>, closed: set<Key>,
    served: set<Key>, honest: bool, kept: map<nat, Kept>)
  {
    function SeidPool(part: nat): Pool { InPart(seids, part) }

    function TeidPool(part: nat): Pool { InPart(teids, part) }
  }

  function InPart(pools: map<nat, Pool>, part: nat): Pool {
    if part in pools then pools[part] else NO_IDS
  }

  const START: State :=
    State(Db(0, map[], map[], {}), map[], map[], {}, map[], map[], 0, map[], map[], {}, {}, {}, true, map[])

  datatype Label =
    | Begin(pod: nat, req: Req, env: Env)               // a request arrives
    | Exec(tid: nat, res: VdpResult)                    // Redis or the VDP runs the awaited request
    | Lose(tid: nat, zombie: bool)                      // its answer is lost; it may still run later
    | Call(tid: nat, env: Env)                          // the callback runs
    | Sweep(tid: nat)                                   // the hard timeout fires
    | Crash(tid: nat)                                   // the pod dies with this transaction
    | ExecStray(id: nat, res: VdpResult)
    | DropStray(id: nat)
    | Pass(ms: nat)                                     // time passes
    | RunRefill(kind: IdKind, part: nat, pod: nat, seeded: bool)
    | LostRefill(kind: IdKind, part: nat, seeded: bool)
    | GotRefill(kind: IdKind, part: nat, pod: nat, ok: bool)
    | Reboot(kind: IdKind, part: nat, pod: nat)

  predicate Enabled(s: State, l: Label) {
    match l
    case Begin(_, _, _) => true
    case Exec(tid, _) => tid in s.txns && s.txns[tid].io.Sent?
    case Lose(tid, _) => tid in s.txns
    case Call(tid, env) =>
      && tid in s.txns && Wf(s.txns[tid].t) && s.txns[tid].io.Got?
      && Fits(s.txns[tid].t.cb, s.txns[tid].io.r) && env.part < NUM_PARTS
    case Sweep(tid) => tid in s.txns
    case Crash(tid) => tid in s.txns
    case ExecStray(id, _) => id in s.stray
    case DropStray(id) => id in s.stray
    case Pass(_) => true
    case RunRefill(kind, part, pod, _) => part < NUM_PARTS && PoolOf(s, kind, part).AskOf(pod).Asked?
    case LostRefill(_, part, _) => part < NUM_PARTS
    case GotRefill(_, part, _, _) => part < NUM_PARTS
    case Reboot(_, part, _) => part < NUM_PARTS
  }

  function Next(s: State, l: Label): State
    requires Enabled(s, l)
  {
    match l
    case Begin(pod, req, env) => DoBegin(s, pod, req, env)
    case Exec(tid, res) => DoExec(s, tid, res)
    case Lose(tid, zombie) => DoLose(s, tid, zombie)
    case Call(tid, env) => DoCall(s, tid, env)
    case Sweep(tid) => DoSweep(s, tid)
    case Crash(tid) => s.(txns := s.txns - {tid})
    case ExecStray(id, res) => DoStray(s, id, res)
    case DropStray(id) => s.(stray := s.stray - {id})
    case Pass(ms) => s.(db := Tick(s.db, ms))
    case RunRefill(kind, part, pod, seeded) =>
      PutPool(s, kind, part, Refill(kind, part, PoolOf(s, kind, part), seeded, pod))
    case LostRefill(kind, part, seeded) =>
      PutPool(s, kind, part, LoseRefill(kind, part, PoolOf(s, kind, part), seeded))
    case GotRefill(kind, part, pod, ok) =>
      PutPool(s, kind, part, Deliver(PoolOf(s, kind, part), pod, ok))
    case Reboot(kind, part, pod) => PutPool(s, kind, part, Restart(PoolOf(s, kind, part), pod))
  }

  function PoolOf(s: State, kind: IdKind, part: nat): Pool {
    if kind.Seids? then s.SeidPool(part) else s.TeidPool(part)
  }

  function PutPool(s: State, kind: IdKind, part: nat, p: Pool): (s': State)
    ensures s' == s.(seids := s'.seids, teids := s'.teids)
  {
    if kind.Seids? then s.(seids := s.seids[part := p]) else s.(teids := s.teids[part := p])
  }

  // --- requests arriving ---

  function DoBegin(s: State, pod: nat, req: Req, env: Env): (s': State)
    ensures s' == s.(txns := s'.txns, nextId := s'.nextId, honest := s'.honest)
  {
    var out := Start(req, env).1;
    if out.fate.Gone? then s
    else
      s.(txns := s.txns[s.nextId := Live(pod, out.fate.t, Sent(out.fate.cmd), 0, s.db.now)],
         nextId := s.nextId + 1,
         honest := s.honest && (req.kind.Est? || out.fate.t.RecKey() in s.accepted))
  }

  // --- the awaited request runs ---

  // What the write a transaction waits for means in the record's history.
  function Tag(tid: nat, t: Txn): Commit {
    if t.cb.EstWriteCb? && t.ctx.Some? then Create(tid, t.ctx.value.val)
    else if t.cb.ModWriteCb? then Change(tid, t.req)
    else Undo(tid)
  }

  function Answer(s: State, tid: nat, r: Reply): (s': State)
    requires tid in s.txns
    ensures s' == s.(txns := s'.txns)
  {
    s.(txns := s.txns[tid := s.txns[tid].(io := Got(r))])
  }

  // The command runs and the transaction gets the reply. A committed delete
  // puts the session's TEID in its hands.
  function DoExec(s: State, tid: nat, res: VdpResult): (s': State)
    requires tid in s.txns && s.txns[tid].io.Sent?
    ensures s' == s.(db := s'.db, txns := s'.txns, tickets := s'.tickets, rules := s'.rules, teids := s'.teids,
                     served := s'.served, claims := s'.claims, closed := s'.closed)
  {
    var t := s.txns[tid].t;
    var cmd := s.txns[tid].io.cmd;
    var (s1, r) := Serve(s, cmd, Tag(tid, t), res);
    Answer(if cmd.DeleteRec? && r.CasOk? && t.ctx.Some? then
             s1.(claims := s1.claims[CtxTeid(t.ctx.value.val) := ByTxn(tid)])
           else s1, tid, r)
  }

  // --- what Redis and the VDP do with a command ---

  function Serve(s: State, cmd: Cmd, tag: Commit, res: VdpResult): (w: (State, Reply))
    ensures var s' := w.0;
            s' == s.(db := s'.db, tickets := s'.tickets, rules := s'.rules, teids := s'.teids,
                     served := s'.served, claims := s'.claims, closed := s'.closed)
    ensures w.0.db == if cmd.StoreRsp? then ExecSet(s.db, cmd.smf, cmd.sn, cmd.rsp)
                      else s.db.(keys := w.0.db.keys)
    ensures !cmd.PushTeid? ==> w.0.teids == s.teids
  {
    match cmd
    case GetCached(smf, sn) => (s, ExecGet(s.db, smf, sn))
    case ReadRec(key) => (s, ExecRead(s.db, key))
    case WriteRec(_, _, _, _) => ServeWrite(s, cmd, tag)
    case DeleteRec(key, exp) => (s.(db := ExecDelete(s.db, key, exp).0), ExecDelete(s.db, key, exp).1)
    case PersistRec(key) => (s.(db := ExecPersist(s.db, key).0), Done)
    case PushTeid(part, teid) => (ServePush(s, part, teid), Done)
    case StoreRsp(smf, sn, rsp) => (s.(db := ExecSet(s.db, smf, sn, rsp)), Done)
    case _ => (Vdped(s, cmd, res), Vdp(res))
  }

  function Spend(s: State, key: Key, exp: nat, r: Reply): map<Key, Ticket> {
    if exp == 0 && r.CasOk? then s.tickets[key := Spent] else s.tickets
  }

  function ServeWrite(s: State, cmd: Cmd, tag: Commit): (w: (State, Reply))
    requires cmd.WriteRec?
    ensures var s' := w.0; s' == s.(db := s'.db, tickets := s'.tickets) && s'.db == s.db.(keys := s'.db.keys)
  {
    var w := ExecWrite(s.db, cmd.key, cmd.exp, cmd.data, cmd.pending, tag);
    (s.(db := w.0, tickets := Spend(s, cmd.key, cmd.exp, w.1)), w.1)
  }

  function ServePush(s: State, part: nat, teid: nat): (s': State)
    ensures s' == s.(teids := s'.teids, claims := s'.claims)
  {
    s.(teids := s.teids[part := Free(s.TeidPool(part), teid)], claims := s.claims - {teid})
  }

  // The VDP installs a rule on an accepted create, and on nothing else.
  function Vdped(s: State, cmd: Cmd, res: VdpResult): (s': State)
    ensures s' == s.(rules := s'.rules, served := s'.served, claims := s'.claims, closed := s'.closed)
    ensures s.served <= s'.served && (cmd.VdpCreate? && res.Accept? ==> cmd.key in s'.served)
  {
    if !res.Accept? then s
    else if cmd.VdpCreate? then
      s.(rules := s.rules + {cmd.key}, served := s.served + {cmd.key},
         claims := s.claims[CtxTeid(cmd.ctx) := BySession(cmd.key)])
    else if cmd.VdpDelete? then s.(rules := s.rules - {cmd.key}, closed := s.closed + {cmd.key})
    else s
  }

  // --- an answer is lost; the command may still run ---

  function DoLose(s: State, tid: nat, zombie: bool): (s': State)
    requires tid in s.txns
    ensures s' == s.(txns := s'.txns, stray := s'.stray, nextId := s'.nextId, tickets := s'.tickets,
                     claims := s'.claims)
  {
    var live := s.txns[tid];
    var s1 := Answer(s, tid, Err);
    if !zombie || live.io.Got? then s1
    else
      var cmd := live.io.cmd;
      s1.(stray := s.stray[s.nextId := Stray(cmd, Tag(tid, live.t))], nextId := s.nextId + 1,
          tickets := if cmd.WriteRec? && cmd.exp == 0 then s.tickets[cmd.key := Hold(s.nextId)] else s.tickets,
          claims := if cmd.VdpCreate? then s.claims[CtxTeid(cmd.ctx) := BySession(cmd.key)] else s.claims)
  }

  // --- callbacks ---

  // retrans_lookup_cb allocates both ids on a miss; the SEID comes first.
  predicate Allocates(t: Txn, r: Reply) {
    t.cb.EstLookupCb? && !r.Hit?
  }

  function Allocated(s: State, live: Live, r: Reply, env: Env): (w: (State, Env))
    ensures w.0 == s.(seids := w.0.seids, teids := w.0.teids) && w.1.part == env.part
  {
    if !Allocates(live.t, r) then (s, env)
    else
      var (sp, seid) := Alloc(s.SeidPool(env.part), live.pod);
      var (tp, teid) := Alloc(s.TeidPool(env.part), live.pod);
      (s.(seids := s.seids[env.part := sp], teids := s.teids[env.part := tp]),
       env.(seid := seid, teid := teid))
  }

  function DoCall(s: State, tid: nat, env: Env): State
    requires Enabled(s, Call(tid, env))
  {
    var live := s.txns[tid];
    var (s1, env1) := Allocated(s, live, live.io.r, env);
    Settle(s1, tid, live, Callback(live.t, live.io.r, env1))
  }

  // What a callback's ports did, applied to the state.
  function Settle(s: State, tid: nat, live: Live, out: Out): State {
    s.(txns := NewTxns(s, tid, live, out),
       stray := NewStrays(s, live.t, out),
       nextId := s.nextId + 3,
       tickets := if Mints(out) then s.tickets[out.fate.t.RecKey() := Hold(tid)] else s.tickets,
       claims := NewClaims(s, tid, out),
       accepted := if Accepts(live.t, out) then s.accepted + {live.t.RecKey()} else s.accepted,
       closed := if out.aside.Some? && out.aside.value.DeleteRec? then s.closed + {out.aside.value.key}
                 else s.closed,
       db := if out.store.Some? then
               s.db.(produced := s.db.produced + {(live.t.req.smf, live.t.req.sn, out.store.value)})
             else s.db,
       kept := if Keeps(live.t, out) then s.kept[tid := Kept(live.t.RecKey(), live.t.dbVer, live.t.req)] else s.kept)
  }

  predicate Mints(out: Out) { out.fate.Await? && out.fate.t.cb.EstWriteCb? }

  predicate Accepts(t: Txn, out: Out) {
    t.cb.EstConfirmCb? && out.store.Some? && out.store.value.cause.Accepted?
  }

  predicate Keeps(t: Txn, out: Out) {
    t.cb.ModVdpCb? && out.store.Some? && out.store.value.cause.Accepted?
  }

  function NewTxns(s: State, tid: nat, live: Live, out: Out): map<nat, Live> {
    match out.fate
    case Gone => s.txns - {tid}
    case Await(t, cmd) =>
      var first := if live.first == 0 && live.io.Got? && live.io.r.Found? then live.io.r.ver else live.first;
      s.txns[tid := Live(live.pod, t, Sent(cmd), first, live.since)]
  }

  const NO_TAG: Commit := Undo(0)

  // The TEID push, the store command and the cached response go out as strays.
  function NewStrays(s: State, t: Txn, out: Out): map<nat, Stray> {
    var m1 := if out.push.Some? then s.stray[s.nextId := Stray(out.push.value, NO_TAG)] else s.stray;
    var m2 := if out.aside.Some? then m1[s.nextId + 1 := Stray(out.aside.value, NO_TAG)] else m1;
    if out.store.Some? then
      m2[s.nextId + 2 := Stray(StoreRsp(t.req.smf, t.req.sn, out.store.value), NO_TAG)]
    else m2
  }

  function NewClaims(s: State, tid: nat, out: Out): map<nat, Claim> {
    if out.push.Some? && out.push.value.PushTeid? then s.claims[out.push.value.teid := ByPush(s.nextId)]
    else if Mints(out) then s.claims[out.fate.t.teid := ByTxn(tid)]
    else s.claims
  }

  function DoSweep(s: State, tid: nat): (s': State)
    requires tid in s.txns
    ensures s' == s.(txns := s'.txns, stray := s'.stray, nextId := s'.nextId)
  {
    var out := TimeoutHandler(s.txns[tid].t);
    s.(txns := s.txns - {tid},
       stray := if out.aside.Some? then s.stray[s.nextId := Stray(out.aside.value, NO_TAG)] else s.stray,
       nextId := s.nextId + 1)
  }

  // --- commands nobody waits for ---

  function DoStray(s: State, id: nat, res: VdpResult): State
    requires id in s.stray
  {
    Serve(s.(stray := s.stray - {id}), s.stray[id].cmd, s.stray[id].tag, res).0
  }

  // --- runs ---

  predicate Valid(s: State, run: seq<Label>)
    decreases |run|
  {
    run == [] || (Enabled(s, run[0]) && Valid(Next(s, run[0]), run[1..]))
  }

  function After(s: State, run: seq<Label>): State
    requires Valid(s, run)
    decreases |run|
  {
    if run == [] then s else After(Next(s, run[0]), run[1..])
  }
}
