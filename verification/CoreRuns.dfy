// The core invariant holds in every reachable state, and what it promises.
module CoreRuns {
  import opened Wrappers
  import opened Flow
  import opened Store
  import opened IdPool
  import opened Cluster
  import opened CoreInv
  import opened CoreSteps
  import opened CoreCalls

  lemma StartIsCore()
    ensures Core(START)
  {
  }

  lemma AwaitedKinds(s: State, tid: nat)
    requires Core(s) && tid in s.txns && s.txns[tid].io.Sent?
    ensures !s.txns[tid].io.cmd.PushTeid? && !s.txns[tid].io.cmd.StoreRsp?
  {
    assert TxnOk(s, tid, s.txns[tid]);
  }

  lemma ExecKeeps(s: State, tid: nat, res: VdpResult)
    requires Core(s) && tid in s.txns && s.txns[tid].io.Sent?
    ensures Core(DoExec(s, tid, res))
  {
    hide Core, DoExec;
    AwaitedKinds(s, tid);
    match s.txns[tid].io.cmd
    case WriteRec(_, _, _, _) => ExecWriteKeeps(s, tid, res);
    case DeleteRec(_, _) => ExecDeleteKeeps(s, tid, res);
    case PersistRec(_) => ExecPersistKeeps(s, tid, res);
    case _ => QuietExecKeeps(s, tid, res);
  }

  // Every step of every pod, of Redis, of the VDP and of the network keeps it.
  lemma StepKeeps(s: State, l: Label)
    requires Core(s) && Enabled(s, l)
    ensures Core(Next(s, l))
  {
    hide Core;
    match l
    case Begin(pod, req, env) => BeginKeeps(s, pod, req, env);
    case Exec(tid, res) => ExecKeeps(s, tid, res);
    case Lose(tid, zombie) => LoseKeeps(s, tid, zombie);
    case Call(tid, env) => CallKeeps(s, tid, env);
    case Sweep(tid) => SweepKeeps(s, tid);
    case Crash(tid) => CrashKeeps(s, tid);
    case ExecStray(id, res) => StrayKeeps(s, id, res);
    case DropStray(id) => DropStrayKeeps(s, id);
    case Pass(ms) => PassKeeps(s, ms);
    case _ => IdStepKeeps(s, l);
  }

  lemma {:induction false} RunKeeps(s: State, run: seq<Label>)
    requires Core(s) && Valid(s, run)
    ensures Core(After(s, run))
    decreases |run|
  {
    hide Core;
    if run != [] {
      StepKeeps(s, run[0]);
      RunKeeps(Next(s, run[0]), run[1..]);
    }
  }
}
