/** One synchronization that runs without interruption and gets given answers: there is one such run. */
module ProtocolAnswers {
  import opened Text
  import opened Routing
  import opened StoreSpec
  import opened Protocol
  import opened ProtocolSchedule
  import opened ProtocolFiles
  import opened ProtocolRuntime
  import opened ProtocolSafety

  /** What the outside answers during one synchronization. */
  datatype Answers = Answers(
    readOk: bool, found: Option<seq<Route>>, load: LoadOutcome, saves: Saves, rollback: LoadOutcome,
    statuses: Option<seq<Status>>)

  /** The steps of process `pid` that get these answers. */
  predicate Answered(pid: nat, answers: Answers, step: Step) {
    step in {Acquire(pid), ReadRuntime(pid, answers.readOk), Prepare(pid), Discover(pid, answers.found),
             Load(pid, answers.load),
             Commit(pid, answers.saves), Restore(pid, answers.rollback), Release(pid), Check(pid, answers.statuses),
             EnterAzure(pid), LeaveAzure(pid), Finish(pid)}
  }

  /** A run of the protocol from `first` to `last` in which `pid` alone moves and gets these answers. As a process has
      one enabled step at a time, the answers determine the run. */
  ghost predicate Ran(env: Env, pid: nat, answers: Answers, first: State, steps: seq<Step>, last: State) {
    Run(env, first, steps) == Some(last) && Safe(env, last) && forall step <- steps :: Answered(pid, answers, step)
  }

  lemma RanNothing(env: Env, pid: nat, answers: Answers, st: State)
    requires Safe(env, st)
    ensures Ran(env, pid, answers, st, [], st)
  {
    hide Safe, Answered;
  }

  lemma RanOn(env: Env, pid: nat, answers: Answers, first: State, steps: seq<Step>, mid: State, step: Step)
    requires Ran(env, pid, answers, first, steps, mid) && Enabled(env, mid, step) && Answered(pid, answers, step)
    ensures Ran(env, pid, answers, first, steps + [step], Next(env, mid, step))
  {
    hide Safe, Enabled, Next, Answered;
    SafeStep(env, mid, step);
    assert (steps + [step])[..|steps|] == steps;
  }

  lemma RanUnderLock(env: Env, pid: nat, answers: Answers, first: State, steps: seq<Step>, mid: State, step: Step)
    requires Ran(env, pid, answers, first, steps, mid) && Enabled(env, mid, step) && UnderLock(step)
    requires Answered(pid, answers, step)
    ensures Ran(env, pid, answers, first, steps + [step], Next(env, mid, step))
    ensures Next(env, mid, step).azureLock == mid.azureLock
  {
    hide Enabled, Next, Ran, Answered;
    RanOn(env, pid, answers, first, steps, mid, step);
    UnderLockIsQuiet(env, mid, step);
  }

  function StepAt(pid: nat, answers: Answers, phase: Phase): Step {
    match phase
    case Waiting => Acquire(pid)
    case Reading => ReadRuntime(pid, answers.readOk)
    case Preparing => Prepare(pid)
    case Discovering => Discover(pid, answers.found)
    case Rendering => Load(pid, answers.load)
    case Committing => Commit(pid, answers.saves)
    case Restoring => Restore(pid, answers.rollback)
    case Releasing => Release(pid)
    case Checking => Check(pid, answers.statuses)
    case QueuedForAzure => EnterAzure(pid)
    case InAzure => LeaveAzure(pid)
    case _ => Finish(pid)
  }

  lemma PhaseFixesStep(env: Env, pid: nat, answers: Answers, st: State, step: Step)
    requires Answered(pid, answers, step) && Enabled(env, st, step)
    ensures pid in st.procs && step == StepAt(pid, answers, st.procs[pid].phase)
  {
    hide Edited;
  }

  /** In each state at most one of the answered steps is enabled. */
  lemma OneStepAtATime(env: Env, pid: nat, answers: Answers, st: State, a: Step, b: Step)
    requires Answered(pid, answers, a) && Answered(pid, answers, b) && Enabled(env, st, a) && Enabled(env, st, b)
    ensures a == b && pid in st.procs
  {
    hide Answered, Enabled, StepAt;
    PhaseFixesStep(env, pid, answers, st, a);
    PhaseFixesStep(env, pid, answers, st, b);
  }

  lemma {:induction false} RunOfPrefix(env: Env, first: State, steps: seq<Step>, n: nat)
    requires n < |steps| && Run(env, first, steps).Some?
    ensures Run(env, first, steps[..n]).Some? && Enabled(env, Run(env, first, steps[..n]).value, steps[n])
  {
    hide Enabled, Next;
    var m := |steps| - 1;
    if n < m {
      RunOfPrefix(env, first, steps[..m], n);
      assert steps[..m][..n] == steps[..n];
    }
  }

  lemma {:induction false} SamePrefix(
    env: Env, pid: nat, answers: Answers, first: State, a: seq<Step>, b: seq<Step>, n: nat)
    requires Run(env, first, a).Some? && Run(env, first, b).Some? && n <= |a| && n <= |b|
    requires (forall step <- a :: Answered(pid, answers, step)) && (forall step <- b :: Answered(pid, answers, step))
    ensures a[..n] == b[..n]
  {
    hide Enabled, Answered, Run;
    if n > 0 {
      SamePrefix(env, pid, answers, first, a, b, n - 1);
      RunOfPrefix(env, first, a, n - 1);
      RunOfPrefix(env, first, b, n - 1);
      OneStepAtATime(env, pid, answers, Run(env, first, a[..n - 1]).value, a[n - 1], b[n - 1]);
      assert a[..n] == a[..n - 1] + [a[n - 1]] && b[..n] == b[..n - 1] + [b[n - 1]];
    }
  }

  lemma NotLonger(
    env: Env, pid: nat, answers: Answers, first: State, a: seq<Step>, endA: State, b: seq<Step>, endB: State)
    requires Ran(env, pid, answers, first, a, endA) && Ran(env, pid, answers, first, b, endB) && pid !in endA.procs
    ensures |b| <= |a|
  {
    hide Safe, Enabled, Answered, Run;
    if |a| < |b| {
      SamePrefix(env, pid, answers, first, a, b, |a|);
      assert b[..|a|] == a;
      RunOfPrefix(env, first, b, |a|);
      OneStepAtATime(env, pid, answers, endA, b[|a|], b[|a|]);
    }
  }

  /** A request's answers determine its whole run, so the contract of Sync fixes the resulting fields. */
  lemma AnswersDetermineTheRun(
    env: Env, pid: nat, answers: Answers, first: State, a: seq<Step>, endA: State, b: seq<Step>, endB: State)
    requires Ran(env, pid, answers, first, a, endA) && Ran(env, pid, answers, first, b, endB) && pid !in endA.procs
    requires pid !in endB.procs
    ensures a == b && endA == endB
  {
    hide Safe, Answered;
    NotLonger(env, pid, answers, first, a, endA, b, endB);
    NotLonger(env, pid, answers, first, b, endB, a, endA);
    SamePrefix(env, pid, answers, first, a, b, |a|);
    assert a[..|a|] == a && b[..|a|] == b;
  }
}
