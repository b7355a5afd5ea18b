/** What runs once a request that was not interrupted is over, above all when it has failed: told by what it met and by
    the answers it got. */
module ProtocolFailure {
  import opened Text
  import opened Routing
  import opened StoreSpec
  import opened Protocol
  import opened ProtocolSchedule
  import opened ProtocolFiles
  import opened ProtocolRuntime
  import opened ProtocolSafety
  import opened ProtocolRequests
  import opened ProtocolAnswers
  import opened ProtocolOutcome

  /** What the request loads under the configuration it asks for. */
  function Loads(env: Env, st: State, request: Request, answers: Answers, c: Config): Option<string> {
    env.render(c, SnapshotFor(st, request).routes + Found(env, st, answers))
  }

  /** What runs after the load, also when its acknowledgement is lost. */
  function RunsAfterLoad(env: Env, st: State, request: Request, answers: Answers, c: Config): string {
    var document := Loads(env, st, request, answers, c);
    if document.None? || answers.load.NotLoaded? then st.runtime else document.value
  }

  /** A rollback is due when a save fails after the load, and when the load itself fails with a configuration that the
      request brought. */
  predicate RollsBack(env: Env, st: State, request: Request, answers: Answers, c: Config) {
    && Loads(env, st, request, answers, c).Some?
    && if answers.load.Loaded? then !SavesSucceed(st, request, answers.saves) else Brings(st, request)
  }

  /** The rollback loads the document that was read or, without one, renders what was served, applied and discovered
      before. */
  function Fallback(env: Env, st: State, request: Request): Option<string> {
    if Brings(st, request) && env.hasReader && st.runtime != "" then Some(st.runtime)
    else env.render(st.served, st.store.applied.routes + st.lastDiscovered)
  }

  predicate RunsFor(env: Env, st: State, request: Request, answers: Answers, c: Config, runtime: string) {
    if Brings(st, request) && env.hasReader && !answers.readOk then runtime == st.runtime
    else if RollsBack(env, st, request, answers, c) && Fallback(env, st, request).Some? && !answers.rollback.NotLoaded?
    then Some(runtime) == Fallback(env, st, request)
    else runtime == RunsAfterLoad(env, st, request, answers, c)
  }

  /** What runs in the end, and which discovery is remembered. */
  ghost predicate RunsInTheEnd(env: Env, st: State, request: Request, answers: Answers, end: State) {
    && (exists c :: Requested(st, request, c) && RunsFor(env, st, request, answers, c, end.runtime))
    && end.lastDiscovered ==
       if !ReadWell(env, st, request, answers) || !env.hasDiscoverer then st.lastDiscovered else Found(env, st, answers)
  }

  // ---------- Stages ----------

  predicate Remembers(env: Env, st: State, request: Request, p: Proc) {
    && p.previousDiscovered == st.lastDiscovered
    && p.read == if p.phase != Reading && Brings(st, request) && env.hasReader then st.runtime else ""
  }

  /** Between a failed load or commit and the rollback. */
  ghost predicate FallingBack(env: Env, st: State, request: Request, answers: Answers, mid: State, p: Proc) {
    && p.previous == st.served && p.previousApplied == st.store.applied && ReadWell(env, st, request, answers)
    && mid.lastDiscovered == (if env.hasDiscoverer then Found(env, st, answers) else st.lastDiscovered)
    && exists c ::
         && Requested(st, request, c) && RollsBack(env, st, request, answers, c)
         && mid.runtime == RunsAfterLoad(env, st, request, answers, c)
  }

  ghost predicate RunStage(env: Env, st: State, request: Request, answers: Answers, mid: State, p: Proc) {
    match p.phase
    case Waiting => mid.runtime == st.runtime
    case Committing => Remembers(env, st, request, p)
    case Restoring => Remembers(env, st, request, p) && FallingBack(env, st, request, answers, mid, p)
    case Failing => RunsInTheEnd(env, st, request, answers, mid)
    case _ =>
      if Succeeded(p.phase) then RunsInTheEnd(env, st, request, answers, mid)
      else Remembers(env, st, request, p) && mid.runtime == st.runtime
  }

  lemma AcquireRuns(env: Env, st: State, request: Request, answers: Answers, mid: State, pid: nat)
    requires FilesOnly(st) && At(mid, pid, Waiting) && Stage(env, st, request, answers, mid, mid.procs[pid])
    requires RunStage(env, st, request, answers, mid, mid.procs[pid])
    ensures var next := Acquired(env, mid, pid, mid.procs[pid]);
            RunStage(env, st, request, answers, next, next.procs[pid])
  {
    hide FilesOnly, Requested, NewProc, RunsInTheEnd;
    StartsRequested(st, request, mid.procs[pid]);
  }

  lemma PrepareRuns(env: Env, st: State, request: Request, answers: Answers, mid: State, pid: nat)
    requires At(mid, pid, Preparing) && RunStage(env, st, request, answers, mid, mid.procs[pid])
    ensures var next := Prepared(mid, pid, mid.procs[pid]);
            RunStage(env, st, request, answers, next, next.procs[pid])
  {
    hide RunsInTheEnd, Desired;
  }

  lemma DiscoverRuns(env: Env, st: State, request: Request, answers: Answers, mid: State, pid: nat)
    requires At(mid, pid, Discovering) && RunStage(env, st, request, answers, mid, mid.procs[pid])
    ensures var next := Discovered(env, mid, pid, mid.procs[pid], answers.found);
            RunStage(env, st, request, answers, next, next.procs[pid])
  {
    hide RunsInTheEnd;
  }

  /** The requested configuration is the one tried, or the one served. */
  lemma StartsRequested(st: State, request: Request, p: Proc)
    requires FilesOnly(st) && Tries(st, request, p)
    ensures var c := if p.candidate.Some? then p.candidate.value else st.served;
            Requested(st, request, c) && (p.candidate.Some? <==> Brings(st, request))
  {
    hide FilesOnly, Requested;
    CandidateIsRequested(st, request);
  }

  lemma ReadRuns(env: Env, st: State, request: Request, answers: Answers, mid: State, pid: nat)
    requires FilesOnly(st) && At(mid, pid, Reading) && Stage(env, st, request, answers, mid, mid.procs[pid])
    requires RunStage(env, st, request, answers, mid, mid.procs[pid])
    ensures var next := RuntimeRead(mid, pid, mid.procs[pid], answers.readOk);
            RunStage(env, st, request, answers, next, next.procs[pid])
  {
    hide FilesOnly, Requested, NewProc, RollsBack, Fallback, RunsAfterLoad;
    StartsRequested(st, request, mid.procs[pid]);
  }

  lemma LoadLeaves(env: Env, mid: State, p: Proc, outcome: LoadOutcome)
    ensures var next, q := AfterLoad(env, mid, p, outcome), ProcAfterLoad(env, mid, p, outcome);
            var document := env.render(mid.cfg, p.Routes());
            && next.lastDiscovered == mid.lastDiscovered
            && next.runtime == (if document.None? || outcome.NotLoaded? then mid.runtime else document.value)
            && q.phase == (if document.Some? && outcome.Loaded? then Committing
                           else if document.Some? && p.candidate.Some? then Restoring else Failing)
            && q.read == p.read && q.previous == p.previous && q.previousApplied == p.previousApplied
            && q.previousDiscovered == p.previousDiscovered
  {
  }

  lemma LoadRuns(env: Env, st: State, request: Request, answers: Answers, mid: State, pid: nat)
    requires FilesOnly(st) && At(mid, pid, Rendering) && Stage(env, st, request, answers, mid, mid.procs[pid])
    requires RunStage(env, st, request, answers, mid, mid.procs[pid])
    ensures var next := LoadedState(env, mid, pid, mid.procs[pid], answers.load);
            RunStage(env, st, request, answers, next, next.procs[pid])
  {
    hide FilesOnly, Requested, NewProc, SnapshotFor, SavesSucceed, Found, Done, Commits, Undone, Untouched, Fallback,
      AfterLoad, ProcAfterLoad;
    var p := mid.procs[pid];
    StartsRequested(st, request, p);
    LoadLeaves(env, mid, p, answers.load);
    assert Loads(env, st, request, answers, p.Tried()) == env.render(mid.cfg, p.Routes());
  }

  lemma CommitRuns(env: Env, st: State, request: Request, answers: Answers, mid: State, pid: nat)
    requires FilesOnly(st) && Inv(env.net, st.store)
    requires At(mid, pid, Committing) && Stage(env, st, request, answers, mid, mid.procs[pid])
    requires RunStage(env, st, request, answers, mid, mid.procs[pid])
    ensures var next := CommittedState(mid, pid, mid.procs[pid], answers.saves);
            RunStage(env, st, request, answers, next, next.procs[pid])
  {
    hide FilesOnly, Inv, Requested, NewProc, SnapshotFor, SavesSucceed, Found, CommitEffects;
    var p := mid.procs[pid];
    StartsRequested(st, request, p);
    EffectsOutcome(env, st, request, mid, p, answers.saves);
  }

  lemma RestoreRuns(env: Env, st: State, request: Request, answers: Answers, mid: State, pid: nat)
    requires At(mid, pid, Restoring) && RunStage(env, st, request, answers, mid, mid.procs[pid])
    ensures var next := RestoredState(env, mid, pid, mid.procs[pid], answers.rollback);
            RunStage(env, st, request, answers, next, next.procs[pid])
  {
    hide Requested, SnapshotFor, SavesSucceed, Found, RunsAfterLoad, RollsBack;
  }

  lemma RunsStay(env: Env, st: State, request: Request, answers: Answers, mid: State, next: State)
    requires RunsInTheEnd(env, st, request, answers, mid)
    requires next.runtime == mid.runtime && next.lastDiscovered == mid.lastDiscovered
    ensures RunsInTheEnd(env, st, request, answers, next)
  {
    hide Requested, RunsFor, Found, ReadWell;
  }

  lemma LateRuns(env: Env, st: State, request: Request, answers: Answers, mid: State, pid: nat, step: Step)
    requires pid in mid.procs && RunStage(env, st, request, answers, mid, mid.procs[pid]) && Enabled(env, mid, step)
    requires step in {Release(pid), Check(pid, answers.statuses), EnterAzure(pid), LeaveAzure(pid)}
    ensures var next := Next(env, mid, step);
            pid in next.procs && RunStage(env, st, request, answers, next, next.procs[pid])
  {
    hide RunsInTheEnd, Edited, LoadedState, CommittedState, RestoredState, RuntimeRead, Prepared, Discovered,
      FinishedState, Acquired, Began, NewDraft, SystemSaved;
    RunsStay(env, st, request, answers, mid, Next(env, mid, step));
  }

  lemma RunStep(env: Env, st: State, request: Request, answers: Answers, mid: State, pid: nat, step: Step)
    requires FilesOnly(st) && Inv(env.net, st.store) && Answered(pid, answers, step) && Enabled(env, mid, step)
    requires pid in mid.procs && Stage(env, st, request, answers, mid, mid.procs[pid]) && step != Finish(pid)
    requires RunStage(env, st, request, answers, mid, mid.procs[pid]) && pid in Next(env, mid, step).procs
    ensures var next := Next(env, mid, step);
            RunStage(env, st, request, answers, next, next.procs[pid])
  {
    hide FilesOnly, Inv, Stage, RunStage, Edited, Acquired, RuntimeRead, Prepared, Discovered, LoadedState,
      CommittedState, RestoredState, Released, Checked, EnteredAzure, LeftAzure, FinishedState, NewDraft, SystemSaved,
      Began, Put;
    match step
    case ReadRuntime(_, _) => ReadRuns(env, st, request, answers, mid, pid);
    case Load(_, _) => LoadRuns(env, st, request, answers, mid, pid);
    case Commit(_, _) => CommitRuns(env, st, request, answers, mid, pid);
    case Restore(_, _) => RestoreRuns(env, st, request, answers, mid, pid);
    case Acquire(_) => AcquireRuns(env, st, request, answers, mid, pid);
    case Prepare(_) => PrepareRuns(env, st, request, answers, mid, pid);
    case Discover(_, _) => DiscoverRuns(env, st, request, answers, mid, pid);
    case _ => LateRuns(env, st, request, answers, mid, pid, step);
  }

  ghost predicate RunReached(env: Env, st: State, request: Request, answers: Answers, mid: State, pid: nat) {
    if pid in mid.procs then
      Stage(env, st, request, answers, mid, mid.procs[pid]) && RunStage(env, st, request, answers, mid, mid.procs[pid])
    else RunsInTheEnd(env, st, request, answers, mid)
  }

  lemma FinishRuns(env: Env, st: State, request: Request, answers: Answers, mid: State, pid: nat)
    requires Enabled(env, mid, Finish(pid)) && RunReached(env, st, request, answers, mid, pid)
    ensures RunReached(env, st, request, answers, Next(env, mid, Finish(pid)), pid)
  {
    hide Stage, RunsInTheEnd, WithStatuses;
    RunsStay(env, st, request, answers, mid, Next(env, mid, Finish(pid)));
  }

  lemma {:induction false} RunsReached(
    env: Env, st: State, pid: nat, request: Request, answers: Answers, steps: seq<Step>)
    requires FilesOnly(st) && Inv(env.net, st.store) && st.cfg == st.served
    requires Run(env, Began(st, pid, request), steps).Some? && forall step <- steps :: Answered(pid, answers, step)
    ensures RunReached(env, st, request, answers, Run(env, Began(st, pid, request), steps).value, pid)
  {
    hide FilesOnly, Inv, Stage, RunStage, Enabled, Next, Answered, Began, RunsInTheEnd;
    var first := Began(st, pid, request);
    if steps == [] {
      FirstRuns(env, st, pid, request, answers);
    } else {
      var n := |steps| - 1;
      RunsReached(env, st, pid, request, answers, steps[..n]);
      var mid := Run(env, first, steps[..n]).value;
      PhaseFixesStep(env, pid, answers, mid, steps[n]);
      if steps[n] == Finish(pid) {
        FinishRuns(env, st, request, answers, mid, pid);
      } else {
        StageStep(env, st, request, answers, mid, pid, steps[n]);
        RunStep(env, st, request, answers, mid, pid, steps[n]);
      }
    }
  }

  lemma FirstRuns(env: Env, st: State, pid: nat, request: Request, answers: Answers)
    requires st.cfg == st.served
    ensures RunReached(env, st, request, answers, Began(st, pid, request), pid)
  {
    hide Wanted, EffectiveSettings;
  }

  /** What a request that runs without interruption leaves running: what it loaded; or, when a rollback was due and took
      effect, the document read before or a rendering of what was served, applied and discovered before; or what ran
      before, when nothing was loaded. */
  lemma RuntimeOfUninterrupted(
    env: Env, st: State, pid: nat, request: Request, answers: Answers, steps: seq<Step>, end: State)
    requires Safe(env, st) && st.syncLock.None? && Ran(env, pid, answers, Began(st, pid, request), steps, end)
    requires pid !in end.procs
    ensures RunsInTheEnd(env, st, request, answers, end)
  {
    hide Safe, Stage, RunStage, Answered, RunsInTheEnd, Run, Inv, FilesOnly, Generations;
    SafeFiles(env, st);
    ServedWhenFree(env, st);
    SafeStore(env, st);
    RunsReached(env, st, pid, request, answers, steps);
  }
}
