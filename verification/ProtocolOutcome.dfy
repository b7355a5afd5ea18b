/** What comes of a request that runs without interruption: when it commits, and what runs and is stored then. */
module ProtocolOutcome {
  import opened Text
  import opened Routing
  import opened StoreSpec
  import opened Protocol
  import opened ProtocolSchedule
  import opened ProtocolFiles
  import opened ProtocolRuntime
  import opened ProtocolSafety
  import opened ProtocolRequests
  import opened ProtocolAnswers

  /** The routes discovered: the last successful ones when discovery fails. */
  function Found(env: Env, st: State, answers: Answers): seq<Route> {
    if !env.hasDiscoverer then [] else if answers.found.Some? then answers.found.value else st.lastDiscovered
  }

  /** A manual synchronization loads the desired routes, any other one the applied ones. */
  function SnapshotFor(st: State, request: Request): Snapshot {
    if request.Plain? || request.Apply? then Snapshot(st.store.resources, st.store.routes, st.store.revision)
    else st.store.applied
  }

  /** The request brings a configuration of its own. */
  predicate Brings(st: State, request: Request) {
    request.Exclusive() && (request.Apply? ==> st.draft.Some?)
  }

  /** The saves that the request needs succeed. */
  predicate SavesSucceed(st: State, request: Request, saves: Saves) {
    match request
    case Background => true
    case Plain => st.store.persistent ==> saves.store
    case Apply => (st.draft.Some? ==> saves.settings && saves.certificate) && (st.store.persistent ==> saves.store)
    case UpdateCertificate(_) => saves.certificate
    case _ => saves.settings
  }

  /** When a request commits: the runtime was read if needed, the configuration asked for renders, the load is
      acknowledged and the saves succeed. */
  ghost predicate Commits(env: Env, st: State, request: Request, answers: Answers) {
    && (Brings(st, request) && env.hasReader ==> answers.readOk)
    && (exists c :: Requested(st, request, c)
                    && env.render(c, SnapshotFor(st, request).routes + Found(env, st, answers)).Some?)
    && answers.load.Loaded? && SavesSucceed(st, request, answers.saves)
  }

  /** What a committed request leaves: what it asked for, the routes it loaded confirmed, and both of them running. */
  ghost predicate Done(env: Env, st: State, request: Request, answers: Answers, end: State) {
    && Fulfilled(st, request, end) && end.cfg == end.served
    && end.store.applied == SnapshotFor(st, request) && end.store.revision == st.store.revision
    && env.render(end.served, end.store.applied.routes + Found(env, st, answers)) == Some(end.runtime)
    && end.lastDiscovered == (if env.hasDiscoverer then Found(env, st, answers) else st.lastDiscovered)
  }

  predicate SameOnFile(st: State, end: State) {
    end.settingsFile == st.settingsFile && end.certificateFile == st.certificateFile
  }

  /** What a request that does not commit leaves alone; an import may have been written and undone (`AllOrNothing`). */
  predicate Undone(st: State, request: Request, end: State) {
    && ((request.Apply? && st.draft.Some?) || SameOnFile(st, end))
    && end.served == st.served && end.draft == st.draft && end.store.applied == st.store.applied
    && end.store.revision == st.store.revision
  }

  lemma OneIsRequested(st: State, request: Request, c: Config, d: Config)
    requires Requested(st, request, c) && Requested(st, request, d)
    ensures c == d
  {
  }

  // ---------- Stages ----------

  /** Before its commit a request has changed nothing but the configuration in force. */
  ghost predicate Early(st: State, request: Request, mid: State, p: Proc) {
    && Untouched(st, mid) && Tries(st, request, p) && mid.store == st.store
    && (p.phase != Waiting ==> p.previous == st.served && p.previousApplied == st.store.applied)
  }

  ghost predicate ReadWell(env: Env, st: State, request: Request, answers: Answers) {
    Brings(st, request) && env.hasReader ==> answers.readOk
  }

  ghost predicate SetUp(env: Env, st: State, request: Request, answers: Answers, mid: State, p: Proc) {
    && Early(st, request, mid, p) && ReadWell(env, st, request, answers)
    && p.snapshot == SnapshotFor(st, request) && mid.cfg == p.Tried()
  }

  ghost predicate Stage(env: Env, st: State, request: Request, answers: Answers, mid: State, p: Proc) {
    match p.phase
    case Waiting => Early(st, request, mid, p) && mid.lastDiscovered == st.lastDiscovered
                    && st.cfg == st.served == mid.cfg
    case Reading => Early(st, request, mid, p) && mid.lastDiscovered == st.lastDiscovered && Brings(st, request)
                    && env.hasReader
    case Preparing => Early(st, request, mid, p) && mid.lastDiscovered == st.lastDiscovered
                      && ReadWell(env, st, request, answers)
    case Discovering => SetUp(env, st, request, answers, mid, p) && mid.lastDiscovered == st.lastDiscovered
    case Rendering =>
      && SetUp(env, st, request, answers, mid, p) && p.discovered == Found(env, st, answers)
      && mid.lastDiscovered == (if env.hasDiscoverer then Found(env, st, answers) else st.lastDiscovered)
    case Committing =>
      && SetUp(env, st, request, answers, mid, p) && p.discovered == Found(env, st, answers)
      && mid.lastDiscovered == (if env.hasDiscoverer then Found(env, st, answers) else st.lastDiscovered)
      && answers.load.Loaded? && env.render(mid.cfg, p.Routes()) == Some(mid.runtime)
    case Restoring => Undone(st, request, mid) && !Commits(env, st, request, answers)
    case Failing => Undone(st, request, mid) && !Commits(env, st, request, answers)
    case _ => Done(env, st, request, answers, mid) && Commits(env, st, request, answers)
  }

  lemma TriedIsRequested(st: State, request: Request, p: Proc)
    requires FilesOnly(st) && Tries(st, request, p) && p.previous == st.served
    ensures Requested(st, request, p.Tried()) && (p.candidate.Some? <==> Brings(st, request))
  {
    hide FilesOnly, Requested;
    CandidateIsRequested(st, request);
  }

  lemma AcquireStage(env: Env, st: State, request: Request, answers: Answers, mid: State, pid: nat)
    requires FilesOnly(st) && At(mid, pid, Waiting) && Stage(env, st, request, answers, mid, mid.procs[pid])
    ensures var next := Acquired(env, mid, pid, mid.procs[pid]);
            pid in next.procs && Stage(env, st, request, answers, next, next.procs[pid])
  {
    hide FilesOnly, Requested, Commits, Done;
    var next := Acquired(env, mid, pid, mid.procs[pid]);
    TriedIsRequested(st, request, next.procs[pid]);
  }

  lemma ReadStage(env: Env, st: State, request: Request, answers: Answers, mid: State, pid: nat)
    requires At(mid, pid, Reading) && Stage(env, st, request, answers, mid, mid.procs[pid])
    ensures var next := RuntimeRead(mid, pid, mid.procs[pid], answers.readOk);
            pid in next.procs && Stage(env, st, request, answers, next, next.procs[pid])
  {
    hide Requested, Done;
  }

  lemma PrepareStage(env: Env, st: State, request: Request, answers: Answers, mid: State, pid: nat)
    requires At(mid, pid, Preparing) && Stage(env, st, request, answers, mid, mid.procs[pid])
    ensures var next := Prepared(mid, pid, mid.procs[pid]);
            pid in next.procs && Stage(env, st, request, answers, next, next.procs[pid])
  {
    hide Requested, Done, NewProc, ReadWell, Commits;
  }

  lemma DiscoverStage(env: Env, st: State, request: Request, answers: Answers, mid: State, pid: nat)
    requires At(mid, pid, Discovering) && Stage(env, st, request, answers, mid, mid.procs[pid])
    ensures var next := Discovered(env, mid, pid, mid.procs[pid], answers.found);
            pid in next.procs && Stage(env, st, request, answers, next, next.procs[pid])
  {
    hide Requested, Done, NewProc, ReadWell, Commits, SnapshotFor;
  }

  lemma NoCommit(env: Env, st: State, request: Request, answers: Answers, p: Proc)
    requires FilesOnly(st) && Tries(st, request, p) && p.previous == st.served
    requires !answers.load.Loaded? || !SavesSucceed(st, request, answers.saves)
             || env.render(p.Tried(), SnapshotFor(st, request).routes + Found(env, st, answers)).None?
    ensures !Commits(env, st, request, answers)
  {
    hide FilesOnly, Requested, SnapshotFor, Found;
    TriedIsRequested(st, request, p);
    forall c | Requested(st, request, c) ensures c == p.Tried() {
      OneIsRequested(st, request, c, p.Tried());
    }
  }

  lemma LoadStage(env: Env, st: State, request: Request, answers: Answers, mid: State, pid: nat)
    requires FilesOnly(st) && At(mid, pid, Rendering) && Stage(env, st, request, answers, mid, mid.procs[pid])
    ensures var next := LoadedState(env, mid, pid, mid.procs[pid], answers.load);
            pid in next.procs && Stage(env, st, request, answers, next, next.procs[pid])
  {
    hide FilesOnly, Requested, Done, NewProc, ReadWell, Commits, SnapshotFor, SavesSucceed;
    if !answers.load.Loaded? || env.render(mid.cfg, mid.procs[pid].Routes()).None? {
      NoCommit(env, st, request, answers, mid.procs[pid]);
    }
  }

  lemma RunningCommits(env: Env, st: State, request: Request, answers: Answers, p: Proc)
    requires FilesOnly(st) && Tries(st, request, p) && p.previous == st.served && ReadWell(env, st, request, answers)
    requires env.render(p.Tried(), SnapshotFor(st, request).routes + Found(env, st, answers)).Some?
    requires answers.load.Loaded? && SavesSucceed(st, request, answers.saves)
    ensures Commits(env, st, request, answers)
  {
    hide FilesOnly, Requested, SnapshotFor, Found;
    TriedIsRequested(st, request, p);
  }

  lemma ConfirmOutcome(net: Net, st: State, request: Request, ok: bool)
    requires Inv(net, st.store)
    ensures var confirmed := Confirm(st.store, SnapshotFor(st, request), ok);
            && (confirmed.Some? <==> (st.store.persistent ==> ok))
            && (confirmed.Some? ==>
                  confirmed.value.applied == SnapshotFor(st, request) && confirmed.value.revision == st.store.revision)
  {
    hide Consistent, WithoutErrors;
  }

  lemma EffectsOutcome(env: Env, st: State, request: Request, mid: State, p: Proc, saves: Saves)
    requires Inv(env.net, st.store) && Early(st, request, mid, p) && p.phase == Committing
    requires p.snapshot == SnapshotFor(st, request) && mid.cfg == p.Tried()
    ensures var (next, ok) := CommitEffects(mid, p, saves);
            && (ok <==> SavesSucceed(st, request, saves))
            && (ok ==> next.cfg == next.served == p.Tried() && next.store.applied == p.snapshot
                       && next.store.revision == st.store.revision)
            && next.runtime == mid.runtime && next.lastDiscovered == mid.lastDiscovered
  {
    hide Inv, Confirm, SnapshotFor, NewProc, PersistImport;
    ConfirmOutcome(env.net, st, request, saves.store);
    ServedSnapshot(st, request);
    if request.Apply? {
      TriedDraft(st, p);
      ImportOutcome(mid, p.snapshot, saves);
    } else if !request.Exclusive() {
      TriedServed(st, request, p);
    }
  }

  lemma TriedServed(st: State, request: Request, p: Proc)
    requires Tries(st, request, p) && !request.Exclusive()
    ensures p.Tried() == p.previous
  {
  }

  lemma TriedDraft(st: State, p: Proc)
    requires Tries(st, Apply, p)
    ensures p.Tried() == if st.draft.Some? then st.draft.value.live else p.previous
  {
  }

  lemma ImportOutcome(mid: State, snapshot: Snapshot, saves: Saves)
    ensures var (next, ok) := PersistImport(mid, snapshot, saves);
            var confirmed := Confirm(mid.store, snapshot, saves.store);
            && (ok <==> (mid.draft.Some? ==> saves.settings && saves.certificate) && confirmed.Some?)
            && (ok ==> next.store == confirmed.value
                       && next.cfg == (if mid.draft.Some? then mid.draft.value.live else mid.cfg)
                       && next.served == (if mid.draft.Some? then mid.draft.value.live else mid.served))
            && next.runtime == mid.runtime && next.lastDiscovered == mid.lastDiscovered
  {
    hide Confirm;
  }

  lemma ServedSnapshot(st: State, request: Request)
    ensures !request.Plain? && !request.Apply? ==> SnapshotFor(st, request) == st.store.applied
  {
  }

  /** Nothing that an outcome speaks of differs. */
  predicate SameOutcome(mid: State, next: State) {
    && Untouched(mid, next) && next.cfg == mid.cfg && next.runtime == mid.runtime
    && next.store.applied == mid.store.applied && next.store.revision == mid.store.revision
    && next.lastDiscovered == mid.lastDiscovered
  }

  lemma DoneStays(env: Env, st: State, request: Request, answers: Answers, mid: State, next: State)
    requires SameOutcome(mid, next)
    ensures Done(env, st, request, answers, mid) ==> Done(env, st, request, answers, next)
    ensures Undone(st, request, mid) ==> Undone(st, request, next)
  {
    hide Requested, RequestedFile, SnapshotFor, Found;
  }

  lemma OutcomeStays(env: Env, st: State, request: Request, answers: Answers, mid: State, p: Proc, next: State, q: Proc)
    requires Stage(env, st, request, answers, mid, p) && Succeeded(p.phase) && Succeeded(q.phase)
    requires SameOutcome(mid, next)
    ensures Stage(env, st, request, answers, next, q)
  {
    hide Done, Commits, SameOutcome;
    DoneStays(env, st, request, answers, mid, next);
  }

  lemma EffectsDone(env: Env, st: State, request: Request, answers: Answers, mid: State, p: Proc)
    requires FilesOnly(st) && Inv(env.net, st.store) && p.phase == Committing
    requires Stage(env, st, request, answers, mid, p) && SavesSucceed(st, request, answers.saves)
    ensures CommitEffects(mid, p, answers.saves).1
    ensures Done(env, st, request, answers, CommitEffects(mid, p, answers.saves).0)
            && Commits(env, st, request, answers)
  {
    hide FilesOnly, Inv, Fulfilled, NewProc, ReadWell, Commits, SnapshotFor, SavesSucceed, CommitEffects, Found;
    EffectsOutcome(env, st, request, mid, p, answers.saves);
    CommitFulfills(st, request, mid, p, answers.saves);
    RunningCommits(env, st, request, answers, p);
  }

  lemma EffectsUndone(env: Env, st: State, request: Request, answers: Answers, mid: State, p: Proc)
    requires FilesOnly(st) && Inv(env.net, st.store) && p.phase == Committing
    requires Stage(env, st, request, answers, mid, p) && !SavesSucceed(st, request, answers.saves)
    ensures !CommitEffects(mid, p, answers.saves).1
    ensures Undone(st, request, CommitEffects(mid, p, answers.saves).0) && !Commits(env, st, request, answers)
  {
    hide FilesOnly, Inv, NewProc, ReadWell, Commits, SnapshotFor, SavesSucceed, CommitEffects, Found;
    EffectsOutcome(env, st, request, mid, p, answers.saves);
    CommitFails(mid, p, answers.saves);
    NoCommit(env, st, request, answers, p);
  }

  lemma CommitStage(env: Env, st: State, request: Request, answers: Answers, mid: State, pid: nat)
    requires FilesOnly(st) && Inv(env.net, st.store)
    requires At(mid, pid, Committing) && Stage(env, st, request, answers, mid, mid.procs[pid])
    ensures var next := CommittedState(mid, pid, mid.procs[pid], answers.saves);
            pid in next.procs && Stage(env, st, request, answers, next, next.procs[pid])
  {
    hide FilesOnly, Inv, Done, Undone, SetUp, Commits, SavesSucceed, CommitEffects, Found;
    var p := mid.procs[pid];
    var effects := CommitEffects(mid, p, answers.saves).0;
    if SavesSucceed(st, request, answers.saves) {
      EffectsDone(env, st, request, answers, mid, p);
    } else {
      EffectsUndone(env, st, request, answers, mid, p);
    }
    DoneStays(env, st, request, answers, effects, CommittedState(mid, pid, p, answers.saves));
  }

  lemma LateStages(env: Env, st: State, request: Request, answers: Answers, mid: State, pid: nat, step: Step)
    requires pid in mid.procs && Stage(env, st, request, answers, mid, mid.procs[pid])
    requires Enabled(env, mid, step) && !step.Finish?
    requires step in {Release(pid), Check(pid, answers.statuses), EnterAzure(pid), LeaveAzure(pid)}
    ensures var next := Next(env, mid, step);
            pid in next.procs && Stage(env, st, request, answers, next, next.procs[pid])
  {
    hide Stage, Edited, FinishedState, CommittedState, LoadedState, RestoredState, RuntimeRead, Prepared, Discovered,
      Acquired, Began, NewDraft, SystemSaved;
    var next := Next(env, mid, step);
    OutcomeStays(env, st, request, answers, mid, mid.procs[pid], next, next.procs[pid]);
  }

  lemma RestoreStage(env: Env, st: State, request: Request, answers: Answers, mid: State, pid: nat)
    requires At(mid, pid, Restoring) && Stage(env, st, request, answers, mid, mid.procs[pid])
    ensures var next := RestoredState(env, mid, pid, mid.procs[pid], answers.rollback);
            pid in next.procs && Stage(env, st, request, answers, next, next.procs[pid])
  {
    hide Requested, Done, NewProc, ReadWell, Commits, SnapshotFor, SavesSucceed, AfterRestore;
    RestoreTouches(env, mid, mid.procs[pid], answers.rollback);
  }

  lemma FinishStage(env: Env, st: State, request: Request, answers: Answers, mid: State, pid: nat)
    requires pid in mid.procs && Stage(env, st, request, answers, mid, mid.procs[pid])
    ensures var next := FinishedState(mid, pid, mid.procs[pid]);
            && pid !in next.procs
            && (At(mid, pid, Finishing) ==> Done(env, st, request, answers, next) && Commits(env, st, request, answers))
            && (At(mid, pid, Failing) ==> Undone(st, request, next) && !Commits(env, st, request, answers))
  {
    hide Done, Undone, Commits, WithStatuses, Early, SetUp;
    var next := FinishedState(mid, pid, mid.procs[pid]);
    StatusesKeepApplied(mid.store, mid.procs[pid].health);
    DoneStays(env, st, request, answers, mid, next);
  }

  lemma StatusesKeepApplied(s: StoreState, health: Option<seq<Status>>)
    ensures health.Some? ==>
              var next := WithStatuses(s, health.value);
              next.applied == s.applied && next.revision == s.revision
  {
  }

  // ---------- The whole run ----------

  lemma StageStep(env: Env, st: State, request: Request, answers: Answers, mid: State, pid: nat, step: Step)
    requires FilesOnly(st) && Inv(env.net, st.store) && Answered(pid, answers, step) && Enabled(env, mid, step)
    requires pid in mid.procs && Stage(env, st, request, answers, mid, mid.procs[pid]) && step != Finish(pid)
    ensures var next := Next(env, mid, step);
            pid in next.procs && Stage(env, st, request, answers, next, next.procs[pid])
  {
    hide FilesOnly, Inv, Stage, Edited, Acquired, RuntimeRead, Prepared, Discovered, LoadedState, CommittedState,
      RestoredState, Released, Checked, EnteredAzure, LeftAzure;
    match step
    case Acquire(_) => AcquireStage(env, st, request, answers, mid, pid);
    case ReadRuntime(_, _) => ReadStage(env, st, request, answers, mid, pid);
    case Prepare(_) => PrepareStage(env, st, request, answers, mid, pid);
    case Discover(_, _) => DiscoverStage(env, st, request, answers, mid, pid);
    case Load(_, _) => LoadStage(env, st, request, answers, mid, pid);
    case Commit(_, _) => CommitStage(env, st, request, answers, mid, pid);
    case Restore(_, _) => RestoreStage(env, st, request, answers, mid, pid);
    case _ => LateStages(env, st, request, answers, mid, pid, step);
  }

  // ---------- Generation, health, Azure and the result ----------

  function Reported(env: Env, answers: Answers): Option<seq<Status>> {
    if env.hasHealth then answers.statuses else None
  }

  predicate SameDesiredRoutes(s: StoreState, next: StoreState) {
    next.resources == s.resources && next.routes == s.routes
  }

  /** The generation of the request is the newest and its checks have not been cancelled. */
  predicate Current(env: Env, st: State, answers: Answers, mid: State, p: Proc) {
    && SameDesiredRoutes(st.store, mid.store) && mid.published == st.published
    && if p.phase == Waiting then
         mid.generation == st.generation && mid.azureStarts == st.azureStarts && p.health.None?
         && mid.cancelled == st.cancelled && mid.cancelChecks == st.cancelChecks
       else
         && p.generation == mid.generation == st.generation + 1 && p.generation !in mid.cancelled
         && p.health == (if p.phase in {QueuedForAzure, InAzure, Finishing} then Reported(env, answers) else None)
         && mid.azureStarts == st.azureStarts
                               + (if p.phase in {InAzure, Finishing} && env.hasAzure then [p.generation] else [])
         && (p.phase in {QueuedForAzure, InAzure} ==> env.hasAzure)
  }

  /** The result is published, the health of a committed request is recorded, Azure is reconciled once, and
      the checks are over. */
  predicate Reports(env: Env, st: State, answers: Answers, committed: bool, end: State) {
    && end.generation == st.generation + 1 && end.published == st.published + [end.generation]
    && end.generation in end.cancelled
    && end.azureStarts == st.azureStarts + (if committed && env.hasAzure then [end.generation] else [])
    && SameDesiredRoutes(
         if committed && env.hasHealth && answers.statuses.Some? then WithStatuses(st.store, answers.statuses.value)
         else st.store, end.store)
  }

  lemma ConfirmKeepsDesired(s: StoreState, snapshot: Snapshot, ok: bool)
    ensures Confirm(s, snapshot, ok).Some? ==> SameDesiredRoutes(s, Confirm(s, snapshot, ok).value)
  {
  }

  lemma CommitKeepsDesired(mid: State, p: Proc, saves: Saves)
    ensures SameDesiredRoutes(mid.store, CommitEffects(mid, p, saves).0.store)
  {
    hide Confirm, EffectiveSettings;
    ConfirmKeepsDesired(mid.store, p.snapshot, saves.store);
  }

  lemma LoadKeepsHealth(env: Env, mid: State, pid: nat, outcome: LoadOutcome)
    requires pid in mid.procs
    ensures var next := LoadedState(env, mid, pid, mid.procs[pid], outcome);
            pid in next.procs && next.procs[pid].health == mid.procs[pid].health && next.store == mid.store
  {
    hide AfterLoad, ProcAfterLoad;
    LoadTouches(env, mid, mid.procs[pid], outcome);
  }

  lemma RestoreKeepsHealth(env: Env, mid: State, pid: nat, outcome: LoadOutcome)
    requires pid in mid.procs
    ensures var next := RestoredState(env, mid, pid, mid.procs[pid], outcome);
            pid in next.procs && next.procs[pid].health == mid.procs[pid].health && next.store == mid.store
  {
    hide AfterRestore;
    RestoreTouches(env, mid, mid.procs[pid], outcome);
  }

  lemma CommitKeepsHealth(mid: State, pid: nat, saves: Saves)
    requires pid in mid.procs
    ensures var next := CommittedState(mid, pid, mid.procs[pid], saves);
            && pid in next.procs && next.procs[pid].health == mid.procs[pid].health
            && SameDesiredRoutes(mid.store, next.store)
  {
    hide CommitEffects;
    CommitTouches(mid, mid.procs[pid], saves);
    CommitKeepsDesired(mid, mid.procs[pid], saves);
  }

  lemma UnderLockKeepsHealth(env: Env, mid: State, pid: nat, step: Step)
    requires Enabled(env, mid, step) && UnderLock(step) && step.pid == pid
    ensures var next := Next(env, mid, step);
            && pid in mid.procs && pid in next.procs && next.procs[pid].health == mid.procs[pid].health
            && SameDesiredRoutes(mid.store, next.store)
  {
    hide Edited, LoadedState, RestoredState, CommittedState;
    match step
    case Commit(_, saves) => CommitKeepsHealth(mid, pid, saves);
    case Load(_, outcome) => LoadKeepsHealth(env, mid, pid, outcome);
    case Restore(_, outcome) => RestoreKeepsHealth(env, mid, pid, outcome);
    case _ =>
  }

  lemma UnderLockStaysCurrent(env: Env, st: State, answers: Answers, mid: State, pid: nat, step: Step)
    requires Enabled(env, mid, step) && UnderLock(step) && step.pid == pid
    requires pid in mid.procs && Current(env, st, answers, mid, mid.procs[pid])
    ensures var next := Next(env, mid, step);
            pid in next.procs && Current(env, st, answers, next, next.procs[pid])
  {
    hide Enabled, Next;
    UnderLockIsQuiet(env, mid, step);
    UnderLockKeepsHealth(env, mid, pid, step);
  }

  lemma AcquireStaysCurrent(env: Env, st: State, answers: Answers, mid: State, pid: nat)
    requires Generations(st) && At(mid, pid, Waiting) && Current(env, st, answers, mid, mid.procs[pid])
    ensures var next := Acquired(env, mid, pid, mid.procs[pid]);
            pid in next.procs && Current(env, st, answers, next, next.procs[pid])
  {
    hide SameDesiredRoutes;
  }

  lemma LateStaysCurrent(env: Env, st: State, answers: Answers, mid: State, pid: nat, step: Step)
    requires Enabled(env, mid, step)
    requires step in {Release(pid), Check(pid, answers.statuses), EnterAzure(pid), LeaveAzure(pid)}
    requires pid in mid.procs && Current(env, st, answers, mid, mid.procs[pid])
    ensures var next := Next(env, mid, step);
            pid in next.procs && Current(env, st, answers, next, next.procs[pid])
  {
    hide Edited, LoadedState, CommittedState, RestoredState, RuntimeRead, Prepared, Discovered, FinishedState, Acquired,
      Began, NewDraft, SystemSaved, SameDesiredRoutes;
  }

  lemma CurrentStep(env: Env, st: State, answers: Answers, mid: State, pid: nat, step: Step)
    requires Generations(st) && Answered(pid, answers, step) && Enabled(env, mid, step) && step != Finish(pid)
    requires pid in mid.procs && Current(env, st, answers, mid, mid.procs[pid])
    ensures var next := Next(env, mid, step);
            pid in next.procs && Current(env, st, answers, next, next.procs[pid])
  {
    hide Edited, Current, LoadedState, CommittedState, RestoredState, RuntimeRead, Prepared, Discovered, FinishedState,
      Acquired, Released, Checked, EnteredAzure, LeftAzure, Generations;
    if UnderLock(step) {
      UnderLockStaysCurrent(env, st, answers, mid, pid, step);
    } else if step.Acquire? {
      AcquireStaysCurrent(env, st, answers, mid, pid);
    } else {
      LateStaysCurrent(env, st, answers, mid, pid, step);
    }
  }

  lemma FinishReports(env: Env, st: State, answers: Answers, mid: State, pid: nat)
    requires pid in mid.procs && Current(env, st, answers, mid, mid.procs[pid])
    requires At(mid, pid, Finishing) || At(mid, pid, Failing)
    ensures Reports(env, st, answers, At(mid, pid, Finishing), FinishedState(mid, pid, mid.procs[pid]))
  {
    hide RulesWithStatus, RoutesWithStatus;
  }

  // ---------- The outcome ----------

  ghost predicate Outcome(env: Env, st: State, request: Request, answers: Answers, end: State) {
    var committed := Commits(env, st, request, answers);
    && (if committed then Done(env, st, request, answers, end) else Undone(st, request, end))
    && Reports(env, st, answers, committed, end)
  }

  /** The request has reached one of its stages, or it is over. */
  ghost predicate Reached(env: Env, st: State, request: Request, answers: Answers, mid: State, pid: nat) {
    if pid in mid.procs then
      Stage(env, st, request, answers, mid, mid.procs[pid]) && Current(env, st, answers, mid, mid.procs[pid])
    else Outcome(env, st, request, answers, mid)
  }

  lemma {:induction false} StagesReached(
    env: Env, st: State, pid: nat, request: Request, answers: Answers, steps: seq<Step>)
    requires FilesOnly(st) && Generations(st) && Inv(env.net, st.store) && st.cfg == st.served
    requires Run(env, Began(st, pid, request), steps).Some? && forall step <- steps :: Answered(pid, answers, step)
    ensures Reached(env, st, request, answers, Run(env, Began(st, pid, request), steps).value, pid)
  {
    hide FilesOnly, Generations, Inv, Stage, Current, Enabled, Next, Answered, Began, Outcome;
    var first := Began(st, pid, request);
    if steps == [] {
      FirstStage(env, st, pid, request, answers);
    } else {
      var n := |steps| - 1;
      StagesReached(env, st, pid, request, answers, steps[..n]);
      var mid := Run(env, first, steps[..n]).value;
      PhaseFixesStep(env, pid, answers, mid, steps[n]);
      if steps[n] == Finish(pid) {
        FinishReached(env, st, request, answers, mid, pid);
      } else {
        StageStep(env, st, request, answers, mid, pid, steps[n]);
        CurrentStep(env, st, answers, mid, pid, steps[n]);
      }
    }
  }

  lemma FinishReached(env: Env, st: State, request: Request, answers: Answers, mid: State, pid: nat)
    requires Enabled(env, mid, Finish(pid)) && Reached(env, st, request, answers, mid, pid)
    ensures Reached(env, st, request, answers, Next(env, mid, Finish(pid)), pid)
  {
    hide Stage, Done, Undone, Commits, Current, Reports, FinishedState;
    FinishStage(env, st, request, answers, mid, pid);
    FinishReports(env, st, answers, mid, pid);
  }

  lemma FirstStage(env: Env, st: State, pid: nat, request: Request, answers: Answers)
    requires st.cfg == st.served
    ensures Reached(env, st, request, answers, Began(st, pid, request), pid)
  {
    hide Wanted, EffectiveSettings;
  }

  /** A request that runs without interruption commits exactly if its answers allow it. Then it has what it asked for,
      its routes are confirmed, and both run; otherwise nothing is served, confirmed or waiting that was not before.
      Either way its result is published under a new generation. */
  lemma UninterruptedOutcome(
    env: Env, st: State, pid: nat, request: Request, answers: Answers, steps: seq<Step>, end: State)
    requires Safe(env, st) && st.syncLock.None? && Ran(env, pid, answers, Began(st, pid, request), steps, end)
    requires pid !in end.procs
    ensures Outcome(env, st, request, answers, end)
  {
    hide Safe, Stage, Current, Answered, Outcome, Run, Inv, FilesOnly, Generations;
    SafeFiles(env, st);
    SafeGenerations(env, st);
    ServedWhenFree(env, st);
    SafeStore(env, st);
    StagesReached(env, st, pid, request, answers, steps);
  }

  lemma SafeGenerations(env: Env, st: State)
    requires Safe(env, st)
    ensures Generations(st)
  {
    hide Files, Locks, Generations, Runtime;
  }

  lemma SafeStore(env: Env, st: State)
    requires Safe(env, st)
    ensures Inv(env.net, st.store)
  {
    hide Inv, Locks, Generations, Files;
  }
}
