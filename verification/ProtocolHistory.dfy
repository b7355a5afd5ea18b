/** What whole runs of the protocol mean for revisions, imports, Azure and published results. */
module ProtocolHistory {
  import opened Text
  import opened Routing
  import opened StoreSpec
  import opened Protocol
  import opened ProtocolSchedule
  import opened ProtocolFiles
  import opened ProtocolRuntime
  import opened ProtocolSafety

  // ---------- Revisions ----------

  predicate ChangesDesired(step: Step) {
    step.Edit? || step.StageImport?
  }

  function Edits(steps: seq<Step>): nat {
    if steps == [] then 0 else Edits(steps[..|steps| - 1]) + (if ChangesDesired(steps[|steps| - 1]) then 1 else 0)
  }

  ghost predicate SameDesired(s: StoreState, next: StoreState) {
    next.revision == s.revision && WithoutErrors(next.resources) == WithoutErrors(s.resources)
  }

  lemma EffectsKeepDesired(st: State, p: Proc, saves: Saves)
    ensures var next := CommitEffects(st, p, saves).0.store;
            next.revision == st.store.revision && next.resources == st.store.resources
  {
    hide Confirm;
    ConfirmShape(st.store, p.snapshot, saves.store);
  }

  lemma FinishKeepsDesired(env: Env, st: State, pid: nat)
    requires Inv(env.net, st.store) && pid in st.procs
    ensures SameDesired(st.store, FinishedState(st, pid, st.procs[pid]).store)
  {
    hide Inv, WithStatuses, WithoutErrors;
    var p := st.procs[pid];
    if p.health.Some? {
      StatusKeepsStore(env, st.store, p.health.value);
      SameRevision(st.store, p.health.value);
    }
  }

  lemma SameRevision(s: StoreState, statuses: seq<Status>)
    ensures WithStatuses(s, statuses).revision == s.revision
  {
    hide RulesWithStatus, RoutesWithStatus;
  }

  lemma StepKeepsDesired(env: Env, st: State, step: Step)
    requires Enabled(env, st, step) && Inv(env.net, st.store)
    ensures ChangesDesired(step) ==> Next(env, st, step).store.revision == st.store.revision + 1
    ensures !ChangesDesired(step) ==> SameDesired(st.store, Next(env, st, step).store)
  {
    hide Inv, CommitEffects, FinishedState, NewDraft, NewProc, EffectiveSettings, AfterLoad, AfterRestore,
      WithoutErrors, Consistent, RollbackDocument, ProcAfterLoad;
    match step
    case Commit(pid, saves) => EffectsKeepDesired(st, st.procs[pid], saves);
    case Finish(pid) => FinishKeepsDesired(env, st, pid);
    case Load(pid, outcome) => LoadTouches(env, st, st.procs[pid], outcome);
    case Restore(pid, outcome) => RestoreTouches(env, st, st.procs[pid], outcome);
    case _ =>
  }

  /** Synchronizations never change what is desired: the revision counts the edits, and without edits the desired
      resources stay as they are up to runtime errors. */
  lemma {:induction false} OnlyEditsChangeDesired(env: Env, st: State, steps: seq<Step>)
    requires Safe(env, st) && Run(env, st, steps).Some?
    ensures var end := Run(env, st, steps).value;
            && end.store.revision == st.store.revision + Edits(steps)
            && (Edits(steps) == 0 ==> SameDesired(st.store, end.store))
  {
    hide Safe, Enabled, Next;
    if steps != [] {
      var before := steps[..|steps| - 1];
      OnlyEditsChangeDesired(env, st, before);
      AlwaysSafe(env, st, before);
      var mid := Run(env, st, before).value;
      StoreOfSafe(env, mid);
      StepKeepsDesired(env, mid, steps[|steps| - 1]);
    }
  }

  lemma StoreOfSafe(env: Env, st: State)
    requires Safe(env, st)
    ensures Inv(env.net, st.store)
  {
    hide Inv, Locks, Generations, Files;
  }

  predicate Pending(s: StoreState) {
    s.revision != s.applied.revision
  }

  /** In every reachable state without pending changes the desired resources are the applied ones, up to errors. */
  lemma NothingPendingMeansApplied(env: Env, st: State, steps: seq<Step>)
    requires Started(env, st) && Run(env, st, steps).Some?
    ensures var s := Run(env, st, steps).value.store;
            s.applied.revision <= s.revision
            && (!Pending(s) ==> WithoutErrors(s.applied.resources) == WithoutErrors(s.resources))
  {
    hide Started, Safe, Run, Consistent, WithoutErrors;
    StartIsSafe(env, st);
    AlwaysSafe(env, st, steps);
    StoreOfSafe(env, Run(env, st, steps).value);
  }

  // ---------- What an apply confirms ----------

  ghost predicate HasSnapshot(st: State, pid: nat, snapshot: Snapshot) {
    && st.syncLock == Some(pid) && pid in st.procs && st.procs[pid].snapshot == snapshot
    && st.procs[pid].phase in {Discovering, Rendering, Committing, Restoring, Failing, Releasing}
  }

  lemma SnapshotStays(env: Env, st: State, pid: nat, snapshot: Snapshot, step: Step)
    requires Locks(st) && HasSnapshot(st, pid, snapshot) && Enabled(env, st, step) && !LetsGo(pid, step)
    ensures HasSnapshot(Next(env, st, step), pid, snapshot)
  {
    hide Edited, CommitEffects, NewProc, NewDraft, EffectiveSettings, WithStatuses, AfterLoad, AfterRestore,
      HolderAside, Began, Checked, EnteredAzure, LeftAzure, Acquired, Released, SystemSaved, RollbackDocument,
      Desired;
    if Elsewhere(step) {
      ElsewhereShape(env, st, step);
      HolderAsideFacts(st, Next(env, st, step), pid);
    } else if UnderLock(step) {
      UnderLockIsQuiet(env, st, step);
      if step.Load? {
        LoadTouches(env, st, st.procs[pid], step.outcome);
      }
    }
  }

  lemma {:induction false} SnapshotThroughout(env: Env, st: State, pid: nat, snapshot: Snapshot, steps: seq<Step>)
    requires Safe(env, st) && HasSnapshot(st, pid, snapshot) && Run(env, st, steps).Some?
    requires forall step <- steps :: !LetsGo(pid, step)
    ensures HasSnapshot(Run(env, st, steps).value, pid, snapshot)
  {
    hide Enabled, Next, LetsGo, HasSnapshot, Generations, Files, Runtime, Locks;
    if steps != [] {
      var before := steps[..|steps| - 1];
      SnapshotThroughout(env, st, pid, snapshot, before);
      AlwaysSafe(env, st, before);
      SnapshotStays(env, Run(env, st, before).value, pid, snapshot, steps[|steps| - 1]);
    }
  }

  /** An apply confirms exactly the desired state it prepared from, whatever is edited while it loads, and afterwards
      changes are pending exactly when there was such an edit. */
  lemma ConfirmsWhatItLoaded(env: Env, st: State, pid: nat, steps: seq<Step>)
    requires Safe(env, st) && Enabled(env, st, Prepare(pid)) && !st.procs[pid].request.KeepsPendingRoutes()
    requires Run(env, Next(env, st, Prepare(pid)), steps).Some? && forall step <- steps :: !LetsGo(pid, step)
    ensures var end := Run(env, Next(env, st, Prepare(pid)), steps).value;
            At(end, pid, Releasing) ==>
              end.store.applied == Desired(st.store) && (Pending(end.store) <==> Edits(steps) > 0)
  {
    hide Safe, Run, LetsGo, Enabled, Next;
    var first := Next(env, st, Prepare(pid));
    SafeStep(env, st, Prepare(pid));
    assert HasSnapshot(first, pid, Desired(st.store)) && first.store == st.store by {
      PreparedSnapshot(env, st, pid);
    }
    SnapshotThroughout(env, first, pid, Desired(st.store), steps);
    AlwaysSafe(env, first, steps);
    OnlyEditsChangeDesired(env, first, steps);
    ReleasingConfirms(env, Run(env, first, steps).value, pid);
  }

  lemma PreparedSnapshot(env: Env, st: State, pid: nat)
    requires Safe(env, st) && Enabled(env, st, Prepare(pid)) && !st.procs[pid].request.KeepsPendingRoutes()
    ensures HasSnapshot(Next(env, st, Prepare(pid)), pid, Desired(st.store))
    ensures Next(env, st, Prepare(pid)).store == st.store
  {
    hide Generations, Files, Runtime;
  }

  lemma ReleasingConfirms(env: Env, st: State, pid: nat)
    requires Safe(env, st)
    ensures At(st, pid, Releasing) ==> st.store.applied == st.procs[pid].snapshot
  {
    hide Generations, Files, Inv, Faithful;
  }

  // ---------- Imports ----------

  /** A commit whose compensating saves succeed if it has to make them. */
  predicate Compensates(step: Step) {
    step.Commit? ==> step.saves.undoSettings && step.saves.undoCertificate
  }

  lemma EffectsCompensated(st: State, p: Proc, saves: Saves)
    requires !st.torn && saves.undoSettings && saves.undoCertificate
    ensures !CommitEffects(st, p, saves).0.torn
  {
    hide Confirm, NewDraft, EffectiveSettings;
  }

  lemma UntornStep(env: Env, st: State, step: Step)
    requires Enabled(env, st, step) && !st.torn && Compensates(step)
    ensures !Next(env, st, step).torn
  {
    hide Edited, NewProc, NewDraft, EffectiveSettings, WithStatuses, AfterLoad, AfterRestore, CommitEffects;
    match step
    case Commit(pid, saves) => EffectsCompensated(st, st.procs[pid], saves);
    case Load(pid, outcome) => LoadTouches(env, st, st.procs[pid], outcome);
    case Restore(pid, outcome) => RestoreTouches(env, st, st.procs[pid], outcome);
    case _ =>
  }

  lemma {:induction false} UntornThroughout(env: Env, st: State, steps: seq<Step>)
    requires !st.torn && Run(env, st, steps).Some? && forall step <- steps :: Compensates(step)
    ensures !Run(env, st, steps).value.torn
  {
    hide Enabled, Next, Compensates;
    if steps != [] {
      UntornThroughout(env, st, steps[..|steps| - 1]);
      UntornStep(env, Run(env, st, steps[..|steps| - 1]).value, steps[|steps| - 1]);
    }
  }

  /** While an import waits, the files in effect are still what it would replace, also after further imports. */
  lemma PendingImportChangesNothing(env: Env, st: State, steps: seq<Step>)
    requires Started(env, st) && Run(env, st, steps).Some? && forall step <- steps :: Compensates(step)
    ensures var end := Run(env, st, steps).value;
            end.draft.Some? ==>
              && EffectiveSettings(end) == end.draft.value.previousSettings
              && EffectiveCertificate(end) == end.draft.value.previousCertificate
  {
    UntornThroughout(env, st, steps);
    hide Compensates, Started, Run, Locks, Generations, Runtime, SameLivePart, EffectiveSettings, EffectiveCertificate,
      RequestSound;
    StartIsSafe(env, st);
    AlwaysSafe(env, st, steps);
  }

  /** The compensating saves that a failed commit makes all succeed. */
  predicate Compensated(st: State, p: Proc, saves: Saves) {
    p.request.Apply? && st.draft.Some? && saves.settings ==>
      saves.undoSettings
      && (saves.certificate && Confirm(st.store, p.snapshot, saves.store).None? ==> saves.undoCertificate)
  }

  /** Applying an import writes settings, certificate policy and applied routes together or, when the compensating
      saves succeed, none of them; `torn` records exactly that one of those saves failed. */
  lemma ImportAllOrNothing(st: State, p: Proc, saves: Saves)
    requires FilesOnly(st) && !st.torn && p.request.Apply? && st.draft.Some?
    ensures var d := st.draft.value;
            var (next, ok) := CommitEffects(st, p, saves);
            && (ok <==> saves.settings && saves.certificate && Confirm(st.store, p.snapshot, saves.store).Some?)
            && (ok ==>
                  next.settingsFile == Some(d.settings) && next.certificateFile == Some(d.certificate)
                  && next.served == d.live
                  && next.store == Applied(st.store, p.snapshot) && next.draft.None? && !next.torn)
            && (!ok ==>
                  next.store == st.store && next.served == st.served && next.draft == st.draft
                  && (next.torn <==> !Compensated(st, p, saves)))
            && (!ok && Compensated(st, p, saves) ==> SameSettings(st, next))
  {
    hide SameLivePart, Applied;
  }

  // ---------- Generations and Azure ----------

  /** In every reachable state: all generations below the current one are cancelled, at most one Azure reconciliation
      is under way, and both starts and published results came in strictly increasing generation order. */
  lemma ScheduleIsOrderly(env: Env, st: State, steps: seq<Step>)
    requires Started(env, st) && Run(env, st, steps).Some?
    ensures var end := Run(env, st, steps).value;
            && (forall g: nat :: 1 <= g < end.generation ==> g in end.cancelled)
            && (forall p, q :: At(end, p, InAzure) && At(end, q, InAzure) ==> p == q)
            && (forall p, q :: p in end.procs && q in end.procs ==>
                                 HoldsSync(end.procs[p].phase) && HoldsSync(end.procs[q].phase) ==> p == q)
            && Increasing(end.azureStarts) && Increasing(end.published)
  {
    hide Started, Run, Files, Runtime, Increasing;
    StartIsSafe(env, st);
    AlwaysSafe(env, st, steps);
  }

  /** A superseded synchronization starts no Azure work and publishes neither a result nor route health. */
  lemma SupersededHasNoEffect(env: Env, st: State, pid: nat)
    requires Safe(env, st) && pid in st.procs && st.procs[pid].phase != Waiting
    requires st.procs[pid].generation < st.generation
    ensures EnteredAzure(st, pid, st.procs[pid]).azureStarts == st.azureStarts
    ensures FinishedState(st, pid, st.procs[pid]).published == st.published
    ensures FinishedState(st, pid, st.procs[pid]).store == st.store
  {
    hide Locks, Files, Runtime, WithStatuses;
  }

  // ---------- Rollbacks ----------

  /** With a reader and a non-empty runtime the rollback restores exactly when it takes effect or nothing had
      changed. */
  lemma RollbackRestores(env: Env, st: State, pid: nat, outcome: LoadOutcome)
    requires Safe(env, st) && At(st, pid, Restoring) && st.procs[pid].candidate.Some? && env.hasReader
    requires st.procs[pid].runtimeBefore != ""
    ensures RestoredState(env, st, pid, st.procs[pid], outcome).procs[pid].restored
       <==> !outcome.NotLoaded? || st.runtime == st.procs[pid].runtimeBefore
  {
    hide Generations, Files, Inv, Faithful;
  }

  // ---------- One synchronization, all or nothing ----------

  /** A failure of the holder after which the runtime is as it was. */
  predicate FailsRestored(st: State, pid: nat) {
    At(st, pid, Failing) ==> st.procs[pid].restored
  }

  lemma EarlyFailureIsRestored(env: Env, st: State, step: Step)
    requires Enabled(env, st, step) && UnderLock(step) && !step.Restore? && st.procs[step.pid].candidate.Some?
    ensures FailsRestored(Next(env, st, step), step.pid)
  {
    hide Edited, AfterLoad, CommitEffects, Desired;
  }

  lemma FailsRestoredStep(env: Env, before: State, st: State, pid: nat, step: Step)
    requires Safe(env, st) && Holding(before, st, pid) && FailsRestored(st, pid) && Enabled(env, st, step)
    requires !LetsGo(pid, step) && step != Restore(pid, NotLoaded)
    requires before.procs[pid].candidate.Some? && env.hasReader && before.runtime != ""
    ensures FailsRestored(Next(env, st, step), pid)
  {
    hide Edited, Generations, Files, Runtime, HolderAside, NewProc, NewDraft, EffectiveSettings, WithStatuses,
      RestoredState, RuntimeRead, Prepared, Discovered, LoadedState, CommittedState, SameSettings, Began, Checked,
      EnteredAzure, LeftAzure;
    if Elsewhere(step) {
      ElsewhereShape(env, st, step);
      HolderAsideFacts(st, Next(env, st, step), pid);
    } else if step.Restore? {
      RollbackRestores(env, st, pid, step.outcome);
    } else if UnderLock(step) {
      EarlyFailureIsRestored(env, st, step);
    }
  }

  lemma {:induction false} FailsRestoredThroughout(env: Env, st: State, pid: nat, steps: seq<Step>)
    requires Safe(env, st) && Enabled(env, st, Acquire(pid)) && Run(env, Next(env, st, Acquire(pid)), steps).Some?
    requires forall step <- steps :: !LetsGo(pid, step) && step != Restore(pid, NotLoaded)
    requires st.procs[pid].candidate.Some? && env.hasReader && st.runtime != ""
    ensures FailsRestored(Run(env, Next(env, st, Acquire(pid)), steps).value, pid)
  {
    hide Safe, Holding, Enabled, Next, LetsGo, FailsRestored;
    var first := Next(env, st, Acquire(pid));
    if steps == [] {
      AcquireEnabled(env, st, pid);
      AcquiredIsNotFailing(env, st, pid);
    } else {
      var before := steps[..|steps| - 1];
      FailsRestoredThroughout(env, st, pid, before);
      HoldingThroughout(env, st, pid, before);
      FailsRestoredStep(env, st, Run(env, first, before).value, pid, steps[|steps| - 1]);
    }
  }

  lemma AcquiredIsNotFailing(env: Env, st: State, pid: nat)
    requires At(st, pid, Waiting)
    ensures FailsRestored(Acquired(env, st, pid, st.procs[pid]), pid)
  {
  }

  /** A synchronization with a candidate, a reader and a running document, seen from the state in which it took the
      lock, as long as its rollback takes effect and the compensating saves it needs succeed. If it fails, the
      runtime, the configuration, the applied snapshot and the files are as they were; if it commits, the
      configuration tried is the one that runs, the one served and the one on file, over the routes it loaded. Either
      way the desired revision has moved by the edits alone. */
  lemma AllOrNothing(env: Env, st: State, pid: nat, steps: seq<Step>)
    requires Safe(env, st) && !st.torn && Enabled(env, st, Acquire(pid))
    requires Run(env, Next(env, st, Acquire(pid)), steps).Some?
    requires forall step <- steps :: !LetsGo(pid, step) && step != Restore(pid, NotLoaded) && Compensates(step)
    requires st.procs[pid].candidate.Some? && env.hasReader && st.runtime != ""
    ensures var end := Run(env, Next(env, st, Acquire(pid)), steps).value;
            && end.store.revision == st.store.revision + Edits(steps)
            && (Edits(steps) == 0 ==> SameDesired(st.store, end.store))
            && (At(end, pid, Failing) ==>
                  && end.runtime == st.runtime && end.cfg == st.cfg && end.served == st.served
                  && end.store.applied == st.store.applied && SameSettings(st, end))
            && (At(end, pid, Releasing) ==>
                  && var p := end.procs[pid];
                  && Some(end.cfg) == Some(end.served) == st.procs[pid].candidate
                  && end.store.applied == p.snapshot && p.discovered in end.everDiscovered
                  && env.render(end.cfg, end.store.applied.routes + p.discovered) == Some(end.runtime)
                  && SameLivePart(EffectiveSettings(end), end.cfg) && EffectiveCertificate(end) == end.cfg.certificate)
  {
    hide Enabled, Next, Safe, Run, LetsGo, Compensates, SameSettings, SameDesired;
    var first := Next(env, st, Acquire(pid));
    HoldingMeaning(env, st, pid, steps);
    FailsRestoredThroughout(env, st, pid, steps);
    HoldingThroughout(env, st, pid, steps);
    CandidatesAreExclusive(env, st, pid);
    AcquireChangesNothing(env, st, pid);
    SafeStep(env, st, Acquire(pid));
    OnlyEditsChangeDesired(env, first, steps);
    UntornThroughout(env, first, steps);
  }

  lemma AcquireChangesNothing(env: Env, st: State, pid: nat)
    requires Enabled(env, st, Acquire(pid))
    ensures var first := Next(env, st, Acquire(pid)); first.torn == st.torn && first.store == st.store
  {
  }

  lemma CandidatesAreExclusive(env: Env, st: State, pid: nat)
    requires Safe(env, st) && pid in st.procs && st.procs[pid].candidate.Some?
    ensures st.procs[pid].request.Exclusive()
  {
    hide Locks, Generations, Runtime, FilesOnly;
    assert RequestSound(st, st.procs[pid]);
  }

  // ---------- Lost acknowledgements ----------

  /** The requests that load the desired routes without a candidate: a plain one, or an apply without an import. */
  predicate LoadsDrafts(st: State, request: Request) {
    request.Plain? || (request.Apply? && st.draft.None? && st.mutationLock.None?)
  }

  function LoadsDesired(pid: nat, request: Request): seq<Step> {
    [] + [Begin(pid, request)] + [Acquire(pid)] + [Prepare(pid)]
  }

  /** A synchronization whose load takes effect without being acknowledged. */
  function LostAcknowledgement(pid: nat, request: Request): seq<Step> {
    LoadsDesired(pid, request) + [Discover(pid, None)] + [Load(pid, LoadedUnacknowledged)] + [Finish(pid)]
  }

  predicate ReadyToLoad(st: State, s: State, pid: nat) {
    && At(s, pid, Discovering) && s.procs[pid].candidate.None? && s.procs[pid].snapshot == Desired(st.store)
    && s.procs[pid].health.None? && s.procs[pid].previous == st.cfg && s.cfg == st.cfg && s.store == st.store
    && s.lastDiscovered == st.lastDiscovered && s.everDiscovered == st.everDiscovered
  }

  lemma DesiredIsPrepared(env: Env, st: State, pid: nat, request: Request)
    requires st.syncLock.None? && pid !in st.procs && LoadsDrafts(st, request)
    ensures Run(env, st, LoadsDesired(pid, request)).Some?
    ensures ReadyToLoad(st, Run(env, st, LoadsDesired(pid, request)).value, pid)
  {
    hide NewProc, EffectiveSettings, Run;
    var s0 := Began(st, pid, request);
    DraftProc(st, request);
    var s1 := Acquired(env, s0, pid, s0.procs[pid]);
    var none: seq<Step> := [];
    NoSteps(env, st);
    Extended(env, st, none, st, Begin(pid, request));
    Extended(env, st, none + [Begin(pid, request)], s0, Acquire(pid));
    Extended(env, st, none + [Begin(pid, request)] + [Acquire(pid)], s1, Prepare(pid));
  }

  lemma NoSteps(env: Env, st: State)
    ensures Run(env, st, []) == Some(st)
  {
  }

  function KnownRoutes(env: Env, st: State): seq<Route> {
    if env.hasDiscoverer then st.lastDiscovered else []
  }

  predicate RunsInstead(env: Env, st: State, end: State, document: string) {
    && end.syncLock.None? && end.runtime == document && end.store == st.store && end.cfg == st.cfg
    && end.everDiscovered == st.everDiscovered
  }

  lemma UnacknowledgedLoad(env: Env, st: State, s: State, pid: nat, document: string)
    requires ReadyToLoad(st, s, pid)
    requires env.render(st.cfg, st.store.routes + KnownRoutes(env, st)) == Some(document)
    ensures var s3 := Discovered(env, s, pid, s.procs[pid], None);
            && At(s3, pid, Rendering)
            && var s4 := LoadedState(env, s3, pid, s3.procs[pid], LoadedUnacknowledged);
            && At(s4, pid, Failing)
            && RunsInstead(env, st, FinishedState(s4, pid, s4.procs[pid]), document)
  {
    hide WithStatuses;
  }

  /** From any state with nothing under way, a synchronization of the desired routes whose acknowledgement is lost
      leaves them running, applied or not: what runs is then accounted for if and only if the renderer gives that
      document for the applied routes and some list ever discovered as well. */
  lemma LostAcknowledgementRunsDrafts(env: Env, st: State, pid: nat, request: Request, document: string)
    requires st.syncLock.None? && pid !in st.procs && LoadsDrafts(st, request)
    requires env.render(st.cfg, st.store.routes + KnownRoutes(env, st)) == Some(document)
    ensures Run(env, st, LostAcknowledgement(pid, request)).Some?
    ensures var end := Run(env, st, LostAcknowledgement(pid, request)).value;
            && RunsInstead(env, st, end, document)
            && (Faithful(env, end.cfg, end.store.applied.routes, end.everDiscovered, end.runtime) <==>
                exists found <- st.everDiscovered ::
                  env.render(st.cfg, st.store.applied.routes + found) == Some(document))
  {
    hide Discovered, LoadedState, FinishedState, LoadsDesired, Run;
    DesiredIsPrepared(env, st, pid, request);
    var steps := LoadsDesired(pid, request);
    var s := Run(env, st, steps).value;
    UnacknowledgedLoad(env, st, s, pid, document);
    var s3 := Discovered(env, s, pid, s.procs[pid], None);
    var s4 := LoadedState(env, s3, pid, s3.procs[pid], LoadedUnacknowledged);
    Extended(env, st, steps, s, Discover(pid, None));
    Extended(env, st, steps + [Discover(pid, None)], s3, Load(pid, LoadedUnacknowledged));
    Extended(env, st, steps + [Discover(pid, None)] + [Load(pid, LoadedUnacknowledged)], s4, Finish(pid));
  }

  /** Drafts do run: with any renderer that gives a document for the applied routes and another one for the desired
      routes, from any sound store, freshly started, by an apply whose acknowledgement is lost. */
  lemma DraftsCanRun(env: Env, cfg: Config, store: StoreState, applied: string, desired: string)
    requires Inv(env.net, store) && applied != desired
    requires env.render(cfg, store.applied.routes) == Some(applied) && env.render(cfg, store.routes) == Some(desired)
    ensures var st := Initially(cfg, applied, store, None, None);
            && Started(env, st) && Run(env, st, LostAcknowledgement(0, Apply)).Some?
            && var end := Run(env, st, LostAcknowledgement(0, Apply)).value;
            && end.syncLock.None? && end.runtime == desired
            && !Faithful(env, end.cfg, end.store.applied.routes, end.everDiscovered, end.runtime)
  {
    hide Inv, Run, Faithful;
    var st := Initially(cfg, applied, store, None, None);
    assert store.routes + [] == store.routes && store.applied.routes + [] == store.applied.routes;
    LostAcknowledgementRunsDrafts(env, st, 0, Apply, desired);
  }

  lemma DraftProc(st: State, request: Request)
    requires LoadsDrafts(st, request)
    ensures var p := NewProc(st, request);
            p.candidate.None? && p.phase == Waiting && p.request == request && p.health.None?
  {
  }

  lemma Extended(env: Env, st: State, steps: seq<Step>, mid: State, last: Step)
    requires Run(env, st, steps) == Some(mid) && Enabled(env, mid, last)
    ensures Run(env, st, steps + [last]) == Some(Next(env, mid, last))
  {
    hide Enabled, Next;
    assert (steps + [last])[..|steps|] == steps;
  }
}
