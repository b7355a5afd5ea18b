/** The theorems of the apply/commit protocol, over every run. */
module ProtocolSafety {
  import opened Text
  import opened Routing
  import opened StoreSpec
  import opened Protocol
  import opened ProtocolSchedule
  import opened ProtocolFiles
  import opened ProtocolRuntime

  ghost predicate Safe(env: Env, st: State) {
    Locks(st) && Generations(st) && Files(st) && Runtime(env, st)
  }

  /** After startup: the stored files agree with the configuration, and the applied routes have been rendered. */
  ghost predicate Started(env: Env, st: State) {
    && st == Initially(st.cfg, st.runtime, st.store, st.settingsFile, st.certificateFile)
    && Inv(env.net, st.store)
    && env.render(st.cfg, st.store.applied.routes) == Some(st.runtime)
    && SameLivePart(EffectiveSettings(st), st.cfg) && EffectiveCertificate(st) == st.cfg.certificate
  }

  lemma StartIsSafe(env: Env, st: State)
    requires Started(env, st)
    ensures Safe(env, st)
  {
    hide Inv;
    assert st.store.applied.routes + [] == st.store.applied.routes;
    RenderedIsFaithful(env, st.cfg, st.store.applied.routes, [], {[]}, st.runtime);
  }

  lemma SafeStep(env: Env, st: State, step: Step)
    requires Safe(env, st) && Enabled(env, st, step)
    ensures Safe(env, Next(env, st, step))
  {
    hide Locks, Generations, Files, Runtime, Enabled, Next;
    LocksKept(env, st, step);
    GenerationsKept(env, st, step);
    FilesKept(env, st, step);
    RuntimeKept(env, st, step);
  }

  /** Every reachable state is safe. */
  lemma {:induction false} AlwaysSafe(env: Env, st: State, steps: seq<Step>)
    requires Safe(env, st) && Run(env, st, steps).Some?
    ensures Safe(env, Run(env, st, steps).value)
  {
    hide Safe, Enabled, Next;
    if steps != [] {
      AlwaysSafe(env, st, steps[..|steps| - 1]);
      SafeStep(env, Run(env, st, steps[..|steps| - 1]).value, steps[|steps| - 1]);
    }
  }

  // ---------- Drafts never run ----------

  /** A load without a candidate, of other routes than the applied ones, whose acknowledgement is lost; or a rollback
      that does not take effect although the load before it did. */
  predicate LosesTrack(env: Env, st: State, step: Step) {
    match step
    case Load(pid, outcome) =>
      && At(st, pid, Rendering) && st.procs[pid].candidate.None? && !st.procs[pid].request.KeepsPendingRoutes()
      && outcome.LoadedUnacknowledged? && env.render(st.cfg, st.procs[pid].Routes()).Some?
    case Restore(pid, outcome) =>
      At(st, pid, Restoring) && st.runtime != st.procs[pid].runtimeBefore && Ineffective(env, st.procs[pid], outcome)
    case _ => false
  }

  /** A commit, a rollback by rendering, or an unacknowledged load of the applied routes: afterwards what runs is
      known. */
  predicate RegainsTrack(env: Env, st: State, step: Step) {
    match step
    case Load(pid, outcome) =>
      && At(st, pid, Rendering) && st.procs[pid].candidate.None? && st.procs[pid].request.KeepsPendingRoutes()
      && outcome.LoadedUnacknowledged? && env.render(st.cfg, st.procs[pid].Routes()).Some?
    case Commit(pid, saves) => At(st, pid, Committing) && CommitEffects(st, st.procs[pid], saves).1
    case Restore(pid, outcome) => At(st, pid, Restoring) && st.procs[pid].read == ""
                                  && !Ineffective(env, st.procs[pid], outcome)
    case _ => false
  }

  /** The run has lost track and not regained it since. */
  ghost predicate OffTrack(env: Env, st: State, steps: seq<Step>)
    requires Run(env, st, steps).Some?
    decreases |steps|
  {
    steps != [] &&
    var before, last := steps[..|steps| - 1], steps[|steps| - 1];
    var mid := Run(env, st, before).value;
    LosesTrack(env, mid, last) || (!RegainsTrack(env, mid, last) && OffTrack(env, st, before))
  }

  lemma AstrayStep(env: Env, st: State, step: Step)
    requires Enabled(env, st, step)
    ensures Next(env, st, step).astray <==> LosesTrack(env, st, step) || (!RegainsTrack(env, st, step) && st.astray)
  {
    hide Edited, CommitEffects, NewProc, NewDraft, EffectiveSettings, WithStatuses;
    if step.Commit? {
      CommitTouches(st, st.procs[step.pid], step.saves);
    }
  }

  lemma {:induction false} AstrayIsOffTrack(env: Env, st: State, steps: seq<Step>)
    requires !st.astray && Run(env, st, steps).Some?
    ensures Run(env, st, steps).value.astray <==> OffTrack(env, st, steps)
  {
    hide Enabled, Next, LosesTrack, RegainsTrack;
    if steps != [] {
      var n := |steps| - 1;
      AstrayIsOffTrack(env, st, steps[..n]);
      AstrayStep(env, Run(env, st, steps[..n]).value, steps[n]);
    }
  }

  /** In every interleaving: whenever no synchronization holds the lock and track of the runtime is not lost, what
      runs is the configuration served with the applied routes followed by routes that a discovery found. */
  lemma DraftsNeverRun(env: Env, st: State, steps: seq<Step>)
    requires Started(env, st) && Run(env, st, steps).Some? && !OffTrack(env, st, steps)
    ensures var end := Run(env, st, steps).value;
            end.syncLock.None? ==>
              end.cfg == end.served && Faithful(env, end.cfg, end.store.applied.routes, end.everDiscovered, end.runtime)
  {
    hide Locks, Generations, Files, Run, OffTrack, Inv, Faithful, EffectiveSettings, EffectiveCertificate;
    StartIsSafe(env, st);
    AlwaysSafe(env, st, steps);
    AstrayIsOffTrack(env, st, steps);
  }

  ghost predicate KeepsTrack(env: Env, st: State, steps: seq<Step>)
    requires Run(env, st, steps).Some?
  {
    forall i :: 0 <= i < |steps| && Run(env, st, steps[..i]).Some? ==>
                  !LosesTrack(env, Run(env, st, steps[..i]).value, steps[i])
  }

  /** A run without losing steps is on track. */
  lemma {:induction false} TrackKept(env: Env, st: State, steps: seq<Step>)
    requires Run(env, st, steps).Some? && KeepsTrack(env, st, steps)
    ensures !OffTrack(env, st, steps)
  {
    hide Enabled, Next, LosesTrack, RegainsTrack;
    if steps != [] {
      var before := steps[..|steps| - 1];
      assert forall i :: 0 <= i < |before| ==> before[..i] == steps[..i];
      TrackKept(env, st, before);
    }
  }

  /** The state a losing step leaves behind once the failed synchronization has ended. */
  function AfterLosing(env: Env, st: State, step: Step): State
    requires Enabled(env, st, step) && LosesTrack(env, st, step)
  {
    var next := Next(env, st, step);
    FinishedState(next, step.pid, next.procs[step.pid])
  }

  /** The condition is exact. After a losing step the lock is free and the document that was loaded runs, so what runs
      is still accounted for if and only if the renderer gives the same document for the previous configuration over
      the applied routes and some list ever discovered. */
  lemma LosingTrackIsReal(env: Env, st: State, step: Step)
    requires Safe(env, st) && Enabled(env, st, step) && LosesTrack(env, st, step)
    ensures var p := st.procs[step.pid];
            var next := Next(env, st, step);
            var end := AfterLosing(env, st, step);
            && Enabled(env, next, Finish(step.pid)) && end == Next(env, next, Finish(step.pid)) && end.syncLock.None?
            && Some(end.runtime) == env.render(p.Tried(), p.Routes())
            && (Faithful(env, end.cfg, end.store.applied.routes, end.everDiscovered, end.runtime) <==>
                exists found <- st.everDiscovered ::
                  env.render(p.previous, p.previousApplied.routes + found) == env.render(p.Tried(), p.Routes()))
  {
    hide Generations, Files, Inv, Genuine, Faithful, WithStatuses, Locks, StoreKept;
    var p := st.procs[step.pid];
    HolderIs(st, step.pid);
    LosingStepShape(env, st, step);
    var next := Next(env, st, step);
    FinishShape(env, next, step.pid);
    SameFaith(env, p.previous, p.previousApplied.routes, st.everDiscovered, next.runtime);
  }

  lemma HolderIs(st: State, pid: nat)
    requires Locks(st) && pid in st.procs && HoldsSync(st.procs[pid].phase)
    ensures st.syncLock == Some(pid)
  {
  }

  lemma SameFaith(env: Env, cfg: Config, routes: seq<Route>, known: set<seq<Route>>, document: string)
    ensures Faithful(env, cfg, routes, known, document) <==>
            exists found <- known :: env.render(cfg, routes + found) == Some(document)
  {
  }

  lemma LosingStepShape(env: Env, st: State, step: Step)
    requires Safe(env, st) && Enabled(env, st, step) && LosesTrack(env, st, step)
    ensures var p := st.procs[step.pid];
            var next := Next(env, st, step);
            && At(next, step.pid, Failing) && next.cfg == p.previous && next.store == st.store
            && st.store.applied == p.previousApplied && next.everDiscovered == st.everDiscovered
            && Some(next.runtime) == env.render(p.Tried(), p.Routes()) && Inv(env.net, next.store)
  {
    hide Generations, Files, Inv, Genuine, Faithful, Locks, Edited;
    HolderIs(st, step.pid);
  }

  lemma FinishShape(env: Env, st: State, pid: nat)
    requires At(st, pid, Failing) && Inv(env.net, st.store)
    ensures Enabled(env, st, Finish(pid)) && Next(env, st, Finish(pid)) == FinishedState(st, pid, st.procs[pid])
    ensures var end := FinishedState(st, pid, st.procs[pid]);
            && end.syncLock.None? && end.runtime == st.runtime && end.cfg == st.cfg
            && end.store.applied == st.store.applied
            && end.everDiscovered == st.everDiscovered
  {
    hide Inv, WithStatuses, StoreKept;
    var p := st.procs[pid];
    if p.health.Some? {
      StatusKeepsStore(env, st.store, p.health.value);
      KeptStoreFacts(env, st.store, WithStatuses(st.store, p.health.value));
    }
  }

  // ---------- One synchronization, all or nothing ----------

  /** Since `pid` took the lock in `before` it still holds it, remembers that state and has not changed the files. */
  ghost predicate Holding(before: State, st: State, pid: nat) {
    && pid in before.procs && st.syncLock == Some(pid) && pid in st.procs
    && Remembers(before, before.procs[pid], st.procs[pid])
    && (st.procs[pid].request.Exclusive() && st.procs[pid].phase != Releasing && !st.torn ==> SameSettings(before, st))
  }

  predicate Remembers(before: State, p: Proc, now: Proc) {
    && now.request == p.request && now.candidate == p.candidate
    && now.previous == before.cfg && now.previousApplied == before.store.applied && now.runtimeBefore == before.runtime
  }

  predicate SameSettings(before: State, st: State) {
    && st.draft == before.draft && EffectiveSettings(st) == EffectiveSettings(before)
    && EffectiveCertificate(st) == EffectiveCertificate(before)
  }

  predicate LetsGo(pid: nat, step: Step) {
    step == Release(pid) || step == Finish(pid)
  }

  lemma AcquireHolds(env: Env, st: State, pid: nat)
    requires At(st, pid, Waiting) && st.syncLock.None?
    ensures Holding(st, Acquired(env, st, pid, st.procs[pid]), pid)
  {
  }

  lemma HoldingUntouched(before: State, st: State, next: State, pid: nat)
    requires Holding(before, st, pid) && next.syncLock == st.syncLock && pid in next.procs
    requires next.procs[pid] == st.procs[pid]
    requires st.procs[pid].request.Exclusive() ==>
               && next.settingsFile == st.settingsFile && next.certificateFile == st.certificateFile
               && next.draft == st.draft
               && next.served == st.served && next.torn == st.torn
    ensures Holding(before, next, pid)
  {
  }

  lemma ElsewhereHolds(env: Env, before: State, st: State, pid: nat, step: Step)
    requires Holding(before, st, pid) && Locks(st) && Enabled(env, st, step) && Elsewhere(step)
    ensures Holding(before, Next(env, st, step), pid)
  {
    hide Edited, Holding, NewDraft, NewProc, EffectiveSettings, SameFiles, HolderAside, Began, Checked, EnteredAzure,
      LeftAzure, SystemSaved;
    assert st.syncLock == Some(pid) && pid in st.procs by {
      HoldingBasics(before, st, pid);
    }
    ElsewhereShape(env, st, step);
    HolderAsideFacts(st, Next(env, st, step), pid);
    if !TouchesFiles(step) {
      OtherStepsKeepFiles(env, st, step);
      SameFilesFacts(st, Next(env, st, step));
    } else if step.Begin? {
      BeganFacts(st, step.pid, step.request);
    }
    HoldingUntouched(before, st, Next(env, st, step), pid);
  }

  lemma HoldingBasics(before: State, st: State, pid: nat)
    requires Holding(before, st, pid)
    ensures st.syncLock == Some(pid) && pid in st.procs
  {
  }

  lemma HolderAsideFacts(st: State, next: State, pid: nat)
    requires HolderAside(st, next) && st.syncLock == Some(pid)
    ensures next.syncLock == st.syncLock && pid in st.procs && pid in next.procs && next.procs[pid] == st.procs[pid]
  {
  }

  lemma SameFilesFacts(st: State, next: State)
    requires SameFiles(st, next)
    ensures next.settingsFile == st.settingsFile && next.certificateFile == st.certificateFile && next.draft == st.draft
    ensures next.served == st.served && next.torn == st.torn
  {
  }

  lemma BeganFacts(st: State, pid: nat, request: Request)
    ensures var next := Began(st, pid, request);
            && next.settingsFile == st.settingsFile && next.certificateFile == st.certificateFile
            && next.draft == st.draft
            && next.served == st.served && next.torn == st.torn
  {
    hide NewProc;
  }

  lemma FinishElsewhereHolds(before: State, st: State, pid: nat, other: nat)
    requires Holding(before, st, pid) && other != pid && At(st, other, Finishing)
    ensures Holding(before, FinishedState(st, other, st.procs[other]), pid)
  {
    hide WithStatuses, EffectiveSettings;
    HoldingUntouched(before, st, FinishedState(st, other, st.procs[other]), pid);
  }

  /** The holder's own steps before the commit move it along without forgetting. */
  lemma OwnStepRemembers(env: Env, st: State, step: Step)
    requires Enabled(env, st, step) && UnderLock(step) && !step.Commit?
    ensures var pid := step.pid;
            var next := Next(env, st, step);
            && pid in next.procs && st.procs[pid].phase != Releasing
            && next.procs[pid].previous == st.procs[pid].previous
            && next.procs[pid].previousApplied == st.procs[pid].previousApplied
            && next.procs[pid].runtimeBefore == st.procs[pid].runtimeBefore
  {
    hide Edited, AfterLoad, AfterRestore, Desired;
  }

  lemma OwnStepHolds(env: Env, before: State, st: State, step: Step)
    requires UnderLock(step) && !step.Commit? && Enabled(env, st, step) && Holding(before, st, step.pid)
    ensures Holding(before, Next(env, st, step), step.pid)
  {
    hide Enabled, Next, EffectiveSettings, EffectiveCertificate;
    OwnStepRemembers(env, st, step);
    UnderLockIsQuiet(env, st, step);
    OtherStepsKeepFiles(env, st, step);
    SameEffects(st, Next(env, st, step));
  }

  lemma SameEffects(st: State, next: State)
    requires next.settingsFile == st.settingsFile && next.certificateFile == st.certificateFile
    requires next.served == st.served
    ensures EffectiveSettings(next) == EffectiveSettings(st) && EffectiveCertificate(next) == EffectiveCertificate(st)
  {
  }

  /** A failed commit puts the files back unless a compensating save fails. */
  lemma FailedCommitKeepsSettings(st: State, p: Proc, saves: Saves)
    requires FilesOnly(st) && !CommitEffects(st, p, saves).1
    ensures var next := CommitEffects(st, p, saves).0;
            && next.served == st.served && next.draft == st.draft && (st.torn ==> next.torn)
            && (!next.torn ==>
                  EffectiveSettings(next) == EffectiveSettings(st)
                  && EffectiveCertificate(next) == EffectiveCertificate(st))
  {
    hide Confirm, SameLivePart;
  }

  lemma CommitHolds(env: Env, before: State, st: State, pid: nat, saves: Saves)
    requires At(st, pid, Committing) && Holding(before, st, pid) && FilesOnly(st)
    ensures Holding(before, CommittedState(st, pid, st.procs[pid], saves), pid)
  {
    hide CommitEffects, FilesOnly, EffectiveSettings, EffectiveCertificate;
    var p := st.procs[pid];
    CommitTouches(st, p, saves);
    if !CommitEffects(st, p, saves).1 {
      FailedCommitKeepsSettings(st, p, saves);
      SameEffects(CommitEffects(st, p, saves).0, CommittedState(st, pid, p, saves));
    }
  }

  lemma HoldingStep(env: Env, before: State, st: State, pid: nat, step: Step)
    requires Safe(env, st) && Holding(before, st, pid) && Enabled(env, st, step) && !LetsGo(pid, step)
    ensures Holding(before, Next(env, st, step), pid)
  {
    hide Edited, Holding, Generations, Runtime, Acquired, RuntimeRead, Prepared, Discovered, LoadedState,
      CommittedState, RestoredState, Released, FinishedState, RequestSound, FilesOnly, Began, SystemSaved, NewDraft,
      Checked, EnteredAzure, LeftAzure;
    HoldingBasics(before, st, pid);
    if Elsewhere(step) {
      ElsewhereHolds(env, before, st, pid, step);
    } else if step.Commit? {
      CommitHolds(env, before, st, pid, step.saves);
    } else if UnderLock(step) {
      OwnStepHolds(env, before, st, step);
    } else if step.Finish? {
      FinishElsewhereHolds(before, st, pid, step.pid);
    }
  }

  lemma {:induction false} HoldingThroughout(env: Env, st: State, pid: nat, steps: seq<Step>)
    requires Safe(env, st) && Enabled(env, st, Acquire(pid)) && Run(env, Next(env, st, Acquire(pid)), steps).Some?
    requires forall step <- steps :: !LetsGo(pid, step)
    ensures var end := Run(env, Next(env, st, Acquire(pid)), steps).value; Safe(env, end) && Holding(st, end, pid)
  {
    hide Safe, Holding, Enabled, Next, LetsGo;
    var first := Next(env, st, Acquire(pid));
    if steps == [] {
      SafeStep(env, st, Acquire(pid));
      assert Holding(st, first, pid) by {
        AcquireEnabled(env, st, pid);
        AcquireHolds(env, st, pid);
      }
    } else {
      var before := steps[..|steps| - 1];
      HoldingThroughout(env, st, pid, before);
      var mid := Run(env, first, before).value;
      SafeStep(env, mid, steps[|steps| - 1]);
      HoldingStep(env, st, mid, pid, steps[|steps| - 1]);
    }
  }

  lemma AcquireEnabled(env: Env, st: State, pid: nat)
    requires Enabled(env, st, Acquire(pid))
    ensures At(st, pid, Waiting) && st.syncLock.None?
    ensures Next(env, st, Acquire(pid)) == Acquired(env, st, pid, st.procs[pid])
  {
    hide Acquired;
  }

  /** What the invariants say of a synchronization that still holds the lock, seen from where it took it. */
  lemma HoldingMeaning(env: Env, st: State, pid: nat, steps: seq<Step>)
    requires Safe(env, st) && Enabled(env, st, Acquire(pid)) && Run(env, Next(env, st, Acquire(pid)), steps).Some?
    requires forall step <- steps :: !LetsGo(pid, step)
    ensures var end := Run(env, Next(env, st, Acquire(pid)), steps).value;
            At(end, pid, Failing) && end.procs[pid].restored ==>
              && end.runtime == st.runtime && end.cfg == st.cfg && end.served == st.served
              && end.store.applied == st.store.applied
              && (end.procs[pid].request.Exclusive() && !end.torn ==> SameSettings(st, end))
    ensures var end := Run(env, Next(env, st, Acquire(pid)), steps).value;
            At(end, pid, Releasing) ==>
              && var p := end.procs[pid];
              && end.cfg == end.served == (match p.candidate case Some(c) => c case None => st.cfg)
              && end.store.applied == p.snapshot && p.discovered in end.everDiscovered
              && env.render(end.cfg, end.store.applied.routes + p.discovered) == Some(end.runtime)
              && (!end.torn ==>
                    SameLivePart(EffectiveSettings(end), end.cfg) && EffectiveCertificate(end) == end.cfg.certificate)
  {
    hide Enabled, Next, Locks, Generations, Run, Inv, Faithful, RequestSound;
    HoldingThroughout(env, st, pid, steps);
    AcquireEnabled(env, st, pid);
    ServedWhenFree(env, st);
  }

  lemma ServedWhenFree(env: Env, st: State)
    requires Safe(env, st) && st.syncLock.None?
    ensures st.cfg == st.served
  {
    hide Locks, Generations, Files, Inv, Faithful;
  }
}
