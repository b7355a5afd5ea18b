/** The runtime under the protocol: what runs is a rendering of the applied routes, drafts never run, and a
    failed synchronization puts back what it found. */
module ProtocolRuntime {
  import opened Text
  import opened Routing
  import opened StoreSpec
  import opened Protocol
  import opened ProtocolSchedule
  import opened ProtocolFiles

  /** The document renders these routes followed by what some discovery has found. */
  predicate Faithful(env: Env, cfg: Config, routes: seq<Route>, known: set<seq<Route>>, document: string) {
    exists found <- known :: env.render(cfg, routes + found) == Some(document)
  }

  /** A snapshot taken under the lock and not overtaken by another confirmation. */
  ghost predicate SnapshotOk(env: Env, st: State, p: Proc) {
    && Genuine(env.net, st.store, p.snapshot)
    && st.store.applied.revision <= p.snapshot.revision <= st.store.revision
    && (p.request.KeepsPendingRoutes() ==> p.snapshot == st.store.applied)
  }

  /** What the holder of the lock captured is still so until it commits. */
  ghost predicate Captured(env: Env, st: State, p: Proc) {
    && p.previous == st.served && p.previousApplied == st.store.applied && p.previousDiscovered in st.everDiscovered
    && (!st.astray ==> Faithful(env, p.previous, p.previousApplied.routes, st.everDiscovered, p.runtimeBefore))
    && (p.read == "" || p.read == p.runtimeBefore)
    && (p.candidate.None? ==> p.read == "")
    && (p.candidate.Some? && env.hasReader && p.phase != Reading && p.phase != Failing ==> p.read == p.runtimeBefore)
  }

  ghost predicate HolderOk(env: Env, st: State, p: Proc) {
    match p.phase
    case Reading => Captured(env, st, p) && st.cfg == p.previous && st.runtime == p.runtimeBefore && p.candidate.Some?
    case Preparing => Captured(env, st, p) && st.cfg == p.previous && st.runtime == p.runtimeBefore
    case Discovering => Captured(env, st, p) && SnapshotOk(env, st, p) && st.cfg == p.Tried()
                        && st.runtime == p.runtimeBefore
    case Rendering =>
      && p.discovered in st.everDiscovered && Captured(env, st, p) && SnapshotOk(env, st, p)
      && st.cfg == p.Tried() && st.runtime == p.runtimeBefore
    case Committing =>
      p.discovered in st.everDiscovered &&
      Captured(env, st, p) && SnapshotOk(env, st, p) && st.cfg == p.Tried()
      && env.render(st.cfg, p.Routes()) == Some(st.runtime)
    case Restoring =>
      && p.discovered in st.everDiscovered && Captured(env, st, p) && st.cfg == p.Tried()
      && (st.runtime == p.runtimeBefore || env.render(st.cfg, p.Routes()) == Some(st.runtime))
    case Failing =>
      && st.cfg == p.previous == st.served && p.previousApplied == st.store.applied
      && (!st.astray ==> Faithful(env, st.cfg, st.store.applied.routes, st.everDiscovered, st.runtime))
      && (p.restored ==> st.runtime == p.runtimeBefore)
    case Releasing =>
      && st.cfg == st.served == p.Tried() && !st.astray && st.store.applied == p.snapshot
      && p.discovered in st.everDiscovered
      && env.render(st.cfg, p.Routes()) == Some(st.runtime)
    case _ => false
  }

  /** The store is sound, and what runs is accounted for whether or not a synchronization is under way. */
  ghost predicate Runtime(env: Env, st: State) {
    && Inv(env.net, st.store) && [] in st.everDiscovered && st.lastDiscovered in st.everDiscovered
    && match st.syncLock
       case None => st.cfg == st.served
                    && (!st.astray ==> Faithful(env, st.cfg, st.store.applied.routes, st.everDiscovered, st.runtime))
       case Some(pid) => pid in st.procs && HolderOk(env, st, st.procs[pid])
  }

  // ---------- Steps that leave the holder alone ----------

  ghost predicate StoreKept(env: Env, s: StoreState, next: StoreState) {
    && Inv(env.net, next) && next.applied == s.applied && s.revision <= next.revision
    && (next.revision == s.revision ==> WithoutErrors(next.resources) == WithoutErrors(s.resources))
  }

  lemma EditKeepsStore(env: Env, s: StoreState, next: StoreState)
    requires Edited(env.net, s, next)
    ensures StoreKept(env, s, next)
  {
    hide Inv, WithoutErrors;
  }

  lemma StatusKeepsStore(env: Env, s: StoreState, statuses: seq<Status>)
    requires Inv(env.net, s)
    ensures StoreKept(env, s, WithStatuses(s, statuses))
  {
    hide WellFormed, RuleWithStatus, RouteWithStatus, CompileAll;
    StatusKeepsInvariant(env.net, s, statuses);
    StatusOnlyChangesErrors(env.net, s.resources, statuses, WithStatuses(s, statuses).resources);
  }

  lemma SameStoreKept(env: Env, s: StoreState)
    requires Inv(env.net, s)
    ensures StoreKept(env, s, s)
  {
    hide Inv, WithoutErrors;
  }

  lemma SnapshotStaysOk(env: Env, st: State, next: State, p: Proc)
    requires SnapshotOk(env, st, p) && StoreKept(env, st.store, next.store)
    ensures SnapshotOk(env, next, p)
  {
    hide Inv, Consistent, WithoutErrors;
  }

  lemma HolderUnaffected(env: Env, st: State, next: State)
    requires Runtime(env, st) && StoreKept(env, st.store, next.store)
    requires HolderAside(st, next)
    ensures Runtime(env, next)
  {
    hide Inv, SnapshotOk, Faithful;
    if st.syncLock.Some? {
      var p := st.procs[st.syncLock.value];
      if SnapshotOk(env, st, p) {
        SnapshotStaysOk(env, st, next, p);
      }
    }
  }

  /** Edits, imports and everything a synchronization does outside the lock. */
  predicate Elsewhere(step: Step) {
    FromOutside(step) || step.Begin? || step.Check? || step.EnterAzure? || step.LeaveAzure? || step.Abandon?
  }

  ghost predicate HolderAside(st: State, next: State) {
    && next.syncLock == st.syncLock && next.runtime == st.runtime && next.cfg == st.cfg && next.served == st.served
    && next.astray == st.astray
    && next.everDiscovered == st.everDiscovered && next.lastDiscovered == st.lastDiscovered
    && (st.syncLock.Some? ==>
          && st.syncLock.value in st.procs && st.syncLock.value in next.procs
          && next.procs[st.syncLock.value] == st.procs[st.syncLock.value])
  }

  lemma OtherProcAside(st: State, changed: State, pid: nat, p: Proc)
    requires st.syncLock.Some? ==> st.syncLock.value in st.procs && st.syncLock.value != pid
    requires changed ==
             st.(azureLock := changed.azureLock, mutationLock := changed.mutationLock,
             azureStarts := changed.azureStarts)
    ensures HolderAside(st, Put(changed, pid, p))
  {
  }

  lemma NotTheHolder(st: State, pid: nat)
    requires Locks(st) && (pid !in st.procs || !HoldsSync(st.procs[pid].phase))
    ensures st.syncLock.Some? ==> st.syncLock.value in st.procs && st.syncLock.value != pid
  {
  }

  lemma LateStepsAside(env: Env, st: State, step: Step)
    requires Enabled(env, st, step) && Locks(st)
    requires step.Check? || step.EnterAzure? || step.LeaveAzure?
    ensures HolderAside(st, Next(env, st, step)) && Next(env, st, step).store == st.store
  {
    hide HolderAside, Locks;
    var next := Next(env, st, step);
    NotTheHolder(st, step.pid);
    OtherProcAside(st, next.(procs := st.procs), step.pid, next.procs[step.pid]);
  }

  lemma BeginAside(st: State, pid: nat, request: Request)
    requires Locks(st) && pid !in st.procs
    ensures HolderAside(st, Began(st, pid, request)) && Began(st, pid, request).store == st.store
  {
    hide HolderAside, Locks, NewProc;
    var next := Began(st, pid, request);
    NotTheHolder(st, pid);
    OtherProcAside(st, next.(procs := st.procs), pid, next.procs[pid]);
  }

  lemma SystemSavedAside(st: State, mode: string, docker: bool, azure: string, ok: bool)
    requires Locks(st)
    ensures HolderAside(st, SystemSaved(st, mode, docker, azure, ok))
    ensures SystemSaved(st, mode, docker, azure, ok).store == st.store
  {
    hide EffectiveSettings;
  }

  lemma NothingMovedAside(st: State, next: State)
    requires Locks(st)
    ensures next == st.(store := next.store, draft := next.draft, cancelled := next.cancelled) ==> HolderAside(st, next)
  {
  }

  lemma ElsewhereShape(env: Env, st: State, step: Step)
    requires Enabled(env, st, step) && Elsewhere(step) && Locks(st)
    ensures HolderAside(st, Next(env, st, step))
    ensures step.Edit? || step.StageImport? || Next(env, st, step).store == st.store
  {
    hide Edited, NewDraft, EffectiveSettings, Began, Checked, EnteredAzure, LeftAzure, SystemSaved, HolderAside, Locks;
    NothingMovedAside(st, Next(env, st, step));
    match step
    case SaveSystem(mode, docker, azure, ok) => SystemSavedAside(st, mode, docker, azure, ok);
    case Begin(pid, request) => BeginAside(st, pid, request);
    case Check(_, _) => LateStepsAside(env, st, step);
    case EnterAzure(_) => LateStepsAside(env, st, step);
    case LeaveAzure(_) => LateStepsAside(env, st, step);
    case _ =>
  }

  lemma ElsewhereKeepsRuntime(env: Env, st: State, step: Step)
    requires Runtime(env, st) && Locks(st) && Enabled(env, st, step) && Elsewhere(step)
    ensures Runtime(env, Next(env, st, step))
  {
    hide Edited, Inv, HolderOk, StoreKept, Locks;
    ElsewhereShape(env, st, step);
    match step {
      case Edit(next) => EditKeepsStore(env, st.store, next);
      case StageImport(_, _, next) => EditKeepsStore(env, st.store, next);
      case _ => SameStoreKept(env, st.store);
    }
    HolderUnaffected(env, st, Next(env, st, step));
  }

  lemma SoundStore(env: Env, st: State)
    requires Runtime(env, st)
    ensures Inv(env.net, st.store)
  {
    hide Inv, HolderOk;
  }

  lemma FinishAside(st: State, pid: nat)
    requires Locks(st) && At(st, pid, Finishing)
    ensures HolderAside(st, FinishedState(st, pid, st.procs[pid]))
  {
    hide WithStatuses;
  }

  lemma FinishOutsideKeepsRuntime(env: Env, st: State, pid: nat)
    requires Runtime(env, st) && Locks(st) && At(st, pid, Finishing)
    ensures Runtime(env, FinishedState(st, pid, st.procs[pid]))
  {
    hide Inv, HolderOk, StoreKept, WithStatuses, Locks, HolderAside, Runtime;
    SoundStore(env, st);
    FinishAside(st, pid);
    var p := st.procs[pid];
    SameStoreKept(env, st.store);
    if p.health.Some? {
      StatusKeepsStore(env, st.store, p.health.value);
    }
    HolderUnaffected(env, st, FinishedState(st, pid, p));
  }

  // ---------- Steps of the holder ----------

  lemma AcquireKeepsRuntime(env: Env, st: State, pid: nat)
    requires Runtime(env, st) && At(st, pid, Waiting) && st.syncLock.None? && RequestSound(st, st.procs[pid])
    ensures Runtime(env, Acquired(env, st, pid, st.procs[pid]))
  {
    hide Inv, Faithful;
  }

  lemma ReadKeepsRuntime(env: Env, st: State, pid: nat, ok: bool)
    requires Runtime(env, st) && At(st, pid, Reading) && st.syncLock == Some(pid)
    ensures Runtime(env, RuntimeRead(st, pid, st.procs[pid], ok))
  {
    hide Inv, Faithful;
  }

  lemma PrepareKeepsRuntime(env: Env, st: State, pid: nat)
    requires Runtime(env, st) && At(st, pid, Preparing) && st.syncLock == Some(pid)
    ensures Runtime(env, Prepared(st, pid, st.procs[pid]))
  {
    hide Faithful, Consistent, Encode;
  }

  lemma DiscoverKeepsRuntime(env: Env, st: State, pid: nat, found: Option<seq<Route>>)
    requires Runtime(env, st) && At(st, pid, Discovering) && st.syncLock == Some(pid)
    ensures Runtime(env, Discovered(env, st, pid, st.procs[pid], found))
  {
    hide Inv, Genuine, Faithful;
    var p := st.procs[pid];
    MoreIsKnown(env, p.previous, p.previousApplied.routes, st.everDiscovered,
                Discovered(env, st, pid, p, found).everDiscovered, p.runtimeBefore);
  }

  /** A load whose acknowledgement is lost leaves a rendering of the applied routes when it loaded no others. */
  lemma UnacknowledgedKeepsRuntime(env: Env, st: State, pid: nat)
    requires Runtime(env, st) && At(st, pid, Rendering) && st.syncLock == Some(pid) && st.procs[pid].candidate.None?
    ensures Runtime(env, LoadedState(env, st, pid, st.procs[pid], LoadedUnacknowledged))
  {
    hide Inv, Genuine, Faithful;
    var p := st.procs[pid];
    if p.request.KeepsPendingRoutes() && env.render(st.cfg, p.Routes()).Some? {
      RenderedIsFaithful(env, st.cfg, p.snapshot.routes, p.discovered, st.everDiscovered,
                         env.render(st.cfg, p.Routes()).value);
    }
  }

  lemma LoadKeepsRuntime(env: Env, st: State, pid: nat, outcome: LoadOutcome)
    requires Runtime(env, st) && At(st, pid, Rendering) && st.syncLock == Some(pid)
    ensures Runtime(env, LoadedState(env, st, pid, st.procs[pid], outcome))
  {
    hide Inv, Genuine, Faithful, Runtime, LoadedState;
    if st.procs[pid].candidate.None? && outcome.LoadedUnacknowledged? {
      UnacknowledgedKeepsRuntime(env, st, pid);
    } else {
      AnsweredLoadKeepsRuntime(env, st, pid, outcome);
    }
  }

  lemma AnsweredLoadKeepsRuntime(env: Env, st: State, pid: nat, outcome: LoadOutcome)
    requires Runtime(env, st) && At(st, pid, Rendering) && st.syncLock == Some(pid)
    requires st.procs[pid].candidate.Some? || !outcome.LoadedUnacknowledged?
    ensures Runtime(env, LoadedState(env, st, pid, st.procs[pid], outcome))
  {
    hide Inv, Genuine, Faithful;
  }

  lemma RestoreKeepsRuntime(env: Env, st: State, pid: nat, outcome: LoadOutcome)
    requires Runtime(env, st) && At(st, pid, Restoring) && st.syncLock == Some(pid)
    ensures Runtime(env, RestoredState(env, st, pid, st.procs[pid], outcome))
  {
    hide Inv, Genuine, Faithful;
    var p := st.procs[pid];
    if p.read == "" && RollbackDocument(env, p).Some? {
      RenderedIsFaithful(env, p.previous, p.previousApplied.routes, p.previousDiscovered, st.everDiscovered,
                         RollbackDocument(env, p).value);
    }
  }

  lemma MoreIsKnown(
    env: Env, cfg: Config, routes: seq<Route>, known: set<seq<Route>>, more: set<seq<Route>>, document: string)
    requires known <= more
    ensures Faithful(env, cfg, routes, known, document) ==> Faithful(env, cfg, routes, more, document)
  {
  }

  lemma RenderedIsFaithful(
    env: Env, cfg: Config, routes: seq<Route>, found: seq<Route>, known: set<seq<Route>>, document: string)
    requires env.render(cfg, routes + found) == Some(document) && found in known
    ensures Faithful(env, cfg, routes, known, document)
  {
  }

  lemma ReleaseKeepsRuntime(env: Env, st: State, pid: nat)
    requires Runtime(env, st) && At(st, pid, Releasing) && st.syncLock == Some(pid)
    ensures Runtime(env, Released(st, pid, st.procs[pid]))
  {
    hide Inv, Genuine;
  }

  lemma FinishFailedKeepsRuntime(env: Env, st: State, pid: nat)
    requires Runtime(env, st) && At(st, pid, Failing) && st.syncLock == Some(pid)
    ensures Runtime(env, FinishedState(st, pid, st.procs[pid]))
  {
    hide StoreKept, Inv, WithStatuses, Faithful;
    var p := st.procs[pid];
    SameStoreKept(env, st.store);
    if p.health.Some? {
      StatusKeepsStore(env, st.store, p.health.value);
    }
    KeptStoreFacts(env, st.store, FinishedState(st, pid, p).store);
  }

  lemma KeptStoreFacts(env: Env, s: StoreState, next: StoreState)
    requires StoreKept(env, s, next)
    ensures Inv(env.net, next) && next.applied == s.applied
  {
    hide Inv;
  }

  // ---------- The commit ----------

  /** Under the protocol the guard of MarkApplied never refuses: only a failing write can. */
  lemma NeverStale(env: Env, st: State, pid: nat, ok: bool)
    requires Runtime(env, st) && At(st, pid, Committing) && st.syncLock == Some(pid)
    ensures Confirm(st.store, st.procs[pid].snapshot, ok) ==
            if st.store.persistent && !ok then None else Some(Applied(st.store, st.procs[pid].snapshot))
  {
    hide Inv, Genuine, Faithful;
  }

  lemma ConfirmKeepsStore(env: Env, st: State, p: Proc, ok: bool)
    requires Inv(env.net, st.store) && SnapshotOk(env, st, p) && Confirm(st.store, p.snapshot, ok).Some?
    ensures var next := Confirm(st.store, p.snapshot, ok).value; Inv(env.net, next) && next.applied == p.snapshot
  {
    hide Inv, Genuine;
    ApplyingKeepsInvariant(env.net, st.store, p.snapshot);
  }

  /** A commit that fails changes nothing the runtime depends on; one that succeeds confirms the snapshot that was
      loaded and serves the configuration that was tried. */
  lemma CommitMeaning(env: Env, st: State, p: Proc, saves: Saves)
    requires Inv(env.net, st.store) && SnapshotOk(env, st, p) && RequestSound(st, p) && p.phase == Committing
    requires st.cfg == p.Tried() && p.previous == st.served
    ensures var (next, ok) := CommitEffects(st, p, saves);
            && (!ok ==> next.cfg == st.cfg && next.served == st.served && next.store == st.store)
            && (ok ==> next.cfg == next.served == st.cfg && next.store.applied == p.snapshot && Inv(env.net, next.store)
                       && next.store.resources == st.store.resources && next.store.revision == st.store.revision)
  {
    hide Inv, SnapshotOk, SameLivePart, EffectiveSettings;
    match p.request
    case Plain => PlainCommitMeaning(env, st, p, saves);
    case Apply => ApplyCommitMeaning(env, st, p, saves);
    case _ => KeptSnapshot(env, st, p);
  }

  lemma KeptSnapshot(env: Env, st: State, p: Proc)
    requires SnapshotOk(env, st, p) && p.request.KeepsPendingRoutes()
    ensures st.store.applied == p.snapshot
  {
    hide Genuine;
  }

  lemma ConfirmShape(s: StoreState, snapshot: Snapshot, ok: bool)
    ensures Confirm(s, snapshot, ok).Some? ==>
              Confirm(s, snapshot, ok).value.resources == s.resources
              && Confirm(s, snapshot, ok).value.revision == s.revision
  {
    hide Encode;
  }

  lemma PlainCommitMeaning(env: Env, st: State, p: Proc, saves: Saves)
    requires Inv(env.net, st.store) && SnapshotOk(env, st, p) && p.request == Plain && p.candidate.None?
    requires st.cfg == p.Tried() && p.previous == st.served
    ensures var (next, ok) := CommitEffects(st, p, saves);
            && (!ok ==> next == st)
            && (ok ==> next.cfg == next.served == st.cfg && next.store.applied == p.snapshot && Inv(env.net, next.store)
                       && next.store.resources == st.store.resources && next.store.revision == st.store.revision)
  {
    hide Inv, SnapshotOk, Confirm;
    ConfirmShape(st.store, p.snapshot, saves.store);
    if Confirm(st.store, p.snapshot, saves.store).Some? {
      ConfirmKeepsStore(env, st, p, saves.store);
    }
  }

  lemma ApplyCommitMeaning(env: Env, st: State, p: Proc, saves: Saves)
    requires Inv(env.net, st.store) && SnapshotOk(env, st, p) && p.request == Apply
    requires p.candidate == (match st.draft case Some(d) => Some(d.live) case None => None)
    requires st.cfg == p.Tried() && p.previous == st.served
    ensures var (next, ok) := CommitEffects(st, p, saves);
            && (!ok ==> next.cfg == st.cfg && next.served == st.served && next.store == st.store)
            && (ok ==> next.cfg == next.served == st.cfg && next.store.applied == p.snapshot && Inv(env.net, next.store)
                       && next.store.resources == st.store.resources && next.store.revision == st.store.revision)
  {
    hide Inv, SnapshotOk, Confirm;
    ConfirmShape(st.store, p.snapshot, saves.store);
    if Confirm(st.store, p.snapshot, saves.store).Some? {
      ConfirmKeepsStore(env, st, p, saves.store);
    }
  }

  lemma CommitKeepsRuntime(env: Env, st: State, pid: nat, saves: Saves)
    requires Runtime(env, st) && At(st, pid, Committing) && st.syncLock == Some(pid) && RequestSound(st, st.procs[pid])
    ensures Runtime(env, CommittedState(st, pid, st.procs[pid], saves))
  {
    hide Inv, SnapshotOk, CommitEffects, RequestSound, Faithful;
    var p := st.procs[pid];
    CommitMeaning(env, st, p, saves);
    CommitTouches(st, p, saves);
  }

  lemma RuntimeKept(env: Env, st: State, step: Step)
    requires Runtime(env, st) && Locks(st) && Files(st) && Enabled(env, st, step)
    ensures Runtime(env, Next(env, st, step))
  {
    hide Edited, Runtime, RequestSound, FilesOnly, Acquired, RuntimeRead, Prepared, Discovered, LoadedState,
      CommittedState, RestoredState, Released, FinishedState;
    if Elsewhere(step) {
      ElsewhereKeepsRuntime(env, st, step);
    } else {
      match step
      case Acquire(pid) => AcquireKeepsRuntime(env, st, pid);
      case ReadRuntime(pid, ok) => ReadKeepsRuntime(env, st, pid, ok);
      case Prepare(pid) => PrepareKeepsRuntime(env, st, pid);
      case Discover(pid, found) => DiscoverKeepsRuntime(env, st, pid, found);
      case Load(pid, outcome) => LoadKeepsRuntime(env, st, pid, outcome);
      case Commit(pid, saves) => CommitKeepsRuntime(env, st, pid, saves);
      case Restore(pid, outcome) => RestoreKeepsRuntime(env, st, pid, outcome);
      case Release(pid) => ReleaseKeepsRuntime(env, st, pid);
      case Finish(pid) =>
        if st.procs[pid].phase == Failing {
          FinishFailedKeepsRuntime(env, st, pid);
        } else {
          FinishOutsideKeepsRuntime(env, st, pid);
        }
    }
  }
}
