/** The settings and certificate files under the protocol: they agree with what is served, and while an import
    is pending they still hold what it would replace. */
module ProtocolFiles {
  import opened Text
  import opened Routing
  import opened StoreSpec
  import opened Protocol
  import opened ProtocolSchedule

  predicate BeforeCommit(phase: Phase) {
    phase in {Waiting, Reading, Preparing, Discovering, Rendering, Committing}
  }

  /** Until it commits, a request still tries what the present draft, files and configuration say. */
  predicate RequestSound(st: State, p: Proc) {
    match p.request
    case Background => p.candidate.None?
    case Plain => p.candidate.None?
    case Apply => BeforeCommit(p.phase) ==>
      p.candidate == (match st.draft case Some(d) => Some(d.live) case None => None)
    case UpdateCertificate(certificate) =>
      BeforeCommit(p.phase) ==> st.draft.None? && p.candidate == Some(st.served.(certificate := certificate))
    case _ =>
      BeforeCommit(p.phase) ==>
        && st.draft.None? && p.candidate.Some? && p.toSave.Some?
        && p.candidate.value.certificate == st.served.certificate
        && (!st.torn ==> SameLivePart(p.toSave.value, p.candidate.value))
  }

  /** The sections of the configuration that take effect only with a restart. */
  predicate SameRest(a: Config, b: Config) {
    a.mode == b.mode && a.docker == b.docker && a.azure == b.azure && a.fixed == b.fixed
  }

  /** The files agree with the configuration served, and under a draft they hold what it recorded as previous. */
  ghost predicate FilesOnly(st: State) {
    && (!st.torn ==>
          SameLivePart(EffectiveSettings(st), st.served) && EffectiveCertificate(st) == st.served.certificate)
    && (st.draft.Some? ==>
          && SameLivePart(st.draft.value.settings, st.draft.value.live)
          && st.draft.value.live.certificate == st.draft.value.certificate
          && SameRest(st.draft.value.live, st.served)
          && (!st.torn ==> EffectiveSettings(st) == st.draft.value.previousSettings
                           && EffectiveCertificate(st) == st.draft.value.previousCertificate))
  }

  ghost predicate Files(st: State) {
    FilesOnly(st) && forall pid <- st.procs :: RequestSound(st, st.procs[pid])
  }

  /** Files, draft and served configuration stay, and processes only move on. */
  ghost predicate SameFiles(st: State, next: State) {
    && next.settingsFile == st.settingsFile && next.certificateFile == st.certificateFile && next.draft == st.draft
    && next.served == st.served && next.torn == st.torn
    && forall pid <- next.procs ::
         && pid in st.procs
         && next.procs[pid].request == st.procs[pid].request && next.procs[pid].candidate == st.procs[pid].candidate
         && next.procs[pid].toSave == st.procs[pid].toSave
         && (BeforeCommit(next.procs[pid].phase) ==> BeforeCommit(st.procs[pid].phase))
  }

  predicate TouchesFiles(step: Step) {
    step.StageImport? || step.SaveSystem? || step.Begin? || step.Commit?
  }

  lemma MovedOn(st: State, changed: State, pid: nat, p: Proc)
    requires pid in st.procs && changed.procs == st.procs && changed.settingsFile == st.settingsFile
    requires changed.certificateFile == st.certificateFile && changed.draft == st.draft && changed.served == st.served
    requires changed.torn == st.torn
    requires p.request == st.procs[pid].request && p.candidate == st.procs[pid].candidate
    requires p.toSave == st.procs[pid].toSave
    requires BeforeCommit(p.phase) ==> BeforeCommit(st.procs[pid].phase)
    ensures SameFiles(st, Put(changed, pid, p))
  {
  }

  lemma LoadKeepsFiles(env: Env, st: State, pid: nat, outcome: LoadOutcome)
    requires At(st, pid, Rendering)
    ensures SameFiles(st, LoadedState(env, st, pid, st.procs[pid], outcome))
  {
    hide SameFiles, AfterLoad, ProcAfterLoad;
    var p := st.procs[pid];
    LoadTouches(env, st, p, outcome);
    MovedOn(st, AfterLoad(env, st, p, outcome), pid, ProcAfterLoad(env, st, p, outcome));
  }

  lemma RestoreKeepsFiles(env: Env, st: State, pid: nat, outcome: LoadOutcome)
    requires At(st, pid, Restoring)
    ensures SameFiles(st, RestoredState(env, st, pid, st.procs[pid], outcome))
  {
    hide SameFiles, AfterRestore;
    var p := st.procs[pid];
    RestoreTouches(env, st, p, outcome);
    var back := AfterRestore(env, st, p, outcome);
    MovedOn(st, back, pid, p.(phase := Failing, restored := back.runtime == p.runtimeBefore));
  }

  lemma EarlyStepsKeepFiles(env: Env, st: State, pid: nat, ok: bool, found: Option<seq<Route>>)
    ensures At(st, pid, Waiting) ==> SameFiles(st, Acquired(env, st, pid, st.procs[pid]))
    ensures At(st, pid, Reading) ==> SameFiles(st, RuntimeRead(st, pid, st.procs[pid], ok))
    ensures At(st, pid, Preparing) ==> SameFiles(st, Prepared(st, pid, st.procs[pid]))
    ensures At(st, pid, Discovering) ==> SameFiles(st, Discovered(env, st, pid, st.procs[pid], found))
  {
  }

  lemma LateStepsKeepFiles(env: Env, st: State, pid: nat, statuses: Option<seq<Status>>)
    requires pid in st.procs
    ensures SameFiles(st, Released(st, pid, st.procs[pid]))
    ensures SameFiles(st, Checked(env, st, pid, st.procs[pid], statuses))
    ensures SameFiles(st, LeftAzure(st, pid, st.procs[pid]))
  {
    hide SameFiles;
    var p := st.procs[pid];
    MovedOn(st, st.(syncLock := None), pid, p.(phase := Checking));
    MovedOn(st, st, pid, Checked(env, st, pid, p, statuses).procs[pid]);
    MovedOn(st, st.(azureLock := None), pid, p.(phase := Finishing));
  }

  lemma FinishKeepsFiles(st: State, pid: nat)
    requires pid in st.procs
    ensures SameFiles(st, FinishedState(st, pid, st.procs[pid]))
  {
    hide WithStatuses;
  }

  lemma AzureKeepsFiles(st: State, pid: nat)
    requires pid in st.procs
    ensures SameFiles(st, EnteredAzure(st, pid, st.procs[pid]))
  {
    hide SameFiles;
    var next := EnteredAzure(st, pid, st.procs[pid]);
    MovedOn(st, next.(procs := st.procs), pid, next.procs[pid]);
  }

  lemma OtherStepsKeepFiles(env: Env, st: State, step: Step)
    requires Enabled(env, st, step) && !TouchesFiles(step)
    ensures SameFiles(st, Next(env, st, step))
  {
    hide Edited, SameFiles, Acquired, RuntimeRead, Prepared, Discovered, LoadedState, CommittedState, RestoredState,
      Released, Checked, EnteredAzure, LeftAzure, FinishedState;
    match step
    case Edit(next) => NothingMoved(st, Next(env, st, step));
    case Acquire(pid) => EarlyStepsKeepFiles(env, st, pid, true, None);
    case ReadRuntime(pid, ok) => EarlyStepsKeepFiles(env, st, pid, ok, None);
    case Prepare(pid) => EarlyStepsKeepFiles(env, st, pid, true, None);
    case Discover(pid, found) => EarlyStepsKeepFiles(env, st, pid, true, found);
    case Load(pid, outcome) => LoadKeepsFiles(env, st, pid, outcome);
    case Restore(pid, outcome) => RestoreKeepsFiles(env, st, pid, outcome);
    case Release(pid) => LateStepsKeepFiles(env, st, pid, None);
    case Check(pid, statuses) => LateStepsKeepFiles(env, st, pid, statuses);
    case EnterAzure(pid) => AzureKeepsFiles(st, pid);
    case LeaveAzure(pid) => LateStepsKeepFiles(env, st, pid, None);
    case Finish(pid) => FinishKeepsFiles(st, pid);
    case Abandon(pid) => NothingMoved(st, Next(env, st, step));
  }

  lemma NothingMoved(st: State, next: State)
    requires next == st.(store := next.store, cancelled := next.cancelled)
    ensures SameFiles(st, next)
  {
  }

  lemma SameFilesKeep(st: State, next: State)
    requires Files(st) && SameFiles(st, next)
    ensures Files(next)
  {
    hide SameLivePart;
  }

  // ---------- Steps that write ----------

  /** No request is under way while the mutation lock is free, so nothing in flight still relies on the files. */
  lemma Unrelated(st: State, p: Proc)
    requires RequestSound(st, p) && !p.request.Exclusive()
    ensures forall next: State :: RequestSound(next, p)
  {
  }

  lemma StageKeepsFiles(st: State, settings: Settings, certificate: string, store: StoreState)
    requires Files(st) && Locks(st) && st.mutationLock.None?
    ensures Files(st.(store := store, draft := Some(NewDraft(st, settings, certificate))))
  {
    var next := st.(store := store, draft := Some(NewDraft(st, settings, certificate)));
    forall pid <- st.procs ensures RequestSound(next, st.procs[pid]) {
      Unrelated(st, st.procs[pid]);
    }
  }

  lemma SaveSystemKeepsFiles(st: State, mode: string, docker: bool, azure: string, ok: bool)
    requires Files(st) && Locks(st) && st.mutationLock.None? && st.draft.None?
    ensures Files(SystemSaved(st, mode, docker, azure, ok))
  {
    forall pid <- st.procs ensures RequestSound(SystemSaved(st, mode, docker, azure, ok), st.procs[pid]) {
      Unrelated(st, st.procs[pid]);
    }
  }

  lemma NewProcSound(st: State, request: Request)
    requires Files(st) && (request.Exclusive() && !request.Apply? ==> st.draft.None?)
    ensures forall lock: Option<nat>, procs: map<nat, Proc> ::
              RequestSound(st.(mutationLock := lock, procs := procs), NewProc(st, request))
  {
  }

  lemma BeginKeepsFiles(st: State, pid: nat, request: Request)
    requires Files(st) && Locks(st) && pid !in st.procs && (request.Exclusive() ==> st.mutationLock.None?)
    requires request.Exclusive() && !request.Apply? ==> st.draft.None?
    ensures Files(Began(st, pid, request))
  {
    hide NewProc, SameLivePart;
    NewProcSound(st, request);
    var next := Began(st, pid, request);
    forall q <- next.procs ensures RequestSound(next, next.procs[q]) {
      if q != pid {
        assert RequestSound(st, st.procs[q]);
      }
    }
  }

  lemma PersistKeepsFiles(st: State, snapshot: Snapshot, saves: Saves)
    requires FilesOnly(st)
    ensures FilesOnly(PersistImport(st, snapshot, saves).0)
  {
    hide Confirm;
  }

  lemma EffectsKeepFiles(st: State, p: Proc, saves: Saves)
    requires FilesOnly(st) && RequestSound(st, p) && BeforeCommit(p.phase)
    ensures FilesOnly(CommitEffects(st, p, saves).0)
  {
    hide Confirm, PersistImport, FilesOnly;
    match p.request
    case Apply => PersistKeepsFiles(st, p.snapshot, saves);
    case Background =>
    case Plain => SameFilesOnly(st, CommitEffects(st, p, saves).0);
    case UpdateCertificate(certificate) => CertificateKeepsFiles(st, p, certificate, saves);
    case _ => SettingsKeepFiles(st, p, saves);
  }

  lemma SameFilesOnly(st: State, next: State)
    requires FilesOnly(st) && next == st.(store := next.store)
    ensures FilesOnly(next)
  {
  }

  lemma CertificateKeepsFiles(st: State, p: Proc, certificate: string, saves: Saves)
    requires FilesOnly(st) && RequestSound(st, p) && BeforeCommit(p.phase)
    requires p.request == UpdateCertificate(certificate)
    ensures FilesOnly(CommitEffects(st, p, saves).0)
  {
  }

  lemma SettingsKeepFiles(st: State, p: Proc, saves: Saves)
    requires FilesOnly(st) && RequestSound(st, p) && BeforeCommit(p.phase)
    requires (p.request.UpdateSecurity? || p.request.RotateToken?)
    ensures FilesOnly(CommitEffects(st, p, saves).0)
  {
  }

  lemma CommitKeepsFiles(st: State, pid: nat, saves: Saves)
    requires Files(st) && Locks(st) && At(st, pid, Committing)
    ensures Files(CommittedState(st, pid, st.procs[pid], saves))
  {
    hide CommitEffects, FilesOnly, RequestSound, CommittedState;
    var p := st.procs[pid];
    EffectsKeepFiles(st, p, saves);
    CommitTouches(st, p, saves);
    NonExclusiveKeepsFiles(st, p, saves);
    var next := CommittedState(st, pid, p, saves);
    CommittedShape(st, pid, saves);
    forall q <- next.procs ensures RequestSound(next, next.procs[q]) {
      assert RequestSound(st, st.procs[q]);
      if q != pid {
        if st.procs[q].request.Exclusive() {
          SameRequestSound(st, next, st.procs[q]);
        } else {
          Unrelated(st, st.procs[q]);
        }
      } else {
        CommittedRequestSound(st, next, p, next.procs[q]);
      }
    }
  }

  lemma CommittedShape(st: State, pid: nat, saves: Saves)
    requires At(st, pid, Committing)
    ensures var next := CommittedState(st, pid, st.procs[pid], saves);
            var effects := CommitEffects(st, st.procs[pid], saves).0;
            && next.procs == effects.procs[pid := next.procs[pid]]
            && next == effects.(procs := next.procs, astray := next.astray)
            && (next.procs[pid] == st.procs[pid].(phase := Releasing)
                || next.procs[pid] == st.procs[pid].(phase := Restoring))
            && (FilesOnly(effects) ==> FilesOnly(next))
  {
    hide CommitEffects;
  }

  lemma SameRequestSound(st: State, next: State, p: Proc)
    requires RequestSound(st, p) && next.draft == st.draft && next.served == st.served && next.torn == st.torn
    ensures RequestSound(next, p)
  {
    hide SameLivePart;
  }

  lemma CommittedRequestSound(st: State, next: State, p: Proc, moved: Proc)
    requires RequestSound(st, p) && moved == p.(phase := moved.phase) && !BeforeCommit(moved.phase)
    ensures RequestSound(next, moved)
  {
    hide SameLivePart;
  }

  lemma NonExclusiveKeepsFiles(st: State, p: Proc, saves: Saves)
    ensures !p.request.Exclusive() ==>
              var next := CommitEffects(st, p, saves).0;
              next.draft == st.draft && next.served == st.served && next.torn == st.torn
  {
    hide Confirm, PersistImport;
  }

  lemma FilesKept(env: Env, st: State, step: Step)
    requires Files(st) && Locks(st) && Enabled(env, st, step)
    ensures Files(Next(env, st, step))
  {
    hide Edited, Files, Locks, SameFiles, Began, CommittedState, SystemSaved, NewDraft;
    match step
    case StageImport(settings, certificate, store) => StageKeepsFiles(st, settings, certificate, store);
    case SaveSystem(mode, docker, azure, ok) => SaveSystemKeepsFiles(st, mode, docker, azure, ok);
    case Begin(pid, request) => BeginKeepsFiles(st, pid, request);
    case Commit(pid, saves) => CommitKeepsFiles(st, pid, saves);
    case _ =>
      OtherStepsKeepFiles(env, st, step);
      SameFilesKeep(st, Next(env, st, step));
  }
}
