/** What each request asks for, told by the values it leaves served and on file, and that a request which commits gets
    it whatever happens in between. */
module ProtocolRequests {
  import opened Text
  import opened Routing
  import opened StoreSpec
  import opened Protocol
  import opened ProtocolSchedule
  import opened ProtocolFiles
  import opened ProtocolRuntime
  import opened ProtocolSafety

  predicate SameSecrets(a: Auth, b: Auth) {
    a.adminToken == b.adminToken && a.adminTokens == b.adminTokens
  }

  predicate SameSwitches(a: Auth, b: Auth) {
    a.required == b.required && a.allowBearer == b.allowBearer && a.allowAdminHeader == b.allowAdminHeader
  }

  predicate SameHeader(a: Auth, b: Auth) {
    a.headerName == b.headerName && a.headerValue == b.headerValue
  }

  predicate Secured(a: Auth, was: Auth, bearer: bool, header: bool) {
    && a.allowBearer == bearer && a.allowAdminHeader == header
    && a.required == was.required && SameSecrets(a, was) && SameHeader(a, was)
  }

  predicate Rotated(a: Auth, was: Auth, token: string) {
    a.adminToken == token && a.adminTokens == [] && SameSwitches(a, was) && SameHeader(a, was)
  }

  /** The configuration that a request arriving in state `st` asks for; all that it does not name stays. */
  predicate Requested(st: State, request: Request, c: Config) {
    match request
    case Background => c == st.served
    case Plain => c == st.served
    case Apply =>
      if st.draft.None? then c == st.served
      else
        var d := st.draft.value;
        && c.security == d.settings.security && c.ranges == d.settings.ranges && c.auth == d.settings.auth
        && c.certificate == d.certificate && SameRest(c, st.served)
    case UpdateSecurity(security, ranges, bearer, header) =>
      && c.security == security && c.ranges == ranges && Secured(c.auth, st.served.auth, bearer, header)
      && c.certificate == st.served.certificate && SameRest(c, st.served)
    case RotateToken(_, _, _, token) =>
      && Rotated(c.auth, st.served.auth, token)
      && c.security == st.served.security && c.ranges == st.served.ranges
      && c.certificate == st.served.certificate && SameRest(c, st.served)
    case UpdateCertificate(certificate) =>
      && c.certificate == certificate && c.security == st.served.security && c.ranges == st.served.ranges
      && c.auth == st.served.auth && SameRest(c, st.served)
  }

  /** What the settings file held, or what it would have held had it been written: the configuration served. */
  predicate WasOnFile(
    st: State, mode: string, docker: bool, azure: string, security: string, ranges: seq<string>, auth: Auth)
  {
    if st.settingsFile.Some? then
      var f := st.settingsFile.value;
      && f.mode == mode && f.docker == docker && f.azure == azure
      && f.security == security && f.ranges == ranges && f.auth == auth
    else
      var c := st.served;
      && c.mode == mode && c.docker == docker && c.azure == azure
      && c.security == security && c.ranges == ranges && c.auth == auth
  }

  /** What a request leaves in the settings file. */
  ghost predicate RequestedFile(st: State, request: Request, file: Option<Settings>) {
    match request
    case UpdateSecurity(security, ranges, bearer, header) =>
      && file.Some? && file.value.security == security && file.value.ranges == ranges
      && exists was, oldRanges, auth ::
           && WasOnFile(st, file.value.mode, file.value.docker, file.value.azure, was, oldRanges, auth)
           && Secured(file.value.auth, auth, bearer, header)
    case RotateToken(mode, docker, azure, token) =>
      && file.Some? && file.value.mode == mode && file.value.docker == docker && file.value.azure == azure
      && exists oldMode, oldDocker, oldAzure, auth ::
           && WasOnFile(st, oldMode, oldDocker, oldAzure, file.value.security, file.value.ranges, auth)
           && Rotated(file.value.auth, auth, token)
    case Apply => file == if st.draft.Some? then Some(st.draft.value.settings) else st.settingsFile
    case _ => file == st.settingsFile
  }

  predicate RequestedCertificate(st: State, request: Request, file: Option<string>) {
    match request
    case UpdateCertificate(certificate) => file == Some(certificate)
    case Apply => file == if st.draft.Some? then Some(st.draft.value.certificate) else st.certificateFile
    case _ => file == st.certificateFile
  }

  /** What was asked for is served and on file, and an import that was asked for no longer waits. */
  ghost predicate Fulfilled(st: State, request: Request, end: State) {
    && Requested(st, request, end.served)
    && RequestedFile(st, request, end.settingsFile) && RequestedCertificate(st, request, end.certificateFile)
    && end.draft == (if request.Apply? then None else st.draft)
  }

  // ---------- What the protocol tries and saves ----------

  lemma CandidateIsRequested(st: State, request: Request)
    requires FilesOnly(st)
    ensures var p := NewProc(st, request);
            Requested(st, request, if p.candidate.Some? then p.candidate.value else st.served)
  {
  }

  lemma FileIsRequested(st: State, request: Request)
    requires request.UpdateSecurity? || request.RotateToken?
    ensures RequestedFile(st, request, NewProc(st, request).toSave)
  {
    var e, c := EffectiveSettings(st), st.served;
    assert WasOnFile(st, e.mode, e.docker, e.azure, e.security, e.ranges, e.auth);
  }

  predicate Succeeded(phase: Phase) {
    phase in {Releasing, Checking, QueuedForAzure, InAzure, Finishing}
  }

  /** Configuration, files and draft are those of the first state. */
  predicate Untouched(st: State, mid: State) {
    && mid.served == st.served && mid.settingsFile == st.settingsFile && mid.certificateFile == st.certificateFile
    && mid.draft == st.draft
  }

  /** A process that still tries what its request asked for in the first state. */
  predicate Tries(st: State, request: Request, p: Proc) {
    && p.request == request
    && p.candidate == NewProc(st, request).candidate && p.toSave == NewProc(st, request).toSave
  }

  lemma CommitFulfills(st: State, request: Request, mid: State, p: Proc, saves: Saves)
    requires FilesOnly(st) && Untouched(st, mid) && Tries(st, request, p) && p.previous == st.served
    requires CommitEffects(mid, p, saves).1
    ensures Fulfilled(st, request, CommitEffects(mid, p, saves).0)
  {
    hide Confirm, FilesOnly, Requested, RequestedFile;
    CandidateIsRequested(st, request);
    if request.UpdateSecurity? || request.RotateToken? {
      FileIsRequested(st, request);
    } else {
      OtherFiles(st, request);
    }
  }

  lemma OtherFiles(st: State, request: Request)
    requires !request.UpdateSecurity? && !request.RotateToken?
    ensures RequestedFile(st, request,
                          if request.Apply? && st.draft.Some? then Some(st.draft.value.settings) else st.settingsFile)
  {
  }

  lemma CommitFails(mid: State, p: Proc, saves: Saves)
    requires !CommitEffects(mid, p, saves).1
    ensures var next := CommitEffects(mid, p, saves).0;
            && next.served == mid.served && next.draft == mid.draft && next.store == mid.store && next.cfg == mid.cfg
            && ((p.request.Apply? && mid.draft.Some?)
                || (next.settingsFile == mid.settingsFile && next.certificateFile == mid.certificateFile))
  {
    hide Confirm;
  }

  // ---------- Whatever happens in between ----------

  /** Where a request stands: until its commit nothing it depends on changes, and afterwards it has what it
      asked for. */
  ghost predicate Pending(st: State, pid: nat, request: Request, mid: State) {
    pid in mid.procs ==>
      var p := mid.procs[pid];
      && p.request == request
      && (BeforeCommit(p.phase) ==> Untouched(st, mid) && Tries(st, request, p))
      && (if Succeeded(p.phase) then Fulfilled(st, request, mid) else mid.served == st.served && mid.draft == st.draft)
  }

  predicate SameSuccess(mid: State, next: State, pid: nat) {
    pid in mid.procs && pid in next.procs ==> (Succeeded(next.procs[pid].phase) <==> Succeeded(mid.procs[pid].phase))
  }

  lemma EarlierPhases(env: Env, mid: State, step: Step, pid: nat)
    requires Enabled(env, mid, step) && !step.Commit?
    ensures SameSuccess(mid, Next(env, mid, step), pid)
  {
    hide Edited, LoadedState, RestoredState, NewProc, NewDraft, WithStatuses, EffectiveSettings, Acquired, RuntimeRead,
      Prepared, Discovered, Released, Checked, EnteredAzure, LeftAzure, FinishedState;
    match step
    case Acquire(q) => EarlyPhases(env, mid, q, true, None, pid);
    case ReadRuntime(q, ok) => EarlyPhases(env, mid, q, ok, None, pid);
    case Prepare(q) => EarlyPhases(env, mid, q, true, None, pid);
    case Discover(q, found) => EarlyPhases(env, mid, q, true, found, pid);
    case Load(q, outcome) => LoadPhases(env, mid, q, outcome, pid);
    case Restore(q, outcome) => RestorePhases(env, mid, q, outcome, pid);
    case Release(q) => LatePhases(env, mid, q, None, pid);
    case Check(q, statuses) => LatePhases(env, mid, q, statuses, pid);
    case EnterAzure(q) => LatePhases(env, mid, q, None, pid);
    case LeaveAzure(q) => LatePhases(env, mid, q, None, pid);
    case Finish(q) => LatePhases(env, mid, q, None, pid);
    case _ =>
  }

  lemma EarlyPhases(env: Env, mid: State, q: nat, ok: bool, found: Option<seq<Route>>, pid: nat)
    requires q in mid.procs && !Succeeded(mid.procs[q].phase)
    ensures SameSuccess(mid, Acquired(env, mid, q, mid.procs[q]), pid)
    ensures SameSuccess(mid, RuntimeRead(mid, q, mid.procs[q], ok), pid)
    ensures SameSuccess(mid, Prepared(mid, q, mid.procs[q]), pid)
    ensures SameSuccess(mid, Discovered(env, mid, q, mid.procs[q], found), pid)
  {
  }

  lemma LatePhases(env: Env, mid: State, q: nat, statuses: Option<seq<Status>>, pid: nat)
    requires q in mid.procs
    ensures Succeeded(mid.procs[q].phase) ==> SameSuccess(mid, Released(mid, q, mid.procs[q]), pid)
    ensures Succeeded(mid.procs[q].phase) ==> SameSuccess(mid, Checked(env, mid, q, mid.procs[q], statuses), pid)
    ensures Succeeded(mid.procs[q].phase) ==> SameSuccess(mid, EnteredAzure(mid, q, mid.procs[q]), pid)
    ensures Succeeded(mid.procs[q].phase) ==> SameSuccess(mid, LeftAzure(mid, q, mid.procs[q]), pid)
    ensures SameSuccess(mid, FinishedState(mid, q, mid.procs[q]), pid)
  {
    hide WithStatuses;
  }

  lemma LoadPhases(env: Env, mid: State, q: nat, outcome: LoadOutcome, pid: nat)
    requires At(mid, q, Rendering)
    ensures SameSuccess(mid, LoadedState(env, mid, q, mid.procs[q], outcome), pid)
  {
    hide AfterLoad, ProcAfterLoad;
    LoadTouches(env, mid, mid.procs[q], outcome);
  }

  lemma RestorePhases(env: Env, mid: State, q: nat, outcome: LoadOutcome, pid: nat)
    requires At(mid, q, Restoring)
    ensures SameSuccess(mid, RestoredState(env, mid, q, mid.procs[q], outcome), pid)
  {
    hide AfterRestore;
    RestoreTouches(env, mid, mid.procs[q], outcome);
  }

  lemma PendingAside(st: State, pid: nat, request: Request, mid: State, next: State)
    requires Pending(st, pid, request, mid) && SameFiles(mid, next)
    requires SameSuccess(mid, next, pid)
    ensures Pending(st, pid, request, next)
  {
    hide Requested, RequestedFile, NewProc;
  }

  lemma NonExclusiveTouches(mid: State, p: Proc, saves: Saves)
    requires !p.request.Exclusive()
    ensures var next := CommitEffects(mid, p, saves).0;
            next == mid.(store := next.store)
  {
    hide Confirm;
  }

  lemma OthersCommit(st: State, pid: nat, request: Request, mid: State, q: nat, saves: Saves)
    requires Locks(mid) && Pending(st, pid, request, mid) && request.Exclusive() && At(mid, q, Committing) && q != pid
    ensures Pending(st, pid, request, CommittedState(mid, q, mid.procs[q], saves))
  {
    hide Requested, RequestedFile, NewProc, CommitEffects;
    if pid in mid.procs {
      assert mid.procs[pid].request.Exclusive();
      assert !mid.procs[q].request.Exclusive();
      NonExclusiveTouches(mid, mid.procs[q], saves);
    } else {
      CommitTouches(mid, mid.procs[q], saves);
    }
  }

  lemma OwnCommit(env: Env, st: State, pid: nat, request: Request, mid: State, saves: Saves)
    requires FilesOnly(st) && Locks(mid) && Runtime(env, mid) && Pending(st, pid, request, mid)
    requires At(mid, pid, Committing)
    ensures Pending(st, pid, request, CommittedState(mid, pid, mid.procs[pid], saves))
  {
    hide Requested, RequestedFile, NewProc, CommitEffects, FilesOnly, Inv, SnapshotOk, Faithful;
    var p := mid.procs[pid];
    if CommitEffects(mid, p, saves).1 {
      CommitFulfills(st, request, mid, p, saves);
    } else {
      CommitFails(mid, p, saves);
    }
  }

  lemma PendingStep(env: Env, st: State, pid: nat, request: Request, mid: State, step: Step)
    requires FilesOnly(st) && Safe(env, mid) && Enabled(env, mid, step) && request.Exclusive()
    requires Pending(st, pid, request, mid) && !(step.Begin? && step.pid == pid)
    ensures Pending(st, pid, request, Next(env, mid, step))
  {
    hide Edited, FilesOnly, Generations, Runtime, Fulfilled, NewProc, CommittedState, NewDraft, EffectiveSettings,
      Files, Acquired, RuntimeRead, Prepared, Discovered, LoadedState, RestoredState, Released, Checked, EnteredAzure,
      LeftAzure, FinishedState, Began;
    match step
    case Commit(q, saves) =>
      if q == pid {
        OwnCommit(env, st, pid, request, mid, saves);
      } else {
        OthersCommit(st, pid, request, mid, q, saves);
      }
    case StageImport(_, _, _) => NobodyPends(st, pid, request, mid);
    case SaveSystem(_, _, _, _) => NobodyPends(st, pid, request, mid);
    case Begin(q, other) => BeginAside(st, pid, request, mid, q, other);
    case _ => OtherStepPends(env, st, pid, request, mid, step);
  }

  lemma NobodyPends(st: State, pid: nat, request: Request, mid: State)
    requires Locks(mid) && mid.mutationLock.None? && request.Exclusive() && Pending(st, pid, request, mid)
    ensures pid !in mid.procs
  {
    hide Fulfilled, Untouched, Tries;
  }

  lemma BeginAside(st: State, pid: nat, request: Request, mid: State, q: nat, other: Request)
    requires Pending(st, pid, request, mid) && q != pid
    ensures Pending(st, pid, request, Began(mid, q, other))
  {
    hide Requested, RequestedFile, NewProc;
  }

  lemma OtherStepPends(env: Env, st: State, pid: nat, request: Request, mid: State, step: Step)
    requires Enabled(env, mid, step) && !TouchesFiles(step) && Pending(st, pid, request, mid)
    ensures Pending(st, pid, request, Next(env, mid, step))
  {
    hide Enabled, Next, Pending, SameFiles;
    OtherStepsKeepFiles(env, mid, step);
    var next := Next(env, mid, step);
    EarlierPhases(env, mid, step, pid);
    PendingAside(st, pid, request, mid, next);
  }

  lemma {:induction false} PendingThroughout(env: Env, st: State, pid: nat, request: Request, steps: seq<Step>)
    requires Safe(env, st) && Enabled(env, st, Begin(pid, request)) && request.Exclusive()
    requires Run(env, Next(env, st, Begin(pid, request)), steps).Some?
    requires forall step <- steps :: !(step.Begin? && step.pid == pid)
    ensures Pending(st, pid, request, Run(env, Next(env, st, Begin(pid, request)), steps).value)
  {
    hide Pending, Enabled, Next, Safe, FilesOnly;
    var first := Next(env, st, Begin(pid, request));
    SafeStep(env, st, Begin(pid, request));
    SafeFiles(env, st);
    if steps == [] {
      BeginsPending(env, st, pid, request);
    } else {
      var n := |steps| - 1;
      PendingThroughout(env, st, pid, request, steps[..n]);
      AlwaysSafe(env, first, steps[..n]);
      PendingStep(env, st, pid, request, Run(env, first, steps[..n]).value, steps[n]);
    }
  }

  lemma SafeFiles(env: Env, st: State)
    requires Safe(env, st)
    ensures FilesOnly(st)
  {
    hide FilesOnly, Locks, Generations, Runtime;
  }

  lemma BeginsPending(env: Env, st: State, pid: nat, request: Request)
    requires Enabled(env, st, Begin(pid, request))
    ensures Pending(st, pid, request, Next(env, st, Begin(pid, request)))
  {
    hide NewProc;
    NewProcShape(st, request);
  }

  /** Settings requests and imports get what they asked for. In every interleaving with other requests, edits and
      imports: once such a request has committed, and until it ends, the configuration it asked for is served and what
      it asked to save is on file, with everything it did not name as it was when it arrived; and as long as it has
      not committed the configuration served is the one it met. */
  lemma RequestsAreFulfilled(env: Env, st: State, pid: nat, request: Request, steps: seq<Step>)
    requires Safe(env, st) && Enabled(env, st, Begin(pid, request)) && request.Exclusive()
    requires Run(env, Next(env, st, Begin(pid, request)), steps).Some?
    requires forall step <- steps :: !(step.Begin? && step.pid == pid)
    ensures var end := Run(env, Next(env, st, Begin(pid, request)), steps).value;
            pid in end.procs ==>
              if Succeeded(end.procs[pid].phase) then Fulfilled(st, request, end)
              else end.served == st.served && end.draft == st.draft
  {
    hide Fulfilled, Enabled, Next, Safe, Run;
    PendingThroughout(env, st, pid, request, steps);
  }

  // ---------- Imports and system settings ----------

  /** A staged import keeps the imported settings and the secrets known before it, remembers what it would replace, and
      changes nothing that is served, running or on file. */
  lemma StagedImport(env: Env, st: State, settings: Settings, certificate: string, store: StoreState)
    requires Enabled(env, st, StageImport(settings, certificate, store))
    ensures var end := Next(env, st, StageImport(settings, certificate, store));
            && end == st.(store := store, draft := end.draft) && end.draft.Some?
            && var d := end.draft.value;
            && d.certificate == certificate
            && d.settings.mode == settings.mode && d.settings.docker == settings.docker
            && d.settings.azure == settings.azure
            && d.settings.security == settings.security && d.settings.ranges == settings.ranges
            && SameSwitches(d.settings.auth, settings.auth)
            && if st.draft.Some? then
                 && SameSecrets(d.settings.auth, st.draft.value.settings.auth)
                 && SameHeader(d.settings.auth, st.draft.value.settings.auth)
                 && d.previousSettings == st.draft.value.previousSettings
                 && d.previousCertificate == st.draft.value.previousCertificate
               else
                 var was := d.previousSettings;
                 && SameSecrets(d.settings.auth, was.auth) && SameHeader(d.settings.auth, was.auth)
                 && WasOnFile(st, was.mode, was.docker, was.azure, was.security, was.ranges, was.auth)
                 && d.previousCertificate == st.served.certificate
  {
    hide Edited;
  }

  /** System settings go to the file alone and take effect with the next start. */
  lemma SystemSettingsWait(env: Env, st: State, mode: string, docker: bool, azure: string, ok: bool)
    requires Enabled(env, st, SaveSystem(mode, docker, azure, ok))
    ensures var end := Next(env, st, SaveSystem(mode, docker, azure, ok));
            && end == st.(settingsFile := end.settingsFile)
            && if !ok then end.settingsFile == st.settingsFile
               else
                 && end.settingsFile.Some?
                 && var f := end.settingsFile.value;
                 && f.mode == mode && f.docker == docker && f.azure == azure
                 && exists oldMode, oldDocker, oldAzure ::
                      WasOnFile(st, oldMode, oldDocker, oldAzure, f.security, f.ranges, f.auth)
  {
    hide Edited;
    var was := EffectiveSettings(st);
    assert WasOnFile(st, was.mode, was.docker, was.azure, was.security, was.ranges, was.auth);
  }
}
