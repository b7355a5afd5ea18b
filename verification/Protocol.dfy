/** The apply/commit protocol: any number of overlapping synchronizations, API edits and imports as steps of
    one state machine over the runtime, the configuration, the routing store and the settings files. */
module Protocol {
  import opened Text
  import opened Routing
  import opened StoreSpec

  // ---------- Configuration ----------

  datatype Auth = Auth(
    required: bool, adminToken: string, adminTokens: seq<string>, allowBearer: bool, allowAdminHeader: bool,
    headerName: string, headerValue: string)

  /** The configuration, with the sections this protocol does not look into as text. */
  datatype Config = Config(
    mode: string, docker: bool, azure: string, security: string, ranges: seq<string>, auth: Auth, certificate: string,
    fixed: string)

  /** What the settings file holds. */
  datatype Settings = Settings(
    mode: string, docker: bool, azure: string, security: string, ranges: seq<string>, auth: Auth)

  function SettingsOf(c: Config): Settings {
    Settings(c.mode, c.docker, c.azure, c.security, c.ranges, c.auth)
  }

  /** The part of the settings that takes effect without a restart. */
  predicate SameLivePart(s: Settings, c: Config) {
    s.security == c.security && s.ranges == c.ranges && s.auth == c.auth
  }

  /** An imported configuration waiting for a manual apply, with what it would replace. */
  datatype Draft = Draft(
    settings: Settings, certificate: string, live: Config, previousSettings: Settings, previousCertificate: string)

  // ---------- State ----------

  /** What does not change: the libraries and which optional parts are present. */
  datatype Env = Env(
    net: Net, render: (Config, seq<Route>) -> Option<string>,
    hasReader: bool, hasDiscoverer: bool, hasHealth: bool, hasAzure: bool)

  /** The requests that end in a synchronization. */
  datatype Request =
    | Background
    | Plain
    | Apply
    | UpdateSecurity(security: string, ranges: seq<string>, allowBearer: bool, allowAdminHeader: bool)
    | RotateToken(mode: string, docker: bool, azure: string, token: string)
    | UpdateCertificate(certificate: string)
  {
    /** API requests run one at a time. */
    predicate Exclusive() {
      !Background? && !Plain?
    }

    predicate KeepsPendingRoutes() {
      !Plain? && !Apply?
    }
  }

  datatype Phase =
    | Waiting
    | Reading | Preparing | Discovering | Rendering | Committing | Restoring | Failing | Releasing
    | Checking | QueuedForAzure | InAzure | Finishing

  predicate HoldsSync(phase: Phase) {
    phase in {Reading, Preparing, Discovering, Rendering, Committing, Restoring, Failing, Releasing}
  }

  /** One synchronization: its request, its captured values and what it has learned so far. */
  datatype Proc = Proc(
    request: Request, candidate: Option<Config>, toSave: Option<Settings>,
    phase: Phase, generation: nat,
    previous: Config, previousApplied: Snapshot, previousDiscovered: seq<Route>, runtimeBefore: string, read: string,
    snapshot: Snapshot, discovered: seq<Route>, restored: bool, health: Option<seq<Status>>)
  {
    function Routes(): seq<Route> {
      snapshot.routes + discovered
    }

    /** The configuration in force from preparation to commit. */
    function Tried(): Config {
      match candidate case Some(c) => c case None => previous
    }
  }

  datatype State = State(
    syncLock: Option<nat>, azureLock: Option<nat>, mutationLock: Option<nat>,
    runtime: string, cfg: Config, served: Config, lastDiscovered: seq<Route>,
    generation: nat, cancelChecks: Option<nat>, cancelled: set<nat>,
    store: StoreState, settingsFile: Option<Settings>, certificateFile: Option<string>, draft: Option<Draft>,
    procs: map<nat, Proc>,
    azureStarts: seq<nat>, published: seq<nat>, everDiscovered: set<seq<Route>>,  // histories
    astray: bool,  // a load took effect that was neither confirmed nor undone
    torn: bool)    // a compensating save failed

  function EffectiveSettings(st: State): Settings {
    match st.settingsFile case Some(s) => s case None => SettingsOf(st.served)
  }

  function EffectiveCertificate(st: State): string {
    match st.certificateFile case Some(c) => c case None => st.served.certificate
  }

  function Desired(s: StoreState): Snapshot {
    Snapshot(s.resources, s.routes, s.revision)
  }

  function Initially(
    cfg: Config, runtime: string, store: StoreState, settings: Option<Settings>, certificate: Option<string>): State
  {
    State(None, None, None, runtime, cfg, cfg, [], 0, None, {}, store, settings, certificate, None,
          map[], [], [], {[]}, false, false)
  }

  // ---------- Steps ----------

  /** A load that fails may still have taken effect: the acknowledgement can be lost. */
  datatype LoadOutcome = Loaded | NotLoaded | LoadedUnacknowledged

  /** Which of the saves of a commit succeed; the last two undo the first two. */
  datatype Saves = Saves(settings: bool, certificate: bool, store: bool, undoSettings: bool, undoCertificate: bool)

  datatype Step =
    | Edit(next: StoreState)
    | StageImport(settings: Settings, certificate: string, next: StoreState)
    | SaveSystem(mode: string, docker: bool, azure: string, ok: bool)
    | Begin(pid: nat, request: Request)
    | Acquire(pid: nat)
    | ReadRuntime(pid: nat, ok: bool)
    | Prepare(pid: nat)
    | Discover(pid: nat, found: Option<seq<Route>>)
    | Load(pid: nat, outcome: LoadOutcome)
    | Commit(pid: nat, saves: Saves)
    | Restore(pid: nat, outcome: LoadOutcome)
    | Release(pid: nat)
    | Check(pid: nat, statuses: Option<seq<Status>>)
    | EnterAzure(pid: nat)
    | LeaveAzure(pid: nat)
    | Finish(pid: nat)
    | Abandon(pid: nat)

  predicate At(st: State, pid: nat, phase: Phase) {
    pid in st.procs && st.procs[pid].phase == phase
  }

  predicate Enabled(env: Env, st: State, step: Step) {
    match step
    case Edit(next) => Edited(env.net, st.store, next)
    case StageImport(_, _, next) =>
      st.mutationLock.None? && Edited(env.net, st.store, next) && next.staged && next.disk == st.store.disk
    case SaveSystem(_, _, _, _) => st.mutationLock.None? && st.draft.None?
    case Begin(pid, request) =>
      && pid !in st.procs
      && (request.Exclusive() ==> st.mutationLock.None?)
      && (request.Exclusive() && !request.Apply? ==> st.draft.None?)
    case Acquire(pid) => At(st, pid, Waiting) && st.syncLock.None?
    case ReadRuntime(pid, _) => At(st, pid, Reading)
    case Prepare(pid) => At(st, pid, Preparing)
    case Discover(pid, _) => At(st, pid, Discovering)
    case Load(pid, _) => At(st, pid, Rendering)
    case Commit(pid, _) => At(st, pid, Committing)
    case Restore(pid, _) => At(st, pid, Restoring)
    case Release(pid) => At(st, pid, Releasing)
    case Check(pid, _) => At(st, pid, Checking)
    case EnterAzure(pid) => At(st, pid, QueuedForAzure) && st.azureLock.None?
    case LeaveAzure(pid) => At(st, pid, InAzure)
    case Finish(pid) => At(st, pid, Finishing) || At(st, pid, Failing)
    case Abandon(pid) => pid in st.procs && !At(st, pid, Waiting)
  }

  function Put(st: State, pid: nat, p: Proc): State {
    st.(procs := st.procs[pid := p])
  }

  /** The configuration a request wants to run, and the settings it wants to save. */
  function Wanted(
    request: Request, served: Config, draft: Option<Draft>, effective: Settings): (Option<Config>, Option<Settings>)
  {
    match request
    case Background => (None, None)
    case Plain => (None, None)
    case Apply => (match draft case Some(d) => Some(d.live) case None => None, None)
    case UpdateSecurity(security, ranges, bearer, header) =>
      (Some(served.(security := security, ranges := ranges,
       auth := served.auth.(allowBearer := bearer, allowAdminHeader := header))),
       Some(effective.(security := security, ranges := ranges,
       auth := effective.auth.(allowBearer := bearer, allowAdminHeader := header))))
    case RotateToken(mode, docker, azure, token) =>
      (Some(served.(auth := served.auth.(adminToken := token, adminTokens := []))),
       Some(effective.(mode := mode, docker := docker, azure := azure,
       auth := effective.auth.(adminToken := token, adminTokens := []))))
    case UpdateCertificate(certificate) => (Some(served.(certificate := certificate)), None)
  }

  function NewProc(st: State, request: Request): Proc {
    var (candidate, toSave) := Wanted(request, st.served, st.draft, EffectiveSettings(st));
    var applied := st.store.applied;
    Proc(request, candidate, toSave, Waiting, 0, st.cfg, applied, [], "", "", applied, [], false, None)
  }

  /** The staged import: secrets and unimported sections come from what it replaces. */
  function NewDraft(st: State, imported: Settings, certificate: string): Draft {
    var secrets := match st.draft case Some(d) => d.settings case None => EffectiveSettings(st);
    var settings := imported.(auth := imported.auth.(
                    adminToken := secrets.auth.adminToken, adminTokens := secrets.auth.adminTokens,
                    headerName := secrets.auth.headerName, headerValue := secrets.auth.headerValue));
    var live := st.served.(
                security := settings.security, ranges := settings.ranges, auth := settings.auth,
                certificate := certificate);
    Draft(settings, certificate, live,
          match st.draft case Some(d) => d.previousSettings case None => EffectiveSettings(st),
          match st.draft case Some(d) => d.previousCertificate case None => st.served.certificate)
  }

  function Acquired(env: Env, st: State, pid: nat, p: Proc): State {
    var generation := st.generation + 1;
    var next := p.(phase := if p.candidate.Some? && env.hasReader then Reading else Preparing, generation := generation,
                previous := st.cfg, previousApplied := st.store.applied, previousDiscovered := st.lastDiscovered,
                runtimeBefore := st.runtime, read := "");
    Put(st.(syncLock := Some(pid), generation := generation, cancelChecks := Some(generation),
        cancelled := match st.cancelChecks case Some(g) => st.cancelled + {g} case None => st.cancelled), pid, next)
  }

  function AfterLoad(env: Env, st: State, p: Proc, outcome: LoadOutcome): State {
    match env.render(st.cfg, p.Routes())
    case None => st.(cfg := p.previous)
    case Some(document) =>
      st.(runtime := if outcome.NotLoaded? then st.runtime else document,
      astray := if p.candidate.None? && outcome.LoadedUnacknowledged? then !p.request.KeepsPendingRoutes()
      else st.astray)
  }

  function ProcAfterLoad(env: Env, st: State, p: Proc, outcome: LoadOutcome): Proc {
    if env.render(st.cfg, p.Routes()).None? then p.(phase := Failing, restored := true)
    else if outcome.Loaded? then p.(phase := Committing)
    else if p.candidate.Some? then p.(phase := Restoring)
    else p.(phase := Failing, restored := outcome.NotLoaded?)
  }

  function LoadedState(env: Env, st: State, pid: nat, p: Proc, outcome: LoadOutcome): State {
    Put(AfterLoad(env, st, p, outcome), pid, ProcAfterLoad(env, st, p, outcome))
  }

  /** MarkApplied on values; None when it fails. */
  function Confirm(s: StoreState, snapshot: Snapshot, ok: bool): Option<StoreState> {
    if snapshot.revision > s.revision || snapshot.revision < s.applied.revision then None
    else if s.persistent && !ok then None
    else Some(Applied(s, snapshot))
  }

  /** The commit of an apply: three saves in order, undone in part when a later one fails. */
  function PersistImport(st: State, snapshot: Snapshot, saves: Saves): (State, bool) {
    match st.draft
    case None =>
      (match Confirm(st.store, snapshot, saves.store) case Some(s) => (st.(store := s), true) case None => (st, false))
    case Some(d) =>
      if !saves.settings then (st, false)
      else
        var saved := st.(settingsFile := Some(d.settings));
        var undone := saved.(settingsFile := Some(if saves.undoSettings then d.previousSettings else d.settings),
                      torn := st.torn || !saves.undoSettings);
        if !saves.certificate then (undone, false)
        else
          match Confirm(st.store, snapshot, saves.store)
          case None =>
            (undone.(certificateFile := Some(if saves.undoCertificate then d.previousCertificate else d.certificate),
             torn := undone.torn || !saves.undoCertificate), false)
          case Some(s) =>
            var written := saved.(certificateFile := Some(d.certificate), store := s, draft := None);
            (written.(served := d.live, cfg := d.live), true)
  }

  function CommitEffects(st: State, p: Proc, saves: Saves): (State, bool) {
    match p.request
    case Background => (st, true)
    case Plain =>
      var confirmed := Confirm(st.store, p.snapshot, saves.store);
      if confirmed.Some? then (st.(store := confirmed.value), true) else (st, false)
    case Apply => PersistImport(st, p.snapshot, saves)
    case UpdateCertificate(certificate) =>
      if saves.certificate
      then (st.(certificateFile := Some(certificate), served := p.Tried(), cfg := p.Tried()), true) else (st, false)
    case _ =>
      if saves.settings then (st.(settingsFile := p.toSave, served := p.Tried(), cfg := p.Tried()), true)
      else (st, false)
  }

  function CommittedState(st: State, pid: nat, p: Proc, saves: Saves): State {
    var (next, ok) := CommitEffects(st, p, saves);
    if ok then Put(next.(astray := false), pid, p.(phase := Releasing)) else Put(next, pid, p.(phase := Restoring))
  }

  /** What the rollback loads: the runtime as it was read, or a rendering of the state before. */
  function RollbackDocument(env: Env, p: Proc): Option<string> {
    if p.read != "" then Some(p.read) else env.render(p.previous, p.previousApplied.routes + p.previousDiscovered)
  }

  predicate Ineffective(env: Env, p: Proc, outcome: LoadOutcome) {
    RollbackDocument(env, p).None? || outcome.NotLoaded?
  }

  function AfterRestore(env: Env, st: State, p: Proc, outcome: LoadOutcome): State {
    if Ineffective(env, p, outcome) then st.(cfg := p.previous, astray := st.astray || st.runtime != p.runtimeBefore)
    else st.(cfg := p.previous, runtime := RollbackDocument(env, p).value, astray := st.astray && p.read != "")
  }

  function RestoredState(env: Env, st: State, pid: nat, p: Proc, outcome: LoadOutcome): State {
    var back := AfterRestore(env, st, p, outcome);
    Put(back, pid, p.(phase := Failing, restored := back.runtime == p.runtimeBefore))
  }

  function FinishedState(st: State, pid: nat, p: Proc): State {
    var published :=
      if st.generation == p.generation then
        st.(published := st.published + [p.generation],
        store := match p.health case Some(statuses) => WithStatuses(st.store, statuses) case None => st.store)
      else st;
    published.(
    syncLock := if p.phase == Failing then None else st.syncLock,
    mutationLock := if st.mutationLock == Some(pid) then None else st.mutationLock,
    cancelled := st.cancelled + {p.generation},
    procs := st.procs - {pid})
  }

  function SystemSaved(st: State, mode: string, docker: bool, azure: string, ok: bool): State {
    if ok then st.(settingsFile := Some(EffectiveSettings(st).(mode := mode, docker := docker, azure := azure))) else st
  }

  function Began(st: State, pid: nat, request: Request): State {
    Put(st.(mutationLock := if request.Exclusive() then Some(pid) else st.mutationLock), pid, NewProc(st, request))
  }

  function RuntimeRead(st: State, pid: nat, p: Proc, ok: bool): State {
    Put(st, pid, if ok then p.(phase := Preparing, read := st.runtime) else p.(phase := Failing, restored := true))
  }

  function Prepared(st: State, pid: nat, p: Proc): State {
    Put(st.(cfg := p.Tried()), pid,
        p.(phase := Discovering,
        snapshot := if p.request.KeepsPendingRoutes() then p.previousApplied else Desired(st.store)))
  }

  /** Discovered routes; after a failed discovery the last successful ones. */
  function Discovered(env: Env, st: State, pid: nat, p: Proc, found: Option<seq<Route>>): State {
    var routes := if !env.hasDiscoverer then [] else match found case Some(r) => r case None => st.lastDiscovered;
    var next :=
      if env.hasDiscoverer && found.Some?
      then st.(lastDiscovered := routes, everDiscovered := st.everDiscovered + {routes})
      else st;
    Put(next, pid, p.(phase := Rendering, discovered := routes))
  }

  function Released(st: State, pid: nat, p: Proc): State {
    Put(st.(syncLock := None), pid, p.(phase := Checking))
  }

  function Checked(env: Env, st: State, pid: nat, p: Proc, statuses: Option<seq<Status>>): State {
    var phase := if env.hasAzure then QueuedForAzure else Finishing;
    Put(st, pid, p.(phase := phase, health := if env.hasHealth then statuses else None))
  }

  function EnteredAzure(st: State, pid: nat, p: Proc): State {
    if p.generation in st.cancelled then Put(st, pid, p.(phase := Finishing))
    else Put(st.(azureLock := Some(pid), azureStarts := st.azureStarts + [p.generation]), pid, p.(phase := InAzure))
  }

  function LeftAzure(st: State, pid: nat, p: Proc): State {
    Put(st.(azureLock := None), pid, p.(phase := Finishing))
  }

  function Next(env: Env, st: State, step: Step): State
    requires Enabled(env, st, step)
  {
    match step
    case Edit(next) => st.(store := next)
    case StageImport(settings, certificate, next) =>
      st.(store := next, draft := Some(NewDraft(st, settings, certificate)))
    case SaveSystem(mode, docker, azure, ok) => SystemSaved(st, mode, docker, azure, ok)
    case Begin(pid, request) => Began(st, pid, request)
    case Acquire(pid) => Acquired(env, st, pid, st.procs[pid])
    case ReadRuntime(pid, ok) => RuntimeRead(st, pid, st.procs[pid], ok)
    case Prepare(pid) => Prepared(st, pid, st.procs[pid])
    case Discover(pid, found) => Discovered(env, st, pid, st.procs[pid], found)
    case Load(pid, outcome) => LoadedState(env, st, pid, st.procs[pid], outcome)
    case Commit(pid, saves) => CommittedState(st, pid, st.procs[pid], saves)
    case Restore(pid, outcome) => RestoredState(env, st, pid, st.procs[pid], outcome)
    case Release(pid) => Released(st, pid, st.procs[pid])
    case Check(pid, statuses) => Checked(env, st, pid, st.procs[pid], statuses)
    case EnterAzure(pid) => EnteredAzure(st, pid, st.procs[pid])
    case LeaveAzure(pid) => LeftAzure(st, pid, st.procs[pid])
    case Finish(pid) => FinishedState(st, pid, st.procs[pid])
    case Abandon(pid) => st.(cancelled := st.cancelled + {st.procs[pid].generation})
  }

  /** Carries out the steps in order; None when one of them is not enabled. */
  function Run(env: Env, st: State, steps: seq<Step>): Option<State> {
    if steps == [] then Some(st)
    else
      match Run(env, st, steps[..|steps| - 1])
      case None => None
      case Some(mid) =>
        var last := steps[|steps| - 1];
        if Enabled(env, mid, last) then Some(Next(env, mid, last)) else None
  }
}
