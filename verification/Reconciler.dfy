/** The reconciler and the API's commit callbacks as the code runs them: fields updated step by step. One request,
    run without interruption, is shown to be a run of the protocol. */
module Reconciler {
  import opened Text
  import opened Routing
  import opened StoreSpec
  import opened Protocol
  import opened ProtocolSchedule
  import opened ProtocolFiles
  import opened ProtocolRuntime
  import opened ProtocolSafety
  import opened ProtocolRequests
  import opened ProtocolAnswers
  import opened ProtocolOutcome
  import opened ProtocolFailure
  import RoutingStore

  predicate Shows(published: seq<nat>, last: Option<nat>) {
    if published == [] then last.None? else last == Some(published[|published| - 1])
  }

  /** What an import leaves in the two files. */
  predicate Landed(
    draft: Option<Draft>, saves: Saves, ok: bool, settings: Option<Settings>, certificate: Option<string>,
    newSettings: Option<Settings>, newCertificate: Option<string>)
  {
    match draft
    case None => newSettings == settings && newCertificate == certificate
    case Some(d) =>
      && newSettings ==
         (if !saves.settings then settings
          else Some(if ok || !saves.undoSettings then d.settings else d.previousSettings))
      && newCertificate == (if !saves.settings || !saves.certificate then certificate
                            else Some(if ok || !saves.undoCertificate then d.certificate else d.previousCertificate))
  }

  lemma ConfirmIsApplied(s: StoreState, snapshot: Snapshot, ok: bool)
    ensures Confirm(s, snapshot, ok).Some? ==> Confirm(s, snapshot, ok) == Some(Applied(s, snapshot))
  {
    hide Applied;
  }

  class Control {
    const env: Env
    const routes: RoutingStore.Store
    var syncLocked: bool
    var runtime: string
    var cfg: Config
    var served: Config
    var lastDiscovered: seq<Route>
    var generation: nat
    var cancelChecks: Option<nat>
    var cancelled: set<nat>
    var settingsFile: Option<Settings>
    var certificateFile: Option<string>
    var draft: Option<Draft>
    var last: Option<nat>
    var azureRuns: seq<nat>

    constructor (env: Env, routes: RoutingStore.Store, cfg: Config, runtime: string, settings: Option<Settings>,
                 certificate: Option<string>)
      ensures this.env == env && this.routes == routes
      ensures Matches(Initially(cfg, runtime, routes.Value(), settings, certificate))
    {
      this.env, this.routes := env, routes;
      syncLocked, this.runtime, this.cfg, served, lastDiscovered := false, runtime, cfg, cfg, [];
      generation, cancelChecks, cancelled := 0, None, {};
      settingsFile, certificateFile, draft, last, azureRuns := settings, certificate, None, None, [];
    }

    /** The fields are those of the protocol's state. */
    ghost predicate Matches(st: State)
      reads this, routes
    {
      && MatchesRuntime(st) && st.store == routes.Value()
      && st.settingsFile == settingsFile && st.certificateFile == certificateFile && st.draft == draft
      && st.generation == generation && st.cancelChecks == cancelChecks && st.cancelled == cancelled
      && Shows(st.published, last) && st.azureStarts == azureRuns
    }

    ghost predicate MatchesRuntime(st: State)
      reads this
    {
      && st.syncLock.Some? == syncLocked && st.runtime == runtime && st.cfg == cfg && st.served == served
      && st.lastDiscovered == lastDiscovered
    }

    method UpdateConfig(c: Config)
      modifies this`cfg
      ensures cfg == c
    {
      cfg := c;
    }

    method ApplyLiveConfig(c: Config)
      modifies this`served, this`cfg
      ensures served == c && cfg == c
    {
      served := c;
      UpdateConfig(c);
    }

    /** Replaces the running checks: their context is cancelled and the generation moves on. */
    method TakeGeneration() returns (taken: nat)
      modifies this`generation, this`cancelChecks, this`cancelled
      ensures taken == generation == old(generation) + 1 && cancelChecks == Some(taken)
      ensures cancelled == (match old(cancelChecks) case Some(g) => old(cancelled) + {g} case None => old(cancelled))
    {
      if cancelChecks.Some? {
        cancelled := cancelled + {cancelChecks.value};
      }
      generation := generation + 1;
      cancelChecks := Some(generation);
      taken := generation;
    }

    method Discover(found: Option<seq<Route>>) returns (discovered: seq<Route>)
      modifies this`lastDiscovered
      ensures discovered ==
              if !env.hasDiscoverer then [] else if found.Some? then found.value else old(lastDiscovered)
      ensures lastDiscovered == if env.hasDiscoverer && found.Some? then found.value else old(lastDiscovered)
    {
      discovered := [];
      if env.hasDiscoverer {
        if found.None? {
          discovered := lastDiscovered;
        } else {
          discovered := found.value;
          lastDiscovered := found.value;
        }
      }
    }

    method LoadRuntime(document: string, outcome: LoadOutcome) returns (ok: bool)
      modifies this`runtime
      ensures ok == outcome.Loaded? && runtime == if outcome.NotLoaded? then old(runtime) else document
    {
      if !outcome.NotLoaded? {
        runtime := document;
      }
      ok := outcome.Loaded?;
    }

    /** The rollback of a failed load or commit. */
    method RestoreRuntime(
      candidate: Option<Config>, previousConfig: Config, previous: Snapshot, previousDiscovered: seq<Route>,
      previousRuntime: string, outcome: LoadOutcome)
      modifies this`cfg, this`runtime
      ensures cfg == if candidate.Some? then previousConfig else old(cfg)
      ensures var document := if previousRuntime != "" then Some(previousRuntime)
                              else env.render(cfg, previous.routes + previousDiscovered);
              runtime == if document.None? || outcome.NotLoaded? then old(runtime) else document.value
    {
      if candidate.Some? {
        UpdateConfig(previousConfig);
      }
      var document := Some(previousRuntime);
      if previousRuntime == "" {
        document := env.render(cfg, previous.routes + previousDiscovered);
      }
      if document.Some? {
        var _ := LoadRuntime(document.value, outcome);
      }
    }

    // ---------- Commits ----------

    /** The three saves of an import, or only the confirmation of the routes. */
    method PersistConfigurationImport(snapshot: Snapshot, saves: Saves) returns (ok: bool)
      requires routes.Valid() && Genuine(routes.net, routes.Value(), snapshot)
      modifies this`settingsFile, this`certificateFile, this`draft, this`served, this`cfg, routes
      ensures routes.Valid()
      ensures ok ==
              ((old(draft).Some? ==> saves.settings && saves.certificate)
               && Confirm(old(routes.Value()), snapshot, saves.store).Some?)
      ensures routes.Value() == if ok then Applied(old(routes.Value()), snapshot) else old(routes.Value())
      ensures Landed(old(draft), saves, ok, old(settingsFile), old(certificateFile), settingsFile, certificateFile)
      ensures draft == if ok then None else old(draft)
      ensures served == if ok && old(draft).Some? then old(draft).value.live else old(served)
      ensures cfg == if ok && old(draft).Some? then old(draft).value.live else old(cfg)
    {
      hide Genuine, Applied, Confirm, Inv;
      ConfirmIsApplied(routes.Value(), snapshot, saves.store);
      if draft.None? {
        ok := Confirmed(snapshot, saves.store);
        return;
      }
      var d := draft.value;
      if !saves.settings {
        return false;
      }
      settingsFile := Some(d.settings);
      if !saves.certificate {
        if saves.undoSettings {
          settingsFile := Some(d.previousSettings);
        }
        return false;
      }
      certificateFile := Some(d.certificate);
      var confirmed := Confirmed(snapshot, saves.store);
      if !confirmed {
        if saves.undoSettings {
          settingsFile := Some(d.previousSettings);
        }
        if saves.undoCertificate {
          certificateFile := Some(d.previousCertificate);
        }
        return false;
      }
      draft := None;
      ApplyLiveConfig(d.live);
      return true;
    }

    method Confirmed(snapshot: Snapshot, saveOk: bool) returns (ok: bool)
      requires routes.Valid() && Genuine(routes.net, routes.Value(), snapshot)
      modifies routes
      ensures routes.Valid()
      ensures var confirmed := Confirm(old(routes.Value()), snapshot, saveOk);
              ok == confirmed.Some? && routes.Value() == if ok then confirmed.value else old(routes.Value())
    {
      hide Genuine, Inv, Applied;
      var r := routes.MarkApplied(snapshot, saveOk);
      ok := r.Success?;
    }

    /** The commit of a live configuration: one save, then the configuration is served. */
    method CommitLiveConfig(request: Request, toSave: Option<Settings>, c: Config, saves: Saves) returns (ok: bool)
      modifies this`settingsFile, this`certificateFile, this`served, this`cfg
      ensures ok == if request.UpdateCertificate? then saves.certificate else saves.settings
      ensures settingsFile == if ok && !request.UpdateCertificate? then toSave else old(settingsFile)
      ensures certificateFile == if ok && request.UpdateCertificate? then Some(request.certificate)
                                 else old(certificateFile)
      ensures served == (if ok then c else old(served)) && cfg == if ok then c else old(cfg)
    {
      if request.UpdateCertificate? {
        if !saves.certificate {
          return false;
        }
        certificateFile := Some(request.certificate);
      } else {
        if !saves.settings {
          return false;
        }
        settingsFile := toSave;
      }
      ApplyLiveConfig(c);
      return true;
    }

    method CommitImport(snapshot: Snapshot, saves: Saves, ghost st: State) returns (ok: bool)
      requires Matches(st) && routes.Valid() && Genuine(routes.net, st.store, snapshot)
      modifies this`settingsFile, this`certificateFile, this`draft, this`served, this`cfg, routes
      ensures ok == PersistImport(st, snapshot, saves).1 && Matches(PersistImport(st, snapshot, saves).0)
      ensures routes.Valid()
    {
      hide Genuine, Applied, Inv, Confirm, PersistImport, Landed;
      PersistTouches(st, snapshot, saves);
      PersistImportFields(st, snapshot, saves);
      ok := PersistConfigurationImport(snapshot, saves);
      ghost var next := PersistImport(st, snapshot, saves).0;
      LandedOnce(st.draft, saves, ok, st.settingsFile, st.certificateFile, settingsFile, certificateFile,
                 next.settingsFile, next.certificateFile);
    }

    method CommitRoutes(snapshot: Snapshot, saves: Saves, ghost st: State, ghost proc: Proc) returns (ok: bool)
      requires Matches(st) && routes.Valid() && Genuine(routes.net, st.store, snapshot)
      requires proc.request.Plain? && snapshot == proc.snapshot
      modifies routes
      ensures ok == CommitEffects(st, proc, saves).1 && Matches(CommitEffects(st, proc, saves).0)
      ensures routes.Valid()
    {
      hide Genuine, Inv, Confirm, CommitEffects;
      SimpleEffects(st, proc, saves);
      ok := Confirmed(snapshot, saves.store);
    }

    method CommitSettings(p: Captured, saves: Saves, ghost st: State, ghost proc: Proc) returns (ok: bool)
      requires Matches(st) && p.Of(proc)
      requires p.request.UpdateCertificate? || p.request.UpdateSecurity? || p.request.RotateToken?
      modifies this`settingsFile, this`certificateFile, this`served, this`cfg
      ensures ok == CommitEffects(st, proc, saves).1 && Matches(CommitEffects(st, proc, saves).0)
    {
      hide CommitEffects;
      LiveEffects(st, proc, saves);
      ok := CommitLiveConfig(p.request, p.toSave, if p.candidate.Some? then p.candidate.value else p.previousConfig,
                             saves);
    }

    method Commit(p: Captured, snapshot: Snapshot, saves: Saves, ghost st: State, ghost proc: Proc) returns (ok: bool)
      requires Matches(st) && routes.Valid() && Genuine(routes.net, st.store, snapshot)
      requires p.Of(proc) && snapshot == proc.snapshot
      modifies this`settingsFile, this`certificateFile, this`draft, this`served, this`cfg, routes
      ensures ok == CommitEffects(st, proc, saves).1 && Matches(CommitEffects(st, proc, saves).0)
      ensures routes.Valid()
    {
      hide Genuine, Inv, PersistImport, Matches, CommitEffects, Landed;
      SimpleEffects(st, proc, saves);
      if p.request.Background? {
        ok := true;
      } else if p.request.Plain? {
        ok := CommitRoutes(snapshot, saves, st, proc);
      } else if p.request.Apply? {
        ok := CommitImport(snapshot, saves, st);
      } else {
        ok := CommitSettings(p, saves, st, proc);
      }
    }

    // ---------- One synchronization ----------

    function EffectiveFile(): Settings
      reads this
    {
      match settingsFile case Some(s) => s case None => SettingsOf(served)
    }

    lemma WantedMatches(st: State, request: Request)
      requires Matches(st)
      ensures var p := NewProc(st, request); Wanted(request, served, draft, EffectiveFile()) == (p.candidate, p.toSave)
      ensures NewProc(st, request).request == request && NewProc(st, request).health.None?
    {
    }

    lemma BeganMatches(st: State, pid: nat, request: Request)
      requires Matches(st)
      ensures var begun := Began(st, pid, request);
              Matches(begun) && begun.syncLock == st.syncLock && begun.procs[pid] == NewProc(st, request)
    {
      hide NewProc;
    }

    method Take(request: Request, ghost st: State, ghost pid: nat) returns (p: Captured)
      requires Matches(st) && st.syncLock.None?
      modifies this`syncLocked, this`generation, this`cancelChecks, this`cancelled
      ensures var begun := Began(st, pid, request);
              var taken := Acquired(env, begun, pid, begun.procs[pid]);
              Matches(taken) && p.Of(taken.procs[pid]) && taken.procs[pid].health.None? && p.request == request
    {
      hide NewProc, Wanted, Began;
      WantedMatches(st, request);
      BeganMatches(st, pid, request);
      var (candidate, toSave) := Wanted(request, served, draft, EffectiveFile());
      syncLocked := true;
      var generation := TakeGeneration();
      p := Captured(request, candidate, toSave, generation, cfg, routes.applied, lastDiscovered, "");
    }

    method ReadPrevious(p: Captured, ok: bool, ghost st: State, ghost pid: nat) returns (q: Captured)
      requires Matches(st) && At(st, pid, Reading) && p.Of(st.procs[pid])
      ensures Matches(RuntimeRead(st, pid, st.procs[pid], ok))
      ensures ok ==> q.Of(RuntimeRead(st, pid, st.procs[pid], ok).procs[pid])
      ensures !ok ==> q.generation == p.generation
      ensures q.request == p.request && q.candidate == p.candidate
    {
      q := if ok then p.(previousRuntime := runtime) else p;
    }

    method PrepareConfig(p: Captured, ghost st: State, ghost pid: nat) returns (snapshot: Snapshot)
      requires Matches(st) && At(st, pid, Preparing) && p.Of(st.procs[pid]) && cfg == p.previousConfig
      modifies this`cfg
      ensures var next := Prepared(st, pid, st.procs[pid]);
              Matches(next) && p.Of(next.procs[pid]) && snapshot == next.procs[pid].snapshot
    {
      if p.candidate.Some? {
        UpdateConfig(p.candidate.value);
      }
      snapshot := routes.DesiredSnapshot();
      if p.request.KeepsPendingRoutes() {
        snapshot := p.previous;
      }
    }

    method DiscoverRoutes(
      p: Captured, found: Option<seq<Route>>, ghost st: State, ghost pid: nat)
      returns (discovered: seq<Route>)
      requires Matches(st) && At(st, pid, Discovering) && p.Of(st.procs[pid])
      modifies this`lastDiscovered
      ensures var next := Discovered(env, st, pid, st.procs[pid], found);
              Matches(next) && p.Of(next.procs[pid]) && discovered == next.procs[pid].discovered
    {
      discovered := Discover(found);
    }

    /** Renders and loads. A failed rendering restores the configuration at once. */
    method LoadRendered(
      p: Captured, allRoutes: seq<Route>, outcome: LoadOutcome, ghost st: State, ghost pid: nat)
      returns (rendered: bool, loaded: bool)
      requires Matches(st) && At(st, pid, Rendering) && p.Of(st.procs[pid]) && allRoutes == st.procs[pid].Routes()
      requires p.candidate.None? ==> cfg == p.previousConfig
      modifies this`cfg, this`runtime
      ensures Matches(AfterLoad(env, st, st.procs[pid], outcome))
      ensures rendered == env.render(st.cfg, allRoutes).Some? && loaded == (rendered && outcome.Loaded?)
    {
      var document := env.render(cfg, allRoutes);
      if document.None? {
        if p.candidate.Some? {
          UpdateConfig(p.previousConfig);
        }
        return false, false;
      }
      loaded := LoadRuntime(document.value, outcome);
      return true, loaded;
    }

    method Rollback(p: Captured, outcome: LoadOutcome, ghost st: State, ghost pid: nat)
      requires Matches(st) && At(st, pid, Restoring) && p.Of(st.procs[pid])
      requires p.candidate.None? ==> cfg == p.previousConfig
      modifies this`cfg, this`runtime
      ensures Matches(RestoredState(env, st, pid, st.procs[pid], outcome))
    {
      RestoreRuntime(p.candidate, p.previousConfig, p.previous, p.previousDiscovered, p.previousRuntime, outcome);
    }

    /** A result is published unless a newer synchronization has begun. */
    method Publish(taken: nat, health: Option<seq<Status>>)
      requires routes.Valid()
      modifies this`last, routes
      ensures routes.Valid()
      ensures last == if generation == taken then Some(taken) else old(last)
      ensures routes.Value() ==
              if generation == taken && health.Some? then WithStatuses(old(routes.Value()), health.value)
              else old(routes.Value())
    {
      hide Inv, WithStatuses;
      if generation == taken {
        if health.Some? {
          routes.SetRuntimeStatus(health.value);
        }
        last := Some(taken);
      }
    }

    /** The end of every synchronization: its result is published, its checks' context ends, and after a failure the
        lock it still holds is released. */
    method Finish(p: Captured, health: Option<seq<Status>>, failed: bool, ghost st: State, ghost pid: nat)
      requires Matches(st) && routes.Valid() && pid in st.procs && p.generation == st.procs[pid].generation
      requires st.procs[pid].health == health
      requires (st.procs[pid].phase == Failing) == failed
      modifies this`last, this`cancelled, this`syncLocked, routes
      ensures Matches(FinishedState(st, pid, st.procs[pid])) && routes.Valid()
    {
      hide Inv, WithStatuses, FinishedState;
      FinishedFields(st, pid);
      Publish(p.generation, health);
      cancelled := cancelled + {p.generation};
      if failed {
        syncLocked := false;
      }
    }

    method RunAzure(p: Captured, ghost st: State, ghost pid: nat) returns (started: bool)
      requires Matches(st) && At(st, pid, QueuedForAzure) && p.generation == st.procs[pid].generation
      modifies this`azureRuns
      ensures Matches(EnteredAzure(st, pid, st.procs[pid]))
      ensures started == (p.generation !in st.cancelled)
    {
      started := p.generation !in cancelled;
      if started {
        azureRuns := azureRuns + [p.generation];
      }
    }

    /** Under the lock, from the prepared configuration to the loaded one: discover, render, load, and commit or roll
        back. */
    method Attempt(
      p: Captured, answers: Answers, ghost first: State, ghost before: seq<Step>, ghost st: State, ghost pid: nat)
      returns (ok: bool, ghost steps: seq<Step>, ghost end: State)
      requires Ran(env, pid, answers, first, before, st) && Matches(st) && routes.net == env.net
      requires At(st, pid, Preparing) && p.Of(st.procs[pid]) && st.procs[pid].health.None?
      modifies this, routes
      ensures Ran(env, pid, answers, first, steps, end) && Matches(end) && Ended(p, ok, end, pid)
      ensures end.azureLock == st.azureLock
    {
      hide Ran, Matches, Prepared, Discovered, Edited, Ended;
      HolderFacts(env, answers, first, before, st, pid);
      CfgMatches(st);
      var snapshot := PrepareConfig(p, st, pid);
      RanUnderLock(env, pid, answers, first, before, st, Prepare(pid));
      ghost var s1 := Prepared(st, pid, st.procs[pid]);
      PreparedShape(st, pid);
      var discovered := DiscoverRoutes(p, answers.found, s1, pid);
      RanUnderLock(env, pid, answers, first, before + [Prepare(pid)], s1, Step.Discover(pid, answers.found));
      ghost var s2 := Discovered(env, s1, pid, s1.procs[pid], answers.found);
      DiscoveredShape(env, s1, pid, answers.found);
      ghost var taken := before + [Prepare(pid)] + [Step.Discover(pid, answers.found)];
      ok, steps, end := LoadAndSettle(p, snapshot, discovered, answers, first, taken, s2, pid);
    }

    method LoadAndSettle(
      p: Captured, snapshot: Snapshot, discovered: seq<Route>, answers: Answers,
      ghost first: State, ghost before: seq<Step>, ghost st: State, ghost pid: nat)
      returns (ok: bool, ghost steps: seq<Step>, ghost end: State)
      requires Ran(env, pid, answers, first, before, st) && Matches(st) && routes.net == env.net
      requires At(st, pid, Rendering) && p.Of(st.procs[pid]) && st.procs[pid].health.None?
      requires st.procs[pid].snapshot == snapshot && st.procs[pid].discovered == discovered
      modifies this, routes
      ensures Ran(env, pid, answers, first, steps, end) && Matches(end) && Ended(p, ok, end, pid)
      ensures end.azureLock == st.azureLock
    {
      hide Ran, Matches, AfterLoad, ProcAfterLoad, Edited, CommittedState, RestoredState, Inv, Genuine;
      HolderFacts(env, answers, first, before, st, pid);
      CfgMatches(st);
      var rendered, loaded := LoadRendered(p, snapshot.routes + discovered, answers.load, st, pid);
      RanUnderLock(env, pid, answers, first, before, st, Load(pid, answers.load));
      ghost var s1 := LoadedState(env, st, pid, st.procs[pid], answers.load);
      PutMatches(AfterLoad(env, st, st.procs[pid], answers.load), pid,
                 ProcAfterLoad(env, st, st.procs[pid], answers.load));
      steps := before + [Load(pid, answers.load)];
      LoadedShape(env, st, pid, answers.load, p);
      if loaded {
        ok, steps, end := CommitOrRollBack(p, snapshot, answers, first, steps, s1, pid);
      } else if rendered && p.candidate.Some? {
        steps, end := RollBack(p, answers, first, steps, s1, pid);
        ok := false;
      } else {
        ok, end := false, s1;
      }
    }

    method CommitOrRollBack(
      p: Captured, snapshot: Snapshot, answers: Answers, ghost first: State, ghost before: seq<Step>, ghost st: State,
      ghost pid: nat)
      returns (ok: bool, ghost steps: seq<Step>, ghost end: State)
      requires Ran(env, pid, answers, first, before, st) && Matches(st) && routes.net == env.net
      requires At(st, pid, Committing) && p.Of(st.procs[pid]) && st.procs[pid].health.None?
      requires st.procs[pid].snapshot == snapshot
      modifies this, routes
      ensures Ran(env, pid, answers, first, steps, end) && Matches(end) && Ended(p, ok, end, pid)
      ensures end.azureLock == st.azureLock
    {
      hide Ran, Matches, CommitEffects, Edited, Genuine, Inv;
      HolderFacts(env, answers, first, before, st, pid);
      StoreMatches(st);
      ok := Commit(p, snapshot, answers.saves, st, st.procs[pid]);
      RanUnderLock(env, pid, answers, first, before, st, Step.Commit(pid, answers.saves));
      ghost var s1 := CommittedState(st, pid, st.procs[pid], answers.saves);
      steps := before + [Step.Commit(pid, answers.saves)];
      ghost var effects := CommitEffects(st, st.procs[pid], answers.saves).0;
      CommittedMatches(st, pid, answers.saves);
      CommittedProc(st, pid, answers.saves, p);
      if ok {
        end := s1;
      } else {
        steps, end := RollBack(p, answers, first, steps, s1, pid);
      }
    }

    method RollBack(
      p: Captured, answers: Answers, ghost first: State, ghost before: seq<Step>, ghost st: State, ghost pid: nat)
      returns (ghost steps: seq<Step>, ghost end: State)
      requires Ran(env, pid, answers, first, before, st) && Matches(st)
      requires At(st, pid, Restoring) && p.Of(st.procs[pid]) && st.procs[pid].health.None?
      modifies this`cfg, this`runtime
      ensures Ran(env, pid, answers, first, steps, end) && Matches(end) && Ended(p, false, end, pid)
      ensures end.azureLock == st.azureLock
    {
      hide Ran, Matches, AfterRestore, Edited;
      HolderFacts(env, answers, first, before, st, pid);
      CfgMatches(st);
      Rollback(p, answers.rollback, st, pid);
      RanUnderLock(env, pid, answers, first, before, st, Restore(pid, answers.rollback));
      steps, end := before
        + [Restore(pid, answers.rollback)], RestoredState(env, st, pid, st.procs[pid], answers.rollback);
    }

    lemma CfgMatches(st: State)
      requires Matches(st)
      ensures st.cfg == cfg
    {
    }

    lemma StoreMatches(st: State)
      requires Matches(st)
      ensures st.store == routes.Value()
    {
    }

    /** The fields do not show the records of the processes under way. */
    lemma PutMatches(st: State, pid: nat, p: Proc)
      requires Matches(st)
      ensures Matches(Put(st, pid, p))
    {
    }

    lemma CommittedMatches(st: State, pid: nat, saves: Saves)
      requires At(st, pid, Committing) && Matches(CommitEffects(st, st.procs[pid], saves).0)
      ensures Matches(CommittedState(st, pid, st.procs[pid], saves))
    {
      hide CommitEffects, Matches;
        var (next, ok) := CommitEffects(st, st.procs[pid], saves);
      HistoryMatches(next);
      PutMatches(next, pid, st.procs[pid].(phase := Restoring));
      PutMatches(next.(astray := false), pid, st.procs[pid].(phase := Releasing));
    }

    lemma HistoryMatches(st: State)
      requires Matches(st)
      ensures Matches(st.(astray := false))
    {
    }

    /** After the load: the lock is released, then health checks, Azure and the result. */
    method Complete(
      p: Captured, answers: Answers, ghost first: State, ghost before: seq<Step>, ghost st: State, ghost pid: nat)
      returns (ghost steps: seq<Step>, ghost end: State)
      requires Ran(env, pid, answers, first, before, st) && Matches(st) && routes.net == env.net && st.azureLock.None?
      requires At(st, pid, Releasing) && p.generation == st.procs[pid].generation
      modifies this, routes
      ensures Ran(env, pid, answers, first, steps, end) && Matches(end) && end.syncLock.None? && pid !in end.procs
    {
      hide Ran, Matches, Edited, Released;
      Unlock(st, pid);
      RanOn(env, pid, answers, first, before, st, Release(pid));
      ReleasedShape(st, pid);
      steps, end := CheckAndPublish(p, answers, first, before + [Release(pid)], Released(st, pid, st.procs[pid]), pid);
    }

    /** Health checks, Azure unless a newer generation has replaced this one, and the result. */
    method CheckAndPublish(
      p: Captured, answers: Answers, ghost first: State, ghost before: seq<Step>, ghost st: State, ghost pid: nat)
      returns (ghost steps: seq<Step>, ghost end: State)
      requires Ran(env, pid, answers, first, before, st) && Matches(st) && routes.net == env.net && st.azureLock.None?
      requires st.syncLock.None?
      requires At(st, pid, Checking) && p.generation == st.procs[pid].generation
      modifies this, routes
      ensures Ran(env, pid, answers, first, steps, end) && Matches(end) && end.syncLock.None? && pid !in end.procs
    {
      hide Ran, Matches, Edited, Checked, FinishedState, Inv, WithStatuses, EnteredAzure;
      var health := if env.hasHealth then answers.statuses else None;
      RanOn(env, pid, answers, first, before, st, Check(pid, answers.statuses));
      CheckedShape(env, st, pid, answers.statuses);
      steps, end := before + [Check(pid, answers.statuses)], Checked(env, st, pid, st.procs[pid], answers.statuses);
      assert Matches(end) by {
        PutMatches(st, pid, end.procs[pid]);
      }
      if env.hasAzure {
        steps, end := Azure(p, answers, first, steps, end, pid);
      }
      steps, end := PublishRun(p, health, answers, first, steps, end, pid);
    }

    method PublishRun(
      p: Captured, health: Option<seq<Status>>, ghost answers: Answers, ghost first: State, ghost before: seq<Step>,
      ghost st: State, ghost pid: nat)
      returns (ghost steps: seq<Step>, ghost end: State)
      requires Ran(env, pid, answers, first, before, st) && Matches(st) && routes.net == env.net && st.syncLock.None?
      requires At(st, pid, Finishing) && p.generation == st.procs[pid].generation && st.procs[pid].health == health
      modifies this, routes
      ensures Ran(env, pid, answers, first, steps, end) && Matches(end) && end.syncLock.None? && pid !in end.procs
    {
      hide Ran, Matches, Edited, FinishedState, Inv, WithStatuses;
      StoreMatches(st);
      StoreIsSound(env, pid, answers, first, before, st);
      FinishedFields(st, pid);
      Finish(p, health, false, st, pid);
      RanOn(env, pid, answers, first, before, st, Step.Finish(pid));
      steps, end := before + [Step.Finish(pid)], FinishedState(st, pid, st.procs[pid]);
    }

    method Azure(
      p: Captured, ghost answers: Answers, ghost first: State, ghost before: seq<Step>, ghost st: State,
      ghost pid: nat)
      returns (ghost steps: seq<Step>, ghost end: State)
      requires Ran(env, pid, answers, first, before, st) && Matches(st) && st.azureLock.None?
      requires At(st, pid, QueuedForAzure) && p.generation == st.procs[pid].generation
      modifies this`azureRuns
      ensures Ran(env, pid, answers, first, steps, end) && Matches(end) && end.syncLock == st.syncLock
      ensures pid in end.procs && end.procs[pid] == st.procs[pid].(phase := Finishing)
    {
      hide Ran, Matches, Edited;
      var started := RunAzure(p, st, pid);
      RanOn(env, pid, answers, first, before, st, EnterAzure(pid));
      steps, end := before + [EnterAzure(pid)], EnteredAzure(st, pid, st.procs[pid]);
      if started {
        RanOn(env, pid, answers, first, steps, end, LeaveAzure(pid));
        UnlockAzureMatches(end, pid);
        steps, end := steps + [LeaveAzure(pid)], LeftAzure(end, pid, end.procs[pid]);
      }
    }

    method Unlock(ghost st: State, ghost pid: nat)
      requires Matches(st) && At(st, pid, Releasing)
      modifies this`syncLocked
      ensures Matches(Released(st, pid, st.procs[pid]))
    {
      syncLocked := false;
    }

    lemma UnlockAzureMatches(st: State, pid: nat)
      requires Matches(st) && At(st, pid, InAzure)
      ensures Matches(LeftAzure(st, pid, st.procs[pid]))
    {
    }

    /** Reads the previous runtime, attempts the change, and completes or reports the failure. */
    method Locked(
      p: Captured, answers: Answers, ghost first: State, ghost before: seq<Step>, ghost st: State, ghost pid: nat)
      returns (ghost steps: seq<Step>, ghost end: State)
      requires Ran(env, pid, answers, first, before, st) && Matches(st) && routes.net == env.net && st.azureLock.None?
      requires At(st, pid, if p.candidate.Some? && env.hasReader then Reading else Preparing)
      requires p.Of(st.procs[pid]) && st.procs[pid].health.None?
      modifies this, routes
      ensures Ran(env, pid, answers, first, steps, end) && Matches(end) && end.syncLock.None? && pid !in end.procs
    {
      hide Ran, Matches, Edited, RuntimeRead;
      var ok := true;
      var q := p;
      steps, end := before, st;
      if p.candidate.Some? && env.hasReader {
        q := ReadPrevious(p, answers.readOk, st, pid);
        RanUnderLock(env, pid, answers, first, before, st, ReadRuntime(pid, answers.readOk));
        RuntimeReadShape(st, pid, answers.readOk);
        steps, end := before + [ReadRuntime(pid, answers.readOk)], RuntimeRead(st, pid, st.procs[pid], answers.readOk);
        ok := answers.readOk;
      }
      if ok {
        ok, steps, end := Attempt(q, answers, first, steps, end, pid);
      }
      if ok {
        steps, end := Complete(q, answers, first, steps, end, pid);
      } else {
        steps, end := Fail(q, answers, first, steps, end, pid);
      }
    }

    method Fail(
      p: Captured, ghost answers: Answers, ghost first: State, ghost before: seq<Step>, ghost st: State,
      ghost pid: nat)
      returns (ghost steps: seq<Step>, ghost end: State)
      requires Ran(env, pid, answers, first, before, st) && Matches(st) && routes.net == env.net
      requires Ended(p, false, st, pid)
      modifies this, routes
      ensures Ran(env, pid, answers, first, steps, end) && Matches(end) && end.syncLock.None? && pid !in end.procs
    {
      hide Ran, Matches, Edited, FinishedState, Inv;
      StoreMatches(st);
      StoreIsSound(env, pid, answers, first, before, st);
      FinishedFields(st, pid);
      Finish(p, None, true, st, pid);
      RanOn(env, pid, answers, first, before, st, Step.Finish(pid));
      steps, end := before + [Step.Finish(pid)], FinishedState(st, pid, st.procs[pid]);
    }

    lemma Published(st: State, end: State, committed: bool, answers: Answers)
      requires Matches(end) && Reports(env, st, answers, committed, end)
      ensures last == Some(generation) && generation == st.generation + 1 && generation in cancelled
    {
    }

    /** One request from its arrival to its result. It is a run of the protocol; `Outcome` and `RunsInTheEnd`
        say what it leaves. */
    method Sync(
      request: Request, answers: Answers, ghost st: State, ghost pid: nat)
      returns (ghost steps: seq<Step>, ghost end: State)
      requires Safe(env, st) && Matches(st) && routes.net == env.net
      requires Enabled(env, st, Begin(pid, request)) && st.syncLock.None? && st.azureLock.None?
      modifies this, routes
      ensures Ran(env, pid, answers, Began(st, pid, request), steps, end) && Matches(end) && end.syncLock.None?
      ensures pid !in end.procs
      ensures Outcome(env, st, request, answers, end) && RunsInTheEnd(env, st, request, answers, end)
      ensures last == Some(generation) && generation in cancelled
    {
      hide Ran, Matches, Edited, Safe, NewProc, Commits, Done, Undone, RunsInTheEnd;
      ghost var begun := Began(st, pid, request);
      SafeStep(env, st, Begin(pid, request));
      RanNothing(env, pid, answers, begun);
      BeganShape(st, pid, request);
      var p := Take(request, st, pid);
      RanOn(env, pid, answers, begun, [], begun, Acquire(pid));
      steps, end := [] + [Acquire(pid)], Acquired(env, begun, pid, begun.procs[pid]);
      AcquiredShape(env, begun, pid);
      steps, end := Locked(p, answers, begun, steps, end, pid);
      UninterruptedOutcome(env, st, pid, request, answers, steps, end);
      RuntimeOfUninterrupted(env, st, pid, request, answers, steps, end);
      Published(st, end, Commits(env, st, request, answers), answers);
    }
  }

  lemma ReleasedShape(st: State, pid: nat)
    requires At(st, pid, Releasing)
    ensures var next := Released(st, pid, st.procs[pid]);
            && At(next, pid, Checking) && next.procs[pid].generation == st.procs[pid].generation
            && next.syncLock.None? && next.azureLock == st.azureLock
  {
  }

  lemma CheckedShape(env: Env, st: State, pid: nat, statuses: Option<seq<Status>>)
    requires At(st, pid, Checking)
    ensures var next := Checked(env, st, pid, st.procs[pid], statuses);
            && At(next, pid, if env.hasAzure then QueuedForAzure else Finishing)
            && next == Put(st, pid, next.procs[pid])
            && next.procs[pid].generation == st.procs[pid].generation
            && next.procs[pid].health == (if env.hasHealth then statuses else None)
            && next.syncLock == st.syncLock && next.azureLock == st.azureLock
  {
  }

  lemma RuntimeReadShape(st: State, pid: nat, ok: bool)
    requires At(st, pid, Reading)
    ensures var next := RuntimeRead(st, pid, st.procs[pid], ok);
            && At(next, pid, if ok then Preparing else Failing) && next.procs[pid].health == st.procs[pid].health
            && next.procs[pid].generation == st.procs[pid].generation && next.azureLock == st.azureLock
  {
  }

  lemma BeganShape(st: State, pid: nat, request: Request)
    ensures var next := Began(st, pid, request);
            At(next, pid, Waiting) && next.syncLock == st.syncLock && next.azureLock == st.azureLock
  {
    hide NewProc;
    NewProcShape(st, request);
  }

  lemma AcquiredShape(env: Env, st: State, pid: nat)
    requires At(st, pid, Waiting)
    ensures var p := st.procs[pid];
            At(Acquired(env, st, pid, p), pid, if p.candidate.Some? && env.hasReader then Reading else Preparing)
            && Acquired(env, st, pid, p).azureLock == st.azureLock
  {
  }

  lemma StoreIsSound(env: Env, pid: nat, answers: Answers, first: State, steps: seq<Step>, st: State)
    requires Ran(env, pid, answers, first, steps, st)
    ensures Inv(env.net, st.store)
  {
    hide Locks, Generations, Files, Inv, Run;
  }

  ghost predicate Ended(p: Captured, ok: bool, end: State, pid: nat) {
    && At(end, pid, if ok then Releasing else Failing) && end.procs[pid].generation == p.generation
    && end.procs[pid].health.None?
  }

  lemma HolderFacts(env: Env, answers: Answers, first: State, steps: seq<Step>, st: State, pid: nat)
    requires Ran(env, pid, answers, first, steps, st) && pid in st.procs && HoldsSync(st.procs[pid].phase)
    ensures var p := st.procs[pid];
            && Inv(env.net, st.store)
            && (p.phase == Preparing ==> st.cfg == p.previous)
            && (p.phase in {Rendering, Committing, Restoring} && p.candidate.None? ==> st.cfg == p.previous)
            && (p.phase == Committing ==> Genuine(env.net, st.store, p.snapshot))
  {
    hide Run, Generations, Files, Inv, Genuine, Faithful;
  }

  lemma PreparedShape(st: State, pid: nat)
    requires At(st, pid, Preparing)
    ensures var next := Prepared(st, pid, st.procs[pid]);
            At(next, pid, Discovering) && next.procs[pid].health == st.procs[pid].health
  {
    hide Desired;
  }

  lemma DiscoveredShape(env: Env, st: State, pid: nat, found: Option<seq<Route>>)
    requires At(st, pid, Discovering)
    ensures var next := Discovered(env, st, pid, st.procs[pid], found);
            At(next, pid, Rendering) && next.procs[pid].health == st.procs[pid].health
            && next.procs[pid].snapshot == st.procs[pid].snapshot
  {
  }

  lemma LoadedShape(env: Env, st: State, pid: nat, outcome: LoadOutcome, p: Captured)
    requires At(st, pid, Rendering) && p.Of(st.procs[pid])
    ensures var rendered := env.render(st.cfg, st.procs[pid].Routes()).Some?;
            var next := LoadedState(env, st, pid, st.procs[pid], outcome).procs[pid];
            && p.Of(next) && next.health == st.procs[pid].health && next.snapshot == st.procs[pid].snapshot
            && next.phase ==
               (if rendered && outcome.Loaded? then Committing else if rendered && p.candidate.Some? then Restoring
                else Failing)
  {
    hide AfterLoad;
  }

  lemma CommittedProc(st: State, pid: nat, saves: Saves, p: Captured)
    requires At(st, pid, Committing) && p.Of(st.procs[pid])
    ensures var next := CommittedState(st, pid, st.procs[pid], saves).procs[pid];
            && p.Of(next) && next.health == st.procs[pid].health
            && next.phase == (if CommitEffects(st, st.procs[pid], saves).1 then Releasing else Restoring)
  {
    hide CommitEffects;
  }

  lemma FinishedFields(st: State, pid: nat)
    requires pid in st.procs
    ensures var p := st.procs[pid];
            var next := FinishedState(st, pid, p);
            && next.syncLock == (if p.phase == Failing then None else st.syncLock)
            && next.cancelled == st.cancelled + {p.generation}
            && next.store ==
               (if st.generation == p.generation && p.health.Some? then WithStatuses(st.store, p.health.value)
                else st.store)
            && (if st.generation == p.generation then Shows(next.published, Some(p.generation))
                else next.published == st.published)
            && next.runtime == st.runtime && next.cfg == st.cfg && next.served == st.served
            && next.lastDiscovered == st.lastDiscovered
            && next.settingsFile == st.settingsFile && next.certificateFile == st.certificateFile
            && next.draft == st.draft
            && next.generation == st.generation && next.cancelChecks == st.cancelChecks
            && next.azureStarts == st.azureStarts
            && pid !in next.procs
  {
    hide WithStatuses;
  }

  function Confirming(st: State, confirmed: Option<StoreState>): (State, bool) {
    match confirmed case Some(s) => (st.(store := s), true) case None => (st, false)
  }

  lemma SimpleEffects(st: State, p: Proc, saves: Saves)
    ensures p.request.Background? ==> CommitEffects(st, p, saves) == (st, true)
    ensures p.request.Plain? ==>
              CommitEffects(st, p, saves) == Confirming(st, Confirm(st.store, p.snapshot, saves.store))
    ensures p.request.Apply? ==> CommitEffects(st, p, saves) == PersistImport(st, p.snapshot, saves)
  {
    hide Confirm, PersistImport;
  }

  lemma LiveEffects(st: State, p: Proc, saves: Saves)
    requires p.request.UpdateCertificate? || p.request.UpdateSecurity? || p.request.RotateToken?
    ensures CommitEffects(st, p, saves) ==
            if p.request.UpdateCertificate? then
              if saves.certificate
              then (st.(certificateFile := Some(p.request.certificate), served := p.Tried(), cfg := p.Tried()), true)
              else (st, false)
            else if saves.settings then (st.(settingsFile := p.toSave, served := p.Tried(), cfg := p.Tried()), true)
            else (st, false)
  {
    hide Confirm, PersistImport;
  }

  /** What a synchronization captures when it starts. */
  datatype Captured = Captured(
    request: Request, candidate: Option<Config>, toSave: Option<Settings>, generation: nat,
    previousConfig: Config, previous: Snapshot, previousDiscovered: seq<Route>, previousRuntime: string)
  {
    ghost predicate Of(p: Proc) {
      && request == p.request && candidate == p.candidate && toSave == p.toSave && generation == p.generation
      && previousConfig == p.previous && previous == p.previousApplied && previousDiscovered == p.previousDiscovered
      && previousRuntime == p.read
    }
  }

  lemma PersistImportFields(st: State, snapshot: Snapshot, saves: Saves)
    ensures var (next, ok) := PersistImport(st, snapshot, saves);
            && ok == ((st.draft.Some? ==> saves.settings && saves.certificate)
                      && Confirm(st.store, snapshot, saves.store).Some?)
            && next.store == (if ok then Applied(st.store, snapshot) else st.store)
            && Landed(st.draft, saves, ok, st.settingsFile, st.certificateFile, next.settingsFile, next.certificateFile)
            && next.draft == (if ok then None else st.draft)
            && next.served == (if ok && st.draft.Some? then st.draft.value.live else st.served)
            && next.cfg == (if ok && st.draft.Some? then st.draft.value.live else st.cfg)
  {
    hide Applied, Confirm;
    ConfirmIsApplied(st.store, snapshot, saves.store);
  }

  lemma LandedOnce(
    draft: Option<Draft>, saves: Saves, ok: bool, settings: Option<Settings>, certificate: Option<string>,
    settings1: Option<Settings>, certificate1: Option<string>, settings2: Option<Settings>,
    certificate2: Option<string>)
    requires Landed(draft, saves, ok, settings, certificate, settings1, certificate1)
    requires Landed(draft, saves, ok, settings, certificate, settings2, certificate2)
    ensures settings1 == settings2 && certificate1 == certificate2
  {
  }
}
