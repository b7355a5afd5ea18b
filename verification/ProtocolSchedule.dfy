/** What every step of the protocol keeps: locks, and the order of generations. */
module ProtocolSchedule {
  import opened Text
  import opened Routing
  import opened StoreSpec
  import opened Protocol

  // ---------- What steps leave alone ----------

  /** Locks, generations and histories: what the safety of scheduling depends on. */
  predicate SameSchedule(st: State, next: State) {
    && next.syncLock == st.syncLock && next.azureLock == st.azureLock && next.mutationLock == st.mutationLock
    && next.generation == st.generation && next.cancelChecks == st.cancelChecks && next.cancelled == st.cancelled
    && next.azureStarts == st.azureStarts && next.published == st.published
  }

  predicate UnderLock(step: Step) {
    step.ReadRuntime? || step.Prepare? || step.Discover? || step.Load? || step.Commit? || step.Restore?
  }

  predicate FromOutside(step: Step) {
    step.Edit? || step.StageImport? || step.SaveSystem?
  }

  /** A step under the lock moves its own process along and keeps the schedule. */
  ghost predicate Quiet(st: State, next: State, pid: nat) {
    && SameSchedule(st, next)
    && pid in st.procs && next.procs.Keys == st.procs.Keys
    && HoldsSync(st.procs[pid].phase) && HoldsSync(next.procs[pid].phase)
    && next.procs[pid].request == st.procs[pid].request && next.procs[pid].generation == st.procs[pid].generation
    && forall q <- st.procs :: q != pid ==> next.procs[q] == st.procs[q]
  }

  /** What runs and what was discovered. */
  predicate KeepsRuntime(st: State, next: State) {
    && next.runtime == st.runtime && next.astray == st.astray
    && next.lastDiscovered == st.lastDiscovered && next.everDiscovered == st.everDiscovered
  }

  lemma PersistTouches(st: State, snapshot: Snapshot, saves: Saves)
    ensures var next := PersistImport(st, snapshot, saves).0;
            SameSchedule(st, next) && next.procs == st.procs && KeepsRuntime(st, next)
  {
    hide Confirm;
  }

  lemma CommitTouches(st: State, p: Proc, saves: Saves)
    ensures var next := CommitEffects(st, p, saves).0;
            SameSchedule(st, next) && next.procs == st.procs && KeepsRuntime(st, next)
  {
    hide Confirm, PersistImport;
    PersistTouches(st, p.snapshot, saves);
  }

  lemma PutIsQuiet(st: State, changed: State, pid: nat, p: Proc)
    requires SameSchedule(st, changed) && changed.procs == st.procs && pid in st.procs
    requires HoldsSync(st.procs[pid].phase) && HoldsSync(p.phase)
    requires p.request == st.procs[pid].request && p.generation == st.procs[pid].generation
    ensures Quiet(st, Put(changed, pid, p), pid)
  {
  }

  lemma NewProcShape(st: State, request: Request)
    ensures NewProc(st, request).request == request && NewProc(st, request).phase == Waiting
  {
    hide EffectiveSettings;
  }

  lemma CommitIsQuiet(st: State, pid: nat, saves: Saves)
    requires At(st, pid, Committing)
    ensures Quiet(st, CommittedState(st, pid, st.procs[pid], saves), pid)
  {
    hide CommitEffects;
    CommitTouches(st, st.procs[pid], saves);
  }

  lemma LoadTouches(env: Env, st: State, p: Proc, outcome: LoadOutcome)
    ensures var next := AfterLoad(env, st, p, outcome);
            next == st.(cfg := next.cfg, runtime := next.runtime, astray := next.astray)
    ensures var moved := ProcAfterLoad(env, st, p, outcome);
            moved == p.(phase := moved.phase, restored := moved.restored)
            && moved.phase in {Committing, Restoring, Failing}
  {
  }

  lemma RestoreTouches(env: Env, st: State, p: Proc, outcome: LoadOutcome)
    ensures var next := AfterRestore(env, st, p, outcome);
            next == st.(cfg := next.cfg, runtime := next.runtime, astray := next.astray)
  {
    hide RollbackDocument, Ineffective;
  }

  lemma LoadIsQuiet(env: Env, st: State, pid: nat, outcome: LoadOutcome)
    requires At(st, pid, Rendering)
    ensures Quiet(st, LoadedState(env, st, pid, st.procs[pid], outcome), pid)
  {
    hide Quiet, AfterLoad, ProcAfterLoad;
    var p := st.procs[pid];
    LoadTouches(env, st, p, outcome);
    PutIsQuiet(st, AfterLoad(env, st, p, outcome), pid, ProcAfterLoad(env, st, p, outcome));
  }

  lemma RestoreIsQuiet(env: Env, st: State, pid: nat, outcome: LoadOutcome)
    requires At(st, pid, Restoring)
    ensures Quiet(st, RestoredState(env, st, pid, st.procs[pid], outcome), pid)
  {
    hide Quiet, AfterRestore;
    var p := st.procs[pid];
    RestoreTouches(env, st, p, outcome);
    var back := AfterRestore(env, st, p, outcome);
    PutIsQuiet(st, back, pid, p.(phase := Failing, restored := back.runtime == p.runtimeBefore));
  }

  lemma EarlyStepsAreQuiet(env: Env, st: State, pid: nat, ok: bool, found: Option<seq<Route>>)
    ensures At(st, pid, Reading) ==> Quiet(st, RuntimeRead(st, pid, st.procs[pid], ok), pid)
    ensures At(st, pid, Preparing) ==> Quiet(st, Prepared(st, pid, st.procs[pid]), pid)
    ensures At(st, pid, Discovering) ==> Quiet(st, Discovered(env, st, pid, st.procs[pid], found), pid)
  {
  }

  lemma UnderLockIsQuiet(env: Env, st: State, step: Step)
    requires Enabled(env, st, step) && UnderLock(step)
    ensures Quiet(st, Next(env, st, step), step.pid)
  {
    hide Edited, Quiet, CommittedState, LoadedState, RestoredState, RuntimeRead, Prepared, Discovered;
    match step
    case ReadRuntime(pid, ok) => EarlyStepsAreQuiet(env, st, pid, ok, None);
    case Prepare(pid) => EarlyStepsAreQuiet(env, st, pid, true, None);
    case Discover(pid, found) => EarlyStepsAreQuiet(env, st, pid, true, found);
    case Load(pid, outcome) => LoadIsQuiet(env, st, pid, outcome);
    case Commit(pid, saves) => CommitIsQuiet(st, pid, saves);
    case Restore(pid, outcome) => RestoreIsQuiet(env, st, pid, outcome);
    case _ =>
  }

  lemma OutsideKeepsSchedule(env: Env, st: State, step: Step)
    requires Enabled(env, st, step) && FromOutside(step)
    ensures SameSchedule(st, Next(env, st, step)) && Next(env, st, step).procs == st.procs
  {
    hide Edited, NewDraft, EffectiveSettings;
  }

  // ---------- Locks ----------

  /** The holder of each lock is the only process in the phases that need it. */
  ghost predicate Locks(st: State) {
    && (st.syncLock.Some? ==> st.syncLock.value in st.procs && HoldsSync(st.procs[st.syncLock.value].phase))
    && (st.azureLock.Some? ==> At(st, st.azureLock.value, InAzure))
    && (st.mutationLock.Some? ==>
          st.mutationLock.value in st.procs && st.procs[st.mutationLock.value].request.Exclusive())
    && forall pid <- st.procs ::
         && (HoldsSync(st.procs[pid].phase) ==> st.syncLock == Some(pid))
         && (st.procs[pid].phase == InAzure ==> st.azureLock == Some(pid))
         && (st.procs[pid].request.Exclusive() ==> st.mutationLock == Some(pid))
  }

  lemma BeginKeepsLocks(st: State, pid: nat, request: Request)
    requires Locks(st) && (pid !in st.procs && (request.Exclusive() ==> st.mutationLock.None?))
    ensures Locks(Began(st, pid, request))
  {
    hide NewProc;
    NewProcShape(st, request);
  }

  lemma AcquireKeepsLocks(st: State, env: Env, pid: nat)
    requires Locks(st) && (At(st, pid, Waiting) && st.syncLock.None?)
    ensures Locks(Acquired(env, st, pid, st.procs[pid]))
  {
  }

  lemma ReleaseKeepsLocks(st: State, pid: nat)
    requires Locks(st) && (At(st, pid, Releasing))
    ensures Locks(Released(st, pid, st.procs[pid]))
  {
  }

  lemma CheckKeepsLocks(st: State, env: Env, pid: nat, statuses: Option<seq<Status>>)
    requires Locks(st) && (At(st, pid, Checking))
    ensures Locks(Checked(env, st, pid, st.procs[pid], statuses))
  {
  }

  lemma EnterAzureKeepsLocks(st: State, pid: nat)
    requires Locks(st) && (At(st, pid, QueuedForAzure) && st.azureLock.None?)
    ensures Locks(EnteredAzure(st, pid, st.procs[pid]))
  {
    hide Locks, EnteredAzure;
    if st.procs[pid].generation in st.cancelled {
      SkipKeepsLocks(st, pid);
    } else {
      StartKeepsLocks(st, pid);
    }
  }

  lemma LeaveAzureKeepsLocks(st: State, pid: nat)
    requires Locks(st) && (At(st, pid, InAzure))
    ensures Locks(LeftAzure(st, pid, st.procs[pid]))
  {
  }

  lemma FinishKeepsLocks(st: State, pid: nat)
    requires Locks(st) && (At(st, pid, Finishing) || At(st, pid, Failing))
    ensures Locks(FinishedState(st, pid, st.procs[pid]))
  {
    hide WithStatuses;
  }

  lemma StartKeepsLocks(st: State, pid: nat)
    requires Locks(st) && At(st, pid, QueuedForAzure) && st.azureLock.None? && st.procs[pid].generation !in st.cancelled
    ensures Locks(EnteredAzure(st, pid, st.procs[pid]))
  {
  }

  lemma SkipKeepsLocks(st: State, pid: nat)
    requires Locks(st) && At(st, pid, QueuedForAzure) && st.procs[pid].generation in st.cancelled
    ensures Locks(EnteredAzure(st, pid, st.procs[pid]))
  {
  }

  lemma QuietKeepsLocks(st: State, next: State, pid: nat)
    requires Locks(st) && Quiet(st, next, pid)
    ensures Locks(next)
  {
  }

  lemma SameLocks(st: State, next: State)
    requires Locks(st) && SameSchedule(st, next) && next.procs == st.procs
    ensures Locks(next)
  {
  }

  lemma LocksKept(env: Env, st: State, step: Step)
    requires Locks(st) && Enabled(env, st, step)
    ensures Locks(Next(env, st, step))
  {
    hide Edited, Locks, Quiet, SameSchedule, Began, Acquired, Released, Checked, EnteredAzure, LeftAzure, FinishedState;
    if UnderLock(step) {
      UnderLockIsQuiet(env, st, step);
      QuietKeepsLocks(st, Next(env, st, step), step.pid);
    } else if FromOutside(step) {
      OutsideKeepsSchedule(env, st, step);
      SameLocks(st, Next(env, st, step));
    } else {
      match step
      case Begin(pid, request) => BeginKeepsLocks(st, pid, request);
      case Acquire(pid) => AcquireKeepsLocks(st, env, pid);
      case Release(pid) => ReleaseKeepsLocks(st, pid);
      case Check(pid, statuses) => CheckKeepsLocks(st, env, pid, statuses);
      case EnterAzure(pid) => EnterAzureKeepsLocks(st, pid);
      case LeaveAzure(pid) => LeaveAzureKeepsLocks(st, pid);
      case Finish(pid) => FinishKeepsLocks(st, pid);
      case Abandon(pid) => AbandonKeepsLocks(st, pid);
    }
  }

  lemma AbandonKeepsLocks(st: State, pid: nat)
    requires Locks(st) && pid in st.procs
    ensures Locks(st.(cancelled := st.cancelled + {st.procs[pid].generation}))
  {
  }

  predicate Increasing(s: seq<nat>) {
    forall i, j :: 0 <= i < j < |s| ==> s[i] < s[j]
  }

  predicate NotYetInAzure(phase: Phase) {
    HoldsSync(phase) || phase == Checking || phase == QueuedForAzure
  }

  lemma IncreasingAppend(s: seq<nat>, last: nat)
    requires Increasing(s) && (forall x <- s :: x <= last) && last !in s
    ensures Increasing(s + [last])
  {
    forall i | 0 <= i < |s| ensures s[i] < last {
      assert s[i] in s;
    }
  }

  // ---------- Generations ----------

  /** Every generation below the current one is cancelled; starts and publications come in increasing order. */
  ghost predicate Generations(st: State) {
    && st.cancelChecks == (if st.generation == 0 then None else Some(st.generation))
    && (forall g: nat :: 1 <= g < st.generation ==> g in st.cancelled)
    && (forall g <- st.cancelled :: g <= st.generation)
    && Increasing(st.azureStarts) && Increasing(st.published)
    && (forall g <- st.azureStarts :: g <= st.generation) && (forall g <- st.published :: g <= st.generation)
    && (forall pid <- st.procs :: st.procs[pid].phase != Waiting ==>
                                    && 1 <= st.procs[pid].generation <= st.generation
                                    && st.procs[pid].generation !in st.published
                                    && (NotYetInAzure(st.procs[pid].phase) ==>
                                          st.procs[pid].generation !in st.azureStarts))
    && (forall p, q :: p in st.procs && q in st.procs && p != q ==>
                         st.procs[p].phase != Waiting && st.procs[q].phase != Waiting ==>
                           st.procs[p].generation != st.procs[q].generation)
  }

  lemma BeginKeepsGenerations(st: State, pid: nat, request: Request)
    requires Generations(st) && (pid !in st.procs && (request.Exclusive() ==> st.mutationLock.None?))
    ensures Generations(Began(st, pid, request))
  {
    hide NewProc;
    NewProcShape(st, request);
  }

  lemma AcquireKeepsGenerations(st: State, env: Env, pid: nat)
    requires Generations(st) && (At(st, pid, Waiting) && st.syncLock.None?)
    ensures Generations(Acquired(env, st, pid, st.procs[pid]))
  {
  }

  lemma ReleaseKeepsGenerations(st: State, pid: nat)
    requires Generations(st) && (At(st, pid, Releasing))
    ensures Generations(Released(st, pid, st.procs[pid]))
  {
  }

  lemma CheckKeepsGenerations(st: State, env: Env, pid: nat, statuses: Option<seq<Status>>)
    requires Generations(st) && (At(st, pid, Checking))
    ensures Generations(Checked(env, st, pid, st.procs[pid], statuses))
  {
  }

  lemma EnterAzureKeepsGenerations(st: State, pid: nat)
    requires Generations(st) && (At(st, pid, QueuedForAzure) && st.azureLock.None?)
    ensures Generations(EnteredAzure(st, pid, st.procs[pid]))
  {
    hide Generations, EnteredAzure;
    if st.procs[pid].generation in st.cancelled {
      SkipKeepsGenerations(st, pid);
    } else {
      StartKeepsGenerations(st, pid);
    }
  }

  lemma LeaveAzureKeepsGenerations(st: State, pid: nat)
    requires Generations(st) && (At(st, pid, InAzure))
    ensures Generations(LeftAzure(st, pid, st.procs[pid]))
  {
  }

  lemma FinishKeepsGenerations(st: State, pid: nat)
    requires Generations(st) && (At(st, pid, Finishing) || At(st, pid, Failing))
    ensures Generations(FinishedState(st, pid, st.procs[pid]))
  {
    hide WithStatuses;
    if st.procs[pid].generation == st.generation {
      IncreasingAppend(st.published, st.generation);
    }
  }

  lemma StartKeepsGenerations(st: State, pid: nat)
    requires Generations(st) && At(st, pid, QueuedForAzure) && st.azureLock.None?
    requires st.procs[pid].generation !in st.cancelled
    ensures Generations(EnteredAzure(st, pid, st.procs[pid]))
  {
    IncreasingAppend(st.azureStarts, st.procs[pid].generation);
  }

  lemma SkipKeepsGenerations(st: State, pid: nat)
    requires Generations(st) && At(st, pid, QueuedForAzure) && st.procs[pid].generation in st.cancelled
    ensures Generations(EnteredAzure(st, pid, st.procs[pid]))
  {
  }

  lemma QuietKeepsGenerations(st: State, next: State, pid: nat)
    requires Generations(st) && Quiet(st, next, pid)
    ensures Generations(next)
  {
  }

  lemma SameGenerations(st: State, next: State)
    requires Generations(st) && SameSchedule(st, next) && next.procs == st.procs
    ensures Generations(next)
  {
  }

  lemma GenerationsKept(env: Env, st: State, step: Step)
    requires Generations(st) && Enabled(env, st, step)
    ensures Generations(Next(env, st, step))
  {
    hide Edited, Generations, Quiet, SameSchedule, Began, Acquired, Released, Checked, EnteredAzure, LeftAzure,
      FinishedState;
    if UnderLock(step) {
      UnderLockIsQuiet(env, st, step);
      QuietKeepsGenerations(st, Next(env, st, step), step.pid);
    } else if FromOutside(step) {
      OutsideKeepsSchedule(env, st, step);
      SameGenerations(st, Next(env, st, step));
    } else {
      match step
      case Begin(pid, request) => BeginKeepsGenerations(st, pid, request);
      case Acquire(pid) => AcquireKeepsGenerations(st, env, pid);
      case Release(pid) => ReleaseKeepsGenerations(st, pid);
      case Check(pid, statuses) => CheckKeepsGenerations(st, env, pid, statuses);
      case EnterAzure(pid) => EnterAzureKeepsGenerations(st, pid);
      case LeaveAzure(pid) => LeaveAzureKeepsGenerations(st, pid);
      case Finish(pid) => FinishKeepsGenerations(st, pid);
      case Abandon(pid) => AbandonKeepsGenerations(st, pid);
    }
  }

  lemma AbandonKeepsGenerations(st: State, pid: nat)
    requires Generations(st) && pid in st.procs && !At(st, pid, Waiting)
    ensures Generations(st.(cancelled := st.cancelled + {st.procs[pid].generation}))
  {
  }
}
