/** The routing store on values: its state, its invariant, what a commit does to it, and what a saved
    file decodes to. */
module StoreSpec {
  import opened Text
  import opened Routing
  import opened RoutingFacts

  const FILE_VERSION := 3

  datatype Error = Invalid | AlreadyExists | NotFound | InUse | SaveFailed | Stale | Unsupported

  datatype Result<+T> = Success(value: T) | Failure(error: Error)

  /** The routes file; `routes` carries the rows of a file older than version 2. */
  datatype Envelope = Envelope(
    version: int, revision: nat, appliedRevision: nat, applied: Option<Resources>, resources: Resources,
    routes: seq<Route>)

  datatype StoreState = StoreState(
    persistent: bool, staged: bool, revision: nat, applied: Snapshot, resources: Resources, routes: seq<Route>,
    disk: Option<Envelope>)

  const EMPTY := Resources(RESOURCE_SET_VERSION, [], [], [])

  function Initial(persistent: bool): StoreState {
    StoreState(persistent, false, 0, Snapshot(EMPTY, [], 0), EMPTY, [], None)
  }

  /** Runtime errors are never written to disk. */
  function WithoutErrors(res: Resources): Resources {
    res.(rules := seq(|res.rules|, i requires 0 <= i < |res.rules| => res.rules[i].(lastError := "")))
  }

  /** The same resources without the runtime errors of the second. */
  predicate SameButErrors(clean: Resources, res: Resources) {
    && clean.version == res.version && clean.listeners == res.listeners && clean.pools == res.pools
    && |clean.rules| == |res.rules|
    && forall i :: 0 <= i < |res.rules| ==> clean.rules[i] == res.rules[i].(lastError := "")
  }

  function CompileAll(res: Resources): seq<Route>
    requires forall r <- res.rules :: Resolves(res, r)
  {
    seq(|res.rules|, i requires 0 <= i < |res.rules| => CompileIn(res, res.rules[i]))
  }

  function CompileOrFail(net: Net, res: Resources, r: Rule): Option<Route> {
    if Compiles(net, res, r) then Some(CompileIn(res, r)) else None
  }

  lemma AllCompiled(net: Net, res: Resources, routes: seq<Route>)
    requires |routes| == |res.rules|
    requires forall k :: 0 <= k < |routes| ==> CompileOrFail(net, res, res.rules[k]) == Some(routes[k])
    ensures Compilable(net, res) && routes == CompileAll(res)
  {
    hide ValidRoute, CompileRule;
    forall r <- res.rules ensures Compiles(net, res, r) {
      var k :| 0 <= k < |res.rules| && r == res.rules[k];
      assert CompileOrFail(net, res, res.rules[k]) == Some(routes[k]);
    }
  }

  lemma NotCompiled(net: Net, res: Resources, i: nat)
    requires i < |res.rules| && CompileOrFail(net, res, res.rules[i]).None?
    ensures !Compilable(net, res)
  {
    assert res.rules[i] in res.rules;
  }

  function Encode(s: StoreState): Envelope {
    Envelope(FILE_VERSION, s.revision, s.applied.revision, Some(WithoutErrors(s.applied.resources)),
             WithoutErrors(s.resources), [])
  }

  predicate Consistent(net: Net, res: Resources, routes: seq<Route>) {
    res.version == RESOURCE_SET_VERSION && WellFormed(net, res) && routes == CompileAll(res)
  }

  /** While an import is staged, the file still describes an earlier state with the same applied snapshot. */
  predicate FileStands(net: Net, s: StoreState) {
    match s.disk
    case None => s.applied == Initial(true).applied
    case Some(file) =>
      && file.resources.version == RESOURCE_SET_VERSION && WellFormed(net, file.resources)
      && file == Encode(s.(revision := file.revision, resources := file.resources))
      && s.applied.revision <= file.revision <= s.revision
      && (s.applied.revision == file.revision ==> WithoutErrors(s.applied.resources) == file.resources)
  }

  /** What every operation keeps. A revision fixes the resources up to runtime errors, and the file describes the state
      in memory or, while an import is staged, the state before it. */
  predicate Inv(net: Net, s: StoreState) {
    && Consistent(net, s.resources, s.routes)
    && Consistent(net, s.applied.resources, s.applied.routes)
    && s.applied.revision <= s.revision
    && (s.applied.revision == s.revision ==> WithoutErrors(s.applied.resources) == WithoutErrors(s.resources))
    && (s.persistent && !s.staged ==> s.disk == Some(Encode(s)) || (s.disk.None? && s == Initial(true)))
    && (s.persistent && s.staged ==> FileStands(net, s))
    && (!s.persistent ==> s.disk.None?)
  }

  /** Saving after a change of the resources: the file follows unless an import is staged. */
  function Saved(s: StoreState): StoreState {
    if s.persistent then s.(disk := Some(Encode(s))) else s
  }

  predicate Committed(s: StoreState, res: Resources, next: StoreState) {
    && (forall r <- res.rules :: Resolves(res, r))
    && var changed := s.(resources := res, routes := CompileAll(res), revision := s.revision + 1);
    next == if s.staged then changed else Saved(changed)
  }

  /** The effect of a successful edit, as the reconciler sees it. */
  predicate Edited(net: Net, s: StoreState, next: StoreState) {
    && Inv(net, next) && next.applied == s.applied && next.persistent == s.persistent && next.revision == s.revision + 1
    && next.disk == if next.persistent && !next.staged then Some(Encode(next)) else s.disk
  }

  /** The invariant without what it says about the file of an unstaged store. */
  predicate Coherent(net: Net, s: StoreState) {
    && Consistent(net, s.resources, s.routes)
    && Consistent(net, s.applied.resources, s.applied.routes)
    && s.applied.revision <= s.revision
    && (s.persistent && s.staged ==> FileStands(net, s))
    && (!s.persistent ==> s.disk.None?)
  }

  lemma CommittedIsEdit(net: Net, s: StoreState, res: Resources, next: StoreState)
    requires Coherent(net, s) && WellFormed(net, res) && res.version == RESOURCE_SET_VERSION && Committed(s, res, next)
    ensures Edited(net, s, next)
  {
  }

  /** Staging leaves the file behind as it is. */
  lemma StagingKeepsFile(net: Net, s: StoreState)
    requires Inv(net, s)
    ensures Coherent(net, s.(staged := true))
  {
    hide WellFormed, CompileAll;
    if s.persistent && !s.staged && s.disk.Some? {
      ErrorsDoNotMatter(net, s.resources);
      NoErrorsTwice(s.resources);
    }
  }

  lemma WellFormedCompiles(net: Net, res: Resources)
    requires WellFormed(net, res)
    ensures Compilable(net, res)
  {
    forall r <- res.rules ensures Compiles(net, res, r) {
      ListenerOfMember(res.listeners, r.listenerId);
      PoolOfMember(res.pools, r.poolId);
      CompiledRouteValidity(net, r, ListenerOf(res.listeners, r.listenerId).value, PoolOf(res.pools, r.poolId).value);
    }
  }

  // ---------- Clashes ----------

  predicate ListenerClash(ls: seq<Listener>, l: Listener) {
    exists e <- ls :: e.id == l.id || SameListener(e, l)
  }

  predicate PoolClash(ps: seq<Pool>, p: Pool) {
    exists e <- ps :: e.id == p.id || Lower(e.name) == Lower(p.name)
  }

  predicate RuleClash(rs: seq<Rule>, r: Rule) {
    exists e <- rs :: e.id == r.id || SamePlace(e, r)
  }

  predicate Acceptable(net: Net, res: Resources, r: Rule) {
    ValidRule(net, r) && Resolves(res, r)
  }

  // ---------- What a single change keeps ----------

  lemma ResolvesById(res: Resources, r: Rule)
    ensures Resolves(res, r) <==>
            (exists l <- res.listeners :: l.id == r.listenerId) && (exists p <- res.pools :: p.id == r.poolId)
  {
    ListenerOfMember(res.listeners, r.listenerId);
    PoolOfMember(res.pools, r.poolId);
  }

  lemma RulesStillResolve(net: Net, res: Resources, next: Resources)
    requires WellFormed(net, res) && forall r <- next.rules :: r in res.rules
    requires forall r <- next.rules, l <- res.listeners ::
               l.id == r.listenerId ==> exists m <- next.listeners :: m.id == l.id
    requires forall r <- next.rules, p <- res.pools :: p.id == r.poolId ==> exists m <- next.pools :: m.id == p.id
    ensures forall r <- next.rules :: GoodRule(net, r) && Resolves(next, r)
  {
    forall r <- next.rules ensures GoodRule(net, r) && Resolves(next, r) {
      ResolvesById(res, r);
      ResolvesById(next, r);
    }
  }

  lemma ListenerAdded(net: Net, res: Resources, l: Listener)
    requires WellFormed(net, res) && GoodListener(l) && !ListenerClash(res.listeners, l)
    ensures WellFormed(net, res.(listeners := res.listeners + [l]))
  {
    hide GoodListener, GoodPool, GoodRule, ListenerOf, PoolOf, Lower, SameListener, SamePlace;
    var next := res.(listeners := res.listeners + [l]);
    assert forall e <- next.listeners :: e in res.listeners || e == l;
    RulesStillResolve(net, res, next);
  }

  function Without<T>(s: seq<T>, i: nat): seq<T>
    requires i < |s|
  {
    s[..i] + s[i + 1..]
  }

  lemma WithoutShape<T>(s: seq<T>, i: nat)
    requires i < |s|
    ensures |Without(s, i)| == |s| - 1
    ensures forall k :: 0 <= k < |s| - 1 ==> Without(s, i)[k] == s[if k < i then k else k + 1]
    ensures forall e <- Without(s, i) :: e in s
    ensures forall e <- s :: e in Without(s, i) || e == s[i]
  {
    forall k | 0 <= k < |s| && k != i ensures s[k] in Without(s, i) {
      assert s[k] == Without(s, i)[if k < i then k else k - 1];
    }
  }

  lemma UpdatedShape<T>(s: seq<T>, i: nat, x: T)
    requires i < |s|
    ensures forall e <- s[i := x] :: e == x || e in s
    ensures forall e <- s :: e in s[i := x] || e == s[i]
    ensures x in s[i := x]
  {
    forall k | 0 <= k < |s| && k != i ensures s[k] in s[i := x] {
      assert s[k] == s[i := x][k];
    }
    assert s[i := x][i] == x;
  }

  lemma UniqueListenersReplaced(ls: seq<Listener>, i: nat, l: Listener)
    requires UniqueListeners(ls) && i < |ls| && ls[i].id == l.id
    requires forall e <- ls :: e.id != l.id ==> !SameListener(e, l)
    ensures UniqueListeners(ls[i := l])
  {
  }

  lemma UniquePoolsReplaced(ps: seq<Pool>, i: nat, p: Pool)
    requires UniquePools(ps) && i < |ps| && ps[i].id == p.id
    requires forall e <- ps :: e.id != p.id ==> Lower(e.name) != Lower(p.name)
    ensures UniquePools(ps[i := p])
  {
  }

  lemma UniqueRulesReplaced(rs: seq<Rule>, i: nat, r: Rule)
    requires UniqueRules(rs) && i < |rs| && rs[i].id == r.id
    requires forall e <- rs :: e.id != r.id ==> !SamePlace(e, r)
    ensures UniqueRules(rs[i := r])
  {
  }

  lemma UniqueWithout(ls: seq<Listener>, ps: seq<Pool>, rs: seq<Rule>, i: nat)
    ensures i < |ls| && UniqueListeners(ls) ==> UniqueListeners(Without(ls, i))
    ensures i < |ps| && UniquePools(ps) ==> UniquePools(Without(ps, i))
    ensures i < |rs| && UniqueRules(rs) ==> UniqueRules(Without(rs, i))
  {
    if i < |ls| { WithoutShape(ls, i); }
    if i < |ps| { WithoutShape(ps, i); }
    if i < |rs| { WithoutShape(rs, i); }
  }

  lemma ListenerReplaced(net: Net, res: Resources, i: nat, l: Listener)
    requires WellFormed(net, res) && i < |res.listeners| && res.listeners[i].id == l.id && GoodListener(l)
    requires forall e <- res.listeners :: e.id != l.id ==> !SameListener(e, l)
    ensures WellFormed(net, res.(listeners := res.listeners[i := l]))
  {
    UniqueListenersReplaced(res.listeners, i, l);
    UpdatedShape(res.listeners, i, l);
    RulesStillResolve(net, res, res.(listeners := res.listeners[i := l]));
  }

  lemma ListenerDeleted(net: Net, res: Resources, i: nat)
    requires WellFormed(net, res) && i < |res.listeners|
    requires forall r <- res.rules :: r.listenerId != res.listeners[i].id
    ensures WellFormed(net, res.(listeners := Without(res.listeners, i)))
  {
    UniqueWithout(res.listeners, [], [], i);
    WithoutShape(res.listeners, i);
    RulesStillResolve(net, res, res.(listeners := Without(res.listeners, i)));
  }

  lemma PoolAdded(net: Net, res: Resources, p: Pool)
    requires WellFormed(net, res) && GoodPool(net, p) && !PoolClash(res.pools, p)
    ensures WellFormed(net, res.(pools := res.pools + [p]))
  {
    hide GoodListener, GoodPool, GoodRule, ListenerOf, PoolOf, Lower, SameListener, SamePlace;
    var next := res.(pools := res.pools + [p]);
    assert forall e <- next.pools :: e in res.pools || e == p;
    RulesStillResolve(net, res, next);
  }

  lemma PoolReplaced(net: Net, res: Resources, i: nat, p: Pool)
    requires WellFormed(net, res) && i < |res.pools| && res.pools[i].id == p.id && GoodPool(net, p)
    requires forall e <- res.pools :: e.id != p.id ==> Lower(e.name) != Lower(p.name)
    ensures WellFormed(net, res.(pools := res.pools[i := p]))
  {
    UniquePoolsReplaced(res.pools, i, p);
    UpdatedShape(res.pools, i, p);
    RulesStillResolve(net, res, res.(pools := res.pools[i := p]));
  }

  lemma PoolDeleted(net: Net, res: Resources, i: nat)
    requires WellFormed(net, res) && i < |res.pools|
    requires forall r <- res.rules :: r.poolId != res.pools[i].id
    ensures WellFormed(net, res.(pools := Without(res.pools, i)))
  {
    UniqueWithout([], res.pools, [], i);
    WithoutShape(res.pools, i);
    RulesStillResolve(net, res, res.(pools := Without(res.pools, i)));
  }

  lemma RuleAdded(net: Net, res: Resources, r: Rule)
    requires WellFormed(net, res) && GoodRule(net, r) && Resolves(res, r) && !RuleClash(res.rules, r)
    ensures WellFormed(net, res.(rules := res.rules + [r]))
  {
    hide GoodListener, GoodPool, GoodRule, ListenerOf, PoolOf, Lower, SameListener, SamePlace;
    var next := res.(rules := res.rules + [r]);
    assert forall e <- next.rules :: e in res.rules || e == r;
  }

  lemma RuleReplaced(net: Net, res: Resources, i: nat, r: Rule)
    requires WellFormed(net, res) && i < |res.rules| && res.rules[i].id == r.id && GoodRule(net, r) && Resolves(res, r)
    requires forall e <- res.rules :: e.id != r.id ==> !SamePlace(e, r)
    ensures WellFormed(net, res.(rules := res.rules[i := r]))
  {
    UniqueRulesReplaced(res.rules, i, r);
    UpdatedShape(res.rules, i, r);
  }

  lemma RuleDeleted(net: Net, res: Resources, i: nat)
    requires WellFormed(net, res) && i < |res.rules|
    ensures WellFormed(net, res.(rules := Without(res.rules, i)))
  {
    UniqueWithout([], [], res.rules, i);
    WithoutShape(res.rules, i);
  }

  /** Rules after one write: appended at the end, or put in place of the rule with the same id. */
  predicate RuleWritten(rs: seq<Rule>, r: Rule, at: nat, next: seq<Rule>) {
    if at == |rs| then next == rs + [r] && !RuleClash(rs, r)
    else at < |rs| && rs[at].id == r.id && next == rs[at := r] && forall e <- rs :: e.id != r.id ==> !SamePlace(e, r)
  }

  lemma WrittenRuleKeeps(net: Net, res: Resources, r: Rule, at: nat, next: seq<Rule>)
    requires WellFormed(net, res) && RuleWritten(res.rules, r, at, next)
    requires r.id != "" && Acceptable(net, res, r) && ValidSecurity(net, NormalizeSecurity(r.security))
    ensures WellFormed(net, res.(rules := next))
  {
    if at == |res.rules| {
      RuleAdded(net, res, r);
    } else {
      RuleReplaced(net, res, at, r);
    }
  }

  lemma WrittenRuleBreaks(net: Net, res: Resources, r: Rule, at: nat, next: seq<Rule>)
    requires WellFormed(net, res) && RuleWritten(res.rules, r, at, next)
    requires Acceptable(net, res, r) && !ValidSecurity(net, NormalizeSecurity(r.security))
    ensures !Compilable(net, res.(rules := next))
  {
    var changed := res.(rules := next);
    assert next[at] == r && r in changed.rules;
    ListenerOfMember(res.listeners, r.listenerId);
    PoolOfMember(res.pools, r.poolId);
    CompiledRouteValidity(net, r, ListenerOf(res.listeners, r.listenerId).value, PoolOf(res.pools, r.poolId).value);
    assert !Compiles(net, changed, r);
  }

  lemma CompletedRuleHasId(r: Rule, freshId: string, now: int)
    requires freshId != ""
    ensures CompleteRule(r, freshId, now).id != ""
  {
  }

  lemma StillAcceptable(net: Net, res: Resources, r: Rule, next: Rule)
    requires Acceptable(net, res, r) && next == r.(updated := next.updated, lastError := next.lastError)
    ensures Acceptable(net, res, next) && next.security == r.security
  {
  }

  lemma NormalizingKeepsId(l: Listener)
    ensures NormalizeListener(l).id == l.id
  {
  }

  lemma ReplacementListenerGood(l: Listener, now: int)
    requires l.id != "" && ValidListener(NormalizeListener(l).(updated := now))
    ensures GoodListener(NormalizeListener(l).(updated := now))
  {
    NormalizedListenerGood(l);
  }

  lemma ReplacementPoolGood(net: Net, p: Pool, now: int)
    requires p.id != "" && ValidPool(net, NormalizePool(p).(updated := now))
    ensures GoodPool(net, NormalizePool(p).(updated := now))
  {
    var n := NormalizePool(p);
    NormalizedPoolStable(net, p);
    assert NormalizePool(n.(updated := now)).targets == NormalizePool(n).targets;
  }

  lemma CompiledRuleAdded(net: Net, res: Resources, r: Rule, next: Resources)
    requires WellFormed(net, res) && Acceptable(net, res, r) && r.id != "" && !RuleClash(res.rules, r)
    requires next == res.(rules := res.rules + [r]) && Compilable(net, next)
    ensures WellFormed(net, next)
  {
    hide ValidSecurity, NormalizeSecurity, WellFormed, Acceptable, RuleClash, Compilable;
    if !ValidSecurity(net, NormalizeSecurity(r.security)) {
      WrittenRuleBreaks(net, res, r, |res.rules|, next.rules);
    }
    WrittenRuleKeeps(net, res, r, |res.rules|, next.rules);
  }

  lemma CompiledById(net: Net, res: Resources, i: nat, k: nat)
    requires WellFormed(net, res) && i < |res.rules| && k < |res.rules|
    ensures forall r <- res.rules :: Resolves(res, r)
    ensures CompileAll(res)[i].id == res.rules[i].id && CompileAll(res)[i] == CompileIn(res, res.rules[i])
    ensures CompileAll(res)[i].id == res.rules[k].id ==> i == k
  {
    hide GoodListener, GoodPool, GoodRule, NormalizeSecurity, ListenerOf, PoolOf, NormalizeName, NormalizePrefix;
    assert res.rules[i] in res.rules;
  }

  /** A rule that names a listener and a pool by their ids compiles to what they say. */
  lemma CompiledFrom(net: Net, res: Resources, r: Rule, l: Listener, p: Pool)
    requires WellFormed(net, res) && Resolves(res, r) && l in res.listeners && p in res.pools
    ensures r.listenerId == l.id && r.poolId == p.id ==> CompileIn(res, r) == CompileRule(r, l, p)
  {
    hide CompileRule, GoodListener, GoodPool, GoodRule;
    ListenerOfMember(res.listeners, r.listenerId);
    PoolOfMember(res.pools, r.poolId);
  }

  // ---------- Pruning ----------

  function PoolIndex(ps: seq<Pool>, id: string): nat {
    if ps == [] || ps[0].id == id then 0 else 1 + PoolIndex(ps[1..], id)
  }

  function ListenerIndex(ls: seq<Listener>, id: string): nat {
    if ls == [] || ls[0].id == id then 0 else 1 + ListenerIndex(ls[1..], id)
  }

  lemma PoolIndexIsFirst(ps: seq<Pool>, id: string, at: nat)
    requires at <= |ps| && (at < |ps| ==> ps[at].id == id) && forall k :: 0 <= k < at ==> ps[k].id != id
    ensures PoolIndex(ps, id) == at
  {
    if at > 0 {
      PoolIndexIsFirst(ps[1..], id, at - 1);
    }
  }

  lemma ListenerIndexIsFirst(ls: seq<Listener>, id: string, at: nat)
    requires at <= |ls| && (at < |ls| ==> ls[at].id == id) && forall k :: 0 <= k < at ==> ls[k].id != id
    ensures ListenerIndex(ls, id) == at
  {
    if at > 0 {
      ListenerIndexIsFirst(ls[1..], id, at - 1);
    }
  }

  /** A pool made for a legacy route goes with the last rule that used it. */
  function PrunedPools(res: Resources, removed: Rule): seq<Pool> {
    var at := PoolIndex(res.pools, removed.poolId);
    if (exists r <- res.rules :: r.poolId == removed.poolId) || at >= |res.pools|
       || res.pools[at].source != "compatibility"
    then res.pools
    else Without(res.pools, at)
  }

  function PrunedListeners(res: Resources, removed: Rule): seq<Listener> {
    var at := ListenerIndex(res.listeners, removed.listenerId);
    if (exists r <- res.rules :: r.listenerId == removed.listenerId) || at >= |res.listeners|
       || res.listeners[at].source != "compatibility"
    then res.listeners
    else Without(res.listeners, at)
  }

  function Pruned(res: Resources, removed: Rule): Resources {
    res.(pools := PrunedPools(res, removed), listeners := PrunedListeners(res, removed))
  }

  /** One member is gone and the others are in place. */
  predicate OneGone<T(==)>(before: seq<T>, at: nat, after: seq<T>) {
    at < |before| && after == before[..at] + before[at + 1..]
  }

  predicate PoolGoes(p: Pool, removed: Rule, remaining: seq<Rule>) {
    p.id == removed.poolId && p.source == "compatibility" && forall r <- remaining :: r.poolId != p.id
  }

  predicate ListenerGoes(l: Listener, removed: Rule, remaining: seq<Rule>) {
    l.id == removed.listenerId && l.source == "compatibility" && forall r <- remaining :: r.listenerId != l.id
  }

  /** What goes with a removed rule: its pool and its listener if they were made for a legacy route and no remaining
      rule refers to them. All else stays in place. */
  predicate OnlyItsPartsGo(before: Resources, removed: Rule, after: Resources) {
    && after.version == before.version
    && (forall p <- before.pools :: p !in after.pools <==> PoolGoes(p, removed, after.rules))
    && (after.pools == before.pools || exists at :: 0 <= at < |before.pools| && OneGone(before.pools, at, after.pools))
    && (forall l <- before.listeners :: l !in after.listeners <==> ListenerGoes(l, removed, after.rules))
    && (after.listeners == before.listeners
        || exists at :: 0 <= at < |before.listeners| && OneGone(before.listeners, at, after.listeners))
  }

  lemma PruningMeaning(net: Net, res: Resources, removed: Rule)
    requires WellFormed(net, res)
    ensures Pruned(res, removed).rules == res.rules && OnlyItsPartsGo(res, removed, Pruned(res, removed))
  {
    hide GoodListener, GoodPool, GoodRule, Resolves, SameListener, SamePlace, Lower;
    PoolPruning(res, removed);
    ListenerPruning(res, removed);
  }

  lemma PartsOfRemoved(before: Resources, fewer: Resources, removed: Rule, after: Resources)
    requires OnlyItsPartsGo(fewer, removed, after) && fewer == before.(rules := fewer.rules)
    ensures OnlyItsPartsGo(before, removed, after)
  {
    hide PoolGoes, ListenerGoes;
  }

  lemma SameListenerPruning(res: Resources, fewer: Resources, removed: Rule)
    requires fewer == res.(pools := fewer.pools)
    ensures PrunedListeners(fewer, removed) == PrunedListeners(res, removed)
  {
  }

  lemma PoolPruning(res: Resources, removed: Rule)
    requires UniquePools(res.pools)
    ensures var after := PrunedPools(res, removed);
            && (forall p <- res.pools :: p !in after <==> PoolGoes(p, removed, res.rules))
            && (after == res.pools || exists at :: 0 <= at < |res.pools| && OneGone(res.pools, at, after))
  {
    hide Lower;
    var at := PoolIndex(res.pools, removed.poolId);
    PoolIndexExact(res.pools, removed.poolId);
    if PrunedPools(res, removed) != res.pools {
      WithoutShape(res.pools, at);
      assert OneGone(res.pools, at, PrunedPools(res, removed));
    }
  }

  lemma ListenerPruning(res: Resources, removed: Rule)
    requires UniqueListeners(res.listeners)
    ensures var after := PrunedListeners(res, removed);
            && (forall l <- res.listeners :: l !in after <==> ListenerGoes(l, removed, res.rules))
            && (after == res.listeners
                || exists at :: 0 <= at < |res.listeners| && OneGone(res.listeners, at, after))
  {
    hide SameListener;
    var at := ListenerIndex(res.listeners, removed.listenerId);
    ListenerIndexExact(res.listeners, removed.listenerId);
    if PrunedListeners(res, removed) != res.listeners {
      WithoutShape(res.listeners, at);
      assert OneGone(res.listeners, at, PrunedListeners(res, removed));
    }
  }

  lemma {:induction false} PoolIndexExact(ps: seq<Pool>, id: string)
    ensures var at := PoolIndex(ps, id);
            at <= |ps| && (at < |ps| ==> ps[at].id == id) && forall k :: 0 <= k < at ==> ps[k].id != id
  {
    if ps != [] && ps[0].id != id {
      PoolIndexExact(ps[1..], id);
    }
  }

  lemma {:induction false} ListenerIndexExact(ls: seq<Listener>, id: string)
    ensures var at := ListenerIndex(ls, id);
            at <= |ls| && (at < |ls| ==> ls[at].id == id) && forall k :: 0 <= k < at ==> ls[k].id != id
  {
    if ls != [] && ls[0].id != id {
      ListenerIndexExact(ls[1..], id);
    }
  }

  lemma PoolIndexFound(ps: seq<Pool>, id: string)
    ensures PoolIndex(ps, id) < |ps| ==> ps[PoolIndex(ps, id)].id == id
  {
  }

  lemma ListenerIndexFound(ls: seq<Listener>, id: string)
    ensures ListenerIndex(ls, id) < |ls| ==> ls[ListenerIndex(ls, id)].id == id
  {
  }

  lemma PruningKeeps(net: Net, res: Resources, removed: Rule)
    requires WellFormed(net, res)
    ensures WellFormed(net, Pruned(res, removed))
  {
    hide WellFormed;
    var fewer := res.(pools := PrunedPools(res, removed));
    if fewer.pools != res.pools {
      PoolIndexFound(res.pools, removed.poolId);
      PoolDeleted(net, res, PoolIndex(res.pools, removed.poolId));
    } else {
      assert fewer == res;
    }
    if PrunedListeners(res, removed) != res.listeners {
      ListenerIndexFound(res.listeners, removed.listenerId);
      ListenerDeleted(net, fewer, ListenerIndex(res.listeners, removed.listenerId));
    } else {
      assert Pruned(res, removed) == fewer;
    }
  }

  // ---------- Whole resource sets ----------

  function NormalizedListeners(ls: seq<Listener>): seq<Listener> {
    seq(|ls|, i requires 0 <= i < |ls| => NormalizeListener(ls[i]))
  }

  function NormalizedPools(ps: seq<Pool>): seq<Pool> {
    seq(|ps|, i requires 0 <= i < |ps| => NormalizePool(ps[i]))
  }

  function NormalizedRules(rs: seq<Rule>): seq<Rule> {
    seq(|rs|, i requires 0 <= i < |rs| => NormalizeRule(rs[i]))
  }

  function NormalizeAll(raw: Resources): Resources {
    Resources(raw.version, NormalizedListeners(raw.listeners), NormalizedPools(raw.pools), NormalizedRules(raw.rules))
  }

  predicate GoodListeners(ls: seq<Listener>) {
    UniqueListeners(ls) && forall l <- ls :: l.id != "" && ValidListener(l)
  }

  predicate GoodPools(net: Net, ps: seq<Pool>) {
    UniquePools(ps) && forall p <- ps :: p.id != "" && ValidPool(net, p)
  }

  /** Rules are checked one by one against earlier rules in normal form and later ones still as given. */
  predicate GoodRules(net: Net, res: Resources, raw: seq<Rule>)
    requires |raw| == |res.rules|
  {
    && (forall i, j :: 0 <= i < j < |raw| ==>
                         res.rules[i].id != res.rules[j].id && !SamePlace(res.rules[i], res.rules[j])
                         && !SamePlace(raw[j], res.rules[i]))
    && forall r <- res.rules :: r.id != "" && Acceptable(net, res, r)
  }

  predicate AcceptableSet(net: Net, raw: Resources) {
    var res := NormalizeAll(raw);
    GoodListeners(res.listeners) && GoodPools(net, res.pools) && GoodRules(net, res, raw.rules)
  }

  /** So the order matters: "/a /" becomes "/a " and "/a " becomes "/a". Two rules with these prefixes on one listener
      pass only with "/a " first. */
  lemma OrderOfRulesMatters(net: Net, res: Resources, long: Rule, short: Rule)
    requires long.pathPrefix == "/a /" && short.pathPrefix == "/a "
    requires TrimSpace(long.listenerId) == long.listenerId == short.listenerId
    requires forall r <- [NormalizeRule(long), NormalizeRule(short)] :: r.id != "" && Acceptable(net, res, r)
    requires long.id != short.id
    ensures !GoodRules(net, res.(rules := NormalizedRules([long, short])), [long, short])
    ensures GoodRules(net, res.(rules := NormalizedRules([short, long])), [short, long])
  {
    hide NormalizePrefix, TrimSpace, ValidRule, NormalizeSecurity, Lower, ListenerOf, PoolOf;
    UnstablePrefix();
    assert [NormalizeRule(long), NormalizeRule(short)][0] == NormalizeRule(long);
    assert [NormalizeRule(long), NormalizeRule(short)][1] == NormalizeRule(short);
    assert SamePlace([long, short][1], NormalizedRules([long, short])[0]);
  }

  /** A resource set that passes the checks and compiles is well formed in its normal form. */
  lemma AcceptedIsWellFormed(net: Net, raw: Resources)
    requires AcceptableSet(net, raw) && Compilable(net, NormalizeAll(raw))
    ensures WellFormed(net, NormalizeAll(raw))
  {
    hide ValidListener, ValidPool, ValidRule, ValidSecurity, NormalizeListener, NormalizePool, NormalizeRule,
      NormalizeSecurity, ValidRoute, CompileRule, SameListener, SamePlace, ListenerOf, PoolOf, GoodListener, GoodPool;
    var res := NormalizeAll(raw);
    forall l <- res.listeners ensures GoodListener(l) {
      var i :| 0 <= i < |raw.listeners| && l == NormalizeListener(raw.listeners[i]);
      AcceptedListener(raw.listeners[i]);
    }
    forall p <- res.pools ensures GoodPool(net, p) {
      var i :| 0 <= i < |raw.pools| && p == NormalizePool(raw.pools[i]);
      AcceptedPool(net, raw.pools[i]);
    }
    AcceptedRules(net, res);
  }

  lemma AcceptedListener(l: Listener)
    requires NormalizeListener(l).id != "" && ValidListener(NormalizeListener(l))
    ensures GoodListener(NormalizeListener(l))
  {
    hide ValidListener, Lower, TrimSpace, NormalizeName;
    NormalizedListenerGood(l);
  }

  lemma AcceptedPool(net: Net, p: Pool)
    requires NormalizePool(p).id != "" && ValidPool(net, NormalizePool(p))
    ensures GoodPool(net, NormalizePool(p))
  {
    hide ValidAddress, NormalizeTarget, Lower, TrimSpace;
    NormalizedPoolStable(net, p);
  }

  lemma AcceptedRules(net: Net, res: Resources)
    requires forall l <- res.listeners :: GoodListener(l)
    requires forall p <- res.pools :: GoodPool(net, p)
    requires forall r <- res.rules :: r.id != "" && Acceptable(net, res, r) && Compiles(net, res, r)
    ensures forall r <- res.rules :: GoodRule(net, r)
  {
    hide GoodListener, GoodPool, ValidRule, ValidSecurity, NormalizeSecurity, ValidRoute, CompileRule, ListenerOf,
      PoolOf;
    forall r <- res.rules ensures GoodRule(net, r) {
      ListenerOfMember(res.listeners, r.listenerId);
      PoolOfMember(res.pools, r.poolId);
      CompiledRouteValidity(net, r, ListenerOf(res.listeners, r.listenerId).value, PoolOf(res.pools, r.poolId).value);
    }
  }

  /** Rules that a second normalization leaves alone; loading normalizes what was already normalized once. */
  predicate StableRules(res: Resources) {
    forall r <- res.rules :: NormalizeRule(r) == r
  }

  lemma GoodPartsAreNormal(net: Net, res: Resources)
    requires WellFormed(net, res)
    ensures NormalizedListeners(res.listeners) == res.listeners && NormalizedPools(res.pools) == res.pools
  {
    hide NormalizeListener, NormalizePool, ValidListener, ValidPool, GoodRule, Resolves, UniqueListeners, UniquePools,
      UniqueRules;
    forall i | 0 <= i < |res.listeners| ensures NormalizeListener(res.listeners[i]) == res.listeners[i] {
      assert GoodListener(res.listeners[i]);
    }
    forall i | 0 <= i < |res.pools| ensures NormalizePool(res.pools[i]) == res.pools[i] {
      assert GoodPool(net, res.pools[i]);
    }
  }

  lemma StableRulesAreNormal(rs: seq<Rule>)
    ensures NormalizedRules(rs) == rs <==> forall r <- rs :: NormalizeRule(r) == r
  {
    hide NormalizeRule;
    if NormalizedRules(rs) == rs {
      forall r <- rs ensures NormalizeRule(r) == r {
        var i :| 0 <= i < |rs| && r == rs[i];
        assert NormalizedRules(rs)[i] == r;
      }
    }
  }

  lemma StableSetIsNormal(net: Net, res: Resources)
    requires WellFormed(net, res)
    ensures NormalizeAll(res) == res <==> StableRules(res)
    ensures StableRules(res) ==> AcceptableSet(net, res)
  {
    hide NormalizedListeners, NormalizedPools, NormalizedRules, NormalizeRule, WellFormed;
    GoodPartsAreNormal(net, res);
    StableRulesAreNormal(res.rules);
    if StableRules(res) {
      StableSetIsAccepted(net, res);
    }
  }

  lemma StableSetIsAccepted(net: Net, res: Resources)
    requires WellFormed(net, res) && NormalizeAll(res) == res
    ensures AcceptableSet(net, res)
  {
    hide NormalizeListener, NormalizePool, NormalizeRule, ValidListener, ValidPool, ValidRule, NormalizedListeners,
      NormalizedPools, NormalizedRules, UniquePools, UniqueListeners;
    assert forall r <- res.rules :: GoodRule(net, r);
  }

  /** What a resource set in a file or a request becomes once accepted. */
  function Decoded(net: Net, raw: Resources): Option<Resources> {
    if AcceptableSet(net, raw) && Compilable(net, NormalizeAll(raw)) then Some(NormalizeAll(raw)) else None
  }

  lemma DecodedIsWellFormed(net: Net, raw: Resources)
    ensures Decoded(net, raw).Some? ==>
              WellFormed(net, Decoded(net, raw).value) && Decoded(net, raw).value.version == raw.version
    ensures Decoded(net, raw).Some? ==>
              forall r <- Decoded(net, raw).value.rules :: Resolves(Decoded(net, raw).value, r)
  {
    hide AcceptableSet, Compilable, GoodListener, GoodPool, GoodRule, Resolves;
    if Decoded(net, raw).Some? {
      AcceptedIsWellFormed(net, raw);
    }
  }

  lemma SameLookups(net: Net, a: Resources, b: Resources, r: Rule)
    requires a.listeners == b.listeners && a.pools == b.pools
    ensures Acceptable(net, a, r) <==> Acceptable(net, b, r)
  {
  }

  /** The first n rules have passed their checks. */
  predicate RulesCheckedTo(net: Net, res: Resources, raw: seq<Rule>, n: nat)
    requires |raw| == |res.rules| && n <= |raw|
  {
    && (forall k :: 0 <= k < n ==> res.rules[k].id != "" && Acceptable(net, res, res.rules[k]))
    && (forall j, k :: 0 <= j < k < n ==> res.rules[j].id != res.rules[k].id && !SamePlace(res.rules[j], res.rules[k]))
    && forall j, k :: 0 <= j < n && j < k < |raw| ==> raw[k].id == res.rules[j].id || !SamePlace(raw[k], res.rules[j])
  }

  lemma NothingChecked(net: Net, res: Resources, raw: seq<Rule>)
    requires res.rules == NormalizedRules(raw)
    ensures RulesCheckedTo(net, res, raw, 0)
    ensures RulesCheckedTo(net, res, raw, |raw|) <==> GoodRules(net, res, raw)
  {
    hide NormalizeSecurity, NormalizePrefix, Acceptable, Lower, TrimSpace;
    forall i | 0 <= i < |raw| ensures res.rules[i].id == raw[i].id && res.rules[i] in res.rules {
    }
  }

  /** What the checks of rule i see: the list is in normal form up to and including i. */
  predicate PassesChecks(net: Net, res: Resources, raw: seq<Rule>, i: nat)
    requires i < |raw| == |res.rules|
  {
    var r := res.rules[i];
    && r.id != "" && Acceptable(net, res, r)
    && (forall k :: 0 <= k < i ==> res.rules[k].id != r.id)
    && (forall k :: 0 <= k < i ==> res.rules[k].id == r.id || !SamePlace(res.rules[k], r))
    && (forall k :: i < k < |raw| ==> raw[k].id == r.id || !SamePlace(raw[k], r))
  }

  lemma AsSeen(net: Net, res: Resources, raw: seq<Rule>, mixed: seq<Rule>, i: nat)
    requires i < |raw| == |mixed| == |res.rules|
    requires forall k :: 0 <= k < |raw| ==> mixed[k] == if k <= i then res.rules[k] else raw[k]
    ensures var r := res.rules[i];
            PassesChecks(net, res, raw, i) <==>
            && r.id != "" && Acceptable(net, res, r) && (forall k :: 0 <= k < i ==> mixed[k].id != r.id)
            && forall k :: 0 <= k < |mixed| ==> mixed[k].id == r.id || !SamePlace(mixed[k], r)
  {
    hide Acceptable, SamePlace;
  }

  lemma RulesCheckedNext(net: Net, res: Resources, raw: seq<Rule>, i: nat)
    requires i < |raw| == |res.rules| && RulesCheckedTo(net, res, raw, i) && PassesChecks(net, res, raw, i)
    ensures RulesCheckedTo(net, res, raw, i + 1)
  {
    hide Acceptable, SamePlace;
  }

  lemma RulesRefused(net: Net, res: Resources, raw: seq<Rule>, i: nat)
    requires i < |raw| && res.rules == NormalizedRules(raw) && !PassesChecks(net, res, raw, i)
    ensures !GoodRules(net, res, raw)
  {
    hide NormalizeRule, Acceptable;
    assert res.rules[i] in res.rules;
  }

  // ---------- The file ----------

  /** What loading a file of the current version yields: the desired resources and the applied snapshot. */
  function DecodeFile(net: Net, file: Envelope): (decoded: Option<(Resources, Snapshot)>)
    ensures decoded.Some? ==> forall r <- decoded.value.0.rules :: Resolves(decoded.value.0, r)
  {
    if file.applied.None? || file.appliedRevision > file.revision
       || file.applied.value.version != RESOURCE_SET_VERSION then None
    else
      DecodedIsWellFormed(net, file.resources.(version := RESOURCE_SET_VERSION));
      DecodedIsWellFormed(net, WithoutErrors(file.applied.value));
      var desired := Decoded(net, file.resources.(version := RESOURCE_SET_VERSION));
      var applied := Decoded(net, WithoutErrors(file.applied.value));
      if desired.None? || applied.None? then None
      else Some((desired.value, Snapshot(applied.value, CompileAll(applied.value), file.appliedRevision)))
  }

  /** Files before the current version hold resources, or rows of routes still to be migrated. */
  predicate HoldsResources(file: Envelope) {
    file.version >= 2 || file.resources.listeners != [] || file.resources.pools != [] || file.resources.rules != []
  }

  function LoadedFrom(s: StoreState, file: Envelope, decoded: (Resources, Snapshot)): StoreState
    requires forall r <- decoded.0.rules :: Resolves(decoded.0, r)
  {
    s.(staged := false, revision := file.revision, applied := decoded.1, resources := decoded.0,
    routes := CompileAll(decoded.0))
  }

  /** An older file becomes revision 1, already applied and written back. */
  function Baseline(s: StoreState, res: Resources, routes: seq<Route>): StoreState {
    Saved(s.(staged := false, revision := 1, applied := Snapshot(res, routes, 1), resources := res, routes := routes))
  }

  lemma BaselineIsSound(net: Net, s: StoreState, res: Resources, routes: seq<Route>)
    requires Consistent(net, res, routes) && s.persistent
    ensures Inv(net, Baseline(s, res, routes))
  {
    hide WellFormed, CompileAll;
  }

  lemma EmptyIsWellFormed(net: Net)
    ensures WellFormed(net, EMPTY)
  {
  }

  lemma ErrorsDoNotMatter(net: Net, res: Resources)
    requires WellFormed(net, res)
    ensures WellFormed(net, WithoutErrors(res))
    ensures StableRules(WithoutErrors(res)) <==> StableRules(res)
  {
    hide ValidRule, NormalizeSecurity, GoodListener, GoodPool, NormalizePrefix, Lower, TrimSpace;
    var w := WithoutErrors(res);
    assert |w.rules| == |res.rules|;
    forall r <- w.rules ensures GoodRule(net, r) && Resolves(w, r) {
      var i :| 0 <= i < |res.rules| && r == res.rules[i].(lastError := "");
      assert res.rules[i] in res.rules;
      SameButError(net, res.rules[i], r);
    }
    forall i | 0 <= i < |res.rules|
      ensures w.rules[i] in w.rules && res.rules[i] in res.rules
      ensures NormalizeRule(w.rules[i]) == w.rules[i] <==> NormalizeRule(res.rules[i]) == res.rules[i]
    {
    }
  }

  lemma DecodesToItself(net: Net, res: Resources)
    requires WellFormed(net, res)
    ensures Decoded(net, WithoutErrors(res)) == Some(WithoutErrors(res)) <==> StableRules(res)
  {
    hide WellFormed, AcceptableSet, StableRules, Compilable, NormalizeAll;
    ErrorsDoNotMatter(net, res);
    StableSetIsNormal(net, WithoutErrors(res));
    WellFormedCompiles(net, WithoutErrors(res));
  }

  /** Loading undoes saving exactly when a second normalization leaves every saved rule alone. */
  lemma LoadUndoesSave(net: Net, s: StoreState)
    requires Inv(net, s)
    ensures var w := WithoutErrors(s.applied.resources);
            && (forall r <- w.rules :: Resolves(w, r))
            && var saved := (WithoutErrors(s.resources), Snapshot(w, CompileAll(w), s.applied.revision));
            DecodeFile(net, Encode(s)) == Some(saved) <==> StableRules(s.resources) && StableRules(s.applied.resources)
  {
    hide StableRules, Decoded, CompileIn, GoodListener, GoodPool, GoodRule, Resolves;
    var w := WithoutErrors(s.applied.resources);
    ErrorsDoNotMatter(net, s.applied.resources);
    DecodesToItself(net, s.resources);
    DecodesToItself(net, s.applied.resources);
    NoErrorsTwice(s.applied.resources);
  }

  /** A store that is loaded again returns to the state its file describes: to the present one, or, when an import is
      staged, to the one before the import. Nothing of a staged import is left. */
  lemma ReloadReturnsToFile(net: Net, s: StoreState)
    requires Inv(net, s) && s.persistent && s.disk.Some?
    requires StableRules(s.disk.value.resources) && StableRules(s.applied.resources)
    ensures DecodeFile(net, s.disk.value).Some?
    ensures var file := s.disk.value;
            var again := LoadedFrom(s, file, DecodeFile(net, file).value);
            && Inv(net, again) && !again.staged && Encode(again) == file
            && again.resources == file.resources && again.revision == file.revision
            && again.applied.resources == WithoutErrors(s.applied.resources)
            && again.applied.revision == s.applied.revision
            && (!s.staged ==> again.resources == WithoutErrors(s.resources) && again.revision == s.revision)
  {
    hide StableRules, Decoded, DecodeFile, WellFormed, CompileIn, Resolves;
    var file := s.disk.value;
    if s.staged {
      var kept := s.(staged := false, revision := file.revision, resources := file.resources);
      FileResolves(net, file.resources);
      SavedAndLoaded(net, kept.(routes := CompileAll(file.resources)));
      NoErrorsTwice(s.resources);
    } else {
      ErrorsDoNotMatter(net, s.resources);
      SavedAndLoaded(net, s);
    }
  }

  lemma FileResolves(net: Net, res: Resources)
    requires WellFormed(net, res)
    ensures forall r <- res.rules :: Resolves(res, r)
  {
  }

  lemma SavedAndLoaded(net: Net, s: StoreState)
    requires Inv(net, s) && s.persistent && !s.staged && s.disk == Some(Encode(s))
    requires StableRules(s.resources) && StableRules(s.applied.resources)
    ensures DecodeFile(net, Encode(s)).Some?
    ensures var again := LoadedFrom(s, Encode(s), DecodeFile(net, Encode(s)).value);
            && Inv(net, again) && Encode(again) == Encode(s) && !again.staged
            && again.resources == WithoutErrors(s.resources) && again.revision == s.revision
            && again.applied.resources == WithoutErrors(s.applied.resources)
            && again.applied.revision == s.applied.revision
  {
    hide StableRules, Decoded, DecodeFile, WellFormed, CompileIn, Resolves;
    LoadUndoesSave(net, s);
    ErrorsDoNotMatter(net, s.resources);
    ErrorsDoNotMatter(net, s.applied.resources);
    NoErrorsTwice(s.resources);
    NoErrorsTwice(s.applied.resources);
  }

  /** An import that is staged and then lost by loading the file again leaves the store as it was before. */
  lemma ReloadDropsImport(net: Net, s: StoreState, res: Resources, next: StoreState)
    requires Inv(net, s) && s.persistent && !s.staged && s.disk.Some?
    requires StableRules(s.resources) && StableRules(s.applied.resources)
    requires WellFormed(net, res) && res.version == RESOURCE_SET_VERSION && Committed(s.(staged := true), res, next)
    ensures Inv(net, next) && next.staged && DecodeFile(net, next.disk.value).Some?
    ensures var again := LoadedFrom(next, next.disk.value, DecodeFile(net, next.disk.value).value);
            && again.resources == WithoutErrors(s.resources) && again.revision == s.revision && !again.staged
            && again.applied.resources == WithoutErrors(s.applied.resources)
            && again.applied.revision == s.applied.revision
  {
    hide StableRules, Decoded, DecodeFile, WellFormed, CompileIn, Resolves, WithoutErrors;
    StagingKeepsFile(net, s);
    CommittedIsEdit(net, s.(staged := true), res, next);
    ErrorsDoNotMatter(net, s.resources);
    ReloadReturnsToFile(net, next);
  }

  lemma NoErrorsTwice(res: Resources)
    ensures WithoutErrors(WithoutErrors(res)) == WithoutErrors(res)
  {
    assert WithoutErrors(WithoutErrors(res)).rules == WithoutErrors(res).rules;
  }

  // ---------- Runtime status ----------

  datatype Status = Status(routeId: string, healthy: bool, error: string)

  /** The error that the last status for an id reports; None when no status names it. */
  function ReportedError(statuses: seq<Status>, id: string): Option<string> {
    if statuses == [] then None
    else
      var last := statuses[|statuses| - 1];
      if last.routeId == id then Some(if last.healthy then "" else last.error)
      else ReportedError(statuses[..|statuses| - 1], id)
  }

  function RuleWithStatus(r: Rule, statuses: seq<Status>): Rule {
    match ReportedError(statuses, r.id) case None => r case Some(error) => r.(lastError := error)
  }

  function RouteWithStatus(r: Route, statuses: seq<Status>): Route {
    match ReportedError(statuses, r.id) case None => r case Some(error) => r.(lastError := error)
  }

  function RulesWithStatus(rs: seq<Rule>, statuses: seq<Status>): seq<Rule> {
    seq(|rs|, i requires 0 <= i < |rs| => RuleWithStatus(rs[i], statuses))
  }

  function RoutesWithStatus(rs: seq<Route>, statuses: seq<Status>): seq<Route> {
    seq(|rs|, i requires 0 <= i < |rs| => RouteWithStatus(rs[i], statuses))
  }

  function WithStatuses(s: StoreState, statuses: seq<Status>): StoreState {
    s.(resources := s.resources.(rules := RulesWithStatus(s.resources.rules, statuses)),
    routes := RoutesWithStatus(s.routes, statuses))
  }

  /** The error after some reports: that of the last report on the id, none if it was healthy, and otherwise the old
      one. */
  predicate ErrorAfter(id: string, was: string, statuses: seq<Status>, error: string) {
    && (forall k :: 0 <= k < |statuses| && statuses[k].routeId == id
                    && (forall m :: k < m < |statuses| ==> statuses[m].routeId != id) ==>
                      error == if statuses[k].healthy then "" else statuses[k].error)
    && ((forall k :: 0 <= k < |statuses| ==> statuses[k].routeId != id) ==> error == was)
  }

  lemma {:induction false} LastReport(statuses: seq<Status>, id: string)
    ensures match ReportedError(statuses, id)
            case None => forall k :: 0 <= k < |statuses| ==> statuses[k].routeId != id
            case Some(error) =>
              exists k :: 0 <= k < |statuses| && statuses[k].routeId == id
                          && (forall m :: k < m < |statuses| ==> statuses[m].routeId != id)
                          && error == if statuses[k].healthy then "" else statuses[k].error
  {
    if statuses != [] {
      LastReport(statuses[..|statuses| - 1], id);
    }
  }

  lemma ReportsSetErrors(statuses: seq<Status>, id: string, was: string)
    ensures ErrorAfter(id, was, statuses,
                       match ReportedError(statuses, id) case None => was case Some(error) => error)
  {
    hide ReportedError;
    LastReport(statuses, id);
  }

  /** Reports set errors and nothing else. */
  predicate OnlyErrorsSet(rules: seq<Rule>, routes: seq<Route>, statuses: seq<Status>, newRules: seq<Rule>,
                          newRoutes: seq<Route>) {
    && |newRules| == |rules| && |newRoutes| == |routes|
    && (forall i :: 0 <= i < |rules| ==>
                      && newRules[i] == rules[i].(lastError := newRules[i].lastError)
                      && ErrorAfter(rules[i].id, rules[i].lastError, statuses, newRules[i].lastError))
    && forall i :: 0 <= i < |routes| ==>
                     && newRoutes[i] == routes[i].(lastError := newRoutes[i].lastError)
                     && ErrorAfter(routes[i].id, routes[i].lastError, statuses, newRoutes[i].lastError)
  }

  lemma StatusMeaning(rules: seq<Rule>, routes: seq<Route>, statuses: seq<Status>)
    ensures OnlyErrorsSet(rules, routes, statuses, RulesWithStatus(rules, statuses), RoutesWithStatus(routes, statuses))
  {
    hide ReportedError, ErrorAfter;
    forall i | 0 <= i < |rules|
      ensures ErrorAfter(rules[i].id, rules[i].lastError, statuses, RulesWithStatus(rules, statuses)[i].lastError)
    {
      ReportsSetErrors(statuses, rules[i].id, rules[i].lastError);
    }
    forall i | 0 <= i < |routes|
      ensures ErrorAfter(routes[i].id, routes[i].lastError, statuses, RoutesWithStatus(routes, statuses)[i].lastError)
    {
      ReportsSetErrors(statuses, routes[i].id, routes[i].lastError);
    }
  }

  lemma StatusOnlyChangesErrors(net: Net, res: Resources, statuses: seq<Status>, next: Resources)
    requires WellFormed(net, res)
    requires next == res.(rules := next.rules) && |next.rules| == |res.rules|
    requires forall i :: 0 <= i < |res.rules| ==> next.rules[i] == RuleWithStatus(res.rules[i], statuses)
    ensures WellFormed(net, next) && WithoutErrors(next) == WithoutErrors(res)
    ensures forall r <- res.rules :: Resolves(res, r)
    ensures forall r <- next.rules :: Resolves(next, r)
    ensures |CompileAll(next)| == |res.rules|
    ensures forall i :: 0 <= i < |res.rules| ==> CompileAll(next)[i] == RouteWithStatus(CompileAll(res)[i], statuses)
  {
    hide ValidRule, NormalizeSecurity, ListenerOf, PoolOf, GoodListener, GoodPool, NormalizePrefix, NormalizeName;
    forall r <- next.rules ensures GoodRule(net, r) && Resolves(next, r) {
      var i :| 0 <= i < |res.rules| && r == RuleWithStatus(res.rules[i], statuses);
      SameButError(net, res.rules[i], r);
    }
    forall i | 0 <= i < |res.rules| ensures CompileAll(next)[i] == RouteWithStatus(CompileAll(res)[i], statuses) {
      assert res.rules[i] in res.rules;
      var r, l, p := res.rules[i], ListenerOf(res.listeners, res.rules[i].listenerId).value,
                     PoolOf(res.pools, res.rules[i].poolId).value;
      CompileWithError(r, l, p, next.rules[i].lastError);
    }
    assert WithoutErrors(next).rules == WithoutErrors(res).rules;
  }

  lemma SameButError(net: Net, r: Rule, next: Rule)
    requires GoodRule(net, r) && next == r.(lastError := next.lastError)
    ensures GoodRule(net, next)
  {
  }

  lemma CompileWithError(r: Rule, l: Listener, p: Pool, error: string)
    ensures CompileRule(r.(lastError := error), l, p) == CompileRule(r, l, p).(lastError := error)
  {
    hide NormalizeSecurity, NormalizePrefix, NormalizeName, SourceOr, Lower, TrimSpace;
    var e := r.(lastError := error);
    assert CompileRule(e, l, p).upstreams == CompileRule(r, l, p).upstreams;
  }

  lemma StatusKeepsInvariant(net: Net, s: StoreState, statuses: seq<Status>)
    requires Inv(net, s)
    ensures Inv(net, WithStatuses(s, statuses))
  {
    hide WellFormed, CompileIn, RuleWithStatus, RouteWithStatus;
    var next := WithStatuses(s, statuses);
    StatusOnlyChangesErrors(net, s.resources, statuses, next.resources);
    assert next.routes == CompileAll(next.resources);
  }

  lemma NoStatuses(s: StoreState)
    ensures WithStatuses(s, []) == s
  {
    assert WithStatuses(s, []).routes == s.routes;
    assert WithStatuses(s, []).resources.rules == s.resources.rules;
  }

  // ---------- Confirming a snapshot ----------

  function Applied(s: StoreState, snapshot: Snapshot): StoreState {
    Saved(s.(applied := snapshot)).(staged := false)
  }

  /** A snapshot the store itself could have handed out: consistent, and equal to the present resources
      up to runtime errors when it carries the present revision. */
  predicate Genuine(net: Net, s: StoreState, snapshot: Snapshot) {
    && Consistent(net, snapshot.resources, snapshot.routes)
    && (snapshot.revision == s.revision ==> WithoutErrors(snapshot.resources) == WithoutErrors(s.resources))
  }

  lemma ApplyingKeepsInvariant(net: Net, s: StoreState, snapshot: Snapshot)
    requires Inv(net, s) && Genuine(net, s, snapshot) && snapshot.revision <= s.revision
    ensures Inv(net, Applied(s, snapshot))
  {
    hide Consistent, WithoutErrors;
  }

  // ---------- What each request is answered ----------

  function CheckedListener(ls: seq<Listener>, l: Listener, freshId: string, now: int): Result<Listener> {
    var n := CompleteListener(l, freshId, now);
    if !ValidListener(n) then Failure(Invalid)
    else if ListenerClash(ls, n) then Failure(AlreadyExists)
    else Success(n)
  }

  function CheckedPool(net: Net, ps: seq<Pool>, p: Pool, freshId: string, now: int): Result<Pool> {
    var n := CompletePool(p, freshId, now);
    if !ValidPool(net, n) then Failure(Invalid)
    else if PoolClash(ps, n) then Failure(AlreadyExists)
    else Success(n)
  }

  function CheckedRule(net: Net, res: Resources, r: Rule, freshId: string, now: int): Result<Rule> {
    var n := CompleteRule(r, freshId, now);
    if !Acceptable(net, res, n) then Failure(Invalid)
    else if RuleClash(res.rules, n) then Failure(AlreadyExists)
    else Success(n)
  }

  /** The answer once the resources are checked: compiling and saving can still fail. */
  function Answer<T>(s: StoreState, checked: Result<T>, compiles: bool, saveOk: bool): Result<T> {
    if checked.Failure? then checked
    else if !compiles then Failure(Invalid)
    else if s.persistent && !s.staged && !saveOk then Failure(SaveFailed)
    else checked
  }
}
