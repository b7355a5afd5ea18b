/** The routing store: every operation either succeeds as a whole or leaves memory and file alone. */
module RoutingStore {
  import opened Text
  import opened Routing
  import opened RoutingFacts
  import opened NormalForms
  import opened StoreSpec
  import opened Migration

  class Store {
    const net: Net
    const persistent: bool
    var staged: bool
    var revision: nat
    var applied: Snapshot
    var listeners: seq<Listener>
    var pools: seq<Pool>
    var rules: seq<Rule>
    var routes: seq<Route>
    var disk: Option<Envelope>

    function Res(): Resources
      reads this
    {
      Resources(RESOURCE_SET_VERSION, listeners, pools, rules)
    }

    function Value(): StoreState
      reads this
    {
      StoreState(persistent, staged, revision, applied, Res(), routes, disk)
    }

    ghost predicate Valid()
      reads this
    {
      Inv(net, Value())
    }

    constructor (net: Net, persistent: bool)
      ensures Valid() && Value() == Initial(persistent) && this.net == net
    {
      this.net, this.persistent := net, persistent;
      staged, revision, applied := false, 0, Snapshot(EMPTY, [], 0);
      listeners, pools, rules, routes, disk := [], [], [], [], None;
    }

    method DesiredSnapshot() returns (snapshot: Snapshot)
      ensures snapshot == Snapshot(Res(), routes, revision)
    {
      snapshot := Snapshot(Res(), routes, revision);
    }

    method Pending() returns (pending: bool)
      requires Valid()
      ensures pending <==> revision != applied.revision
      ensures !pending ==> WithoutErrors(applied.resources) == WithoutErrors(Res())
    {
      pending := revision != applied.revision;
    }

    /** The file holds the version, both revisions and both sets of resources, without runtime errors. */
    predicate Describes(file: Envelope)
      reads this
    {
      && file.version == 3 && file.revision == revision && file.appliedRevision == applied.revision
      && file.applied.Some? && SameButErrors(file.applied.value, applied.resources)
      && SameButErrors(file.resources, Res()) && file.routes == []
    }

    // ---------- Transactions ----------

    method Save(saveOk: bool) returns (ok: bool)
      modifies this`disk
      ensures ok <==> !persistent || saveOk
      ensures Value() == if ok then Saved(old(Value())) else old(Value())
      ensures ok && persistent ==> disk.Some? && Describes(disk.value)
    {
      if !persistent {
        return true;
      }
      if !saveOk {
        return false;
      }
      disk := Some(Encode(Value()));
      return true;
    }

    method RebuildRoutes() returns (ok: bool)
      modifies this`routes
      ensures ok <==> Compilable(net, Res())
      ensures routes == if ok then CompileAll(Res()) else old(routes)
      ensures ok ==> |routes| == |rules| && forall i :: 0 <= i < |rules| ==> CompiledFromOwn(rules[i], routes[i])
    {
      hide CompileOrFail, Compiles, CompileIn;
      var built: seq<Route> := [];
      var res := Res();
      for i := 0 to |rules|
        invariant routes == old(routes) && |built| == i
        invariant forall k :: 0 <= k < i ==> CompileOrFail(net, res, rules[k]) == Some(built[k])
      {
        var route := CompileOne(rules[i]);
        if route.None? {
          NotCompiled(net, res, i);
          return false;
        }
        built := built + [route.value];
      }
      AllCompiled(net, res, built);
      forall i | 0 <= i < |rules| ensures CompiledFromOwn(rules[i], built[i]) {
        assert rules[i] in res.rules;
        OwnCompiled(rules[i]);
      }
      routes := built;
      return true;
    }

    /** The route is compiled from a rule with the listener and the pool that the rule names. */
    ghost predicate CompiledFromOwn(rule: Rule, route: Route)
      reads this`listeners, this`pools
    {
      exists l <- listeners, p <- pools :: l.id == rule.listenerId && p.id == rule.poolId && Compiled(rule, l, p, route)
    }

    lemma OwnCompiled(rule: Rule)
      requires Compiles(net, Res(), rule)
      ensures CompiledFromOwn(rule, CompileIn(Res(), rule))
    {
      hide ValidRoute, CompileRule, Compiled;
      ListenerOfMember(listeners, rule.listenerId);
      PoolOfMember(pools, rule.poolId);
      RuleCompiles(rule, ListenerOf(listeners, rule.listenerId).value, PoolOf(pools, rule.poolId).value);
    }

    method CompileOne(rule: Rule) returns (route: Option<Route>)
      ensures route == CompileOrFail(net, Res(), rule)
    {
      var listener := ListenerOf(listeners, rule.listenerId);
      var pool := PoolOf(pools, rule.poolId);
      if listener.None? || pool.None? {
        return None;
      }
      var compiled := CompileRule(rule, listener.value, pool.value);
      return if ValidRoute(net, compiled) then Some(compiled) else None;
    }

    method Restore(snapshot: StoreState)
      requires snapshot.persistent == persistent && snapshot.disk == disk
      requires snapshot.resources.version == RESOURCE_SET_VERSION
      modifies this
      ensures Value() == snapshot
    {
      staged, revision, applied := snapshot.staged, snapshot.revision, snapshot.applied;
      listeners, pools, rules := snapshot.resources.listeners, snapshot.resources.pools, snapshot.resources.rules;
      routes := snapshot.routes;
    }

    method Commit(snapshot: StoreState, saveOk: bool) returns (r: Result<()>)
      requires snapshot.persistent == persistent && snapshot.disk == disk
      requires snapshot.resources.version == RESOURCE_SET_VERSION
      modifies this
      ensures r == Answer(old(Value()), Success(()), Compilable(net, old(Res())), saveOk)
      ensures if r.Success? then Committed(old(Value()), old(Res()), Value()) else Value() == snapshot
    {
      var compiled := RebuildRoutes();
      if !compiled {
        Restore(snapshot);
        return Failure(Invalid);
      }
      revision := revision + 1;
      if staged {
        return Success(());
      }
      var saved := Save(saveOk);
      if !saved {
        Restore(snapshot);
        return Failure(SaveFailed);
      }
      return Success(());
    }

    /** Commits resources already known to be well formed: compiling them cannot fail. */
    method CommitChecked(before: StoreState, saveOk: bool) returns (r: Result<()>)
      requires Inv(net, before) && WellFormed(net, Res())
      requires Value() == before.(resources := Res(), routes := routes)
      modifies this
      ensures Valid()
      ensures r == Answer(before, Success(()), true, saveOk)
      ensures if r.Success? then Committed(before, old(Res()), Value()) && Edited(net, before, Value())
              else Value() == before
    {
      WellFormedCompiles(net, Res());
      ghost var res := Res();
      r := Commit(before, saveOk);
      if r.Success? {
        CommittedIsEdit(net, before, res, Value());
      }
    }

    // ---------- Listeners ----------

    method FindListener(id: string) returns (at: nat)
      ensures at <= |listeners| && (at < |listeners| ==> listeners[at].id == id)
      ensures forall k :: 0 <= k < at ==> listeners[k].id != id
    {
      at := 0;
      while at < |listeners| && listeners[at].id != id
        invariant at <= |listeners| && forall k :: 0 <= k < at ==> listeners[k].id != id
      {
        at := at + 1;
      }
    }

    method AddListenerLocked(listener: Listener, freshId: string, now: int) returns (r: Result<Listener>)
      modifies this`listeners
      ensures r == CheckedListener(old(listeners), listener, freshId, now)
      ensures listeners == if r.Success? then old(listeners) + [r.value] else old(listeners)
    {
      hide ValidListener, CompleteListener, SameListener;
      var added := CompleteListener(listener, freshId, now);
      if !ValidListener(added) {
        return Failure(Invalid);
      }
      for i := 0 to |listeners|
        invariant forall k :: 0 <= k < i ==> listeners[k].id != added.id && !SameListener(listeners[k], added)
      {
        if listeners[i].id == added.id || SameListener(listeners[i], added) {
          return Failure(AlreadyExists);
        }
      }
      listeners := listeners + [added];
      return Success(added);
    }

    method AddListener(listener: Listener, freshId: string, now: int, saveOk: bool) returns (r: Result<Listener>)
      requires Valid() && freshId != ""
      modifies this
      ensures Valid()
      ensures r == Answer(old(Value()), CheckedListener(old(listeners), listener, freshId, now), true, saveOk)
      ensures if r.Success? then Committed(old(Value()), old(Res()).(listeners := old(listeners) + [r.value]), Value())
              else Value() == old(Value())
      ensures r.Success? ==> Edited(net, old(Value()), Value()) && ListenerTaken(listener, freshId, now, r.value)
    {
      hide ListenerTaken;
      ListenerIsTaken(listener, freshId, now);
      var snapshot := Value();
      r := AddListenerLocked(listener, freshId, now);
      if r.Failure? {
        return;
      }
      CompletedListenerGood(listener, freshId, now);
      ListenerAdded(net, snapshot.resources, r.value);
      var committed := CommitChecked(snapshot, saveOk);
      if committed.Failure? {
        return Failure(committed.error);
      }
    }

    /** On success, position `at` held the listener with the given id and now holds the normalized new one. */
    method ReplaceListener(listener: Listener, now: int, saveOk: bool) returns (r: Result<Listener>, ghost at: nat)
      requires Valid()
      modifies this
      ensures Valid()
      ensures var n := NormalizeListener(listener).(updated := now);
              r == if n.id == "" || !ValidListener(n) then Failure(Invalid)
              else if exists e <- old(listeners) :: e.id != n.id && SameListener(e, n) then Failure(AlreadyExists)
              else if forall e <- old(listeners) :: e.id != n.id then Failure(NotFound)
              else Answer(old(Value()), Success(n), true, saveOk)
      ensures if r.Success?
              then at < |old(listeners)| && old(listeners)[at].id == listener.id
                   && Committed(old(Value()), old(Res()).(listeners := old(listeners)[at := r.value]), Value())
              else Value() == old(Value())
      ensures r.Success? ==>
                Edited(net, old(Value()), Value()) && ListenerNormal(listener, r.value) && r.value.updated == now
    {
      hide GoodListener, GoodPool, GoodRule, Resolves, CompileAll, NormalizeListener, ValidListener;
      ListenerIsNormal(listener);
      NormalizingKeepsId(listener);
      at := 0;
      if listener.id == "" {
        return Failure(Invalid), 0;
      }
      var snapshot := Value();
      var replacement := NormalizeListener(listener).(updated := now);
      if !ValidListener(replacement) {
        return Failure(Invalid), 0;
      }
      for i := 0 to |listeners|
        invariant Value() == old(Value())
        invariant forall k :: 0 <= k < i ==>
                                listeners[k].id == replacement.id || !SameListener(listeners[k], replacement)
      {
        if listeners[i].id != replacement.id && SameListener(listeners[i], replacement) {
          return Failure(AlreadyExists), 0;
        }
      }
      var i := FindListener(listener.id);
      if i == |listeners| {
        return Failure(NotFound), 0;
      }
      at := i;
      ReplacementListenerGood(listener, now);
      ListenerReplaced(net, snapshot.resources, i, replacement);
      listeners := listeners[i := replacement];
      var committed := CommitChecked(snapshot, saveOk);
      r := if committed.Failure? then Failure(committed.error) else Success(replacement);
    }

    /** On success, position `at` held the listener with the given id and is gone. */
    method DeleteListener(id: string, saveOk: bool) returns (r: Result<()>, ghost at: nat)
      requires Valid()
      modifies this
      ensures Valid()
      ensures r == if exists e <- old(rules) :: e.listenerId == id then Failure(InUse)
                   else if forall e <- old(listeners) :: e.id != id then Failure(NotFound)
                   else Answer(old(Value()), Success(()), true, saveOk)
      ensures if r.Success?
              then at < |old(listeners)| && old(listeners)[at].id == id
                   && Committed(old(Value()), old(Res()).(listeners := Without(old(listeners), at)), Value())
                   && listeners == old(listeners)[..at] + old(listeners)[at + 1..]
              else Value() == old(Value())
      ensures r.Success? ==> Edited(net, old(Value()), Value())
    {
      hide GoodListener, GoodPool, GoodRule, Resolves, CompileAll;
      at := 0;
      for i := 0 to |rules|
        invariant forall k :: 0 <= k < i ==> rules[k].listenerId != id
      {
        if rules[i].listenerId == id {
          return Failure(InUse), 0;
        }
      }
      var snapshot := Value();
      var i := FindListener(id);
      if i == |listeners| {
        return Failure(NotFound), 0;
      }
      at := i;
      ListenerDeleted(net, snapshot.resources, i);
      listeners := Without(listeners, i);
      r := CommitChecked(snapshot, saveOk);
    }

    // ---------- Backend pools ----------

    method FindPool(id: string) returns (at: nat)
      ensures at <= |pools| && (at < |pools| ==> pools[at].id == id) && forall k :: 0 <= k < at ==> pools[k].id != id
    {
      at := 0;
      while at < |pools| && pools[at].id != id
        invariant at <= |pools| && forall k :: 0 <= k < at ==> pools[k].id != id
      {
        at := at + 1;
      }
    }

    method AddPoolLocked(pool: Pool, freshId: string, now: int) returns (r: Result<Pool>)
      modifies this`pools
      ensures r == CheckedPool(net, old(pools), pool, freshId, now)
      ensures pools == if r.Success? then old(pools) + [r.value] else old(pools)
    {
      var added := CompletePool(pool, freshId, now);
      if !ValidPool(net, added) {
        return Failure(Invalid);
      }
      for i := 0 to |pools|
        invariant forall k :: 0 <= k < i ==> pools[k].id != added.id && Lower(pools[k].name) != Lower(added.name)
      {
        if pools[i].id == added.id || Lower(pools[i].name) == Lower(added.name) {
          return Failure(AlreadyExists);
        }
      }
      pools := pools + [added];
      return Success(added);
    }

    method AddPool(pool: Pool, freshId: string, now: int, saveOk: bool) returns (r: Result<Pool>)
      requires Valid() && freshId != ""
      modifies this
      ensures Valid()
      ensures r == Answer(old(Value()), CheckedPool(net, old(pools), pool, freshId, now), true, saveOk)
      ensures if r.Success? then Committed(old(Value()), old(Res()).(pools := old(pools) + [r.value]), Value())
              else Value() == old(Value())
      ensures r.Success? ==> Edited(net, old(Value()), Value()) && PoolTaken(pool, freshId, now, r.value)
    {
      hide PoolTaken;
      PoolIsTaken(pool, freshId, now);
      var snapshot := Value();
      r := AddPoolLocked(pool, freshId, now);
      if r.Failure? {
        return;
      }
      CompletedPoolGood(net, pool, freshId, now);
      PoolAdded(net, snapshot.resources, r.value);
      var committed := CommitChecked(snapshot, saveOk);
      if committed.Failure? {
        return Failure(committed.error);
      }
    }

    method ReplacePool(pool: Pool, now: int, saveOk: bool) returns (r: Result<Pool>, ghost at: nat)
      requires Valid()
      modifies this
      ensures Valid()
      ensures var n := NormalizePool(pool).(updated := now);
              r == if n.id == "" || !ValidPool(net, n) then Failure(Invalid)
              else if exists e <- old(pools) ::
                        e.id != n.id && Lower(e.name) == Lower(n.name) then Failure(AlreadyExists)
              else if forall e <- old(pools) :: e.id != n.id then Failure(NotFound)
              else Answer(old(Value()), Success(n), true, saveOk)
      ensures if r.Success?
              then at < |old(pools)| && old(pools)[at].id == pool.id
                   && Committed(old(Value()), old(Res()).(pools := old(pools)[at := r.value]), Value())
              else Value() == old(Value())
      ensures r.Success? ==> Edited(net, old(Value()), Value()) && PoolNormal(pool, r.value) && r.value.updated == now
    {
      hide GoodListener, GoodPool, GoodRule, Resolves, CompileAll;
      PoolIsNormal(pool);
      at := 0;
      if pool.id == "" {
        return Failure(Invalid), 0;
      }
      var snapshot := Value();
      var replacement := NormalizePool(pool).(updated := now);
      if !ValidPool(net, replacement) {
        return Failure(Invalid), 0;
      }
      for i := 0 to |pools|
        invariant Value() == old(Value())
        invariant forall k :: 0 <= k < i ==>
                                pools[k].id == replacement.id || Lower(pools[k].name) != Lower(replacement.name)
      {
        if pools[i].id != replacement.id && Lower(pools[i].name) == Lower(replacement.name) {
          return Failure(AlreadyExists), 0;
        }
      }
      var i := FindPool(pool.id);
      if i == |pools| {
        return Failure(NotFound), 0;
      }
      at := i;
      ReplacementPoolGood(net, pool, now);
      PoolReplaced(net, snapshot.resources, i, replacement);
      pools := pools[i := replacement];
      var committed := CommitChecked(snapshot, saveOk);
      r := if committed.Failure? then Failure(committed.error) else Success(replacement);
    }

    method DeletePool(id: string, saveOk: bool) returns (r: Result<()>, ghost at: nat)
      requires Valid()
      modifies this
      ensures Valid()
      ensures r == if exists e <- old(rules) :: e.poolId == id then Failure(InUse)
                   else if forall e <- old(pools) :: e.id != id then Failure(NotFound)
                   else Answer(old(Value()), Success(()), true, saveOk)
      ensures if r.Success?
              then at < |old(pools)| && old(pools)[at].id == id
                   && Committed(old(Value()), old(Res()).(pools := Without(old(pools), at)), Value())
                   && pools == old(pools)[..at] + old(pools)[at + 1..]
              else Value() == old(Value())
      ensures r.Success? ==> Edited(net, old(Value()), Value())
    {
      hide GoodListener, GoodPool, GoodRule, Resolves, CompileAll;
      at := 0;
      for i := 0 to |rules|
        invariant forall k :: 0 <= k < i ==> rules[k].poolId != id
      {
        if rules[i].poolId == id {
          return Failure(InUse), 0;
        }
      }
      var snapshot := Value();
      var i := FindPool(id);
      if i == |pools| {
        return Failure(NotFound), 0;
      }
      at := i;
      PoolDeleted(net, snapshot.resources, i);
      pools := Without(pools, i);
      r := CommitChecked(snapshot, saveOk);
    }

    // ---------- Routing rules ----------

    /** Whether a rule other than the one being replaced already serves the same listener and path. */
    method PlaceTaken(rule: Rule, replacing: string) returns (taken: bool)
      ensures taken <==> exists k :: 0 <= k < |rules| && rules[k].id != replacing && SamePlace(rules[k], rule)
    {
      for i := 0 to |rules|
        invariant forall k :: 0 <= k < i ==> rules[k].id == replacing || !SamePlace(rules[k], rule)
      {
        if rules[i].id != replacing && SamePlace(rules[i], rule) {
          return true;
        }
      }
      return false;
    }

    method FindRule(id: string) returns (at: nat)
      ensures at <= |rules| && (at < |rules| ==> rules[at].id == id) && forall k :: 0 <= k < at ==> rules[k].id != id
    {
      at := 0;
      while at < |rules| && rules[at].id != id
        invariant at <= |rules| && forall k :: 0 <= k < at ==> rules[k].id != id
      {
        at := at + 1;
      }
    }

    method AddRuleLocked(rule: Rule, freshId: string, now: int) returns (r: Result<Rule>)
      modifies this`rules
      ensures r == CheckedRule(net, old(Res()), rule, freshId, now)
      ensures rules == if r.Success? then old(rules) + [r.value] else old(rules)
    {
      hide ValidRule;
      var added := CompleteRule(rule, freshId, now);
      if !Acceptable(net, Res(), added) {
        return Failure(Invalid);
      }
      for i := 0 to |rules|
        invariant forall k :: 0 <= k < i ==> rules[k].id != added.id && !SamePlace(rules[k], added)
      {
        if rules[i].id == added.id || SamePlace(rules[i], added) {
          return Failure(AlreadyExists);
        }
      }
      rules := rules + [added];
      return Success(added);
    }

    method AddRule(rule: Rule, freshId: string, now: int, saveOk: bool) returns (r: Result<Rule>)
      requires Valid() && freshId != ""
      modifies this
      ensures Valid()
      ensures r == Answer(old(Value()), CheckedRule(net, old(Res()), rule, freshId, now),
                          ValidSecurity(net, NormalizeSecurity(CompleteRule(rule, freshId, now).security)), saveOk)
      ensures if r.Success? then Committed(old(Value()), old(Res()).(rules := old(rules) + [r.value]), Value())
              else Value() == old(Value())
      ensures r.Success? ==> Edited(net, old(Value()), Value()) && RuleTaken(rule, freshId, now, r.value)
    {
      hide ValidRule, ValidSecurity, CompleteRule;
      hide RuleTaken;
      RuleIsTaken(rule, freshId, now);
      var snapshot := Value();
      r := AddRuleLocked(rule, freshId, now);
      if r.Failure? {
        return;
      }
      CompletedRuleHasId(rule, freshId, now);
      var committed := CommitRule(snapshot, r.value, |snapshot.resources.rules|, saveOk);
      if committed.Failure? {
        return Failure(committed.error);
      }
    }

    /** Commits after one rule was written at position `at`: only that rule's security lists can fail to compile. */
    method CommitRule(before: StoreState, ghost rule: Rule, ghost at: nat, saveOk: bool) returns (r: Result<()>)
      requires Inv(net, before) && rule.id != "" && Acceptable(net, before.resources, rule)
      requires RuleWritten(before.resources.rules, rule, at, rules)
      requires Value() == before.(resources := before.resources.(rules := rules))
      modifies this
      ensures Valid()
      ensures r == Answer(before, Success(()), ValidSecurity(net, NormalizeSecurity(rule.security)), saveOk)
      ensures if r.Success? then Committed(before, old(Res()), Value()) && Edited(net, before, Value())
              else Value() == before
    {
      hide ValidRule, ValidSecurity, WellFormed, Resolves, ValidRoute;
      ghost var res := Res();
      if ValidSecurity(net, NormalizeSecurity(rule.security)) {
        WrittenRuleKeeps(net, before.resources, rule, at, rules);
        WellFormedCompiles(net, res);
      } else {
        WrittenRuleBreaks(net, before.resources, rule, at, rules);
      }
      r := Commit(before, saveOk);
      if r.Success? {
        CommittedIsEdit(net, before, res, Value());
      }
    }

    method ReplaceRule(rule: Rule, now: int, saveOk: bool) returns (r: Result<Rule>, ghost at: nat)
      requires Valid()
      modifies this
      ensures Valid()
      ensures var n := NormalizeRule(rule);
              if n.id == "" || !Acceptable(net, old(Res()), n) then r == Failure(Invalid)
              else if exists e <- old(rules) :: e.id != n.id && SamePlace(e, n) then r == Failure(AlreadyExists)
              else if forall e <- old(rules) :: e.id != n.id then r == Failure(NotFound)
              else at < |old(rules)| && old(rules)[at].id == n.id
                   && r == Answer(old(Value()), Success(n.(updated := now, lastError := old(rules)[at].lastError)),
                                  ValidSecurity(net, NormalizeSecurity(n.security)), saveOk)
      ensures if r.Success?
              then at < |old(rules)|
                   && Committed(old(Value()), old(Res()).(rules := old(rules)[at := r.value]), Value())
              else Value() == old(Value())
      ensures r.Success? ==> Edited(net, old(Value()), Value())
                             && RuleNormal(rule, r.value.(lastError := rule.lastError)) && r.value.updated == now
                             && r.value.lastError == old(rules)[at].lastError
    {
      hide ValidRule, ValidSecurity, NormalizeSecurity, WellFormed, CompileAll, Resolves;
      RuleIsNormal(rule);
      at := 0;
      if rule.id == "" {
        return Failure(Invalid), 0;
      }
      var snapshot := Value();
      var replacement := NormalizeRule(rule);
      if !Acceptable(net, Res(), replacement) {
        return Failure(Invalid), 0;
      }
      var taken := PlaceTaken(replacement, rule.id);
      if taken {
        return Failure(AlreadyExists), 0;
      }
      var i := FindRule(rule.id);
      if i == |rules| {
        return Failure(NotFound), 0;
      }
      at := i;
      replacement := replacement.(updated := now, lastError := rules[i].lastError);
      rules := rules[i := replacement];
      StillAcceptable(net, snapshot.resources, NormalizeRule(rule), replacement);
      var committed := CommitRule(snapshot, replacement, i, saveOk);
      r := if committed.Failure? then Failure(committed.error) else Success(replacement);
    }

    method DeleteRule(id: string, saveOk: bool) returns (r: Result<()>, ghost at: nat)
      requires Valid()
      modifies this
      ensures Valid()
      ensures r == if forall e <- old(rules) :: e.id != id then Failure(NotFound)
                   else Answer(old(Value()), Success(()), true, saveOk)
      ensures if r.Success?
              then at < |old(rules)| && old(rules)[at].id == id
                   && Committed(old(Value()), old(Res()).(rules := Without(old(rules), at)), Value())
                   && rules == old(rules)[..at] + old(rules)[at + 1..]
              else Value() == old(Value())
      ensures r.Success? ==> Edited(net, old(Value()), Value())
    {
      hide GoodListener, GoodPool, GoodRule, Resolves, CompileAll;
      at := 0;
      var snapshot := Value();
      var i := FindRule(id);
      if i == |rules| {
        return Failure(NotFound), 0;
      }
      at := i;
      RuleDeleted(net, snapshot.resources, i);
      rules := Without(rules, i);
      r := CommitChecked(snapshot, saveOk);
    }

    // ---------- Whole resource sets ----------

    method NormalizeListeners() returns (ok: bool)
      modifies this`listeners
      ensures ok <==> GoodListeners(NormalizedListeners(old(listeners)))
      ensures ok ==> listeners == NormalizedListeners(old(listeners))
    {
      hide NormalizeListener, ValidListener;
      ghost var normal := NormalizedListeners(listeners);
      for i := 0 to |listeners|
        invariant |listeners| == |normal|
        invariant forall k :: 0 <= k < |normal| ==> listeners[k] == if k < i then normal[k] else old(listeners)[k]
        invariant GoodListeners(normal[..i])
      {
        var l := NormalizeListener(listeners[i]);
        listeners := listeners[i := l];
        assert normal[..i + 1] == normal[..i] + [normal[i]] && normal[i] in normal;
        if l.id == "" || (exists k :: 0 <= k < i && (listeners[k].id == l.id || SameListener(listeners[k], l))) {
          return false;
        }
        if !ValidListener(l) {
          return false;
        }
      }
      assert normal[..|normal|] == normal && listeners == normal;
      return true;
    }

    method NormalizePools() returns (ok: bool)
      modifies this`pools
      ensures ok <==> GoodPools(net, NormalizedPools(old(pools)))
      ensures ok ==> pools == NormalizedPools(old(pools))
    {
      hide NormalizePool, ValidPool, Lower;
      ghost var normal := NormalizedPools(pools);
      for i := 0 to |pools|
        invariant |pools| == |normal|
        invariant forall k :: 0 <= k < |normal| ==> pools[k] == if k < i then normal[k] else old(pools)[k]
        invariant GoodPools(net, normal[..i])
      {
        var p := NormalizePool(pools[i]);
        pools := pools[i := p];
        assert normal[..i + 1] == normal[..i] + [normal[i]] && normal[i] in normal;
        if p.id == "" || (exists k :: 0 <= k < i && (pools[k].id == p.id || Lower(pools[k].name) == Lower(p.name))) {
          return false;
        }
        if !ValidPool(net, p) {
          return false;
        }
      }
      assert normal[..|normal|] == normal && pools == normal;
      return true;
    }

    method NormalizeRules() returns (ok: bool)
      modifies this`rules
      ensures var res := old(Res()).(rules := NormalizedRules(old(rules)));
              && (ok <==> GoodRules(net, res, old(rules)))
              && (ok ==> Res() == res)
    {
      hide NormalizeRule, Acceptable, RulesCheckedTo, PassesChecks, GoodRules, SamePlace;
      ghost var before := rules;
      ghost var res := Res().(rules := NormalizedRules(rules));
      ghost var normal := res.rules;
      NothingChecked(net, res, before);
      for i := 0 to |rules|
        invariant |rules| == |normal| && listeners == old(listeners) && pools == old(pools)
        invariant forall k :: 0 <= k < |normal| ==> rules[k] == if k < i then normal[k] else before[k]
        invariant RulesCheckedTo(net, res, before, i)
      {
        var r := NormalizeRule(rules[i]);
        rules := rules[i := r];
        var duplicate := false;
        for k := 0 to i
          invariant duplicate <==> exists j :: 0 <= j < k && rules[j].id == r.id
        {
          duplicate := duplicate || rules[k].id == r.id;
        }
        SameLookups(net, Res(), res, r);
        var taken := PlaceTaken(r, r.id);
        AsSeen(net, res, before, rules, i);
        if r.id == "" || duplicate || !Acceptable(net, Res(), r) || taken {
          RulesRefused(net, res, before, i);
          return false;
        }
        RulesCheckedNext(net, res, before, i);
      }
      assert rules == normal;
      return true;
    }

    /** Normalizes and checks the resources in place; a failure leaves them to the caller to restore. */
    method NormalizeResources() returns (ok: bool)
      modifies this`listeners, this`pools, this`rules
      ensures ok <==> AcceptableSet(net, old(Res()))
      ensures ok ==> Res() == NormalizeAll(old(Res()))
      ensures ok ==> SetNormal(old(Res()), Res())
    {
      hide GoodListeners, GoodPools, GoodRules, SetNormal, NormalizeListener, NormalizePool, NormalizeRule;
      AllNormal(Res());
      ok := NormalizeListeners();
      if ok {
        ok := NormalizePools();
      }
      if ok {
        ok := NormalizeRules();
      }
    }

    lemma AllNormal(res: Resources)
      ensures SetNormal(res, NormalizeAll(res))
    {
      hide ListenerNormal, PoolNormal, RuleNormal, SameLabel, NormalizeListener, NormalizePool, NormalizeRule;
      forall i | 0 <= i < |res.listeners| ensures ListenerNormal(res.listeners[i], NormalizeAll(res).listeners[i])
                                                  && NormalizeAll(res).listeners[i].updated == res.listeners[i].updated
      {
        ListenerIsNormal(res.listeners[i]);
      }
      forall i | 0 <= i < |res.pools| ensures PoolNormal(res.pools[i], NormalizeAll(res).pools[i])
                                              && NormalizeAll(res).pools[i].updated == res.pools[i].updated
      {
        PoolIsNormal(res.pools[i]);
      }
      forall i | 0 <= i < |res.rules| ensures RuleNormal(res.rules[i], NormalizeAll(res).rules[i])
                                              && SameLabel(res.rules[i], NormalizeAll(res).rules[i])
      {
        RuleIsNormal(res.rules[i]);
      }
    }

    /** What a resource set that is taken in leaves: all of it in normal form, without runtime errors. */
    ghost predicate TakenFrom(given: Resources, taken: Resources) {
      exists clean :: SameButErrors(clean, given) && SetNormal(clean, taken)
    }

    lemma DecodedIsTaken(given: Resources)
      ensures var decoded := Decoded(net, WithoutErrors(given));
              decoded.Some? ==> TakenFrom(given, decoded.value) && decoded.value.version == given.version
      ensures var decoded := Decoded(net, given); decoded.Some? ==> SetNormal(given, decoded.value)
    {
      hide NormalizeAll, AcceptableSet, Compilable, SetNormal;
      AllNormal(WithoutErrors(given));
      AllNormal(given);
      assert SameButErrors(WithoutErrors(given), given);
      DecodedIsWellFormed(net, WithoutErrors(given));
    }

    method ReplaceResources(resources: Resources, saveOk: bool) returns (r: Result<()>)
      requires Valid()
      modifies this
      ensures Valid()
      ensures r == if resources.version != RESOURCE_SET_VERSION then Failure(Unsupported)
                   else if Decoded(net, WithoutErrors(resources)).None? then Failure(Invalid)
                   else if persistent && !saveOk then Failure(SaveFailed)
                   else Success(())
      ensures if r.Success?
              then Committed(old(Value()).(staged := false), Decoded(net, WithoutErrors(resources)).value, Value())
                   && Edited(net, old(Value()), Value()) && !staged && TakenFrom(resources, Res())
              else Value() == old(Value())
    {
      hide AcceptableSet, Compilable, WellFormed, NormalizeAll, SetNormal, TakenFrom;
      DecodedIsTaken(resources);
      if resources.version != RESOURCE_SET_VERSION {
        return Failure(Unsupported);
      }
      var snapshot := Value();
      staged := false;
      Take(resources);
      var accepted := NormalizeResources();
      if !accepted {
        Restore(snapshot);
        return Failure(Invalid);
      }
      DecodedIsWellFormed(net, WithoutErrors(resources));
      ghost var taken := Value();
      r := Commit(snapshot, saveOk);
      if r.Success? {
        CommittedIsEdit(net, snapshot.(staged := false), taken.resources, Value());
      }
    }

    /** Copies a resource set in, without its runtime errors. */
    method Take(resources: Resources)
      modifies this`listeners, this`pools, this`rules
      ensures listeners == resources.listeners && pools == resources.pools && rules == WithoutErrors(resources).rules
    {
      listeners, pools, rules := resources.listeners, resources.pools, resources.rules;
      for i := 0 to |rules|
        invariant listeners == resources.listeners && pools == resources.pools && |rules| == |resources.rules|
        invariant forall k :: 0 <= k < |rules| ==>
                                rules[k] == if k < i then resources.rules[k].(lastError := "") else resources.rules[k]
      {
        rules := rules[i := rules[i].(lastError := "")];
      }
      assert rules == WithoutErrors(resources).rules;
    }

    /** Puts an import in memory only: the file keeps what it held. */
    method StageResources(resources: Resources) returns (r: Result<()>)
      requires Valid()
      modifies this
      ensures Valid()
      ensures r == if resources.version != RESOURCE_SET_VERSION then Failure(Unsupported)
                   else if Decoded(net, WithoutErrors(resources)).None? then Failure(Invalid)
                   else Success(())
      ensures if r.Success?
              then Committed(old(Value()).(staged := true), Decoded(net, WithoutErrors(resources)).value, Value())
                   && Edited(net, old(Value()), Value()) && staged && disk == old(disk) && TakenFrom(resources, Res())
              else Value() == old(Value())
    {
      hide AcceptableSet, Compilable, WellFormed, NormalizeAll, SetNormal, TakenFrom;
      DecodedIsTaken(resources);
      if resources.version != RESOURCE_SET_VERSION {
        return Failure(Unsupported);
      }
      var snapshot := Value();
      staged := true;
      Take(resources);
      var accepted := NormalizeResources();
      if !accepted {
        Restore(snapshot);
        return Failure(Invalid);
      }
      DecodedIsWellFormed(net, WithoutErrors(resources));
      ghost var taken := Res();
      var compiled := RebuildRoutes();
      if !compiled {
        Restore(snapshot);
        return Failure(Invalid);
      }
      revision := revision + 1;
      StagingKeepsFile(net, snapshot);
      CommittedIsEdit(net, snapshot.(staged := true), taken, Value());
      return Success(());
    }

    // ---------- Applied state ----------

    /** Confirms a snapshot the runtime has loaded; edits made since it was taken stay pending. */
    method MarkApplied(snapshot: Snapshot, saveOk: bool) returns (r: Result<()>)
      requires Valid()
      modifies this
      ensures r == if snapshot.revision > old(revision) || snapshot.revision < old(applied).revision then Failure(Stale)
                   else if persistent && !saveOk then Failure(SaveFailed)
                   else Success(())
      ensures Value() == if r.Success? then Applied(old(Value()), snapshot) else old(Value())
      ensures r.Success? ==>
                && applied == snapshot && !staged && revision == old(revision) && Res() == old(Res())
                && routes == old(routes) && (persistent ==> disk.Some? && Describes(disk.value))
      ensures r.Failure? || Genuine(net, old(Value()), snapshot) ==> Valid()
    {
      if snapshot.revision > revision || snapshot.revision < applied.revision {
        return Failure(Stale);
      }
      var previous := applied;
      applied := snapshot;
      var saved := Save(saveOk);
      if !saved {
        applied := previous;
        return Failure(SaveFailed);
      }
      staged := false;
      return Success(());
    }

    method PersistStaged(saveOk: bool) returns (r: Result<()>)
      requires Valid()
      modifies this
      ensures Valid()
      ensures r == if old(staged) && persistent && !saveOk then Failure(SaveFailed) else Success(())
      ensures Value() == if r.Failure? || !old(staged) then old(Value()) else Saved(old(Value())).(staged := false)
      ensures r.Success? ==>
                && !staged && Value() == old(Value()).(staged := false, disk := disk)
                && (old(staged) && persistent ==> disk.Some? && Describes(disk.value))
    {
      if !staged {
        return Success(());
      }
      var saved := Save(saveOk);
      if !saved {
        return Failure(SaveFailed);
      }
      staged := false;
      return Success(());
    }

    /** Records probe results in memory; the file and the revision do not change. */
    method SetRuntimeStatus(statuses: seq<Status>)
      requires Valid()
      modifies this
      ensures Valid() && Value() == WithStatuses(old(Value()), statuses)
      ensures Value() == old(Value()).(resources := old(Res()).(rules := rules), routes := routes)
      ensures OnlyErrorsSet(old(rules), old(routes), statuses, rules, routes)
    {
      StatusKeepsInvariant(net, Value(), statuses);
      StatusMeaning(rules, routes, statuses);
      hide Inv, ReportedError, RuleWithStatus, RouteWithStatus, OnlyErrorsSet;
      if |statuses| == 0 {
        NoStatuses(Value());
        return;
      }
      SetRouteErrors(statuses);
      SetRuleErrors(statuses);
    }

    method SetRouteErrors(statuses: seq<Status>)
      modifies this`routes
      ensures routes == RoutesWithStatus(old(routes), statuses)
    {
      hide RouteWithStatus;
      for i := 0 to |routes|
        invariant |routes| == |old(routes)|
        invariant forall k :: 0 <= k < |routes| ==>
                                routes[k] == if k < i then RouteWithStatus(old(routes)[k], statuses) else old(routes)[k]
      {
        routes := routes[i := RouteWithStatus(routes[i], statuses)];
      }
    }

    method SetRuleErrors(statuses: seq<Status>)
      modifies this`rules
      ensures rules == RulesWithStatus(old(rules), statuses)
    {
      hide RuleWithStatus;
      for i := 0 to |rules|
        invariant |rules| == |old(rules)|
        invariant forall k :: 0 <= k < |rules| ==>
                                rules[k] == if k < i then RuleWithStatus(old(rules)[k], statuses) else old(rules)[k]
      {
        rules := rules[i := RuleWithStatus(rules[i], statuses)];
      }
    }

    // ---------- Legacy routes ----------

    /** The listener that already serves the route's endpoint, or a new one. */
    method ChooseListener(named: Route, freshId: string, now: int) returns (r: Result<Listener>)
      requires WellFormed(net, Res()) && ValidHost(named.host) && freshId != ""
      modifies this`listeners
      ensures r == ChosenListener(old(listeners), ListenerFor(named), freshId, now)
      ensures r.Success? ==>
                && WellFormed(net, Res()) && r.value in listeners && SameListener(r.value, ListenerFor(named))
                && listeners == WithListener(old(listeners), r.value)
    {
      hide CompleteListener, ListenerFor, ValidListener, ValidHost, GoodPool, GoodRule, SameListener;
      var candidate := ListenerFor(named);
      for i := 0 to |listeners|
        invariant forall k :: 0 <= k < i ==> !SameListener(listeners[k], candidate)
      {
        if SameListener(listeners[i], candidate) {
          FirstServing(listeners, candidate, i);
          return Success(listeners[i]);
        }
      }
      FirstServing(listeners, candidate, |listeners|);
      ghost var before := Res();
      r := AddListenerLocked(candidate, freshId, now);
      if r.Success? {
        NewListenerServesRoute(named, freshId, now);
        CompletedListenerGood(candidate, freshId, now);
        ListenerAdded(net, before, r.value);
      }
    }

    /** Splits a route into resources. A failure leaves them to the caller to restore. */
    method MigrateRoute(route: Route, ids: FreshIds, now: int)
      returns (r: Result<Route>, ghost l: Listener, ghost p: Pool, ghost rule: Rule)
      requires WellFormed(net, Res()) && ids.route != "" && ids.listener != "" && ids.pool != ""
      modifies this`listeners, this`pools, this`rules, this`routes
      ensures Answers(r, Parts(l, p, rule), CheckedMigration(net, old(Res()), route, ids, now))
      ensures r.Success? ==>
                && Res() == WithParts(old(Res()), Parts(l, p, rule))
                && MigratedInto(old(Res()), Named(NormalizeRoute(route), ids.route), l, p, rule, Res())
                && WellFormed(net, Res()) && Compilable(net, Res()) && routes == CompileAll(Res())
                && Resolves(Res(), rule) && r.value == CompileIn(Res(), rule)
                && (rule.listenerId == l.id && rule.poolId == p.id ==> r.value == CompileRule(rule, l, p))
    {
      hide ValidRoute, NormalizeRoute, CompleteListener, CompletePool, CompleteRule, ListenerFor, PoolFor, RuleFor,
        WellFormed, CompileRule, ValidHost, ValidUpstream, ValidRule, ValidSecurity, NormalizeSecurity, RuleClash,
        CompileAll, Splittable, SameListener, Acceptable, SharedPort, SharedHealth, SplitTargets, Compilable,
        ChosenListener, CheckedPool, CheckedRule, Compiling;
      l, p, rule := *, *, *;
      if !ValidRoute(net, route) {
        r := Failure(Invalid);
        return;
      }
      var named := Named(NormalizeRoute(route), ids.route);
      NamedRouteShape(net, route, ids.route);
      var listener := ChooseListener(named, ids.listener, now);
      if listener.Failure? {
        r := Failure(listener.error);
        return;
      }
      l := listener.value;
      var ok, protocol, port, targets, health := SplitUpstreams(named.upstreams);
      if !ok {
        r := Failure(Invalid);
        return;
      }
      var pool := AddSplitPool(named, targets, ids.pool, now);
      if pool.Failure? {
        r := Failure(pool.error);
        return;
      }
      p := pool.value;
      r, rule := AddSplitRule(named, listener.value, pool.value, protocol, port, health, ids.route, now);
    }

    method AddSplitPool(named: Route, targets: seq<Target>, poolId: string, now: int) returns (r: Result<Pool>)
      requires WellFormed(net, Res()) && poolId != "" && targets == SplitTargets(named.upstreams)
      modifies this`pools
      ensures r == CheckedPool(net, old(pools), PoolFor(named, poolId), poolId, now)
      ensures r.Success? ==>
                WellFormed(net, Res()) && pools == old(pools) + [r.value]
                && r.value == CompletePool(PoolFor(named, poolId), poolId, now)
    {
      hide CompletePool, WellFormed, ValidPool, PoolClash, SplitTargets;
      ghost var before := Res();
      var candidate := Pool(poolId, named.id + " backends", targets, "compatibility", 0);
      r := AddPoolLocked(candidate, poolId, now);
      if r.Success? {
        CompletedPoolGood(net, candidate, poolId, now);
        PoolAdded(net, before, r.value);
      }
    }

    method AddSplitRule(
      named: Route, l: Listener, p: Pool, protocol: string, port: nat, health: string, freshId: string, now: int)
      returns (r: Result<Route>, ghost rule: Rule)
      requires WellFormed(net, Res()) && l in listeners && p in pools && named.id != "" && freshId != ""
      requires named.upstreams != [] && named.upstreams[0].url.Url?
      requires protocol == Lower(named.upstreams[0].url.scheme) && port == SharedPort(named.upstreams)
      requires health == SharedHealth(named.upstreams)
      modifies this`rules, this`routes
      ensures var checked := Compiling(net, CheckedRule(net, old(Res()), RuleFor(named, l.id, p.id), freshId, now));
              match r case Success(_) => checked == Success(rule) case Failure(error) => checked == Failure(error)
      ensures r.Success? ==>
                && rule == CompleteRule(RuleFor(named, l.id, p.id), freshId, now) && rules == old(rules) + [rule]
                && WellFormed(net, Res()) && Compilable(net, Res()) && routes == CompileAll(Res())
                && Resolves(Res(), rule) && r.value == CompileIn(Res(), rule)
                && (rule.listenerId == l.id && rule.poolId == p.id ==> r.value == CompileRule(rule, l, p))
    {
      hide CompleteRule, ValidRule, ValidSecurity, NormalizeSecurity, ValidRoute, SharedPort, SharedHealth, CompileRule,
        WellFormed, SourceOr, Lower, RuleClash, Acceptable, CompileIn, Compilable;
      ghost var before := Res();
      rule := CompleteRule(RuleFor(named, l.id, p.id), freshId, now);
      IdsSurvive(named, rule, freshId, now, l, p);
      var candidate := Rule(
        named.id, named.id, l.id, p.id, port, protocol, named.pathPrefix, health, named.exposure, named.enabled,
        named.webSocket, named.headers, named.security, SourceOr(named.source, "explicit"), named.lastError, 0);
      var added := AddRuleLocked(candidate, freshId, now);
      if added.Failure? {
        r := Failure(added.error);
        return;
      }
      if ValidSecurity(net, NormalizeSecurity(rule.security)) {
        WrittenRuleKeeps(net, before, rule, |before.rules|, rules);
        WellFormedCompiles(net, Res());
      } else {
        WrittenRuleBreaks(net, before, rule, |before.rules|, rules);
      }
      var compiled := RebuildRoutes();
      if !compiled {
        r := Failure(Invalid);
        return;
      }
      ghost var res := Res();
      CompiledRuleAdded(net, before, rule, res);
      CompiledById(net, res, |rules| - 1, |rules| - 1);
      assert res.rules[|rules| - 1] == rule;
      CompiledFrom(net, res, rule, l, p);
      var created := FindCompiled(named.id, |rules| - 1);
      r := Success(created);
    }

    /** The compiled route of the rule at position `at`, found by its id. */
    method FindCompiled(id: string, ghost at: nat) returns (route: Route)
      requires WellFormed(net, Res()) && (forall r <- rules :: Resolves(Res(), r)) && routes == CompileAll(Res())
      requires at < |rules| && rules[at].id == id
      ensures route == CompileIn(Res(), rules[at])
    {
      hide WellFormed, CompileIn;
      var i := 0;
      CompiledById(net, Res(), at, at);
      while routes[i].id != id
        invariant i <= at
        decreases |routes| - i
      {
        CompiledById(net, Res(), i, at);
        i := i + 1;
      }
      CompiledById(net, Res(), i, at);
      return routes[i];
    }

    /** Whether another route already has this id, or this host and path. */
    method RouteTaken(route: Route, own: string) returns (taken: bool)
      ensures taken <==> exists e <- routes :: RouteClash(e, route, own)
    {
      for i := 0 to |routes|
        invariant forall k :: 0 <= k < i ==> !RouteClash(routes[k], route, own)
      {
        if RouteClash(routes[i], route, own) {
          return true;
        }
      }
      return false;
    }

    /** Migrates a route and commits, or restores the given snapshot. */
    method MigrateAndCommit(snapshot: StoreState, route: Route, ids: FreshIds, now: int, saveOk: bool)
      returns (r: Result<Route>, ghost l: Listener, ghost p: Pool, ghost rule: Rule)
      requires Inv(net, snapshot) && WellFormed(net, Res()) && ids.route != "" && ids.listener != "" && ids.pool != ""
      requires Value() == snapshot.(resources := Res())
      modifies this
      ensures Valid()
      ensures Answers(r, Parts(l, p, rule),
                      Answer(snapshot, CheckedMigration(net, old(Res()), route, ids, now), true, saveOk))
      ensures if r.Success?
              then MigratedInto(old(Res()), Named(NormalizeRoute(route), ids.route), l, p, rule, Res())
                   && Committed(snapshot, Res(), Value()) && Edited(net, snapshot, Value())
                   && Resolves(Res(), rule) && r.value == CompileIn(Res(), rule)
                   && (rule.listenerId == l.id && rule.poolId == p.id ==> r.value == CompileRule(rule, l, p))
              else Value() == snapshot
    {
      hide WellFormed, MigratedInto, NormalizeRoute, Resolves, CompileIn, CompileRule, CompileAll, Compilable,
        CheckedMigration, WithParts;
      r, l, p, rule := MigrateRoute(route, ids, now);
      if r.Failure? {
        Restore(snapshot);
        return;
      }
      var committed := CommitChecked(snapshot, saveOk);
      if committed.Failure? {
        r := Failure(committed.error);
      }
    }

    method AddRoute(route: Route, ids: FreshIds, now: int, saveOk: bool)
      returns (r: Result<Route>, ghost l: Listener, ghost p: Pool, ghost rule: Rule)
      requires Valid() && ids.route != "" && ids.listener != "" && ids.pool != ""
      modifies this
      ensures Valid()
      ensures Answers(r, Parts(l, p, rule),
                      Answer(old(Value()), CheckedRoute(net, old(Value()), route, ids, now), true, saveOk))
      ensures if r.Success?
              then MigratedInto(old(Res()), Named(NormalizeRoute(NormalizeRoute(route)), ids.route), l, p, rule, Res())
                   && Committed(old(Value()), Res(), Value()) && Edited(net, old(Value()), Value())
                   && Resolves(Res(), rule) && r.value == CompileIn(Res(), rule)
                   && (rule.listenerId == l.id && rule.poolId == p.id ==> r.value == CompileRule(rule, l, p))
              else Value() == old(Value())
    {
      hide ValidRoute, WellFormed, MigratedInto, Resolves, CompileIn, CompileRule, CompileAll, Compilable,
        NormalizeName, NormalizePrefix, NormalizeSecurity, RouteClash, Lower, TrimSpace, Edited, Committed,
        CheckedMigration;
      l, p, rule := *, *, *;
      if !ValidRoute(net, route) {
        r := Failure(Invalid);
        return;
      }
      var normal := NormalizeRoute(route);
      var taken := RouteTaken(normal, "");
      if taken {
        r := Failure(AlreadyExists);
        return;
      }
      r, l, p, rule := MigrateAndCommit(Value(), normal, ids, now, saveOk);
    }

    method DropPool(removed: Rule)
      modifies this`pools
      ensures pools == PrunedPools(old(Res()), removed)
    {
      var shared := false;
      for i := 0 to |rules|
        invariant shared <==> exists k :: 0 <= k < i && rules[k].poolId == removed.poolId
      {
        shared := shared || rules[i].poolId == removed.poolId;
      }
      var pool := FindPool(removed.poolId);
      PoolIndexIsFirst(pools, removed.poolId, pool);
      if !shared && pool < |pools| && pools[pool].source == "compatibility" {
        pools := Without(pools, pool);
      }
    }

    method DropListener(removed: Rule)
      modifies this`listeners
      ensures listeners == PrunedListeners(old(Res()), removed)
    {
      var shared := false;
      for i := 0 to |rules|
        invariant shared <==> exists k :: 0 <= k < i && rules[k].listenerId == removed.listenerId
      {
        shared := shared || rules[i].listenerId == removed.listenerId;
      }
      var listener := FindListener(removed.listenerId);
      ListenerIndexIsFirst(listeners, removed.listenerId, listener);
      if !shared && listener < |listeners| && listeners[listener].source == "compatibility" {
        listeners := Without(listeners, listener);
      }
    }

    /** Removes a rule with the resources made only for it. */
    method RemoveRule(at: nat)
      requires WellFormed(net, Res()) && at < |rules|
      modifies this`rules, this`pools, this`listeners
      ensures WellFormed(net, Res())
      ensures Res() == Pruned(old(Res()).(rules := Without(old(rules), at)), old(rules)[at])
      ensures rules == old(rules)[..at] + old(rules)[at + 1..] && OnlyItsPartsGo(old(Res()), old(rules)[at], Res())
    {
      hide WellFormed, OnlyItsPartsGo, PrunedPools, PrunedListeners;
      ghost var before := Res();
      var removed := rules[at];
      rules := Without(rules, at);
      RuleDeleted(net, before, at);
      ghost var fewer := Res();
      PruningKeeps(net, fewer, removed);
      PruningMeaning(net, fewer, removed);
      PartsOfRemoved(before, fewer, removed, Pruned(fewer, removed));
      DropPool(removed);
      SameListenerPruning(fewer, Res(), removed);
      DropListener(removed);
    }

    method ReplaceRoute(route: Route, ids: FreshIds, now: int, saveOk: bool)
      returns (r: Result<Route>, ghost at: nat, ghost l: Listener, ghost p: Pool, ghost rule: Rule)
      requires Valid() && ids.route != "" && ids.listener != "" && ids.pool != ""
      modifies this
      ensures Valid()
      ensures route.id == "" || !ValidRoute(net, route) ==> r == Failure(Invalid)
      ensures route.id != "" && ValidRoute(net, route) && (forall e <- old(rules) :: e.id != route.id) ==>
                r == Failure(NotFound)
      ensures route.id != "" && ValidRoute(net, route) && (exists e <- old(rules) :: e.id == route.id) ==>
                && at < |old(rules)| && old(rules)[at].id == route.id
                && if exists e <- old(routes) ::
                        RouteClash(e, NormalizeRoute(route), route.id) then r == Failure(AlreadyExists)
                   else
                     var rest := Pruned(old(Res()).(rules := Without(old(rules), at)), old(rules)[at]);
                     Answers(r, Parts(l, p, rule),
                             Answer(old(Value()), CheckedMigration(net, rest, NormalizeRoute(route), ids, now), true,
                                    saveOk))
      ensures if r.Success?
              then at < |old(rules)| && old(rules)[at].id == route.id
                   && MigratedInto(Pruned(old(Res()).(rules := Without(old(rules), at)), old(rules)[at]),
                                   Named(NormalizeRoute(NormalizeRoute(route)), ids.route), l, p, rule, Res())
                   && Committed(old(Value()), Res(), Value()) && Edited(net, old(Value()), Value())
                   && Resolves(Res(), rule) && r.value == CompileIn(Res(), rule)
              else Value() == old(Value())
    {
      hide ValidRoute, WellFormed, MigratedInto, Resolves, CompileIn, CompileRule, CompileAll, Compilable,
        NormalizeName, NormalizePrefix, NormalizeSecurity, RouteClash, Lower, TrimSpace, Edited, Committed, Pruned,
        CheckedMigration;
      at, l, p, rule := 0, *, *, *;
      if route.id == "" || !ValidRoute(net, route) {
        r := Failure(Invalid);
        return;
      }
      var normal := NormalizeRoute(route);
      var found := FindRule(normal.id);
      if found == |rules| {
        r := Failure(NotFound);
        return;
      }
      at := found;
      var taken := RouteTaken(normal, normal.id);
      if taken {
        r := Failure(AlreadyExists);
        return;
      }
      var snapshot := Value();
      RemoveRule(found);
      r, l, p, rule := MigrateAndCommit(snapshot, normal, ids, now, saveOk);
    }

    method DeleteRoute(id: string, saveOk: bool) returns (r: Result<()>, ghost at: nat)
      requires Valid()
      modifies this
      ensures Valid()
      ensures r == if forall e <- old(rules) :: e.id != id then Failure(NotFound)
                   else Answer(old(Value()), Success(()), true, saveOk)
      ensures if r.Success?
              then at < |old(rules)| && old(rules)[at].id == id
                   && Committed(old(Value()), Pruned(old(Res()).(rules := Without(old(rules), at)), old(rules)[at]),
                                Value())
                   && rules == old(rules)[..at] + old(rules)[at + 1..]
                   && OnlyItsPartsGo(old(Res()), old(rules)[at], Res())
              else Value() == old(Value())
      ensures r.Success? ==> Edited(net, old(Value()), Value())
    {
      hide WellFormed, CompileAll, Pruned, Edited, Resolves, OnlyItsPartsGo;
      at := 0;
      var found := FindRule(id);
      if found == |rules| {
        return Failure(NotFound), 0;
      }
      at := found;
      var snapshot := Value();
      RemoveRule(found);
      r := CommitChecked(snapshot, saveOk);
    }

    // ---------- Loading ----------

    /** Reads the file. Older versions are converted, become the applied baseline and are written back. */
    method Load(names: nat -> FreshIds, now: int, saveOk: bool) returns (r: Result<()>, ghost chain: seq<Resources>)
      requires forall i :: names(i).route != "" && names(i).listener != "" && names(i).pool != ""
      modifies this
      ensures !persistent || old(disk).None? ==> r.Success? && Value() == old(Value())
      ensures r.Failure? ==> Value() == old(Value())
      ensures persistent && old(disk).Some? ==>
                var file := old(disk).value;
                if file.version > FILE_VERSION then r == Failure(Unsupported)
                else if file.version == FILE_VERSION then
                  && r == (if DecodeFile(net, file).None? then Failure(Invalid) else Success(()))
                  && (r.Success? ==>
                        && Value() == LoadedFrom(old(Value()), file, DecodeFile(net, file).value)
                        && revision == file.revision && applied.revision == file.appliedRevision && !staged
                        && disk == old(disk) && SetNormal(file.resources, Res()))
                  && (r.Success? ==>
                        && file.applied.Some? && applied.revision <= revision
                        && TakenFrom(file.applied.value, applied.resources))
                else
                  && (r == if Converted(net, file, names, now).None? then Failure(Invalid)
                           else if !saveOk then Failure(SaveFailed) else Success(()))
                  && (r.Success? ==>
                        && revision == 1 && applied == Snapshot(Res(), routes, 1) && !staged
                        && disk.Some? && Describes(disk.value))
                  && (r.Success? ==> Valid() && Some(Res()) == Converted(net, file, names, now)
                                     && Value() == Baseline(old(Value()), Res(), routes))
                  && (r.Success? ==>
                        if file.version >= 2 || OwnsAny(file.resources) then SetNormal(file.resources, Res())
                        else
                          && |chain| == |file.routes| + 1 && MigrationChain(file.routes, names, chain)
                          && Res() == chain[|file.routes|])
    {
      hide Decoded, WellFormed, MigrationChain, CompileAll, Compilable, Resolves, NormalizeAll, AcceptableSet,
        WithoutErrors, MigratedRows, SameButErrors, SetNormal, TakenFrom;
      FileIsTaken();
      chain := [];
      if !persistent || disk.None? {
        r := Success(());
        return;
      }
      var file := disk.value;
      if file.version > FILE_VERSION {
        r := Failure(Unsupported);
        return;
      }
      var snapshot := Value();
      var taken;
      taken, chain := TakeFile(file, names, now);
      if !taken {
        Restore(snapshot);
        r := Failure(Invalid);
        return;
      }
      revision, staged := file.revision, false;
      if file.version < FILE_VERSION {
        revision := 1;
        applied := Snapshot(Res(), routes, revision);
        BaselineIsSound(net, snapshot, Res(), routes);
        var saved := Save(saveOk);
        if !saved {
          Restore(snapshot);
          r := Failure(SaveFailed);
          return;
        }
      } else {
        if file.applied.None? || file.appliedRevision > file.revision {
          Restore(snapshot);
          r := Failure(Invalid);
          return;
        }
        var other := new Store(net, false);
        var replaced := other.ReplaceResources(file.applied.value, true);
        if replaced.Failure? {
          Restore(snapshot);
          r := Failure(Invalid);
          return;
        }
        applied := Snapshot(other.Res(), other.routes, file.appliedRevision);
      }
      r := Success(());
    }

    predicate OwnsAny(res: Resources) {
      |res.listeners| + |res.pools| + |res.rules| > 0
    }

    lemma FileIsTaken()
      ensures disk.Some? ==>
                var file := disk.value;
                && (var decoded := Decoded(net, file.resources.(version := RESOURCE_SET_VERSION));
                    decoded.Some? ==> SetNormal(file.resources, decoded.value))
                && (file.applied.Some? ==>
                      var decoded := Decoded(net, WithoutErrors(file.applied.value));
                      decoded.Some? ==> TakenFrom(file.applied.value, decoded.value))
                && (HoldsResources(file) <==> file.version >= 2 || OwnsAny(file.resources))
    {
      hide Decoded, TakenFrom, WithoutErrors;
      if disk.Some? {
        DecodedIsTaken(disk.value.resources.(version := RESOURCE_SET_VERSION));
        if disk.value.applied.Some? {
          DecodedIsTaken(disk.value.applied.value);
        }
      }
    }

    /** Replaces the resources by those of the file, or by its routes migrated one after the other. */
    method TakeFile(file: Envelope, names: nat -> FreshIds, now: int) returns (ok: bool, ghost chain: seq<Resources>)
      requires forall i :: names(i).route != "" && names(i).listener != "" && names(i).pool != ""
      modifies this`listeners, this`pools, this`rules, this`routes
      ensures ok <==> Converted(net, file, names, now).Some?
      ensures ok ==> Converted(net, file, names, now) == Some(Res())
      ensures !HoldsResources(file) && ok ==>
                |chain| == |file.routes| + 1 && MigrationChain(file.routes, names, chain)
                && Res() == chain[|file.routes|]
      ensures ok ==> WellFormed(net, Res()) && (forall x <- rules :: Resolves(Res(), x)) && routes == CompileAll(Res())
    {
      hide AcceptableSet, WellFormed, NormalizeAll, MigrationChain, Resolves, CompileAll, MigratedRows;
      listeners, pools, rules, routes, chain := [], [], [], [], [EMPTY];
      if HoldsResources(file) {
        listeners, pools, rules := file.resources.listeners, file.resources.pools, file.resources.rules;
        ghost var raw := Res();
        assert raw == file.resources.(version := RESOURCE_SET_VERSION);
        DecodedIsWellFormed(net, raw);
        ok := NormalizeResources();
        if !ok {
          return;
        }
      } else {
        EmptyIsWellFormed(net);
        ok, chain := MigrateAll(file.routes, names, now);
        if !ok {
          return;
        }
        WellFormedCompiles(net, Res());
      }
      ok := RebuildRoutes();
    }

    method MigrateAll(
      rows: seq<Route>, names: nat -> FreshIds, now: int)
      returns (ok: bool, ghost chain: seq<Resources>)
      requires forall i :: names(i).route != "" && names(i).listener != "" && names(i).pool != ""
      requires Res() == EMPTY && WellFormed(net, Res())
      modifies this`listeners, this`pools, this`rules, this`routes
      ensures MigratedRows(net, rows, names, now) == if ok then Some(Res()) else None
      ensures ok ==>
                |chain| == |rows| + 1 && MigrationChain(rows, names, chain) && Res() == chain[|rows|]
                && WellFormed(net, Res())
    {
      hide WellFormed, MigratedInto, Resolves, CompileAll, NormalizeRoute, Named, CompileIn, Compilable, MigratedRows,
        CheckedMigration, WithParts;
      chain := [EMPTY];
      NoRows(net, names, now);
      assert rows[..0] == [];
      for i := 0 to |rows|
        invariant WellFormed(net, Res()) && |chain| == i + 1 && Res() == chain[i]
        invariant MigrationChain(rows, names, chain)
        invariant MigratedRows(net, rows[..i], names, now) == Some(Res())
      {
        RowsNext(net, rows, names, now, i, Res());
        var migrated;
        ghost var l, p, rule;
        migrated, l, p, rule := MigrateRoute(rows[i], names(i), now);
        if migrated.Failure? {
          RowsStop(net, rows, names, now, i + 1);
          return false, chain;
        }
        assert MigrationStep(chain[i], Named(NormalizeRoute(rows[i]), names(i).route), Res());
        chain := chain + [Res()];
      }
      assert rows[..|rows|] == rows;
      ok := true;
    }
  }
}
