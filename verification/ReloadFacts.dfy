/** When a saved store can be read again, and when two routes compete for one place: both turn on prefixes that change
    when they are normalized once more. */
module ReloadFacts {
  import opened Text
  import opened Routing
  import opened RoutingFacts
  import opened StoreSpec

  // ---------- Competing routes ----------

  /** Two routes that ask for the same requests: one host, listener and path. */
  predicate Compete(a: Route, b: Route) {
    && a.host == b.host && a.listenerPort == b.listenerPort && a.listenerProtocol == b.listenerProtocol
    && a.pathPrefix == b.pathPrefix
  }

  /** The store keeps the places of its rules apart, but not those of the compiled routes: two of them compete exactly
      if their rules share a listener and a second normalization makes their prefixes equal. */
  lemma RoutesCompete(net: Net, res: Resources, i: nat, j: nat)
    requires WellFormed(net, res) && i < j < |res.rules|
    ensures Resolves(res, res.rules[i]) && Resolves(res, res.rules[j])
    ensures var a, b := res.rules[i], res.rules[j];
            && (Compete(CompileIn(res, a), CompileIn(res, b)) <==>
                a.listenerId == b.listenerId && NormalizePrefix(a.pathPrefix) == NormalizePrefix(b.pathPrefix))
            && (StablePrefix(a.pathPrefix) && StablePrefix(b.pathPrefix) ==>
                  !Compete(CompileIn(res, a), CompileIn(res, b)))
  {
    hide NormalizePrefix, NormalizeName, GoodListener, GoodPool, GoodRule, CompileRule, ListenerOf, PoolOf;
    var a, b := res.rules[i], res.rules[j];
    assert a in res.rules && b in res.rules;
    var l, k := ListenerOf(res.listeners, a.listenerId).value, ListenerOf(res.listeners, b.listenerId).value;
    CompiledAt(net, res, a);
    CompiledAt(net, res, b);
    ListenerOfMember(res.listeners, a.listenerId);
    ListenerOfMember(res.listeners, b.listenerId);
    if l != k {
      SeparateListeners(res, l, k);
    }
  }

  lemma SeparateListeners(res: Resources, l: Listener, k: Listener)
    requires UniqueListeners(res.listeners) && l in res.listeners && k in res.listeners && l != k
    ensures !SameListener(l, k)
  {
    var x :| 0 <= x < |res.listeners| && res.listeners[x] == l;
    var y :| 0 <= y < |res.listeners| && res.listeners[y] == k;
    if x < y {
      assert !SameListener(res.listeners[x], res.listeners[y]);
    } else {
      assert !SameListener(res.listeners[y], res.listeners[x]);
    }
  }

  lemma CompiledAt(net: Net, res: Resources, r: Rule)
    requires WellFormed(net, res) && r in res.rules
    ensures var c, l := CompileIn(res, r), ListenerOf(res.listeners, r.listenerId).value;
            && c.host == l.hostname && c.listenerPort == l.port && c.listenerProtocol == l.protocol
            && c.pathPrefix == NormalizePrefix(r.pathPrefix)
  {
    hide NormalizePrefix, NormalizeName, NormalizeSecurity, Lower, TrimSpace, ListenerOf, PoolOf, ValidHost, GoodRule,
      GoodPool;
    ListenerOfMember(res.listeners, r.listenerId);
    ValidHostIsNormal(ListenerOf(res.listeners, r.listenerId).value.hostname);
  }

  // ---------- Files that cannot be read again ----------

  /** A rule that is accepted again when it is read from the file. */
  predicate ReadsAgain(net: Net, res: Resources, r: Rule) {
    && TrimSpace(r.name) != ""
    && (exists l <- res.listeners :: l.id == TrimSpace(r.listenerId))
    && (exists p <- res.pools :: p.id == TrimSpace(r.poolId))
    && ValidSecurity(net, NormalizeSecurity(NormalizeSecurity(r.security)))
  }

  /** A later rule stays clear of an earlier one, both as it is and once its own prefix is normalized again. */
  predicate StaysClear(earlier: Rule, later: Rule) {
    var taken := NormalizePrefix(earlier.pathPrefix);
    && (TrimSpace(later.listenerId) == TrimSpace(earlier.listenerId) ==> NormalizePrefix(later.pathPrefix) != taken)
    && (later.listenerId == TrimSpace(earlier.listenerId) ==> later.pathPrefix != taken)
  }

  predicate Readable(net: Net, res: Resources) {
    && (forall r <- res.rules :: ReadsAgain(net, res, r))
    && forall i, j :: 0 <= i < j < |res.rules| ==> StaysClear(res.rules[i], res.rules[j])
  }

  lemma NormalizedAgain(net: Net, res: Resources, r: Rule)
    requires GoodRule(net, r) && forall l <- res.listeners :: l.id != ""
    requires forall p <- res.pools :: p.id != ""
    ensures var n := NormalizeRule(r);
            && n.id == r.id && n.listenerId == TrimSpace(r.listenerId) && n.pathPrefix == NormalizePrefix(r.pathPrefix)
            && n.security == NormalizeSecurity(r.security)
            && (ReadsAgain(net, res, r) <==>
                Acceptable(net, res, n) && ValidSecurity(net, NormalizeSecurity(n.security)))
  {
    hide NormalizeSecurity, ValidSecurity, ListenerOf, PoolOf, TrimSpace, NormalizePrefix, Lower;
    ResolvesById(res, NormalizeRule(r));
    PrefixStaysValid(r.pathPrefix);
    WebProtocolsNormal();
  }

  lemma PrefixStaysValid(p: string)
    requires ValidPathPrefix(p)
    ensures ValidPathPrefix(NormalizePrefix(p))
  {
    if p != "" {
      assert TrimLeft(p) == p;
      TrimRightShape(p);
      TrimSlashesShape(TrimSpace(p));
    }
  }

  lemma AcceptedAgain(net: Net, res: Resources)
    requires WellFormed(net, res)
    ensures Decoded(net, res).Some? <==> Readable(net, res)
  {
    hide NormalizeRule, ReadsAgain, Acceptable, ValidSecurity, NormalizeSecurity, GoodListener, GoodPool, GoodRule,
      Resolves, NormalizePrefix, NormalizeListener, NormalizePool, CompileIn, ValidRoute, TrimSpace, ValidListener,
      ValidPool, SameListener;
    var n := NormalizeAll(res);
    GoodPartsAreNormal(net, res);
    assert forall l <- res.listeners :: GoodListener(l);
    GoodPartsAccepted(net, res);
    forall i | 0 <= i < |res.rules|
      ensures n.rules[i] in n.rules && res.rules[i] in res.rules && n.rules[i].id == res.rules[i].id != ""
      ensures n.rules[i].listenerId == TrimSpace(res.rules[i].listenerId)
      ensures n.rules[i].pathPrefix == NormalizePrefix(res.rules[i].pathPrefix)
      ensures ReadsAgain(net, res, res.rules[i]) <==> Acceptable(net, n, n.rules[i]) && Compiles(net, n, n.rules[i])
    {
      assert res.rules[i] in res.rules;
      OneAcceptedAgain(net, res, n, res.rules[i]);
    }
    forall i, j | 0 <= i < j < |res.rules|
      ensures StaysClear(res.rules[i], res.rules[j]) <==>
              !SamePlace(n.rules[i], n.rules[j]) && !SamePlace(res.rules[j], n.rules[i])
    {
    }
  }

  lemma GoodPartsAccepted(net: Net, res: Resources)
    requires WellFormed(net, res)
    ensures GoodListeners(res.listeners) && GoodPools(net, res.pools)
  {
    hide UniqueListeners, UniquePools, UniqueRules, ValidListener, ValidPool, NormalizeListener, NormalizePool,
      GoodRule, Resolves;
  }

  lemma NamedParts(net: Net, res: Resources)
    requires WellFormed(net, res)
    ensures (forall l <- res.listeners :: l.id != "") && forall p <- res.pools :: p.id != ""
  {
    hide UniqueListeners, UniquePools, UniqueRules, ValidListener, ValidPool, NormalizeListener, NormalizePool,
      GoodRule, Resolves;
  }

  lemma OneAcceptedAgain(net: Net, res: Resources, n: Resources, r: Rule)
    requires WellFormed(net, res) && r in res.rules && n.listeners == res.listeners && n.pools == res.pools
    ensures var m := NormalizeRule(r);
            && m.id == r.id != "" && m.listenerId == TrimSpace(r.listenerId)
            && m.pathPrefix == NormalizePrefix(r.pathPrefix)
            && (ReadsAgain(net, res, r) <==> Acceptable(net, n, m) && Compiles(net, n, m))
  {
    hide NormalizeRule, ReadsAgain, ValidSecurity, NormalizeSecurity, GoodListener, GoodPool, NormalizePrefix,
      CompileRule, ValidRoute, TrimSpace, ListenerOf, PoolOf, ValidRule;
    var m := NormalizeRule(r);
    assert GoodRule(net, r);
    NamedParts(net, res);
    NormalizedAgain(net, res, r);
    if Acceptable(net, n, m) {
      ListenerOfMember(res.listeners, m.listenerId);
      PoolOfMember(res.pools, m.poolId);
      CompiledRouteValidity(net, m, ListenerOf(res.listeners, m.listenerId).value,
                            PoolOf(res.pools, m.poolId).value);
    }
  }

  lemma ErrorsDoNotMatterHere(net: Net, res: Resources)
    ensures Readable(net, WithoutErrors(res)) <==> Readable(net, res)
  {
    hide ReadsAgain, StaysClear;
    var w := WithoutErrors(res);
    forall i | 0 <= i < |res.rules|
      ensures w.rules[i] in w.rules && res.rules[i] in res.rules
      ensures ReadsAgain(net, w, w.rules[i]) <==> ReadsAgain(net, res, res.rules[i])
    {
      OneErrorDoesNotMatter(net, res, w, res.rules[i]);
    }
    forall i, j | 0 <= i < j < |res.rules|
      ensures StaysClear(w.rules[i], w.rules[j]) <==> StaysClear(res.rules[i], res.rules[j])
    {
      PlaceWithoutError(res.rules[i], res.rules[j]);
    }
  }

  lemma OneErrorDoesNotMatter(net: Net, res: Resources, w: Resources, r: Rule)
    requires w.listeners == res.listeners && w.pools == res.pools
    ensures ReadsAgain(net, w, r.(lastError := "")) <==> ReadsAgain(net, res, r)
  {
  }

  lemma PlaceWithoutError(a: Rule, b: Rule)
    ensures StaysClear(a.(lastError := ""), b.(lastError := "")) <==> StaysClear(a, b)
  {
  }

  lemma SameVersion(res: Resources)
    ensures WithoutErrors(res).version == res.version
  {
  }

  lemma SetIsReadable(net: Net, res: Resources)
    requires WellFormed(net, res)
    ensures Decoded(net, WithoutErrors(res)).Some? <==> Readable(net, res)
  {
    hide Readable, Decoded, WellFormed, WithoutErrors;
    ErrorsDoNotMatter(net, res);
    ErrorsDoNotMatterHere(net, res);
    AcceptedAgain(net, WithoutErrors(res));
  }

  /** A saved file is accepted again if and only if all its rules are, and no two of them meet in normal form: what is
      stored passed the same checks one normalization earlier. */
  lemma FileIsReadable(net: Net, s: StoreState)
    requires Inv(net, s)
    ensures DecodeFile(net, Encode(s)).Some? <==>
            Readable(net, s.resources) && Readable(net, s.applied.resources)
  {
    hide Readable, Decoded, WellFormed, CompileAll, Resolves, WithoutErrors, GoodListener, GoodPool, GoodRule;
    SetIsReadable(net, s.resources);
    SetIsReadable(net, s.applied.resources);
    NoErrorsTwice(s.applied.resources);
    SameVersion(s.resources);
    SameVersion(s.applied.resources);
  }

  /** Rules for "/a" and "/a /" on one listener: the store takes both, their routes compete, and no file that holds
      them is accepted again. */
  lemma AcceptedAndUnreadable(net: Net, res: Resources, plain: Rule, blank: Rule)
    requires WellFormed(net, res) && res.rules == [] && plain.id != blank.id
    requires plain.pathPrefix == "/a" && blank.pathPrefix == "/a /" && plain.listenerId == blank.listenerId
    requires forall r <- [plain, blank] ::
               GoodRule(net, NormalizeRule(r)) && Resolves(res, NormalizeRule(r))
    ensures var both := res.(rules := NormalizedRules([plain, blank]));
            && WellFormed(net, both) && !Readable(net, both) && Decoded(net, both).None?
            && Compete(CompileIn(both, both.rules[0]), CompileIn(both, both.rules[1]))
  {
    hide NormalizePrefix, TrimSpace, GoodListener, GoodPool, GoodRule, Resolves, ReadsAgain, Lower, NormalizeSecurity,
      UniqueListeners, UniquePools, CompileIn, Decoded;
    var both := res.(rules := NormalizedRules([plain, blank]));
    UnstablePrefix();
    StablePrefixShape("/a");
    assert [plain, blank][0] == plain && [plain, blank][1] == blank;
    assert both.rules == [NormalizeRule(plain), NormalizeRule(blank)];
    forall r | r in both.rules ensures GoodRule(net, r) && Resolves(both, r) {
      assert plain in [plain, blank] && blank in [plain, blank];
      SameResolution(res, both, r);
    }
    assert WellFormed(net, both);
    TrimSpaceIdempotent(plain.listenerId);
    RoutesCompete(net, both, 0, 1);
    AcceptedAgain(net, both);
    assert !StaysClear(both.rules[0], both.rules[1]);
  }

  lemma SameResolution(res: Resources, both: Resources, r: Rule)
    requires both.listeners == res.listeners && both.pools == res.pools
    ensures Resolves(both, r) <==> Resolves(res, r)
  {
  }
}
