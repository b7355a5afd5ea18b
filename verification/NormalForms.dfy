/** What the store takes of what it is given, field by field: normal forms, defaults, and routes compiled from rules. */
module NormalForms {
  import opened Text
  import opened Routing
  import opened RoutingFacts

  // ---------- Security lists ----------

  predicate NoRepeats(values: seq<string>) {
    forall i, j :: 0 <= i < j < |values| ==> values[i] != values[j]
  }

  /** The trimmed values that are not blank, each once. */
  ghost predicate TrimmedOnce(given: seq<string>, taken: seq<string>) {
    NoRepeats(taken) && forall x :: x in taken <==> x != "" && exists v <- given :: TrimSpace(v) == x
  }

  ghost predicate UpperOnce(given: seq<string>, taken: seq<string>) {
    NoRepeats(taken) && forall x :: x in taken <==> exists v <- given :: TrimSpace(v) != "" && Upper(TrimSpace(v)) == x
  }

  ghost predicate PrefixesOnce(given: seq<string>, taken: seq<string>) {
    && NoRepeats(taken)
    && forall x :: x in taken <==>
                   exists v <- given :: TrimSpace(v) != "" && x == if TrimSpace(v) == "/" then "/"
                                                                   else NormalizePrefix(v)
  }

  ghost predicate SecurityTaken(given: Security, taken: Security) {
    && taken.disabled == given.disabled && taken.maxBody == given.maxBody
    && TrimmedOnce(given.allowed, taken.allowed) && TrimmedOnce(given.blocked, taken.blocked)
    && UpperOnce(given.deniedMethods, taken.deniedMethods) && PrefixesOnce(given.deniedPrefixes, taken.deniedPrefixes)
  }

  lemma {:induction false} UniqueMembers(values: seq<string>)
    ensures NoRepeats(Unique(values)) && forall x :: x in Unique(values) <==> x in values
  {
    if values != [] {
      UniqueMembers(values[..|values| - 1]);
      assert values == values[..|values| - 1] + [values[|values| - 1]];
    }
  }

  lemma {:induction false} TrimmedMembers(values: seq<string>)
    ensures forall x :: x in TrimmedNonEmpty(values) <==> x != "" && exists v <- values :: TrimSpace(v) == x
  {
    hide TrimSpace;
    if values != [] {
      TrimmedMembers(values[1..]);
      assert values == [values[0]] + values[1..];
    }
  }

  lemma StringsTaken(values: seq<string>)
    ensures TrimmedOnce(values, NormalizeStrings(values))
  {
    hide TrimSpace, Unique, TrimmedNonEmpty;
    UniqueMembers(TrimmedNonEmpty(values));
    TrimmedMembers(values);
  }

  lemma MethodsTaken(values: seq<string>)
    ensures UpperOnce(values, NormalizeMethods(values))
  {
    hide TrimSpace, Unique, NormalizeStrings, Upper;
    StringsTaken(values);
    var trimmed := NormalizeStrings(values);
    var mapped := seq(|trimmed|, i requires 0 <= i < |trimmed| => Upper(trimmed[i]));
    UniqueMembers(mapped);
    forall x ensures x in mapped <==> exists v <- values :: TrimSpace(v) != "" && Upper(TrimSpace(v)) == x {
      if v :| v in values && TrimSpace(v) != "" && Upper(TrimSpace(v)) == x {
        assert TrimSpace(v) in trimmed;
        var i :| 0 <= i < |trimmed| && trimmed[i] == TrimSpace(v);
        assert mapped[i] == x;
      }
      if x in mapped {
        var i :| 0 <= i < |trimmed| && mapped[i] == x;
        assert trimmed[i] in trimmed;
      }
    }
  }

  function OnePrefixTaken(trimmed: string): string {
    if trimmed == "/" then "/" else TrimSlashes(trimmed)
  }

  lemma PrefixesTaken(values: seq<string>)
    ensures PrefixesOnce(values, NormalizePrefixes(values))
  {
    hide TrimSpace, Unique, NormalizeStrings, TrimSlashes;
    StringsTaken(values);
    var trimmed := NormalizeStrings(values);
    var mapped :=
      seq(|trimmed|, i requires 0 <= i < |trimmed| => if trimmed[i] == "/" then "/" else TrimSlashes(trimmed[i]));
    UniqueMembers(mapped);
    assert NormalizePrefixes(values) == Unique(mapped);
    forall x ensures x in mapped <==> exists v <- values :: TrimSpace(v) != "" && x == OnePrefixTaken(TrimSpace(v)) {
      if v :| v in values && TrimSpace(v) != "" && x == OnePrefixTaken(TrimSpace(v)) {
        assert TrimSpace(v) in trimmed;
        var i :| 0 <= i < |trimmed| && trimmed[i] == TrimSpace(v);
        assert mapped[i] == x;
      }
      if x in mapped {
        var i :| 0 <= i < |trimmed| && mapped[i] == x;
        assert trimmed[i] in trimmed;
      }
    }
  }

  lemma SecurityIsTaken(s: Security)
    ensures SecurityTaken(s, NormalizeSecurity(s))
  {
    hide TrimmedOnce, UpperOnce, PrefixesOnce, NormalizeStrings, NormalizeMethods, NormalizePrefixes;
    StringsTaken(s.allowed);
    StringsTaken(s.blocked);
    MethodsTaken(s.deniedMethods);
    PrefixesTaken(s.deniedPrefixes);
  }

  // ---------- Listeners, pools and rules ----------

  /** A text trimmed and in lower case, or what stands for a blank one. */
  predicate LowerOr(given: string, blank: string, taken: string) {
    taken == if TrimSpace(given) == "" then blank else Lower(TrimSpace(given))
  }

  predicate ListenerNormal(l: Listener, n: Listener) {
    && n.id == l.id && n.name == TrimSpace(l.name) && n.hostname == NormalizeName(l.hostname)
    && LowerOr(l.protocol, "https", n.protocol) && LowerOr(l.source, "", n.source)
    && n.port == if l.port != 0 then l.port else if n.protocol == "https" then 443 else 80
  }

  /** A new listener: without an id it gets a fresh one, without a name its host, without a source "explicit". */
  predicate ListenerTaken(l: Listener, freshId: string, now: int, n: Listener) {
    && n.id == (if l.id == "" then freshId else l.id) && n.updated == now
    && n.hostname == NormalizeName(l.hostname) && n.name == SourceOr(TrimSpace(l.name), n.hostname)
    && LowerOr(l.protocol, "https", n.protocol) && LowerOr(l.source, "explicit", n.source)
    && n.port == if l.port != 0 then l.port else if n.protocol == "https" then 443 else 80
  }

  predicate TargetTaken(t: Target, n: Target) {
    && n.name == TrimSpace(t.name) && n.port == t.port && n.healthPath == TrimSpace(t.healthPath)
    && n.address == TrimBrackets(TrimSpace(t.address))
  }

  predicate PoolNormal(p: Pool, n: Pool) {
    && n.id == p.id && n.name == TrimSpace(p.name) && LowerOr(p.source, "", n.source)
    && |n.targets| == |p.targets| && forall i :: 0 <= i < |p.targets| ==> TargetTaken(p.targets[i], n.targets[i])
  }

  lemma PoolIsNormal(p: Pool)
    ensures PoolNormal(p, NormalizePool(p)) && NormalizePool(p).updated == p.updated
  {
    hide TrimSpace, Lower, TrimBrackets;
    TrimmedTwice(p.source);
  }

  predicate PoolTaken(p: Pool, freshId: string, now: int, n: Pool) {
    && n.id == (if p.id == "" then freshId else p.id) && n.updated == now
    && n.name == TrimSpace(p.name) && LowerOr(p.source, "explicit", n.source)
    && |n.targets| == |p.targets| && forall i :: 0 <= i < |p.targets| ==> TargetTaken(p.targets[i], n.targets[i])
  }

  ghost predicate RuleTaken(r: Rule, freshId: string, now: int, n: Rule) {
    && n.id == (if r.id == "" then freshId else r.id) && n.updated == now
    && n.name == SourceOr(TrimSpace(r.name), n.id) && LowerOr(r.source, "explicit", n.source) && RuleNormal(r, n)
  }

  /** What a rule says, in normal form. */
  ghost predicate RuleNormal(r: Rule, n: Rule) {
    && n.listenerId == TrimSpace(r.listenerId) && n.poolId == TrimSpace(r.poolId)
    && n.backendPort == r.backendPort && LowerOr(r.backendProtocol, "http", n.backendProtocol)
    && n.pathPrefix == NormalizePrefix(r.pathPrefix) && n.healthPath == TrimSpace(r.healthPath)
    && LowerOr(r.exposure, "public", n.exposure) && n.enabled == r.enabled && n.webSocket == r.webSocket
    && n.headers == r.headers && n.lastError == r.lastError && SecurityTaken(r.security, n.security)
  }

  predicate SameLabel(r: Rule, n: Rule) {
    n.id == r.id && n.name == TrimSpace(r.name) && LowerOr(r.source, "", n.source) && n.updated == r.updated
  }

  /** A whole resource set in normal form: every entry in its place. */
  ghost predicate SetNormal(given: Resources, n: Resources) {
    && |n.listeners| == |given.listeners| && |n.pools| == |given.pools| && |n.rules| == |given.rules|
    && (forall i :: 0 <= i < |n.listeners| ==>
                      ListenerNormal(given.listeners[i], n.listeners[i])
                      && n.listeners[i].updated == given.listeners[i].updated)
    && (forall i :: 0 <= i < |n.pools| ==>
                      PoolNormal(given.pools[i], n.pools[i]) && n.pools[i].updated == given.pools[i].updated)
    && forall i :: 0 <= i < |n.rules| ==>
                     RuleNormal(given.rules[i], n.rules[i]) && SameLabel(given.rules[i], n.rules[i])
  }

  lemma TrimmedTwice(s: string)
    ensures SourceOr(TrimSpace(s), "") == TrimSpace(s) && TrimSpace(TrimSpace(s)) == TrimSpace(s)
    ensures Lower(TrimSpace(s)) == "" <==> TrimSpace(s) == ""
  {
    TrimSpaceIdempotent(s);
  }

  lemma ListenerIsTaken(l: Listener, freshId: string, now: int)
    ensures ListenerTaken(l, freshId, now, CompleteListener(l, freshId, now))
  {
    hide TrimSpace, Lower, NormalizeName;
    TrimmedTwice(l.name);
    TrimmedTwice(l.protocol);
    TrimmedTwice(l.source);
  }

  lemma ListenerIsNormal(l: Listener)
    ensures ListenerNormal(l, NormalizeListener(l)) && NormalizeListener(l).updated == l.updated
  {
    hide TrimSpace, Lower, NormalizeName;
    TrimmedTwice(l.protocol);
    TrimmedTwice(l.source);
  }

  lemma PoolIsTaken(p: Pool, freshId: string, now: int)
    ensures PoolTaken(p, freshId, now, CompletePool(p, freshId, now))
  {
    hide TrimSpace, Lower, TrimBrackets;
    TrimmedTwice(p.source);
  }

  lemma RuleIsNormal(r: Rule)
    ensures RuleNormal(r, NormalizeRule(r)) && SameLabel(r, NormalizeRule(r))
  {
    hide TrimSpace, Lower, NormalizePrefix, NormalizeSecurity, SecurityTaken;
    TrimmedTwice(r.source);
    TrimmedTwice(r.backendProtocol);
    TrimmedTwice(r.exposure);
    SecurityIsTaken(r.security);
  }

  lemma RuleIsTaken(r: Rule, freshId: string, now: int)
    ensures RuleTaken(r, freshId, now, CompleteRule(r, freshId, now))
  {
    hide TrimSpace, Lower, NormalizePrefix, NormalizeSecurity, SecurityTaken;
    RuleIsNormal(r);
    TrimmedTwice(r.name);
    TrimmedTwice(r.source);
  }

  // ---------- Compiled routes ----------

  predicate UpstreamCompiled(r: Rule, p: Pool, t: Target, u: Upstream) {
    && u.name == SourceOr(t.name, p.name) && u.healthPath == (if t.healthPath != "" then t.healthPath else r.healthPath)
    && u.url.Url? && u.url.scheme == r.backendProtocol && u.url.hostname == t.address
    && (t.port > 0 ==> u.url.port == Some(t.port))
    && (t.port == 0 && r.backendPort >= 0 ==> u.url.port == Some(r.backendPort))
  }

  /** A route says what its rule, listener and pool say. */
  ghost predicate Compiled(r: Rule, l: Listener, p: Pool, c: Route) {
    && c.id == r.id && c.name == r.name && c.host == NormalizeName(l.hostname)
    && c.listenerId == l.id && c.listenerName == l.name && c.listenerPort == l.port && c.listenerProtocol == l.protocol
    && c.poolId == p.id && c.poolName == p.name && c.pathPrefix == NormalizePrefix(r.pathPrefix)
    && c.enabled == r.enabled && c.https == (l.protocol == "https") && c.webSocket == r.webSocket
    && c.source == SourceOr(r.source, "explicit") && c.headers == r.headers && c.lastError == r.lastError
    && c.updated == r.updated && SecurityTaken(r.security, c.security)
    && (r.exposure in ["internal", "protected", "public"] ==> c.exposure == r.exposure)
    && c.exposure in ["internal", "protected", "public"]
    && c.isPublic == (c.exposure != "internal") && c.isProtected == (c.exposure == "protected")
    && |c.upstreams| == |p.targets|
    && forall i :: 0 <= i < |p.targets| ==> UpstreamCompiled(r, p, p.targets[i], c.upstreams[i])
  }

  lemma ExposuresStay()
    ensures forall e <- ["internal", "protected", "public"] :: Lower(TrimSpace(e)) == e
  {
    TrimSpaceFixpoint("internal");
    TrimSpaceFixpoint("protected");
    TrimSpaceFixpoint("public");
    assert Lower("internal") == "internal" && Lower("protected") == "protected" && Lower("public") == "public";
  }

  lemma RuleCompiles(r: Rule, l: Listener, p: Pool)
    ensures Compiled(r, l, p, CompileRule(r, l, p))
  {
    hide TrimSpace, Lower, NormalizePrefix, NormalizeName, NormalizeSecurity, SecurityTaken;
    SecurityIsTaken(r.security);
    ExposuresStay();
    SourceStays(r.source);
  }

  lemma SourceStays(source: string)
    ensures SourceOr(source, "explicit") != ""
  {
    assert TrimSpace("") == "";
  }
}
