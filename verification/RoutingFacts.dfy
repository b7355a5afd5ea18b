/** Facts about normal forms, lookups and the rule compiler. */
module RoutingFacts {
  import opened Text
  import opened Routing

  // ---------- Normal forms ----------

  lemma LowerTrimStable(s: string)
    ensures Lower(TrimSpace(Lower(TrimSpace(s)))) == Lower(TrimSpace(s))
  {
    var t := TrimSpace(s);
    TrimSpaceShape(s);
    TrimSpaceFixpoint(Lower(t));
    if t != [] {
      assert Lower(t)[0] == LowerChar(t[0]) && Lower(t)[|t| - 1] == LowerChar(t[|t| - 1]);
    }
    assert Lower(Lower(t)) == Lower(t);
  }

  lemma ValidHostCharacters(host: string)
    requires ValidHost(host)
    ensures host != "" && host[|host| - 1] != '.'
    ensures forall c <- host :: c == '*' || c == '.' || c == '-' || 'a' <= c <= 'z' || '0' <= c <= '9'
  {
    var name := if "*." <= host then host[2..] else host;
    SplitOfLabels(name, '.');
    var labels := Split(name, '.');
    assert name != "";
    assert ValidLabel(labels[|labels| - 1]);
    forall c | c in host ensures c == '*' || c == '.' || c == '-' || 'a' <= c <= 'z' || '0' <= c <= '9' {
      if c in name && c != '.' {
        var i :| 0 <= i < |labels| && c in labels[i];
        assert ValidLabel(labels[i]);
      } else if c !in name {
        assert host == "*." + name;
      }
    }
  }

  lemma ValidHostIsNormal(host: string)
    requires ValidHost(host)
    ensures NormalizeName(host) == host
  {
    ValidHostCharacters(host);
    TrimSpaceFixpoint(host);
    forall i | 0 <= i < |host| ensures LowerChar(host[i]) == host[i] && !IsSpace(host[i]) {
      assert host[i] in host;
    }
    assert Lower(host) == host;
  }

  lemma WebProtocolsNormal()
    ensures Lower(TrimSpace("http")) == Lower("http") == "http"
    ensures Lower(TrimSpace("https")) == Lower("https") == "https"
  {
    TrimSpaceFixpoint("http");
    TrimSpaceFixpoint("https");
  }

  lemma SourcesNormal()
    ensures Lower(TrimSpace("explicit")) == "explicit"
    ensures Lower(TrimSpace("compatibility")) == "compatibility"
  {
    TrimSpaceFixpoint("explicit");
    TrimSpaceFixpoint("compatibility");
    assert Lower("explicit") == "explicit" && Lower("compatibility") == "compatibility";
  }

  lemma NormalListener(l: Listener)
    requires TrimSpace(l.name) == l.name && ValidHost(l.hostname) && l.port != 0
    requires l.protocol == "http" || l.protocol == "https"
    requires Lower(TrimSpace(l.source)) == l.source
    ensures NormalizeListener(l) == l
  {
    ValidHostIsNormal(l.hostname);
    WebProtocolsNormal();
  }

  lemma CompletedListenerGood(l: Listener, freshId: string, now: int)
    requires ValidListener(CompleteListener(l, freshId, now)) && freshId != ""
    ensures GoodListener(CompleteListener(l, freshId, now))
  {
    var c := CompleteListener(l, freshId, now);
    TrimSpaceIdempotent(l.name);
    TrimmedHost(c.hostname);
    LowerTrimStable(l.source);
    SourcesNormal();
    NormalListener(c);
  }

  lemma TrimmedHost(host: string)
    requires ValidHost(host)
    ensures TrimSpace(host) == host
  {
    ValidHostCharacters(host);
    assert host[0] in host && host[|host| - 1] in host;
    TrimSpaceFixpoint(host);
  }

  lemma NormalizedListenerGood(l: Listener)
    requires ValidListener(NormalizeListener(l)) && l.id != ""
    ensures GoodListener(NormalizeListener(l))
  {
    TrimSpaceIdempotent(l.name);
    LowerTrimStable(l.source);
    NormalListener(NormalizeListener(l));
  }

  lemma AddressCharacters(net: Net, address: string)
    requires ValidAddress(net, address)
    ensures forall c <- address :: c == '.' || c == ':' || NameCharacter(c)
  {
    if !IPLiteral(net, address) {
      SplitOfLabels(address, '.');
      var parts := Split(address, '.');
      forall c | c in address ensures c == '.' || NameCharacter(c) {
        if c != '.' {
          var i :| 0 <= i < |parts| && c in parts[i];
          assert parts[i] in parts;
        }
      }
    }
  }

  lemma NormalizedTargetStable(net: Net, t: Target)
    requires ValidAddress(net, NormalizeTarget(t).address)
    ensures NormalizeTarget(NormalizeTarget(t)) == NormalizeTarget(t)
  {
    var n := NormalizeTarget(t);
    TrimSpaceIdempotent(t.name);
    TrimSpaceIdempotent(t.healthPath);
    AddressCharacters(net, n.address);
    assert n.address[0] in n.address && n.address[|n.address| - 1] in n.address;
    TrimSpaceFixpoint(n.address);
  }

  lemma NormalizedPoolStable(net: Net, p: Pool)
    requires forall t <- NormalizePool(p).targets :: ValidAddress(net, t.address)
    ensures NormalizePool(NormalizePool(p)) == NormalizePool(p)
  {
    var n := NormalizePool(p);
    TrimSpaceIdempotent(p.name);
    LowerTrimStable(p.source);
    forall i | 0 <= i < |p.targets| ensures NormalizeTarget(n.targets[i]) == n.targets[i] {
      assert n.targets[i] in n.targets;
      NormalizedTargetStable(net, p.targets[i]);
    }
    assert NormalizePool(n).targets == n.targets;
  }

  lemma CompletedPoolGood(net: Net, p: Pool, freshId: string, now: int)
    requires ValidPool(net, CompletePool(p, freshId, now)) && freshId != ""
    ensures GoodPool(net, CompletePool(p, freshId, now))
  {
    var c := CompletePool(p, freshId, now);
    assert c.targets == NormalizePool(p).targets;
    NormalizedPoolStable(net, p);
    SourcesNormal();
    assert NormalizePool(c).targets == NormalizePool(NormalizePool(p)).targets;
  }

  // ---------- The compiler ----------

  lemma NormalizedPathValid(p: string)
    requires ValidPathPrefix(p)
    ensures ValidPathPrefix(TrimSpace(NormalizePrefix(p)))
  {
    if p != "" {
      var t := TrimSpace(p);
      assert TrimLeft(p) == p;
      TrimRightShape(p);
      TrimSlashesShape(t);
      var n := TrimSlashes(t);
      if n != "" {
        assert TrimLeft(n) == n;
        TrimRightShape(n);
      }
    }
  }

  /** Compiling a valid rule can fail only on security lists that a second normalization spoils. */
  lemma CompiledRouteValidity(net: Net, r: Rule, l: Listener, p: Pool)
    requires ValidRule(net, r) && GoodListener(l) && GoodPool(net, p)
    ensures ValidRoute(net, CompileRule(r, l, p)) <==> ValidSecurity(net, NormalizeSecurity(r.security))
  {
    hide ValidHost, NormalizeName, NormalizePrefix, TrimSpace, ValidSecurity, NormalizeSecurity, Lower, ValidAddress,
      NormalizeTarget;
    var route := CompileRule(r, l, p);
    ValidHostIsNormal(l.hostname);
    NormalizedPathValid(r.pathPrefix);
    WebProtocolsNormal();
    assert |route.upstreams| == |p.targets|;
    forall u <- route.upstreams ensures ValidUpstream(u) {
      var i :| 0 <= i < |p.targets| && u == CompileTarget(r, p, p.targets[i]);
      assert p.targets[i] in p.targets;
    }
  }

  /** A rule's prefix is normalized when the rule is stored and again when it is compiled. */
  lemma CompiledPlace(rule: Rule, l: Listener, p: Pool)
    ensures var r := CompileRule(NormalizeRule(rule), l, p);
            r.pathPrefix == NormalizePrefix(NormalizePrefix(rule.pathPrefix)) && r.host == NormalizeName(l.hostname)
  {
    hide NormalizePrefix, NormalizeName, NormalizeSecurity, Lower, TrimSpace;
  }

  /** Any acceptable rule that then denies "// /" is still accepted, and does not compile. */
  lemma SpoiledByCompiling(net: Net, rule: Rule, l: Listener, p: Pool)
    requires ValidRule(net, NormalizeRule(rule)) && GoodListener(l) && GoodPool(net, p)
    ensures var spoiled := NormalizeRule(rule.(security := rule.security.(deniedPrefixes := ["// /"])));
            ValidRule(net, spoiled) && !ValidRoute(net, CompileRule(spoiled, l, p))
  {
    hide NormalizePrefix, NormalizeName, Lower, TrimSpace, TrimSlashes, NormalizeMethods, NormalizeStrings,
      NormalizePrefixes, GoodListener, GoodPool, ValidRoute, CompileRule;
    var spoiled := NormalizeRule(rule.(security := rule.security.(deniedPrefixes := ["// /"])));
    SlashesAreSpoiled();
    assert spoiled.security.deniedPrefixes == ["// "];
    CompiledRouteValidity(net, spoiled, l, p);
    assert NormalizeSecurity(spoiled.security).deniedPrefixes == [""] && "" in [""];
  }

  lemma SlashesAreSpoiled()
    ensures NormalizePrefixes(["// /"]) == ["// "] && NormalizePrefixes(["// "]) == [""]
    ensures TrimSpace("// ") == "//" && TrimSpace("") == ""
  {
    hide TrimSpace;
    BlanksAndSlashes();
    OnePrefix("// /", "// /");
    OnePrefix("// ", "//");
  }

  lemma BlanksAndSlashes()
    ensures TrimSpace("// /") == "// /" && TrimSpace("// ") == "//" && TrimSpace("") == ""
    ensures TrimSlashes("// /") == "// " && TrimSlashes("//") == ""
  {
    TrimSpaceFixpoint("// /");
    assert TrimLeft("// ") == "// " && "// "[..2] == "//" && TrimRight("// ") == TrimRight("//") == "//";
    assert "// /"[..3] == "// " && "//"[..1] == "/" && "/"[..0] == "";
    assert TrimSlashes("/") == TrimSlashes("") == "";
  }

  lemma OneIsUnique(s: string)
    ensures Unique([s]) == [s]
  {
    assert [s][..0] == [] && Unique([]) == [];
  }

  lemma OnePrefix(prefix: string, trimmed: string)
    requires TrimSpace(prefix) == trimmed && trimmed != "" && trimmed != "/"
    ensures NormalizePrefixes([prefix]) == [TrimSlashes(trimmed)]
  {
    hide TrimSpace, TrimSlashes;
    assert [prefix][1..] == [] && TrimmedNonEmpty([prefix]) == [trimmed];
    OneIsUnique(trimmed);
    OneIsUnique(TrimSlashes(trimmed));
  }

  // ---------- Lookups ----------

  /** A lookup by id finds a member, and by unique ids the only one with that id. */
  lemma ListenerOfMember(ls: seq<Listener>, id: string)
    ensures ListenerOf(ls, id).None? <==> forall l <- ls :: l.id != id
    ensures ListenerOf(ls, id).Some? ==> ListenerOf(ls, id).value in ls && ListenerOf(ls, id).value.id == id
    ensures UniqueListeners(ls) ==> forall l <- ls :: l.id == id ==> ListenerOf(ls, id) == Some(l)
  {
    if ls != [] {
      ListenerOfMember(ls[1..], id);
      assert ls == [ls[0]] + ls[1..];
      assert UniqueListeners(ls) ==> UniqueListeners(ls[1..]);
    }
  }

  lemma PoolOfMember(ps: seq<Pool>, id: string)
    ensures PoolOf(ps, id).None? <==> forall p <- ps :: p.id != id
    ensures PoolOf(ps, id).Some? ==> PoolOf(ps, id).value in ps && PoolOf(ps, id).value.id == id
    ensures UniquePools(ps) ==> forall p <- ps :: p.id == id ==> PoolOf(ps, id) == Some(p)
  {
    if ps != [] {
      PoolOfMember(ps[1..], id);
      assert ps == [ps[0]] + ps[1..];
      assert UniquePools(ps) ==> UniquePools(ps[1..]);
    }
  }
}
