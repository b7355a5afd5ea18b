/** The matchers of the rendered configuration, with the small semantics they are trusted to have, and the
    path prefixes that are compiled into them. */
module CaddyMatch {
  import opened Text
  import opened Routing

  datatype Header = Header(name: string, value: string)

  /** What a matcher can see of a request; `port` and `protocol` are those of the listener it arrived on. */
  datatype Request = Request(
    host: string, port: int, protocol: string, path: string, source: string, verb: string, headers: seq<Header>)

  /** Which addresses a range contains is left to the network library. */
  datatype Ranges = Ranges(contains: (string, string) -> bool)

  /** The conditions of one entry; None leaves a condition out. */
  datatype Match = Match(
    host: string, port: Option<int>, protocol: Option<string>, paths: Option<seq<string>>, within: Option<seq<string>>,
    outside: Option<seq<string>>, methods: Option<seq<string>>, header: Option<Header>)

  // ---------- Semantics ----------

  /** A wildcard stands for exactly one label; names compare without case. */
  predicate HostMatches(pattern: string, host: string) {
    if "*." <= pattern then
      |host| >= |pattern| && '.' !in host[..|host| - |pattern| + 1]
      && Lower(host[|host| - |pattern| + 1..]) == Lower(pattern[1..])
    else Lower(pattern) == Lower(host)
  }

  /** A pattern that ends in a slash and a star matches every path below it; another one only itself. */
  predicate PathMatches(pattern: string, path: string) {
    if |pattern| >= 2 && pattern[|pattern| - 2..] == "/*" then pattern[..|pattern| - 1] <= path else path == pattern
  }

  predicate AnyPath(patterns: seq<string>, path: string) {
    exists p <- patterns :: PathMatches(p, path)
  }

  predicate AnyRange(net: Ranges, ranges: seq<string>, source: string) {
    exists r <- ranges :: net.contains(r, source)
  }

  predicate Carries(req: Request, h: Header) {
    exists given <- req.headers :: Lower(given.name) == Lower(h.name) && given.value == h.value
  }

  predicate Matches(net: Ranges, m: Match, req: Request) {
    && HostMatches(m.host, req.host)
    && (m.port.Some? ==> req.port == m.port.value)
    && (m.protocol.Some? ==> req.protocol == m.protocol.value)
    && (m.paths.Some? ==> AnyPath(m.paths.value, req.path))
    && (m.within.Some? ==> AnyRange(net, m.within.value, req.source))
    && (m.outside.Some? ==> !AnyRange(net, m.outside.value, req.source))
    && (m.methods.Some? ==> req.verb in m.methods.value)
    && (m.header.Some? ==> Carries(req, m.header.value))
  }

  // ---------- Path prefixes ----------

  /** The path is the prefix itself or lies below it, by whole segments; below the root lies every rooted path. */
  predicate Under(prefix: string, path: string) {
    prefix + "/" <= path || (prefix != "" && path == prefix)
  }

  function PathMatchers(prefix: string): seq<string> {
    var p := NormalizePrefix(prefix);
    if p == "" then ["/*"] else [p, p + "/*"]
  }

  lemma StarMatches(p: string, path: string)
    ensures PathMatches(p + "/*", path) <==> p + "/" <= path
  {
    var pattern := p + "/*";
    assert pattern[|pattern| - 2..] == "/*" && pattern[..|pattern| - 1] == p + "/";
  }

  /** The rendered patterns accept exactly the paths under the normalized prefix. */
  lemma MatchersAcceptPrefix(prefix: string, path: string)
    requires '*' !in prefix
    ensures AnyPath(PathMatchers(prefix), path) <==> Under(NormalizePrefix(prefix), path)
  {
    var p := NormalizePrefix(prefix);
    NormalizedIsPart(prefix);
    StarMatches(p, path);
    if p == "" {
      assert "" + "/*" == "/*" && "/*" in PathMatchers(prefix);
    } else {
      assert p in PathMatchers(prefix) && p + "/*" in PathMatchers(prefix);
      assert p[|p| - 1] in p && p[|p| - 1] != '*';
      if |p| >= 2 {
        assert p[|p| - 2..][1] == p[|p| - 1];
      }
    }
  }

  lemma NormalizedIsPart(prefix: string)
    ensures |NormalizePrefix(prefix)| <= |prefix| && forall c <- NormalizePrefix(prefix) :: c in prefix
  {
    TrimLeftShape(prefix);
    TrimRightShape(TrimLeft(prefix));
    TrimSlashesShape(TrimSpace(prefix));
  }

  /** The common part of two prefixes; None when they are disjoint. */
  function Intersect(left: string, right: string): Option<string> {
    var l, r := NormalizePrefix(left), NormalizePrefix(right);
    if l == "" then Some(r)
    else if r == "" then Some(l)
    else if l == r || r + "/" <= l then Some(l)
    else if l + "/" <= r then Some(r)
    else None
  }

  lemma UnderBySegments(p: string, path: string)
    requires p != ""
    ensures Under(p, path) <==> p + "/" <= path + "/"
  {
    if p + "/" <= path + "/" {
      if |path| >= |p| + 1 {
        assert (path + "/")[..|p| + 1] == path[..|p| + 1];
      } else {
        assert path == (path + "/")[..|p|] == (p + "/")[..|p|] == p;
      }
    }
  }

  /** Segment prefixes of one path are nested. */
  lemma PrefixesOfOnePath(l: string, r: string, path: string)
    requires l != "" && r != "" && Under(l, path) && Under(r, path) && |l| <= |r|
    ensures l == r || l + "/" <= r
  {
    UnderBySegments(l, path);
    UnderBySegments(r, path);
    assert l + "/" == (path + "/")[..|l| + 1] && r + "/" == (path + "/")[..|r| + 1];
    var whole := path + "/";
    assert whole[..|r| + 1][..|l| + 1] == whole[..|l| + 1];
    if |l| < |r| {
      assert (r + "/")[..|l| + 1] == r[..|l| + 1];
    } else {
      assert l == (l + "/")[..|l|] && r == (r + "/")[..|r|];
    }
  }

  /** The prefix itself or one below it, by whole segments. */
  predicate AtOrBelow(outer: string, inner: string) {
    outer == inner || outer + "/" <= inner
  }

  /** One prefix has only paths of another if and only if it lies at or below it. */
  lemma NarrowerPrefix(outer: string, inner: string)
    requires outer == "" || outer[|outer| - 1] != '/'
    ensures (forall path :: Under(inner, path) ==> Under(outer, path)) <==> AtOrBelow(outer, inner)
  {
    if AtOrBelow(outer, inner) {
      forall path | Under(inner, path) ensures Under(outer, path) {
        if outer != inner {
          UnderTransitive(outer, inner, path);
        }
      }
    }
    var path := inner + "/";
    if Under(inner, path) && Under(outer, path) {
      assert path[|path| - 1] == '/' && outer + "/" <= path;
      assert outer + "/" == path[..|outer| + 1];
      if |outer| == |inner| {
        assert outer == (outer + "/")[..|outer|] && inner == path[..|inner|];
      } else {
        assert inner[..|outer| + 1] == path[..|outer| + 1];
      }
    }
    assert Under(inner, path);
  }

  lemma UnderTransitive(l: string, r: string, path: string)
    requires l + "/" <= r && Under(r, path)
    ensures Under(l, path)
  {
  }

  lemma UnderRoot(p: string, path: string)
    requires "/" <= p && Under(p, path)
    ensures Under("", path)
  {
    assert "" + "/" == "/";
  }

  /** The intersection lies under both prefixes and nothing else does. Prefixes are rooted, as validation demands. */
  lemma IntersectMeaning(left: string, right: string, path: string)
    requires Rooted(NormalizePrefix(left)) && Rooted(NormalizePrefix(right))
    ensures Under(NormalizePrefix(left), path) && Under(NormalizePrefix(right), path) <==>
            Intersect(left, right).Some? && Under(Intersect(left, right).value, path)
  {
    var l, r := NormalizePrefix(left), NormalizePrefix(right);
    var common := Intersect(left, right);
    if Under(l, path) && Under(r, path) && l != "" && r != "" {
      if |l| <= |r| {
        PrefixesOfOnePath(l, r, path);
      } else {
        PrefixesOfOnePath(r, l, path);
      }
    }
    if common.Some? && Under(common.value, path) {
      if l == "" && r != "" {
        UnderRoot(r, path);
      } else if r == "" && l != "" {
        UnderRoot(l, path);
      } else if r + "/" <= l {
        UnderTransitive(r, l, path);
      } else if l + "/" <= r {
        UnderTransitive(l, r, path);
      }
    }
  }

  predicate Rooted(prefix: string) {
    prefix != "" ==> "/" <= prefix
  }

  /** Rendering the intersection normalizes it once more, so the patterns accept exactly the paths under both prefixes
      if and only if that changes nothing: a denied "/a / /" is configured as "/a / ", its intersection with "" is "/a
      ", and that is rendered as "/a". */
  lemma IntersectionIsExact(left: string, right: string)
    requires Rooted(NormalizePrefix(left)) && Rooted(NormalizePrefix(right)) && '*' !in left && '*' !in right
    ensures var common := Intersect(left, right);
            common.Some? ==>
              ((forall path :: AnyPath(PathMatchers(common.value), path) <==>
                               Under(NormalizePrefix(left), path) && Under(NormalizePrefix(right), path))
               <==> StablePrefix(common.value))
    ensures Intersect(left, right).None? ==>
              forall path :: !(Under(NormalizePrefix(left), path) && Under(NormalizePrefix(right), path))
  {
    forall path
      ensures Intersect(left, right).None? ==>
                !(Under(NormalizePrefix(left), path) && Under(NormalizePrefix(right), path))
    {
      IntersectMeaning(left, right, path);
    }
    if Intersect(left, right).Some? {
      var p := Intersect(left, right).value;
      NormalizedIsPart(left);
      NormalizedIsPart(right);
      if StablePrefix(p) {
        forall path
          ensures AnyPath(PathMatchers(p), path) <==>
                  Under(NormalizePrefix(left), path) && Under(NormalizePrefix(right), path)
        {
          MatchersAcceptPrefix(p, path);
          IntersectMeaning(left, right, path);
        }
      } else {
        var path := NormalizePrefix(p) + "/";
        TrimSlashesShape(TrimSpace(left));
        TrimSlashesShape(TrimSpace(right));
        ShorterIsWider(p);
        MatchersAcceptPrefix(p, path);
        IntersectMeaning(left, right, path);
      }
    }
  }

  lemma ShorterIsWider(p: string)
    requires !StablePrefix(p) && (p == "" || p[|p| - 1] != '/')
    ensures Under(NormalizePrefix(p), NormalizePrefix(p) + "/") && !Under(p, NormalizePrefix(p) + "/")
  {
    var q := NormalizePrefix(p);
    TrimSpaceShape(p);
    TrimSlashesShape(TrimSpace(p));
    StablePrefixShape(p);
    assert |q| < |p|;
    assert (q + "/")[|q|] == '/';
  }
}
