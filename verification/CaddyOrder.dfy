/** The order of routes in the rendered configuration: a stable sort under which the first match is the most
    specific one. */
module CaddyOrder {
  import opened Text
  import opened Routing
  import opened RoutingFacts
  import opened CaddyMatch

  datatype Key = Key(wildcard: bool, host: string, length: nat)

  function KeyOf(r: Route): Key {
    Key("*." <= Lower(r.host), Lower(r.host), |TrimSlashes(r.pathPrefix)|)
  }

  /** Exact hosts before wildcards, hosts in order, longer prefixes first. */
  predicate KeyLess(a: Key, b: Key) {
    if a.wildcard != b.wildcard then b.wildcard
    else if a.host != b.host then LexLess(a.host, b.host)
    else a.length > b.length
  }

  predicate Less(a: Route, b: Route) {
    KeyLess(KeyOf(a), KeyOf(b))
  }

  /** Keys are totally ordered, so routes are weakly ordered. */
  lemma KeyOrder(a: Key, b: Key, c: Key)
    ensures KeyLess(a, b) || KeyLess(b, a) || a == b
    ensures !(KeyLess(a, b) && KeyLess(b, a))
    ensures KeyLess(a, b) && KeyLess(b, c) ==> KeyLess(a, c)
    ensures KeyLess(a, b) && !KeyLess(c, b) ==> KeyLess(a, c)
    ensures !KeyLess(b, a) && !KeyLess(c, b) ==> !KeyLess(c, a)
  {
    hide LexLess;
    LexTotal(a.host, b.host);
    LexTotal(b.host, c.host);
    LexTotal(a.host, c.host);
    if LexLess(a.host, b.host) && LexLess(b.host, c.host) {
      LexTransitive(a.host, b.host, c.host);
    }
    if LexLess(c.host, a.host) && LexLess(a.host, b.host) {
      LexTransitive(c.host, a.host, b.host);
    }
    if LexLess(b.host, c.host) && LexLess(c.host, a.host) {
      LexTransitive(b.host, c.host, a.host);
    }
  }

  // ---------- The stable sort ----------

  /** Places a route after all those it is not less than. */
  function Insert(s: seq<Route>, r: Route): seq<Route> {
    if s == [] then [r]
    else if Less(r, s[|s| - 1]) then Insert(s[..|s| - 1], r) + [s[|s| - 1]]
    else s + [r]
  }

  function StableSort(rs: seq<Route>): seq<Route> {
    if rs == [] then [] else Insert(StableSort(rs[..|rs| - 1]), rs[|rs| - 1])
  }

  predicate Sorted(s: seq<Route>) {
    forall i, j :: 0 <= i < j < |s| ==> !Less(s[j], s[i])
  }

  function WithKey(s: seq<Route>, key: Key): seq<Route> {
    if s == [] then []
    else if KeyOf(s[|s| - 1]) == key then WithKey(s[..|s| - 1], key) + [s[|s| - 1]]
    else WithKey(s[..|s| - 1], key)
  }

  lemma InsertedMembers(t: seq<Route>, s: seq<Route>, r: Route, x: Route)
    requires multiset(t) == multiset(s) + multiset{r} && x in t
    ensures x == r || x in s
  {
    assert x in multiset(t);
  }

  lemma {:induction false} InsertKeepsOrder(s: seq<Route>, r: Route)
    requires Sorted(s)
    ensures Sorted(Insert(s, r)) && multiset(Insert(s, r)) == multiset(s) + multiset{r}
  {
    hide KeyLess, KeyOf;
    if s != [] {
      var n := |s| - 1;
      assert s == s[..n] + [s[n]];
      if Less(r, s[n]) {
        InsertKeepsOrder(s[..n], r);
        var t := Insert(s[..n], r);
        KeyOrder(KeyOf(r), KeyOf(s[n]), KeyOf(r));
        forall k | 0 <= k < |t| ensures !Less(s[n], t[k]) {
          InsertedMembers(t, s[..n], r, t[k]);
        }
      } else {
        forall k | 0 <= k < |s| ensures !Less(r, s[k]) {
          KeyOrder(KeyOf(s[k]), KeyOf(s[n]), KeyOf(r));
        }
      }
    }
  }

  lemma {:induction false} InsertIsStable(s: seq<Route>, r: Route, key: Key)
    requires Sorted(s)
    ensures WithKey(Insert(s, r), key) == WithKey(s + [r], key)
  {
    assert (s + [r])[..|s|] == s;
    if s != [] && Less(r, s[|s| - 1]) {
      var n := |s| - 1;
      InsertIsStable(s[..n], r, key);
      assert (s[..n] + [r])[..n] == s[..n];
      assert Insert(s, r)[..|Insert(s, r)| - 1] == Insert(s[..n], r);
      KeyOrder(KeyOf(r), KeyOf(s[n]), KeyOf(r));
    }
  }

  /** The sorted list holds the same routes, in order, and routes with one key keep their input order. */
  lemma {:induction false} StableSortSorts(rs: seq<Route>)
    ensures Sorted(StableSort(rs)) && multiset(StableSort(rs)) == multiset(rs)
    ensures forall key :: WithKey(StableSort(rs), key) == WithKey(rs, key)
  {
    hide Less, Insert;
    if rs != [] {
      var n := |rs| - 1;
      StableSortSorts(rs[..n]);
      assert rs == rs[..n] + [rs[n]];
      InsertKeepsOrder(StableSort(rs[..n]), rs[n]);
      forall key ensures WithKey(StableSort(rs), key) == WithKey(rs, key) {
        InsertIsStable(StableSort(rs[..n]), rs[n], key);
        var t := StableSort(rs[..n]);
        assert (t + [rs[n]])[..|t|] == t;
      }
    }
  }

  lemma {:induction false} FirstWithKey(s: seq<Route>, key: Key)
    ensures WithKey(s, key) == [] <==> forall r <- s :: KeyOf(r) != key
    ensures WithKey(s, key) != [] ==>
              exists i :: 0 <= i < |s| && s[i] == WithKey(s, key)[0] && KeyOf(s[i]) == key
                          && forall k :: 0 <= k < i ==> KeyOf(s[k]) != key
  {
    hide KeyOf;
    if s != [] {
      var n := |s| - 1;
      assert s == s[..n] + [s[n]];
      FirstWithKey(s[..n], key);
      if WithKey(s[..n], key) != [] {
        var i :| 0 <= i < n && s[..n][i] == WithKey(s[..n], key)[0] && KeyOf(s[..n][i]) == key && forall k ::
                   0 <= k < i ==> KeyOf(s[..n][k]) != key;
        assert s[i] == WithKey(s, key)[0] && forall k :: 0 <= k < i ==> KeyOf(s[k]) != key;
      } else if KeyOf(s[n]) == key {
        assert forall k :: 0 <= k < n ==> s[k] in s[..n];
        assert s[n] == WithKey(s, key)[0];
      }
    }
  }

  lemma {:induction false} SameByKeys(s: seq<Route>, t: seq<Route>)
    requires Sorted(s) && Sorted(t) && forall key :: WithKey(s, key) == WithKey(t, key)
    ensures s == t
    decreases |s|
  {
    hide Less, KeyOf, WithKey, Sorted;
    if s == [] {
      if t != [] {
        LastAgrees(t, s);
      }
    } else {
      var n, key := |s| - 1, KeyOf(s[|s| - 1]);
      LastAgrees(s, t);
      LastAgreesBack(s, t, key);
      forall k ensures WithKey(s[..n], k) == WithKey(t[..|t| - 1], k) {
        WithoutLast(s, k);
        WithoutLast(t, k);
      }
      SortedInit(s);
      SortedInit(t);
      SameByKeys(s[..n], t[..|t| - 1]);
      assert s == s[..n] + [s[n]] && t == t[..|t| - 1] + [t[|t| - 1]];
    }
  }

  lemma SortedInit(s: seq<Route>)
    requires Sorted(s) && s != []
    ensures Sorted(s[..|s| - 1])
  {
    hide Less;
  }

  lemma WithoutLast(s: seq<Route>, key: Key)
    requires s != []
    ensures var all := WithKey(s, key);
            if KeyOf(s[|s| - 1]) == key then all != [] && WithKey(s[..|s| - 1], key) == all[..|all| - 1]
            else WithKey(s[..|s| - 1], key) == all
  {
    hide KeyOf;
  }

  lemma NotAfterLast(s: seq<Route>, j: nat)
    requires Sorted(s) && j < |s|
    ensures !KeyLess(KeyOf(s[|s| - 1]), KeyOf(s[j]))
  {
    hide KeyLess, KeyOf;
    if j == |s| - 1 {
      KeyOrder(KeyOf(s[j]), KeyOf(s[j]), KeyOf(s[j]));
    } else {
      assert !Less(s[|s| - 1], s[j]);
    }
  }

  lemma KeyAppears(s: seq<Route>, t: seq<Route>, r: Route) returns (i: nat)
    requires r in s && WithKey(s, KeyOf(r)) == WithKey(t, KeyOf(r))
    ensures i < |t| && KeyOf(t[i]) == KeyOf(r)
  {
    hide KeyOf, WithKey;
    FirstWithKey(s, KeyOf(r));
    FirstWithKey(t, KeyOf(r));
    i :| 0 <= i < |t| && KeyOf(t[i]) == KeyOf(r);
  }

  lemma LastAgrees(s: seq<Route>, t: seq<Route>)
    requires Sorted(s) && Sorted(t) && s != [] && forall key :: WithKey(s, key) == WithKey(t, key)
    ensures t != [] && KeyOf(t[|t| - 1]) == KeyOf(s[|s| - 1])
  {
    hide KeyLess, KeyOf, WithKey, Sorted;
    var last := s[|s| - 1];
    var i := KeyAppears(s, t, last);
    NotAfterLast(t, i);
    var end := t[|t| - 1];
    var j := KeyAppears(t, s, end);
    NotAfterLast(s, j);
    KeyOrder(KeyOf(last), KeyOf(end), KeyOf(last));
  }

  lemma LastWithKey(s: seq<Route>)
    requires s != []
    ensures var all := WithKey(s, KeyOf(s[|s| - 1])); all != [] && all[|all| - 1] == s[|s| - 1]
  {
    hide KeyOf;
  }

  lemma LastAgreesBack(s: seq<Route>, t: seq<Route>, key: Key)
    requires s != [] && t != [] && KeyOf(t[|t| - 1]) == key && KeyOf(s[|s| - 1]) == key
    requires WithKey(s, key) == WithKey(t, key)
    ensures t[|t| - 1] == s[|s| - 1]
  {
    hide KeyOf, WithKey;
    LastWithKey(s);
    LastWithKey(t);
  }

  /** There is only one stable sorting, whatever the algorithm. */
  lemma StableSortIsUnique(rs: seq<Route>, t: seq<Route>)
    requires Sorted(t) && forall key :: WithKey(t, key) == WithKey(rs, key)
    ensures t == StableSort(rs)
  {
    StableSortSorts(rs);
    SameByKeys(t, StableSort(rs));
  }

  // ---------- Specificity ----------

  predicate Wildcard(r: Route) {
    "*." <= r.host
  }

  predicate Here(r: Route, host: string, path: string) {
    HostMatches(r.host, host) && (r.pathPrefix != "" ==> Under(NormalizePrefix(r.pathPrefix), path))
  }

  /** The length the sort looks at exceeds the matcher's prefix by at most one character of white space. */
  predicate SortsByPrefix(r: Route) {
    |TrimSlashes(r.pathPrefix)| <= |NormalizePrefix(r.pathPrefix)| + 1
  }

  /** `a` is at least as specific as `b`: exact before wildcard, then the longer, nested prefix. */
  predicate AtLeastAsSpecific(a: Route, b: Route) {
    || (!Wildcard(a) && Wildcard(b))
    || (Wildcard(a) == Wildcard(b) && Lower(a.host) == Lower(b.host)
        && Nested(NormalizePrefix(b.pathPrefix), NormalizePrefix(a.pathPrefix)))
  }

  predicate Nested(outer: string, inner: string) {
    outer == "" || AtOrBelow(outer, inner)
  }

  lemma LowerPrefix(host: string)
    ensures "*." <= Lower(host) <==> "*." <= host
  {
    if "*." <= Lower(host) {
      assert Lower(host)[0] == '*' && Lower(host)[1] == '.';
      assert host[..2] == "*.";
    }
    if "*." <= host {
      assert host[0] == '*' && host[1] == '.';
      assert Lower(host)[..2] == "*.";
    }
  }

  /** The patterns of one kind that match a host are the same up to case. */
  lemma OnePattern(a: string, b: string, host: string)
    requires HostMatches(a, host) && HostMatches(b, host) && ("*." <= a <==> "*." <= b)
    ensures Lower(a) == Lower(b)
  {
    if "*." <= a {
      var n := |host|;
      DotAt(a, host);
      DotAt(b, host);
      assert |a| == |b|;
      assert Lower(a) == [LowerChar(a[0])] + Lower(a[1..]) && Lower(b) == [LowerChar(b[0])] + Lower(b[1..]);
    }
  }

  lemma DotAt(pattern: string, host: string)
    requires "*." <= pattern && HostMatches(pattern, host)
    ensures 0 <= |host| - |pattern| + 1 < |host| && host[|host| - |pattern| + 1] == '.'
    ensures '.' !in host[..|host| - |pattern| + 1]
    ensures forall k :: 0 <= k < |host| - |pattern| + 1 ==> host[k] != '.'
  {
    var at := |host| - |pattern| + 1;
    var firstLabel := host[..at];
    assert pattern[1..][0] == '.';
    assert Lower(host[at..])[0] == Lower(pattern[1..])[0] == '.';
    assert LowerChar(host[at]) == '.';
    forall k | 0 <= k < at ensures host[k] != '.' {
      assert host[k] == firstLabel[k] && firstLabel[k] in firstLabel;
    }
  }

  lemma NestedByLength(l: string, r: string, path: string)
    requires Under(l, path) && Under(r, path) && |l| <= |r|
    ensures Nested(l, r)
  {
    if l != "" {
      PrefixesOfOnePath(l, r, path);
    }
  }

  /** Of the routes of a sorted list whose host and path match, the first has an exact host unless all have wildcards,
      and when its prefix is one the sort judges rightly, it is the most specific. */
  lemma FirstIsMostSpecific(s: seq<Route>, host: string, path: string, i: nat, j: nat)
    requires Sorted(s)
    requires i < |s| && Here(s[i], host, path) && forall k :: 0 <= k < i ==> !Here(s[k], host, path)
    requires j < |s| && Here(s[j], host, path)
    ensures Wildcard(s[i]) ==> Wildcard(s[j]) && Lower(s[i].host) == Lower(s[j].host)
    ensures SortsByPrefix(s[i]) && Rooted(NormalizePrefix(s[j].pathPrefix)) ==> AtLeastAsSpecific(s[i], s[j])
  {
    hide HostMatches, Under, LexLess, NormalizePrefix, TrimSlashes;
    LowerPrefix(s[i].host);
    LowerPrefix(s[j].host);
    if Wildcard(s[i]) == Wildcard(s[j]) {
      OnePattern(s[i].host, s[j].host, host);
    }
    if i != j {
      assert !Less(s[j], s[i]);
    }
    if Wildcard(s[i]) == Wildcard(s[j]) && SortsByPrefix(s[i]) && Rooted(NormalizePrefix(s[j].pathPrefix)) {
      assert |TrimSlashes(s[j].pathPrefix)| <= |NormalizePrefix(s[i].pathPrefix)| + 1;
      LongerIsNested(s[i], s[j], host, path);
    }
  }

  lemma LongerIsNested(a: Route, b: Route, host: string, path: string)
    requires Here(a, host, path) && Here(b, host, path) && Rooted(NormalizePrefix(b.pathPrefix))
    requires |TrimSlashes(b.pathPrefix)| <= |NormalizePrefix(a.pathPrefix)| + 1
    ensures Nested(NormalizePrefix(b.pathPrefix), NormalizePrefix(a.pathPrefix))
  {
    hide HostMatches, Under;
    var mine, other := NormalizePrefix(a.pathPrefix), NormalizePrefix(b.pathPrefix);
    NormalizedIsShorter(b.pathPrefix);
    TrimSlashesShape(TrimSpace(b.pathPrefix));
    if other != "" && mine != "" {
      if |other| <= |mine| {
        NestedByLength(other, mine, path);
      } else {
        NestedByLength(mine, other, path);
      }
    }
  }

  lemma NormalizedIsShorter(prefix: string)
    ensures |NormalizePrefix(prefix)| <= |TrimSlashes(prefix)|
    ensures StablePrefix(prefix) ==> TrimSlashes(prefix) == prefix
  {
    TrimLeftShape(prefix);
    TrimRightShape(TrimLeft(prefix));
    assert TrimSpace(prefix) == prefix[|prefix| - |TrimLeft(prefix)|..][..|TrimSpace(prefix)|];
    TrimmedMiddle(prefix, |prefix| - |TrimLeft(prefix)|, |TrimSpace(prefix)|);
    TrimSlashesShape(prefix);
    StablePrefixShape(prefix);
  }

  /** Cutting text off both ends first cannot leave more. */
  lemma {:induction false} TrimmedMiddle(s: string, from: nat, length: nat)
    requires from + length <= |s|
    ensures |TrimSlashes(s[from..][..length])| <= |TrimSlashes(s)|
  {
    var middle := s[from..][..length];
    TrimSlashesShape(middle);
    if |s| > 0 && s[|s| - 1] == '/' {
      var shorter := s[..|s| - 1];
      if from + length == |s| && length > 0 {
        assert middle[..length - 1] == shorter[from..][..length - 1];
        TrimmedMiddle(shorter, from, length - 1);
      } else if length > 0 {
        assert middle == shorter[from..][..length];
        TrimmedMiddle(shorter, from, length);
      }
    }
  }

  predicate Inside(outer: string, more: string) {
    Nested(outer, more) && more != outer && Rooted(more) && StablePrefix(more)
  }

  /** The condition is exact: a prefix is sorted after every strictly more specific one if and only if it meets it.
      Two characters of white space are enough for "/a  " to be tried before "/a/b". */
  lemma SortsByPrefixIsExact(r: Route)
    requires Rooted(NormalizePrefix(r.pathPrefix))
    ensures (forall more :: Inside(NormalizePrefix(r.pathPrefix), more) ==> Less(r.(pathPrefix := more), r)) <==>
            SortsByPrefix(r)
  {
    hide StablePrefix, NormalizePrefix, TrimSlashes, LexLess;
    var q := NormalizePrefix(r.pathPrefix);
    forall more | Inside(q, more) ensures TrimSlashes(more) == more && |more| >= |q| + 2 {
      NormalizedIsShorter(more);
      LongEnough(q, more);
    }
    var next := q + "/a";
    StablePrefixShape(next);
    NormalizedIsShorter(next);
    assert Rooted(next) && Inside(q, next) by {
      assert q + "/" <= next;
    }
  }

  lemma LongEnough(outer: string, more: string)
    requires Inside(outer, more)
    ensures |more| >= |outer| + 2
  {
    StablePrefixShape(more);
  }

  /** Rules for "/a   / /" and "/a/b" on one listener compile to routes of which the first is tried first, whatever
      their input order, although both match "/a/b". */
  lemma SortMisjudges(wideRule: Rule, narrowRule: Rule, l: Listener, p: Pool, q: Pool, host: string)
    requires wideRule.pathPrefix == "/a   / /" && narrowRule.pathPrefix == "/a/b"
    requires HostMatches(NormalizeName(l.hostname), host)
    ensures var wide := CompileRule(NormalizeRule(wideRule), l, p);
            var narrow := CompileRule(NormalizeRule(narrowRule), l, q);
            && StableSort([wide, narrow]) == StableSort([narrow, wide]) == [wide, narrow]
            && Here(wide, host, "/a/b") && Here(narrow, host, "/a/b") && !AtLeastAsSpecific(wide, narrow)
  {
    hide HostMatches, LexLess, Lower, NormalizeRule, CompileRule, NormalizeName;
    var wide, narrow := CompileRule(NormalizeRule(wideRule), l, p), CompileRule(NormalizeRule(narrowRule), l, q);
    CompiledPlace(wideRule, l, p);
    CompiledPlace(narrowRule, l, q);
    BlanksAreTrimmed();
    StablePrefixShape("/a/b");
    NormalizedIsShorter("/a/b");
    assert narrow.pathPrefix == "/a/b" && wide.pathPrefix == "/a   ";
    assert Less(wide, narrow) && !Less(narrow, wide);
    TwoSorted(wide, narrow);
    assert "/a" + "/" <= "/a/b";
  }

  lemma TwoSorted(a: Route, b: Route)
    requires Less(a, b) && !Less(b, a)
    ensures StableSort([a, b]) == StableSort([b, a]) == [a, b]
  {
    hide Less;
    assert [a][..0] == [] && [b][..0] == [];
    assert StableSort([a]) == Insert(StableSort([]), a) == [a];
    assert StableSort([b]) == Insert(StableSort([]), b) == [b];
    assert [a, b][..1] == [a] && [b, a][..1] == [b];
  }

  lemma BlanksAreTrimmed()
    ensures NormalizePrefix(NormalizePrefix("/a   / /")) == "/a   "
    ensures NormalizePrefix("/a   ") == "/a" && TrimSlashes("/a   ") == "/a   "
  {
    BlankedSlash("/a   / ");
    BlankedSlash("/a   ");
    assert "/a   / " + "/" == "/a   / /" && "/a   " + "/ " == "/a   / ";
    assert TrimLeft("/a   ") == "/a   ";
    assert "/a   "[..4] == "/a  " && "/a  "[..3] == "/a " && "/a "[..2] == "/a";
    assert TrimRight("/a") == "/a" && TrimRight("/a ") == TrimRight("/a");
    assert TrimRight("/a  ") == TrimRight("/a ") && TrimRight("/a   ") == TrimRight("/a  ");
    assert TrimSlashes("/a") == "/a";
  }
}
