/** ASCII text functions in the shapes the gateway uses: trimming, case folding,
    affixes and splitting. Inputs outside ASCII are not part of this model. */
module Text {

  datatype Option<+T> = None | Some(value: T)

  predicate IsSpace(c: char) {
    c == ' ' || '\t' <= c <= '\r'
  }

  function TrimLeft(s: string): string {
    if s != [] && IsSpace(s[0]) then TrimLeft(s[1..]) else s
  }

  function TrimRight(s: string): string {
    if s != [] && IsSpace(s[|s| - 1]) then TrimRight(s[..|s| - 1]) else s
  }

  function TrimSpace(s: string): string {
    TrimRight(TrimLeft(s))
  }

  function TrimSlashes(s: string): string {
    if s != [] && s[|s| - 1] == '/' then TrimSlashes(s[..|s| - 1]) else s
  }

  function LowerChar(c: char): char {
    if 'A' <= c <= 'Z' then c - 'A' + 'a' else c
  }

  function UpperChar(c: char): char {
    if 'a' <= c <= 'z' then c - 'a' + 'A' else c
  }

  function Lower(s: string): string {
    seq(|s|, i requires 0 <= i < |s| => LowerChar(s[i]))
  }

  function Upper(s: string): string {
    seq(|s|, i requires 0 <= i < |s| => UpperChar(s[i]))
  }

  predicate HasSuffix(s: string, suffix: string) {
    |suffix| <= |s| && s[|s| - |suffix|..] == suffix
  }

  function TrimSuffix(s: string, suffix: string): string {
    if HasSuffix(s, suffix) then s[..|s| - |suffix|] else s
  }

  function Split(s: string, separator: char): (parts: seq<string>)
    ensures |parts| >= 1
  {
    if s == [] then [[]]
    else
      var rest := Split(s[1..], separator);
      if s[0] == separator then [[]] + rest else [[s[0]] + rest[0]] + rest[1..]
  }

  /** The trimmed, lower-case form of a DNS name without its final dot. */
  function NormalizeName(name: string): string {
    TrimSuffix(Lower(TrimSpace(name)), ".")
  }

  /** The trimmed form of a path prefix; equivalent root prefixes become "". */
  function NormalizePrefix(prefix: string): string {
    TrimSlashes(TrimSpace(prefix))
  }

  /** Prefixes that a second normalization leaves alone; "/a /" normalizes to "/a ", which is not one. */
  predicate StablePrefix(prefix: string) {
    NormalizePrefix(prefix) == prefix
  }

  lemma TrimLeftShape(s: string)
    ensures var r := TrimLeft(s);
            |r| <= |s| && r == s[|s| - |r|..] && (r != [] ==> !IsSpace(r[0]))
  {
  }

  lemma TrimRightShape(s: string)
    ensures var r := TrimRight(s); r <= s && (r != [] ==> !IsSpace(r[|r| - 1]))
  {
  }

  lemma TrimSlashesShape(s: string)
    ensures var r := TrimSlashes(s); r <= s && (r != [] ==> r[|r| - 1] != '/')
  {
  }

  /** Trimming at the right stops at the last character that stays. */
  lemma {:induction false} TrimRightKeeps(s: string, n: nat)
    requires 0 < n <= |s| && !IsSpace(s[n - 1])
    ensures |TrimRight(s)| >= n
  {
    if IsSpace(s[|s| - 1]) {
      TrimRightKeeps(s[..|s| - 1], n);
    }
  }

  lemma {:induction false} TrimSlashesKeeps(s: string, n: nat)
    requires 0 < n <= |s| && s[n - 1] != '/'
    ensures |TrimSlashes(s)| >= n
  {
    if s[|s| - 1] == '/' {
      TrimSlashesKeeps(s[..|s| - 1], n);
    }
  }

  lemma TrimSpaceShape(s: string)
    ensures var r := TrimSpace(s);
            |r| <= |s| && (|r| == |s| ==> r == s) && (r != [] ==> !IsSpace(r[0]) && !IsSpace(r[|r| - 1]))
  {
    TrimLeftShape(s);
    TrimRightShape(TrimLeft(s));
  }

  /** Trimming cuts the white space at both ends and nothing else. */
  lemma TrimSpaceMeaning(s: string) returns (i: nat, j: nat)
    ensures i <= j <= |s| && TrimSpace(s) == s[i..j]
    ensures forall k :: 0 <= k < i || j <= k < |s| ==> s[k] in [' ', '\t', '\n', '\r', 11 as char, 12 as char]
    ensures i < j ==> !IsSpace(s[i]) && !IsSpace(s[j - 1])
  {
    i := LeftCut(s);
    var left := TrimLeft(s);
    j := RightCut(left);
    j := i + j;
    TrimSpaceShape(s);
    assert left == s[i..];
    forall k | 0 <= k < i || j <= k < |s| ensures IsSpace(s[k]) {
      if j <= k {
        assert left[k - i] == s[k];
      }
    }
  }

  lemma {:induction false} LeftCut(s: string) returns (i: nat)
    ensures i <= |s| && TrimLeft(s) == s[i..] && forall k :: 0 <= k < i ==> IsSpace(s[k])
  {
    if s != [] && IsSpace(s[0]) {
      i := LeftCut(s[1..]);
      i := i + 1;
      assert s[i..] == s[1..][i - 1..];
      assert forall k :: 1 <= k < i ==> s[k] == s[1..][k - 1];
    } else {
      i := 0;
    }
  }

  lemma {:induction false} RightCut(s: string) returns (j: nat)
    ensures j <= |s| && TrimRight(s) == s[..j] && forall k :: j <= k < |s| ==> IsSpace(s[k])
  {
    if s != [] && IsSpace(s[|s| - 1]) {
      j := RightCut(s[..|s| - 1]);
      assert s[..j] == s[..|s| - 1][..j];
    } else {
      j := |s|;
    }
  }

  /** A name in normal form is its trimmed text in lower case without one final dot. */
  lemma NormalizedName(name: string)
    ensures var t, n := TrimSpace(name), NormalizeName(name);
            && |n| == (if t != "" && t[|t| - 1] == '.' then |t| - 1 else |t|)
            && forall k :: 0 <= k < |n| ==>
                             n[k] == if 'A' <= t[k] <= 'Z' then t[k] - 'A' + 'a' else t[k]
  {
    hide TrimSpace;
    var t, lower := TrimSpace(name), Lower(TrimSpace(name));
    if t != "" {
      assert lower[|t| - 1..] == [lower[|t| - 1]] && lower[|t| - 1] == LowerChar(t[|t| - 1]);
      assert "."[0] == '.' && (lower[|t| - 1] == '.' ==> lower[|t| - 1..] == ".");
    }
  }

  lemma TrimSpaceFixpoint(s: string)
    ensures TrimSpace(s) == s <==> s == [] || (!IsSpace(s[0]) && !IsSpace(s[|s| - 1]))
  {
    TrimSpaceShape(s);
  }

  lemma TrimSpaceIdempotent(s: string)
    ensures TrimSpace(TrimSpace(s)) == TrimSpace(s)
  {
    TrimSpaceShape(s);
    TrimSpaceFixpoint(TrimSpace(s));
  }

  /** A prefix is stable exactly when nothing is left to trim at either end. */
  lemma StablePrefixShape(p: string)
    ensures StablePrefix(p) <==> p == [] || (!IsSpace(p[0]) && !IsSpace(p[|p| - 1]) && p[|p| - 1] != '/')
  {
    TrimSpaceShape(p);
    TrimSpaceFixpoint(p);
    TrimSlashesShape(TrimSpace(p));
  }

  /** A normalized prefix is stable unless it ends in white space, as that of "/a /" does. */
  lemma NormalizedPrefixStable(prefix: string)
    ensures var p := NormalizePrefix(prefix);
            StablePrefix(p) <==> p == [] || !IsSpace(p[|p| - 1])
  {
    var t := TrimSpace(prefix);
    var p := TrimSlashes(t);
    TrimSpaceShape(prefix);
    TrimSlashesShape(t);
    StablePrefixShape(p);
    if p != [] {
      assert p[0] == t[0];
    }
  }

  /** Normalizing a prefix twice can change it. */
  lemma UnstablePrefix()
    ensures NormalizePrefix("/a /") == "/a " && NormalizePrefix("/a ") == "/a"
  {
    TrimSpaceFixpoint("/a /");
    assert TrimSlashes("/a /") == "/a ";
    assert TrimLeft("/a ") == "/a ";
    assert TrimRight("/a ") == TrimRight("/a") == "/a";
    assert TrimSlashes("/a") == "/a";
  }

  /** A slash after white space is cut off with the white space that follows it, and what stood before stays. */
  lemma BlankedSlash(p: string)
    requires |p| >= 2 && p[0] == '/' && p[|p| - 1] == ' '
    ensures NormalizePrefix(p + "/") == p && NormalizePrefix(p + "/ ") == p
  {
    var slashed := p + "/";
    TrimSpaceFixpoint(slashed);
    assert slashed[..|p|] == p && TrimSlashes(slashed) == TrimSlashes(p) == p;
    var blanked := p + "/ ";
    assert blanked[..|slashed|] == slashed && blanked[0] == '/';
    assert TrimLeft(blanked) == blanked && TrimRight(blanked) == TrimRight(slashed) == slashed;
  }

  lemma SplitOfLabels(s: string, separator: char)
    ensures separator !in s ==> Split(s, separator) == [s]
    ensures s != [] && s[|s| - 1] == separator ==> Split(s, separator)[|Split(s, separator)| - 1] == []
    ensures forall c :: c in s && c != separator ==>
                          exists i :: 0 <= i < |Split(s, separator)| && c in Split(s, separator)[i]
  {
    if s != [] {
      SplitOfLabels(s[1..], separator);
      var rest := Split(s[1..], separator);
      assert s == [s[0]] + s[1..];
      var all := Split(s, separator);
      forall c | c in s && c != separator
        ensures exists i :: 0 <= i < |all| && c in all[i]
      {
        if c == s[0] {
          assert c in all[0];
        } else {
          assert c in s[1..];
          var i :| 0 <= i < |rest| && c in rest[i];
          var j := if s[0] == separator then i + 1 else i;
          assert c in all[j];
        }
      }
    }
  }

  /** Some parts with more text at the end of the last one. */
  function LastGrown(parts: seq<string>, more: string): seq<string>
    requires |parts| >= 1
  {
    parts[..|parts| - 1] + [parts[|parts| - 1] + more]
  }

  /** Appending text without a separator touches only the last part. */
  lemma {:induction false} SplitExtended(s: string, more: string, separator: char)
    requires separator !in more
    ensures Split(s + more, separator) == LastGrown(Split(s, separator), more)
  {
    if s == [] {
      SplitOfLabels(more, separator);
      assert s + more == more && [] + more == more;
    } else {
      hide LastGrown;
      SplitExtended(s[1..], more, separator);
      assert (s + more)[1..] == s[1..] + more && (s + more)[0] == s[0];
      LastPartGrows([], Split(s[1..], separator), more);
      LastPartGrows([s[0]], Split(s[1..], separator), more);
    }
  }

  /** Text that grows the last part also does so when a part is put in front of the others or joined to the first. */
  lemma LastPartGrows(start: string, parts: seq<string>, more: string)
    requires |parts| >= 1
    ensures var grown := LastGrown(parts, more);
            && |grown| >= 1
            && [start] + grown == LastGrown([start] + parts, more)
            && [start + grown[0]] + grown[1..] == LastGrown([start + parts[0]] + parts[1..], more)
  {
    if |parts| == 1 {
      assert start + (parts[0] + more) == start + parts[0] + more;
    }
  }

  /** Appending a separator opens a new, empty part. */
  lemma {:induction false} SplitClosed(s: string, separator: char)
    ensures Split(s + [separator], separator) == Split(s, separator) + [[]]
  {
    if s == [] {
      assert [separator][1..] == [];
    } else {
      SplitClosed(s[1..], separator);
      assert (s + [separator])[1..] == s[1..] + [separator];
    }
  }

  lemma ConcatAssociative<T>(a: seq<T>, b: seq<T>, c: seq<T>)
    ensures (a + b) + c == a + (b + c)
  {
  }

  // ---------- Order ----------

  /** The order of texts character by character. */
  predicate LexLess(a: string, b: string) {
    b != "" && (a == "" || a[0] < b[0] || (a[0] == b[0] && LexLess(a[1..], b[1..])))
  }

  lemma {:induction false} LexTotal(a: string, b: string)
    ensures LexLess(a, b) || LexLess(b, a) || a == b
    ensures !(LexLess(a, b) && LexLess(b, a)) && !LexLess(a, a)
  {
    if a != "" {
      if b != "" {
        LexTotal(a[1..], b[1..]);
        assert a == [a[0]] + a[1..] && b == [b[0]] + b[1..];
      }
      if !LexLess(a, a) {
      } else {
        LexTotal(a[1..], a[1..]);
      }
    }
  }

  lemma {:induction false} LexTransitive(a: string, b: string, c: string)
    requires LexLess(a, b) && LexLess(b, c)
    ensures LexLess(a, c)
  {
    if a != "" && a[0] == b[0] && b[0] == c[0] {
      LexTransitive(a[1..], b[1..], c[1..]);
    }
  }

  predicate StrictlySorted(names: seq<string>) {
    forall i, j :: 0 <= i < j < |names| ==> LexLess(names[i], names[j])
  }

  function InsertName(names: seq<string>, name: string): seq<string> {
    if names == [] then [name]
    else
      var last := names[|names| - 1];
      if LexLess(name, last) then InsertName(names[..|names| - 1], name) + [last] else if name == last then names
      else names + [name]
  }

  /** The distinct names in ascending order. */
  function SortedNames(names: seq<string>): seq<string> {
    if names == [] then [] else InsertName(SortedNames(names[..|names| - 1]), names[|names| - 1])
  }

  lemma {:induction false} InsertNameShape(names: seq<string>, name: string)
    requires StrictlySorted(names)
    ensures StrictlySorted(InsertName(names, name))
    ensures forall x :: x in InsertName(names, name) <==> x in names || x == name
  {
    hide LexLess;
    if names != [] {
      var n := |names| - 1;
      var last := names[n];
      assert names == names[..n] + [last];
      LexTotal(name, last);
      if LexLess(name, last) {
        InsertNameShape(names[..n], name);
        var t := InsertName(names[..n], name);
        forall k | 0 <= k < |t| ensures LexLess(t[k], last) {
          assert t[k] in t;
          if t[k] != name {
            var i :| 0 <= i < n && names[..n][i] == t[k];
            assert LexLess(names[i], names[n]);
          }
        }
      } else if name != last {
        forall k | 0 <= k < n ensures LexLess(names[k], name) {
          LexTransitive(names[k], last, name);
        }
      }
    }
  }

  /** Sorting and compacting keep exactly the members, each once and in order. */
  lemma {:induction false} SortedNamesShape(names: seq<string>)
    ensures StrictlySorted(SortedNames(names))
    ensures forall x :: x in SortedNames(names) <==> x in names
  {
    hide InsertName, StrictlySorted;
    if names == [] {
      assert StrictlySorted([]) by {
        NothingToSort();
      }
    } else {
      var n := |names| - 1;
      assert names == names[..n] + [names[n]];
      SortedNamesShape(names[..n]);
      InsertNameShape(SortedNames(names[..n]), names[n]);
    }
  }

  lemma NothingToSort()
    ensures StrictlySorted([])
  {
  }
}
