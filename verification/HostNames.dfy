/** Host names told character by character, without cutting them into labels. */
module HostNames {
  import opened Text
  import opened Routing

  predicate LetterOrDigit(c: char) {
    'a' <= c <= 'z' || '0' <= c <= '9'
  }

  predicate Inner(c: char) {
    c == '-' || LetterOrDigit(c)
  }

  /** Letters, digits, inner hyphens and single inner dots, with a dot among any 64 characters in a row. */
  predicate NameShape(name: string) {
    && name != "" && LetterOrDigit(name[0]) && LetterOrDigit(name[|name| - 1])
    && (forall i :: 0 <= i < |name| ==> Inner(name[i]) || name[i] == '.')
    && (forall i :: 0 < i < |name| && name[i] == '.' ==> LetterOrDigit(name[i - 1]))
    && (forall i :: 0 < i < |name| && name[i - 1] == '.' ==> LetterOrDigit(name[i]))
    && forall i :: 0 <= i && i + 64 <= |name| ==> DotWithin(name, i)
  }

  predicate DotWithin(name: string, from: int)
    requires 0 <= from && from + 64 <= |name|
  {
    exists k :: from <= k < from + 64 && name[k] == '.'
  }

  lemma OneLabelShape(part: string)
    requires '.' !in part
    ensures ValidLabel(part) <==> NameShape(part)
  {
    assert forall i :: 0 <= i < |part| ==> part[i] in part;
    assert |part| >= 64 ==> !DotWithin(part, 0);
    if NameShape(part) {
      forall c | c in part ensures Inner(c) {
        var i :| 0 <= i < |part| && part[i] == c;
      }
    }
  }

  lemma {:induction false} SplitAtDot(first: string, rest: string)
    requires '.' !in first
    ensures Split(first + "." + rest, '.') == [first] + Split(rest, '.')
  {
    var name := first + "." + rest;
    if first == "" {
      assert name[1..] == rest;
    } else {
      SplitAtDot(first[1..], rest);
      assert name[1..] == first[1..] + "." + rest && name[0] == first[0];
      assert [first[0]] + first[1..] == first;
    }
  }

  lemma CutShape(first: string, rest: string)
    requires '.' !in first
    ensures NameShape(first + "." + rest) <==> ValidLabel(first) && NameShape(rest)
  {
    var name := first + "." + rest;
    var n := |first|;
    assert forall i :: 0 <= i < n ==> name[i] == first[i] != '.';
    assert name[n] == '.' && forall i :: 0 <= i < |rest| ==> name[n + 1 + i] == rest[i];
    OneLabelShape(first);
    if NameShape(name) {
      CutParts(first, rest);
    }
    if ValidLabel(first) && NameShape(rest) {
      JoinParts(first, rest);
    }
  }

  lemma CutWindows(first: string, rest: string, i: nat)
    requires NameShape(first + "." + rest) && i + 64 <= |rest|
    ensures DotWithin(rest, i)
  {
    var name := first + "." + rest;
    var n := |first|;
    assert DotWithin(name, n + 1 + i);
    var k :| n + 1 + i <= k < n + 1 + i + 64 && name[k] == '.';
    assert rest[k - n - 1] == '.';
  }

  lemma CutNeighbours(first: string, rest: string, i: nat)
    requires NameShape(first + "." + rest) && 0 < i < |rest|
    ensures rest[i - 1] == '.' ==> LetterOrDigit(rest[i])
    ensures rest[i] == '.' ==> LetterOrDigit(rest[i - 1])
  {
    hide DotWithin;
    var name, n := first + "." + rest, |first|;
    assert name[n + i] == rest[i - 1] && name[n + 1 + i] == rest[i];
  }

  lemma CutEnds(first: string, rest: string)
    requires '.' !in first && NameShape(first + "." + rest)
    ensures 0 < |first| < 64 && rest != "" && LetterOrDigit(first[0]) && LetterOrDigit(first[|first| - 1])
    ensures LetterOrDigit(rest[0]) && LetterOrDigit(rest[|rest| - 1])
  {
    var name, n := first + "." + rest, |first|;
    assert forall i :: 0 <= i < n ==> name[i] == first[i] && first[i] in first;
    assert name[n] == '.' && !LetterOrDigit(name[n]);
    assert |name| - 1 != n && n != 0;
    assert n >= 64 ==> DotWithin(name, 0);
    assert name[n - 1] == first[n - 1] && name[n + 1] == rest[0] && name[|name| - 1] == rest[|rest| - 1];
  }

  lemma CutCharacters(first: string, rest: string)
    requires '.' !in first && NameShape(first + "." + rest)
    ensures forall i :: 0 <= i < |first| ==> Inner(first[i]) && first[i] != '.'
    ensures forall i :: 0 <= i < |rest| ==> Inner(rest[i]) || rest[i] == '.'
  {
    hide DotWithin, LetterOrDigit, Inner;
    var name, n := first + "." + rest, |first|;
    forall i | 0 <= i < n ensures Inner(first[i]) && first[i] != '.' {
      assert name[i] == first[i] && first[i] in first;
    }
    forall i | 0 <= i < |rest| ensures Inner(rest[i]) || rest[i] == '.' {
      assert name[n + 1 + i] == rest[i];
    }
  }

  lemma CutParts(first: string, rest: string)
    requires '.' !in first && NameShape(first + "." + rest)
    ensures NameShape(first) && NameShape(rest)
  {
    hide DotWithin, LetterOrDigit, Inner;
    CutEnds(first, rest);
    CutCharacters(first, rest);
    forall i | 0 <= i && i + 64 <= |rest| ensures DotWithin(rest, i) {
      CutWindows(first, rest, i);
    }
    forall i | 0 < i < |rest|
      ensures rest[i - 1] == '.' ==> LetterOrDigit(rest[i])
      ensures rest[i] == '.' ==> LetterOrDigit(rest[i - 1])
    {
      CutNeighbours(first, rest, i);
    }
  }

  lemma JoinWindows(first: string, rest: string, i: nat)
    requires NameShape(rest) && |first| <= 63 && i + 64 <= |first + "." + rest|
    ensures DotWithin(first + "." + rest, i)
  {
    var name := first + "." + rest;
    var n := |first|;
    if i <= n {
      assert name[n] == '.';
    } else {
      assert DotWithin(rest, i - n - 1);
      var k :| i - n - 1 <= k < i - n - 1 + 64 && rest[k] == '.';
      assert name[n + 1 + k] == '.';
    }
  }

  lemma JoinNeighbours(first: string, rest: string, i: nat)
    requires '.' !in first && NameShape(first) && NameShape(rest) && 0 < i < |first + "." + rest|
    ensures var name := first + "." + rest;
            && (name[i - 1] == '.' ==> LetterOrDigit(name[i])) && (name[i] == '.' ==> LetterOrDigit(name[i - 1]))
  {
    hide DotWithin;
    var name := first + "." + rest;
    var n := |first|;
    if i < n {
      assert name[i - 1] == first[i - 1] && name[i] == first[i] && first[i - 1] in first && first[i] in first;
    } else if i == n {
      assert name[i - 1] == first[n - 1] && first[n - 1] in first;
    } else if i == n + 1 {
      assert name[i] == rest[0];
    } else {
      assert name[i] == rest[i - n - 1] && name[i - 1] == rest[i - n - 2];
    }
  }

  lemma JoinCharacters(first: string, rest: string, i: nat)
    requires '.' !in first && NameShape(first) && NameShape(rest) && i < |first + "." + rest|
    ensures var name := first + "." + rest;
            && (Inner(name[i]) || name[i] == '.')
            && (i == 0 || i == |name| - 1 ==> LetterOrDigit(name[i]))
  {
    hide DotWithin, LetterOrDigit, Inner;
    var name, n := first + "." + rest, |first|;
    if i < n {
      assert name[i] == first[i];
    } else if i > n {
      assert name[i] == rest[i - n - 1];
    }
  }

  lemma JoinParts(first: string, rest: string)
    requires '.' !in first && NameShape(first) && NameShape(rest) && |first| <= 63
    ensures NameShape(first + "." + rest)
  {
    hide DotWithin, LetterOrDigit, Inner;
    var name := first + "." + rest;
    JoinCharacters(first, rest, 0);
    JoinCharacters(first, rest, |name| - 1);
    forall i | 0 <= i && i + 64 <= |name| ensures DotWithin(name, i) {
      JoinWindows(first, rest, i);
    }
    forall i | 0 < i < |name|
      ensures name[i - 1] == '.' ==> LetterOrDigit(name[i])
      ensures name[i] == '.' ==> LetterOrDigit(name[i - 1])
    {
      JoinNeighbours(first, rest, i);
    }
    forall i | 0 <= i < |name| ensures Inner(name[i]) || name[i] == '.' {
      JoinCharacters(first, rest, i);
    }
  }

  lemma {:induction false} LabelsShape(name: string)
    ensures (forall part <- Split(name, '.') :: ValidLabel(part)) <==> NameShape(name)
    ensures |Split(name, '.')| >= 2 <==> '.' in name
    decreases |name|
  {
    hide NameShape, ValidLabel;
    if '.' !in name {
      SplitOfLabels(name, '.');
      OneLabelShape(name);
    } else {
      var first, rest := CutAtDot(name);
      SplitAtDot(first, rest);
      LabelsShape(rest);
      CutShape(first, rest);
    }
  }

  lemma {:induction false} CutAtDot(name: string) returns (first: string, rest: string)
    requires '.' in name
    ensures '.' !in first && name == first + "." + rest && |rest| < |name|
  {
    if name[0] == '.' {
      first, rest := "", name[1..];
    } else {
      first, rest := CutAtDot(name[1..]);
      first := [name[0]] + first;
    }
  }

  /** Which host names are valid, without labels: at most 253 characters besides a left-most wildcard, with a dot. */
  lemma HostExactly(host: string)
    ensures ValidHost(host) <==>
            var name := if "*." <= host then host[2..] else host;
            |name| <= 253 && '.' in name && NameShape(name)
  {
    hide ValidLabel, Split;
    var name := if "*." <= host then host[2..] else host;
    LabelsShape(name);
    if NameShape(name) {
      forall c | c in name ensures c != '*' && c != '/' && c != ':' {
        var i :| 0 <= i < |name| && name[i] == c;
      }
    }
  }
}
