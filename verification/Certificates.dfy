/** Certificate names: which subject covers which host, which subjects a policy manages, and which stored
    certificates may be archived. */
module Certificates {
  import opened Text

  predicate Wild(name: string) {
    "*." <= name
  }

  /** The value without a suffix; None when it does not end in it. */
  function CutSuffix(s: string, suffix: string): Option<string> {
    if HasSuffix(s, suffix) then Some(s[..|s| - |suffix|]) else None
  }

  predicate Covers(subject: string, host: string) {
    var s, h := NormalizeName(subject), NormalizeName(host);
    if s == h then true
    else if !Wild(s) || Wild(h) then false
    else
      var prefix := CutSuffix(h, s[1..]);
      prefix.Some? && prefix.value != "" && '.' !in prefix.value
  }

  /** Section 6.3 of RFC 9525: a wildcard stands for exactly one complete left-most label. */
  ghost predicate Presents(subject: string, host: string) {
    subject == host
    || (Wild(subject) && !Wild(host) && exists firstLabel ::
          OneLabel(firstLabel) && host == firstLabel + subject[1..])
  }

  predicate OneLabel(text: string) {
    text != "" && '.' !in text
  }

  lemma CoversIsPresents(subject: string, host: string)
    ensures Covers(subject, host) <==> Presents(NormalizeName(subject), NormalizeName(host))
  {
    var s, h := NormalizeName(subject), NormalizeName(host);
    if Wild(s) && !Wild(h) {
      if HasSuffix(h, s[1..]) {
        var firstLabel := h[..|h| - |s[1..]|];
        assert h == firstLabel + s[1..];
      }
      if firstLabel :| OneLabel(firstLabel) && h == firstLabel + s[1..] {
        assert h[..|h| - |s[1..]|] == firstLabel && h[|h| - |s[1..]|..] == s[1..];
      }
    }
  }

  lemma PresentsTransitive(a: string, b: string, c: string)
    requires Presents(a, b) && Presents(b, c)
    ensures Presents(a, c)
  {
  }

  // ---------- Skipping individual certificates ----------

  predicate WildcardCovers(subjects: seq<string>, host: string) {
    var h := NormalizeName(host);
    h != "" && !Wild(h) && exists s <- subjects :: Wild(NormalizeName(s)) && StripsToLabel(h, NormalizeName(s)[2..])
  }

  predicate StripsToLabel(host: string, suffix: string) {
    var prefix := TrimSuffix(host, "." + suffix);
    prefix != host && OneLabel(prefix)
  }

  method WildcardCertificateCoversHost(subjects: seq<string>, host: string) returns (covers: bool)
    ensures covers == WildcardCovers(subjects, host)
  {
    hide StripsToLabel, NormalizeName;
    var h := NormalizeName(host);
    if h == "" || Wild(h) {
      return false;
    }
    for i := 0 to |subjects|
      invariant forall k :: 0 <= k < i ==>
                              !(Wild(NormalizeName(subjects[k])) && StripsToLabel(h, NormalizeName(subjects[k])[2..]))
    {
      var subject := NormalizeName(subjects[i]);
      if Wild(subject) && StripsToLabel(h, subject[2..]) {
        assert subjects[i] in subjects;
        return true;
      }
    }
    return false;
  }

  lemma StripIsCut(s: string, h: string)
    requires Wild(s) && !Wild(h)
    ensures StripsToLabel(h, s[2..]) <==> CutSuffix(h, s[1..]).Some? && OneLabel(CutSuffix(h, s[1..]).value)
  {
    assert s[1..] == "." + s[2..];
  }

  /** The renderer's test for skipping a certificate agrees with the policy's notion of coverage. */
  lemma SkippingAgreesWithCovers(subjects: seq<string>, host: string)
    ensures WildcardCovers(subjects, host) <==>
            !Wild(NormalizeName(host)) && exists s <- subjects :: Wild(NormalizeName(s)) && Covers(s, host)
  {
    hide StripsToLabel, NormalizeName, CutSuffix;
    var h := NormalizeName(host);
    if !Wild(h) {
      forall s | s in subjects && Wild(NormalizeName(s))
        ensures StripsToLabel(h, NormalizeName(s)[2..]) <==> Covers(s, host)
      {
        StripIsCut(NormalizeName(s), h);
      }
      if s :| s in subjects && Wild(NormalizeName(s)) && Covers(s, host) {
        EmptyIsNotCovered(s, host);
      }
    }
  }

  lemma EmptyIsNotCovered(s: string, host: string)
    requires Wild(NormalizeName(s)) && Covers(s, host)
    ensures NormalizeName(host) != ""
  {
  }

  // ---------- Managed subjects ----------

  predicate CoveredByOther(all: seq<string>, subject: string) {
    exists w <- all :: NormalizeName(w) != subject && Covers(w, subject)
  }

  predicate Normal(names: seq<string>) {
    forall n <- names :: NormalizeName(n) == n
  }

  predicate Kept(all: seq<string>, explicit: seq<string>, subject: string) {
    !CoveredByOther(all, subject) || subject in explicit
  }

  function Pruned(all: seq<string>, explicit: seq<string>, n: nat): seq<string>
    requires n <= |all|
  {
    if n == 0 then []
    else
      var subject := NormalizeName(all[n - 1]);
      Pruned(all, explicit, n - 1) + if Kept(all, explicit, subject) then [subject] else []
  }

  method PruneSubjects(all: seq<string>, explicit: seq<string>) returns (managed: seq<string>)
    ensures managed == Pruned(all, explicit, |all|)
  {
    hide NormalizeName, Covers;
    managed := [];
    for i := 0 to |all|
      invariant managed == Pruned(all, explicit, i)
    {
      var subject := NormalizeName(all[i]);
      var covered := false;
      for k := 0 to |all|
        invariant covered == exists w <- all[..k] :: NormalizeName(w) != subject && Covers(w, subject)
      {
        assert all[..k + 1] == all[..k] + [all[k]];
        if NormalizeName(all[k]) != subject && Covers(all[k], subject) {
          covered := true;
        }
      }
      assert all[..|all|] == all;
      if !covered || subject in explicit {
        managed := managed + [subject];
      }
    }
  }

  lemma {:induction false} PrunedMembers(all: seq<string>, explicit: seq<string>, n: nat, x: string)
    requires n <= |all|
    ensures x in Pruned(all, explicit, n) <==>
            exists k :: 0 <= k < n && x == NormalizeName(all[k]) && Kept(all, explicit, x)
  {
    hide NormalizeName, Kept;
    if n > 0 {
      PrunedMembers(all, explicit, n - 1, x);
    }
  }

  /** A wildcard is covered by no other subject. */
  lemma WildcardsStayWild(all: seq<string>, subject: string)
    requires Normal(all) && NormalizeName(subject) == subject && Wild(subject)
    ensures !CoveredByOther(all, subject)
  {
    hide NormalizeName;
  }

  /** Pruning loses no coverage, and what it keeps besides the explicit subjects is covered by nothing else. */
  lemma PruningKeepsCoverage(all: seq<string>, explicit: seq<string>, host: string)
    requires Normal(all)
    ensures (exists s <- all :: Covers(s, host)) <==> exists s <- Pruned(all, explicit, |all|) :: Covers(s, host)
    ensures forall s <- Pruned(all, explicit, |all|) ::
              s in all && (s in explicit || !CoveredByOther(Pruned(all, explicit, |all|), s))
  {
    hide NormalizeName, Covers, Pruned;
    var kept := Pruned(all, explicit, |all|);
    forall s | s in kept ensures s in all && (s in explicit || !CoveredByOther(kept, s)) {
      PrunedMembers(all, explicit, |all|, s);
      if CoveredByOther(kept, s) {
        var w :| w in kept && NormalizeName(w) != s && Covers(w, s);
        PrunedMembers(all, explicit, |all|, w);
        assert w in all;
      }
    }
    forall s | s in all && Covers(s, host) ensures exists t <- kept :: Covers(t, host) {
      var k :| 0 <= k < |all| && all[k] == s;
      if Kept(all, explicit, s) {
        PrunedMembers(all, explicit, |all|, s);
      } else {
        var w :| w in all && NormalizeName(w) != s && Covers(w, s);
        KeptWildcard(all, explicit, w, s);
        ChainOfCover(w, s, host);
      }
    }
  }

  lemma KeptWildcard(all: seq<string>, explicit: seq<string>, w: string, s: string)
    requires Normal(all) && w in all && s in all && w != s && Covers(w, s)
    ensures w in Pruned(all, explicit, |all|)
  {
    hide NormalizeName, Pruned;
    assert Wild(w);
    WildcardsStayWild(all, w);
    var k :| 0 <= k < |all| && all[k] == w;
    PrunedMembers(all, explicit, |all|, w);
  }

  lemma ChainOfCover(a: string, b: string, c: string)
    requires Covers(a, b) && Covers(b, c)
    ensures Covers(a, c)
  {
    hide NormalizeName, Presents, Covers;
    CoversIsPresents(a, b);
    CoversIsPresents(b, c);
    CoversIsPresents(a, c);
    PresentsTransitive(NormalizeName(a), NormalizeName(b), NormalizeName(c));
  }

  // ---------- Archiving ----------

  datatype Usage = Managed | Covered | Unreferenced

  datatype Status = Status(subjects: seq<string>, usage: Usage, coveredBy: seq<string>, canArchive: bool)

  predicate InUse(subjects: seq<string>, managed: seq<string>) {
    exists s <- subjects, m <- managed :: Covers(s, m)
  }

  predicate Replaces(subjects: seq<string>, managed: seq<string>, m: string) {
    m in managed && exists s <- subjects :: Covers(m, s) && !Covers(s, m)
  }

  /** Usage, covering subjects and the archive decision of one certificate. */
  ghost predicate Classified(before: Status, after: Status, managed: seq<string>, verified: bool, warnings: bool) {
    && after.subjects == before.subjects
    && (after.usage ==
        if InUse(after.subjects, managed) then Managed else if after.coveredBy != [] then Covered else Unreferenced)
    && (forall m :: m in after.coveredBy <==> Replaces(after.subjects, managed, m)) && StrictlySorted(after.coveredBy)
    && (after.canArchive <==> verified && !InUse(after.subjects, managed) && after.subjects != [] && !warnings)
  }

  /** Classifies each stored certificate against the managed subjects. */
  method Classify(
    certificates: seq<Status>, managed: seq<string>, verified: bool, warnings: bool)
    returns (out: seq<Status>)
    ensures |out| == |certificates|
    ensures forall i :: 0 <= i < |out| ==> Classified(certificates[i], out[i], managed, verified, warnings)
  {
    hide Classified;
    out := certificates;
    for i := 0 to |certificates|
      invariant |out| == |certificates|
      invariant forall k :: i <= k < |out| ==> out[k] == certificates[k]
      invariant forall k :: 0 <= k < i ==> Classified(certificates[k], out[k], managed, verified, warnings)
    {
      var status := ClassifyOne(certificates[i], managed, verified, warnings);
      out := out[i := status];
    }
  }

  method ClassifyOne(certificate: Status, managed: seq<string>, verified: bool, warnings: bool) returns (status: Status)
    ensures Classified(certificate, status, managed, verified, warnings)
  {
    hide Covers, SortedNames, StrictlySorted;
    var usage, coveredBy := Unreferenced, [];
    var subjects := certificate.subjects;
    for i := 0 to |subjects|
      invariant usage == if InUse(subjects[..i], managed) then Managed else Unreferenced
      invariant forall m :: m in coveredBy <==> Replaces(subjects[..i], managed, m)
    {
      ghost var before, known := usage, coveredBy;
      for k := 0 to |managed|
        invariant usage == if before == Managed || InUse([subjects[i]], managed[..k]) then Managed else Unreferenced
        invariant forall m :: m in coveredBy <==> m in known || Replaces([subjects[i]], managed[..k], m)
      {
        assert managed[..k + 1] == managed[..k] + [managed[k]];
        if Covers(subjects[i], managed[k]) {
          usage := Managed;
        } else if Covers(managed[k], subjects[i]) {
          coveredBy := coveredBy + [managed[k]];
        }
      }
      assert managed[..|managed|] == managed;
      assert subjects[..i + 1] == subjects[..i] + [subjects[i]];
    }
    assert subjects[..|subjects|] == subjects;
    if usage != Managed && |coveredBy| > 0 {
      usage := Covered;
    }
    SortedNamesShape(coveredBy);
    var sorted := SortedNames(coveredBy);
    if |coveredBy| > 0 {
      assert coveredBy[0] in sorted;
    }
    if |sorted| > 0 {
      assert sorted[0] in coveredBy;
    }
    coveredBy := sorted;
    status := Status(subjects, usage, coveredBy, verified && usage != Managed && |subjects| > 0 && !warnings);
  }

  /** A certificate may be archived if the policy is verified, nothing was wrong while reading the certificates, it has
      subjects and none of them covers a managed name; it is in use, replaceable or neither by the same coverage. */
  lemma ArchiveDecision(before: Status, after: Status, managed: seq<string>, verified: bool, warnings: bool)
    requires Classified(before, after, managed, verified, warnings)
    ensures after.subjects == before.subjects
    ensures after.canArchive <==>
            && verified && !warnings && before.subjects != []
            && forall s <- before.subjects, m <- managed :: !Covers(s, m)
    ensures after.usage == Managed <==> exists s <- before.subjects, m <- managed :: Covers(s, m)
    ensures after.usage == Covered <==>
            && (forall s <- before.subjects, m <- managed :: !Covers(s, m))
            && exists s <- before.subjects, m <- managed :: Covers(m, s)
    ensures forall m :: m in after.coveredBy <==>
                        m in managed && exists s <- before.subjects :: Covers(m, s) && !Covers(s, m)
  {
    hide Covers, StrictlySorted;
    if s, m :| s in before.subjects && m in managed && Covers(m, s) && !InUse(before.subjects, managed) {
      assert Replaces(before.subjects, managed, m);
    }
    if after.coveredBy != [] {
      assert after.coveredBy[0] in after.coveredBy;
    }
  }

  /** Two subjects for one host: the same, or one of them is the host itself. */
  lemma SubjectsOfOneHost(a: string, b: string, host: string)
    requires Presents(a, host) && Presents(b, host)
    ensures a == b || (a == host && Presents(b, a)) || (b == host && Presents(a, b))
  {
    if a != host && b != host {
      var x :| OneLabel(x) && host == x + a[1..];
      var y :| OneLabel(y) && host == y + b[1..];
      FirstDot(x, a[1..]);
      FirstDot(y, b[1..]);
      assert a[1..] == host[|x|..] && b[1..] == host[|y|..];
      assert a == [a[0]] + a[1..] && b == [b[0]] + b[1..];
    }
  }

  lemma FirstDot(firstLabel: string, rest: string)
    requires OneLabel(firstLabel) && "." <= rest
    ensures (firstLabel + rest)[|firstLabel|] == '.'
    ensures forall k :: 0 <= k < |firstLabel| ==> (firstLabel + rest)[k] != '.'
  {
    forall k | 0 <= k < |firstLabel| ensures (firstLabel + rest)[k] != '.' {
      assert firstLabel[k] in firstLabel;
    }
  }

  /** Archiving leaves no gap: a host that a certificate not in use covers, and some managed subject covers too, is
      covered by a managed subject that is listed as replacing one of the certificate's own. */
  lemma ReplacedWhereCovered(subjects: seq<string>, managed: seq<string>, host: string, s: string, m: string)
    requires !InUse(subjects, managed) && s in subjects && Covers(s, host) && m in managed && Covers(m, host)
    ensures Replaces(subjects, managed, m)
  {
    hide NormalizeName, Presents, Covers;
    CoversIsPresents(s, host);
    CoversIsPresents(m, host);
    CoversIsPresents(s, m);
    CoversIsPresents(m, s);
    SubjectsOfOneHost(NormalizeName(s), NormalizeName(m), NormalizeName(host));
    PresentsItself(NormalizeName(s));
  }

  lemma PresentsItself(name: string)
    ensures Presents(name, name)
  {
  }

  /** What archiving guarantees. Every served name that an archivable certificate covers stays covered by a managed
      subject which its status lists, although pruning may have dropped the name itself. */
  lemma ArchivingKeepsCoverage(
    before: Status, after: Status, all: seq<string>, explicit: seq<string>, verified: bool, warnings: bool, h: string)
    requires Normal(all) && h in all
    requires Classified(before, after, SortedNames(Pruned(all, explicit, |all|)), verified, warnings)
    requires after.canArchive
    requires exists s <- after.subjects :: Covers(s, h)
    ensures exists m <- after.coveredBy :: m in Pruned(all, explicit, |all|) && Covers(m, h)
  {
    hide NormalizeName, Covers, Pruned, InUse, Replaces, SortedNames, StrictlySorted;
    var kept := Pruned(all, explicit, |all|);
    SortedNamesShape(kept);
    var s :| s in after.subjects && Covers(s, h);
    assert Covers(h, h) by {
      CoversItself(h);
    }
    PruningKeepsCoverage(all, explicit, h);
    var m :| m in kept && Covers(m, h);
    ReplacedWhereCovered(after.subjects, SortedNames(kept), h, s, m);
  }

  lemma CoversItself(host: string)
    ensures Covers(host, host)
  {
  }
}
