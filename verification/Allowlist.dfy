/** proxy/allowlist.go: domain patterns with * and ** labels, entry validation
    and parsing, and the rules an allowlist applies. */
module Allowlist {
  import opened Basics

  // ----- Strings ----------------------------------------------------------

  function LowerChar(c: char): char {
    if 'A' <= c <= 'Z' then ((c as int) + 32) as char else c
  }

  function Lower(s: string): string { seq(|s|, k requires 0 <= k < |s| => LowerChar(s[k])) }

  /** strings.Split(s, "."): always at least one label. */
  function Split(s: string): (labels: seq<string>)
    ensures |labels| > 0
  {
    if s == "" then [""]
    else
      var rest := Split(s[1..]);
      if s[0] == '.' then [""] + rest else [[s[0]] + rest[0]] + rest[1..]
  }

  /** strings.LastIndex(s, ":"), or -1. */
  function LastColon(s: string): int {
    if s == "" then -1
    else if s[|s| - 1] == ':' then |s| - 1
    else LastColon(s[..|s| - 1])
  }

  lemma {:induction false} LastColonIs(s: string)
    ensures var i := LastColon(s);
      -1 <= i < |s| && (i >= 0 ==> s[i] == ':') && forall k :: i < k < |s| ==> s[k] != ':'
  {
    if s != "" && s[|s| - 1] != ':' { LastColonIs(s[..|s| - 1]); }
  }

  // ----- Patterns ---------------------------------------------------------

  datatype Pattern = Pattern(labels: seq<string>, doubleStar: int)

  /** Index of the first ** label, or -1. */
  function DoubleStarAt(labels: seq<string>): (i: int)
    ensures -1 <= i < |labels|
    ensures i >= 0 ==> labels[i] == "**"
    ensures forall k :: 0 <= k < (if i < 0 then |labels| else i) ==> labels[k] != "**"
  {
    if labels == [] then -1
    else if labels[0] == "**" then 0
    else
      var r := DoubleStarAt(labels[1..]);
      if r < 0 then -1 else r + 1
  }

  function Parsed(pattern: string): Pattern {
    if pattern == "" then Pattern([], -1)
    else var labels := Split(Lower(pattern)); Pattern(labels, DoubleStarAt(labels))
  }

  method ParseDomainPattern(pattern: string) returns (p: Pattern)
    ensures p == Parsed(pattern)
  {
    if pattern == "" { return Pattern([], -1); }
    var labels := Split(Lower(pattern));
    var idx := 0;
    while idx < |labels| && labels[idx] != "**"
      invariant 0 <= idx <= |labels|
      invariant forall k :: 0 <= k < idx ==> labels[k] != "**"
    {
      idx := idx + 1;
    }
    var found := DoubleStarAt(labels);
    p := Pattern(labels, if idx < |labels| then idx else -1);
    assert if idx < |labels| then found == idx else found == -1;
  }

  predicate LabelMatches(pattern: string, part: string) { pattern == "*" || pattern == part }

  // ----- What a match means -----------------------------------------------

  /** Label by label. */
  ghost predicate Labelwise(pattern: seq<string>, host: seq<string>) {
    |pattern| == |host| && forall k :: 0 <= k < |pattern| ==> pattern[k] == "*" || pattern[k] == host[k]
  }

  function Stars(k: nat): seq<string> { seq(k, _ => "*") }

  /** The pattern with its ** label replaced by k copies of *. */
  function Unfold(labels: seq<string>, at: int, k: nat): seq<string>
    requires -1 <= at < |labels|
  {
    if at < 0 then labels else labels[..at] + Stars(k) + labels[at + 1..]
  }

  ghost predicate FitsWith(labels: seq<string>, at: int, host: seq<string>, k: nat)
    requires -1 <= at < |labels|
  {
    k >= 1 && Labelwise(Unfold(labels, at, k), host)
  }

  /** Some number k >= 1 of * labels in place of ** makes the pattern fit. */
  ghost predicate MatchesSpec(p: Pattern, host: string)
    requires p.labels == [] || -1 <= p.doubleStar < |p.labels|
  {
    p.labels != [] && exists k :: FitsWith(p.labels, p.doubleStar, Split(Lower(host)), k)
  }

  /** One loop over labels, as the code compares a prefix or a suffix. */
  method AllMatch(pattern: seq<string>, host: seq<string>) returns (ok: bool)
    requires |pattern| == |host|
    ensures ok <==> Labelwise(pattern, host)
  {
    var i := 0;
    while i < |pattern|
      invariant 0 <= i <= |pattern|
      invariant forall k :: 0 <= k < i ==> pattern[k] == "*" || pattern[k] == host[k]
    {
      if !LabelMatches(pattern[i], host[i]) { return false; }
      i := i + 1;
    }
    return true;
  }

  /** The length test and the two slice comparisons of the code. */
  ghost predicate Ends(labels: seq<string>, at: nat, host: seq<string>)
    requires at < |labels|
  {
    && |host| >= |labels|
    && Labelwise(labels[..at], host[..at])
    && Labelwise(labels[at + 1..], host[|host| - (|labels| - at - 1)..])
  }

  lemma EndsSuffice(labels: seq<string>, at: nat, host: seq<string>)
    requires at < |labels| && Ends(labels, at, host)
    ensures FitsWith(labels, at, host, |host| - |labels| + 1)
  {
    var k, tail := |host| - |labels| + 1, |labels| - at - 1;
    var u := Unfold(labels, at, k);
    forall j | 0 <= j < |u| ensures u[j] == "*" || u[j] == host[j] {
      if j < at {
        assert u[j] == labels[..at][j] && host[j] == host[..at][j];
      } else if j >= at + k {
        assert u[j] == labels[at + 1..][j - at - k] && host[j] == host[|host| - tail..][j - at - k];
      }
    }
  }

  lemma EndsNeeded(labels: seq<string>, at: nat, host: seq<string>, k: nat)
    requires at < |labels| && FitsWith(labels, at, host, k)
    ensures Ends(labels, at, host)
  {
    var u, tail := Unfold(labels, at, k), |labels| - at - 1;
    forall j | 0 <= j < at ensures labels[..at][j] == "*" || labels[..at][j] == host[..at][j] {
      assert u[j] == labels[j] && (u[j] == "*" || u[j] == host[j]);
    }
    var ls, hs := labels[at + 1..], host[|host| - tail..];
    forall j | 0 <= j < tail ensures ls[j] == "*" || ls[j] == hs[j] {
      assert u[at + k + j] == labels[at + 1 + j] && (u[at + k + j] == "*" || u[at + k + j] == host[at + k + j]);
    }
  }

  /** The index arithmetic decides exactly whether some unfolding fits. */
  lemma EndsDecide(labels: seq<string>, at: nat, host: seq<string>)
    requires at < |labels|
    ensures Ends(labels, at, host) <==> exists k :: FitsWith(labels, at, host, k)
  {
    if Ends(labels, at, host) { EndsSuffice(labels, at, host); }
    if k :| FitsWith(labels, at, host, k) { EndsNeeded(labels, at, host, k); }
  }

  /** Without ** there is nothing to unfold. */
  lemma PlainDecides(labels: seq<string>, host: seq<string>)
    requires labels != []
    ensures Labelwise(labels, host) <==> exists k :: FitsWith(labels, -1, host, k)
  {
    if Labelwise(labels, host) { assert FitsWith(labels, -1, host, 1); }
  }

  /** The length test, then the prefix, then the suffix. */
  method EndsMatch(labels: seq<string>, at: nat, host: seq<string>) returns (ok: bool)
    requires at < |labels|
    ensures ok <==> Ends(labels, at, host)
  {
    var prefix, suffix := labels[..at], labels[at + 1..];
    if |host| < |prefix| + |suffix| + 1 { return false; }
    var first := AllMatch(prefix, host[..|prefix|]);
    if !first { return false; }
    ok := AllMatch(suffix, host[|host| - |suffix|..]);
  }

  /** matches: for every parsed pattern, the index arithmetic decides whether
      replacing ** by one or more * labels gives a label-by-label match. The
      empty host is refused outright. */
  method Matches(p: Pattern, host: string) returns (ok: bool)
    requires p.labels == [] || (-1 <= p.doubleStar < |p.labels|)
    ensures ok <==> host != "" && MatchesSpec(p, host)
  {
    if |p.labels| == 0 || host == "" { return false; }
    var hostLabels := Split(Lower(host));
    if p.doubleStar >= 0 {
      EndsDecide(p.labels, p.doubleStar, hostLabels);
      ok := EndsMatch(p.labels, p.doubleStar, hostLabels);
      return;
    }
    PlainDecides(p.labels, hostLabels);
    if |p.labels| != |hostLabels| { return false; }
    ok := AllMatch(p.labels, hostLabels);
  }

  // ----- Validation -------------------------------------------------------

  predicate ValidLabel(l: string) { l != "" && (l == "**" || l == "*" || '*' !in l) }

  /** Labels are non-empty and use stars only alone; ** occurs at most once; the
      pattern is more than a bare star. */
  ghost predicate ValidDomain(domain: string) {
    var labels := Split(domain);
    && domain != ""
    && (forall k :: 0 <= k < |labels| ==> ValidLabel(labels[k]))
    && (forall i, j :: 0 <= i < j < |labels| ==> labels[i] != "**" || labels[j] != "**")
    && !(|labels| == 1 && (labels[0] == "*" || labels[0] == "**"))
  }

  method ValidateDomainPattern(domain: string) returns (ok: bool)
    ensures ok <==> ValidDomain(domain)
  {
    if domain == "" { return false; }
    var labels := Split(domain);
    var doubleStars := 0;
    ghost var first := 0;
    for i := 0 to |labels|
      invariant forall k :: 0 <= k < i ==> ValidLabel(labels[k])
      invariant doubleStars == 0 ==> forall k :: 0 <= k < i ==> labels[k] != "**"
      invariant doubleStars >= 1 ==> 0 <= first < i && labels[first] == "**"
      invariant doubleStars == 1 ==> forall k :: 0 <= k < i && k != first ==> labels[k] != "**"
      invariant doubleStars >= 2 ==> exists k :: 0 <= k < i && k != first && labels[k] == "**"
      invariant doubleStars >= 0
    {
      var l := labels[i];
      if l == "" { return false; }
      if l == "**" {
        if doubleStars == 0 { first := i; }
        doubleStars := doubleStars + 1;
      } else if l != "*" && '*' in l {
        return false;
      }
    }
    if doubleStars > 1 { return false; }
    if |labels| == 1 && (labels[0] == "*" || labels[0] == "**") { return false; }
    return true;
  }

  // ----- What matching means for validated patterns -----------------------

  function LowerAll(labels: seq<string>): seq<string> {
    seq(|labels|, k requires 0 <= k < |labels| => Lower(labels[k]))
  }

  lemma LowerCons(c: char, t: string)
    ensures Lower([c] + t) == [LowerChar(c)] + Lower(t)
  {
  }

  lemma LowerAllCons(l: string, rest: seq<string>)
    ensures LowerAll([l] + rest) == [Lower(l)] + LowerAll(rest)
  {
  }

  lemma SplitCons(c: char, t: string)
    ensures Split([c] + t) == if c == '.' then [""] + Split(t) else [[c] + Split(t)[0]] + Split(t)[1..]
  {
    assert ([c] + t)[1..] == t;
  }

  /** Lowercasing commutes with splitting. */
  lemma {:induction false} SplitLower(s: string)
    ensures Split(Lower(s)) == LowerAll(Split(s))
  {
    if s == "" {
      assert LowerAll([""]) == [""] && Lower(s) == "";
    } else {
      var c, t, rest := s[0], s[1..], Split(s[1..]);
      assert s == [c] + t && rest == [rest[0]] + rest[1..];
      LowerCons(c, t);
      SplitLower(t);
      SplitCons(LowerChar(c), Lower(t));
      if c == '.' {
        LowerAllCons("", rest);
        assert Lower("") == "";
      } else {
        LowerAllCons(rest[0], rest[1..]);
        LowerAllCons([c] + rest[0], rest[1..]);
        LowerCons(c, rest[0]);
      }
    }
  }

  lemma {:induction false} SingleLabel(s: string)
    requires |Split(s)| == 1
    ensures Split(s)[0] == s
  {
    if s != "" && s[0] != '.' { SingleLabel(s[1..]); }
  }

  lemma LowerStars(l: string)
    ensures Lower(l) == "**" <==> l == "**"
    ensures Lower(l) == "*" <==> l == "*"
  {
    if |l| == 1 { assert Lower(l)[0] == LowerChar(l[0]); }
    if |l| == 2 { assert Lower(l)[0] == LowerChar(l[0]) && Lower(l)[1] == LowerChar(l[1]); }
  }

  /** In a validated pattern only the label at doubleStar is **. */
  lemma OnlyDoubleStar(pattern: string, j: nat)
    requires ValidDomain(pattern) && j < |Parsed(pattern).labels|
    ensures Parsed(pattern).labels[j] == "**" <==> j == Parsed(pattern).doubleStar
  {
    SplitLower(pattern);
    var p, labels := Parsed(pattern), Split(pattern);
    LowerStars(labels[j]);
    if p.doubleStar >= 0 { LowerStars(labels[p.doubleStar]); }
  }

  lemma UnfoldAt(labels: seq<string>, at: int, k: nat, i: nat)
    requires -1 <= at < |labels| && i < |Unfold(labels, at, k)|
    ensures Unfold(labels, at, k)[i] ==
      if at < 0 || i < at then labels[i] else if i < at + k then "*" else labels[i - k + 1]
  {
  }

  /** Unfolding a validated pattern leaves no ** behind: the result is an ordinary
      pattern of literal labels and * labels. */
  lemma UnfoldsToPlain(pattern: string, k: nat, i: nat)
    requires ValidDomain(pattern)
    requires var p := Parsed(pattern); i < |Unfold(p.labels, p.doubleStar, k)|
    ensures var p := Parsed(pattern); Unfold(p.labels, p.doubleStar, k)[i] != "**"
  {
    var p := Parsed(pattern);
    UnfoldAt(p.labels, p.doubleStar, k, i);
    if p.doubleStar < 0 || i < p.doubleStar {
      OnlyDoubleStar(pattern, i);
    } else if p.doubleStar + k <= i {
      OnlyDoubleStar(pattern, i - k + 1);
    }
  }

  /** c and d are the same letter, or the same character. */
  predicate SameLetter(c: char, d: char) {
    c == d || ('A' <= c <= 'Z' && d as int == c as int + 32) || ('A' <= d <= 'Z' && c as int == d as int + 32)
  }

  ghost predicate SameButCase(a: string, b: string) {
    |a| == |b| && forall k :: 0 <= k < |a| ==> SameLetter(a[k], b[k])
  }

  lemma FoldsTogether(a: string, b: string)
    requires SameButCase(a, b)
    ensures Lower(a) == Lower(b)
  {
    forall k | 0 <= k < |a| ensures LowerChar(a[k]) == LowerChar(b[k]) { assert SameLetter(a[k], b[k]); }
  }

  /** Letter case never matters, in the pattern or in the host. */
  lemma CaseNeverMatters(p: string, p': string, host: string, host': string)
    requires SameButCase(p, p') && SameButCase(host, host')
    ensures Parsed(p) == Parsed(p')
    ensures MatchesSpec(Parsed(p), host) <==> MatchesSpec(Parsed(p'), host')
  {
    FoldsTogether(p, p');
    FoldsTogether(host, host');
  }

  /** And nothing else is blurred: what lowercases alike differs only in case. */
  lemma OnlyCaseFolds(a: string, b: string)
    requires Lower(a) == Lower(b)
    ensures SameButCase(a, b)
  {
    assert |a| == |Lower(a)| == |Lower(b)| == |b|;
    forall k | 0 <= k < |a| ensures SameLetter(a[k], b[k]) {
      assert LowerChar(a[k]) == Lower(a)[k] == Lower(b)[k] == LowerChar(b[k]);
    }
  }

  /** The labels put together again with dots. */
  function JoinDots(labels: seq<string>): string
    requires labels != []
  {
    if |labels| == 1 then labels[0] else labels[0] + "." + JoinDots(labels[1..])
  }

  /** Split cuts exactly at the dots. */
  lemma {:induction false} SplitCuts(s: string)
    ensures JoinDots(Split(s)) == s
    ensures forall k :: 0 <= k < |Split(s)| ==> '.' !in Split(s)[k]
  {
    if s != "" {
      var rest := Split(s[1..]);
      SplitCuts(s[1..]);
      assert s == [s[0]] + s[1..];
      if s[0] == '.' {
        assert ([""] + rest)[1..] == rest && "" + "." + s[1..] == s;
      } else if |rest| > 1 {
        assert Split(s)[1..] == rest[1..];
        assert [s[0]] + rest[0] + "." + JoinDots(rest[1..]) == [s[0]] + (rest[0] + "." + JoinDots(rest[1..]));
      }
    }
  }

  /** A host of one label is matched only by that same literal label, and the
      empty host by no validated pattern. */
  lemma OneLabelHost(pattern: string, host: string)
    requires ValidDomain(pattern) && |Split(host)| == 1 && MatchesSpec(Parsed(pattern), host)
    ensures SameButCase(pattern, host) && host != ""
  {
    SplitLower(host);
    SplitLower(pattern);
    var p, labels := Parsed(pattern), Split(pattern);
    var k :| FitsWith(p.labels, p.doubleStar, Split(Lower(host)), k);
    assert |Unfold(p.labels, p.doubleStar, k)| == 1;
    assert |labels| == 1 && ValidLabel(labels[0]);
    LowerStars(labels[0]);
    SingleLabel(Lower(pattern));
    SingleLabel(Lower(host));
    SingleLabel(pattern);
    assert p.labels[0] == "*" || p.labels[0] == Lower(host);
    OnlyCaseFolds(pattern, host);
  }

  // ----- What matching means, in terms of the strings ---------------------

  /** The labels with every ** replaced by k copies of *. */
  function Expanded(labels: seq<string>, k: nat): seq<string> {
    if labels == [] then []
    else (if labels[0] == "**" then Stars(k) else [labels[0]]) + Expanded(labels[1..], k)
  }

  /** Label by label and in order, whatever the case, * standing for any label. */
  ghost predicate Fits(pattern: seq<string>, host: seq<string>) {
    |pattern| == |host| && forall i :: 0 <= i < |pattern| ==> pattern[i] == "*" || SameButCase(pattern[i], host[i])
  }

  /** The pattern covers the host: ** stands for one or more labels, * for one. */
  ghost predicate Covers(pattern: string, host: string) {
    exists k :: 1 <= k && Fits(Expanded(Split(pattern), k), Split(host))
  }

  lemma {:induction false} ExpandedPlain(labels: seq<string>, k: nat)
    requires forall i :: 0 <= i < |labels| ==> labels[i] != "**"
    ensures Expanded(labels, k) == labels
  {
    if labels != [] { ExpandedPlain(labels[1..], k); }
  }

  lemma {:induction false} ExpandedAppend(a: seq<string>, b: seq<string>, k: nat)
    ensures Expanded(a + b, k) == Expanded(a, k) + Expanded(b, k)
  {
    if a == [] {
      assert a + b == b;
    } else {
      assert (a + b)[1..] == a[1..] + b;
      ExpandedAppend(a[1..], b, k);
      AppendAssoc(if a[0] == "**" then Stars(k) else [a[0]], Expanded(a[1..], k), Expanded(b, k));
    }
  }

  /** With one ** at most, replacing it where it stands is replacing all of them. */
  lemma ExpandedIsUnfolded(labels: seq<string>, at: int, k: nat)
    requires -1 <= at < |labels| && forall j :: 0 <= j < |labels| ==> (labels[j] == "**" <==> j == at)
    ensures Expanded(labels, k) == Unfold(labels, at, k)
  {
    if at < 0 {
      ExpandedPlain(labels, k);
    } else {
      var a, b := labels[..at], labels[at + 1..];
      assert labels == a + (["**"] + b) && (["**"] + b)[1..] == b;
      ExpandedPlain(a, k);
      ExpandedPlain(b, k);
      ExpandedAppend(a, ["**"] + b, k);
      AppendAssoc(a, Stars(k), b);
    }
  }

  lemma {:induction false} ExpandedLower(labels: seq<string>, k: nat)
    ensures Expanded(LowerAll(labels), k) == LowerAll(Expanded(labels, k))
  {
    if labels != [] {
      var head := if labels[0] == "**" then Stars(k) else [labels[0]];
      assert LowerAll(labels)[1..] == LowerAll(labels[1..]);
      LowerStars(labels[0]);
      assert Lower("*") == "*";
      assert LowerAll(head) == if labels[0] == "**" then Stars(k) else [Lower(labels[0])];
      ExpandedLower(labels[1..], k);
      LowerAllAppend(head, Expanded(labels[1..], k));
    }
  }

  lemma LowerAllAppend(a: seq<string>, b: seq<string>)
    ensures LowerAll(a + b) == LowerAll(a) + LowerAll(b)
  {
  }

  lemma FitsIsLabelwise(pattern: seq<string>, host: seq<string>)
    ensures Labelwise(LowerAll(pattern), LowerAll(host)) <==> Fits(pattern, host)
  {
    if |pattern| == |host| {
      forall i | 0 <= i < |pattern|
        ensures (LowerAll(pattern)[i] == "*" || LowerAll(pattern)[i] == LowerAll(host)[i]) <==>
          (pattern[i] == "*" || SameButCase(pattern[i], host[i]))
      {
        LowerStars(pattern[i]);
        if Lower(pattern[i]) == Lower(host[i]) { OnlyCaseFolds(pattern[i], host[i]); }
        if SameButCase(pattern[i], host[i]) { FoldsTogether(pattern[i], host[i]); }
      }
    }
  }

  lemma CoversWith(pattern: string, host: string, k: nat)
    requires ValidDomain(pattern)
    ensures var p := Parsed(pattern);
      Labelwise(Unfold(p.labels, p.doubleStar, k), Split(Lower(host))) <==>
        Fits(Expanded(Split(pattern), k), Split(host))
  {
    var p := Parsed(pattern);
    SplitLower(pattern);
    SplitLower(host);
    forall j | 0 <= j < |p.labels| ensures p.labels[j] == "**" <==> j == p.doubleStar { OnlyDoubleStar(pattern, j); }
    ExpandedIsUnfolded(p.labels, p.doubleStar, k);
    ExpandedLower(Split(pattern), k);
    FitsIsLabelwise(Expanded(Split(pattern), k), Split(host));
  }

  /** For every validated pattern, matching decides exactly whether the pattern covers
      the host. */
  lemma MatchMeans(pattern: string, host: string)
    requires ValidDomain(pattern)
    ensures MatchesSpec(Parsed(pattern), host) <==> Covers(pattern, host)
  {
    var p := Parsed(pattern);
    if k :| FitsWith(p.labels, p.doubleStar, Split(Lower(host)), k) { CoversWith(pattern, host, k); }
    if k :| 1 <= k && Fits(Expanded(Split(pattern), k), Split(host)) {
      CoversWith(pattern, host, k);
      assert FitsWith(p.labels, p.doubleStar, Split(Lower(host)), k);
    }
  }

  // ----- Entries and rules ------------------------------------------------

  datatype Rule = Rule(domain: Pattern, port: string)

  predicate IsPort(port: string) {
    port == "*" || (port != "" && forall k :: 0 <= k < |port| ==> '0' <= port[k] <= '9')
  }

  /** entry is domain:port, both parts well formed. */
  ghost predicate EntryParts(entry: string, domain: string, port: string) {
    entry == domain + ":" + port && PartsOk(domain, port)
  }

  ghost predicate PartsOk(domain: string, port: string) {
    ValidDomain(domain) && ':' !in domain && ' ' !in domain && IsPort(port)
  }

  lemma LastColonUnique(s: string, i: nat)
    requires i < |s| && s[i] == ':' && forall k :: i < k < |s| ==> s[k] != ':'
    ensures LastColon(s) == i
  {
    LastColonIs(s);
  }

  /** Cutting a + ":" + b at its middle. */
  lemma CutAtColon(a: string, b: string)
    ensures (a + ":" + b)[..|a|] == a && (a + ":" + b)[|a| + 1..] == b && (a + ":" + b)[|a|] == ':'
    ensures forall k :: |a| < k < |a| + 1 + |b| ==> (a + ":" + b)[k] == b[k - |a| - 1]
  {
  }

  lemma EntryPartsAre(entry: string, domain: string, port: string)
    requires EntryParts(entry, domain, port)
    ensures LastColon(entry) == |domain| && 0 < |domain| < |entry| - 1
    ensures entry[..|domain|] == domain && entry[|domain| + 1..] == port
  {
    assert port != "" && ':' !in port;
    CutAtColon(domain, port);
    LastColonUnique(entry, |domain|);
  }

  lemma Rejoin(s: string, idx: nat)
    requires idx < |s| && s[idx] == ':'
    ensures s == s[..idx] + ":" + s[idx + 1..]
  {
  }

  lemma ReadingIsCut(entry: string, domain: string, port: string)
    requires EntryParts(entry, domain, port)
    ensures var idx := LastColon(entry);
      0 < idx < |entry| - 1 && PartsOk(entry[..idx], entry[idx + 1..])
  {
    EntryPartsAre(entry, domain, port);
  }

  /** An entry with its last colon at idx has at most one reading. */
  lemma OnlyReading(entry: string, idx: int)
    requires idx == LastColon(entry)
    ensures (exists domain, port :: EntryParts(entry, domain, port)) <==>
      0 < idx < |entry| - 1 && PartsOk(entry[..idx], entry[idx + 1..])
  {
    if d, p :| EntryParts(entry, d, p) {
      ReadingIsCut(entry, d, p);
    } else if 0 < idx < |entry| - 1 && PartsOk(entry[..idx], entry[idx + 1..]) {
      LastColonIs(entry);
      Rejoin(entry, idx);
      assert EntryParts(entry, entry[..idx], entry[idx + 1..]);
    }
  }

  method ValidateParts(domain: string, port: string) returns (ok: bool)
    requires port != ""
    ensures ok <==> PartsOk(domain, port)
  {
    if ':' in domain || ' ' in domain || ' ' in port { return false; }
    var valid := ValidateDomainPattern(domain);
    if !valid { return false; }
    ok := port == "*" || forall k :: 0 <= k < |port| ==> '0' <= port[k] <= '9';
  }

  method ValidateHTTPEntry(entry: string) returns (ok: bool)
    ensures ok <==> exists domain, port :: EntryParts(entry, domain, port)
  {
    var idx := LastColon(entry);
    LastColonIs(entry);
    OnlyReading(entry, idx);
    if idx <= 0 || idx == |entry| - 1 { return false; }
    ok := ValidateParts(entry[..idx], entry[idx + 1..]);
  }

  function ParsedRule(entry: string): Rule {
    var idx := LastColon(entry);
    if 0 < idx < |entry| then Rule(Parsed(entry[..idx]), entry[idx + 1..]) else Rule(Parsed(entry), "")
  }

  /** Parsing a valid entry recovers exactly its two parts. */
  lemma ParseUndoesPrint(domain: string, port: string)
    requires EntryParts(domain + ":" + port, domain, port)
    ensures ParsedRule(domain + ":" + port) == Rule(Parsed(domain), port)
  {
    EntryPartsAre(domain + ":" + port, domain, port);
  }

  ghost predicate RuleOk(r: Rule) { r.domain.labels == [] || -1 <= r.domain.doubleStar < |r.domain.labels| }

  /** Parsing gives only rules that the matcher can be applied to. */
  lemma ParsedRuleOk(entry: string)
    ensures RuleOk(ParsedRule(entry))
  {
  }

  ghost predicate RuleAllows(r: Rule, host: string, port: string) {
    RuleOk(r) && (r.port == "*" || r.port == port) && MatchesSpec(r.domain, host)
  }

  /** A valid entry domain:port allows a host on a port exactly if the domain covers
      the host and the port is the same or *. */
  lemma EntryMeans(domain: string, port: string, host: string, p: string)
    requires EntryParts(domain + ":" + port, domain, port)
    ensures RuleAllows(ParsedRule(domain + ":" + port), host, p) <==> (port == "*" || port == p) && Covers(domain, host)
  {
    ParseUndoesPrint(domain, port);
    ParsedRuleOk(domain + ":" + port);
    MatchMeans(domain, host);
  }

  ghost predicate Allowed(rules: seq<Rule>, host: string, port: string) {
    host != "" && exists i :: 0 <= i < |rules| && RuleAllows(rules[i], host, port)
  }

  method Allows(rules: seq<Rule>, host: string, port: string) returns (ok: bool)
    requires forall i :: 0 <= i < |rules| ==> RuleOk(rules[i])
    ensures ok <==> Allowed(rules, host, port)
  {
    if host == "" { return false; }
    for i := 0 to |rules|
      invariant forall k :: 0 <= k < i ==> !RuleAllows(rules[k], host, port)
    {
      var r := rules[i];
      if r.port == "*" || r.port == port {
        var m := Matches(r.domain, host);
        if m { return true; }
      }
    }
    return false;
  }
}
