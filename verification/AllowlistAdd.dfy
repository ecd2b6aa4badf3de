/** proxy/allowlist.go, HTTPAllowlist.Add: concurrent callers append blocks of
    rules by load, copy and compare-and-swap on one pointer. Published slices are
    never written again, so a pointer is an index into everything published. */
module AllowlistAdd {
  import opened Basics
  import opened Allowlist

  datatype Adder =
    | Rejected
    | Ready(block: seq<Rule>)
    | Loaded(block: seq<Rule>, ptr: nat, merged: seq<Rule>)
    | Added(block: seq<Rule>)

  /** commits: which adder's swap succeeded, in order. */
  datatype State = State(published: seq<seq<Rule>>, current: nat, adders: seq<Adder>, commits: seq<nat>)

  function ParsedRules(entries: seq<string>): seq<Rule> {
    seq(|entries|, k requires 0 <= k < |entries| => ParsedRule(entries[k]))
  }

  ghost predicate ValidEntries(entries: seq<string>) {
    forall k :: 0 <= k < |entries| ==> exists d, p :: EntryParts(entries[k], d, p)
  }

  datatype Action = Call(entries: seq<string>) | Load(i: nat) | Swap(i: nat)

  ghost predicate Enabled(s: State, a: Action) {
    match a
    case Call(_) => true
    case Load(i) => i < |s.adders| && s.adders[i].Ready? && s.current < |s.published|
    case Swap(i) => i < |s.adders| && s.adders[i].Loaded?
  }

  ghost function Called(s: State, entries: seq<string>): State {
    s.(adders := s.adders + [if ValidEntries(entries) then Ready(ParsedRules(entries)) else Rejected])
  }

  ghost function Swapped(s: State, i: nat): State
    requires i < |s.adders| && s.adders[i].Loaded?
  {
    var a := s.adders[i];
    State(s.published + [a.merged], |s.published|, s.adders[i := Added(a.block)], s.commits + [i])
  }

  ghost function Apply(s: State, a: Action): State
    requires Enabled(s, a)
  {
    match a
    case Call(entries) => Called(s, entries)
    case Load(i) =>
      var block := s.adders[i].block;
      s.(adders := s.adders[i := Loaded(block, s.current, s.published[s.current] + block)])
    case Swap(i) =>
      if s.adders[i].ptr == s.current then Swapped(s, i)
      else s.(adders := s.adders[i := Ready(s.adders[i].block)])
  }

  ghost function Initial(entries: seq<string>): State
  {
    State([ParsedRules(entries)], 0, [], [])
  }

  ghost function Exec(s: State, acts: seq<Action>): Option<State>
    decreases acts
  {
    if acts == [] then Some(s)
    else if !Enabled(s, acts[0]) then None
    else Exec(Apply(s, acts[0]), acts[1..])
  }

  /** The run acts of an allowlist made from initial ends in s. */
  ghost predicate Reaches(initial: seq<string>, acts: seq<Action>, s: State) {
    ValidEntries(initial) && Exec(Initial(initial), acts) == Some(s)
  }

  /** What the callers of Add passed, in the order of their calls. */
  function CallsOf(acts: seq<Action>): seq<seq<string>> {
    if acts == [] then []
    else (if acts[0].Call? then [acts[0].entries] else []) + CallsOf(acts[1..])
  }

  ghost function Rules(s: State): seq<Rule>
    requires s.current < |s.published|
  {
    s.published[s.current]
  }

  // ----- Invariant --------------------------------------------------------

  /** Each adder still holds exactly what its caller passed. */
  ghost predicate CallInv(calls: seq<seq<string>>, s: State, i: nat)
    requires i < |s.adders| == |calls|
  {
    var a := s.adders[i];
    && (a.Rejected? <==> !ValidEntries(calls[i]))
    && (!a.Rejected? ==> a.block == ParsedRules(calls[i]))
    && (a.Loaded? ==> a.ptr < |s.published| && a.merged == s.published[a.ptr] + a.block)
  }

  ghost predicate CallsInv(calls: seq<seq<string>>, s: State) {
    |s.adders| == |calls| && forall i :: 0 <= i < |calls| ==> CallInv(calls, s, i)
  }

  ghost predicate CommitsInv(s: State) {
    && (forall k :: 0 <= k < |s.commits| ==> s.commits[k] < |s.adders| && s.adders[s.commits[k]].Added?)
    && (forall j, k :: 0 <= j < k < |s.commits| ==> s.commits[j] != s.commits[k])
    && (forall i :: 0 <= i < |s.adders| && s.adders[i].Added? ==> i in s.commits)
  }

  ghost predicate InRange(commits: seq<nat>, n: nat) {
    forall k :: 0 <= k < |commits| ==> commits[k] < n
  }

  /** The rules of the batches passed by the committed calls, in commit order. */
  function Committed(calls: seq<seq<string>>, commits: seq<nat>): seq<seq<Rule>>
    requires InRange(commits, |calls|)
  {
    seq(|commits|, k requires 0 <= k < |commits| => ParsedRules(calls[commits[k]]))
  }

  /** Publication n holds the initial rules and the first n committed batches. */
  ghost predicate PublishedAt(initial: seq<string>, calls: seq<seq<string>>, s: State, n: nat)
    requires InRange(s.commits, |calls|) && n < |s.published| && n <= |s.commits|
  {
    s.published[n] == ParsedRules(initial) + Flatten(Committed(calls, s.commits[..n]))
  }

  ghost predicate PublishedInv(initial: seq<string>, calls: seq<seq<string>>, s: State) {
    && InRange(s.commits, |calls|)
    && s.current == |s.commits| && |s.published| == |s.commits| + 1
    && forall n :: 0 <= n < |s.published| ==> PublishedAt(initial, calls, s, n)
  }

  ghost predicate Inv(initial: seq<string>, calls: seq<seq<string>>, s: State) {
    CallsInv(calls, s) && CommitsInv(s) && PublishedInv(initial, calls, s)
  }

  // ----- Preservation -----------------------------------------------------

  lemma CallKeeps(initial: seq<string>, calls: seq<seq<string>>, s: State, entries: seq<string>)
    requires Inv(initial, calls, s)
    ensures Inv(initial, calls + [entries], Called(s, entries))
  {
    var s', calls' := Called(s, entries), calls + [entries];
    forall i | 0 <= i < |calls'| ensures CallInv(calls', s', i) {
      if i < |calls| { assert CallInv(calls, s, i); }
    }
    forall n | 0 <= n < |s'.published| ensures PublishedAt(initial, calls', s', n) {
      assert PublishedAt(initial, calls, s, n);
      assert Committed(calls', s.commits[..n]) == Committed(calls, s.commits[..n]);
    }
  }

  /** A step of one adder that publishes nothing and forgets nothing. */
  lemma QuietKeeps(initial: seq<string>, calls: seq<seq<string>>, s: State, i: nat, a: Adder)
    requires Inv(initial, calls, s) && i < |s.adders| && (s.adders[i].Ready? || s.adders[i].Loaded?)
    requires a == Ready(s.adders[i].block) || (s.current < |s.published| &&
      a == Loaded(s.adders[i].block, s.current, s.published[s.current] + s.adders[i].block))
    ensures Inv(initial, calls, s.(adders := s.adders[i := a]))
  {
    var s' := s.(adders := s.adders[i := a]);
    assert CallInv(calls, s, i);
    forall x | 0 <= x < |calls| ensures CallInv(calls, s', x) { assert CallInv(calls, s, x); }
    forall n | 0 <= n < |s'.published| ensures PublishedAt(initial, calls, s', n) {
      assert PublishedAt(initial, calls, s, n);
    }
  }

  lemma SwapCommits(calls: seq<seq<string>>, s: State, i: nat)
    requires CallsInv(calls, s) && CommitsInv(s) && i < |s.adders| && s.adders[i].Loaded?
    ensures CallsInv(calls, Swapped(s, i)) && CommitsInv(Swapped(s, i))
  {
    var s' := Swapped(s, i);
    assert i !in s.commits && CallInv(calls, s, i);
    forall x | 0 <= x < |calls| ensures CallInv(calls, s', x) { assert CallInv(calls, s, x); }
    forall x | 0 <= x < |s'.adders| && s'.adders[x].Added? ensures x in s'.commits {
      if x != i { assert x in s.commits; } else { assert s'.commits[|s.commits|] == i; }
    }
  }

  /** One more committed batch. */
  lemma CommittedSnoc(calls: seq<seq<string>>, commits: seq<nat>, i: nat)
    requires InRange(commits, |calls|) && i < |calls|
    ensures InRange(commits + [i], |calls|)
    ensures Flatten(Committed(calls, commits + [i])) == Flatten(Committed(calls, commits)) + ParsedRules(calls[i])
  {
    assert Committed(calls, commits + [i]) == Committed(calls, commits) + [ParsedRules(calls[i])];
    FlattenSnoc(Committed(calls, commits), ParsedRules(calls[i]));
  }

  /** The newest publication: the one it was loaded from, and the caller's batch. */
  lemma SwapTop(initial: seq<string>, calls: seq<seq<string>>, s: State, i: nat)
    requires Inv(initial, calls, s) && i < |s.adders| && s.adders[i].Loaded? && s.adders[i].ptr == s.current
    ensures InRange(s.commits + [i], |calls|)
    ensures s.adders[i].merged == ParsedRules(initial) + Flatten(Committed(calls, s.commits + [i]))
  {
    var n := |s.commits|;
    assert CallInv(calls, s, i) && PublishedAt(initial, calls, s, n) && s.commits[..n] == s.commits;
    CommittedSnoc(calls, s.commits, i);
    AppendAssoc(ParsedRules(initial), Flatten(Committed(calls, s.commits)), ParsedRules(calls[i]));
  }

  lemma SwapPublishes(initial: seq<string>, calls: seq<seq<string>>, s: State, i: nat)
    requires Inv(initial, calls, s) && i < |s.adders| && s.adders[i].Loaded? && s.adders[i].ptr == s.current
    ensures PublishedInv(initial, calls, Swapped(s, i))
  {
    var s', n := Swapped(s, i), |s.commits|;
    SwapTop(initial, calls, s, i);
    forall k | 0 <= k < n + 2 ensures PublishedAt(initial, calls, s', k) {
      if k <= n {
        assert PublishedAt(initial, calls, s, k) && s'.commits[..k] == s.commits[..k];
      } else {
        assert s'.commits[..k] == s.commits + [i];
      }
    }
  }

  lemma StepKeeps(initial: seq<string>, calls: seq<seq<string>>, s: State, a: Action)
    requires Inv(initial, calls, s) && Enabled(s, a)
    ensures Inv(initial, calls + CallsOf([a]), Apply(s, a))
    ensures Rules(s) <= Rules(Apply(s, a))
  {
    assert CallsOf([a]) == if a.Call? then [a.entries] else [];
    match a
    case Call(entries) => CallKeeps(initial, calls, s, entries);
    case Load(i) =>
      assert calls + [] == calls;
      QuietKeeps(initial, calls, s, i, Apply(s, a).adders[i]);
    case Swap(i) =>
      assert calls + [] == calls && CallInv(calls, s, i);
      if s.adders[i].ptr == s.current {
        SwapCommits(calls, s, i);
        SwapPublishes(initial, calls, s, i);
      } else {
        QuietKeeps(initial, calls, s, i, Ready(s.adders[i].block));
      }
  }

  lemma {:induction false} RunKeeps(initial: seq<string>, calls: seq<seq<string>>, s: State, acts: seq<Action>)
    requires Inv(initial, calls, s) && Exec(s, acts).Some?
    ensures Inv(initial, calls + CallsOf(acts), Exec(s, acts).value)
    ensures Rules(s) <= Rules(Exec(s, acts).value)
    decreases acts
  {
    if acts == [] {
      assert calls + [] == calls;
    } else {
      var now := calls + CallsOf([acts[0]]);
      StepKeeps(initial, calls, s, acts[0]);
      RunKeeps(initial, now, Apply(s, acts[0]), acts[1..]);
      assert calls + CallsOf(acts) == now + CallsOf(acts[1..]);
    }
  }

  lemma ReachesInv(initial: seq<string>, acts: seq<Action>, s: State)
    requires Reaches(initial, acts, s)
    ensures Inv(initial, CallsOf(acts), s)
  {
    assert Committed([], []) == [];
    assert ParsedRules(initial) + [] == ParsedRules(initial);
    assert PublishedAt(initial, [], Initial(initial), 0);
    RunKeeps(initial, [], Initial(initial), acts);
    assert [] + CallsOf(acts) == CallsOf(acts);
  }

  lemma BatchOk(entries: seq<string>, r: Rule)
    requires r in ParsedRules(entries)
    ensures RuleOk(r)
  {
    var k :| 0 <= k < |entries| && ParsedRules(entries)[k] == r;
    ParsedRuleOk(entries[k]);
  }

  lemma {:induction false} CommittedOk(calls: seq<seq<string>>, commits: seq<nat>, r: Rule)
    requires InRange(commits, |calls|) && r in Flatten(Committed(calls, commits))
    ensures RuleOk(r)
    decreases commits
  {
    if commits != [] {
      var init, last := commits[..|commits| - 1], commits[|commits| - 1];
      assert commits == init + [last];
      CommittedSnoc(calls, init, last);
      if r in ParsedRules(calls[last]) { BatchOk(calls[last], r); } else { CommittedOk(calls, init, r); }
    }
  }

  // ----- Theorems ---------------------------------------------------------

  /** After any run, the rules are the initial list followed by the whole batches
      that the committed calls passed to Add, in commit order. A call that has
      returned without error is committed exactly once; a call is refused exactly
      when its batch is invalid, and then contributes nothing. */
  lemma NoAddIsLost(initial: seq<string>, acts: seq<Action>, s: State)
    requires Reaches(initial, acts, s)
    ensures var calls := CallsOf(acts);
      && |s.adders| == |calls| && InRange(s.commits, |calls|) && s.current < |s.published|
      && Rules(s) == ParsedRules(initial) + Flatten(Committed(calls, s.commits))
      && (forall i :: 0 <= i < |calls| ==> (s.adders[i].Added? <==> i in s.commits))
      && (forall i :: 0 <= i < |calls| ==> (s.adders[i].Rejected? <==> !ValidEntries(calls[i])))
      && (forall j, k :: 0 <= j < k < |s.commits| ==> s.commits[j] != s.commits[k])
  {
    ReachesInv(initial, acts, s);
    var calls := CallsOf(acts);
    assert PublishedAt(initial, calls, s, |s.commits|) && s.commits[..|s.commits|] == s.commits;
    forall i | 0 <= i < |calls| ensures s.adders[i].Rejected? <==> !ValidEntries(calls[i]) {
      assert CallInv(calls, s, i);
    }
  }

  /** Every published rule is one the matcher can be applied to. */
  lemma RulesAreOk(initial: seq<string>, acts: seq<Action>, s: State)
    requires Reaches(initial, acts, s)
    ensures s.current < |s.published| && forall r :: r in Rules(s) ==> RuleOk(r)
  {
    NoAddIsLost(initial, acts, s);
    forall r | r in Rules(s) ensures RuleOk(r) {
      if r in ParsedRules(initial) { BatchOk(initial, r); } else { CommittedOk(CallsOf(acts), s.commits, r); }
    }
  }

  /** What Allows answers with true once, it answers with true for ever. */
  lemma AllowedForEver(initial: seq<string>, before: seq<Action>, s: State, acts: seq<Action>, host: string, port: string)
    requires Reaches(initial, before, s) && Exec(s, acts).Some?
    ensures var s' := Exec(s, acts).value;
      && s.current < |s.published| && s'.current < |s'.published|
      && (forall i :: 0 <= i < |Rules(s')| ==> RuleOk(Rules(s')[i]))
      && (Allowed(Rules(s), host, port) ==> Allowed(Rules(s'), host, port))
  {
    ReachesInv(initial, before, s);
    RunKeeps(initial, CallsOf(before), s, acts);
    ExecAppend(Initial(initial), before, acts);
    RulesAreOk(initial, before + acts, Exec(s, acts).value);
    if Allowed(Rules(s), host, port) {
      var i :| 0 <= i < |Rules(s)| && RuleAllows(Rules(s)[i], host, port);
      assert Rules(Exec(s, acts).value)[i] == Rules(s)[i];
    }
  }

  lemma {:induction false} ExecAppend(s: State, a: seq<Action>, b: seq<Action>)
    requires Exec(s, a).Some?
    ensures Exec(s, a + b) == Exec(Exec(s, a).value, b)
    decreases a
  {
    if a == [] {
      assert a + b == b;
    } else {
      assert (a + b)[1..] == a[1..] + b;
      ExecAppend(Apply(s, a[0]), a[1..], b);
    }
  }

  /** A swap fails only because another add committed since the load: someone
      always makes progress. */
  lemma FailedSwapMeansProgress(initial: seq<string>, acts: seq<Action>, s: State, i: nat)
    requires Reaches(initial, acts, s) && Enabled(s, Swap(i)) && Apply(s, Swap(i)).commits == s.commits
    ensures s.adders[i].ptr < |s.commits|
  {
    ReachesInv(initial, acts, s);
    assert CallInv(CallsOf(acts), s, i) && s.adders[i].ptr != s.current;
  }

  /** An add that was accepted and has not returned can always go on. */
  lemma AdderMoves(initial: seq<string>, acts: seq<Action>, s: State, i: nat)
    requires Reaches(initial, acts, s) && i < |s.adders| && (s.adders[i].Ready? || s.adders[i].Loaded?)
    ensures Enabled(s, Load(i)) || Enabled(s, Swap(i))
  {
    ReachesInv(initial, acts, s);
  }
}
