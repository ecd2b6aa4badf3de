/** sshd/rawsession.go: the request loop of one SSH session channel (sections 6.2,
    6.4, 6.5 and 6.7 of RFC 4254) and the one-slot channel of window sizes.
    A payload that does not decode is None. */
module RawSession {
  import opened Basics

  datatype Window = Window(width: nat, height: nat)

  datatype Request =
    | PtyReq(payload: Option<Pty>)
    | WindowChange(size: Option<Window>)
    | Env(pair: Option<Pair>)
    | Shell
    | Exec(command: Option<string>)
    | Unsupported

  datatype Pty = Pty(term: string, size: Window)
  datatype Pair = Pair(name: string, value: string)

  /** What the dispatched handler goroutine is given. */
  datatype Dispatch = Dispatch(pty: Option<Pty>, env: seq<string>, command: string)

  /** The loop's variables: the PTY if one was granted, the environment so far,
      the dispatch if it has happened, and the answer to each request. */
  datatype Sess = Sess(pty: Option<Pty>, env: seq<string>, dispatched: Option<Dispatch>, replies: seq<bool>)

  const FRESH := Sess(None, [], None, [])

  function Reply(s: Sess, ok: bool): Sess { s.(replies := s.replies + [ok]) }

  function Binding(p: Pair): string { p.name + "=" + p.value }

  function Handle(s: Sess, r: Request): Sess {
    match r
    case PtyReq(p) =>
      if s.dispatched.Some? || s.pty.Some? || p.None? then Reply(s, false) else Reply(s.(pty := p), true)
    case WindowChange(size) => Reply(s, size.Some? && s.pty.Some?)
    case Env(p) =>
      if s.dispatched.Some? || p.None? then Reply(s, false)
      else Reply(s.(env := s.env + [Binding(p.value)]), true)
    case Shell =>
      if s.dispatched.Some? then Reply(s, false)
      else Reply(s.(dispatched := Some(Dispatch(s.pty, s.env, ""))), true)
    case Exec(c) =>
      if s.dispatched.Some? || c.None? then Reply(s, false)
      else Reply(s.(dispatched := Some(Dispatch(s.pty, s.env, c.value))), true)
    case Unsupported => Reply(s, false)
  }

  function HandleAll(reqs: seq<Request>): Sess {
    if reqs == [] then FRESH else Handle(HandleAll(reqs[..|reqs| - 1]), reqs[|reqs| - 1])
  }

  /** The loop over requests, updating its variables one request at a time. */
  method RequestLoop(reqs: seq<Request>) returns (s: Sess)
    ensures s == HandleAll(reqs)
  {
    var pty: Option<Pty>, env: seq<string>, replies: seq<bool> := None, [], [];
    var dispatched: Option<Dispatch> := None;
    for i := 0 to |reqs|
      invariant Sess(pty, env, dispatched, replies) == HandleAll(reqs[..i])
    {
      assert reqs[..i + 1][..i] == reqs[..i];
      var ok := false;
      match reqs[i] {
        case PtyReq(p) =>
          if dispatched.None? && pty.None? && p.Some? {
            pty, ok := p, true;
          }
        case WindowChange(size) => ok := size.Some? && pty.Some?;
        case Env(p) =>
          if dispatched.None? && p.Some? {
            env, ok := env + [Binding(p.value)], true;
          }
        case Shell =>
          if dispatched.None? {
            dispatched, ok := Some(Dispatch(pty, env, "")), true;
          }
        case Exec(c) =>
          if dispatched.None? && c.Some? {
            dispatched, ok := Some(Dispatch(pty, env, c.value)), true;
          }
        case Unsupported =>
      }
      replies := replies + [ok];
    }
    assert reqs[..|reqs|] == reqs;
    s := Sess(pty, env, dispatched, replies);
  }

  // ----- Specification ----------------------------------------------------

  predicate Starts(r: Request) { r.Shell? || (r.Exec? && r.command.Some?) }

  /** Index of the first request that starts the program, or |reqs|. */
  function StartAt(reqs: seq<Request>): (k: nat)
    ensures k <= |reqs| && (k < |reqs| ==> Starts(reqs[k]))
    ensures forall j :: 0 <= j < k ==> !Starts(reqs[j])
  {
    if reqs == [] then 0
    else if Starts(reqs[0]) then 0
    else 1 + StartAt(reqs[1..])
  }

  predicate AsksPty(r: Request) { r.PtyReq? && r.payload.Some? }

  /** Index of the first well-formed PTY request, or |reqs|. */
  function PtyAt(reqs: seq<Request>): (k: nat)
    ensures k <= |reqs| && (k < |reqs| ==> AsksPty(reqs[k]))
    ensures forall j :: 0 <= j < k ==> !AsksPty(reqs[j])
  {
    if reqs == [] then 0
    else if AsksPty(reqs[0]) then 0
    else 1 + PtyAt(reqs[1..])
  }

  /** The bindings of well-formed env requests, in order. */
  function Bindings(reqs: seq<Request>): seq<string> {
    if reqs == [] then []
    else Bindings(reqs[..|reqs| - 1])
         + (var r := reqs[|reqs| - 1];
            if r.Env? && r.pair.Some? then [r.pair.value.name + "=" + r.pair.value.value] else [])
  }

  function GrantedPty(reqs: seq<Request>): Option<Pty> {
    if PtyAt(reqs) < |reqs| then reqs[PtyAt(reqs)].payload else None
  }

  /** The program is started by request k with the PTY and environment asked for
      before it. */
  function StartedBy(reqs: seq<Request>, k: nat): Dispatch
    requires k < |reqs| && Starts(reqs[k])
  {
    Dispatch(GrantedPty(reqs[..k]), Bindings(reqs[..k]), if reqs[k].Exec? then reqs[k].command.value else "")
  }

  /** Which requests a session must grant, in terms of the requests alone. */
  predicate Granted(reqs: seq<Request>, i: nat)
    requires i < |reqs|
  {
    var k := StartAt(reqs);
    match reqs[i]
    case PtyReq(_) => i < k && i == PtyAt(reqs)
    case WindowChange(size) => size.Some? && PtyAt(reqs) < i && PtyAt(reqs) < k
    case Env(p) => p.Some? && i < k
    case Shell => i == k
    case Exec(_) => i == k
    case Unsupported => false
  }

  lemma {:induction false} StartAtSnoc(a: seq<Request>, r: Request)
    ensures StartAt(a + [r]) == if StartAt(a) < |a| then StartAt(a) else if Starts(r) then |a| else |a| + 1
  {
    var all := a + [r];
    var k := StartAt(all);
    assert forall j :: 0 <= j < |a| ==> all[j] == a[j];
    assert all[|a|] == r;
    if StartAt(a) < |a| { assert Starts(all[StartAt(a)]); }
  }

  lemma {:induction false} PtyAtSnoc(a: seq<Request>, r: Request)
    ensures PtyAt(a + [r]) == if PtyAt(a) < |a| then PtyAt(a) else if AsksPty(r) then |a| else |a| + 1
  {
    var all := a + [r];
    assert forall j :: 0 <= j < |a| ==> all[j] == a[j];
    assert all[|a|] == r;
    if PtyAt(a) < |a| { assert AsksPty(all[PtyAt(a)]); }
  }

  /** Requests up to the one that starts the program. */
  function Setup(reqs: seq<Request>): seq<Request> { reqs[..StartAt(reqs)] }

  /** The loop's variables, in terms of the requests alone. */
  ghost predicate Accounts(reqs: seq<Request>, s: Sess) {
    var k := StartAt(reqs);
    && s.pty == GrantedPty(Setup(reqs))
    && s.env == Bindings(Setup(reqs))
    && s.dispatched == (if k < |reqs| then Some(StartedBy(reqs, k)) else None)
  }

  lemma BindingsSnoc(a: seq<Request>, r: Request)
    ensures Bindings(a + [r]) == Bindings(a) + (if r.Env? && r.pair.Some? then [Binding(r.pair.value)] else [])
  {
    assert (a + [r])[..|a|] == a;
  }

  lemma GrantedPtySnoc(a: seq<Request>, r: Request)
    ensures GrantedPty(a + [r]) ==
      if GrantedPty(a).Some? then GrantedPty(a) else if AsksPty(r) then r.payload else None
  {
    PtyAtSnoc(a, r);
  }

  lemma AfterStart(a: seq<Request>, r: Request, s: Sess)
    requires Accounts(a, s) && StartAt(a) < |a|
    ensures Accounts(a + [r], Handle(s, r))
  {
    var k, all := StartAt(a), a + [r];
    StartAtSnoc(a, r);
    assert all[..k] == a[..k] && all[k] == a[k];
    assert Handle(s, r) == s.(replies := Handle(s, r).replies);
  }

  lemma AtStart(a: seq<Request>, r: Request, s: Sess)
    requires Accounts(a, s) && StartAt(a) == |a| && Starts(r)
    ensures Accounts(a + [r], Handle(s, r))
  {
    var all := a + [r];
    StartAtSnoc(a, r);
    assert all[..|a|] == a && a[..|a|] == a && all[|a|] == r;
  }

  lemma BeforeStart(a: seq<Request>, r: Request, s: Sess)
    requires Accounts(a, s) && StartAt(a) == |a| && !Starts(r)
    ensures Accounts(a + [r], Handle(s, r))
  {
    var all := a + [r];
    StartAtSnoc(a, r);
    assert all[..|all|] == all && a[..|a|] == a;
    BindingsSnoc(a, r);
    GrantedPtySnoc(a, r);
  }

  lemma {:induction false} LoopAccounts(reqs: seq<Request>)
    ensures Accounts(reqs, HandleAll(reqs))
  {
    if reqs != [] {
      var a, r := reqs[..|reqs| - 1], reqs[|reqs| - 1];
      LoopAccounts(a);
      assert reqs == a + [r];
      var s := HandleAll(a);
      if StartAt(a) < |a| { AfterStart(a, r, s); }
      else if Starts(r) { AtStart(a, r, s); }
      else { BeforeStart(a, r, s); }
    }
  }

  /** Where the first PTY request stands, looking only before the start. */
  lemma SetupPty(reqs: seq<Request>)
    ensures GrantedPty(Setup(reqs)).Some? <==> PtyAt(reqs) < StartAt(reqs)
  {
    var k, setup := StartAt(reqs), Setup(reqs);
    assert forall j :: 0 <= j < k ==> setup[j] == reqs[j];
    if PtyAt(setup) < |setup| { assert AsksPty(reqs[PtyAt(setup)]); }
  }

  /** Later requests do not change whether an earlier one is to be granted. */
  lemma GrantedStable(a: seq<Request>, r: Request, i: nat)
    requires i < |a|
    ensures Granted(a + [r], i) <==> Granted(a, i)
  {
    StartAtSnoc(a, r);
    PtyAtSnoc(a, r);
    assert (a + [r])[i] == a[i];
  }

  lemma ReplyIsGranted(a: seq<Request>, r: Request, s: Sess)
    requires Accounts(a, s)
    ensures Handle(s, r).replies == s.replies + [Granted(a + [r], |a|)]
  {
    StartAtSnoc(a, r);
    PtyAtSnoc(a, r);
    SetupPty(a);
    assert (a + [r])[|a|] == r;
  }

  /** Exactly the requests that must be granted are granted. */
  lemma {:induction false} RepliesAreExact(reqs: seq<Request>)
    ensures |HandleAll(reqs).replies| == |reqs|
    ensures forall i :: 0 <= i < |reqs| ==> (HandleAll(reqs).replies[i] <==> Granted(reqs, i))
  {
    if reqs != [] {
      var a, r := reqs[..|reqs| - 1], reqs[|reqs| - 1];
      RepliesAreExact(a);
      LoopAccounts(a);
      assert reqs == a + [r];
      ReplyIsGranted(a, r, HandleAll(a));
      forall i | 0 <= i < |a| ensures HandleAll(reqs).replies[i] <==> Granted(reqs, i) {
        GrantedStable(a, r, i);
      }
    }
  }

  /** At most one PTY and at most one program per session. */
  lemma AtMostOne(reqs: seq<Request>, i: nat, j: nat)
    requires i < j < |reqs|
    requires |HandleAll(reqs).replies| == |reqs| && HandleAll(reqs).replies[i] && HandleAll(reqs).replies[j]
    ensures !(reqs[i].PtyReq? && reqs[j].PtyReq?)
    ensures !((reqs[i].Shell? || reqs[i].Exec?) && (reqs[j].Shell? || reqs[j].Exec?))
    ensures (reqs[i].Shell? || reqs[i].Exec?) ==> !reqs[j].Env? && !reqs[j].PtyReq?
  {
    RepliesAreExact(reqs);
    assert Granted(reqs, i) && Granted(reqs, j);
  }

  /** The handler's environment is exactly the env requests granted before it
      starts, in order, and its PTY the one granted before it starts. */
  lemma HandlerGetsSetup(reqs: seq<Request>)
    requires StartAt(reqs) < |reqs|
    ensures HandleAll(reqs).dispatched == Some(StartedBy(reqs, StartAt(reqs)))
  {
    LoopAccounts(reqs);
  }

  // ----- Window sizes -----------------------------------------------------

  /** The loop and the resize consumer share a one-slot channel. Handling a
      window-change drains the slot, then sends, in two separate steps. */
  datatype Shared = Shared(reqs: seq<Request>, sending: Option<Window>, slot: Option<Window>, seen: seq<Window>)

  datatype Action = Receive(r: Request) | Send | Consume

  predicate Enabled(s: Shared, a: Action) {
    match a
    case Receive(_) => s.sending.None?
    case Send => s.sending.Some?
    case Consume => s.slot.Some?
  }

  function Apply(s: Shared, a: Action): Shared
    requires Enabled(s, a)
  {
    match a
    case Receive(r) =>
      var s1 := s.(reqs := s.reqs + [r]);
      if r.WindowChange? && r.size.Some? && HandleAll(s.reqs).pty.Some?
      then s1.(slot := None, sending := r.size) else s1
    case Send => s.(sending := None, slot := if s.slot.None? then s.sending else s.slot)
    case Consume => s.(slot := None, seen := s.seen + [s.slot.value])
  }

  function Execute(s: Shared, acts: seq<Action>): Option<Shared>
    decreases acts
  {
    if acts == [] then Some(s)
    else if !Enabled(s, acts[0]) then None
    else Execute(Apply(s, acts[0]), acts[1..])
  }

  ghost predicate Reachable(s: Shared) { exists acts :: Execute(Shared([], None, None, []), acts) == Some(s) }

  /** The sizes of the granted window-change requests, in order. */
  function Sizes(reqs: seq<Request>): seq<Window> {
    if reqs == [] then []
    else
      var a, r := reqs[..|reqs| - 1], reqs[|reqs| - 1];
      Sizes(a) + (if r.WindowChange? && r.size.Some? && HandleAll(a).pty.Some? then [r.size.value] else [])
  }

  function Opt(w: Option<Window>): seq<Window> { if w.Some? then [w.value] else [] }

  ghost predicate SlotInv(s: Shared) {
    var sizes := Sizes(s.reqs);
    && Subsequence(Visible(s), sizes)
    && (s.sending.Some? ==> s.slot.None?)
    && (sizes != [] ==> Visible(s) != [] && Visible(s)[|Visible(s)| - 1] == sizes[|sizes| - 1])
  }

  lemma SizesSnoc(reqs: seq<Request>, r: Request)
    ensures Sizes(reqs + [r]) ==
      Sizes(reqs) + (if r.WindowChange? && r.size.Some? && HandleAll(reqs).pty.Some? then [r.size.value] else [])
  {
    assert (reqs + [r])[..|reqs|] == reqs;
  }

  /** What the consumer has seen or can still see. */
  function Visible(s: Shared): seq<Window> { s.seen + Opt(s.slot) + Opt(s.sending) }

  lemma ReplaceSize(s: Shared, s': Shared, w: Window)
    requires SlotInv(s) && s.sending.None? && Sizes(s'.reqs) == Sizes(s.reqs) + [w]
    requires s' == s.(reqs := s'.reqs, slot := None, sending := Some(w))
    ensures SlotInv(s')
  {
    var sizes := Sizes(s.reqs);
    assert Visible(s) == s.seen + Opt(s.slot);
    assert Subsequence(s.seen, sizes) by {
      if s.slot.Some? { SubsequenceDrop(s.seen, s.slot.value, sizes); } else { assert s.seen + [] == s.seen; }
    }
    SubsequenceExtend(s.seen, sizes, w);
    assert Visible(s') == s.seen + [w];
  }

  lemma StepKeeps(s: Shared, a: Action)
    requires SlotInv(s) && Enabled(s, a)
    ensures SlotInv(Apply(s, a))
  {
    var s' := Apply(s, a);
    match a
    case Receive(r) =>
      SizesSnoc(s.reqs, r);
      if s'.sending.Some? {
        ReplaceSize(s, s', s'.sending.value);
      } else {
        assert Sizes(s'.reqs) == Sizes(s.reqs) + [] == Sizes(s.reqs);
        assert Visible(s') == Visible(s);
      }
    case _ => assert Visible(s') == Visible(s);
  }

  lemma {:induction false} RunKeeps(s: Shared, acts: seq<Action>)
    requires SlotInv(s) && Execute(s, acts).Some?
    ensures SlotInv(Execute(s, acts).value)
    decreases acts
  {
    if acts != [] {
      StepKeeps(s, acts[0]);
      RunKeeps(Apply(s, acts[0]), acts[1..]);
    }
  }

  /** In every interleaving the consumer sees a subsequence of the granted sizes,
      the loop's send never finds the slot taken, and once the channel is drained
      the last size seen is the last one granted. */
  lemma LatestSizeArrives(s: Shared)
    requires Reachable(s)
    ensures Subsequence(s.seen, Sizes(s.reqs))
    ensures s.sending.Some? ==> s.slot.None?
    ensures s.sending.None? && s.slot.None? && Sizes(s.reqs) != [] ==>
      s.seen != [] && s.seen[|s.seen| - 1] == Sizes(s.reqs)[|Sizes(s.reqs)| - 1]
  {
    var acts :| Execute(Shared([], None, None, []), acts) == Some(s);
    RunKeeps(Shared([], None, None, []), acts);
    var sizes := Sizes(s.reqs);
    assert s.seen + [] == s.seen;
    if s.sending.Some? {
      SubsequenceDrop(s.seen, s.sending.value, sizes);
    } else if s.slot.Some? {
      assert s.seen + [s.slot.value] + [] == s.seen + [s.slot.value];
      SubsequenceDrop(s.seen, s.slot.value, sizes);
    }
  }
}
