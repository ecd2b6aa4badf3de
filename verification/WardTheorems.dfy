/** What command mode and the alert loop guarantee after every interleaving of
    stdin, the event loop, the timers and the status source. */
module WardTheorems {
  import opened Basics
  import opened C = CommandInput
  import L = EventLoop
  import opened Ward
  import opened WardHistory

  /** The loop meets a request to enter command mode only while it is closed, and
      the result of an action only while it waits for exactly that action. */
  lemma RequestsFitTheLoop(s: State)
    requires Reachable(s)
    ensures !s.loop.misfire
    ensures s.ch != [] && s.ch[0].Enter? ==> s.loop.cmd.NoCommand?
    ensures s.ch != [] && s.ch[0].Action? ==> s.loop.cmd.Pending? && s.ch[0].gen == s.loop.gen
  {
    ReachableInv(s);
    if s.ch != [] && IsOwn(s.ch[0]) { AgreeOwn(s); }
  }

  lemma StoryIsReachable(hotkey: Byte, acts: seq<Action>, st: Story)
    requires Told(hotkey, acts) == Some(st)
    ensures Reachable(st.s)
  {
    ToldIsRun(hotkey, acts);
    assert Exec(Initial(hotkey), acts) == Some(st.s);
  }

  lemma {:induction false} OutcomesAreOwn(ch: seq<L.Event>)
    ensures OutcomesIn(ch) == OutcomesIn(Own(ch))
  {
    if ch != [] {
      var init, e := ch[..|ch| - 1], ch[|ch| - 1];
      OutcomesAreOwn(init);
      if IsOwn(e) { OutcomesSnoc(Own(init), e); } else { assert Own(init) + [] == Own(init); }
    }
  }

  lemma OneOutcome(own: seq<L.Event>)
    requires |own| <= 1
    ensures |OutcomesIn(own)| <= |own|
    ensures own != [] && !own[0].Action? ==> OutcomesIn(own) == []
  {
    if own != [] {
      assert own == [] + [own[0]];
      OutcomesSnoc([], own[0]);
    }
  }

  lemma EnteringOutcomes(own: seq<L.Event>)
    requires 0 < |own| <= 2 && own[|own| - 1].Enter?
    ensures |OutcomesIn(own)| <= 1
  {
    var init := own[..|own| - 1];
    assert own == init + [L.Enter];
    OutcomesSnoc(init, L.Enter);
    OneOutcome(init);
    assert OutcomesIn(init) + [] == OutcomesIn(init);
  }

  /** The goroutine has at most one event under way, or two when it comes back to
      command mode before the loop has heard that it left. */
  lemma OwnIsShort(s: State)
    requires Agree(s)
    ensures var own := Own(s.ch);
      && |own| <= (if s.mode.AwaitReply? then 2 else 1) && (|own| == 2 ==> own[1].Enter?)
      && (s.mode.WantAction? ==> own == [])
  {
  }

  lemma OneInFlight(s: State)
    requires Agree(s)
    ensures |OutcomesIn(s.ch)| + |Unsent(s.mode)| <= 1
  {
    OwnIsShort(s);
    OutcomesAreOwn(s.ch);
    if |Own(s.ch)| == 2 { EnteringOutcomes(Own(s.ch)); } else { OneOutcome(Own(s.ch)); }
  }

  /** No result is lost, replaced or invented: over every run, the results the loop
      has handled, then the one in the channel or about to be sent, are exactly what
      OnKey returned, call by call, each under its call's generation; at most one is
      on its way. */
  lemma ResultsReachTheLoop(hotkey: Byte, acts: seq<Action>, st: Story)
    requires Told(hotkey, acts) == Some(st)
    ensures var out := OutcomesIn(st.heard) + OutcomesIn(st.s.ch) + Unsent(st.s.mode);
      && |OutcomesIn(st.s.ch)| + |Unsent(st.s.mode)| <= 1
      && |out| == |ReturnedBy(acts)| && |out| + (if st.s.mode.Running? then 1 else 0) == |st.s.calls|
      && forall k :: 0 <= k < |out| ==> out[k].result == ReturnedBy(acts)[k] && out[k].gen == st.s.calls[k].gen
  {
    StoryAdds(hotkey, acts);
    OutcomesPaired(hotkey, acts);
    OutcomesAppend(st.heard, st.s.ch);
    OneInFlight(st.s);
  }

  /** What the bar shows when the loop takes the result of an action: the error, the
      message, or whatever is next. */
  lemma ResultIsShown(s: State)
    requires Reachable(s) && s.ch != [] && s.ch[0].Action?
    ensures var l, l' := s.loop, Apply(s, LoopStep).loop;
      && l'.cmd.NoCommand?
      && match s.ch[0].result
         case Failed(m) => l'.bar == L.AlertBar(m) && l'.active.None? && l'.dismissArmed
         case Message(m) => l'.bar == L.Status(m) && l'.active.None? && l'.dismissArmed
         case Silent =>
           if l.book.queue != [] then L.OnBar(l', l.book.queue[0]) && l'.dismissArmed
           else l'.active.None? && l'.bar == if l.lastStatus != "" then L.Status(l.lastStatus) else L.Cleared
  {
    RequestsFitTheLoop(s);
  }

  /** h is the target and the keys of the alert on display. */
  ghost predicate Matches(l: L.Loop, h: Handler) {
    && h.target == (if l.active.None? then "" else l.active.value.target)
    && h.keys == L.VisibleKeys(l.active)
  }

  /** Both sides agree on what is open: in command mode the goroutine holds the
      current generation, and unless it was cancelled, the target and keys of the
      alert on display; while an action runs, the loop is waiting for exactly it. */
  lemma BothSidesAgree(s: State)
    requires Reachable(s)
    ensures s.mode.Command? ==>
      && s.mode.h.gen == s.loop.gen
      && (Cancelled(s, s.mode.h.gen) <==> s.loop.cmd.NoCommand?)
      && (!Cancelled(s, s.mode.h.gen) ==> s.loop.cmd.Active? && Matches(s.loop, s.mode.h))
    ensures s.mode.Running? || s.mode.WantAction? ==>
      s.loop.cmd.Pending? && s.mode.h.gen == s.loop.gen && Matches(s.loop, s.mode.h)
    ensures s.mode.Scan? && Own(s.ch) == [] ==> s.loop.cmd.NoCommand?
  {
    ReachableInv(s);
  }

  /** A pending action is somewhere: its acknowledgement, its OnKey call or its
      result is on the way, so the loop never waits for nothing. */
  lemma PendingIsBacked(s: State)
    requires Reachable(s) && s.loop.cmd.Pending?
    ensures (s.mode.AwaitAck? && s.loop.ack == Some(true)) || s.mode.Running? || s.mode.WantAction?
      || exists e :: e in s.ch && e.Action? && e.gen == s.loop.gen
  {
    ReachableInv(s);
    var own := Own(s.ch);
    if own != [] && own[0].Action? { OwnFrom(s.ch, own[0]); }
  }

  lemma {:induction false} OwnFrom(ch: seq<L.Event>, e: L.Event)
    requires e in Own(ch)
    ensures e in ch
  {
    if ch != [] && e != ch[|ch| - 1] { OwnFrom(ch[..|ch| - 1], e); }
  }

  /** OnKey runs at most once per generation. */
  lemma KeyRunsOnce(s: State, i: nat, j: nat)
    requires Reachable(s) && i < j < |s.calls|
    ensures s.calls[i].gen < s.calls[j].gen
  {
    ReachableInv(s);
  }

  /** Every call of OnKey was for the alert its generation was opened on, with that
      alert's target and a key that was on offer. */
  lemma KeyWasOnOffer(s: State, c: Call)
    requires Reachable(s) && c in s.calls
    ensures 0 < c.gen <= |s.loop.entered| && c.alert == s.loop.entered[c.gen - 1]
    ensures c.alert.Some? && c.target == c.alert.value.target
    ensures exists h :: h in c.alert.value.hints && h.key == c.key && L.Offers(c.alert.value, h)
  {
    ReachableInv(s);
    L.VisibleKeysAre(c.alert.value, L.Hint(0, false), c.key);
  }

  /** OnKey is called exactly for the acknowledged action keys, in order, each with the
      byte that was typed and the generation it was typed in. */
  lemma KeyIsWhatWasTyped(hotkey: Byte, acts: seq<Action>, st: Story)
    requires Told(hotkey, acts) == Some(st)
    ensures CallsMade(st.s.log, st.deeds, st.s.calls)
  {
    KeysTold(hotkey, acts);
  }

  /** OnKey is called only on a true acknowledgement, for the alert now active. */
  lemma KeyRunsAcked(s: State, a: Action)
    requires Reachable(s) && Enabled(s, a) && Apply(s, a).calls != s.calls
    ensures a.TakeAck? && s.loop.ack == Some(true) && s.loop.cmd.Pending?
    ensures var c := Apply(s, a).calls[|Apply(s, a).calls| - 1];
      c.gen == s.loop.gen && c.alert == s.loop.active && c.target == L.TargetOf(s.loop.active)
  {
    ReachableInv(s);
  }

  /** Byte k of stdin is kept from the PTY: it is an opening hotkey, or it was taken
      in a command mode that was open in the loop and is anything but a second
      hotkey, that is, Esc or a key whether on offer or not. */
  ghost predicate Swallowed(log: seq<Entry>, ds: seq<Deed>, k: nat, hotkey: Byte)
    requires k < |log| && k < |ds|
  {
    || log[k].fate.Opened?
    || (InCommand(if k == 0 then None else Some(log[k - 1].fate)) && ds[k].live
        && (log[k].b == ESC || log[k].b != hotkey))
  }

  /** The first n bytes without those kept from the PTY. */
  ghost function Kept(log: seq<Entry>, ds: seq<Deed>, hotkey: Byte, n: nat): Bytes
    requires n <= |log| && n <= |ds|
  {
    if n == 0 then []
    else Kept(log, ds, hotkey, n - 1) + if Swallowed(log, ds, n - 1, hotkey) then [] else [log[n - 1].b]
  }

  lemma {:induction false} ForwardedIsKept(l: L.Loop, log: seq<Entry>, ds: seq<Deed>, hotkey: Byte, n: nat)
    requires StdinOk(l, log, hotkey) && n <= |log| == |ds| && forall k :: 0 <= k < |log| ==> LiveOk(log, ds, k)
    ensures Forwarded(log[..n]) == Kept(log, ds, hotkey, n)
    decreases n
  {
    if n > 0 {
      ForwardedIsKept(l, log, ds, hotkey, n - 1);
      assert StdinEntryOk(l, log, n - 1, hotkey) && LiveOk(log, ds, n - 1);
      assert log[..n][..n - 1] == log[..n - 1];
    }
  }

  /** The PTY gets stdin in order, minus exactly the opening hotkeys and what was
      typed in an open command mode other than a second hotkey; what follows in the
      chunk is passed on, and the hotkey is looked for again only from the next chunk
      on. In command mode a byte is judged exactly if the loop had that generation
      open when the byte was taken: once the loop has ended it, the next byte and all
      after it pass. Keys are judged by what the alert on display offers. */
  lemma PtyGetsTheRest(hotkey: Byte, acts: seq<Action>, st: Story)
    requires Told(hotkey, acts) == Some(st)
    ensures var s := st.s;
      && BytesOf(s.log) + s.rest == s.input && StdinOk(s.loop, s.log, s.hotkey)
      && |st.deeds| == |s.log| && (forall k :: 0 <= k < |s.log| ==> LiveOk(s.log, st.deeds, k))
      && s.pty == Kept(s.log, st.deeds, s.hotkey, |s.log|)
  {
    StoryAdds(hotkey, acts);
    ForwardedIsKept(st.s.loop, st.s.log, st.deeds, st.s.hotkey, |st.s.log|);
    assert st.s.log[..|st.s.log|] == st.s.log;
  }

  /** The goroutine's events reach the loop in the order sent, and each byte that is
      done with had exactly the requests sent on its account that its fate stands
      for, given the loop's answer and what OnKey returned. */
  lemma RequestsAreTheFates(hotkey: Byte, acts: seq<Action>, st: Story)
    requires Told(hotkey, acts) == Some(st)
    ensures Own(st.heard + st.s.ch) == AllSent(st.deeds) && |st.deeds| == |st.s.log|
    ensures forall k :: 0 <= k < |st.s.log| - (if Busy(st.s.mode) then 1 else 0) ==> SettledAt(st.s.log, st.deeds, k)
  {
    StoryAdds(hotkey, acts);
  }

  // ----- Each chunk is one call of processInput ---------------------------

  lemma {:induction false} OpenCountAppend(x: seq<Entry>, y: seq<Entry>)
    ensures OpenCount(x + y) == OpenCount(x) + OpenCount(y)
  {
    if y == [] {
      assert x + y == x;
    } else {
      var init := y[..|y| - 1];
      OpenCountAppend(x, init);
      assert (x + y)[..|x + y| - 1] == x + init;
    }
  }

  /** Within one chunk. */
  ghost predicate Follows(part: seq<Entry>) {
    forall k :: 0 < k < |part| ==> FateFollows(Some(part[k - 1].fate), part[k].fate)
  }

  lemma {:induction false} OpensOnce(part: seq<Entry>, k: nat)
    requires Follows(part) && k <= |part|
    ensures OpenCount(part[..k]) <= 1
    ensures OpenCount(part[..k]) == 1 ==> k > 0 && !part[k - 1].fate.Typed?
    decreases k
  {
    if k > 0 {
      OpensOnce(part, k - 1);
      assert part[..k] == part[..k - 1] + [part[k - 1]];
      OpenCountSnoc(part[..k - 1], part[k - 1]);
      if k > 1 { assert FateFollows(Some(part[(k - 1) - 1].fate), part[k - 1].fate); }
    }
  }

  lemma {:induction false} HandlerIs(log: seq<Entry>, h: Handler, env: Env)
    ensures HandlerAfter(log, h, env) == if OpenCount(log) == 0 then h else env.reply
  {
    if log != [] { HandlerIs(log[..|log| - 1], h, env); }
  }

  /** What generation n offered. */
  ghost function Offered(l: L.Loop, n: nat): Handler {
    L.Offer(n, if 0 < n <= |l.entered| then l.entered[n - 1] else None)
  }

  /** Where the chunk's action key is, if it has one. */
  function ActedAt(part: seq<Entry>): (i: nat)
    ensures i <= |part| && (i < |part| ==> part[i].fate.Acted?)
    ensures forall k :: 0 <= k < i ==> !part[k].fate.Acted?
  {
    if part == [] || part[0].fate.Acted? then 0 else 1 + ActedAt(part[1..])
  }

  /** The answers this chunk met: cancellation as it stood at each byte, the
      acknowledgement and the result of its action key, and what the loop offered at
      an opening. */
  ghost function Met(l: L.Loop, part: seq<Entry>, ds: seq<Deed>, n: nat): Env
    requires |ds| == |part|
  {
    var i := ActedAt(part);
    Env(Offered(l, n + 1), i < |ds| && EnvOf(ds[i]).ack, if i < |ds| then EnvOf(ds[i]).result else Silent,
        (k: nat) => k < |ds| && !ds[k].live)
  }

  /** The call of processInput that read this chunk, command mode having been opened
      n times before. */
  ghost function CallFor(l: L.Loop, part: seq<Entry>, ds: seq<Deed>, hotkey: Byte, n: nat): Task
    requires part != [] && |ds| == |part|
  {
    Task(BytesOf(part), hotkey, if FateFollows(None, part[0].fate) then None else Some(Opened), Offered(l, n),
         Met(l, part, ds, n))
  }

  /** A chunk: entries a to b of the log, of which only the first starts a chunk. */
  ghost predicate IsChunk(log: seq<Entry>, a: nat, b: nat) {
    a < b <= |log| && log[a].first && forall j :: a < j < b ==> !log[j].first
  }

  lemma ChunkFollows(l: L.Loop, log: seq<Entry>, a: nat, b: nat, hotkey: Byte)
    requires StdinOk(l, log, hotkey) && IsChunk(log, a, b)
    ensures Follows(log[a..b])
  {
    var part := log[a..b];
    forall k | 0 < k < |part| ensures FateFollows(Some(part[k - 1].fate), part[k].fate) {
      assert StdinEntryOk(l, log, a + k, hotkey) && part[k - 1] == log[a + k - 1];
    }
  }

  /** Which generation the handler of a chunk is for, byte by byte. */
  lemma ChunkHandler(l: L.Loop, log: seq<Entry>, a: nat, b: nat, k: nat, env: Env)
    requires IsChunk(log, a, b) && Follows(log[a..b]) && k <= b - a && env.reply == Offered(l, OpenCount(log[..a]) + 1)
    ensures var n := OpenCount(log[..a + k]);
      HandlerAfter(log[a..b][..k], Offered(l, OpenCount(log[..a])), env) == Offered(l, n)
  {
    var part := log[a..b];
    OpensOnce(part, k);
    SlicePrefix(log, a, b, k);
    OpenCountAppend(log[..a], part[..k]);
    HandlerIs(part[..k], Offered(l, OpenCount(log[..a])), env);
  }

  lemma ChunkEntry(l: L.Loop, log: seq<Entry>, ds: seq<Deed>, a: nat, b: nat, k: nat, hotkey: Byte)
    requires IsChunk(log, a, b) && Follows(log[a..b]) && k < b - a && |ds| == |log|
    requires StdinEntryOk(l, log, a + k, hotkey) && LiveOk(log, ds, a + k)
    ensures EntryOk(CallFor(l, log[a..b], ds[a..b], hotkey, OpenCount(log[..a])), log[a..b], k)
  {
    var part, dpart := log[a..b], ds[a..b];
    var t := CallFor(l, part, dpart, hotkey, OpenCount(log[..a]));
    ChunkHandler(l, log, a, b, k, t.env);
    assert part[k] == log[a + k] && dpart[k] == ds[a + k] && part[0] == log[a];
    assert k > 0 ==> part[k - 1] == log[a + k - 1];
  }

  /** After its action key a chunk is passed on. */
  lemma {:induction false} ActsOnce(part: seq<Entry>, i: nat, k: nat)
    requires Follows(part) && i < k < |part| && part[i].fate.Acted?
    ensures part[k].fate.Rest?
    decreases k
  {
    if k > i + 1 { ActsOnce(part, i, k - 1); }
    assert FateFollows(Some(part[k - 1].fate), part[k].fate);
  }

  lemma ChunkRequests(l: L.Loop, log: seq<Entry>, ds: seq<Deed>, a: nat, b: nat, k: nat)
    requires IsChunk(log, a, b) && Follows(log[a..b]) && k < b - a && |ds| == |log| && SettledAt(log, ds, a + k)
    ensures ds[a + k].sent ==
      EventsOf(RequestsFor(log[a + k].fate, OpenCount(log[..a + k]), Met(l, log[a..b], ds[a..b], OpenCount(log[..a]))))
  {
    var part := log[a..b];
    if part[k].fate.Acted? {
      var i := ActedAt(part);
      if i < k { ActsOnce(part, i, k); }
      assert i == k && ds[a..b][k] == ds[a + k];
    }
  }

  lemma EventsAppend(x: seq<Request>, y: seq<Request>)
    ensures EventsOf(x + y) == EventsOf(x) + EventsOf(y)
  {
  }

  lemma {:induction false} ChunkSends(l: L.Loop, log: seq<Entry>, ds: seq<Deed>, a: nat, b: nat, k: nat)
    requires IsChunk(log, a, b) && Follows(log[a..b]) && k <= b - a && |ds| == |log|
    requires forall j :: a <= j < a + k ==> SettledAt(log, ds, j)
    ensures var n := OpenCount(log[..a]);
      AllSent(ds[a..b][..k]) == EventsOf(RequestsOf(log[a..b][..k], Offered(l, n), Met(l, log[a..b], ds[a..b], n)))
    decreases k
  {
    if k > 0 {
      var part, dpart, n, z := log[a..b], ds[a..b], OpenCount(log[..a]), k - 1;
      var env := Met(l, part, dpart, n);
      ChunkSends(l, log, ds, a, b, z);
      ChunkRequests(l, log, ds, a, b, z);
      ChunkHandler(l, log, a, b, z, env);
      assert part[..k][..z] == part[..z] && dpart[..k][..z] == dpart[..z];
      assert part[..k][z] == log[a + z] && dpart[..k][z] == ds[a + z];
      EventsAppend(RequestsOf(part[..z], Offered(l, n), env),
                   RequestsFor(log[a + z].fate, OpenCount(log[..a + z]), env));
    }
  }

  lemma ChunkLogOk(l: L.Loop, log: seq<Entry>, ds: seq<Deed>, a: nat, b: nat, hotkey: Byte)
    requires StdinOk(l, log, hotkey) && IsChunk(log, a, b) && |ds| == |log|
    requires forall k :: 0 <= k < |log| ==> LiveOk(log, ds, k)
    ensures Follows(log[a..b]) && LogOk(CallFor(l, log[a..b], ds[a..b], hotkey, OpenCount(log[..a])), log[a..b])
  {
    var part, t := log[a..b], CallFor(l, log[a..b], ds[a..b], hotkey, OpenCount(log[..a]));
    ChunkFollows(l, log, a, b, hotkey);
    forall k | 0 <= k < |part| ensures EntryOk(t, part, k) {
      assert StdinEntryOk(l, log, a + k, hotkey) && LiveOk(log, ds, a + k);
      ChunkEntry(l, log, ds, a, b, k, hotkey);
    }
  }

  lemma ChunkAllSent(l: L.Loop, log: seq<Entry>, ds: seq<Deed>, a: nat, b: nat)
    requires IsChunk(log, a, b) && Follows(log[a..b]) && |ds| == |log|
    requires forall j :: a <= j < b ==> SettledAt(log, ds, j)
    ensures var n := OpenCount(log[..a]);
      AllSent(ds[a..b]) == EventsOf(RequestsOf(log[a..b], Offered(l, n), Met(l, log[a..b], ds[a..b], n)))
  {
    ChunkSends(l, log, ds, a, b, b - a);
    assert log[a..b][..b - a] == log[a..b] && ds[a..b][..b - a] == ds[a..b];
  }

  /** Over every run, each chunk of stdin that is done with was dealt with as one call
      of processInput deals with it, the call being given what this chunk really met:
      the loop's offers, its cancellation as it stood at each byte, its
      acknowledgement, and what OnKey returned. LogOk and RequestsOf are what
      ProcessInput ensures of its log and its requests; LogOk admits no other log. */
  lemma ChunkIsProcessInput(hotkey: Byte, acts: seq<Action>, st: Story, a: nat, b: nat)
    requires Told(hotkey, acts) == Some(st) && IsChunk(st.s.log, a, b)
    requires b < |st.s.log| || !Busy(st.s.mode)
    ensures |st.deeds| == |st.s.log|
    ensures var log, ds, n := st.s.log, st.deeds, OpenCount(st.s.log[..a]);
      var t := CallFor(st.s.loop, log[a..b], ds[a..b], st.s.hotkey, n);
      LogOk(t, log[a..b]) && AllSent(ds[a..b]) == EventsOf(RequestsOf(log[a..b], t.h, t.env))
  {
    StoryAdds(hotkey, acts);
    var l, log, ds := st.s.loop, st.s.log, st.deeds;
    ChunkLogOk(l, log, ds, a, b, st.s.hotkey);
    ChunkAllSent(l, log, ds, a, b);
  }

  /** No alert gets stuck: outside command mode an alert that is showing or waiting
      has a dismissal armed or on its way, and command mode itself is always about
      to be timed out. */
  lemma NoAlertStuck(s: State)
    requires Reachable(s)
    ensures s.loop.cmd.NoCommand? && (s.loop.active.Some? || s.loop.book.queue != []) ==>
      s.loop.dismissArmed || InFlight(s, L.Dismiss)
    ensures s.loop.cmd.Active? ==> s.loop.idle == Some(s.loop.gen) || InFlight(s, L.Cancel(s.loop.gen, true))
  {
    ReachableInv(s);
  }

  lemma BooksBalance(b: L.Book)
    requires L.BookInv(b)
    ensures multiset(b.received) == multiset(b.direct) + multiset(L.Alerts(b.left)) + multiset(b.queue)
  {
    assert multiset(b.queued) == multiset(L.Alerts(b.left)) + multiset(b.queue);
  }

  /** No alert gets lost: over every run, the alerts published are, in order, those
      the loop has received and those still in the channel; each one received was
      shown at once, shown from the queue, dropped as the oldest of a full queue, or
      is still queued; alerts leave the queue in the order they entered it. */
  lemma NoAlertLost(hotkey: Byte, acts: seq<Action>, s: State)
    requires Exec(Initial(hotkey), acts) == Some(s)
    ensures var b := s.loop.book;
      && PublishedBy(acts) == b.received + L.AlertsIn(s.ch)
      && |b.queue| <= 64
      && b.queued == L.Alerts(b.left) + b.queue
      && multiset(b.received) == multiset(b.direct) + multiset(L.Alerts(b.left)) + multiset(b.queue)
      && (forall k :: 0 <= k < |b.left| && b.left[k].Dropped? ==> b.left[k].depth == 64)
  {
    ToldIsRun(hotkey, acts);
    StoryAdds(hotkey, acts);
    AlertsCarried(hotkey, acts);
    AlertsInAppend(Told(hotkey, acts).value.heard, s.ch);
    BooksBalance(s.loop.book);
  }

  // ----- What was shown was on the bar ------------------------------------

  lemma OnlyTheLoopBooks(s: State, a: Action)
    requires Enabled(s, a) && !a.LoopStep?
    ensures Apply(s, a).loop.book == s.loop.book
  {
  }

  /** The books went from those of l to those of l' by one event at most. */
  ghost predicate Booked(l: L.Loop, l': L.Loop) {
    l'.book == l.book || exists e :: L.BookStep(l, e, l')
  }

  lemma StepBooks(s: State, a: Action)
    requires Enabled(s, a)
    ensures Booked(s.loop, Apply(s, a).loop)
  {
    if a.LoopStep? { L.HandleBooks(s.loop, s.ch[0]); } else { OnlyTheLoopBooks(s, a); }
  }

  /** After n steps of the run the alerts shown at once were exactly these, and the
      last of them was on the bar. */
  ghost predicate ShownDirectly(hotkey: Byte, acts: seq<Action>, n: nat, direct: seq<L.Alert>) {
    n <= |acts| && direct != [] && Exec(Initial(hotkey), acts[..n]).Some? &&
    var l := Exec(Initial(hotkey), acts[..n]).value.loop;
    l.book.direct == direct && L.OnBar(l, direct[|direct| - 1])
  }

  /** After n steps exactly these had left the queue, and the last was on the bar. */
  ghost predicate ShownFromQueue(hotkey: Byte, acts: seq<Action>, n: nat, left: seq<L.Exit>) {
    n <= |acts| && left != [] && Exec(Initial(hotkey), acts[..n]).Some? &&
    var l := Exec(Initial(hotkey), acts[..n]).value.loop;
    l.book.left == left && L.OnBar(l, left[|left| - 1].alert)
  }

  ghost predicate WasShownDirectly(hotkey: Byte, acts: seq<Action>, direct: seq<L.Alert>) {
    exists n :: ShownDirectly(hotkey, acts, n, direct)
  }

  ghost predicate WasShownFromQueue(hotkey: Byte, acts: seq<Action>, left: seq<L.Exit>) {
    exists n :: ShownFromQueue(hotkey, acts, n, left)
  }

  lemma ShownEarlier(hotkey: Byte, init: seq<Action>, a: Action, direct: seq<L.Alert>, left: seq<L.Exit>)
    ensures WasShownDirectly(hotkey, init, direct) ==> WasShownDirectly(hotkey, init + [a], direct)
    ensures WasShownFromQueue(hotkey, init, left) ==> WasShownFromQueue(hotkey, init + [a], left)
  {
    if n: nat :| ShownDirectly(hotkey, init, n, direct) {
      assert (init + [a])[..n] == init[..n];
      assert ShownDirectly(hotkey, init + [a], n, direct);
    }
    if n: nat :| ShownFromQueue(hotkey, init, n, left) {
      assert (init + [a])[..n] == init[..n];
      assert ShownFromQueue(hotkey, init + [a], n, left);
    }
  }

  lemma StepShowsDirectly(l: L.Loop, l': L.Loop, k: nat)
    requires Booked(l, l') && |l.book.direct| <= k < |l'.book.direct|
    ensures l'.book.direct[..k + 1] == l'.book.direct && L.OnBar(l', l'.book.direct[k])
  {
  }

  lemma StepShowsQueued(l: L.Loop, l': L.Loop, k: nat)
    requires Booked(l, l') && |l.book.left| <= k < |l'.book.left| && l'.book.left[k].Shown?
    ensures l'.book.left[..k + 1] == l'.book.left && L.OnBar(l', l'.book.left[k].alert)
  {
  }

  lemma StepKeepsShown(l: L.Loop, l': L.Loop)
    requires Booked(l, l')
    ensures l.book.direct <= l'.book.direct && l.book.left <= l'.book.left
  {
  }

  /** The run acts ends in a loop l' whose books went from those of l by one event:
      what that event books as shown is on the bar. */
  lemma ShownNow(hotkey: Byte, acts: seq<Action>, l: L.Loop, l': L.Loop, k: nat)
    requires Booked(l, l')
    requires Exec(Initial(hotkey), acts).Some? && Exec(Initial(hotkey), acts).value.loop == l'
    ensures |l.book.direct| <= k < |l'.book.direct| ==> WasShownDirectly(hotkey, acts, l'.book.direct[..k + 1])
    ensures |l.book.left| <= k < |l'.book.left| && l'.book.left[k].Shown? ==>
      WasShownFromQueue(hotkey, acts, l'.book.left[..k + 1])
  {
    assert acts[..|acts|] == acts;
    if |l.book.direct| <= k < |l'.book.direct| {
      StepShowsDirectly(l, l', k);
      assert ShownDirectly(hotkey, acts, |acts|, l'.book.direct[..k + 1]);
    }
    if |l.book.left| <= k < |l'.book.left| && l'.book.left[k].Shown? {
      StepShowsQueued(l, l', k);
      assert ShownFromQueue(hotkey, acts, |acts|, l'.book.left[..k + 1]);
    }
  }

  lemma SamePrefix<T>(a: seq<T>, b: seq<T>, k: nat)
    requires a <= b && k < |a|
    ensures a[..k + 1] == b[..k + 1] && a[k] == b[k]
  {
  }

  /** Shown means displayed. Over every run, each alert booked as shown at once was
      on the bar at some moment of the run, with exactly the directly shown alerts
      before it booked by then; and so for each alert shown from the queue. Hence
      every showing is a moment of its own, and queued alerts are shown in the
      order in which they leave the queue. */
  lemma {:induction false} ShownWasOnBar(hotkey: Byte, acts: seq<Action>, k: nat)
    requires Exec(Initial(hotkey), acts).Some?
    ensures var b := Exec(Initial(hotkey), acts).value.loop.book;
      && (k < |b.direct| ==> WasShownDirectly(hotkey, acts, b.direct[..k + 1]))
      && (k < |b.left| && b.left[k].Shown? ==> WasShownFromQueue(hotkey, acts, b.left[..k + 1]))
    decreases |acts|
  {
    if acts != [] {
      var m := |acts| - 1;
      var init, a := acts[..m], acts[m];
      assert acts == init + [a];
      ExecSnoc(Initial(hotkey), init, a);
      var s := Exec(Initial(hotkey), init).value;
      var l, l' := s.loop, Apply(s, a).loop;
      StepBooks(s, a);
      StepKeepsShown(l, l');
      ShownNow(hotkey, acts, l, l', k);
      ShownWasOnBar(hotkey, init, k);
      ShownBefore(hotkey, init, a, l.book, l'.book, k);
    }
  }

  lemma ShownBefore(hotkey: Byte, init: seq<Action>, a: Action, b: L.Book, b': L.Book, k: nat)
    requires b.direct <= b'.direct && b.left <= b'.left
    ensures k < |b.direct| && WasShownDirectly(hotkey, init, b.direct[..k + 1]) ==>
      WasShownDirectly(hotkey, init + [a], b'.direct[..k + 1])
    ensures k < |b.left| && WasShownFromQueue(hotkey, init, b.left[..k + 1]) ==>
      WasShownFromQueue(hotkey, init + [a], b'.left[..k + 1])
    ensures k < |b.left| ==> b.left[k] == b'.left[k]
  {
    if k < |b.direct| { SamePrefix(b.direct, b'.direct, k); ShownEarlier(hotkey, init, a, b.direct[..k + 1], []); }
    if k < |b.left| { SamePrefix(b.left, b'.left, k); ShownEarlier(hotkey, init, a, [], b.left[..k + 1]); }
  }

  /** The last status heard is the one the loop falls back to. */
  lemma LastStatusIsKept(hotkey: Byte, acts: seq<Action>, st: Story)
    requires Told(hotkey, acts) == Some(st)
    ensures st.s.loop.lastStatus == L.StatusAfter("", st.heard)
  {
    StatusKept(hotkey, acts);
  }

  /** The bar shows the active alert, or in command mode its target. */
  lemma BarShowsAlert(s: State)
    requires Reachable(s)
    ensures s.loop.cmd.NoCommand? && s.loop.active.Some? ==>
      s.loop.bar == L.AlertBar(s.loop.active.value.message)
    ensures !s.loop.cmd.NoCommand? ==>
      s.loop.bar == L.CommandBar(if s.loop.active.None? then "" else s.loop.active.value.target)
  {
    ReachableInv(s);
  }

  /** The stdin goroutine's next step. */
  function NextStep(s: State): Action {
    match s.mode
    case Scan => ScanByte
    case Forward => ForwardRest
    case Command(h) => if Cancelled(s, h.gen) then NoticeCancelled else CommandByte
    case WantEnter => SendEnter
    case AwaitReply => TakeReply
    case WantCancel(_) => SendCancel
    case WantBegin(_, _) => SendBegin
    case AwaitAck(_, _) => TakeAck
    case Running(_, _) => KeyReturns(Silent)
    case WantAction(_, _) => SendAction
  }

  /** While an answer is outstanding its request is in the channel. */
  lemma RequestIsOnItsWay(s: State)
    requires Agree(s)
    requires (s.mode.AwaitReply? && s.loop.reply.None?) || (s.mode.AwaitAck? && s.loop.ack.None?)
    ensures s.ch != []
  {
    assert Own([]) == [];
  }

  lemma GoroutineMoves(s: State)
    requires Agree(s) && (s.rest != [] || Busy(s.mode)) && s.ch == []
    ensures Enabled(s, NextStep(s))
  {
    if s.mode.AwaitReply? && s.loop.reply.None? { RequestIsOnItsWay(s); }
    if s.mode.AwaitAck? && s.loop.ack.None? { RequestIsOnItsWay(s); }
  }

  /** No deadlock: the stdin goroutine is waiting for the user and ready for whatever
      is typed, or can take its next step, or is waiting for the loop, which then has
      an event to handle. */
  lemma NoDeadlock(s: State, data: Bytes)
    requires Reachable(s) && data != []
    ensures if s.rest == [] && !Busy(s.mode) then Enabled(s, ReadInput(data))
            else Enabled(s, NextStep(s)) || Enabled(s, LoopStep)
  {
    ReachableInv(s);
    if (s.rest != [] || Busy(s.mode)) && s.ch == [] { GoroutineMoves(s); }
  }

  /** The status source and the timers are held back only by a full channel. */
  lemma SourcesAreFree(s: State, a: L.Alert, m: string)
    ensures |s.ch| < 64 ==> Enabled(s, Publish(L.AlertEvent(a))) && Enabled(s, Publish(L.StatusEvent(m)))
    ensures s.loop.dismissArmed ==> Enabled(s, DismissFires)
    ensures s.loop.idle.Some? ==> Enabled(s, IdleFires)
    ensures |s.ch| < 64 ==> forall e :: e in s.firing ==> Enabled(s, TimerSends(e))
    ensures s.ch != [] ==> Enabled(s, LoopStep)
  {
  }
}
