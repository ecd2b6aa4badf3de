/** cmd/monitor_ui.go, the polling part of monitorScreen.Update, against the ring
    buffer it polls: entries keep arriving between the request, the answer and
    its delivery, and a poll may fail. */
module Polling {
  import opened Basics
  import opened LogBuffer

  /** pollInFlight is every state but Idle. */
  datatype Poll = Idle | Sent(after: nat) | Answered(entries: seq<Entry>)

  /** missed: some answer was computed when more than cap entries had arrived
      since the cursor. */
  datatype State = State(cap: nat, hist: seq<Entry>, items: seq<Entry>, cursor: nat, poll: Poll, missed: bool)

  function Initial(cap: nat): State { State(cap, [], [], 0, Idle, false) }

  datatype Action =
    | Log(domain: string, verdict: Verdict, info: string)
    | Tick
    | Answer
    | Deliver
    | PollFails

  predicate Enabled(s: State, a: Action) {
    match a
    case Log(_, _, _) => s.cap > 0   // with no slot to write, Add panics
    case Tick => s.poll.Idle?
    case Answer => s.poll.Sent?
    case Deliver => s.poll.Answered?
    case PollFails => !s.poll.Idle?
  }

  function Apply(s: State, a: Action): State
    requires Enabled(s, a)
  {
    match a
    case Log(d, v, i) => s.(hist := s.hist + [Entry(|s.hist| + 1, d, v, i)])
    case Tick => s.(poll := Sent(s.cursor))
    case Answer =>
      s.(poll := Answered(EntriesSince(s.hist, s.cap, s.poll.after)),
         missed := s.missed || (s.poll.after > 0 && |s.hist| - s.poll.after > s.cap))
    case Deliver =>
      var es := s.poll.entries;
      s.(poll := Idle, items := s.items + es, cursor := if es == [] then s.cursor else es[|es| - 1].id)
    case PollFails => s.(poll := Idle)
  }

  const DISCONNECT_GRACE_TICKS := 12   // three seconds of four ticks each

  /** What a tick leads to. */
  datatype Ticked = Quiet | Request(after: nat) | GoBack

  /** The screen's polling fields. hasBack: the screen was opened from another one,
      to which it returns after twelve ticks without a connection;
      disconnectTick counts those, -1 while connected. */
  class MonitorScreen {
    const hasBack: bool
    const hasClient: bool
    var items: seq<Entry>
    var pollCursor: nat
    var pollInFlight: bool
    var firstTickSeen: bool
    var disconnectTick: int

    constructor (hasBack: bool, hasClient: bool)
      ensures items == [] && pollCursor == 0 && !pollInFlight && !firstTickSeen && disconnectTick == -1
    {
      this.hasBack, this.hasClient := hasBack, hasClient;
      items, pollCursor, pollInFlight, firstTickSeen, disconnectTick := [], 0, false, false, -1;
    }

    /** The screen agrees with the polling state s. */
    ghost predicate Shows(s: State)
      reads this
    {
      items == s.items && pollCursor == s.cursor && (pollInFlight <==> !s.poll.Idle?)
    }

    predicate Disconnected()
      reads this
    {
      hasBack && disconnectTick >= 0
    }

    /** A tick. A request is sent exactly on the first tick or when the interval has
        elapsed, if none is in flight and the session is connected, and it asks for
        what is after the cursor. */
    method OnTick(elapsed: bool, ghost s: State) returns (t: Ticked)
      requires Shows(s)
      modifies this`pollInFlight, this`firstTickSeen, this`disconnectTick
      ensures t.Request? <==>
        old(!Disconnected()) && (elapsed || old(!firstTickSeen)) && Enabled(s, Tick) && hasClient
      ensures t.Request? ==> Shows(Apply(s, Tick)) && Apply(s, Tick).poll == Sent(t.after)
      ensures !t.Request? ==> Shows(s)
      ensures t.GoBack? <==> old(Disconnected()) && old(disconnectTick) + 1 >= 12
      ensures disconnectTick == if old(Disconnected()) then old(disconnectTick) + 1 else old(disconnectTick)
      ensures firstTickSeen == (old(firstTickSeen) || !t.GoBack?)
    {
      if hasBack && disconnectTick >= 0 {
        disconnectTick := disconnectTick + 1;
        if disconnectTick >= DISCONNECT_GRACE_TICKS { return GoBack; }
        firstTickSeen := true;
        return Quiet;
      }
      if (elapsed || !firstTickSeen) && !pollInFlight {
        firstTickSeen := true;
        if !hasClient { return Quiet; }
        pollInFlight := true;
        return Request(pollCursor);
      }
      firstTickSeen := true;
      return Quiet;
    }

    /** A poll's answer, or its failure. */
    method OnPollResult(result: Option<seq<Entry>>, ghost s: State)
      requires Shows(s) && !s.poll.Idle? && (result.Some? ==> s.poll == Answered(result.value))
      modifies this`items, this`pollCursor, this`pollInFlight, this`disconnectTick
      ensures Shows(Apply(s, if result.Some? then Deliver else PollFails))
      ensures hasBack ==> (Disconnected() <==> result.None?)
    {
      pollInFlight := false;
      if result.None? {
        if hasBack && disconnectTick < 0 { disconnectTick := 0; }
        return;
      }
      disconnectTick := -1;
      var es := result.value;
      for i := 0 to |es|
        invariant items == old(items) + es[..i] && !pollInFlight && disconnectTick == -1
        invariant pollCursor == if i == 0 then old(pollCursor) else es[i - 1].id
      {
        items, pollCursor := items + [es[i]], es[i].id;
      }
    }
  }

  function Exec(s: State, acts: seq<Action>): Option<State>
    decreases acts
  {
    if acts == [] then Some(s)
    else if !Enabled(s, acts[0]) then None
    else Exec(Apply(s, acts[0]), acts[1..])
  }

  ghost predicate Reachable(s: State) {
    exists cap, acts :: Exec(Initial(cap), acts) == Some(s)
  }

  predicate ItemIn(h: seq<Entry>, e: Entry) { 1 <= e.id <= |h| && h[e.id - 1] == e }

  /** es is a piece of the history: true entries with consecutive ids. */
  ghost predicate Piece(h: seq<Entry>, es: seq<Entry>) {
    && (forall k :: 0 <= k < |es| ==> ItemIn(h, es[k]))
    && (forall k :: 0 <= k < |es| ==> es[k].id == es[0].id + k)
  }

  ghost predicate ItemsInv(h: seq<Entry>, items: seq<Entry>, cursor: nat) {
    && (forall k :: 0 <= k < |items| ==> ItemIn(h, items[k]))
    && (forall i, j :: 0 <= i < j < |items| ==> items[i].id < items[j].id)
    && cursor == (if items == [] then 0 else items[|items| - 1].id)
  }

  ghost predicate AnswerInv(s: State, es: seq<Entry>) {
    && Piece(s.hist, es) && (es != [] ==> es[0].id > s.cursor)
    && (!s.missed && s.cursor > 0 && es != [] ==> es[0].id == s.cursor + 1)
  }

  ghost predicate Inv(s: State) {
    && (s.cap == 0 ==> s.hist == []) && Numbered(s.hist) && ItemsInv(s.hist, s.items, s.cursor)
    && (!s.missed ==> Piece(s.hist, s.items))
    && (s.poll.Sent? ==> s.poll.after == s.cursor)
    && (s.poll.Answered? ==> AnswerInv(s, s.poll.entries))
  }

  /** The end of the history from entry lo on. */
  lemma TailIsPiece(h: seq<Entry>, lo: nat)
    requires Numbered(h) && lo <= |h|
    ensures Piece(h, h[lo..]) && (lo < |h| ==> h[lo..][0].id == lo + 1)
  {
    var es := h[lo..];
    forall k | 0 <= k < |es| ensures ItemIn(h, es[k]) && es[k].id == lo + k + 1 { assert es[k] == h[lo + k]; }
  }

  /** Every answer is the end of the history, from after what was asked for. */
  lemma AnswerIsTail(h: seq<Entry>, cap: nat, after: nat)
    requires after <= |h|
    ensures var es := EntriesSince(h, cap, after);
      |es| <= |h| - after && es == h[|h| - |es|..]
  {
    if after == 0 {
      LastIsTail(h, cap);
      LastIsTail(Last(h, cap), FIRST_POLL);
      TailOfTail(h, TailAt(|h|, cap), TailAt(|Last(h, cap)|, FIRST_POLL));
    } else {
      SinceIsTail(h, cap, after);
    }
  }

  /** Answers are consecutive entries, newer than asked for. */
  lemma AnswerIsPiece(h: seq<Entry>, cap: nat, after: nat)
    requires Numbered(h) && after <= |h|
    ensures var es := EntriesSince(h, cap, after);
      Piece(h, es) && (es != [] ==> es[0].id > after)
  {
    AnswerIsTail(h, cap, after);
    TailIsPiece(h, |h| - |EntriesSince(h, cap, after)|);
  }

  /** The answer continues exactly where the client left off, if and only if no
      more than cap entries have arrived since. */
  lemma NoGapExactly(h: seq<Entry>, cap: nat, after: nat)
    requires Numbered(h) && 0 < after <= |h|
    ensures EntriesSince(h, cap, after) == h[after..] <==> |h| - after <= cap
  {
    if |h| - after > cap { assert |EntriesSince(h, cap, after)| == cap; }
    if after == |h| { assert h[after..] == []; }
  }

  lemma PieceGrows(h: seq<Entry>, x: Entry, es: seq<Entry>)
    ensures Piece(h, es) ==> Piece(h + [x], es)
    ensures forall e :: ItemIn(h, e) ==> ItemIn(h + [x], e)
  {
  }

  lemma LogKeeps(s: State, a: Action)
    requires Inv(s) && a.Log? && s.cap > 0
    ensures Inv(Apply(s, a))
  {
    var s' := Apply(s, a);
    var x := s'.hist[|s.hist|];
    PieceGrows(s.hist, x, s.items);
    if s.poll.Answered? { PieceGrows(s.hist, x, s.poll.entries); }
    assert ItemsInv(s'.hist, s'.items, s'.cursor);
  }

  lemma DeliverKeeps(s: State)
    requires Inv(s) && s.poll.Answered?
    ensures Inv(Apply(s, Deliver))
  {
    var s', es := Apply(s, Deliver), s.poll.entries;
    if es == [] {
      assert s'.items == s.items;
    } else {
      assert forall k :: 0 <= k < |s.items| ==> s.items[k].id <= s.cursor;
      assert ItemsInv(s'.hist, s'.items, s'.cursor);
      if !s.missed && s.items != [] { assert s.cursor == s.items[0].id + |s.items| - 1; }
      if s.items == [] { assert s'.items == es; }
    }
  }

  lemma AnswerKeeps(s: State)
    requires Inv(s) && s.poll.Sent?
    ensures Inv(Apply(s, Answer))
  {
    var s' := Apply(s, Answer);
    if s.items != [] { assert ItemIn(s.hist, s.items[|s.items| - 1]); }
    AnswerIsPiece(s.hist, s.cap, s.cursor);
    if s.cursor > 0 { NoGapExactly(s.hist, s.cap, s.cursor); }
  }

  lemma StepKeeps(s: State, a: Action)
    requires Inv(s) && Enabled(s, a)
    ensures Inv(Apply(s, a))
  {
    match a
    case Log(_, _, _) => LogKeeps(s, a);
    case Answer => AnswerKeeps(s);
    case Deliver => DeliverKeeps(s);
    case _ =>
  }

  lemma {:induction false} RunKeeps(s: State, acts: seq<Action>)
    requires Inv(s) && Exec(s, acts).Some?
    ensures Inv(Exec(s, acts).value)
    decreases acts
  {
    if acts != [] {
      StepKeeps(s, acts[0]);
      RunKeeps(Apply(s, acts[0]), acts[1..]);
    }
  }

  lemma ReachableInv(s: State)
    requires Reachable(s)
    ensures Inv(s)
  {
    var cap, acts :| Exec(Initial(cap), acts) == Some(s);
    RunKeeps(Initial(cap), acts);
  }

  /** The monitor shows real entries with strictly increasing ids, whatever the
      timing and whichever polls fail. */
  lemma MonitorIsOrdered(s: State)
    requires Reachable(s)
    ensures forall i, j :: 0 <= i < j < |s.items| ==> s.items[i].id < s.items[j].id
    ensures forall k :: 0 <= k < |s.items| ==> s.items[k] in s.hist
  {
    ReachableInv(s);
    forall k | 0 <= k < |s.items| ensures s.items[k] in s.hist { assert ItemIn(s.hist, s.items[k]); }
  }

  /** While no answer found more than cap new entries, what the monitor shows is a
      gap-free piece of the history, up to the cursor. */
  lemma MonitorHasNoGaps(s: State)
    requires Reachable(s) && !s.missed && s.items != []
    ensures 1 <= s.items[0].id <= s.cursor <= |s.hist|
    ensures s.items == s.hist[s.items[0].id - 1..s.cursor]
  {
    ReachableInv(s);
    var lo := s.items[0].id - 1;
    assert ItemIn(s.hist, s.items[0]) && ItemIn(s.hist, s.items[|s.items| - 1]);
    assert s.cursor == lo + |s.items|;
    forall k | 0 <= k < |s.items| ensures s.items[k] == s.hist[lo + k] { assert ItemIn(s.hist, s.items[k]); }
  }

  /** A poll that is sent, answered and delivered with nothing logged meanwhile. */
  function Polled(s: State): State
    requires s.poll.Idle?
  {
    Apply(Apply(Apply(s, Tick), Answer), Deliver)
  }

  lemma PollRuns(s: State)
    requires s.poll.Idle?
    ensures Exec(s, [Tick, Answer, Deliver]) == Some(Polled(s))
  {
    var s1 := Apply(s, Tick);
    var s2 := Apply(s1, Answer);
    assert [Tick, Answer, Deliver][1..] == [Answer, Deliver];
    assert [Answer, Deliver][1..] == [Deliver];
    assert [Deliver][1..] == [];
    assert Exec(s2, [Deliver]) == Some(Polled(s));
    assert Exec(s1, [Answer, Deliver]) == Exec(s2, [Deliver]);
  }

  /** Such a poll brings the monitor up to date: it keeps what it showed and goes on
      to the latest entry, without a gap unless more than cap entries had arrived. */
  lemma PollCatchesUp(s: State)
    requires Reachable(s) && s.poll.Idle?
    ensures var s' := Polled(s);
      && s'.hist == s.hist && s'.poll.Idle? && s'.cursor == |s.hist| && s.items <= s'.items
      && (s.hist != [] ==> s'.items != [] && s'.items[|s'.items| - 1] == s.hist[|s.hist| - 1])
      && (s.cursor > 0 && |s.hist| - s.cursor <= s.cap ==> s'.items == s.items + s.hist[s.cursor..])
  {
    ReachableInv(s);
    PolledIs(s);
    CursorInRange(s);
    CatchesUp(s.hist, s.cap, s.items, s.cursor);
  }

  /** The same on plain sequences. */
  lemma CatchesUp(h: seq<Entry>, cap: nat, items: seq<Entry>, cursor: nat)
    requires Numbered(h) && cursor <= |h| && (cap == 0 ==> h == [])
    requires cursor > 0 ==> items != [] && items[|items| - 1] == h[cursor - 1]
    ensures var es := EntriesSince(h, cap, cursor);
      && items <= items + es && (if es == [] then cursor else es[|es| - 1].id) == |h|
      && (h != [] ==> items + es != [] && (items + es)[|items + es| - 1] == h[|h| - 1])
      && (cursor > 0 && |h| - cursor <= cap ==> es == h[cursor..])
  {
    var es := EntriesSince(h, cap, cursor);
    AnswerReachesEnd(h, cap, cursor);
    if cursor > 0 { NoGapExactly(h, cap, cursor); }
    LastOfBoth(items, es);
  }

  lemma PolledIs(s: State)
    requires s.poll.Idle?
    ensures var s', es := Polled(s), EntriesSince(s.hist, s.cap, s.cursor);
      && s'.hist == s.hist && s'.poll.Idle? && s'.items == s.items + es
      && s'.cursor == if es == [] then s.cursor else es[|es| - 1].id
  {
  }

  lemma CursorInRange(s: State)
    requires Inv(s)
    ensures s.cursor <= |s.hist| && (s.cursor > 0 ==> s.items != [] && s.items[|s.items| - 1] == s.hist[s.cursor - 1])
  {
    if s.items != [] { assert ItemIn(s.hist, s.items[|s.items| - 1]); }
  }

  lemma LastOfBoth(a: seq<Entry>, b: seq<Entry>)
    ensures a <= a + b
    ensures a + b != [] ==> (a + b)[|a + b| - 1] == if b == [] then a[|a| - 1] else b[|b| - 1]
  {
  }

  /** An answer ends with the latest entry, and is empty only if that is known. */
  lemma AnswerReachesEnd(h: seq<Entry>, cap: nat, after: nat)
    requires Numbered(h) && after <= |h| && (cap == 0 ==> h == [])
    ensures var es := EntriesSince(h, cap, after);
      if es == [] then after == |h| else h != [] && es[|es| - 1] == h[|h| - 1] && es[|es| - 1].id == |h|
  {
    AnswerIsTail(h, cap, after);
  }
}
