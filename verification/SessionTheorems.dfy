/** What the session protocol guarantees in every reachable state, that is, after
    every interleaving of pump, attaches, closes, reads and the exit sequence. */
module SessionTheorems {
  import opened Basics
  import opened Session
  import opened Screens

  function ReplayOf(term: Terminal): Replay { h => Render(term(h)) }

  lemma {:induction false} WritesSplit(h: seq<TermEvent>, at: nat)
    requires at <= |h|
    ensures Writes(h) == Writes(h[..at]) + Writes(h[at..])
  {
    if at == |h| {
      assert h[..at] == h && h[at..] == [];
      assert Writes(h[at..]) == [] && Writes(h) + [] == Writes(h);
    } else {
      var init, last := h[..|h| - 1], h[|h| - 1];
      var w := if last.Write? then [last.data] else [];
      assert init + [last] == h && init[..at] == h[..at];
      WritesSplit(init, at);
      WritesSnoc(init, at, last);
      assert Writes(h) == Writes(init) + w;
      AppendAssoc(Writes(h[..at]), Writes(init[at..]), w);
    }
  }

  /** The chunks that the pump read from the shell, in order. */
  function ChunksOf(acts: seq<Action>): seq<Bytes> {
    if acts == [] then [] else (if acts[0].PumpChunk? then [acts[0].data] else []) + ChunksOf(acts[1..])
  }

  lemma StepWrites(replay: Replay, s: State, a: Action)
    requires Enabled(s, a)
    ensures Writes(Apply(replay, s, a).hist) == Writes(s.hist) + if a.PumpChunk? then [a.data] else []
  {
    HistGrows(replay, s, a);
    var h := Apply(replay, s, a).hist;
    if h != s.hist { assert h[..|s.hist|] == s.hist; }
    assert Writes(s.hist) + [] == Writes(s.hist);
  }

  /** The emulator is fed only by the pump's chunks and by resizes. */
  lemma HistGrows(replay: Replay, s: State, a: Action)
    requires Enabled(s, a)
    ensures var h := Apply(replay, s, a).hist;
      if a.PumpChunk? then h == s.hist + [Write(a.data)]
      else h == s.hist || h == s.hist + [Resized(Apply(replay, s, a).cols, Apply(replay, s, a).rows)]
  {
  }

  lemma {:induction false} RunWrites(replay: Replay, s: State, acts: seq<Action>)
    requires Exec(replay, s, acts).Some?
    ensures Writes(Exec(replay, s, acts).value.hist) == Writes(s.hist) + ChunksOf(acts)
    decreases acts
  {
    if acts == [] {
      assert Writes(s.hist) + [] == Writes(s.hist);
    } else {
      StepWrites(replay, s, acts[0]);
      RunWrites(replay, Apply(replay, s, acts[0]), acts[1..]);
      AppendAssoc(Writes(s.hist), if acts[0].PumpChunk? then [acts[0].data] else [], ChunksOf(acts[1..]));
    }
  }

  /** Over every run the emulator has been fed every chunk the pump read, in order,
      attached clients or not. */
  lemma OutputIsKept(replay: Replay, cols: nat, rows: nat, acts: seq<Action>)
    requires Exec(replay, Initial(cols, rows), acts).Some?
    ensures Writes(Exec(replay, Initial(cols, rows), acts).value.hist) == ChunksOf(acts)
  {
    RunWrites(replay, Initial(cols, rows), acts);
    assert [] + ChunksOf(acts) == ChunksOf(acts);
  }

  /** Replay before live output, and no chunk missing, repeated or reordered.

      The shell's output splits at the attach point: a client that is attached and
      not closed has been sent the rendering of the emulator after exactly the
      chunks before it, then every chunk after it; only the chunk the pump is
      handing out right now may still be owed. A client that has been closed may
      miss chunks but never sees one twice or out of order. */
  lemma ReplayThenLive(term: Terminal, s: State, i: nat)
    requires Reachable(ReplayOf(term), s) && i < |s.conns| && s.conns[i].joined
    ensures s.conns[i].joinedAt <= |s.hist|
    ensures var c := s.conns[i];
      var past, since := s.hist[..c.joinedAt], s.hist[c.joinedAt..];
      && Writes(s.hist) == Writes(past) + Writes(since)
      && (!c.done ==> c.sent + Owed(s.pump, i) == [Render(term(past))] + Writes(since))
      && Subsequence(c.sent + Owed(s.pump, i), [Render(term(past))] + Writes(since))
      && Shows(term(past), Render(term(past)))
  {
    ReachableInv(ReplayOf(term), s);
    assert StreamInv(ReplayOf(term), s, i);
    RenderShows(term(s.hist[..s.conns[i].joinedAt]));
    WritesSplit(s.hist, s.conns[i].joinedAt);
  }

  /** Bytes read are a prefix of bytes enqueued, nothing is read twice or lost in
      between, no send hits a closed channel and no channel is closed twice. */
  lemma ChannelSafety(replay: Replay, s: State, i: nat)
    requires Reachable(replay, s) && i < |s.conns|
    ensures !s.conns[i].fault
    ensures s.conns[i].got <= Flatten(s.conns[i].sent)
    ensures s.conns[i].got + s.conns[i].pending + Flatten(s.conns[i].buf) == Flatten(s.conns[i].sent)
    ensures |s.conns[i].buf| <= 1024
  {
    ReachableInv(replay, s);
    assert ConnInv(s, i);
  }

  /** Once pump has ended no client Attach ever returned can block in Read. */
  lemma NobodyHangs(replay: Replay, s: State, i: nat, room: nat)
    requires Reachable(replay, s) && s.pump.Ended? && i < |s.conns| && !s.conns[i].preclosing
    ensures s.conns[i].outputClosed || s.conns[i].done
    ensures Enabled(s, ReadPending(i, room)) || Enabled(s, ReadChunk(i, room)) || Enabled(s, ReadEof(i))
  {
    ReachableInv(replay, s);
    assert ConnInv(s, i);
  }

  /** A client that has read end of file without having been closed has read its
      replay and every chunk the shell ever wrote after it joined. */
  lemma ExitDeliversEverything(term: Terminal, s: State, i: nat)
    requires Reachable(ReplayOf(term), s) && i < |s.conns| && s.conns[i].joined
    requires s.conns[i].eof && !s.conns[i].done
    ensures s.conns[i].joinedAt <= |s.hist|
    ensures var past, since := s.hist[..s.conns[i].joinedAt], s.hist[s.conns[i].joinedAt..];
      s.conns[i].got == Render(term(past)) + Flatten(Writes(since)) && Shows(term(past), Render(term(past)))
  {
    ReachableInv(ReplayOf(term), s);
    assert ConnInv(s, i) && StreamInv(ReplayOf(term), s, i);
    ReplayThenLive(term, s, i);
    assert s.conns[i].sent + [] == s.conns[i].sent;
    assert ([Render(term(s.hist[..s.conns[i].joinedAt]))] + Writes(s.hist[s.conns[i].joinedAt..]))[1..]
        == Writes(s.hist[s.conns[i].joinedAt..]);
  }

  // ----- Reading ----------------------------------------------------------

  /** What a read of room bytes takes: all there is, or as much as fits. */
  ghost predicate FillsRoom(taken: Bytes, left: Bytes, room: nat) {
    |taken| <= room && (|taken| == room || left == [])
  }

  /** A read with room extends got to got', taking from avail and leaving left. */
  ghost predicate Takes(got: Bytes, got': Bytes, left: Bytes, avail: Bytes, room: nat) {
    got <= got' && got'[|got|..] + left == avail && FillsRoom(got'[|got|..], left, room)
  }

  lemma CutTakes(got: Bytes, avail: Bytes, room: nat)
    ensures var n := Min(room, |avail|);
      n <= |avail| && Takes(got, got + avail[..n], avail[n..], avail, room)
  {
    var n := Min(room, |avail|);
    assert (got + avail[..n])[|got|..] == avail[..n] && avail[..n] + avail[n..] == avail;
  }

  /** A read is served from the remainder of the last chunk; it gets all there is or
      as much as fits, and leaves the rest. */
  lemma PendingTakes(c: Conn, room: nat)
    ensures var c' := TakePending(c, room); Takes(c.got, c'.got, c'.pending, c.pending, room)
  {
    CutTakes(c.got, c.pending, room);
  }

  /** With no remainder it is served from the next chunk in the same way. */
  lemma ChunkTakes(c: Conn, room: nat)
    requires c.buf != []
    ensures var c' := TakeChunk(c, room); Takes(c.got, c'.got, c'.pending, c.buf[0], room) && c'.buf == c.buf[1..]
  {
    CutTakes(c.got, c.buf[0], room);
  }

  /** What is left for client c to read: bytes, and chunks they are in. */
  function Unread(c: Conn): nat { |c.pending| + |Flatten(c.buf)| + |c.buf| }

  ghost predicate OnlyReads(acts: seq<Action>, c: nat) {
    forall k :: 0 <= k < |acts| ==> (acts[k].ReadPending? || acts[k].ReadChunk?) && acts[k].c == c
  }

  /** Every read with room makes progress. */
  lemma ReadProgress(s: State, c: nat, room: nat)
    requires c < |s.conns| && room > 0 && (s.conns[c].pending != [] || s.conns[c].buf != [])
    ensures var conn := s.conns[c];
      Unread(if conn.pending != [] then TakePending(conn, room) else TakeChunk(conn, room)) < Unread(conn)
  {
    var conn := s.conns[c];
    if conn.pending == [] { assert Flatten(conn.buf) == conn.buf[0] + Flatten(conn.buf[1..]); }
  }

  ghost predicate DrainedBy(replay: Replay, s: State, c: nat, acts: seq<Action>) {
    && OnlyReads(acts, c) && Exec(replay, s, acts).Some?
    && var s' := Exec(replay, s, acts).value;
       c < |s'.conns| && s'.conns[c].pending == [] && s'.conns[c].buf == []
  }

  lemma DrainsAfter(replay: Replay, s: State, a: Action, next: State, c: nat, acts: seq<Action>)
    requires Enabled(s, a) && (a.ReadPending? || a.ReadChunk?) && a.c == c && Apply(replay, s, a) == next
    requires DrainedBy(replay, next, c, acts)
    ensures DrainedBy(replay, s, c, [a] + acts)
  {
    assert ([a] + acts)[1..] == acts;
  }

  /** Reading on with any room drains everything the client was sent. */
  lemma {:induction false} ReadsDrain(replay: Replay, s: State, c: nat, room: nat) returns (acts: seq<Action>)
    requires c < |s.conns| && room > 0
    ensures DrainedBy(replay, s, c, acts)
    decreases Unread(s.conns[c])
  {
    var conn := s.conns[c];
    if conn.pending == [] && conn.buf == [] {
      acts := [];
    } else {
      var a := if conn.pending != [] then ReadPending(c, room) else ReadChunk(c, room);
      var next := Put(s, c, if conn.pending != [] then TakePending(conn, room) else TakeChunk(conn, room));
      ReadProgress(s, c, room);
      var more := ReadsDrain(replay, next, c, room);
      DrainsAfter(replay, s, a, next, c, more);
      acts := [a] + more;
    }
  }

  lemma {:induction false} ReadsKeepSent(replay: Replay, s: State, c: nat, acts: seq<Action>)
    requires c < |s.conns| && OnlyReads(acts, c) && Exec(replay, s, acts).Some?
    ensures var s' := Exec(replay, s, acts).value; c < |s'.conns| && s'.conns[c].sent == s.conns[c].sent
    decreases acts
  {
    if acts != [] {
      assert acts[0].c == c;
      ReadsKeepSent(replay, Apply(replay, s, acts[0]), c, acts[1..]);
    }
  }

  /** In every reachable state, a reader that goes on reading gets everything its
      client has been sent. */
  lemma ReaderGetsAll(replay: Replay, s: State, c: nat, room: nat) returns (acts: seq<Action>)
    requires Reachable(replay, s) && c < |s.conns| && room > 0
    ensures DrainedBy(replay, s, c, acts)
    ensures Exec(replay, s, acts).value.conns[c].got == Flatten(s.conns[c].sent)
  {
    acts := ReadsDrain(replay, s, c, room);
    ReadsKeepSent(replay, s, c, acts);
    ReachableInv(replay, s);
    RunKeeps(replay, s, acts);
    var s' := Exec(replay, s, acts).value;
    assert ConnInv(s', c);
    assert s'.conns[c].got + [] + [] == s'.conns[c].got;
  }

  // ----- Size and reasons -------------------------------------------------

  /** The terminal's size changes only to a size asked for by the writer, or by the
      client that becomes writer, and then to exactly that size. */
  lemma WriterSetsTheSize(replay: Replay, s: State, a: Action)
    requires Enabled(s, a)
    ensures var s' := Apply(replay, s, a);
      (s'.cols != s.cols || s'.rows != s.rows) ==>
        && (a.DoAttach? || a.DoTakeOver? || a.DoResize?) && s'.cols == a.cols && s'.rows == a.rows
        && s'.writer == Some(if a.DoAttach? then |s.conns| else a.c)
        && s'.hist == s.hist + [Resized(a.cols, a.rows)]
  {
    match a
    case DoAttach(_, _) =>
    case DoTakeOver(_, _, _) =>
    case DoResize(_, _, _) =>
    case _ => assert Apply(replay, s, a).cols == s.cols && Apply(replay, s, a).rows == s.rows;
  }

  /** And it does change when the writer asks. */
  lemma WriterGetsTheSize(replay: Replay, s: State, c: nat, cols: nat, rows: nat)
    requires c < |s.conns|
    ensures s.writer == Some(c) ==>
      var s' := Apply(replay, s, DoResize(c, cols, rows)); s'.cols == cols && s'.rows == rows
    ensures c in s.clients && cols > 0 && rows > 0 ==>
      var s' := Apply(replay, s, DoTakeOver(c, cols, rows)); s'.cols == cols && s'.rows == rows && s'.writer == Some(c)
    ensures !s.exited && s.writer.None? && cols > 0 && rows > 0 ==>
      var s' := Attach(replay, s, cols, rows); s'.cols == cols && s'.rows == rows
  {
  }

  /** Why the last client left that gave a reason is on record; a client pump drops
      leaves as a slow consumer. */
  lemma ReasonsAreRecorded(replay: Replay, s: State, a: Action)
    requires Enabled(s, a)
    ensures var s' := Apply(replay, s, a);
      s'.lastReason == if a.CloseDetach? && !s.conns[a.c].reason.NoReason? then s.conns[a.c].reason else s.lastReason
    ensures a.CloseBegin? ==> Apply(replay, s, a).conns[a.c].reason == a.reason
    ensures a.PumpSlowClose? ==> Apply(replay, s, a).conns[s.pump.who].reason == SlowConsumer
  {
  }

  // ----- End of file without a reason -------------------------------------

  /** Callers close without a reason only once the shell has exited. */
  ghost predicate SilentOnlyAfterExit(replay: Replay, s: State, acts: seq<Action>)
    decreases acts
  {
    acts == [] || (Enabled(s, acts[0])
      && (acts[0].CloseBegin? && acts[0].reason.NoReason? ==> s.exited)
      && SilentOnlyAfterExit(replay, Apply(replay, s, acts[0]), acts[1..]))
  }

  ghost predicate NoneEarly(s: State) {
    forall i :: 0 <= i < |s.conns| ==> !s.conns[i].early
  }

  lemma PutNotEarly(s: State, c: nat, conn: Conn)
    requires NoneEarly(s) && c < |s.conns| && !conn.early
    ensures NoneEarly(Put(s, c, conn))
  {
  }

  lemma PumpNotEarly(replay: Replay, s: State, a: Action)
    requires NoneEarly(s) && Enabled(s, a) && IsPump(a)
    ensures NoneEarly(Apply(replay, s, a))
  {
    match a
    case PumpSend => PutNotEarly(s, s.pump.todo[0], Send(s.conns[s.pump.todo[0]], s.pump.data));
    case PumpSlowClose => PutNotEarly(s, s.pump.who, StoreReason(s.conns[s.pump.who], SlowConsumer, !s.exited));
    case PumpCloseOutput => PutNotEarly(s, s.pump.todo[0], CloseOutput(s.conns[s.pump.todo[0]]));
    case _ =>
  }

  lemma ReadNotEarly(replay: Replay, s: State, a: Action)
    requires NoneEarly(s) && Enabled(s, a) && (a.ReadPending? || a.ReadChunk? || a.ReadEof?)
    ensures NoneEarly(Apply(replay, s, a))
  {
    match a
    case ReadPending(c, room) => PutNotEarly(s, c, TakePending(s.conns[c], room));
    case ReadChunk(c, room) => PutNotEarly(s, c, TakeChunk(s.conns[c], room));
    case ReadEof(c) => PutNotEarly(s, c, s.conns[c].(eof := true));
  }

  lemma StepNotEarly(replay: Replay, s: State, a: Action)
    requires NoneEarly(s) && Enabled(s, a)
    requires a.CloseBegin? && a.reason.NoReason? ==> s.exited
    ensures NoneEarly(Apply(replay, s, a))
  {
    if IsPump(a) {
      PumpNotEarly(replay, s, a);
    } else if a.ReadPending? || a.ReadChunk? || a.ReadEof? {
      ReadNotEarly(replay, s, a);
    } else {
      match a
      case AttachReturnsClosed(c) => PutNotEarly(s, c, CloseOutput(s.conns[c]).(preclosing := false));
      case CloseBegin(c, reason) => PutNotEarly(s, c, StoreReason(s.conns[c], reason, !s.exited));
      case CloseDoneChannel(c) => PutNotEarly(s, c, CloseDone(s.conns[c]));
      case CloseDetach(c) => PutNotEarly(Detach(s, c), c, s.conns[c].(once := Complete));
      case _ =>
    }
  }

  lemma {:induction false} RunNotEarly(replay: Replay, s: State, acts: seq<Action>)
    requires SilentOnlyAfterExit(replay, s, acts) && NoneEarly(s)
    ensures Exec(replay, s, acts).Some? && NoneEarly(Exec(replay, s, acts).value)
    decreases acts
  {
    if acts != [] {
      StepNotEarly(replay, s, acts[0]);
      RunNotEarly(replay, Apply(replay, s, acts[0]), acts[1..]);
    }
  }

  /** Client c has read end of file with no reason although the shell is running. */
  ghost predicate Misled(s: State, c: nat) {
    c < |s.conns| && s.conns[c].eof && s.conns[c].reason.NoReason? && !s.exited
  }

  /** If callers close without a reason only after the exit, end of file with no
      reason means that the shell exited. */
  lemma EofWithoutReasonMeansExit(replay: Replay, cols: nat, rows: nat, acts: seq<Action>, i: nat)
    requires SilentOnlyAfterExit(replay, Initial(cols, rows), acts)
    ensures Exec(replay, Initial(cols, rows), acts).Some?
    ensures !Misled(Exec(replay, Initial(cols, rows), acts).value, i)
  {
    RunNotEarly(replay, Initial(cols, rows), acts);
    var s := Exec(replay, Initial(cols, rows), acts).value;
    InitialInv(replay, cols, rows);
    RunKeeps(replay, Initial(cols, rows), acts);
    if i < |s.conns| { assert ConnInv(s, i); }
  }

  ghost predicate MisleadsBy(replay: Replay, s: State, c: nat, acts: seq<Action>) {
    Exec(replay, s, acts).Some? && Misled(Exec(replay, s, acts).value, c)
  }

  /** Some continuation misleads client c. */
  ghost predicate CanMislead(replay: Replay, s: State, c: nat) {
    exists acts :: MisleadsBy(replay, s, c, acts)
  }

  lemma {:induction false} ExitedForEver(replay: Replay, s: State, acts: seq<Action>)
    requires s.exited && Exec(replay, s, acts).Some?
    ensures Exec(replay, s, acts).value.exited
    decreases acts
  {
    if acts != [] {
      ExitIsFinal(replay, s, acts[0]);
      ExitedForEver(replay, Apply(replay, s, acts[0]), acts[1..]);
    }
  }

  lemma Before(replay: Replay, s: State, a: Action, next: State, c: nat)
    requires Enabled(s, a) && Apply(replay, s, a) == next && CanMislead(replay, next, c)
    ensures CanMislead(replay, s, c)
  {
    var acts :| MisleadsBy(replay, next, c, acts);
    var all := [a] + acts;
    assert all[1..] == acts;
    assert MisleadsBy(replay, s, c, all);
  }

  /** A closed client reads what is pending, then end of file. */
  lemma ReadsToTheEnd(replay: Replay, s: State, c: nat)
    requires c < |s.conns| && s.conns[c].done && s.conns[c].reason.NoReason? && !s.exited
    ensures CanMislead(replay, s, c)
  {
    var s1 := Put(s, c, TakePending(s.conns[c], |s.conns[c].pending|));
    var s2 := Put(if s.conns[c].pending == [] then s else s1, c,
                  (if s.conns[c].pending == [] then s else s1).conns[c].(eof := true));
    assert MisleadsBy(replay, s2, c, []);
    if s.conns[c].pending == [] {
      Before(replay, s, ReadEof(c), s2, c);
    } else {
      Before(replay, s1, ReadEof(c), s2, c);
      Before(replay, s, ReadPending(c, |s.conns[c].pending|), s1, c);
    }
  }

  /** Closing client c without a reason is harmless exactly once the shell has
      exited: before that, from every reachable state, the run can go on so that
      c takes the close for an exit. */
  lemma SilentCloseIsSafeExactly(replay: Replay, s: State, c: nat)
    requires Reachable(replay, s) && Enabled(s, CloseBegin(c, NoReason))
    ensures s.exited <==> !CanMislead(replay, Apply(replay, s, CloseBegin(c, NoReason)), c)
  {
    var s1 := Put(s, c, StoreReason(s.conns[c], NoReason, !s.exited));
    assert Apply(replay, s, CloseBegin(c, NoReason)) == s1;
    if s.exited {
      forall acts ensures !MisleadsBy(replay, s1, c, acts) {
        if Exec(replay, s1, acts).Some? { ExitedForEver(replay, s1, acts); }
      }
    } else {
      var s2 := Put(s1, c, CloseDone(s1.conns[c]));
      ReadsToTheEnd(replay, s2, c);
      Before(replay, s1, CloseDoneChannel(c), s2, c);
    }
  }

  /** Such a state is reached by attaching once. */
  lemma SilentCloseIsPossible(replay: Replay, cols: nat, rows: nat)
    ensures var s := Attach(replay, Initial(cols, rows), cols, rows);
      Reachable(replay, s) && !s.exited && Enabled(s, CloseBegin(0, NoReason))
  {
    var s0, s := Initial(cols, rows), Attach(replay, Initial(cols, rows), cols, rows);
    assert [DoAttach(cols, rows)][1..] == [];
    assert Exec(replay, s, []) == Some(s);
    assert Exec(replay, s0, [DoAttach(cols, rows)]) == Some(s);
  }

  /** Clients are distinct and in attach order; there is a writer exactly when
      there are clients, and it is one of them. */
  lemma WriterIsAttached(replay: Replay, s: State)
    requires Reachable(replay, s)
    ensures Increasing(s.clients)
    ensures s.writer.None? <==> s.clients == []
    ensures s.writer.Some? ==> s.writer.value in s.clients
  {
    ReachableInv(replay, s);
  }

  /** When the writer leaves, the most recently attached remaining client takes
      over; when another client leaves, the writer stays. */
  lemma DetachPromotesLatest(replay: Replay, s: State, c: nat)
    requires Reachable(replay, s) && Enabled(s, CloseDetach(c))
    ensures var s' := Apply(replay, s, CloseDetach(c));
      && (forall x :: x in s'.clients <==> x in s.clients && x != c)
      && (s.writer != Some(c) ==> s'.writer == s.writer)
      && (s.writer == Some(c) && s'.clients != [] ==>
            s'.writer.Some? && s'.writer.value in s'.clients
            && forall x :: x in s'.clients ==> x <= s'.writer.value)
  {
    ReachableInv(replay, s);
    RemoveIs(s.clients, c);
    var r := Remove(s.clients, c);
    forall x | x in r ensures x <= r[|r| - 1] {
      var k :| 0 <= k < |r| && r[k] == x;
    }
  }

  /** TakeOver keeps the writer among the clients exactly when it is handed one. */
  lemma TakeOverNeedsAttached(s: State, c: nat, cols: nat, rows: nat)
    requires MembersInv(s)
    ensures MembersInv(ResizeIfNew(s.(writer := Some(c)), cols, rows)) <==> c in s.clients
  {
  }

  /** The pump is never stuck on a client: while it has a chunk to hand out or
      outputs to close, it can take a step, or the client it is dropping can. */
  lemma PumpAlwaysMoves(replay: Replay, s: State)
    requires Reachable(replay, s) && !s.pump.Ended? && !s.pump.Slow?
    ensures s.pump.Reading? || Enabled(s, PumpSend) || Enabled(s, PumpSkip) || Enabled(s, PumpFull)
      || Enabled(s, PumpNextRead) || Enabled(s, PumpCloseOutput) || Enabled(s, PumpEnd)
  {
    ReachableInv(replay, s);
    if !s.pump.Reading? && s.pump.todo != [] { assert s.pump.todo[0] in s.pump.todo; }
  }

  /** Only a client with 1024 chunks unread is dropped; one with room is served. */
  lemma DroppedOnlyWhenFull(s: State)
    ensures Enabled(s, PumpFull) ==> |s.conns[s.pump.todo[0]].buf| >= 1024 && !s.conns[s.pump.todo[0]].done
    ensures Delivering(s) && !s.conns[s.pump.todo[0]].outputClosed && |s.conns[s.pump.todo[0]].buf| < 1024 ==>
      Enabled(s, PumpSend)
  {
  }

  lemma SlowClientIsDropped(replay: Replay, s: State)
    requires Reachable(replay, s) && s.pump.Slow?
    ensures Enabled(s, PumpSlowClose) || Enabled(s, CloseDoneChannel(s.pump.who))
      || Enabled(s, CloseDetach(s.pump.who)) || Enabled(s, PumpSlowReturn)
  {
    ReachableInv(replay, s);
    assert s.pump.who in [s.pump.who] + s.pump.todo;
  }

  /** Once waitForExit is done, an empty client list means expiry was started, and
      expiry starts only for an exited session without clients. */
  lemma ExpiryStarted(replay: Replay, s: State)
    requires Reachable(replay, s)
    ensures s.waiter.Returned? && s.clients == [] ==> s.expiry
    ensures s.expiry ==> s.exited && s.clients == []
    ensures s.cleanup ==> s.expiry
  {
    ReachableInv(replay, s);
  }

  /** Nobody is held back: in every state clients may attach, the shell may write or
      exit, and a client that was returned may be closed for any reason, once. */
  lemma CallersAreFree(s: State, c: nat, reason: Reason, data: Bytes, cols: nat, rows: nat)
    requires data != []
    ensures Enabled(s, DoAttach(cols, rows))
    ensures s.pump.Reading? ==> Enabled(s, PumpChunk(data)) && Enabled(s, PumpError)
    ensures s.waiter.Running? ==> Enabled(s, ShellExit)
    ensures s.waiter.ExitSeen? && s.pump.Ended? ==> Enabled(s, RecordExit)
    ensures c < |s.conns| && !s.conns[c].preclosing && s.conns[c].once.Fresh? ==> Enabled(s, CloseBegin(c, reason))
    ensures c < |s.conns| && s.conns[c].once.Stored? ==> Enabled(s, CloseDoneChannel(c))
    ensures c < |s.conns| && s.conns[c].once.DoneClosed? ==> Enabled(s, CloseDetach(c))
    ensures c < |s.conns| ==> Enabled(s, DoResize(c, cols, rows))
    ensures c in s.clients ==> Enabled(s, DoTakeOver(c, cols, rows))
  {
  }
}
