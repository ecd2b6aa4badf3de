/** The persistent PTY session protocol of session/session.go and
    session/client.go as a step system: one action per critical section, so any
    interleaving of the goroutines is a sequence of actions.

    The terminal emulator is uninterpreted: the replay it yields is an arbitrary
    function of the events it has been fed, in order. Module Screens says how
    Attach builds that replay from what the emulator shows. */
module Session {
  import opened Basics

  const CHANNEL_CAP := 1024

  datatype TermEvent = Write(data: Bytes) | Resized(cols: nat, rows: nat)

  /** What Attach would send to a new client, as a function of the emulator's past. */
  type Replay = seq<TermEvent> -> Bytes

  datatype Reason = NoReason | Disconnect | Keepalive | SlowConsumer

  /** Progress of a client's closeOnce body. */
  datatype Once = Fresh | Stored | DoneClosed | Complete

  /** A client. The output channel is (buf, closed); sent, got, eof, early,
      joined and joinedAt record history and steer nothing. A send on a closed
      channel or a second close is a panic in Go and sets fault. */
  datatype Conn = Conn(
    buf: seq<Bytes>, closed: bool, outputClosed: bool,
    done: bool, once: Once, reason: Reason, pending: Bytes, preclosing: bool,
    sent: seq<Bytes>, got: Bytes, eof: bool, early: bool,
    joined: bool, joinedAt: nat, fault: bool)

  datatype Pump =
    | Reading
    | Deliver(data: Bytes, todo: seq<nat>)
    | Slow(data: Bytes, who: nat, todo: seq<nat>)
    | Closing(todo: seq<nat>)
    | Ended

  datatype Waiter = Running | ExitSeen | Recorded(hadClients: bool) | Returned

  /** Clients are named by their creation order. */
  datatype State = State(
    hist: seq<TermEvent>, cols: nat, rows: nat,
    clients: seq<nat>, writer: Option<nat>, exited: bool, lastReason: Reason,
    conns: seq<Conn>, pump: Pump, waiter: Waiter,
    expiry: bool, cleanup: bool)

  function Initial(cols: nat, rows: nat): State {
    State([], cols, rows, [], None, false, NoReason, [], Reading, Running, false, false)
  }

  // ----- Client operations ------------------------------------------------

  function NewConn(joined: bool, at: nat): Conn {
    Conn([], false, false, false, Fresh, NoReason, [], !joined, [], [], false, false, joined, at, false)
  }

  function Send(c: Conn, data: Bytes): Conn {
    if c.closed then c.(fault := true) else c.(buf := c.buf + [data], sent := c.sent + [data])
  }

  function CloseOutput(c: Conn): Conn {
    if c.outputClosed then c
    else c.(outputClosed := true, closed := true, fault := c.fault || c.closed)
  }

  function CloseDone(c: Conn): Conn {
    c.(done := true, once := DoneClosed, fault := c.fault || c.done)
  }

  /** early: closed without a reason while the shell was running. */
  function StoreReason(c: Conn, reason: Reason, running: bool): Conn {
    c.(once := Stored, reason := reason, early := c.early || (reason.NoReason? && running))
  }

  function Min(a: nat, b: nat): nat { if a < b then a else b }

  /** Read served from the remainder of the previous chunk. */
  function TakePending(c: Conn, room: nat): Conn {
    var n := Min(room, |c.pending|);
    c.(got := c.got + c.pending[..n], pending := c.pending[n..])
  }

  /** Read served from the channel. */
  function TakeChunk(c: Conn, room: nat): Conn
    requires c.buf != []
  {
    var n := Min(room, |c.buf[0]|);
    c.(buf := c.buf[1..], got := c.got + c.buf[0][..n], pending := c.buf[0][n..])
  }

  // ----- Session critical sections ---------------------------------------

  function ResizeLocked(s: State, cols: nat, rows: nat): State {
    s.(hist := s.hist + [Resized(cols, rows)], cols := cols, rows := rows)
  }

  function ResizeIfNew(s: State, cols: nat, rows: nat): State {
    if cols > 0 && rows > 0 && (cols != s.cols || rows != s.rows) then ResizeLocked(s, cols, rows) else s
  }

  function Attach(replay: Replay, s: State, cols: nat, rows: nat): State {
    if s.exited then s.(conns := s.conns + [NewConn(false, |s.hist|)])
    else
      var id := |s.conns|;
      var c := Send(NewConn(true, |s.hist|), replay(s.hist));
      var s1 := if s.writer.None? then ResizeIfNew(s.(writer := Some(id)), cols, rows) else s;
      s1.(conns := s1.conns + [c], clients := s1.clients + [id])
  }

  function Remove(cs: seq<nat>, c: nat): seq<nat> {
    if cs == [] then [] else if cs[0] == c then cs[1..] else [cs[0]] + Remove(cs[1..], c)
  }

  function Detach(s: State, c: nat): State
    requires c < |s.conns|
  {
    var clients := Remove(s.clients, c);
    var writer := if s.writer == Some(c)
                  then (if clients == [] then None else Some(clients[|clients| - 1]))
                  else s.writer;
    s.(clients := clients, writer := writer,
       lastReason := if s.conns[c].reason.NoReason? then s.lastReason else s.conns[c].reason,
       expiry := s.expiry || (clients == [] && s.exited))
  }

  // ----- The step system --------------------------------------------------

  datatype Action =
    | PumpChunk(data: Bytes)
    | PumpSend
    | PumpSkip
    | PumpFull
    | PumpSlowClose
    | PumpSlowReturn
    | PumpNextRead
    | PumpError
    | PumpCloseOutput
    | PumpEnd
    | DoAttach(cols: nat, rows: nat)
    | AttachReturnsClosed(c: nat)
    | CloseBegin(c: nat, reason: Reason)
    | CloseDoneChannel(c: nat)
    | CloseDetach(c: nat)
    | DoTakeOver(c: nat, cols: nat, rows: nat)
    | DoResize(c: nat, cols: nat, rows: nat)
    | ReadPending(c: nat, room: nat)
    | ReadChunk(c: nat, room: nat)
    | ReadEof(c: nat)
    | ShellExit
    | RecordExit
    | WaiterReturns
    | ExpiryFires

  predicate Enabled(s: State, a: Action) {
    match a
    case PumpChunk(data) => s.pump.Reading? && data != []
    case PumpSend => Delivering(s) &&
      var c := s.conns[s.pump.todo[0]]; !c.outputClosed && |c.buf| < CHANNEL_CAP
    case PumpSkip => Delivering(s) &&
      var c := s.conns[s.pump.todo[0]]; c.outputClosed || c.done
    case PumpFull => Delivering(s) &&
      var c := s.conns[s.pump.todo[0]]; !c.outputClosed && !c.done && |c.buf| >= CHANNEL_CAP
    case PumpSlowClose => s.pump.Slow? && s.pump.who < |s.conns| && s.conns[s.pump.who].once.Fresh?
    case PumpSlowReturn => s.pump.Slow? && s.pump.who < |s.conns| && s.conns[s.pump.who].once.Complete?
    case PumpNextRead => s.pump.Deliver? && s.pump.todo == []
    case PumpError => s.pump.Reading?
    case PumpCloseOutput => s.pump.Closing? && s.pump.todo != [] && s.pump.todo[0] < |s.conns|
    case PumpEnd => s.pump.Closing? && s.pump.todo == []
    case DoAttach(_, _) => true
    case AttachReturnsClosed(c) => c < |s.conns| && s.conns[c].preclosing
    case CloseBegin(c, _) => c < |s.conns| && !s.conns[c].preclosing && s.conns[c].once.Fresh?
    case CloseDoneChannel(c) => c < |s.conns| && s.conns[c].once.Stored?
    case CloseDetach(c) => c < |s.conns| && s.conns[c].once.DoneClosed?
    case DoTakeOver(c, _, _) => c in s.clients
    case DoResize(c, _, _) => c < |s.conns|
    case ReadPending(c, _) => c < |s.conns| && s.conns[c].pending != []
    case ReadChunk(c, _) => c < |s.conns| && s.conns[c].pending == [] && s.conns[c].buf != []
    case ReadEof(c) => c < |s.conns| && s.conns[c].pending == [] &&
      (s.conns[c].done || (s.conns[c].closed && s.conns[c].buf == []))
    case ShellExit => s.waiter.Running?
    case RecordExit => s.waiter.ExitSeen? && s.pump.Ended?
    case WaiterReturns => s.waiter.Recorded?
    case ExpiryFires => s.expiry
  }

  function Put(s: State, c: nat, conn: Conn): State
    requires c < |s.conns|
  {
    s.(conns := s.conns[c := conn])
  }

  /** The pump has a client to deliver to. */
  predicate Delivering(s: State) { s.pump.Deliver? && s.pump.todo != [] && s.pump.todo[0] < |s.conns| }

  function PumpSent(s: State): State
    requires Delivering(s)
  {
    var c := s.pump.todo[0];
    Put(s, c, Send(s.conns[c], s.pump.data)).(pump := Deliver(s.pump.data, s.pump.todo[1..]))
  }

  function Apply(replay: Replay, s: State, a: Action): State
    requires Enabled(s, a)
  {
    match a
    case PumpChunk(data) => s.(hist := s.hist + [Write(data)], pump := Deliver(data, s.clients))
    case PumpSend => PumpSent(s)
    case PumpSkip => s.(pump := Deliver(s.pump.data, s.pump.todo[1..]))
    case PumpFull => s.(pump := Slow(s.pump.data, s.pump.todo[0], s.pump.todo[1..]))
    case PumpSlowClose => Put(s, s.pump.who, StoreReason(s.conns[s.pump.who], SlowConsumer, !s.exited))
    case PumpSlowReturn => s.(pump := Deliver(s.pump.data, s.pump.todo))
    case PumpNextRead => s.(pump := Reading)
    case PumpError => s.(exited := true, pump := Closing(s.clients))
    case PumpCloseOutput => OutputClosed(s)
    case PumpEnd => s.(pump := Ended)
    case DoAttach(cols, rows) => Attach(replay, s, cols, rows)
    case AttachReturnsClosed(c) => Put(s, c, CloseOutput(s.conns[c]).(preclosing := false))
    case CloseBegin(c, reason) => Put(s, c, StoreReason(s.conns[c], reason, !s.exited))
    case CloseDoneChannel(c) => Put(s, c, CloseDone(s.conns[c]))
    case CloseDetach(c) => Put(Detach(s, c), c, s.conns[c].(once := Complete))
    case DoTakeOver(c, cols, rows) => ResizeIfNew(s.(writer := Some(c)), cols, rows)
    case DoResize(c, cols, rows) =>
      if s.writer != Some(c) || (cols == s.cols && rows == s.rows) then s else ResizeLocked(s, cols, rows)
    case ReadPending(c, room) => Put(s, c, TakePending(s.conns[c], room))
    case ReadChunk(c, room) => Put(s, c, TakeChunk(s.conns[c], room))
    case ReadEof(c) => Put(s, c, s.conns[c].(eof := true))
    case ShellExit => s.(exited := true, waiter := ExitSeen)
    case RecordExit => s.(waiter := Recorded(s.clients != []))
    case WaiterReturns => s.(expiry := s.expiry || !s.waiter.hadClients, waiter := Returned)
    case ExpiryFires => s.(cleanup := true)
  }

  function Exec(replay: Replay, s: State, acts: seq<Action>): Option<State>
    decreases acts
  {
    if acts == [] then Some(s)
    else if !Enabled(s, acts[0]) then None
    else Exec(replay, Apply(replay, s, acts[0]), acts[1..])
  }

  ghost predicate Reachable(replay: Replay, s: State) {
    exists cols, rows, acts :: Exec(replay, Initial(cols, rows), acts) == Some(s)
  }

  // ----- Invariants -------------------------------------------------------

  function Writes(h: seq<TermEvent>): seq<Bytes> {
    if h == [] then []
    else Writes(h[..|h| - 1]) + (if h[|h| - 1].Write? then [h[|h| - 1].data] else [])
  }

  /** What client i should have been sent: the replay of the emulator at its
      attach point, then every chunk written since. */
  function Ideal(replay: Replay, s: State, i: nat): seq<Bytes>
    requires i < |s.conns| && s.conns[i].joinedAt <= |s.hist|
  {
    var at := s.conns[i].joinedAt;
    [replay(s.hist[..at])] + Writes(s.hist[at..])
  }

  /** The chunk the pump holds and has not yet dealt with for client i. */
  function Owed(p: Pump, i: nat): seq<Bytes> {
    if (p.Deliver? && i in p.todo) || (p.Slow? && (i == p.who || i in p.todo)) then [p.data] else []
  }

  ghost predicate StreamInv(replay: Replay, s: State, i: nat)
    requires i < |s.conns|
  {
    var c := s.conns[i];
    c.joined ==>
      && c.joinedAt <= |s.hist|
      && Subsequence(c.sent + Owed(s.pump, i), Ideal(replay, s, i))
      && (!c.done ==> c.sent + Owed(s.pump, i) == Ideal(replay, s, i))
  }

  ghost predicate ConnInv(s: State, i: nat)
    requires i < |s.conns|
  {
    var c := s.conns[i];
    && !c.fault && c.closed == c.outputClosed && |c.buf| <= CHANNEL_CAP
    && (c.done <==> c.once.DoneClosed? || c.once.Complete?)
    && c.got + c.pending + Flatten(c.buf) == Flatten(c.sent)
    && (c.joined ==> (i in s.clients <==> !c.once.Complete?))
    && (!c.joined ==> i !in s.clients && s.exited)
    && (c.preclosing ==> !c.joined && !c.outputClosed && c.once.Fresh?)
    && (!c.joined && !c.preclosing ==> c.outputClosed)
    && (c.outputClosed ==> s.exited)
    && (c.joined && c.outputClosed ==> s.pump.Closing? || s.pump.Ended?)
    && (c.once.Fresh? ==> c.reason.NoReason?)
    && (c.eof ==> c.done || (c.outputClosed && c.pending == [] && c.buf == []))
    && (c.eof && c.reason.NoReason? ==> s.exited || c.early)
    && (!c.once.Fresh? && c.reason.NoReason? ==> s.exited || c.early)
  }

  ghost predicate MembersInv(s: State) {
    && Increasing(s.clients)
    && (forall i :: i in s.clients ==> i < |s.conns|)
    && (s.writer.None? <==> s.clients == [])
    && (s.writer.Some? ==> s.writer.value in s.clients)
  }

  ghost predicate JoinedAll(s: State, ids: seq<nat>) {
    forall i :: i in ids ==> i < |s.conns| && s.conns[i].joined
  }

  /** Every joined client outside ids has its output closed or is itself closed. */
  ghost predicate OthersClosed(s: State, ids: seq<nat>) {
    forall i :: 0 <= i < |s.conns| && s.conns[i].joined ==>
      i in ids || s.conns[i].outputClosed || s.conns[i].done
  }

  ghost predicate PumpInv(s: State) {
    match s.pump
    case Reading => true
    case Deliver(_, todo) => Increasing(todo) && JoinedAll(s, todo)
    case Slow(_, who, todo) => Increasing([who] + todo) && JoinedAll(s, [who] + todo)
    case Closing(todo) => s.exited && JoinedAll(s, todo) && OthersClosed(s, todo)
    case Ended => s.exited && OthersClosed(s, [])
  }

  ghost predicate ExitInv(s: State) {
    && (!s.waiter.Running? ==> s.exited)
    && (s.waiter.Recorded? || s.waiter.Returned? ==> s.pump.Ended?)
    && (s.cleanup ==> s.expiry)
    && (s.expiry ==> s.exited && s.clients == [])
    && (s.waiter.Recorded? && !s.waiter.hadClients ==> s.clients == [])
    && (s.waiter.Recorded? && s.waiter.hadClients && s.clients == [] ==> s.expiry)
    && (s.waiter.Returned? && s.clients == [] ==> s.expiry)
  }

  ghost predicate Inv(replay: Replay, s: State) {
    && MembersInv(s) && PumpInv(s) && ExitInv(s)
    && (forall i :: 0 <= i < |s.conns| ==> ConnInv(s, i))
    && (forall i :: 0 <= i < |s.conns| ==> StreamInv(replay, s, i))
  }

  // ----- Preservation -----------------------------------------------------

  lemma WritesSnoc(h: seq<TermEvent>, at: nat, e: TermEvent)
    requires at <= |h|
    ensures (h + [e])[..at] == h[..at]
    ensures Writes((h + [e])[at..]) == Writes(h[at..]) + (if e.Write? then [e.data] else [])
  {
    var t := h[at..] + [e];
    assert (h + [e])[at..] == t;
    assert t[..|t| - 1] == h[at..];
  }

  lemma {:induction false} RemoveIs(cs: seq<nat>, c: nat)
    requires Increasing(cs)
    ensures Increasing(Remove(cs, c))
    ensures forall x :: x in Remove(cs, c) <==> x in cs && x != c
  {
    if cs != [] {
      RemoveIs(cs[1..], c);
      if cs[0] != c {
        var r := Remove(cs[1..], c);
        forall i, j | 0 <= i < j < |[cs[0]] + r| ensures ([cs[0]] + r)[i] < ([cs[0]] + r)[j] {
          assert r[j - 1] in cs[1..];
        }
      }
    }
  }

  lemma {:induction false} TodoTail(todo: seq<nat>)
    requires todo != [] && Increasing(todo)
    ensures Increasing(todo[1..]) && todo[0] !in todo[1..]
    ensures forall x :: x in todo <==> x == todo[0] || x in todo[1..]
  {
    assert todo == [todo[0]] + todo[1..];
  }

  lemma ChunkStream(replay: Replay, s: State, s': State, data: Bytes, i: nat)
    requires i < |s.conns| && s.pump.Reading? && ConnInv(s, i) && StreamInv(replay, s, i)
    requires s' == s.(hist := s.hist + [Write(data)], pump := Deliver(data, s.clients))
    ensures StreamInv(replay, s', i)
  {
    var c := s.conns[i];
    if c.joined {
      var ideal := Ideal(replay, s, i);
      assert Ideal(replay, s', i) == ideal + [data] by {
        WritesSnoc(s.hist, c.joinedAt, Write(data));
      }
      assert Owed(s.pump, i) == [] && c.sent + [] == c.sent;
      assert Owed(s'.pump, i) == if i in s.clients then [data] else [];
      SubsequenceExtend(c.sent, ideal, data);
      if i !in s.clients { assert c.done; }
    }
  }

  lemma PumpChunkKeeps(replay: Replay, s: State, data: Bytes)
    requires Inv(replay, s) && s.pump.Reading?
    ensures Inv(replay, s.(hist := s.hist + [Write(data)], pump := Deliver(data, s.clients)))
  {
    var s' := s.(hist := s.hist + [Write(data)], pump := Deliver(data, s.clients));
    forall i | 0 <= i < |s'.conns| ensures ConnInv(s', i) { assert ConnInv(s, i); }
    forall i | 0 <= i < |s'.conns| ensures StreamInv(replay, s', i) {
      ChunkStream(replay, s, s', data, i);
    }
    forall i | i in s.clients ensures s.conns[i].joined { assert ConnInv(s, i); }
  }

  /** The session around client i has changed, the client has not. */
  lemma ConnFrame(s: State, s': State, i: nat)
    requires i < |s.conns| && i < |s'.conns| && s'.conns[i] == s.conns[i] && ConnInv(s, i)
    requires (s.exited ==> s'.exited) && (i in s'.clients <==> i in s.clients)
    requires s.pump.Closing? || s.pump.Ended? ==> s'.pump.Closing? || s'.pump.Ended?
    ensures ConnInv(s', i)
  {
  }

  lemma StreamFrame(replay: Replay, s: State, s': State, i: nat)
    requires i < |s.conns| && i < |s'.conns| && s'.conns[i] == s.conns[i] && StreamInv(replay, s, i)
    requires s'.hist == s.hist && Owed(s'.pump, i) == Owed(s.pump, i)
    ensures StreamInv(replay, s', i)
  {
    if s.conns[i].joined { assert Ideal(replay, s', i) == Ideal(replay, s, i); }
  }

  /** A step that changes only client c and where the pump stands, and leaves
      what the pump owes to the other clients alone. */
  lemma FrameKeeps(replay: Replay, s: State, s': State, c: nat)
    requires Inv(replay, s) && c < |s.conns|
    requires c < |s'.conns| && s' == s.(conns := s.conns[c := s'.conns[c]], pump := s'.pump)
    requires s.pump.Ended? <==> s'.pump.Ended?
    requires s.pump.Closing? <==> s'.pump.Closing?
    requires forall i :: 0 <= i < |s.conns| && i != c ==> Owed(s'.pump, i) == Owed(s.pump, i)
    requires ConnInv(s', c) && StreamInv(replay, s', c) && PumpInv(s')
    ensures Inv(replay, s')
  {
    forall i | 0 <= i < |s'.conns| ensures ConnInv(s', i) { if i != c { ConnFrame(s, s', i); } }
    forall i | 0 <= i < |s'.conns| ensures StreamInv(replay, s', i) { if i != c { StreamFrame(replay, s, s', i); } }
  }

  /** The pump moves to the next client on its list, having changed client c at
      most by sending to it. */
  lemma NextTodo(s: State, conns: seq<Conn>)
    requires PumpInv(s) && s.pump.Deliver? && s.pump.todo != [] && |conns| == |s.conns|
    requires forall i :: 0 <= i < |conns| ==> conns[i].joined == s.conns[i].joined
    ensures PumpInv(s.(conns := conns, pump := Deliver(s.pump.data, s.pump.todo[1..])))
    ensures forall i :: i != s.pump.todo[0] ==>
      Owed(Deliver(s.pump.data, s.pump.todo[1..]), i) == Owed(s.pump, i)
    ensures Owed(Deliver(s.pump.data, s.pump.todo[1..]), s.pump.todo[0]) == []
  {
    TodoTail(s.pump.todo);
  }

  lemma SendConnInv(s: State, i: nat, data: Bytes)
    requires i < |s.conns| && ConnInv(s, i) && !s.conns[i].outputClosed && |s.conns[i].buf| < CHANNEL_CAP
    ensures ConnInv(Put(s, i, Send(s.conns[i], data)), i)
  {
    var c := s.conns[i];
    FlattenSnoc(c.sent, data);
    FlattenSnoc(c.buf, data);
    assert c.got + c.pending + (Flatten(c.buf) + data) == (c.got + c.pending + Flatten(c.buf)) + data;
  }

  /** Client i keeps its stream invariant when the pump sends it the chunk owed,
      or drops that chunk because i is closed. */
  lemma PaidStream(replay: Replay, s: State, s': State, i: nat, data: Bytes)
    requires i < |s.conns| && i < |s'.conns| && s.hist == s'.hist && StreamInv(replay, s, i)
    requires Owed(s.pump, i) == [data] && Owed(s'.pump, i) == []
    requires var c, c' := s.conns[i], s'.conns[i];
      c'.joined == c.joined && c'.joinedAt == c.joinedAt && c'.done == c.done &&
      (c'.sent == c.sent + [data] || (c'.sent == c.sent && c.done))
    ensures StreamInv(replay, s', i)
  {
    var c, c' := s.conns[i], s'.conns[i];
    if c.joined {
      var ideal := Ideal(replay, s, i);
      assert Ideal(replay, s', i) == ideal && c'.sent + [] == c'.sent;
      if c'.sent == c.sent { SubsequenceDrop(c.sent, data, ideal); }
    }
  }

  lemma PumpSendKeeps(replay: Replay, s: State)
    requires Inv(replay, s) && Delivering(s)
    requires var c := s.conns[s.pump.todo[0]]; !c.outputClosed && |c.buf| < CHANNEL_CAP
    ensures Inv(replay, PumpSent(s))
  {
    var i, data := s.pump.todo[0], s.pump.data;
    var s' := PumpSent(s);
    assert ConnInv(s, i) && StreamInv(replay, s, i);
    SendConnInv(s, i, data);
    assert ConnInv(s', i);
    NextTodo(s, s'.conns);
    PaidStream(replay, s, s', i, data);
    FrameKeeps(replay, s, s', i);
  }

  lemma PumpSkipKeeps(replay: Replay, s: State)
    requires Inv(replay, s) && Delivering(s)
    requires var c := s.conns[s.pump.todo[0]]; c.outputClosed || c.done
    ensures Inv(replay, s.(pump := Deliver(s.pump.data, s.pump.todo[1..])))
  {
    var i, data := s.pump.todo[0], s.pump.data;
    var s' := s.(pump := Deliver(data, s.pump.todo[1..]));
    assert ConnInv(s, i) && StreamInv(replay, s, i);
    NextTodo(s, s.conns);
    PaidStream(replay, s, s', i, data);
    FrameKeeps(replay, s, s', i);
  }

  lemma PumpSlowReturnKeeps(replay: Replay, s: State)
    requires Inv(replay, s) && s.pump.Slow? && s.pump.who < |s.conns| && s.conns[s.pump.who].once.Complete?
    ensures Inv(replay, s.(pump := Deliver(s.pump.data, s.pump.todo)))
  {
    var i, todo, data := s.pump.who, s.pump.todo, s.pump.data;
    var s' := s.(pump := Deliver(data, todo));
    assert ([i] + todo)[1..] == todo;
    TodoTail([i] + todo);
    assert ConnInv(s, i) && StreamInv(replay, s, i);
    PaidStream(replay, s, s', i, data);
    FrameKeeps(replay, s, s', i);
  }

  lemma PumpFullKeeps(replay: Replay, s: State)
    requires Inv(replay, s) && Delivering(s)
    ensures Inv(replay, s.(pump := Slow(s.pump.data, s.pump.todo[0], s.pump.todo[1..])))
  {
    var i, data := s.pump.todo[0], s.pump.data;
    var s' := s.(pump := Slow(data, i, s.pump.todo[1..]));
    TodoTail(s.pump.todo);
    assert [i] + s.pump.todo[1..] == s.pump.todo;
    assert ConnInv(s, i) && StreamInv(replay, s, i);
    assert Owed(s'.pump, i) == Owed(s.pump, i) && Ideal(replay, s', i) == Ideal(replay, s, i);
    FrameKeeps(replay, s, s', i);
  }

  lemma PumpBetweenReadsKeeps(replay: Replay, s: State, a: Action)
    requires Inv(replay, s) && Enabled(s, a) && (a.PumpNextRead? || a.PumpError? || a.PumpEnd?)
    ensures Inv(replay, Apply(replay, s, a))
  {
    var s' := Apply(replay, s, a);
    forall i | 0 <= i < |s'.conns| ensures ConnInv(s', i) && StreamInv(replay, s', i) {
      assert ConnInv(s, i) && StreamInv(replay, s, i);
    }
    if a.PumpError? {
      forall i | 0 <= i < |s.conns| ensures s.conns[i].joined ==> i in s.clients || s.conns[i].done {
        assert ConnInv(s, i);
      }
      forall i | i in s.clients ensures i < |s.conns| && s.conns[i].joined { assert ConnInv(s, i); }
    }
  }

  function OutputClosed(s: State): State
    requires s.pump.Closing? && s.pump.todo != [] && s.pump.todo[0] < |s.conns|
  {
    var c := s.pump.todo[0];
    Put(s, c, CloseOutput(s.conns[c])).(pump := Closing(s.pump.todo[1..]))
  }

  lemma CloseOutputPump(s: State)
    requires PumpInv(s) && s.pump.Closing? && s.pump.todo != [] && s.pump.todo[0] < |s.conns|
    ensures PumpInv(OutputClosed(s))
  {
    assert forall x :: x in s.pump.todo[1..] ==> x in s.pump.todo;
    assert forall x :: x in s.pump.todo ==> x == s.pump.todo[0] || x in s.pump.todo[1..];
  }

  lemma PumpCloseOutputKeeps(replay: Replay, s: State)
    requires Inv(replay, s) && s.pump.Closing? && s.pump.todo != [] && s.pump.todo[0] < |s.conns|
    ensures Inv(replay, OutputClosed(s))
  {
    var s', i := OutputClosed(s), s.pump.todo[0];
    assert i in s.pump.todo && ConnInv(s, i) && StreamInv(replay, s, i);
    CloseOutputPump(s);
    assert StreamInv(replay, s', i) by { assert Ideal(replay, s', i) == Ideal(replay, s, i); }
    FrameKeeps(replay, s, s', i);
  }

  lemma PutPumpInv(s: State, c: nat, conn: Conn)
    requires PumpInv(s) && c < |s.conns| && conn.joined == s.conns[c].joined
    requires (s.conns[c].done ==> conn.done) && (s.conns[c].outputClosed ==> conn.outputClosed)
    ensures PumpInv(Put(s, c, conn))
  {
    var s' := Put(s, c, conn);
    assert forall i :: 0 <= i < |s.conns| ==> s'.conns[i].joined == s.conns[i].joined;
    match s.pump
    case Slow(_, who, todo) => assert JoinedAll(s', [who] + todo);
    case _ =>
  }

  /** Steps on one client that change neither membership nor what it was sent. */
  lemma PutKeeps(replay: Replay, s: State, c: nat, conn: Conn)
    requires Inv(replay, s) && c < |s.conns|
    requires var was := s.conns[c];
      conn.joined == was.joined && conn.joinedAt == was.joinedAt && conn.sent == was.sent &&
      (was.done ==> conn.done) && (was.outputClosed ==> conn.outputClosed)
    requires ConnInv(Put(s, c, conn), c)
    ensures Inv(replay, Put(s, c, conn))
  {
    var s' := Put(s, c, conn);
    assert ConnInv(s, c) && StreamInv(replay, s, c);
    assert StreamInv(replay, s', c) by {
      assert conn.joined ==> Ideal(replay, s', c) == Ideal(replay, s, c);
    }
    PutPumpInv(s, c, conn);
    FrameKeeps(replay, s, s', c);
  }

  lemma ClientStepKeeps(replay: Replay, s: State, a: Action, c: nat)
    requires Inv(replay, s) && Enabled(s, a) && c < |s.conns|
    requires (a.PumpSlowClose? && c == s.pump.who)
          || ((a.CloseBegin? || a.CloseDoneChannel? || a.AttachReturnsClosed? || a.ReadEof?) && c == a.c)
    ensures Inv(replay, Apply(replay, s, a))
  {
    assert ConnInv(s, c);
    PutKeeps(replay, s, c, Apply(replay, s, a).conns[c]);
  }

  lemma CutAt(a: Bytes, b: Bytes, n: nat, rest: Bytes)
    requires n <= |b|
    ensures a + b + rest == a + b[..n] + b[n..] + rest
  {
    assert b == b[..n] + b[n..];
  }

  lemma ReadPendingKeeps(replay: Replay, s: State, c: nat, room: nat)
    requires Inv(replay, s) && c < |s.conns|
    ensures Inv(replay, Put(s, c, TakePending(s.conns[c], room)))
  {
    var conn := s.conns[c];
    assert ConnInv(s, c);
    CutAt(conn.got, conn.pending, Min(room, |conn.pending|), Flatten(conn.buf));
    PutKeeps(replay, s, c, TakePending(conn, room));
  }

  lemma ReadChunkKeeps(replay: Replay, s: State, c: nat, room: nat)
    requires Inv(replay, s) && c < |s.conns| && s.conns[c].pending == [] && s.conns[c].buf != []
    ensures Inv(replay, Put(s, c, TakeChunk(s.conns[c], room)))
  {
    var conn := s.conns[c];
    assert ConnInv(s, c);
    var head, rest := conn.buf[0], Flatten(conn.buf[1..]);
    CutAt(conn.got, head, Min(room, |head|), rest);
    assert conn.got + [] + (head + rest) == conn.got + head + rest;
    PutKeeps(replay, s, c, TakeChunk(conn, room));
  }

  lemma CloseDetachKeeps(replay: Replay, s: State, c: nat)
    requires Inv(replay, s) && c < |s.conns| && s.conns[c].once.DoneClosed?
    ensures Inv(replay, Put(Detach(s, c), c, s.conns[c].(once := Complete)))
  {
    var s' := Put(Detach(s, c), c, s.conns[c].(once := Complete));
    RemoveIs(s.clients, c);
    assert ConnInv(s, c);
    PutPumpInv(s, c, s'.conns[c]);
    assert PumpInv(s');
    forall i | 0 <= i < |s'.conns| ensures ConnInv(s', i) { assert ConnInv(s, i); }
    forall i | 0 <= i < |s'.conns| ensures StreamInv(replay, s', i) { assert StreamInv(replay, s, i); }
  }

  lemma ResizeKeeps(replay: Replay, s: State, cols: nat, rows: nat)
    requires Inv(replay, s)
    ensures Inv(replay, ResizeLocked(s, cols, rows))
  {
    var s' := ResizeLocked(s, cols, rows);
    forall i | 0 <= i < |s'.conns| ensures ConnInv(s', i) && StreamInv(replay, s', i) {
      assert ConnInv(s, i) && StreamInv(replay, s, i);
      if s.conns[i].joined {
        WritesSnoc(s.hist, s.conns[i].joinedAt, Resized(cols, rows));
        assert Ideal(replay, s', i) == Ideal(replay, s, i);
      }
    }
  }

  /** Attach before any resize: the replay is queued first, then the client
      becomes visible to the pump. */
  function Join(s: State, r: Bytes): State {
    var id := |s.conns|;
    s.(conns := s.conns + [NewConn(true, |s.hist|).(buf := [r], sent := [r])],
       clients := s.clients + [id],
       writer := if s.writer.None? then Some(id) else s.writer)
  }

  lemma NewcomerInv(replay: Replay, s: State, s': State)
    requires !s.exited && s' == Join(s, replay(s.hist)) && PumpInv(s)
    ensures var id := |s.conns|; ConnInv(s', id) && StreamInv(replay, s', id)
  {
    var id, r := |s.conns|, replay(s.hist);
    var c := s'.conns[id];
    FlattenSnoc([], r);
    assert s.hist[..|s.hist|] == s.hist && s.hist[|s.hist|..] == [];
    if s.pump.Slow? {
      var all := [s.pump.who] + s.pump.todo;
      assert s.pump.who in all && (id in s.pump.todo ==> id in all);
    }
    assert Owed(s'.pump, id) == [];
    assert Ideal(replay, s', id) == [r] && c.sent + [] == [r];
    SubsequenceSelf([r]);
  }

  lemma IncreasingSnoc(cs: seq<nat>, id: nat)
    requires Increasing(cs) && forall i :: i in cs ==> i < id
    ensures Increasing(cs + [id])
  {
    forall k | 0 <= k < |cs| ensures cs[k] < id { assert cs[k] in cs; }
  }

  /** The others do not notice a newcomer. */
  lemma JoinOthers(replay: Replay, s: State, s': State, i: nat)
    requires Inv(replay, s) && i < |s.conns| && s' == Join(s, replay(s.hist))
    ensures ConnInv(s', i) && StreamInv(replay, s', i)
  {
    ConnFrame(s, s', i);
    StreamFrame(replay, s, s', i);
  }

  lemma JoinPump(s: State, r: Bytes)
    requires PumpInv(s) && !s.exited
    ensures PumpInv(Join(s, r))
  {
    var s' := Join(s, r);
    assert forall i :: 0 <= i < |s.conns| ==> s'.conns[i] == s.conns[i];
    match s.pump
    case Slow(_, who, todo) => assert JoinedAll(s', [who] + todo);
    case _ =>
  }

  lemma JoinKeeps(replay: Replay, s: State)
    requires Inv(replay, s) && !s.exited
    ensures Inv(replay, Join(s, replay(s.hist)))
  {
    var s', id := Join(s, replay(s.hist)), |s.conns|;
    IncreasingSnoc(s.clients, id);
    NewcomerInv(replay, s, s');
    JoinPump(s, replay(s.hist));
    forall i | 0 <= i < |s'.conns| ensures ConnInv(s', i) && StreamInv(replay, s', i) {
      if i < id { JoinOthers(replay, s, s', i); }
    }
  }

  lemma AttachKeeps(replay: Replay, s: State, cols: nat, rows: nat)
    requires Inv(replay, s)
    ensures Inv(replay, Attach(replay, s, cols, rows))
  {
    var s' := Attach(replay, s, cols, rows);
    if s.exited {
      forall i | 0 <= i < |s'.conns| ensures ConnInv(s', i) && StreamInv(replay, s', i) {
        if i < |s.conns| { assert ConnInv(s, i) && StreamInv(replay, s, i); }
      }
    } else {
      JoinKeeps(replay, s);
      var j := Join(s, replay(s.hist));
      ResizeKeeps(replay, j, cols, rows);
      assert [] + [replay(s.hist)] == [replay(s.hist)];
      assert s' == j || s' == ResizeLocked(j, cols, rows);
    }
  }

  /** Steps of waitForExit and of the expiry timer. */
  lemma ExitStepKeeps(replay: Replay, s: State, s': State)
    requires Inv(replay, s) && ExitInv(s') && (s.exited ==> s'.exited)
    requires s' == s.(exited := s'.exited, waiter := s'.waiter, expiry := s'.expiry, cleanup := s'.cleanup)
    ensures Inv(replay, s')
  {
    forall i | 0 <= i < |s'.conns| ensures ConnInv(s', i) { assert ConnInv(s, i); }
    forall i | 0 <= i < |s'.conns| ensures StreamInv(replay, s', i) { assert StreamInv(replay, s, i); }
  }

  lemma TakeOverKeeps(replay: Replay, s: State, c: nat, cols: nat, rows: nat)
    requires Inv(replay, s) && c in s.clients
    ensures Inv(replay, ResizeIfNew(s.(writer := Some(c)), cols, rows))
  {
    var s1 := s.(writer := Some(c));
    forall i | 0 <= i < |s1.conns| ensures ConnInv(s1, i) { assert ConnInv(s, i); }
    forall i | 0 <= i < |s1.conns| ensures StreamInv(replay, s1, i) { assert StreamInv(replay, s, i); }
    ResizeKeeps(replay, s1, cols, rows);
  }

  predicate IsPump(a: Action) {
    a.PumpChunk? || a.PumpSend? || a.PumpSkip? || a.PumpFull? || a.PumpSlowClose? || a.PumpSlowReturn?
    || a.PumpNextRead? || a.PumpError? || a.PumpCloseOutput? || a.PumpEnd?
  }

  lemma PumpStepKeeps(replay: Replay, s: State, a: Action)
    requires Inv(replay, s) && Enabled(s, a) && IsPump(a)
    ensures Inv(replay, Apply(replay, s, a))
  {
    match a
    case PumpChunk(data) => PumpChunkKeeps(replay, s, data);
    case PumpSend => PumpSendKeeps(replay, s);
    case PumpSkip => PumpSkipKeeps(replay, s);
    case PumpFull => PumpFullKeeps(replay, s);
    case PumpSlowClose => ClientStepKeeps(replay, s, a, s.pump.who);
    case PumpSlowReturn => PumpSlowReturnKeeps(replay, s);
    case PumpCloseOutput => PumpCloseOutputKeeps(replay, s);
    case _ => PumpBetweenReadsKeeps(replay, s, a);
  }

  predicate IsExit(a: Action) { a.ShellExit? || a.RecordExit? || a.WaiterReturns? || a.ExpiryFires? }

  lemma ClientActionKeeps(replay: Replay, s: State, a: Action)
    requires Inv(replay, s) && Enabled(s, a) && !IsPump(a) && !IsExit(a)
    ensures Inv(replay, Apply(replay, s, a))
  {
    match a
    case DoAttach(cols, rows) => AttachKeeps(replay, s, cols, rows);
    case AttachReturnsClosed(c) => ClientStepKeeps(replay, s, a, c);
    case CloseBegin(c, _) => ClientStepKeeps(replay, s, a, c);
    case CloseDoneChannel(c) => ClientStepKeeps(replay, s, a, c);
    case CloseDetach(c) => CloseDetachKeeps(replay, s, c);
    case DoTakeOver(c, cols, rows) => TakeOverKeeps(replay, s, c, cols, rows);
    case DoResize(_, cols, rows) => ResizeKeeps(replay, s, cols, rows);
    case ReadPending(c, room) => ReadPendingKeeps(replay, s, c, room);
    case ReadChunk(c, room) => ReadChunkKeeps(replay, s, c, room);
    case ReadEof(c) => ClientStepKeeps(replay, s, a, c);
    case _ =>
  }

  lemma StepKeeps(replay: Replay, s: State, a: Action)
    requires Inv(replay, s) && Enabled(s, a)
    ensures Inv(replay, Apply(replay, s, a))
  {
    if IsPump(a) {
      PumpStepKeeps(replay, s, a);
    } else if IsExit(a) {
      ExitStepKeeps(replay, s, Apply(replay, s, a));
    } else {
      ClientActionKeeps(replay, s, a);
    }
  }

  lemma {:induction false} RunKeeps(replay: Replay, s: State, acts: seq<Action>)
    requires Inv(replay, s) && Exec(replay, s, acts).Some?
    ensures Inv(replay, Exec(replay, s, acts).value)
    decreases acts
  {
    if acts != [] {
      StepKeeps(replay, s, acts[0]);
      RunKeeps(replay, Apply(replay, s, acts[0]), acts[1..]);
    }
  }

  /** No step takes back that the session has exited. */
  lemma ExitIsFinal(replay: Replay, s: State, a: Action)
    requires Enabled(s, a)
    ensures s.exited ==> Apply(replay, s, a).exited
  {
  }

  lemma InitialInv(replay: Replay, cols: nat, rows: nat)
    ensures Inv(replay, Initial(cols, rows))
  {
  }

  lemma ReachableInv(replay: Replay, s: State)
    requires Reachable(replay, s)
    ensures Inv(replay, s)
  {
    var cols, rows, acts :| Exec(replay, Initial(cols, rows), acts) == Some(s);
    InitialInv(replay, cols, rows);
    RunKeeps(replay, Initial(cols, rows), acts);
  }
}
