/** The Client and Session objects of session/client.go and session/session.go.
    Every method is one undisturbed call. A session object carries, as ghost state,
    the protocol state it stands for; each method proves that state reachable, so
    everything module SessionTheorems says holds of the objects. */
module SessionObjects {
  import opened Basics
  import S = Session

  datatype ReadResult = Data(p: Bytes) | Eof

  class Client {
    var buf: seq<Bytes>
    var closed: bool
    var outputClosed: bool
    var done: bool
    var once: S.Once
    var reason: S.Reason
    var pending: Bytes
    ghost const id: nat       // its name in the protocol
    ghost var conn: S.Conn    // what the protocol knows of it

    ghost predicate Linked()
      reads this
    {
      && buf == conn.buf && closed == conn.closed && outputClosed == conn.outputClosed
      && done == conn.done && once == conn.once && reason == conn.reason && pending == conn.pending
    }

    constructor (ghost id: nat, ghost joined: bool, ghost at: nat)
      ensures Linked() && conn == S.NewConn(joined, at) && this.id == id
    {
      this.id := id;
      buf, closed, outputClosed, done := [], false, false, false;
      once, reason, pending := S.Fresh, S.NoReason, [];
      conn := S.NewConn(joined, at);
    }

    /** deliver: true means the channel was full and the caller must drop the
        client. When both channels are ready, preferDone is the runtime's choice. */
    method Deliver(data: Bytes, preferDone: bool) returns (full: bool)
      requires Linked() && conn.closed == conn.outputClosed
      modifies this`buf, this`conn
      ensures Linked()
      ensures full <==> !outputClosed && !done && |old(buf)| >= S.CHANNEL_CAP
      ensures conn == if !outputClosed && |old(buf)| < S.CHANNEL_CAP && !(done && preferDone)
                      then S.Send(old(conn), data) else old(conn)
    {
      full := false;
      if outputClosed { return; }
      if |buf| < S.CHANNEL_CAP && !(done && preferDone) {
        conn := S.Send(conn, data);
        buf := buf + [data];
      } else if !done {
        full := true;
      }
    }

    method CloseOutput()
      requires Linked() && conn.closed == conn.outputClosed
      modifies this`outputClosed, this`closed, this`conn
      ensures Linked() && outputClosed && conn == S.CloseOutput(old(conn))
    {
      conn := S.CloseOutput(conn);
      outputClosed, closed := true, true;
    }

    /** The body of closeOnce up to Detach. */
    method CloseDone(reason: S.Reason, ghost running: bool)
      requires Linked()
      modifies this`once, this`reason, this`done, this`conn
      ensures Linked() && conn == S.CloseDone(S.StoreReason(old(conn), reason, running))
    {
      conn := S.CloseDone(S.StoreReason(conn, reason, running));
      this.reason := reason;
      once, done := S.DoneClosed, true;
    }

    method Completed()
      requires Linked()
      modifies this`once, this`conn
      ensures Linked() && conn == old(conn).(once := S.Complete)
    {
      once := S.Complete;
      conn := conn.(once := S.Complete);
    }

    /** Read, in a state where it does not block: the bytes returned are exactly
        what was read grows by, and end of file is reported only when nothing is
        pending and the client is closed or drained. */
    method Read(room: nat, preferDone: bool) returns (r: ReadResult)
      requires Linked() && (pending != [] || buf != [] || closed || done)
      modifies this`pending, this`buf, this`conn
      ensures Linked()
      ensures r.Data? <==> old(pending != [] || (buf != [] && !(done && preferDone)))
      ensures r.Data? ==> conn.got == old(conn.got) + r.p
      ensures r.Data? ==> r.p + pending == if old(pending) != [] then old(pending) else old(buf)[0]
      ensures r.Data? ==> |r.p| <= room && (|r.p| == room || pending == [])
      ensures r.Data? && old(pending) != [] ==> conn == S.TakePending(old(conn), room)
      ensures r.Data? && old(pending) == [] ==> conn == S.TakeChunk(old(conn), room)
      ensures r.Eof? ==> old(pending == [] && (done || (closed && buf == []))) && conn == old(conn).(eof := true)
    {
      if pending != [] {
        var n := S.Min(room, |pending|);
        r := Data(pending[..n]);
        conn := S.TakePending(conn, room);
        pending := pending[n..];
      } else if buf != [] && !(done && preferDone) {
        var data := buf[0];
        var n := S.Min(room, |data|);
        r := Data(data[..n]);
        conn := S.TakeChunk(conn, room);
        buf, pending := buf[1..], data[n..];
      } else {
        r := Eof;
        conn := conn.(eof := true);
      }
    }
  }

  // ----- Names ------------------------------------------------------------

  /** Clients are named by their place among all clients ever returned. */
  ghost predicate Numbered(conns: seq<Client>) {
    forall i :: 0 <= i < |conns| ==> conns[i].id == i
  }

  ghost predicate Known(conns: seq<Client>, c: Client) { c.id < |conns| && conns[c.id] == c }

  /** The objects cs are the ones that the protocol state calls ids. */
  ghost predicate Named(conns: seq<Client>, cs: seq<Client>, ids: seq<nat>) {
    |cs| == |ids| && forall k :: 0 <= k < |cs| ==> Known(conns, cs[k]) && ids[k] == cs[k].id
  }

  /** A new client with the replay queued: the queue is empty, so never full. */
  method NewReplayed(ghost id: nat, screen: Bytes, ghost at: nat) returns (c: Client)
    ensures fresh(c) && c.id == id && c.Linked() && c.conn == S.Send(S.NewConn(true, at), screen)
  {
    c := new Client(id, true, at);
    var full := c.Deliver(screen, false);
    assert !full;
  }

  /** A new client with its output closed. */
  method NewRefused(ghost id: nat, ghost at: nat) returns (c: Client)
    ensures fresh(c) && c.id == id && c.Linked() && c.conn == S.CloseOutput(S.NewConn(false, at)).(preclosing := false)
  {
    c := new Client(id, false, at);
    c.CloseOutput();
    c.conn := c.conn.(preclosing := false);
  }

  /** Removing an object is removing its name. */
  lemma {:induction false} RemoveAt(cs: seq<nat>, c: nat, i: nat)
    requires i <= |cs| && (forall k :: 0 <= k < i ==> cs[k] != c)
    requires i == |cs| || cs[i] == c
    ensures S.Remove(cs, c) == if i == |cs| then cs else cs[..i] + cs[i + 1..]
  {
    if i > 0 {
      RemoveAt(cs[1..], c, i - 1);
      if i < |cs| { assert cs[1..][..i - 1] + cs[1..][i..] == cs[1..i] + cs[i + 1..]; }
    }
  }

  method Without(cs: seq<Client>, c: Client, ghost conns: seq<Client>, ghost ids: seq<nat>)
    returns (rest: seq<Client>)
    requires Named(conns, cs, ids) && Known(conns, c)
    ensures Named(conns, rest, S.Remove(ids, c.id))
  {
    var i := 0;
    while i < |cs| && cs[i] != c
      invariant 0 <= i <= |cs|
      invariant forall k :: 0 <= k < i ==> cs[k] != c
    {
      i := i + 1;
    }
    RemoveAt(ids, c.id, i);
    rest := cs;
    if i < |cs| { rest := cs[..i] + cs[i + 1..]; }
  }

  // ----- Reachable states -------------------------------------------------

  lemma {:induction false} ExecSnoc(replay: S.Replay, s: S.State, acts: seq<S.Action>, a: S.Action)
    requires S.Exec(replay, s, acts).Some? && S.Enabled(S.Exec(replay, s, acts).value, a)
    ensures S.Exec(replay, s, acts + [a]) == Some(S.Apply(replay, S.Exec(replay, s, acts).value, a))
    decreases acts
  {
    if acts == [] {
      assert acts + [a] == [a] && [a][1..] == [];
    } else {
      assert (acts + [a])[1..] == acts[1..] + [a];
      ExecSnoc(replay, S.Apply(replay, s, acts[0]), acts[1..], a);
    }
  }

  lemma Reach(replay: S.Replay, s: S.State, a: S.Action, next: S.State)
    requires S.Reachable(replay, s) && S.Enabled(s, a) && S.Apply(replay, s, a) == next
    ensures S.Reachable(replay, next)
  {
    var cols, rows, acts :| S.Exec(replay, S.Initial(cols, rows), acts) == Some(s);
    ExecSnoc(replay, S.Initial(cols, rows), acts, a);
  }

  /** Calls run to their end: no close is under way, no attach is about to return. */
  ghost predicate AtRest(ms: seq<S.Conn>) {
    forall i :: 0 <= i < |ms| ==> !ms[i].preclosing && (ms[i].once.Fresh? || ms[i].once.Complete?)
  }

  ghost predicate Good(replay: S.Replay, s: S.State) { AtRest(s.conns) && S.Reachable(replay, s) }

  /** CloseWithReason from beginning to end. */
  ghost function Closed(s: S.State, c: nat, reason: S.Reason): S.State
    requires c < |s.conns|
  {
    if !s.conns[c].once.Fresh? then s
    else Detached(S.Put(s, c, S.CloseDone(S.StoreReason(s.conns[c], reason, !s.exited))), c)
  }

  ghost function Detached(s: S.State, c: nat): S.State
    requires c < |s.conns|
  {
    S.Put(S.Detach(s, c), c, s.conns[c].(once := S.Complete))
  }

  lemma ReachStored(replay: S.Replay, s: S.State, c: nat, reason: S.Reason)
    requires S.Reachable(replay, s) && c < |s.conns| && !s.conns[c].preclosing && s.conns[c].once.Fresh?
    ensures S.Reachable(replay, S.Put(s, c, S.StoreReason(s.conns[c], reason, !s.exited)))
  {
    Reach(replay, s, S.CloseBegin(c, reason), S.Put(s, c, S.StoreReason(s.conns[c], reason, !s.exited)));
  }

  lemma ReachDone(replay: S.Replay, s: S.State, c: nat)
    requires S.Reachable(replay, s) && c < |s.conns| && s.conns[c].once.Stored?
    ensures S.Reachable(replay, S.Put(s, c, S.CloseDone(s.conns[c])))
  {
    Reach(replay, s, S.CloseDoneChannel(c), S.Put(s, c, S.CloseDone(s.conns[c])));
  }

  lemma ReachDetached(replay: S.Replay, s: S.State, c: nat)
    requires S.Reachable(replay, s) && c < |s.conns| && s.conns[c].once.DoneClosed?
    ensures S.Reachable(replay, Detached(s, c))
  {
    Reach(replay, s, S.CloseDetach(c), Detached(s, c));
  }

  lemma PutTwice(s: S.State, c: nat, one: S.Conn, two: S.Conn)
    requires c < |s.conns|
    ensures S.Put(S.Put(s, c, one), c, two) == S.Put(s, c, two)
  {
  }

  lemma ReachDoneClosed(replay: S.Replay, s: S.State, c: nat, reason: S.Reason)
    requires S.Reachable(replay, s) && c < |s.conns| && !s.conns[c].preclosing && s.conns[c].once.Fresh?
    ensures S.Reachable(replay, S.Put(s, c, S.CloseDone(S.StoreReason(s.conns[c], reason, !s.exited))))
  {
    var conn := S.StoreReason(s.conns[c], reason, !s.exited);
    ReachStored(replay, s, c, reason);
    ReachDone(replay, S.Put(s, c, conn), c);
    PutTwice(s, c, conn, S.CloseDone(conn));
  }

  lemma ReachClosed(replay: S.Replay, s: S.State, c: nat, reason: S.Reason)
    requires S.Reachable(replay, s) && c < |s.conns| && !s.conns[c].preclosing
    ensures S.Reachable(replay, Closed(s, c, reason))
  {
    if s.conns[c].once.Fresh? {
      ReachDoneClosed(replay, s, c, reason);
      ReachDetached(replay, S.Put(s, c, S.CloseDone(S.StoreReason(s.conns[c], reason, !s.exited))), c);
    }
  }

  lemma ClosedConns(s: S.State, c: nat, reason: S.Reason)
    requires c < |s.conns|
    ensures Closed(s, c, reason).conns == s.conns[c := Closed(s, c, reason).conns[c]]
    ensures Closed(s, c, reason).conns[c].preclosing == s.conns[c].preclosing
    ensures s.conns[c].once.Fresh? ==> Closed(s, c, reason).conns[c].once.Complete?
    ensures !s.conns[c].once.Fresh? ==> Closed(s, c, reason) == s
  {
  }

  lemma GoodClosed(replay: S.Replay, s: S.State, c: nat, reason: S.Reason)
    requires Good(replay, s) && c < |s.conns|
    ensures Good(replay, Closed(s, c, reason))
    ensures Closed(s, c, reason).conns == s.conns[c := Closed(s, c, reason).conns[c]]
  {
    ReachClosed(replay, s, c, reason);
    ClosedConns(s, c, reason);
    var ms := Closed(s, c, reason).conns;
    assert AtRest(ms) by {
      forall i | 0 <= i < |ms| ensures !ms[i].preclosing && (ms[i].once.Fresh? || ms[i].once.Complete?) {
        if i != c { assert ms[i] == s.conns[i]; }
      }
    }
  }

  /** A step of the reader of client c, which leaves it with conn. */
  lemma GoodRead(replay: S.Replay, s: S.State, c: nat, a: S.Action, conn: S.Conn)
    requires Good(replay, s) && S.Enabled(s, a) && c < |s.conns|
    requires (a.ReadPending? && a.c == c && conn == S.TakePending(s.conns[c], a.room))
          || (a.ReadChunk? && a.c == c && conn == S.TakeChunk(s.conns[c], a.room))
          || (a.ReadEof? && a.c == c && conn == s.conns[c].(eof := true))
    ensures Good(replay, S.Put(s, c, conn))
  {
    Reach(replay, s, a, S.Put(s, c, conn));
  }

  lemma ReachResized(replay: S.Replay, s: S.State, c: nat, cols: nat, rows: nat)
    requires S.Reachable(replay, s) && c < |s.conns| && s.writer == Some(c) && !(cols == s.cols && rows == s.rows)
    ensures S.Reachable(replay, S.ResizeLocked(s, cols, rows))
  {
    Reach(replay, s, S.DoResize(c, cols, rows), S.ResizeLocked(s, cols, rows));
  }

  lemma ReachTakenOver(replay: S.Replay, s: S.State, c: nat, cols: nat, rows: nat)
    requires S.Reachable(replay, s) && c in s.clients
    ensures S.Reachable(replay, S.ResizeIfNew(s.(writer := Some(c)), cols, rows))
  {
    Reach(replay, s, S.DoTakeOver(c, cols, rows), S.ResizeIfNew(s.(writer := Some(c)), cols, rows));
  }

  lemma ReachAttached(replay: S.Replay, s: S.State, cols: nat, rows: nat)
    requires S.Reachable(replay, s)
    ensures S.Reachable(replay, S.Attach(replay, s, cols, rows))
  {
    Reach(replay, s, S.DoAttach(cols, rows), S.Attach(replay, s, cols, rows));
  }

  lemma AttachedIs(replay: S.Replay, s: S.State, cols: nat, rows: nat)
    requires !s.exited
    ensures var s', id := S.Attach(replay, s, cols, rows), |s.conns|;
      && s'.conns == s.conns + [S.Send(S.NewConn(true, |s.hist|), replay(s.hist))]
      && s'.clients == s.clients + [id] && s'.writer == (if s.writer.None? then Some(id) else s.writer)
      && s'.exited == s.exited && s'.lastReason == s.lastReason && s'.expiry == s.expiry
      && var z := if s.writer.None? then S.ResizeIfNew(s, cols, rows) else s;
         s'.hist == z.hist && s'.cols == z.cols && s'.rows == z.rows
  {
  }

  lemma DetachIs(s: S.State, c: nat)
    requires c < |s.conns|
    ensures var s', ids, r := S.Detach(s, c), S.Remove(s.clients, c), s.conns[c].reason;
      && s'.clients == ids && s'.conns == s.conns && s'.hist == s.hist && s'.cols == s.cols && s'.rows == s.rows
      && s'.writer == (if s.writer == Some(c) then (if ids == [] then None else Some(ids[|ids| - 1])) else s.writer)
      && s'.exited == s.exited && s'.lastReason == (if r.NoReason? then s.lastReason else r)
      && s'.expiry == (s.expiry || (ids == [] && s.exited))
  {
  }

  /** Attach after the exit: the client is returned with its output closed. */
  ghost function Refused(s: S.State): S.State {
    s.(conns := s.conns + [S.CloseOutput(S.NewConn(false, |s.hist|)).(preclosing := false)])
  }

  lemma ReachRefused(replay: S.Replay, s: S.State)
    requires S.Reachable(replay, s) && s.exited
    ensures S.Reachable(replay, Refused(s))
  {
    var s1 := S.Attach(replay, s, 0, 0);
    ReachAttached(replay, s, 0, 0);
    Reach(replay, s1, S.AttachReturnsClosed(|s.conns|), Refused(s));
  }

  // ----- The pump ---------------------------------------------------------

  lemma ReachChunk(replay: S.Replay, s: S.State, data: Bytes)
    requires S.Reachable(replay, s) && s.pump.Reading? && data != []
    ensures S.Reachable(replay, s.(hist := s.hist + [S.Write(data)], pump := S.Deliver(data, s.clients)))
  {
    Reach(replay, s, S.PumpChunk(data), s.(hist := s.hist + [S.Write(data)], pump := S.Deliver(data, s.clients)));
  }

  /** pump is about to deliver to client c. */
  ghost predicate Delivering(s: S.State, c: nat) {
    s.pump.Deliver? && s.pump.todo != [] && s.pump.todo[0] == c < |s.conns|
  }

  ghost function Next(s: S.State): S.Pump
    requires s.pump.Deliver? && s.pump.todo != []
  {
    S.Deliver(s.pump.data, s.pump.todo[1..])
  }

  ghost function Sent(s: S.State, c: nat): S.State
    requires Delivering(s, c)
  {
    S.Put(s, c, S.Send(s.conns[c], s.pump.data)).(pump := Next(s))
  }

  lemma GoodSent(replay: S.Replay, s: S.State, c: nat)
    requires Good(replay, s) && Delivering(s, c)
    requires !s.conns[c].outputClosed && |s.conns[c].buf| < S.CHANNEL_CAP
    ensures Good(replay, Sent(s, c))
  {
    Reach(replay, s, S.PumpSend, Sent(s, c));
  }

  lemma GoodSkipped(replay: S.Replay, s: S.State, c: nat)
    requires Good(replay, s) && Delivering(s, c) && (s.conns[c].outputClosed || s.conns[c].done)
    ensures Good(replay, s.(pump := Next(s)))
  {
    Reach(replay, s, S.PumpSkip, s.(pump := Next(s)));
  }

  /** The client whose queue is full is dropped. */
  ghost function Dropped(s: S.State, c: nat): S.State
    requires Delivering(s, c)
  {
    Closed(s.(pump := S.Slow(s.pump.data, c, s.pump.todo[1..])), c, S.SlowConsumer).(pump := Next(s))
  }

  lemma GoodFull(replay: S.Replay, s: S.State, c: nat)
    requires Good(replay, s) && Delivering(s, c)
    requires !s.conns[c].outputClosed && !s.conns[c].done && |s.conns[c].buf| >= S.CHANNEL_CAP
    ensures Good(replay, s.(pump := S.Slow(s.pump.data, c, s.pump.todo[1..]))) && s.conns[c].once.Fresh?
  {
    ReachFull(replay, s, c);
    S.ReachableInv(replay, s);
    assert S.ConnInv(s, c);
  }

  lemma GoodBack(replay: S.Replay, s: S.State, next: S.Pump)
    requires Good(replay, s) && s.pump.Slow? && s.pump.who < |s.conns| && s.conns[s.pump.who].once.Complete?
    requires next == S.Deliver(s.pump.data, s.pump.todo)
    ensures Good(replay, s.(pump := next))
  {
    ReachBack(replay, s);
  }

  lemma ReachFull(replay: S.Replay, s: S.State, c: nat)
    requires S.Reachable(replay, s) && Delivering(s, c)
    requires !s.conns[c].outputClosed && !s.conns[c].done && |s.conns[c].buf| >= S.CHANNEL_CAP
    ensures S.Reachable(replay, s.(pump := S.Slow(s.pump.data, c, s.pump.todo[1..])))
  {
    Reach(replay, s, S.PumpFull, s.(pump := S.Slow(s.pump.data, c, s.pump.todo[1..])));
  }

  lemma ReachBack(replay: S.Replay, s: S.State)
    requires S.Reachable(replay, s) && s.pump.Slow? && s.pump.who < |s.conns| && s.conns[s.pump.who].once.Complete?
    ensures S.Reachable(replay, s.(pump := S.Deliver(s.pump.data, s.pump.todo)))
  {
    Reach(replay, s, S.PumpSlowReturn, s.(pump := S.Deliver(s.pump.data, s.pump.todo)));
  }

  lemma ReachExit(replay: S.Replay, s: S.State)
    requires S.Reachable(replay, s) && s.pump.Reading?
    ensures S.Reachable(replay, s.(exited := true, pump := S.Closing(s.clients)))
  {
    Reach(replay, s, S.PumpError, s.(exited := true, pump := S.Closing(s.clients)));
  }

  lemma ReachOutputClosed(replay: S.Replay, s: S.State)
    requires S.Reachable(replay, s) && s.pump.Closing? && s.pump.todo != [] && s.pump.todo[0] < |s.conns|
    ensures S.Reachable(replay, S.OutputClosed(s))
  {
    Reach(replay, s, S.PumpCloseOutput, S.OutputClosed(s));
  }

  lemma ReachEnded(replay: S.Replay, s: S.State)
    requires S.Reachable(replay, s) && s.pump.Closing? && s.pump.todo == []
    ensures S.Reachable(replay, s.(pump := S.Ended))
  {
    Reach(replay, s, S.PumpEnd, s.(pump := S.Ended));
  }

  lemma ConnOf(replay: S.Replay, s: S.State, i: nat)
    requires S.Reachable(replay, s) && i < |s.conns|
    ensures s.conns[i].closed == s.conns[i].outputClosed
    ensures s.conns[i].joined && s.pump.Reading? && !s.conns[i].done ==>
      s.conns[i].joinedAt <= |s.hist| && s.conns[i].sent == S.Ideal(replay, s, i)
    ensures s.pump.Ended? && !s.conns[i].preclosing ==> s.conns[i].outputClosed || s.conns[i].done
  {
    S.ReachableInv(replay, s);
    assert S.ConnInv(s, i) && S.StreamInv(replay, s, i);
    assert s.conns[i].sent + [] == s.conns[i].sent;
  }

  lemma ReachReading(replay: S.Replay, s: S.State)
    requires S.Reachable(replay, s) && s.pump.Deliver? && s.pump.todo == []
    ensures S.Reachable(replay, s.(pump := S.Reading))
  {
    Reach(replay, s, S.PumpNextRead, s.(pump := S.Reading));
  }

  // ----- The session ------------------------------------------------------

  class Session {
    const replay: S.Replay
    var hist: seq<S.TermEvent>     // the emulator, as all it was fed
    var cols: nat
    var rows: nat
    var clients: seq<Client>
    var writer: Client?
    var exited: bool
    var lastReason: S.Reason
    var expiring: bool
    ghost var conns: seq<Client>   // every client ever returned

    ghost predicate SizeLinked(m: S.State)
      reads this`hist, this`cols, this`rows
    {
      hist == m.hist && cols == m.cols && rows == m.rows
    }

    ghost predicate StatusLinked(m: S.State)
      reads this`exited, this`lastReason, this`expiring
    {
      exited == m.exited && lastReason == m.lastReason && expiring == m.expiry
    }

    ghost predicate ClientsLinked(ids: seq<nat>, n: nat)
      reads this`conns, this`clients
    {
      |conns| == n && Numbered(conns) && Named(conns, clients, ids)
    }

    ghost predicate WriterLinked(w: Option<nat>)
      reads this`conns, this`writer
    {
      if w.None? then writer == null else writer != null && Known(conns, writer) && w.value == writer.id
    }

    /** The session's own fields are those of the protocol state m. */
    ghost predicate Linked(m: S.State)
      reads this
    {
      SizeLinked(m) && StatusLinked(m) && ClientsLinked(m.clients, |m.conns|) && WriterLinked(m.writer)
    }

    /** The client objects are what the protocol state says. */
    ghost predicate ConnsLinked(ms: seq<S.Conn>)
      reads this`conns, conns
    {
      |conns| == |ms| && forall i :: 0 <= i < |conns| ==> conns[i].Linked() && conns[i].conn == ms[i]
    }

    /** The objects stand for the reachable state m. */
    ghost predicate Valid(m: S.State)
      reads this, conns
    {
      Linked(m) && ConnsLinked(m.conns) && Good(replay, m)
    }

    constructor (replay: S.Replay, cols: nat, rows: nat)
      ensures this.replay == replay && conns == [] && Valid(S.Initial(cols, rows))
    {
      this.replay := replay;
      hist, clients, writer := [], [], null;
      this.cols, this.rows := cols, rows;
      exited, lastReason, expiring := false, S.NoReason, false;
      conns := [];
      new;
      assert S.Exec(replay, S.Initial(cols, rows), []) == Some(S.Initial(cols, rows));
    }

    method ResizeLocked(cols: nat, rows: nat)
      modifies this`hist, this`cols, this`rows
      ensures hist == old(hist) + [S.Resized(cols, rows)] && this.cols == cols && this.rows == rows
    {
      hist := hist + [S.Resized(cols, rows)];
      this.cols, this.rows := cols, rows;
    }

    method ResizeIfNew(cols: nat, rows: nat, ghost m: S.State)
      requires SizeLinked(m)
      modifies this`hist, this`cols, this`rows
      ensures SizeLinked(S.ResizeIfNew(m, cols, rows))
    {
      if cols > 0 && rows > 0 && (cols != this.cols || rows != this.rows) { ResizeLocked(cols, rows); }
    }

    /** Resize: only the writer resizes. */
    method Resize(c: Client, cols: nat, rows: nat, ghost m: S.State)
      requires Valid(m) && Known(conns, c)
      modifies this`hist, this`cols, this`rows
      ensures writer != c ==> Valid(m) && hist == old(hist)
      ensures writer == c ==> this.cols == cols && this.rows == rows
      ensures writer == c && hist != old(hist) ==> Valid(S.ResizeLocked(m, cols, rows))
      ensures writer == c && hist == old(hist) ==> Valid(m)
    {
      if writer == c && !(cols == this.cols && rows == this.rows) {
        ReachResized(replay, m, c.id, cols, rows);
        ResizeLocked(cols, rows);
      }
    }

    /** TakeOver of an attached client. */
    method TakeOver(c: Client, cols: nat, rows: nat, ghost m: S.State)
      requires Valid(m) && Known(conns, c) && c.id in m.clients
      modifies this`hist, this`cols, this`rows, this`writer
      ensures Valid(S.ResizeIfNew(m.(writer := Some(c.id)), cols, rows)) && writer == c
      ensures cols > 0 && rows > 0 ==> this.cols == cols && this.rows == rows
    {
      ReachTakenOver(replay, m, c.id, cols, rows);
      writer := c;
      ResizeIfNew(cols, rows, m.(writer := Some(c.id)));
    }

    /** Count c among the clients ever returned. */
    ghost method Note(c: Client, ms: seq<S.Conn>, ids: seq<nat>, w: Option<nat>)
      requires ConnsLinked(ms) && ClientsLinked(ids, |ms|) && WriterLinked(w) && c.id == |conns| && c.Linked()
      modifies this`conns
      ensures conns == old(conns) + [c] && ConnsLinked(ms + [c.conn]) && ClientsLinked(ids, |ms| + 1)
      ensures WriterLinked(w)
    {
      conns := conns + [c];
    }

    /** The part of Attach that changes the session: the client joins last. */
    method Join(c: Client, cols: nat, rows: nat, ghost m: S.State)
      requires Linked(m) && ConnsLinked(m.conns) && c.id == |conns| && c.Linked() && !exited
      modifies this`hist, this`cols, this`rows, this`writer, this`clients, this`conns
      ensures Linked(S.Attach(replay, m, cols, rows)) && ConnsLinked(m.conns + [c.conn])
      ensures conns == old(conns) + [c] && clients == old(clients) + [c]
      ensures writer == if old(writer) == null then c else old(writer)
    {
      AttachedIs(replay, m, cols, rows);
      if writer == null { ResizeIfNew(cols, rows, m); }
      Note(c, m.conns, m.clients, m.writer);
      clients := clients + [c];
      writer := if writer == null then c else writer;
    }

    method AttachLive(cols: nat, rows: nat, ghost m: S.State) returns (c: Client)
      requires Valid(m) && !exited
      modifies this
      ensures Valid(S.Attach(replay, m, cols, rows)) && fresh(c)
      ensures conns == old(conns) + [c] && clients == old(clients) + [c]
      ensures c.conn.joined && c.conn.sent == [replay(old(hist))]
      ensures writer == if old(writer) == null then c else old(writer)
    {
      c := NewReplayed(|conns|, replay(hist), |hist|);
      Join(c, cols, rows, m);
      ReachAttached(replay, m, cols, rows);
      AttachedIs(replay, m, cols, rows);
    }

    method AttachExited(ghost m: S.State) returns (c: Client)
      requires Valid(m) && exited
      modifies this`conns
      ensures Valid(Refused(m)) && fresh(c) && conns == old(conns) + [c]
      ensures !c.conn.joined && c.outputClosed && c.buf == []
    {
      ReachRefused(replay, m);
      c := NewRefused(|conns|, |hist|);
      Note(c, m.conns, m.clients, m.writer);
    }

    /** Attach: before the exit the client joins last, with the replay of all output
        so far as the first thing it was sent; after the exit it is returned with
        its output closed. The delivery under the lock never finds the queue full. */
    method Attach(cols: nat, rows: nat, ghost m: S.State) returns (c: Client)
      requires Valid(m)
      modifies this
      ensures fresh(c) && conns == old(conns) + [c] && c.conn.joined == !old(exited)
      ensures old(exited) ==> Valid(Refused(m)) && clients == old(clients) && c.outputClosed && c.buf == []
      ensures !old(exited) ==> Valid(S.Attach(replay, m, cols, rows))
      ensures !old(exited) ==> clients == old(clients) + [c] && c.conn.sent == [replay(old(hist))]
      ensures !old(exited) ==> writer == (if old(writer) == null then c else old(writer))
    {
      if exited { c := AttachExited(m); } else { c := AttachLive(cols, rows, m); }
    }

    /** The writer after c has left: the most recently attached remaining client. */
    method Promote(c: Client, ghost ids: seq<nat>, ghost w: Option<nat>)
      requires Named(conns, clients, ids) && Known(conns, c) && WriterLinked(w)
      modifies this`writer
      ensures WriterLinked(if w == Some(c.id) then (if ids == [] then None else Some(ids[|ids| - 1])) else w)
    {
      if writer == c {
        writer := null;
        if |clients| > 0 { writer := clients[|clients| - 1]; }
      }
    }

    /** Detach, called by CloseWithReason with the client's done channel closed. */
    method Detach(c: Client, ghost m: S.State)
      requires Linked(m) && Known(conns, c) && c.reason == m.conns[c.id].reason
      modifies this`clients, this`writer, this`lastReason, this`expiring
      ensures Linked(S.Detach(m, c.id))
    {
      DetachIs(m, c.id);
      clients := Without(clients, c, conns, m.clients);
      Promote(c, S.Remove(m.clients, c.id), m.writer);
      if !c.reason.NoReason? { lastReason := c.reason; }
      if |clients| == 0 && exited { expiring := true; }
    }

    lemma LinkedPut(m: S.State, c: nat, conn: S.Conn)
      requires Linked(m) && c < |m.conns|
      ensures Linked(S.Put(m, c, conn))
    {
    }

    /** One client's fields have changed. */
    lemma ConnsPut(c: Client, ms: seq<S.Conn>)
      requires Numbered(conns) && Known(conns, c) && |ms| == |conns| && c.Linked()
      requires forall i :: 0 <= i < |conns| && i != c.id ==> conns[i].Linked() && conns[i].conn == ms[i]
      ensures ConnsLinked(ms[c.id := c.conn])
    {
    }

    /** The body of closeOnce. m1 is m with the client's done channel closed. */
    method CloseFresh(c: Client, reason: S.Reason, ghost m: S.State, ghost m1: S.State)
      requires Linked(m) && Known(conns, c) && c.Linked() && c.id < |m.conns| && c.conn == m.conns[c.id]
      requires m1 == S.Put(m, c.id, S.CloseDone(S.StoreReason(c.conn, reason, !m.exited)))
      modifies this`clients, this`writer, this`lastReason, this`expiring, c`once, c`reason, c`done, c`conn
      ensures Linked(S.Detach(m1, c.id)) && c.Linked() && c.conn == m1.conns[c.id].(once := S.Complete)
      ensures c.reason == reason
    {
      LinkedPut(m, c.id, m1.conns[c.id]);
      c.CloseDone(reason, !exited);
      Detach(c, m1);
      c.Completed();
    }

    method CloseLinked(c: Client, reason: S.Reason, ghost m: S.State)
      requires Linked(m) && ConnsLinked(m.conns) && Known(conns, c) && c.once.Fresh?
      modifies this`clients, this`writer, this`lastReason, this`expiring, c`once, c`reason, c`done, c`conn
      ensures Linked(Closed(m, c.id, reason)) && ConnsLinked(m.conns[c.id := Closed(m, c.id, reason).conns[c.id]])
      ensures c.reason == reason
    {
      ghost var m1 := S.Put(m, c.id, S.CloseDone(S.StoreReason(c.conn, reason, !m.exited)));
      CloseFresh(c, reason, m, m1);
      LinkedPut(S.Detach(m1, c.id), c.id, c.conn);
      ConnsPut(c, m.conns);
    }

    /** CloseWithReason: the first reason given wins, later calls change nothing. */
    method CloseWithReason(c: Client, reason: S.Reason, ghost m: S.State)
      requires Valid(m) && Known(conns, c)
      modifies this`clients, this`writer, this`lastReason, this`expiring, c`once, c`reason, c`done, c`conn
      ensures Valid(Closed(m, c.id, reason))
      ensures c.reason == if old(c.once).Fresh? then reason else old(c.reason)
    {
      if c.once.Fresh? {
        CloseLinked(c, reason, m);
        GoodClosed(replay, m, c.id, reason);
      }
    }

    lemma LinkedPump(m: S.State, p: S.Pump)
      requires Linked(m)
      ensures Linked(m.(pump := p))
    {
    }

    /** pump drops c, whose queue is full. */
    method DropSlow(c: Client, ghost m: S.State)
      requires Valid(m) && Known(conns, c) && Delivering(m, c.id)
      requires !c.outputClosed && !c.done && |c.buf| >= S.CHANNEL_CAP
      modifies this`clients, this`writer, this`lastReason, this`expiring, c`once, c`reason, c`done, c`conn
      ensures Valid(Dropped(m, c.id)) && c.done
    {
      ghost var slow := m.(pump := S.Slow(m.pump.data, c.id, m.pump.todo[1..]));
      GoodFull(replay, m, c.id);
      LinkedPump(m, slow.pump);
      CloseWithReason(c, S.SlowConsumer, slow);
      ghost var after := Closed(slow, c.id, S.SlowConsumer);
      ClosedConns(slow, c.id, S.SlowConsumer);
      LinkedPump(after, Next(m));
      GoodBack(replay, after, Next(m));
    }

    /** c was sent the chunk pump holds. */
    lemma ValidSent(c: Client, m: S.State)
      requires Linked(m) && Good(replay, m) && Known(conns, c) && Delivering(m, c.id) && c.Linked()
      requires forall i :: 0 <= i < |conns| && i != c.id ==> conns[i].Linked() && conns[i].conn == m.conns[i]
      requires !m.conns[c.id].outputClosed && |m.conns[c.id].buf| < S.CHANNEL_CAP
      requires c.conn == S.Send(m.conns[c.id], m.pump.data)
      ensures Valid(Sent(m, c.id))
    {
      GoodSent(replay, m, c.id);
      LinkedPut(m, c.id, c.conn);
      LinkedPump(S.Put(m, c.id, c.conn), Next(m));
      ConnsPut(c, m.conns);
    }

    lemma ValidSkipped(c: Client, m: S.State)
      requires Valid(m) && Delivering(m, c.id) && (m.conns[c.id].outputClosed || m.conns[c.id].done)
      ensures Valid(m.(pump := Next(m)))
    {
      GoodSkipped(replay, m, c.id);
      LinkedPump(m, Next(m));
    }

    method TrySend(c: Client, data: Bytes, preferDone: bool, ghost m: S.State) returns (full: bool, ghost m': S.State)
      requires Valid(m) && Known(conns, c) && Delivering(m, c.id) && m.pump.data == data
      modifies c`buf, c`conn
      ensures full <==> !c.outputClosed && !c.done && |old(c.buf)| >= S.CHANNEL_CAP
      ensures full ==> m' == m && c.buf == old(c.buf)
      ensures !full ==> m'.pump == Next(m) && m'.hist == m.hist && |m'.conns| == |m.conns|
      ensures Valid(m')
    {
      ConnOf(replay, m, c.id);
      full := c.Deliver(data, preferDone);
      m' := m;
      if c.conn != m.conns[c.id] {
        m' := Sent(m, c.id);
        ValidSent(c, m);
      } else if !full {
        m' := m.(pump := Next(m));
        ValidSkipped(c, m);
      }
    }

    /** One client's turn in pump's fan-out. */
    method DeliverTo(c: Client, data: Bytes, preferDone: bool, ghost m: S.State) returns (ghost m': S.State)
      requires Valid(m) && Known(conns, c) && Delivering(m, c.id) && m.pump.data == data
      modifies this`clients, this`writer, this`lastReason, this`expiring, c
      ensures Valid(m') && m'.pump == Next(m) && m'.hist == m.hist && |m'.conns| == |m.conns|
    {
      var full;
      full, m' := TrySend(c, data, preferDone, m);
      if full {
        DropSlow(c, m);
        m' := Dropped(m, c.id);
      }
    }

    /** Every open client has been sent its replay and all output since. */
    ghost predicate AllServed(m: S.State)
      reads this`conns, conns
    {
      |conns| == |m.conns| && forall i :: 0 <= i < |conns| && conns[i].conn.joined && !conns[i].conn.done ==>
        m.conns[i].joinedAt <= |m.hist| && conns[i].conn.sent == S.Ideal(replay, m, i)
    }

    /** The fan-out over the snapshot todo. */
    method FanOut(todo: seq<Client>, data: Bytes, choose: nat -> bool, ghost m: S.State) returns (ghost m': S.State)
      requires Valid(m) && m.pump.Deliver? && m.pump.data == data && Named(conns, todo, m.pump.todo)
      modifies this`clients, this`writer, this`lastReason, this`expiring, conns
      ensures Valid(m') && m'.pump == S.Deliver(data, []) && m'.hist == m.hist
    {
      m' := m;
      for i := 0 to |todo|
        invariant Valid(m') && m'.hist == m.hist && m'.pump == S.Deliver(data, m.pump.todo[i..])
      {
        assert m.pump.todo[i..][0] == todo[i].id && m.pump.todo[i..][1..] == m.pump.todo[i + 1..];
        m' := DeliverTo(todo[i], data, choose(i), m');
      }
    }

    /** One iteration of pump: afterwards every client that is attached and not
        closed has been sent exactly its replay and every chunk since it joined. */
    method PumpRead(data: Bytes, choose: nat -> bool, ghost m: S.State) returns (ghost m': S.State)
      requires Valid(m) && m.pump.Reading? && data != []
      modifies this`hist, this`clients, this`writer, this`lastReason, this`expiring, conns
      ensures Valid(m') && m'.pump.Reading? && m'.hist == m.hist + [S.Write(data)] && AllServed(m')
    {
      hist := hist + [S.Write(data)];
      ghost var m1 := m.(hist := m.hist + [S.Write(data)], pump := S.Deliver(data, m.clients));
      ReachChunk(replay, m, data);
      m' := FanOut(clients, data, choose, m1);
      ReachReading(replay, m');
      LinkedPump(m', S.Reading);
      m' := m'.(pump := S.Reading);
      Served(m');
    }

    lemma Served(m: S.State)
      requires Valid(m) && m.pump.Reading?
      ensures AllServed(m)
    {
      forall i | 0 <= i < |conns| && conns[i].conn.joined && !conns[i].conn.done
        ensures m.conns[i].joinedAt <= |m.hist| && conns[i].conn.sent == S.Ideal(replay, m, i)
      {
        ConnOf(replay, m, i);
      }
    }

    method CloseOne(c: Client, ghost m: S.State)
      requires Valid(m) && Known(conns, c) && m.pump.Closing? && m.pump.todo != [] && m.pump.todo[0] == c.id
      modifies c`outputClosed, c`closed, c`conn
      ensures Valid(S.OutputClosed(m))
    {
      ConnOf(replay, m, c.id);
      ReachOutputClosed(replay, m);
      c.CloseOutput();
      LinkedPut(m, c.id, c.conn);
      LinkedPump(S.Put(m, c.id, c.conn), S.Closing(m.pump.todo[1..]));
      ConnsPut(c, m.conns);
    }

    method CloseAll(todo: seq<Client>, ghost m: S.State) returns (ghost m': S.State)
      requires Valid(m) && m.pump.Closing? && Named(conns, todo, m.pump.todo)
      modifies conns
      ensures Valid(m') && m'.exited == m.exited && m'.pump == S.Closing([])
    {
      m' := m;
      for i := 0 to |todo|
        invariant Valid(m') && m'.exited == m.exited && m'.pump == S.Closing(m.pump.todo[i..])
      {
        assert m.pump.todo[i..][0] == todo[i].id && m.pump.todo[i..][1..] == m.pump.todo[i + 1..];
        CloseOne(todo[i], m');
        m' := S.OutputClosed(m');
      }
    }

    lemma AllEnded(m: S.State)
      requires Valid(m) && m.pump.Ended?
      ensures forall i :: 0 <= i < |conns| ==> conns[i].outputClosed || conns[i].done
    {
      forall i | 0 <= i < |conns| ensures conns[i].outputClosed || conns[i].done { ConnOf(replay, m, i); }
    }

    /** pump's end: afterwards no client ever returned can block in Read. */
    method PumpFails(ghost m: S.State) returns (ghost m': S.State)
      requires Valid(m) && m.pump.Reading?
      modifies this`exited, conns
      ensures Valid(m') && m'.pump.Ended? && m'.exited
      ensures forall i :: 0 <= i < |conns| ==> conns[i].outputClosed || conns[i].done
    {
      exited := true;
      ReachExit(replay, m);
      m' := CloseAll(clients, m.(exited := true, pump := S.Closing(m.clients)));
      ReachEnded(replay, m');
      LinkedPump(m', S.Ended);
      m' := m'.(pump := S.Ended);
      AllEnded(m');
    }

    /** Read by the client's one reader: what it has read so far is always a prefix
        of what it was sent. */
    method ReadFrom(c: Client, room: nat, preferDone: bool, ghost m: S.State) returns (r: ReadResult, ghost m': S.State)
      requires Valid(m) && Known(conns, c) && (c.pending != [] || c.buf != [] || c.closed || c.done)
      modifies c`pending, c`buf, c`conn
      ensures Valid(m') && m' == S.Put(m, c.id, c.conn)
      ensures r.Data? ==> c.conn.got == old(c.conn.got) + r.p
      ensures r.Data? ==> |r.p| <= room && (|r.p| == room || c.pending == [])
      ensures r.Data? <==> old(c.pending != [] || (c.buf != [] && !(c.done && preferDone)))
      ensures r.Eof? ==> c.pending == [] && (c.done || (c.closed && c.buf == []))
    {
      ghost var fromPending := c.pending != [];
      r := c.Read(room, preferDone);
      m' := S.Put(m, c.id, c.conn);
      GoodRead(replay, m, c.id,
               if r.Eof? then S.ReadEof(c.id) else if fromPending then S.ReadPending(c.id, room) else S.ReadChunk(c.id, room),
               c.conn);
      LinkedPut(m, c.id, c.conn);
      ConnsPut(c, m.conns);
    }
  }
}
