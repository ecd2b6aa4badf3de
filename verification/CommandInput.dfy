/** ward/command.go: processInput, the byte-level half of command mode. */
module CommandInput {
  import opened Basics

  /** What became of one byte of stdin. Only Typed, Literal and Rest reach the PTY. */
  datatype Fate =
    | Typed                       // passed through while looking for the hotkey
    | Opened                      // the hotkey that opened command mode
    | Unmatched(keys: seq<Byte>)  // ignored in command mode
    | Escaped                     // the Esc that closed command mode
    | Literal                     // second hotkey: closes command mode and is passed through
    | Acted(keys: seq<Byte>)      // an action key
    | Rest                        // after command mode closed, up to the end of the chunk

  /** first: the byte opens a chunk, that is, a call of processInput. */
  datatype Entry = Entry(b: Byte, fate: Fate, first: bool)

  predicate Passes(f: Fate) { f.Typed? || f.Literal? || f.Rest? }

  /** Command mode is open right after a byte with this fate (unless cancelled). */
  predicate Opens(f: Fate) { f.Opened? || f.Unmatched? }

  function BytesOf(log: seq<Entry>): Bytes {
    seq(|log|, k requires 0 <= k < |log| => log[k].b)
  }

  function Forwarded(log: seq<Entry>): Bytes {
    if log == [] then []
    else Forwarded(log[..|log| - 1]) + (if Passes(log[|log| - 1].fate) then [log[|log| - 1].b] else [])
  }

  /** A fate fits its byte. */
  predicate FateFits(e: Entry, hotkey: Byte) {
    match e.fate
    case Typed => e.b != hotkey
    case Opened => e.b == hotkey
    case Unmatched(keys) => e.b != ESC && e.b != hotkey && e.b !in keys
    case Escaped => e.b == ESC
    case Literal => e.b == hotkey && e.b != ESC
    case Acted(keys) => e.b != ESC && e.b != hotkey && e.b in keys
    case Rest => true
  }

  /** Within a chunk: the hotkey is looked for only until command mode opens;
      bytes are swallowed or closed on only inside command mode; and the rest of
      the chunk is passed on blindly once command mode has closed. */
  predicate FateFollows(before: Option<Fate>, f: Fate) {
    match f
    case Typed => before.None? || before.value.Typed?
    case Opened => before.None? || before.value.Typed?
    case Rest => before.Some? && !before.value.Typed?
    case _ => before.Some? && Opens(before.value)
  }

  function LastFate(log: seq<Entry>): Option<Fate> {
    if log == [] then None else Some(log[|log| - 1].fate)
  }

  lemma Snoc(log: seq<Entry>, e: Entry)
    ensures BytesOf(log + [e]) == BytesOf(log) + [e.b]
    ensures Forwarded(log + [e]) == Forwarded(log) + (if Passes(e.fate) then [e.b] else [])
    ensures LastFate(log + [e]) == Some(e.fate)
  {
    assert (log + [e])[..|log|] == log;
  }

  // ----- processInput -----------------------------------------------------

  datatype Result = Failed(message: string) | Message(message: string) | Silent

  /** What the stdin goroutine sends to the event loop. */
  datatype Request = Enter | Cancel(gen: nat) | Begin(gen: nat) | Action(gen: nat, result: Result)

  /** The handler's fields: generation, target and visible keys of the open
      command mode. */
  datatype Handler = Handler(gen: nat, target: string, keys: seq<Byte>)

  /** The environment of one call: the reply to an Enter, the acknowledgement of
      a Begin, what OnKey returns, and whether the context is found cancelled
      when byte i is about to be read. One call makes at most one of each. */
  datatype Env = Env(reply: Handler, ack: bool, result: Result, cancelled: nat -> bool)

  /** The requests that a byte's fate stands for. */
  function RequestsFor(f: Fate, gen: nat, env: Env): seq<Request> {
    match f
    case Opened => [Enter]
    case Escaped => [Cancel(gen)]
    case Literal => [Cancel(gen)]
    case Acted(_) => if env.ack then [Begin(gen), Action(gen, env.result)] else [Begin(gen)]
    case _ => []
  }

  /** h is the handler in force before the log, env.reply after an Opened. */
  function RequestsOf(log: seq<Entry>, h: Handler, env: Env): seq<Request> {
    if log == [] then []
    else
      var init := log[..|log| - 1];
      RequestsOf(init, h, env) + RequestsFor(log[|log| - 1].fate, HandlerAfter(init, h, env).gen, env)
  }

  function HandlerAfter(log: seq<Entry>, h: Handler, env: Env): Handler {
    if log == [] then h
    else if log[|log| - 1].fate.Opened? then env.reply
    else HandlerAfter(log[..|log| - 1], h, env)
  }

  /** One call of processInput: what it was given. before is Some(Opened) when
      command mode is open from an earlier chunk. */
  datatype Task = Task(data: Bytes, hotkey: Byte, before: Option<Fate>, h: Handler, env: Env)

  /** The fate just before entry k. */
  function FateBefore(t: Task, log: seq<Entry>, k: nat): Option<Fate>
    requires k <= |log|
  {
    if k == 0 then t.before else Some(log[k - 1].fate)
  }

  function Before(t: Task, log: seq<Entry>): Option<Fate> { FateBefore(t, log, |log|) }

  /** Command mode is open: it was just opened, or the last key was not on offer. */
  predicate InCommand(before: Option<Fate>) {
    before.Some? && (before.value.Opened? || before.value.Unmatched?)
  }

  /** Entry k is what command mode prescribes, given the entries before it: only
      a cancelled command mode gives way without a key of its own, and keys are
      judged by what the open command mode offers. */
  ghost predicate EntryOk(t: Task, log: seq<Entry>, k: nat)
    requires k < |log|
  {
    var f, before := log[k].fate, FateBefore(t, log, k);
    && FateFits(log[k], t.hotkey) && FateFollows(before, f) && (log[k].first <==> k == 0)
    && (InCommand(before) ==> (f.Rest? <==> t.env.cancelled(k)))
    && (f.Unmatched? || f.Acted? ==> f.keys == HandlerAfter(log[..k], t.h, t.env).keys)
  }

  ghost predicate LogOk(t: Task, log: seq<Entry>) {
    forall k :: 0 <= k < |log| ==> EntryOk(t, log, k)
  }

  /** Byte k is kept from the PTY: it opens command mode, or command mode is open and
      not cancelled and the byte is anything but a second hotkey. */
  ghost predicate Swallowed(t: Task, log: seq<Entry>, k: nat)
    requires k < |log|
  {
    || log[k].fate.Opened?
    || (InCommand(FateBefore(t, log, k)) && !t.env.cancelled(k) && (log[k].b == ESC || log[k].b != t.hotkey))
  }

  /** The first n bytes of the chunk without those kept from the PTY. */
  ghost function Kept(t: Task, log: seq<Entry>, n: nat): Bytes
    requires n <= |log|
  {
    if n == 0 then [] else Kept(t, log, n - 1) + if Swallowed(t, log, n - 1) then [] else [log[n - 1].b]
  }

  lemma {:induction false} ForwardedIsKept(t: Task, log: seq<Entry>, n: nat)
    requires LogOk(t, log) && n <= |log|
    ensures Forwarded(log[..n]) == Kept(t, log, n)
    decreases n
  {
    if n > 0 {
      ForwardedIsKept(t, log, n - 1);
      assert EntryOk(t, log, n - 1) && log[..n][..n - 1] == log[..n - 1];
    }
  }

  /** LogOk leaves no choice: it decides the fate of every byte of the chunk. */
  lemma {:induction false} LogIsDecided(t: Task, one: seq<Entry>, two: seq<Entry>)
    requires LogOk(t, one) && LogOk(t, two) && BytesOf(one) == BytesOf(two)
    ensures one == two
  {
    assert |one| == |BytesOf(one)| == |two|;
    var k := 0;
    while k < |one|
      invariant 0 <= k <= |one| && one[..k] == two[..k]
    {
      SameNext(t, one, two, k);
      assert one[..k + 1] == one[..k] + [one[k]] && two[..k + 1] == two[..k] + [two[k]];
      k := k + 1;
    }
    assert one[..k] == one && two[..k] == two;
  }

  lemma SameNext(t: Task, one: seq<Entry>, two: seq<Entry>, k: nat)
    requires k < |one| && k < |two| && one[..k] == two[..k]
    requires EntryOk(t, one, k) && EntryOk(t, two, k) && BytesOf(one) == BytesOf(two)
    ensures one[k] == two[k]
  {
    assert one[k].b == BytesOf(one)[k] == BytesOf(two)[k] == two[k].b;
    if k > 0 { assert one[k - 1] == one[..k][k - 1] == two[..k][k - 1]; }
  }

  lemma SnocOk(t: Task, log: seq<Entry>, e: Entry)
    requires LogOk(t, log) && EntryOk(t, log + [e], |log|)
    ensures LogOk(t, log + [e])
  {
    var all := log + [e];
    forall k | 0 <= k < |all| ensures EntryOk(t, all, k) {
      if k < |log| { assert EntryOk(t, log, k) && all[..k] == log[..k]; }
    }
  }

  /** The first |log| bytes of the chunk are dealt with as log says. */
  ghost predicate Done(t: Task, log: seq<Entry>, pty: Bytes, sent: seq<Request>, cur: Handler) {
    && |log| <= |t.data| && BytesOf(log) == t.data[..|log|]
    && pty == Forwarded(log) && LogOk(t, log)
    && sent == RequestsOf(log, t.h, t.env) && cur == HandlerAfter(log, t.h, t.env)
  }

  /** Fate f is right for the byte after the log. */
  ghost predicate Right(t: Task, log: seq<Entry>, cur: Handler, f: Fate)
    requires |log| < |t.data|
  {
    && FateFits(Entry(t.data[|log|], f, log == []), t.hotkey) && FateFollows(Before(t, log), f)
    && (InCommand(Before(t, log)) ==> (f.Rest? <==> t.env.cancelled(|log|)))
    && (f.Unmatched? || f.Acted? ==> f.keys == cur.keys)
  }

  lemma Advance(t: Task, log: seq<Entry>, pty: Bytes, sent: seq<Request>, cur: Handler, f: Fate)
    requires Done(t, log, pty, sent, cur) && |log| < |t.data| && Right(t, log, cur, f)
    ensures var b := t.data[|log|];
      Done(t, log + [Entry(b, f, log == [])], pty + (if Passes(f) then [b] else []),
           sent + RequestsFor(f, cur.gen, t.env), if f.Opened? then t.env.reply else cur)
    ensures LastFate(log + [Entry(t.data[|log|], f, log == [])]) == Some(f)
  {
    var e := Entry(t.data[|log|], f, log == []);
    Snoc(log, e);
    assert (log + [e])[..|log|] == log;
    SnocOk(t, log, e);
    assert t.data[..|log| + 1] == t.data[..|log|] + [e.b];
  }

  /** A run of bytes that share a fate, Typed or Rest. first: it starts the chunk. */
  function Run(data: Bytes, f: Fate, first: bool): seq<Entry> {
    seq(|data|, k requires 0 <= k < |data| => Entry(data[k], f, first && k == 0))
  }

  lemma RunCons(data: Bytes, f: Fate, first: bool)
    requires data != []
    ensures Run(data, f, first)[0] == Entry(data[0], f, first)
    ensures Run(data, f, first)[1..] == Run(data[1..], f, false)
  {
  }

  /** Fate f, Typed or Rest, is right for the byte after the log, and will be again. */
  lemma PassOne(t: Task, log: seq<Entry>, pty: Bytes, sent: seq<Request>, cur: Handler, f: Fate)
    requires Done(t, log, pty, sent, cur) && |log| < |t.data| && (f.Typed? || f.Rest?) && Right(t, log, cur, f)
    ensures var log1 := log + [Entry(t.data[|log|], f, log == [])];
      && Done(t, log1, pty + [t.data[|log|]], sent, cur) && LastFate(log1) == Some(f)
      && (|log1| < |t.data| && (f.Typed? ==> t.data[|log1|] != t.hotkey) ==> Right(t, log1, cur, f))
  {
    Advance(t, log, pty, sent, cur, f);
    assert sent + [] == sent;
  }

  lemma RunMoves(log: seq<Entry>, part: Bytes, f: Fate)
    requires part != []
    ensures var log1 := log + [Entry(part[0], f, log == [])];
      log1 + Run(part[1..], f, false) == log + Run(part, f, log == [])
  {
    RunCons(part, f, log == []);
    MoveHead(log, Run(part, f, log == []));
  }

  /** Bytes |log|..end are passed on in one write. */
  lemma {:induction false} Pass(t: Task, log: seq<Entry>, pty: Bytes, sent: seq<Request>, cur: Handler, end: nat, f: Fate)
    requires Done(t, log, pty, sent, cur) && |log| <= end <= |t.data| && (f.Typed? || f.Rest?)
    requires f.Typed? ==> forall k :: |log| <= k < end ==> t.data[k] != t.hotkey
    requires |log| < end ==> Right(t, log, cur, f)
    ensures Done(t, log + Run(t.data[|log|..end], f, log == []), pty + t.data[|log|..end], sent, cur)
    ensures |log| < end ==> LastFate(log + Run(t.data[|log|..end], f, log == [])) == Some(f)
    decreases end - |log|
  {
    var part := t.data[|log|..end];
    if part == [] {
      assert log + Run(part, f, log == []) == log && pty + part == pty;
    } else {
      PassOne(t, log, pty, sent, cur, f);
      var log1, pty1 := log + [Entry(part[0], f, log == [])], pty + [part[0]];
      Pass(t, log1, pty1, sent, cur, end, f);
      assert t.data[|log1|..end] == part[1..];
      RunMoves(log, part, f);
      MoveHead(pty, part);
    }
  }

  /** The switch on one byte read in command mode. */
  method CommandByte(b: Byte, hotkey: Byte, h: Handler, env: Env)
    returns (fate: Fate, out: Bytes, requests: seq<Request>)
    ensures FateFits(Entry(b, fate, false), hotkey) && !fate.Typed? && !fate.Opened? && !fate.Rest?
    ensures out == if b == hotkey && b != ESC then [b] else []
    ensures requests == RequestsFor(fate, h.gen, env)
    ensures (fate.Unmatched? || fate.Acted?) ==> fate.keys == h.keys
  {
    out, requests := [], [];
    if b == ESC {
      fate, requests := Escaped, [Cancel(h.gen)];
    } else if b == hotkey {
      fate, out, requests := Literal, [b], [Cancel(h.gen)];
    } else if b !in h.keys {
      fate := Unmatched(h.keys);
    } else {
      fate, requests := Acted(h.keys), [Begin(h.gen)];
      if env.ack { requests := requests + [Action(h.gen, env.result)]; }
    }
  }

  /** Command mode over a chunk: the loop from byte |log0| until command mode
      closes or the chunk ends. */
  method CommandLoop(data: Bytes, hotkey: Byte, h: Handler, env: Env, log0: seq<Entry>, pty0: Bytes,
                     sent0: seq<Request>, ghost t: Task)
    returns (still: bool, pty: Bytes, sent: seq<Request>, log: seq<Entry>)
    requires t.data == data && t.hotkey == hotkey && t.env == env
    requires Done(t, log0, pty0, sent0, h) && Before(t, log0).Some? && Opens(Before(t, log0).value)
    ensures Done(t, log, pty, sent, h)
    ensures Before(t, log).Some? && !Before(t, log).value.Typed?
    ensures still <==> |log| == |data| && Opens(Before(t, log).value)
    ensures |log| < |data| && Opens(Before(t, log).value) ==> env.cancelled(|log|)
  {
    still, pty, sent, log := true, pty0, sent0, log0;
    var i := |log0|;
    while i < |data| && still
      invariant |log0| <= i <= |data| && |log| == i && Done(t, log, pty, sent, h)
      invariant Before(t, log).Some? && (still <==> Opens(Before(t, log).value))
      invariant !Before(t, log).value.Typed?
      decreases |data| - i
    {
      if env.cancelled(i) {
        still := false;
        break;
      }
      var fate, out, requests := CommandByte(data[i], hotkey, h, env);
      Advance(t, log, pty, sent, h, fate);
      log, pty, sent := log + [Entry(data[i], fate, i == 0)], pty + out, sent + requests;
      i, still := i + 1, fate.Unmatched?;
    }
  }

  /** Normal mode: pass bytes through up to the hotkey. */
  method ScanForHotkey(data: Bytes, hotkey: Byte, ghost t: Task) returns (pty: Bytes, log: seq<Entry>)
    requires t.data == data && t.hotkey == hotkey && t.before.None?
    ensures Done(t, log, pty, [], t.h)
    ensures |log| < |data| ==> data[|log|] == hotkey
    ensures |log| == |data| ==> hotkey !in data
    ensures log != [] ==> LastFate(log) == Some(Typed)
  {
    var i := 0;
    while i < |data| && data[i] != hotkey
      invariant 0 <= i <= |data| && forall k :: 0 <= k < i ==> data[k] != hotkey
    {
      i := i + 1;
    }
    Pass(t, [], [], [], t.h, i, Typed);
    pty, log := data[0..i], Run(data[0..i], Typed, true);
    assert [] + pty == pty && [] + log == log;
  }

  /** Normal mode: the hotkey, if the chunk holds it, opens command mode. */
  method OpenAtHotkey(data: Bytes, hotkey: Byte, h: Handler, env: Env, ghost t: Task)
    returns (found: bool, h': Handler, pty: Bytes, sent: seq<Request>, log: seq<Entry>)
    requires t == Task(data, hotkey, None, h, env)
    ensures Done(t, log, pty, sent, h')
    ensures found <==> hotkey in data
    ensures found ==> LastFate(log) == Some(Opened)
    ensures !found ==> |log| == |data| && (log != [] ==> LastFate(log) == Some(Typed))
  {
    pty, log := ScanForHotkey(data, hotkey, t);
    found, h', sent := false, h, [];
    if |log| < |data| {
      Advance(t, log, pty, [], h, Opened);
      assert pty + [] == pty && [] + [Enter] == [Enter];
      found, h', sent, log := true, env.reply, [Enter], log + [Entry(hotkey, Opened, log == [])];
    }
  }

  /** What is left of the chunk once command mode has closed. */
  method PassRest(data: Bytes, pty0: Bytes, log0: seq<Entry>, ghost t: Task, ghost sent: seq<Request>, ghost h: Handler)
    returns (pty: Bytes, log: seq<Entry>)
    requires t.data == data && Done(t, log0, pty0, sent, h)
    requires |log0| < |data| ==> Right(t, log0, h, Rest)
    ensures Done(t, log, pty, sent, h) && |log| == |data|
    ensures if |log0| < |data| then LastFate(log) == Some(Rest) else log == log0
  {
    pty, log := pty0, log0;
    if |log| < |data| {
      Pass(t, log, pty, sent, h, |data|, Rest);
      pty, log := pty + data[|log|..|data|], log + Run(data[|log|..|data|], Rest, log == []);
    }
  }

  /** The whole chunk is dealt with. */
  lemma DoneAll(t: Task, log: seq<Entry>, pty: Bytes, sent: seq<Request>, cur: Handler)
    requires Done(t, log, pty, sent, cur) && |log| == |t.data|
    ensures BytesOf(log) == t.data && LogOk(t, log)
    ensures pty == Forwarded(log) == Kept(t, log, |log|)
    ensures sent == RequestsOf(log, t.h, t.env) && cur == HandlerAfter(log, t.h, t.env)
  {
    assert t.data[..|t.data|] == t.data;
    ForwardedIsKept(t, log, |log|);
    assert log[..|log|] == log;
  }

  /** processInput with a handler. Every byte of the chunk has exactly one fate;
      the PTY gets, in order, all but those kept from it; the requests sent are
      exactly those the fates stand for. */
  method ProcessInput(data: Bytes, hotkey: Byte, inCommand: bool, h: Handler, env: Env)
    returns (still: bool, h': Handler, pty: Bytes, sent: seq<Request>, log: seq<Entry>)
    ensures BytesOf(log) == data
    ensures LogOk(Task(data, hotkey, if inCommand then Some(Opened) else None, h, env), log)
    ensures pty == Kept(Task(data, hotkey, if inCommand then Some(Opened) else None, h, env), log, |log|)
    ensures sent == RequestsOf(log, h, env)
    ensures h' == HandlerAfter(log, h, env)
    ensures data != [] ==> log != [] && (still <==> log[|log| - 1].fate.Opened? || log[|log| - 1].fate.Unmatched?)
    ensures data == [] ==> still == inCommand
  {
    ghost var t := Task(data, hotkey, if inCommand then Some(Opened) else None, h, env);
    still, h', pty, sent, log := inCommand, h, [], [], [];
    if !inCommand {
      still, h', pty, sent, log := OpenAtHotkey(data, hotkey, h, env, t);
    }
    if still {
      still, pty, sent, log := CommandLoop(data, hotkey, h', env, log, pty, sent, t);
    }
    pty, log := PassRest(data, pty, log, t, sent, h');
    DoneAll(t, log, pty, sent, h');
  }
}
