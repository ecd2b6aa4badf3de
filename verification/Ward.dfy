/** Command mode end to end: the stdin goroutine of ward/command.go, the event
    loop of ward/wrapper.go, the channel between them, and the timers. A step is
    one byte of stdin, one channel operation, one event handled or one timer
    firing, so a run is any interleaving. */
module Ward {
  import opened Basics
  import opened C = CommandInput
  import L = EventLoop

  const CHANNEL_CAP := 64

  /** Where the stdin goroutine is. Want*: about to send on the event channel.
      Await*: waiting for the loop's answer. */
  datatype Mode =
    | Scan
    | Forward
    | WantEnter
    | AwaitReply
    | Command(h: Handler)
    | WantCancel(h: Handler)
    | WantBegin(h: Handler, key: Byte)
    | AwaitAck(h: Handler, key: Byte)
    | Running(h: Handler, key: Byte)
    | WantAction(h: Handler, result: Result)

  /** One call of OnKey, and the alert on display when it was made. */
  datatype Call = Call(gen: nat, key: Byte, target: string, alert: Option<L.Alert>)

  /** firing: timers that have fired and not yet sent. rest: what is left
      of the current chunk; unread: none of it was taken yet. input, log and calls record history. */
  datatype State = State(
    hotkey: Byte, loop: L.Loop, ch: seq<L.Event>, firing: multiset<L.Event>,
    mode: Mode, rest: Bytes, unread: bool, input: Bytes, pty: Bytes, log: seq<Entry>, calls: seq<Call>)

  function Initial(hotkey: Byte): State {
    State(hotkey, L.Initial(), [], multiset{}, Scan, [], false, [], [], [], [])
  }

  datatype Action =
    | Publish(e: L.Event)        // status source
    | LoopStep
    | DismissFires
    | IdleFires
    | TimerSends(e: L.Event)
    | ReadInput(data: Bytes)
    | ScanByte
    | SendEnter
    | TakeReply
    | CommandByte
    | NoticeCancelled
    | SendCancel
    | SendBegin
    | TakeAck
    | KeyReturns(result: Result)
    | SendAction
    | ForwardRest

  predicate Room(s: State) { |s.ch| < CHANNEL_CAP }

  predicate Cancelled(s: State, gen: nat) { s.loop.ctx != Some(gen) }

  predicate Enabled(s: State, a: Action) {
    match a
    case Publish(e) => (e.StatusEvent? || e.AlertEvent?) && Room(s)
    case LoopStep => s.ch != []
    case DismissFires => s.loop.dismissArmed
    case IdleFires => s.loop.idle.Some?
    case TimerSends(e) => e in s.firing && Room(s)
    case ReadInput(data) => s.rest == [] && data != [] && (s.mode.Scan? || s.mode.Forward? || s.mode.Command?)
    case ScanByte => s.mode.Scan? && s.rest != []
    case SendEnter => s.mode.WantEnter? && Room(s)
    case TakeReply => s.mode.AwaitReply? && s.loop.reply.Some?
    case CommandByte => s.mode.Command? && s.rest != [] && !Cancelled(s, s.mode.h.gen)
    case NoticeCancelled => s.mode.Command? && s.rest != [] && Cancelled(s, s.mode.h.gen)
    case SendCancel => s.mode.WantCancel? && Room(s)
    case SendBegin => s.mode.WantBegin? && Room(s)
    case TakeAck => s.mode.AwaitAck? && s.loop.ack.Some?
    case KeyReturns(_) => s.mode.Running?
    case SendAction => s.mode.WantAction? && Room(s)
    case ForwardRest => s.mode.Forward? && s.rest != []
  }

  function Post(s: State, e: L.Event, mode: Mode): State { s.(ch := s.ch + [e], mode := mode) }

  /** The next byte of the chunk gets fate f. */
  function Eat(s: State, f: Fate, mode: Mode): State
    requires s.rest != []
  {
    var b := s.rest[0];
    s.(rest := s.rest[1..], unread := false, log := s.log + [Entry(b, f, s.unread)], mode := mode,
       pty := if Passes(f) then s.pty + [b] else s.pty)
  }

  function EatScan(s: State): State
    requires s.rest != []
  {
    if s.rest[0] != s.hotkey then Eat(s, Typed, Scan) else Eat(s, Opened, WantEnter)
  }

  /** What command mode h makes of byte b. */
  function Judge(b: Byte, hotkey: Byte, h: Handler): Fate {
    if b == ESC then Escaped
    else if b == hotkey then Literal
    else if b !in h.keys then Unmatched(h.keys)
    else Acted(h.keys)
  }

  function ModeAfter(f: Fate, b: Byte, h: Handler): Mode {
    if f.Unmatched? then Command(h) else if f.Acted? then WantBegin(h, b) else WantCancel(h)
  }

  function EatCommand(s: State, h: Handler): State
    requires s.rest != []
  {
    var f := Judge(s.rest[0], s.hotkey, h);
    Eat(s, f, ModeAfter(f, s.rest[0], h))
  }

  function TakenReply(s: State): State
    requires s.loop.reply.Some?
  {
    s.(mode := Command(s.loop.reply.value), loop := s.loop.(reply := None))
  }

  function TakenAck(s: State, h: Handler, key: Byte): State
    requires s.loop.ack.Some?
  {
    var s1 := s.(loop := s.loop.(ack := None));
    if s.loop.ack.value
    then s1.(mode := Running(h, key), calls := s.calls + [Call(h.gen, key, h.target, s.loop.active)])
    else s1.(mode := Forward)
  }

  function ReadChunk(s: State, data: Bytes): State {
    s.(rest := data, unread := true, input := s.input + data, mode := NextMode(s))
  }

  function Handled(s: State): State
    requires s.ch != []
  {
    s.(loop := L.Handle(s.loop, s.ch[0]), ch := s.ch[1..])
  }

  /** The chunk boundary: between chunks a cancelled command mode is noticed. */
  function NextMode(s: State): Mode {
    if s.mode.Command? && !Cancelled(s, s.mode.h.gen) then s.mode else Scan
  }

  function Apply(s: State, a: Action): State
    requires Enabled(s, a)
  {
    match a
    case Publish(e) => s.(ch := s.ch + [e])
    case LoopStep => Handled(s)
    case DismissFires => s.(loop := s.loop.(dismissArmed := false), firing := s.firing + multiset{L.Dismiss})
    case IdleFires =>
      s.(loop := s.loop.(idle := None), firing := s.firing + multiset{L.Cancel(s.loop.idle.value, true)})
    case TimerSends(e) => s.(ch := s.ch + [e], firing := s.firing - multiset{e})
    case ReadInput(data) => ReadChunk(s, data)
    case ScanByte => EatScan(s)
    case SendEnter => Post(s, L.Enter, AwaitReply)
    case TakeReply => TakenReply(s)
    case CommandByte => EatCommand(s, s.mode.h)
    case NoticeCancelled => s.(mode := Forward)
    case SendCancel => Post(s, L.Cancel(s.mode.h.gen, false), Forward)
    case SendBegin => Post(s, L.Begin(s.mode.h.gen), AwaitAck(s.mode.h, s.mode.key))
    case TakeAck => TakenAck(s, s.mode.h, s.mode.key)
    case KeyReturns(result) => s.(mode := WantAction(s.mode.h, result))
    case SendAction => Post(s, L.Action(s.mode.h.gen, s.mode.result), Forward)
    case ForwardRest => Eat(s, Rest, Forward)
  }

  function Exec(s: State, acts: seq<Action>): Option<State>
    decreases acts
  {
    if acts == [] then Some(s)
    else if !Enabled(s, acts[0]) then None
    else Exec(Apply(s, acts[0]), acts[1..])
  }

  ghost predicate Reachable(s: State) { exists hotkey, acts :: Exec(Initial(hotkey), acts) == Some(s) }

  // ----- Agreement --------------------------------------------------------

  predicate IsOwn(e: L.Event) { e.Enter? || e.Begin? || e.Action? || (e.Cancel? && !e.idle) }

  /** The stdin goroutine's own events still in the channel. */
  function Own(ch: seq<L.Event>): seq<L.Event> {
    if ch == [] then []
    else Own(ch[..|ch| - 1]) + (if IsOwn(ch[|ch| - 1]) then [ch[|ch| - 1]] else [])
  }

  lemma OwnSnoc(ch: seq<L.Event>, e: L.Event)
    ensures Own(ch + [e]) == Own(ch) + (if IsOwn(e) then [e] else [])
  {
    assert (ch + [e])[..|ch|] == ch;
  }

  lemma {:induction false} OwnHead(ch: seq<L.Event>)
    requires ch != []
    ensures Own(ch) == (if IsOwn(ch[0]) then [ch[0]] else []) + Own(ch[1..])
  {
    if |ch| > 1 {
      var init := ch[..|ch| - 1];
      OwnHead(init);
      assert init[1..] == ch[1..][..|ch| - 2];
    }
  }

  /** h is what the loop offered for its current generation. */
  ghost predicate Current(l: L.Loop, h: Handler) {
    l.gen == |l.entered| > 0 && h == L.Offer(l.gen, l.entered[l.gen - 1])
  }

  /** The goroutine holds generation h; the loop has it open, or has cancelled it. */
  ghost predicate Open(l: L.Loop, h: Handler) { Current(l, h) && !l.cmd.Pending? }

  ghost predicate InAction(l: L.Loop, h: Handler) { Current(l, h) && l.cmd.Pending? }

  /** The goroutine has left command mode; own is what the loop has yet to hear. */
  ghost predicate Leaving(l: L.Loop, own: seq<L.Event>) {
    || (own == [] && l.cmd.NoCommand?)
    || (|own| == 1 && own[0].Cancel? && own[0].gen == l.gen && !l.cmd.Pending?)
    || (|own| == 1 && own[0].Action? && own[0].gen == l.gen && l.cmd.Pending?)
  }

  ghost predicate Unused(s: State) { forall c :: c in s.calls ==> c.gen < s.loop.gen }

  ghost predicate Agree(s: State) {
    var l, own := s.loop, Own(s.ch);
    match s.mode
    case AwaitReply =>
      && l.ack.None?
      && (|| (own != [] && own[|own| - 1].Enter? && Leaving(l, own[..|own| - 1]) && l.reply.None?)
          || (own == [] && l.reply.Some? && Open(l, l.reply.value) && Unused(s)))
    case Command(h) => own == [] && l.reply.None? && l.ack.None? && Open(l, h) && Unused(s)
    case WantCancel(h) => own == [] && l.reply.None? && l.ack.None? && Open(l, h)
    case WantBegin(h, key) =>
      own == [] && l.reply.None? && l.ack.None? && Open(l, h) && Unused(s) && key in h.keys
    case AwaitAck(h, key) =>
      && l.reply.None? && Unused(s) && key in h.keys
      && (|| (own == [L.Begin(h.gen)] && l.ack.None? && Open(l, h))
          || (own == [] && l.ack == Some(true) && InAction(l, h))
          || (own == [] && l.ack == Some(false) && l.cmd.NoCommand?))
    case Running(h, _) => own == [] && l.reply.None? && l.ack.None? && InAction(l, h)
    case WantAction(h, _) => own == [] && l.reply.None? && l.ack.None? && InAction(l, h)
    case _ => Leaving(l, own) && l.reply.None? && l.ack.None?
  }

  /** A call is for the alert its generation was opened on, with a key on offer. */
  ghost predicate CallOk(c: Call, a: Option<L.Alert>) {
    c.alert == a && c.target == L.TargetOf(a) && c.key in L.VisibleKeys(a)
  }

  ghost predicate CallsInv(s: State) {
    && (forall i, j :: 0 <= i < j < |s.calls| ==> s.calls[i].gen < s.calls[j].gen)
    && (forall c :: c in s.calls ==>
          0 < c.gen <= |s.loop.entered| && CallOk(c, s.loop.entered[c.gen - 1]))
  }

  ghost predicate InFlight(s: State, e: L.Event) { e in s.ch || e in s.firing }

  ghost predicate TimersInv(s: State) {
    && (forall e :: e in s.firing ==> e.Dismiss? || (e.Cancel? && e.idle))
    && (s.loop.cmd.Active? ==> s.loop.idle.Some? || InFlight(s, L.Cancel(s.loop.gen, true)))
    && (s.loop.cmd.NoCommand? && (s.loop.active.Some? || s.loop.book.queue != []) ==>
          s.loop.dismissArmed || InFlight(s, L.Dismiss))
  }

  /** How many times command mode was opened. */
  function OpenCount(log: seq<Entry>): nat {
    if log == [] then 0 else OpenCount(log[..|log| - 1]) + if log[|log| - 1].fate.Opened? then 1 else 0
  }

  /** Generation n has been opened and is no longer: its context is cancelled. */
  predicate Over(l: L.Loop, n: nat) { 0 < n <= |l.entered| && l.ctx != Some(n) }

  /** Entry k of the whole input. A new chunk starts outside command mode, or goes
      on with the one left open. In command mode, keys are judged by exactly what
      the alert offers that it was opened on; and command mode gives way without a
      key of its own only when its generation is over. */
  ghost predicate StdinEntryOk(l: L.Loop, log: seq<Entry>, k: nat, hotkey: Byte)
    requires k < |log|
  {
    var f, before, n := log[k].fate, if k == 0 then None else Some(log[k - 1].fate), OpenCount(log[..k]);
    && FateFits(log[k], hotkey)
    && (if log[k].first then FateFollows(None, f) || (InCommand(before) && FateFollows(before, f))
        else FateFollows(before, f))
    && (f.Unmatched? || f.Acted? ==> 0 < n <= |l.entered| && f.keys == L.VisibleKeys(l.entered[n - 1]))
    && (InCommand(before) && (f.Rest? || f.Typed? || f.Opened?) ==> Over(l, n))
  }

  ghost predicate StdinOk(l: L.Loop, log: seq<Entry>, hotkey: Byte) {
    forall k :: 0 <= k < |log| ==> StdinEntryOk(l, log, k, hotkey)
  }

  /** Openings read from stdin that the loop has not heard of yet. */
  function Ahead(s: State): nat {
    if s.mode.WantEnter? || (s.mode.AwaitReply? && Own(s.ch) != []) then 1 else 0
  }

  ghost predicate ModeInv(s: State) {
    var last := LastFate(s.log);
    && OpenCount(s.log) == |s.loop.entered| + Ahead(s)
    && match s.mode
       case Scan =>
         && (s.rest == [] || s.unread || last == Some(Typed))
         && (InCommand(last) ==> Over(s.loop, OpenCount(s.log)))
       case Forward =>
         && last.Some? && !last.value.Typed? && (s.unread ==> InCommand(last))
         && (InCommand(last) ==> Over(s.loop, OpenCount(s.log)))
       case WantEnter => last == Some(Opened)
       case AwaitReply => last == Some(Opened)
       case Command(_) => InCommand(last)
       case _ => last.Some? && !last.value.Typed? && !InCommand(last) && !s.unread
  }

  ghost predicate InputInv(s: State) {
    && s.pty == Forwarded(s.log) && BytesOf(s.log) + s.rest == s.input
    && StdinOk(s.loop, s.log, s.hotkey) && ModeInv(s)
  }

  ghost predicate Inv(s: State) {
    && Agree(s) && CallsInv(s) && TimersInv(s) && InputInv(s)
    && L.BookInv(s.loop.book) && L.LoopInv(s.loop) && !s.loop.misfire
  }

  // ----- Preservation: the event loop -------------------------------------

  /** What the goroutine relies on: an event of another sender may at most close
      an open command mode. */
  ghost predicate Undisturbed(l: L.Loop, l': L.Loop) {
    && l'.gen == l.gen && l'.entered == l.entered && l'.reply == l.reply && l'.ack == l.ack
    && (l'.cmd == l.cmd || (l.cmd.Active? && l'.cmd.NoCommand?))
  }

  lemma ForeignUndisturbed(l: L.Loop, e: L.Event)
    requires !IsOwn(e)
    ensures Undisturbed(l, L.Handle(l, e))
  {
  }

  lemma AgreeUndisturbed(s: State, s': State)
    requires Agree(s) && Undisturbed(s.loop, s'.loop) && Own(s'.ch) == Own(s.ch)
    requires s'.mode == s.mode && s'.calls == s.calls
    ensures Agree(s')
  {
    assert Unused(s) ==> Unused(s');
  }

  /** The loop leaves command mode and nothing else the goroutine looks at. */
  ghost predicate Leaves(l: L.Loop, l': L.Loop) {
    l'.cmd.NoCommand? && l'.gen == l.gen && l'.entered == l.entered && l'.reply == l.reply && l'.ack == l.ack
  }

  lemma CancelHeard(l: L.Loop, gen: nat)
    requires gen == l.gen && !l.cmd.Pending?
    ensures Leaves(l, L.OnCancel(l, gen))
  {
  }

  lemma ActionHeard(l: L.Loop, gen: nat, result: Result)
    requires gen == l.gen && l.cmd.Pending?
    ensures Leaves(l, L.OnAction(l, gen, result))
  {
  }

  /** The goroutine's events reach the loop in order, each in the state it expects. */
  lemma LeavingHeard(l: L.Loop, own: seq<L.Event>)
    requires Leaving(l, own) && own != []
    ensures Leaves(l, L.Handle(l, own[0]))
    ensures !own[0].Enter? && (own[0].Action? ==> l.cmd.Pending? && own[0].gen == l.gen)
  {
    match own[0]
    case Cancel(gen, _) => CancelHeard(l, gen);
    case Action(gen, result) => ActionHeard(l, gen, result);
  }

  lemma AgreeEnter(s: State, s': State)
    requires Agree(s) && CallsInv(s) && L.LoopInv(s.loop) && s.mode.AwaitReply? && Own(s.ch) == [L.Enter]
    requires s' == s.(loop := L.Handle(s.loop, L.Enter), ch := s'.ch) && Own(s'.ch) == []
    ensures Agree(s') && s.loop.cmd.NoCommand?
  {
    assert [L.Enter][..0] == [];
    assert Unused(s');
  }

  lemma AgreeBegin(s: State, s': State)
    requires Agree(s) && s.mode.AwaitAck? && Own(s.ch) == [L.Begin(s.mode.h.gen)]
    requires s' == s.(loop := L.Handle(s.loop, L.Begin(s.mode.h.gen)), ch := s'.ch) && Own(s'.ch) == []
    ensures Agree(s')
  {
    assert Unused(s');
  }

  lemma AgreeLeaving(s: State, s': State, e: L.Event)
    requires Agree(s) && Own(s.ch) == [e] + Own(s'.ch) && (e.Cancel? || e.Action?)
    requires s' == s.(loop := L.Handle(s.loop, e), ch := s'.ch)
    ensures Agree(s')
    ensures e.Action? ==> s.loop.cmd.Pending? && e.gen == s.loop.gen
  {
    var own, own' := Own(s.ch), Own(s'.ch);
    assert own[0] == e;
    if s.mode.AwaitReply? {
      assert |own| == 2 && own[..1] == [e] && own' == [own[1]] && own'[..0] == [];
      LeavingHeard(s.loop, [e]);
    } else {
      LeavingHeard(s.loop, own);
      assert own' == [];
    }
  }

  lemma AgreeOwn(s: State)
    requires Agree(s) && CallsInv(s) && L.LoopInv(s.loop) && s.ch != [] && IsOwn(s.ch[0])
    ensures Agree(Handled(s))
    ensures s.mode.AwaitReply? ==> (s.ch[0].Enter? <==> Own(s.ch[1..]) == [])
    ensures s.ch[0].Enter? ==> s.mode.AwaitReply?
    ensures s.ch[0].Enter? ==> s.loop.cmd.NoCommand?
    ensures s.ch[0].Action? ==> s.loop.cmd.Pending? && s.ch[0].gen == s.loop.gen
  {
    OwnHead(s.ch);
    var e, s' := s.ch[0], Handled(s);
    var own := Own(s.ch);
    assert own == [e] + Own(s'.ch) && own[0] == e;
    match e
    case Enter =>
      assert own[|own| - 1].Enter? && |own| == 1;
      AgreeEnter(s, s');
    case Begin(_) => AgreeBegin(s, s');
    case _ => AgreeLeaving(s, s', e);
  }

  /** Alerts are waiting and no timer is armed for them. */
  predicate NeedsDismiss(l: L.Loop) {
    l.cmd.NoCommand? && (l.active.Some? || l.book.queue != []) && !l.dismissArmed
  }

  lemma NeedsDismissLasts(l: L.Loop, e: L.Event)
    requires L.LoopInv(l) && NeedsDismiss(L.Handle(l, e))
    ensures NeedsDismiss(l) && e != L.Dismiss
  {
  }

  lemma IdleLasts(l: L.Loop, e: L.Event)
    requires L.Handle(l, e).cmd.Active? && L.Handle(l, e).idle.None?
    ensures l.cmd.Active? && L.Handle(l, e).gen == l.gen && l.idle.None? && e != L.Cancel(l.gen, true)
  {
  }

  lemma TimersLoopStep(s: State, l': L.Loop)
    requires TimersInv(s) && s.ch != []
    requires NeedsDismiss(l') ==> NeedsDismiss(s.loop) && s.ch[0] != L.Dismiss
    requires l'.cmd.Active? && l'.idle.None? ==>
      s.loop.cmd.Active? && l'.gen == s.loop.gen && s.loop.idle.None? && s.ch[0] != L.Cancel(l'.gen, true)
    ensures TimersInv(s.(loop := l', ch := s.ch[1..]))
  {
    var s' := s.(loop := l', ch := s.ch[1..]);
    assert forall x :: InFlight(s, x) && x != s.ch[0] ==> InFlight(s', x);
  }

  /** From l to l' generations were only opened or ended. */
  ghost predicate Grows(l: L.Loop, l': L.Loop) {
    l.entered <= l'.entered && forall n :: Over(l, n) ==> Over(l', n)
  }

  lemma HandleGrows(l: L.Loop, e: L.Event)
    requires L.LoopInv(l)
    ensures Grows(l, L.Handle(l, e))
    ensures L.Handle(l, e).entered == l.entered + if e.Enter? then [l.active] else []
  {
  }

  lemma HandleFits(l: L.Loop, e: L.Event)
    requires L.LoopInv(l) && !l.misfire && (e.Enter? ==> l.cmd.NoCommand?)
    requires e.Action? ==> l.cmd.Pending? && e.gen == l.gen
    ensures !L.Handle(l, e).misfire
  {
  }

  lemma StdinGrows(l: L.Loop, l': L.Loop, log: seq<Entry>, hotkey: Byte)
    requires StdinOk(l, log, hotkey) && Grows(l, l')
    ensures StdinOk(l', log, hotkey)
  {
    forall k | 0 <= k < |log| ensures StdinEntryOk(l', log, k, hotkey) { assert StdinEntryOk(l, log, k, hotkey); }
  }

  lemma CallsGrow(s: State, s': State)
    requires CallsInv(s) && s'.calls == s.calls && s.loop.entered <= s'.loop.entered
    ensures CallsInv(s')
  {
  }

  /** Whoever sent the event: both sides still agree, and the loop has heard of one
      opening more exactly if it was an EnterCommand. */
  lemma AgreeLoopStep(s: State)
    requires Inv(s) && s.ch != []
    ensures Agree(Handled(s)) && Ahead(Handled(s)) + (if s.ch[0].Enter? then 1 else 0) == Ahead(s)
    ensures s.ch[0].Enter? ==> s.loop.cmd.NoCommand?
    ensures s.ch[0].Action? ==> s.loop.cmd.Pending? && s.ch[0].gen == s.loop.gen
  {
    OwnHead(s.ch);
    if IsOwn(s.ch[0]) {
      AgreeOwn(s);
    } else {
      ForeignUndisturbed(s.loop, s.ch[0]);
      AgreeUndisturbed(s, Handled(s));
    }
  }

  lemma LoopStepKeeps(s: State)
    requires Inv(s) && s.ch != []
    ensures Inv(Handled(s))
  {
    var e, s' := s.ch[0], Handled(s);
    AgreeLoopStep(s);
    L.LoopKeeps(s.loop, e);
    L.BookKeeps(s.loop, e);
    HandleFits(s.loop, e);
    HandleGrows(s.loop, e);
    TimersKept(s, e);
    StdinGrows(s.loop, s'.loop, s.log, s.hotkey);
    CallsGrow(s, s');
  }

  lemma TimersKept(s: State, e: L.Event)
    requires TimersInv(s) && L.LoopInv(s.loop) && s.ch != [] && e == s.ch[0]
    ensures TimersInv(s.(loop := L.Handle(s.loop, e), ch := s.ch[1..]))
  {
    var l' := L.Handle(s.loop, e);
    if NeedsDismiss(l') { NeedsDismissLasts(s.loop, e); }
    if l'.cmd.Active? && l'.idle.None? { IdleLasts(s.loop, e); }
    TimersLoopStep(s, l');
  }

  // ----- Preservation: timers and the status source -----------------------

  /** Sending from outside the stdin goroutine. */
  lemma OutsideSend(s: State, e: L.Event, firing: multiset<L.Event>)
    requires Inv(s) && !IsOwn(e)
    requires forall x :: x in firing ==> x in s.firing
    requires forall x :: x in s.firing && x != e ==> x in firing
    ensures Inv(s.(ch := s.ch + [e], firing := firing))
  {
    var s' := s.(ch := s.ch + [e], firing := firing);
    OwnSnoc(s.ch, e);
    AgreeUndisturbed(s, s');
    assert forall x :: InFlight(s, x) ==> InFlight(s', x);
    assert TimersInv(s');
    assert InputInv(s');
  }

  /** A timer goes off: its event is now on the way. */
  lemma TimerFires(s: State, e: L.Event, l: L.Loop)
    requires Inv(s) && (e.Dismiss? || (e.Cancel? && e.idle))
    requires l == s.loop.(dismissArmed := l.dismissArmed, idle := l.idle) && L.LoopInv(l)
    requires (l.dismissArmed || e.Dismiss?) == (s.loop.dismissArmed || e.Dismiss?)
    requires l.idle == s.loop.idle || (l.idle.None? && e == L.Cancel(l.gen, true))
    ensures Inv(s.(loop := l, firing := s.firing + multiset{e}))
  {
    var s' := s.(loop := l, firing := s.firing + multiset{e});
    AgreeUndisturbed(s, s');
    StdinGrows(s.loop, l, s.log, s.hotkey);
    CallsGrow(s, s');
    assert InFlight(s', e) && forall x :: InFlight(s, x) ==> InFlight(s', x);
    assert TimersInv(s');
  }

  lemma TimerKeeps(s: State, a: Action)
    requires Inv(s) && Enabled(s, a)
    requires a.Publish? || a.DismissFires? || a.IdleFires? || a.TimerSends?
    ensures Inv(Apply(s, a))
  {
    match a
    case Publish(e) => OutsideSend(s, e, s.firing);
    case TimerSends(e) => OutsideSend(s, e, s.firing - multiset{e});
    case DismissFires => TimerFires(s, L.Dismiss, s.loop.(dismissArmed := false));
    case IdleFires => TimerFires(s, L.Cancel(s.loop.idle.value, true), s.loop.(idle := None));
  }

  // ----- Preservation: the stdin goroutine --------------------------------

  lemma StdinSnoc(l: L.Loop, log: seq<Entry>, e: Entry, hotkey: Byte)
    requires StdinOk(l, log, hotkey) && StdinEntryOk(l, log + [e], |log|, hotkey)
    ensures StdinOk(l, log + [e], hotkey)
  {
    var all := log + [e];
    forall k | 0 <= k < |all| ensures StdinEntryOk(l, all, k, hotkey) {
      if k < |log| { assert StdinEntryOk(l, log, k, hotkey) && all[..k] == log[..k]; }
    }
  }

  lemma OpenCountSnoc(log: seq<Entry>, e: Entry)
    ensures OpenCount(log + [e]) == OpenCount(log) + if e.fate.Opened? then 1 else 0
  {
    assert (log + [e])[..|log|] == log;
  }

  /** Fate f is right for the next byte. */
  ghost predicate Right(s: State, f: Fate)
    requires s.rest != []
  {
    var last, n := LastFate(s.log), OpenCount(s.log);
    && FateFits(Entry(s.rest[0], f, s.unread), s.hotkey)
    && (if s.unread then FateFollows(None, f) || (InCommand(last) && FateFollows(last, f)) else FateFollows(last, f))
    && (f.Unmatched? || f.Acted? ==> 0 < n <= |s.loop.entered| && f.keys == L.VisibleKeys(s.loop.entered[n - 1]))
    && (InCommand(last) && (f.Rest? || f.Typed? || f.Opened?) ==> Over(s.loop, n))
  }

  lemma RightStdin(s: State, f: Fate)
    requires StdinOk(s.loop, s.log, s.hotkey) && s.rest != [] && Right(s, f)
    ensures StdinOk(s.loop, s.log + [Entry(s.rest[0], f, s.unread)], s.hotkey)
  {
    var e := Entry(s.rest[0], f, s.unread);
    assert (s.log + [e])[..|s.log|] == s.log;
    StdinSnoc(s.loop, s.log, e, s.hotkey);
  }

  lemma EatInput(s: State, f: Fate, mode: Mode)
    requires InputInv(s) && s.rest != [] && Right(s, f)
    ensures var s' := Eat(s, f, mode);
      && s'.pty == Forwarded(s'.log) && BytesOf(s'.log) + s'.rest == s'.input && StdinOk(s'.loop, s'.log, s'.hotkey)
      && LastFate(s'.log) == Some(f) && OpenCount(s'.log) == OpenCount(s.log) + if f.Opened? then 1 else 0
  {
    var e := Entry(s.rest[0], f, s.unread);
    Snoc(s.log, e);
    OpenCountSnoc(s.log, e);
    RightStdin(s, f);
    MoveHead(BytesOf(s.log), s.rest);
    assert s.pty + [] == s.pty;
  }

  /** Steps of the goroutine that neither talk to the loop nor read its answers. */
  lemma AgreeQuiet(s: State, s': State)
    requires Agree(s) && s'.loop == s.loop && s'.ch == s.ch && s'.calls == s.calls
    requires match s.mode
      case Scan => s'.mode.Scan? || s'.mode.WantEnter?
      case Forward => s'.mode.Scan? || s'.mode.Forward?
      case Command(h) =>
        || s'.mode == Command(h) || s'.mode == WantCancel(h)
        || (s'.mode.WantBegin? && s'.mode.h == h && s'.mode.key in h.keys)
        || ((s'.mode.Scan? || s'.mode.Forward?) && s.loop.cmd.NoCommand?)
      case Running(h, _) => s'.mode.WantAction? && s'.mode.h == h
      case _ => false
    ensures Agree(s')
  {
    assert Unused(s) ==> Unused(s');
  }

  lemma SameTimers(s: State, s': State)
    requires TimersInv(s) && s'.loop == s.loop.(reply := s'.loop.reply, ack := s'.loop.ack)
    requires s'.firing == s.firing && (forall x :: x in s.ch ==> x in s'.ch)
    ensures TimersInv(s')
  {
    assert forall x :: InFlight(s, x) ==> InFlight(s', x);
  }

  /** The next byte gets fate f, and the goroutine goes on in mode. */
  lemma EatKeeps(s: State, f: Fate, mode: Mode)
    requires Inv(s) && s.rest != [] && InputInv(Eat(s, f, mode)) && Agree(Eat(s, f, mode))
    ensures Inv(Eat(s, f, mode))
  {
    SameTimers(s, Eat(s, f, mode));
  }

  lemma ScanByteKeeps(s: State)
    requires Inv(s) && s.mode.Scan? && s.rest != []
    ensures Inv(EatScan(s))
  {
    var f := if s.rest[0] != s.hotkey then Typed else Opened;
    var mode := if f.Typed? then Scan else WantEnter;
    EatInput(s, f, mode);
    AgreeQuiet(s, Eat(s, f, mode));
    EatKeeps(s, f, mode);
  }

  /** What command mode makes of a byte is right for it. */
  lemma JudgeRight(s: State, h: Handler)
    requires Agree(s) && ModeInv(s) && s.mode == Command(h) && s.rest != []
    ensures Right(s, Judge(s.rest[0], s.hotkey, h))
  {
    assert Open(s.loop, h) && OpenCount(s.log) == |s.loop.entered| == s.loop.gen;
  }

  lemma CommandByteKeeps(s: State, h: Handler)
    requires Inv(s) && s.mode == Command(h) && s.rest != []
    ensures Inv(EatCommand(s, h))
  {
    var b := s.rest[0];
    var f := Judge(b, s.hotkey, h);
    var mode := ModeAfter(f, b, h);
    JudgeRight(s, h);
    EatInput(s, f, mode);
    AgreeQuiet(s, Eat(s, f, mode));
    EatKeeps(s, f, mode);
  }

  lemma ForwardRestKeeps(s: State)
    requires Inv(s) && s.mode.Forward? && s.rest != []
    ensures Inv(Eat(s, Rest, Forward))
  {
    EatInput(s, Rest, Forward);
    AgreeQuiet(s, Eat(s, Rest, Forward));
    EatKeeps(s, Rest, Forward);
  }

  lemma ReadInputKeeps(s: State, data: Bytes)
    requires Inv(s) && s.rest == [] && (s.mode.Scan? || s.mode.Forward? || s.mode.Command?)
    ensures Inv(ReadChunk(s, data))
  {
    var s' := ReadChunk(s, data);
    AgreeQuiet(s, s');
    SameTimers(s, s');
    assert BytesOf(s.log) + [] == BytesOf(s.log);
  }

  /** The goroutine moves on without reading, sending or being answered. */
  lemma QuietKeeps(s: State, mode: Mode)
    requires Inv(s) && Agree(s.(mode := mode)) && ModeInv(s.(mode := mode))
    ensures Inv(s.(mode := mode))
  {
    SameTimers(s, s.(mode := mode));
  }

  lemma NoticeCancelledKeeps(s: State)
    requires Inv(s) && s.mode.Command? && Cancelled(s, s.mode.h.gen)
    ensures Inv(s.(mode := Forward))
  {
    AgreeQuiet(s, s.(mode := Forward));
    QuietKeeps(s, Forward);
  }

  lemma KeyReturnsKeeps(s: State, result: Result)
    requires Inv(s) && s.mode.Running?
    ensures Inv(s.(mode := WantAction(s.mode.h, result)))
  {
    AgreeQuiet(s, s.(mode := WantAction(s.mode.h, result)));
    QuietKeeps(s, WantAction(s.mode.h, result));
  }

  lemma AgreeSendEnter(s: State)
    requires Agree(s) && s.mode.WantEnter?
    ensures Agree(Post(s, L.Enter, AwaitReply))
  {
    var own := Own(s.ch);
    OwnSnoc(s.ch, L.Enter);
    assert (own + [L.Enter])[..|own|] == own;
  }

  /** In mode m the goroutine sends e and goes on in mode next. */
  ghost predicate Sends(m: Mode, e: L.Event, next: Mode) {
    match m
    case WantCancel(h) => e == L.Cancel(h.gen, false) && next == Forward
    case WantBegin(h, key) => e == L.Begin(h.gen) && next == AwaitAck(h, key)
    case WantAction(h, result) => e == L.Action(h.gen, result) && next == Forward
    case _ => false
  }

  lemma AgreeSendOther(s: State, e: L.Event, mode: Mode)
    requires Agree(s) && IsOwn(e)
    requires Sends(s.mode, e, mode)
    ensures Agree(Post(s, e, mode))
  {
    var s' := Post(s, e, mode);
    OwnSnoc(s.ch, e);
    assert Own(s.ch) == [] && Own(s'.ch) == [e];
    assert Unused(s) ==> Unused(s');
  }

  lemma SendKeeps(s: State, e: L.Event, mode: Mode)
    requires Inv(s) && Agree(Post(s, e, mode)) && ModeInv(Post(s, e, mode))
    ensures Inv(Post(s, e, mode))
  {
    SameTimers(s, Post(s, e, mode));
  }

  lemma SendEnterKeeps(s: State)
    requires Inv(s) && s.mode.WantEnter?
    ensures Inv(Post(s, L.Enter, AwaitReply))
  {
    AgreeSendEnter(s);
    OwnSnoc(s.ch, L.Enter);
    SendKeeps(s, L.Enter, AwaitReply);
  }

  lemma SendOtherKeeps(s: State, e: L.Event, mode: Mode)
    requires Inv(s) && IsOwn(e) && Sends(s.mode, e, mode)
    ensures Inv(Post(s, e, mode))
  {
    AgreeSendOther(s, e, mode);
    SendKeeps(s, e, mode);
  }

  /** Taking an answer out of its one-slot channel. */
  lemma LoopAnswered(l: L.Loop, l': L.Loop)
    requires L.LoopInv(l) && l' == l.(reply := l'.reply, ack := l'.ack)
    ensures L.LoopInv(l') && Grows(l, l')
  {
  }

  lemma AnswerKeeps(s: State, s': State)
    requires Inv(s) && s' == s.(mode := s'.mode, loop := s'.loop, calls := s'.calls)
    requires s'.loop == s.loop.(reply := s'.loop.reply, ack := s'.loop.ack)
    requires Agree(s') && CallsInv(s') && ModeInv(s')
    ensures Inv(s')
  {
    LoopAnswered(s.loop, s'.loop);
    SameTimers(s, s');
    StdinGrows(s.loop, s'.loop, s.log, s.hotkey);
  }

  lemma TakeReplyKeeps(s: State)
    requires Inv(s) && s.mode.AwaitReply? && s.loop.reply.Some?
    ensures Inv(TakenReply(s))
  {
    var s' := TakenReply(s);
    assert Unused(s) && Unused(s') && Own(s.ch) == [];
    CallsGrow(s, s');
    AnswerKeeps(s, s');
  }

  lemma CallsSnoc(calls: seq<Call>, c: Call)
    requires forall i, j :: 0 <= i < j < |calls| ==> calls[i].gen < calls[j].gen
    requires forall x :: x in calls ==> x.gen < c.gen
    ensures forall i, j :: 0 <= i < j < |calls + [c]| ==> (calls + [c])[i].gen < (calls + [c])[j].gen
  {
  }

  lemma CallMade(s: State, s': State, c: Call)
    requires CallsInv(s) && Unused(s) && s'.calls == s.calls + [c] && s'.loop.entered == s.loop.entered
    requires s.loop.gen == c.gen && 0 < c.gen <= |s.loop.entered| && CallOk(c, s.loop.entered[c.gen - 1])
    ensures CallsInv(s')
  {
    CallsSnoc(s.calls, c);
  }

  lemma AgreeAcked(s: State, h: Handler, key: Byte)
    requires Agree(s) && L.LoopInv(s.loop) && s.mode == AwaitAck(h, key) && s.loop.ack == Some(true)
    ensures Agree(TakenAck(s, h, key)) && Unused(s) && key in h.keys
    ensures InAction(s.loop, h) && s.loop.active == s.loop.entered[s.loop.gen - 1]
  {
  }

  lemma AckedKeeps(s: State, h: Handler, key: Byte)
    requires Inv(s) && s.mode == AwaitAck(h, key) && s.loop.ack == Some(true)
    ensures Inv(TakenAck(s, h, key))
  {
    var s' := TakenAck(s, h, key);
    AgreeAcked(s, h, key);
    CallMade(s, s', Call(h.gen, key, h.target, s.loop.active));
    AnswerKeeps(s, s');
  }

  lemma RefusedKeeps(s: State, h: Handler, key: Byte)
    requires Inv(s) && s.mode == AwaitAck(h, key) && s.loop.ack == Some(false)
    ensures Inv(TakenAck(s, h, key))
  {
    var s' := TakenAck(s, h, key);
    assert Own(s.ch) == [] && s.loop.cmd.NoCommand?;
    CallsGrow(s, s');
    AnswerKeeps(s, s');
  }

  predicate IsStdin(a: Action) {
    !a.Publish? && !a.LoopStep? && !a.DismissFires? && !a.IdleFires? && !a.TimerSends?
  }

  predicate IsSend(a: Action) { a.SendEnter? || a.SendCancel? || a.SendBegin? || a.SendAction? }

  lemma SendStepKeeps(s: State, a: Action)
    requires Inv(s) && Enabled(s, a) && IsSend(a)
    ensures Inv(Apply(s, a))
  {
    match a
    case SendEnter => SendEnterKeeps(s);
    case SendCancel => SendOtherKeeps(s, L.Cancel(s.mode.h.gen, false), Forward);
    case SendBegin => SendOtherKeeps(s, L.Begin(s.mode.h.gen), AwaitAck(s.mode.h, s.mode.key));
    case SendAction => SendOtherKeeps(s, L.Action(s.mode.h.gen, s.mode.result), Forward);
  }

  lemma StdinStepKeeps(s: State, a: Action)
    requires Inv(s) && Enabled(s, a) && IsStdin(a) && !IsSend(a)
    ensures Inv(Apply(s, a))
  {
    match a
    case ReadInput(data) => ReadInputKeeps(s, data);
    case ScanByte => ScanByteKeeps(s);
    case CommandByte => CommandByteKeeps(s, s.mode.h);
    case ForwardRest => ForwardRestKeeps(s);
    case NoticeCancelled => NoticeCancelledKeeps(s);
    case KeyReturns(result) => KeyReturnsKeeps(s, result);
    case TakeReply => TakeReplyKeeps(s);
    case TakeAck =>
      if s.loop.ack.value { AckedKeeps(s, s.mode.h, s.mode.key); } else { RefusedKeeps(s, s.mode.h, s.mode.key); }
  }

  lemma StepKeeps(s: State, a: Action)
    requires Inv(s) && Enabled(s, a)
    ensures Inv(Apply(s, a))
  {
    if a.LoopStep? {
      LoopStepKeeps(s);
    } else if IsSend(a) {
      SendStepKeeps(s, a);
    } else if IsStdin(a) {
      StdinStepKeeps(s, a);
    } else {
      TimerKeeps(s, a);
    }
  }

  lemma {:induction false} RunKeeps(s: State, acts: seq<Action>)
    requires Inv(s) && Exec(s, acts).Some?
    ensures Inv(Exec(s, acts).value)
    decreases acts
  {
    if acts != [] {
      StepKeeps(s, acts[0]);
      RunKeeps(Apply(s, acts[0]), acts[1..]);
    }
  }

  lemma InitialInv(hotkey: Byte)
    ensures Inv(Initial(hotkey))
  {
    assert Own([]) == [];
  }

  lemma ReachableInv(s: State)
    requires Reachable(s)
    ensures Inv(s)
  {
    var hotkey, acts :| Exec(Initial(hotkey), acts) == Some(s);
    InitialInv(hotkey);
    RunKeeps(Initial(hotkey), acts);
  }
}
