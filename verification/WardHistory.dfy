/** What happened over a run of module Ward, kept beside the machine and steering
    nothing: for every byte of stdin whether its generation was open when the byte
    was taken, what was sent on its account and what came back; and the events the
    loop has handled. */
module WardHistory {
  import opened Basics
  import opened C = CommandInput
  import L = EventLoop
  import opened Ward

  /** live: command mode was open in the loop when the byte was taken. sent: the
      events put on the channel between this byte and the next. ack: the loop's
      answer. result: what OnKey returned. */
  datatype Deed = Deed(live: bool, sent: seq<L.Event>, ack: Option<bool>, result: Option<Result>)

  datatype Story = Story(s: State, deeds: seq<Deed>, heard: seq<L.Event>)

  /** The latest generation is open in the loop. */
  predicate Live(s: State) { s.loop.ctx == Some(OpenCount(s.log)) }

  /** What step a from s to s' adds to the last deed. */
  function Noted(d: Deed, s: State, a: Action, s': State): Deed {
    if IsSend(a) && s'.ch != [] then d.(sent := d.sent + [s'.ch[|s'.ch| - 1]])
    else if a.TakeAck? then d.(ack := s.loop.ack)
    else if a.KeyReturns? then d.(result := Some(a.result))
    else d
  }

  function DeedsAfter(ds: seq<Deed>, s: State, a: Action, s': State): seq<Deed> {
    if |s'.log| > |s.log| then ds + [Deed(Live(s), [], None, None)]
    else if ds == [] then ds
    else ds[|ds| - 1 := Noted(ds[|ds| - 1], s, a, s')]
  }

  function Tell(st: Story, a: Action): Story
    requires Enabled(st.s, a)
  {
    Story(Apply(st.s, a), DeedsAfter(st.deeds, st.s, a, Apply(st.s, a)),
          if a.LoopStep? then st.heard + [st.s.ch[0]] else st.heard)
  }

  /** The story of the run acts. */
  function Told(hotkey: Byte, acts: seq<Action>): Option<Story> {
    if acts == [] then Some(Story(Initial(hotkey), [], []))
    else
      var before, a := Told(hotkey, acts[..|acts| - 1]), acts[|acts| - 1];
      if before.None? || !Enabled(before.value.s, a) then None else Some(Tell(before.value, a))
  }

  lemma {:induction false} ExecSnoc(s: State, acts: seq<Action>, a: Action)
    ensures Exec(s, acts + [a]) ==
      if Exec(s, acts).None? || !Enabled(Exec(s, acts).value, a) then None else Some(Apply(Exec(s, acts).value, a))
    decreases acts
  {
    if acts == [] {
      assert acts + [a] == [a] && [a][1..] == [];
    } else {
      assert (acts + [a])[1..] == acts[1..] + [a];
      if Enabled(s, acts[0]) { ExecSnoc(Apply(s, acts[0]), acts[1..], a); }
    }
  }

  /** Every run has a story, and only runs have. */
  lemma {:induction false} ToldIsRun(hotkey: Byte, acts: seq<Action>)
    ensures Exec(Initial(hotkey), acts) == if Told(hotkey, acts).Some? then Some(Told(hotkey, acts).value.s) else None
  {
    if acts != [] {
      var init, a := acts[..|acts| - 1], acts[|acts| - 1];
      assert acts == init + [a];
      ToldIsRun(hotkey, init);
      ExecSnoc(Initial(hotkey), init, a);
    }
  }

  // ----- The account ------------------------------------------------------

  function EventOf(r: Request): L.Event {
    match r
    case Enter => L.Enter
    case Cancel(gen) => L.Cancel(gen, false)
    case Begin(gen) => L.Begin(gen)
    case Action(gen, result) => L.Action(gen, result)
  }

  function EventsOf(rs: seq<Request>): seq<L.Event> {
    seq(|rs|, k requires 0 <= k < |rs| => EventOf(rs[k]))
  }

  /** The answers a deed records, as an environment of processInput. */
  function EnvOf(d: Deed): Env {
    Env(Handler(0, "", []), d.ack == Some(true), if d.result.Some? then d.result.value else Silent, _ => false)
  }

  /** Fates that a byte gets only in command mode. */
  predicate Judged(f: Fate) { f.Unmatched? || f.Escaped? || f.Literal? || f.Acted? }

  /** In command mode a byte is judged exactly if its generation was open when it was
      taken; otherwise it passes. */
  ghost predicate LiveOk(log: seq<Entry>, ds: seq<Deed>, k: nat)
    requires k < |log| && k < |ds|
  {
    InCommand(if k == 0 then None else Some(log[k - 1].fate)) ==> (ds[k].live <==> Judged(log[k].fate))
  }

  /** Byte with fate f in generation n is done with: exactly the requests its fate
      stands for were sent. */
  ghost predicate Settled(f: Fate, n: nat, d: Deed) {
    && d.sent == EventsOf(RequestsFor(f, n, EnvOf(d)))
    && (f.Acted? ==> d.ack.Some? && (d.ack.value ==> d.result.Some?))
  }

  predicate Busy(m: Mode) { !m.Scan? && !m.Forward? && !m.Command? }

  /** How far the last byte's requests have got. */
  ghost predicate Underway(m: Mode, f: Fate, n: nat, d: Deed) {
    match m
    case WantEnter => f.Opened? && d.sent == []
    case AwaitReply => f.Opened? && d.sent == [L.Enter]
    case WantCancel(h) => (f.Escaped? || f.Literal?) && h.gen == n && d.sent == []
    case WantBegin(h, _) => f.Acted? && h.gen == n && d.sent == [] && d.ack.None? && d.result.None?
    case AwaitAck(h, _) => f.Acted? && h.gen == n && d.sent == [L.Begin(n)] && d.ack.None? && d.result.None?
    case Running(h, _) => f.Acted? && h.gen == n && d.sent == [L.Begin(n)] && d.ack == Some(true) && d.result.None?
    case WantAction(h, r) =>
      f.Acted? && h.gen == n && d.sent == [L.Begin(n)] && d.ack == Some(true) && d.result == Some(r)
    case _ => false
  }

  ghost predicate SettledAt(log: seq<Entry>, ds: seq<Deed>, k: nat)
    requires k < |log| && k < |ds|
  {
    Settled(log[k].fate, OpenCount(log[..k]), ds[k])
  }

  ghost predicate Account(m: Mode, log: seq<Entry>, ds: seq<Deed>) {
    && |ds| == |log|
    && (forall k :: 0 <= k < |log| ==> LiveOk(log, ds, k))
    && (forall k :: 0 <= k < |log| - (if Busy(m) then 1 else 0) ==> SettledAt(log, ds, k))
    && (Busy(m) ==> log != [] && var z := |log| - 1; Underway(m, log[z].fate, OpenCount(log[..z]), ds[z]))
  }

  function AllSent(ds: seq<Deed>): seq<L.Event> {
    if ds == [] then [] else AllSent(ds[..|ds| - 1]) + ds[|ds| - 1].sent
  }

  /** The story adds up: bytes and requests, the channel in order, alerts received. */
  ghost predicate Adds(st: Story) {
    && Account(st.s.mode, st.s.log, st.deeds)
    && Own(st.heard + st.s.ch) == AllSent(st.deeds)
    && st.s.loop.book.received == L.AlertsIn(st.heard)
  }

  // ----- Preservation -----------------------------------------------------

  /** Only the last deed changes, from under way to further under way or settled. */
  lemma Progress(m: Mode, m': Mode, log: seq<Entry>, ds: seq<Deed>, d: Deed)
    requires Account(m, log, ds) && Busy(m) && d.live == ds[|ds| - 1].live
    requires var z := |log| - 1; var f, n := log[z].fate, OpenCount(log[..z]);
      if Busy(m') then Underway(m', f, n, d) else Settled(f, n, d)
    ensures Account(m', log, ds[|ds| - 1 := d])
  {
    var ds', z := ds[|ds| - 1 := d], |log| - 1;
    forall k | 0 <= k < |log| ensures LiveOk(log, ds', k) { assert LiveOk(log, ds, k); }
    forall k | 0 <= k < |log| - (if Busy(m') then 1 else 0) ensures SettledAt(log, ds', k) {
      if k < z { assert SettledAt(log, ds, k); }
    }
  }

  lemma {:induction false} AllSentSnoc(ds: seq<Deed>, d: Deed)
    ensures AllSent(ds + [d]) == AllSent(ds) + d.sent
  {
    assert (ds + [d])[..|ds|] == ds;
  }

  lemma AllSentLast(ds: seq<Deed>, d: Deed, e: L.Event)
    requires ds != [] && d.sent == ds[|ds| - 1].sent + [e]
    ensures AllSent(ds[|ds| - 1 := d]) == AllSent(ds) + [e]
  {
    var z := |ds| - 1;
    assert ds[z := d][..z] == ds[..z];
    AppendAssoc(AllSent(ds[..z]), ds[z].sent, [e]);
  }

  lemma AllSentSame(ds: seq<Deed>, d: Deed)
    requires ds != [] && d.sent == ds[|ds| - 1].sent
    ensures AllSent(ds[|ds| - 1 := d]) == AllSent(ds)
  {
    assert ds[|ds| - 1 := d][..|ds| - 1] == ds[..|ds| - 1];
  }

  /** A byte is taken. */
  lemma Taken(s: State, ds: seq<Deed>, f: Fate, mode: Mode)
    requires Account(s.mode, s.log, ds) && !Busy(s.mode) && s.rest != []
    requires InCommand(LastFate(s.log)) ==> (Live(s) <==> Judged(f))
    requires var d := Deed(Live(s), [], None, None);
      if Busy(mode) then Underway(mode, f, OpenCount(s.log), d) else Settled(f, OpenCount(s.log), d)
    ensures Account(mode, Eat(s, f, mode).log, ds + [Deed(Live(s), [], None, None)])
  {
    var log', ds', z := Eat(s, f, mode).log, ds + [Deed(Live(s), [], None, None)], |s.log|;
    assert log'[..z] == s.log;
    forall k | 0 <= k < |log'| ensures LiveOk(log', ds', k) {
      if k < z { assert LiveOk(s.log, ds, k); }
    }
    forall k | 0 <= k < |log'| - (if Busy(mode) then 1 else 0) ensures SettledAt(log', ds', k) {
      if k < z { assert SettledAt(s.log, ds, k) && log'[..k] == s.log[..k]; }
    }
  }

  lemma NothingSent(f: Fate, n: nat, d: Deed)
    requires d.sent == [] && (f.Typed? || f.Rest? || f.Unmatched?)
    ensures Settled(f, n, d)
  {
  }

  lemma ScanTaken(s: State, ds: seq<Deed>)
    requires Account(s.mode, s.log, ds) && ModeInv(s) && s.mode.Scan? && s.rest != []
    ensures Account(EatScan(s).mode, EatScan(s).log, ds + [Deed(Live(s), [], None, None)])
  {
    NothingSent(Typed, OpenCount(s.log), Deed(Live(s), [], None, None));
    if s.rest[0] != s.hotkey { Taken(s, ds, Typed, Scan); } else { Taken(s, ds, Opened, WantEnter); }
  }

  lemma ForwardTaken(s: State, ds: seq<Deed>)
    requires Account(s.mode, s.log, ds) && ModeInv(s) && s.mode.Forward? && s.rest != []
    ensures Account(Forward, Eat(s, Rest, Forward).log, ds + [Deed(Live(s), [], None, None)])
  {
    NothingSent(Rest, OpenCount(s.log), Deed(Live(s), [], None, None));
    Taken(s, ds, Rest, Forward);
  }

  lemma CommandTaken(s: State, ds: seq<Deed>, h: Handler)
    requires Account(s.mode, s.log, ds) && ModeInv(s) && Agree(s) && s.mode == Command(h) && s.rest != []
    requires !Cancelled(s, h.gen)
    ensures Account(EatCommand(s, h).mode, EatCommand(s, h).log, ds + [Deed(Live(s), [], None, None)])
  {
    assert Open(s.loop, h) && OpenCount(s.log) == |s.loop.entered| == h.gen;
    var f := Judge(s.rest[0], s.hotkey, h);
    if f.Unmatched? { NothingSent(f, h.gen, Deed(Live(s), [], None, None)); }
    Taken(s, ds, f, ModeAfter(f, s.rest[0], h));
  }

  lemma OwnSame(heard: seq<L.Event>, ch: seq<L.Event>, e: L.Event)
    requires !IsOwn(e)
    ensures Own(heard + (ch + [e])) == Own(heard + ch)
  {
    AppendAssoc(heard, ch, [e]);
    OwnSnoc(heard + ch, e);
    assert Own(heard + ch) + [] == Own(heard + ch);
  }

  lemma OwnMore(heard: seq<L.Event>, ch: seq<L.Event>, e: L.Event)
    requires IsOwn(e)
    ensures Own(heard + (ch + [e])) == Own(heard + ch) + [e]
  {
    AppendAssoc(heard, ch, [e]);
    OwnSnoc(heard + ch, e);
  }

  lemma SameDeeds(ds: seq<Deed>)
    requires ds != []
    ensures ds[|ds| - 1 := ds[|ds| - 1]] == ds
  {
  }

  /** A step of the status source or of a timer, or one of the goroutine that neither
      takes a byte, sends nor is answered an action: no deed changes. */
  lemma QuietAdds(st: Story, a: Action)
    requires Adds(st) && Enabled(st.s, a) && !a.LoopStep? && !IsSend(a) && !a.TakeAck? && !a.KeyReturns?
    requires var s' := Apply(st.s, a);
      && s'.log == st.s.log && Own(st.heard + s'.ch) == Own(st.heard + st.s.ch)
      && s'.loop.book == st.s.loop.book && Account(s'.mode, s'.log, st.deeds)
    ensures Adds(Tell(st, a))
  {
    if st.deeds != [] { SameDeeds(st.deeds); }
  }

  /** Modes between bytes are alike, and a reply taken settles the opening. */
  lemma ModeAdds(m: Mode, m': Mode, log: seq<Entry>, ds: seq<Deed>)
    requires Account(m, log, ds) && !Busy(m') && (Busy(m) ==> m.AwaitReply?)
    ensures Account(m', log, ds)
  {
    if Busy(m) {
      var z := |log| - 1;
      assert EventsOf([Request.Enter]) == [L.Enter];
      Progress(m, m', log, ds, ds[z]);
      SameDeeds(ds);
    }
  }

  lemma LoopStepAdds(st: Story)
    requires Adds(st) && L.BookInv(st.s.loop.book) && st.s.ch != []
    ensures Adds(Story(Handled(st.s), st.deeds, st.heard + [st.s.ch[0]]))
  {
    MoveHead(st.heard, st.s.ch);
    L.BookKeeps(st.s.loop, st.s.ch[0]);
    L.AlertsInSnoc(st.heard, st.s.ch[0]);
  }

  lemma LoopTells(st: Story)
    requires Adds(st) && L.BookInv(st.s.loop.book) && st.s.ch != []
    ensures Adds(Tell(st, LoopStep))
  {
    LoopStepAdds(st);
    if st.deeds != [] { SameDeeds(st.deeds); }
    assert Tell(st, LoopStep) == Story(Handled(st.s), st.deeds, st.heard + [st.s.ch[0]]);
  }

  lemma FiringIsForeign(s: State)
    requires TimersInv(s)
    ensures forall e :: e in s.firing ==> !IsOwn(e)
  {
  }

  /** The byte just taken. */
  function Taking(st: Story, s': State): Story { Story(s', st.deeds + [Deed(Live(st.s), [], None, None)], st.heard) }

  lemma TakenAdds(st: Story, s': State)
    requires Adds(st) && s'.ch == st.s.ch && s'.loop == st.s.loop
    requires Account(s'.mode, s'.log, st.deeds + [Deed(Live(st.s), [], None, None)])
    ensures Adds(Taking(st, s'))
  {
    AllSentSnoc(st.deeds, Deed(Live(st.s), [], None, None));
    assert AllSent(st.deeds) + [] == AllSent(st.deeds);
  }

  lemma ByteAdds(st: Story, a: Action)
    requires Agree(st.s) && ModeInv(st.s) && Adds(st) && Enabled(st.s, a)
    requires a.ScanByte? || a.CommandByte? || a.ForwardRest?
    ensures Adds(Tell(st, a))
  {
    match a
    case ScanByte =>
      ScanTaken(st.s, st.deeds);
      TakenAdds(st, EatScan(st.s));
    case CommandByte =>
      CommandTaken(st.s, st.deeds, st.s.mode.h);
      TakenAdds(st, EatCommand(st.s, st.s.mode.h));
    case ForwardRest =>
      ForwardTaken(st.s, st.deeds);
      TakenAdds(st, Eat(st.s, Rest, Forward));
  }

  /** A request goes out: the deed grows by it, and the channel too. */
  lemma SendAdds(st: Story, e: L.Event, mode: Mode)
    requires Adds(st) && Busy(st.s.mode) && IsOwn(e)
    requires (st.s.mode.WantEnter? && e == L.Enter && mode == AwaitReply) || Sends(st.s.mode, e, mode)
    ensures var d := st.deeds[|st.deeds| - 1];
      Adds(Story(Post(st.s, e, mode), st.deeds[|st.deeds| - 1 := d.(sent := d.sent + [e])], st.heard))
  {
    var z := |st.deeds| - 1;
    var d := st.deeds[z];
    var d' := d.(sent := d.sent + [e]);
    assert [] + [e] == [e];
    SentSettles(st.s.mode, st.s.log[z].fate, OpenCount(st.s.log[..z]), d, e, mode);
    Progress(st.s.mode, mode, st.s.log, st.deeds, d');
    AllSentLast(st.deeds, d', e);
    OwnMore(st.heard, st.s.ch, e);
  }

  lemma SentSettles(m: Mode, f: Fate, n: nat, d: Deed, e: L.Event, mode: Mode)
    requires Busy(m) && Underway(m, f, n, d)
    requires (m.WantEnter? && e == L.Enter && mode == AwaitReply) || Sends(m, e, mode)
    ensures var d' := d.(sent := d.sent + [e]);
      if Busy(mode) then Underway(mode, f, n, d') else Settled(f, n, d')
  {
    var d' := d.(sent := d.sent + [e]);
    match m
    case WantCancel(h) => assert EventsOf([Request.Cancel(n)]) == [e] == d'.sent;
    case WantAction(h, r) =>
      assert EventsOf([Request.Begin(n), Request.Action(n, r)]) == [L.Begin(n)] + [e] == d'.sent;
    case _ =>
  }

  lemma SendTells(st: Story, a: Action, e: L.Event, mode: Mode)
    requires Adds(st) && Enabled(st.s, a) && IsSend(a) && Apply(st.s, a) == Post(st.s, e, mode)
    requires Busy(st.s.mode) && IsOwn(e)
    requires (st.s.mode.WantEnter? && e == L.Enter && mode == AwaitReply) || Sends(st.s.mode, e, mode)
    ensures Adds(Tell(st, a))
  {
    SendAdds(st, e, mode);
  }

  lemma SendStepAdds(st: Story, a: Action)
    requires Adds(st) && Enabled(st.s, a) && IsSend(a)
    ensures Adds(Tell(st, a))
  {
    var m := st.s.mode;
    match a
    case SendEnter => SendTells(st, a, L.Enter, AwaitReply);
    case SendCancel => SendTells(st, a, L.Cancel(m.h.gen, false), Forward);
    case SendBegin => SendTells(st, a, L.Begin(m.h.gen), AwaitAck(m.h, m.key));
    case SendAction => SendTells(st, a, L.Action(m.h.gen, m.result), Forward);
  }

  /** An answer comes in: the loop's acknowledgement, or what OnKey returned. */
  lemma AnswerAdds(st: Story, s': State, d: Deed)
    requires Adds(st) && Busy(st.s.mode) && s'.log == st.s.log && s'.ch == st.s.ch && s'.loop.book == st.s.loop.book
    requires d.sent == st.deeds[|st.deeds| - 1].sent && d.live == st.deeds[|st.deeds| - 1].live
    requires var z := |st.s.log| - 1; var f, n := st.s.log[z].fate, OpenCount(st.s.log[..z]);
      if Busy(s'.mode) then Underway(s'.mode, f, n, d) else Settled(f, n, d)
    ensures Adds(Story(s', st.deeds[|st.deeds| - 1 := d], st.heard))
  {
    Progress(st.s.mode, s'.mode, st.s.log, st.deeds, d);
    AllSentSame(st.deeds, d);
  }

  lemma TakeAckAdds(st: Story)
    requires Adds(st) && Enabled(st.s, TakeAck)
    ensures Adds(Tell(st, TakeAck))
  {
    var s, z := st.s, |st.deeds| - 1;
    var d := st.deeds[z].(ack := s.loop.ack);
    assert EventsOf([Request.Begin(s.mode.h.gen)]) == [L.Begin(s.mode.h.gen)];
    AnswerAdds(st, TakenAck(s, s.mode.h, s.mode.key), d);
  }

  lemma KeyReturnsAdds(st: Story, result: Result)
    requires Adds(st) && st.s.mode.Running?
    ensures Adds(Tell(st, KeyReturns(result)))
  {
    var s, z := st.s, |st.deeds| - 1;
    AnswerAdds(st, s.(mode := WantAction(s.mode.h, result)), st.deeds[z].(result := Some(result)));
  }

  /** What the status source and the timers leave alone. */
  lemma OutsideKeeps(s: State, a: Action)
    requires Enabled(s, a) && !IsStdin(a) && !a.LoopStep?
    ensures var s' := Apply(s, a); s'.mode == s.mode && s'.log == s.log && s'.loop.book == s.loop.book
    ensures Apply(s, a).ch == if a.Publish? || a.TimerSends? then s.ch + [a.e] else s.ch
  {
  }

  lemma OutsideAdds(st: Story, a: Action)
    requires Adds(st) && Enabled(st.s, a) && !IsStdin(a) && !a.LoopStep?
    requires forall e :: e in st.s.firing ==> !IsOwn(e)
    ensures Adds(Tell(st, a))
  {
    OutsideKeeps(st.s, a);
    var s' := Apply(st.s, a);
    if a.Publish? || a.TimerSends? { OwnSame(st.heard, st.s.ch, a.e); }
    assert Own(st.heard + s'.ch) == Own(st.heard + st.s.ch);
    QuietAdds(st, a);
  }

  lemma BetweenAdds(st: Story, a: Action)
    requires Adds(st) && Enabled(st.s, a) && (a.ReadInput? || a.NoticeCancelled? || a.TakeReply?)
    ensures Adds(Tell(st, a))
  {
    ModeAdds(st.s.mode, Apply(st.s, a).mode, st.s.log, st.deeds);
    QuietAdds(st, a);
  }

  lemma StdinAdds(st: Story, a: Action)
    requires Agree(st.s) && ModeInv(st.s) && Adds(st) && Enabled(st.s, a) && IsStdin(a)
    ensures Adds(Tell(st, a))
  {
    if IsSend(a) {
      SendStepAdds(st, a);
    } else if a.TakeAck? {
      TakeAckAdds(st);
    } else if a.KeyReturns? {
      KeyReturnsAdds(st, a.result);
    } else if a.ScanByte? || a.CommandByte? || a.ForwardRest? {
      ByteAdds(st, a);
    } else {
      BetweenAdds(st, a);
    }
  }

  lemma TellAdds(st: Story, a: Action)
    requires Inv(st.s) && Adds(st) && Enabled(st.s, a)
    ensures Adds(Tell(st, a))
  {
    if a.LoopStep? {
      LoopTells(st);
    } else if IsStdin(a) {
      StdinAdds(st, a);
    } else {
      FiringIsForeign(st.s);
      OutsideAdds(st, a);
    }
  }

  lemma {:induction false} StoryAdds(hotkey: Byte, acts: seq<Action>)
    requires Told(hotkey, acts).Some?
    ensures Inv(Told(hotkey, acts).value.s) && Adds(Told(hotkey, acts).value)
  {
    if acts == [] {
      InitialInv(hotkey);
      assert Own([]) == [];
    } else {
      var init, a := acts[..|acts| - 1], acts[|acts| - 1];
      StoryAdds(hotkey, init);
      StepKeeps(Told(hotkey, init).value.s, a);
      TellAdds(Told(hotkey, init).value, a);
    }
  }

  // ----- Runs -------------------------------------------------------------

  /** The alerts the status source published. */
  function PublishedBy(acts: seq<Action>): seq<L.Alert> {
    if acts == [] then []
    else
      var a := acts[|acts| - 1];
      PublishedBy(acts[..|acts| - 1]) + (if a.Publish? && a.e.AlertEvent? then [a.e.alert] else [])
  }

  /** What OnKey returned, call by call. */
  function ReturnedBy(acts: seq<Action>): seq<Result> {
    if acts == [] then []
    else
      var a := acts[|acts| - 1];
      ReturnedBy(acts[..|acts| - 1]) + (if a.KeyReturns? then [a.result] else [])
  }

  datatype Outcome = Outcome(gen: nat, result: Result)

  /** The results among some events, with their generations. */
  function OutcomesIn(es: seq<L.Event>): seq<Outcome> {
    if es == [] then []
    else
      var e := es[|es| - 1];
      OutcomesIn(es[..|es| - 1]) + (if e.Action? then [Outcome(e.gen, e.result)] else [])
  }

  lemma OutcomesSnoc(es: seq<L.Event>, e: L.Event)
    ensures OutcomesIn(es + [e]) == OutcomesIn(es) + if e.Action? then [Outcome(e.gen, e.result)] else []
  {
    assert (es + [e])[..|es|] == es;
  }

  lemma {:induction false} AlertsInAppend(a: seq<L.Event>, b: seq<L.Event>)
    ensures L.AlertsIn(a + b) == L.AlertsIn(a) + L.AlertsIn(b)
  {
    if b == [] {
      assert a + b == a;
    } else {
      AlertsInAppend(a, b[..|b| - 1]);
      assert (a + b)[..|a + b| - 1] == a + b[..|b| - 1];
    }
  }

  lemma {:induction false} OutcomesAppend(a: seq<L.Event>, b: seq<L.Event>)
    ensures OutcomesIn(a + b) == OutcomesIn(a) + OutcomesIn(b)
  {
    if b == [] {
      assert a + b == a;
    } else {
      OutcomesAppend(a, b[..|b| - 1]);
      assert (a + b)[..|a + b| - 1] == a + b[..|b| - 1];
    }
  }

  function Unsent(m: Mode): seq<Outcome> { if m.WantAction? then [Outcome(m.h.gen, m.result)] else [] }

  /** Everything OnKey returned so far, wherever it has got to. */
  function Outcomes(st: Story): seq<Outcome> { OutcomesIn(st.heard + st.s.ch) + Unsent(st.s.mode) }

  /** Every step: one event at most is put at the end of what was heard or is still
      in the channel, and it is the one its action stands for. */
  ghost predicate Carries(st: Story, a: Action, e: Option<L.Event>)
    requires Enabled(st.s, a)
  {
    var st' := Tell(st, a);
    st'.heard + st'.s.ch == st.heard + st.s.ch + if e.Some? then [e.value] else []
  }

  function Put(s: State, a: Action): Option<L.Event>
    requires Enabled(s, a)
  {
    match a
    case Publish(e) => Some(e)
    case TimerSends(e) => Some(e)
    case SendEnter => Some(L.Enter)
    case SendCancel => Some(L.Cancel(s.mode.h.gen, false))
    case SendBegin => Some(L.Begin(s.mode.h.gen))
    case SendAction => Some(L.Action(s.mode.h.gen, s.mode.result))
    case _ => None
  }

  lemma TellCarries(st: Story, a: Action)
    requires Enabled(st.s, a)
    ensures Carries(st, a, Put(st.s, a))
  {
    if a.LoopStep? {
      MoveHead(st.heard, st.s.ch);
    } else {
      ChannelGrows(st.s, a);
      if Put(st.s, a).Some? { AppendAssoc(st.heard, st.s.ch, [Put(st.s, a).value]); }
    }
    assert st.heard + st.s.ch + [] == st.heard + st.s.ch;
  }

  lemma ChannelGrows(s: State, a: Action)
    requires Enabled(s, a) && !a.LoopStep?
    ensures Apply(s, a).ch == s.ch + if Put(s, a).Some? then [Put(s, a).value] else []
  {
    assert s.ch + [] == s.ch;
  }

  /** Alerts reach the channel only by being published. */
  lemma {:induction false} AlertsCarried(hotkey: Byte, acts: seq<Action>)
    requires Told(hotkey, acts).Some?
    ensures var st := Told(hotkey, acts).value; PublishedBy(acts) == L.AlertsIn(st.heard + st.s.ch)
  {
    if acts != [] {
      var init, a := acts[..|acts| - 1], acts[|acts| - 1];
      var st := Told(hotkey, init).value;
      AlertsCarried(hotkey, init);
      StoryAdds(hotkey, init);
      TellCarries(st, a);
      var e := Put(st.s, a);
      if e.Some? {
        L.AlertsInSnoc(st.heard + st.s.ch, e.value);
        PutAlerts(st.s, a);
      } else {
        assert st.heard + st.s.ch + [] == st.heard + st.s.ch;
      }
    }
  }

  lemma PutAlerts(s: State, a: Action)
    requires TimersInv(s) && Enabled(s, a) && Put(s, a).Some?
    ensures Put(s, a).value.AlertEvent? <==> a.Publish? && a.e.AlertEvent?
    ensures Put(s, a).value.AlertEvent? ==> Put(s, a).value == a.e
  {
  }

  /** The results on their way and those heard are, call by call, what OnKey
      returned. */
  ghost predicate Paired(calls: seq<Call>, results: seq<Result>, out: seq<Outcome>, running: bool) {
    && |out| == |results| && |calls| == |out| + (if running then 1 else 0)
    && forall k :: 0 <= k < |out| ==> out[k].result == results[k] && out[k].gen == calls[k].gen
  }

  /** What step a sends out of the mode, or brings into it. */
  ghost predicate Hands(m: Mode, m': Mode, e: Option<L.Event>, back: seq<Outcome>) {
    Unsent(m) + back == (if e.Some? && e.value.Action? then [Outcome(e.value.gen, e.value.result)] else []) + Unsent(m')
  }

  lemma OutcomesBy(all: seq<L.Event>, e: Option<L.Event>, m: Mode, m': Mode, back: seq<Outcome>)
    requires Hands(m, m', e, back)
    ensures OutcomesIn(all + if e.Some? then [e.value] else []) + Unsent(m') == OutcomesIn(all) + Unsent(m) + back
  {
    var sent := if e.Some? && e.value.Action? then [Outcome(e.value.gen, e.value.result)] else [];
    if e.Some? { OutcomesSnoc(all, e.value); } else { assert all + [] == all && OutcomesIn(all) + [] == OutcomesIn(all); }
    AppendAssoc(OutcomesIn(all), sent, Unsent(m'));
    AppendAssoc(OutcomesIn(all), Unsent(m), back);
  }

  function Back(s: State, a: Action): seq<Outcome>
    requires Enabled(s, a)
  {
    if a.KeyReturns? then [Outcome(s.mode.h.gen, a.result)] else []
  }

  lemma OutcomesMove(st: Story, a: Action)
    requires TimersInv(st.s) && Enabled(st.s, a)
    ensures Outcomes(Tell(st, a)) == Outcomes(st) + Back(st.s, a)
  {
    TellCarries(st, a);
    ModeOutcomes(st.s, a);
    OutcomesBy(st.heard + st.s.ch, Put(st.s, a), st.s.mode, Tell(st, a).s.mode, Back(st.s, a));
  }

  /** Only OnKey's return and the sending of its result touch what is unsent. */
  lemma UnsentSame(s: State, a: Action)
    requires TimersInv(s) && Enabled(s, a) && !a.SendAction? && !a.KeyReturns?
    ensures Unsent(Apply(s, a).mode) == Unsent(s.mode)
    ensures Put(s, a).Some? ==> !Put(s, a).value.Action?
  {
  }

  lemma ModeOutcomes(s: State, a: Action)
    requires TimersInv(s) && Enabled(s, a)
    ensures Hands(s.mode, Apply(s, a).mode, Put(s, a), Back(s, a))
  {
    if !a.SendAction? && !a.KeyReturns? {
      UnsentSame(s, a);
      assert Unsent(s.mode) + [] == [] + Unsent(s.mode);
    }
  }

  /** The calls of OnKey, of which the last may still be running. */
  ghost predicate CallRuns(s: State) {
    s.mode.Running? ==> s.calls != [] && s.calls[|s.calls| - 1].gen == s.mode.h.gen
  }

  /** How a step changes the calls made: one starts, or the one running returns. */
  ghost predicate CallStep(s: State, s': State, done: bool) {
    if done then s.mode.Running? && !s'.mode.Running? && s'.calls == s.calls
    else if s'.mode.Running? && !s.mode.Running? then |s'.calls| == |s.calls| + 1 && s.calls <= s'.calls
    else s'.calls == s.calls && s'.mode.Running? == s.mode.Running?
  }

  lemma CallsMove(s: State, a: Action)
    requires CallRuns(s) && Enabled(s, a)
    ensures CallRuns(Apply(s, a)) && CallStep(s, Apply(s, a), a.KeyReturns?)
  {
  }

  lemma PairedStep(s: State, s': State, results: seq<Result>, out: seq<Outcome>, back: seq<Outcome>)
    requires Paired(s.calls, results, out, s.mode.Running?) && CallRuns(s) && CallStep(s, s', back != [])
    requires |back| <= 1 && (back != [] ==> s.mode.Running? && back[0].gen == s.mode.h.gen)
    ensures Paired(s'.calls, results + (if back != [] then [back[0].result] else []), out + back, s'.mode.Running?)
  {
  }

  lemma {:induction false} OutcomesPaired(hotkey: Byte, acts: seq<Action>)
    requires Told(hotkey, acts).Some?
    ensures var st := Told(hotkey, acts).value;
      Paired(st.s.calls, ReturnedBy(acts), Outcomes(st), st.s.mode.Running?) && CallRuns(st.s)
  {
    if acts != [] {
      var init, a := acts[..|acts| - 1], acts[|acts| - 1];
      var st := Told(hotkey, init).value;
      OutcomesPaired(hotkey, init);
      StoryAdds(hotkey, init);
      OutcomesMove(st, a);
      CallsMove(st.s, a);
      PairedStep(st.s, Apply(st.s, a), ReturnedBy(init), Outcomes(st), Back(st.s, a));
    }
  }

  lemma StatusStep(s: State, a: Action)
    requires Enabled(s, a)
    ensures Apply(s, a).loop.lastStatus ==
      if a.LoopStep? && s.ch[0].StatusEvent? then s.ch[0].message else s.loop.lastStatus
  {
    if a.LoopStep? { L.StatusMoves(s.loop, s.ch[0]); }
  }

  /** The loop remembers the last status it has heard. */
  lemma {:induction false} StatusKept(hotkey: Byte, acts: seq<Action>)
    requires Told(hotkey, acts).Some?
    ensures var st := Told(hotkey, acts).value; st.s.loop.lastStatus == L.StatusAfter("", st.heard)
  {
    if acts != [] {
      var init, a := acts[..|acts| - 1], acts[|acts| - 1];
      StatusKept(hotkey, init);
      var st := Told(hotkey, init).value;
      StatusStep(st.s, a);
      if a.LoopStep? { assert (st.heard + [st.s.ch[0]])[..|st.heard|] == st.heard; }
    }
  }

  // ----- Keys -------------------------------------------------------------

  /** A key pressed, and the generation it was pressed in. */
  datatype Press = Press(gen: nat, key: Byte)

  function PressAt(log: seq<Entry>, ds: seq<Deed>, k: nat): seq<Press>
    requires k < |log| && k < |ds|
  {
    if log[k].fate.Acted? && ds[k].ack == Some(true) then [Press(OpenCount(log[..k]), log[k].b)] else []
  }

  /** The acknowledged action keys among the first n bytes. */
  function Presses(log: seq<Entry>, ds: seq<Deed>, n: nat): seq<Press>
    requires n <= |log| && n <= |ds|
  {
    if n == 0 then [] else Presses(log, ds, n - 1) + PressAt(log, ds, n - 1)
  }

  function CallPresses(calls: seq<Call>): seq<Press> {
    seq(|calls|, k requires 0 <= k < |calls| => Press(calls[k].gen, calls[k].key))
  }

  /** OnKey was called for exactly the acknowledged action keys, in order. */
  ghost predicate CallsMade(log: seq<Entry>, ds: seq<Deed>, calls: seq<Call>) {
    |ds| == |log| && CallPresses(calls) == Presses(log, ds, |log|)
  }

  lemma {:induction false} PressesPrefix(log: seq<Entry>, ds: seq<Deed>, log': seq<Entry>, ds': seq<Deed>, n: nat)
    requires n <= |log| && n <= |ds| && n <= |log'| && n <= |ds'| && log'[..n] == log[..n] && ds'[..n] == ds[..n]
    ensures Presses(log', ds', n) == Presses(log, ds, n)
    decreases n
  {
    if n > 0 {
      var z := n - 1;
      assert log[z] == log[..n][z] && log'[z] == log'[..n][z] && ds[z] == ds[..n][z] && ds'[z] == ds'[..n][z];
      assert log[..z] == log[..n][..z] && log'[..z] == log'[..n][..z];
      assert ds[..z] == ds[..n][..z] && ds'[..z] == ds'[..n][..z];
      PressesPrefix(log, ds, log', ds', z);
    }
  }

  /** The key the goroutine is dealing with is the byte it took last. */
  ghost predicate KeyIsByte(m: Mode, log: seq<Entry>) {
    m.WantBegin? || m.AwaitAck? || m.Running? ==> log != [] && m.key == log[|log| - 1].b
  }

  lemma KeyStays(s: State, a: Action)
    requires Enabled(s, a) && KeyIsByte(s.mode, s.log)
    ensures KeyIsByte(Apply(s, a).mode, Apply(s, a).log)
  {
  }

  lemma CallsExtend(log: seq<Entry>, ds: seq<Deed>, calls: seq<Call>, e: Entry, d: Deed)
    requires CallsMade(log, ds, calls) && d.ack.None?
    ensures CallsMade(log + [e], ds + [d], calls)
  {
    assert (log + [e])[..|log|] == log[..|log|] && (ds + [d])[..|ds|] == ds[..|ds|];
    PressesPrefix(log, ds, log + [e], ds + [d], |log|);
    assert Presses(log, ds, |log|) + [] == Presses(log, ds, |log|);
  }

  /** The last deed changes; whether it records an acknowledged key is ack. */
  lemma LastPress(log: seq<Entry>, ds: seq<Deed>, d: Deed)
    requires |ds| == |log| && ds != []
    ensures var z, ds' := |log| - 1, ds[|ds| - 1 := d];
      && Presses(log, ds, |log|) == Presses(log, ds, z) + PressAt(log, ds, z)
      && Presses(log, ds', |log|) == Presses(log, ds, z) + PressAt(log, ds', z)
  {
    var z, ds' := |log| - 1, ds[|ds| - 1 := d];
    assert ds'[..z] == ds[..z];
    PressesPrefix(log, ds, log, ds', z);
  }

  lemma CallsSame(log: seq<Entry>, ds: seq<Deed>, calls: seq<Call>, d: Deed)
    requires CallsMade(log, ds, calls) && ds != [] && (d.ack == Some(true) <==> ds[|ds| - 1].ack == Some(true))
    ensures CallsMade(log, ds[|ds| - 1 := d], calls)
  {
    LastPress(log, ds, d);
  }

  lemma CallAdded(log: seq<Entry>, ds: seq<Deed>, calls: seq<Call>, d: Deed, c: Call)
    requires CallsMade(log, ds, calls) && ds != [] && d.ack == Some(true) && ds[|ds| - 1].ack.None?
    requires var z := |log| - 1; log[z].fate.Acted? && c.gen == OpenCount(log[..z]) && c.key == log[z].b
    ensures CallsMade(log, ds[|ds| - 1 := d], calls + [c])
  {
    var z := |log| - 1;
    LastPress(log, ds, d);
    assert Presses(log, ds, z) + [] == Presses(log, ds, z);
    assert CallPresses(calls + [c]) == CallPresses(calls) + [Press(c.gen, c.key)];
  }

  lemma AckTells(st: Story)
    requires Adds(st) && Enabled(st.s, TakeAck) && KeyIsByte(st.s.mode, st.s.log)
    requires CallsMade(st.s.log, st.deeds, st.s.calls)
    ensures var st' := Tell(st, TakeAck); CallsMade(st'.s.log, st'.deeds, st'.s.calls)
  {
    var s, z := st.s, |st.deeds| - 1;
    var d := st.deeds[z].(ack := s.loop.ack);
    if s.loop.ack.value {
      CallAdded(s.log, st.deeds, s.calls, d, Call(s.mode.h.gen, s.mode.key, s.mode.h.target, s.loop.active));
    } else {
      CallsSame(s.log, st.deeds, s.calls, d);
    }
  }

  lemma CallsStay(s: State, a: Action)
    requires Enabled(s, a) && !a.TakeAck?
    ensures Apply(s, a).calls == s.calls
    ensures |Apply(s, a).log| <= |s.log| ==> Apply(s, a).log == s.log
    ensures |Apply(s, a).log| > |s.log| ==> Apply(s, a).log == s.log + [Apply(s, a).log[|s.log|]]
  {
  }

  lemma OtherDeeds(ds: seq<Deed>, s: State, a: Action, s': State)
    requires CallsMade(s.log, ds, s.calls) && s'.calls == s.calls && !a.TakeAck?
    requires s'.log == s.log || (|s'.log| == |s.log| + 1 && s'.log == s.log + [s'.log[|s.log|]])
    ensures CallsMade(s'.log, DeedsAfter(ds, s, a, s'), s'.calls)
  {
    if |s'.log| > |s.log| {
      CallsExtend(s.log, ds, s.calls, s'.log[|s.log|], Deed(Live(s), [], None, None));
    } else if ds != [] {
      CallsSame(s.log, ds, s.calls, Noted(ds[|ds| - 1], s, a, s'));
    }
  }

  lemma OtherTells(st: Story, a: Action)
    requires Enabled(st.s, a) && !a.TakeAck? && CallsMade(st.s.log, st.deeds, st.s.calls)
    ensures var st' := Tell(st, a); CallsMade(st'.s.log, st'.deeds, st'.s.calls)
  {
    CallsStay(st.s, a);
    OtherDeeds(st.deeds, st.s, a, Apply(st.s, a));
  }

  lemma CallsTell(st: Story, a: Action)
    requires Adds(st) && Enabled(st.s, a) && KeyIsByte(st.s.mode, st.s.log)
    requires CallsMade(st.s.log, st.deeds, st.s.calls)
    ensures var st' := Tell(st, a); CallsMade(st'.s.log, st'.deeds, st'.s.calls)
  {
    if a.TakeAck? { AckTells(st); } else { OtherTells(st, a); }
  }

  lemma {:induction false} KeysTold(hotkey: Byte, acts: seq<Action>)
    requires Told(hotkey, acts).Some?
    ensures var st := Told(hotkey, acts).value;
      KeyIsByte(st.s.mode, st.s.log) && CallsMade(st.s.log, st.deeds, st.s.calls)
  {
    if acts != [] {
      var init, a := acts[..|acts| - 1], acts[|acts| - 1];
      KeysTold(hotkey, init);
      StoryAdds(hotkey, init);
      KeyStays(Told(hotkey, init).value.s, a);
      CallsTell(Told(hotkey, init).value, a);
    }
  }
}
