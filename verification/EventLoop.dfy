/** ward/wrapper.go, the event loop goroutine: alerts, the status bar, timers and
    the loop's half of command mode. Timers are only armed or not; what happens
    when they fire is in module Ward. */
module EventLoop {
  import opened Basics
  import C = CommandInput

  const MAX_ALERT_QUEUE := 64

  datatype Hint = Hint(key: Byte, requireAlert: bool)
  datatype Alert = Alert(message: string, target: string, hints: seq<Hint>)
  datatype CommandState = NoCommand | Active | Pending
  datatype Bar = Hidden | Status(message: string) | AlertBar(message: string) | Cleared | CommandBar(target: string)

  /** idle tells the idle timer's cancellation from the user's. */
  datatype Event =
    | StatusEvent(message: string)
    | AlertEvent(alert: Alert)
    | Dismiss
    | Enter
    | Begin(gen: nat)
    | Action(gen: nat, result: C.Result)
    | Cancel(gen: nat, idle: bool)

  /** How an alert left the queue; depth is the queue length at that moment. */
  datatype Exit = Shown(alert: Alert) | Dropped(alert: Alert, depth: nat)

  /** The alert queue, and the history of alerts: all received, those shown at
      once (direct), those queued, and those that left the queue. */
  datatype Book = Book(queue: seq<Alert>, left: seq<Exit>, queued: seq<Alert>,
                       received: seq<Alert>, direct: seq<Alert>)

  /** The loop's variables. ctx is the generation whose context is not cancelled;
      idle the generation whose idle timer runs; reply and ack the one-slot
      channels of the request being answered. entered records the alert on display
      at each EnterCommand, so generation n was opened on entered[n - 1]. misfire:
      command mode was entered while open, or the result of an acknowledged action
      was thrown away. */
  datatype Loop = Loop(
    lastStatus: string, book: Book, active: Option<Alert>, dismissArmed: bool,
    cmd: CommandState, gen: nat, idle: Option<nat>, ctx: Option<nat>, bar: Bar,
    reply: Option<C.Handler>, ack: Option<bool>, entered: seq<Option<Alert>>, misfire: bool)

  function Initial(): Loop {
    Loop("", Book([], [], [], [], []), None, false, NoCommand, 0, None, None, Hidden, None, None, [], false)
  }

  function TargetOf(a: Option<Alert>): string { if a.None? then "" else a.value.target }

  function Keys(hints: seq<Hint>, hasAlert: bool): seq<Byte> {
    if hints == [] then []
    else (if hints[0].requireAlert && !hasAlert then [] else [hints[0].key]) + Keys(hints[1..], hasAlert)
  }

  function VisibleKeys(a: Option<Alert>): seq<Byte> {
    if a.None? then [] else Keys(a.value.hints, a.value.target != "")
  }

  /** What generation gen, opened on alert a, offers. */
  function Offer(gen: nat, a: Option<Alert>): C.Handler { C.Handler(gen, TargetOf(a), VisibleKeys(a)) }

  function ShowAlert(l: Loop, a: Alert): Loop {
    l.(active := Some(a), bar := AlertBar(a.message), dismissArmed := true)
  }

  /** The oldest queued alert leaves the queue. */
  function Leave(b: Book, x: Exit): Book
    requires b.queue != []
  {
    b.(queue := b.queue[1..], left := b.left + [x])
  }

  function Queue(b: Book, a: Alert): Book {
    b.(queue := b.queue + [a], queued := b.queued + [a], received := b.received + [a])
  }

  function Direct(b: Book, a: Alert): Book { b.(direct := b.direct + [a], received := b.received + [a]) }

  /** Nothing is active: the oldest queued alert, else the status, else nothing. */
  function ShowNext(l: Loop): Loop {
    if l.book.queue != [] then
      ShowAlert(l.(book := Leave(l.book, Shown(l.book.queue[0]))), l.book.queue[0])
    else if l.lastStatus != "" then l.(bar := Status(l.lastStatus))
    else l.(bar := Cleared)
  }

  function ExitCommandMode(l: Loop): Loop { l.(idle := None, ctx := None, cmd := NoCommand) }

  /** A full queue gives up its oldest alert. */
  function Enqueue(b: Book, a: Alert): Book {
    Queue(if |b.queue| >= MAX_ALERT_QUEUE then Leave(b, Dropped(b.queue[0], |b.queue|)) else b, a)
  }

  function OnAlert(l: Loop, a: Alert): Loop {
    if l.active.None? && l.cmd.NoCommand? then ShowAlert(l.(book := Direct(l.book, a)), a)
    else l.(book := Enqueue(l.book, a))
  }

  function OnEnter(l: Loop): Loop {
    var gen := l.gen + 1;
    l.(gen := gen, cmd := Active, dismissArmed := false, idle := Some(gen), ctx := Some(gen),
       reply := Some(Offer(gen, l.active)), bar := CommandBar(TargetOf(l.active)),
       entered := l.entered + [l.active],
       misfire := l.misfire || !l.cmd.NoCommand? || l.idle.Some?)
  }

  function OnBegin(l: Loop, gen: nat): Loop {
    if !l.cmd.Active? || gen != l.gen then l.(ack := Some(false))
    else l.(idle := None, cmd := Pending, ack := Some(true))
  }

  function OnAction(l: Loop, gen: nat, result: C.Result): Loop {
    if !l.cmd.Pending? || gen != l.gen then l.(misfire := true)
    else
      var l1 := ExitCommandMode(l);
      match result
      case Failed(message) => ShowAlert(l1, Alert(message, "", [])).(active := None)
      case Message(message) => l1.(active := None, bar := Status(message), dismissArmed := true)
      case Silent => ShowNext(l1.(active := None))
  }

  function OnCancel(l: Loop, gen: nat): Loop {
    if !l.cmd.Active? || gen != l.gen then l
    else
      var l1 := ExitCommandMode(l);
      if l1.active.Some? then ShowAlert(l1, l1.active.value) else ShowNext(l1)
  }

  function OnStatus(l: Loop, m: string): Loop {
    l.(lastStatus := m, bar := if l.active.None? && l.cmd.NoCommand? then Status(m) else l.bar)
  }

  function OnDismiss(l: Loop): Loop { if !l.cmd.NoCommand? then l else ShowNext(l.(active := None)) }

  function Handle(l: Loop, e: Event): Loop {
    match e
    case StatusEvent(m) => OnStatus(l, m)
    case AlertEvent(a) => OnAlert(l, a)
    case Dismiss => OnDismiss(l)
    case Enter => OnEnter(l)
    case Begin(gen) => OnBegin(l, gen)
    case Action(gen, result) => OnAction(l, gen, result)
    case Cancel(gen, _) => OnCancel(l, gen)
  }

  // ----- What every event keeps -------------------------------------------

  function Alerts(exits: seq<Exit>): seq<Alert> {
    seq(|exits|, k requires 0 <= k < |exits| => exits[k].alert)
  }

  /** The queue is bounded, alerts leave it in arrival order and only from its full
      length without being shown, and every alert received is accounted for. */
  ghost predicate BookInv(b: Book) {
    && |b.queue| <= MAX_ALERT_QUEUE
    && b.queued == Alerts(b.left) + b.queue
    && multiset(b.received) == multiset(b.direct) + multiset(b.queued)
    && (forall k :: 0 <= k < |b.left| && b.left[k].Dropped? ==> b.left[k].depth == MAX_ALERT_QUEUE)
  }

  /** The context and the idle timer belong to the open generation; no dismissal is
      armed in command mode; the bar shows the active alert, or in command mode
      its target; command mode stays with the alert it was opened on. */
  ghost predicate LoopInv(l: Loop) {
    && |l.entered| == l.gen
    && l.ctx == (if l.cmd.NoCommand? then None else Some(l.gen))
    && (l.idle.Some? ==> l.cmd.Active? && l.idle.value == l.gen)
    && (!l.cmd.NoCommand? ==> !l.dismissArmed && l.bar == CommandBar(TargetOf(l.active)))
    && (!l.cmd.NoCommand? ==> l.gen > 0 && l.active == l.entered[l.gen - 1])
    && (l.cmd.NoCommand? && l.active.Some? ==> l.bar == AlertBar(l.active.value.message))
  }

  lemma LeaveKeeps(b: Book, x: Exit)
    requires BookInv(b) && b.queue != [] && x.alert == b.queue[0]
    requires x.Dropped? ==> x.depth == MAX_ALERT_QUEUE
    ensures BookInv(Leave(b, x))
  {
    assert Alerts(b.left + [x]) == Alerts(b.left) + [b.queue[0]];
    assert b.queue == [b.queue[0]] + b.queue[1..];
    assert Alerts(b.left) + b.queue == Alerts(b.left + [x]) + b.queue[1..];
  }

  lemma QueueKeeps(b: Book, a: Alert)
    requires BookInv(b) && |b.queue| < MAX_ALERT_QUEUE
    ensures BookInv(Queue(b, a))
  {
    assert b.queued + [a] == Alerts(b.left) + (b.queue + [a]);
  }

  lemma EnqueueKeeps(b: Book, a: Alert)
    requires BookInv(b)
    ensures BookInv(Enqueue(b, a))
  {
    if |b.queue| >= MAX_ALERT_QUEUE {
      var x := Dropped(b.queue[0], |b.queue|);
      LeaveKeeps(b, x);
      QueueKeeps(Leave(b, x), a);
    } else {
      QueueKeeps(b, a);
    }
  }

  /** How one event changes the books. An alert is booked, as shown at once or as
      queued; any other event books nothing new, and at most shows the oldest queued
      alert. What is shown is then on the bar. */
  ghost predicate BookStep(l: Loop, e: Event, l': Loop) {
    if e.AlertEvent? then
      (l'.book == Direct(l.book, e.alert) && OnBar(l', e.alert)) || l'.book == Enqueue(l.book, e.alert)
    else
      || l'.book == l.book
      || (l.book.queue != [] && l'.book == Leave(l.book, Shown(l.book.queue[0])) && OnBar(l', l.book.queue[0]))
  }

  predicate OnBar(l: Loop, a: Alert) { l.active == Some(a) && l.bar == AlertBar(a.message) }

  lemma HandleBooks(l: Loop, e: Event)
    ensures BookStep(l, e, Handle(l, e))
  {
  }

  lemma DirectKeeps(b: Book, a: Alert)
    requires BookInv(b)
    ensures BookInv(Direct(b, a))
  {
  }

  /** The alerts among some events, in order. */
  function AlertsIn(es: seq<Event>): seq<Alert> {
    if es == [] then []
    else AlertsIn(es[..|es| - 1]) + (if es[|es| - 1].AlertEvent? then [es[|es| - 1].alert] else [])
  }

  lemma AlertsInSnoc(es: seq<Event>, e: Event)
    ensures AlertsIn(es + [e]) == AlertsIn(es) + if e.AlertEvent? then [e.alert] else []
  {
    assert (es + [e])[..|es|] == es;
  }

  lemma BookStepKeeps(l: Loop, e: Event, l': Loop)
    requires BookInv(l.book) && BookStep(l, e, l')
    ensures BookInv(l'.book)
    ensures l'.book.received == l.book.received + if e.AlertEvent? then [e.alert] else []
  {
    if !e.AlertEvent? {
      assert l.book.received + [] == l.book.received;
      if l'.book != l.book { LeaveKeeps(l.book, Shown(l.book.queue[0])); }
    } else if l'.book == Enqueue(l.book, e.alert) {
      EnqueueKeeps(l.book, e.alert);
    } else {
      DirectKeeps(l.book, e.alert);
    }
  }

  /** No event breaks the books, and exactly the alerts are entered in them. */
  lemma BookKeeps(l: Loop, e: Event)
    requires BookInv(l.book)
    ensures BookInv(Handle(l, e).book)
    ensures Handle(l, e).book.received == l.book.received + if e.AlertEvent? then [e.alert] else []
  {
    HandleBooks(l, e);
    BookStepKeeps(l, e, Handle(l, e));
  }

  lemma ShowNextKeeps(l: Loop)
    requires LoopInv(l) && l.cmd.NoCommand?
    ensures LoopInv(ShowNext(l.(active := None)))
  {
  }

  lemma ActionKeeps(l: Loop, gen: nat, result: C.Result)
    requires LoopInv(l)
    ensures LoopInv(OnAction(l, gen, result))
  {
    if l.cmd.Pending? && gen == l.gen { ShowNextKeeps(ExitCommandMode(l).(active := None)); }
  }

  lemma CancelKeeps(l: Loop, gen: nat)
    requires LoopInv(l)
    ensures LoopInv(OnCancel(l, gen))
  {
    if l.cmd.Active? && gen == l.gen && l.active.None? { ShowNextKeeps(ExitCommandMode(l)); }
  }

  lemma EnterKeeps(l: Loop)
    requires LoopInv(l)
    ensures LoopInv(OnEnter(l))
  {
  }

  lemma LoopKeeps(l: Loop, e: Event)
    requires LoopInv(l)
    ensures LoopInv(Handle(l, e))
  {
    match e
    case Enter => EnterKeeps(l);
    case Action(gen, result) => ActionKeeps(l, gen, result);
    case Cancel(gen, _) => CancelKeeps(l, gen);
    case Dismiss => if l.cmd.NoCommand? { ShowNextKeeps(l); }
    case _ =>
  }

  // ----- What each event does ---------------------------------------------

  /** Nothing being active any more, what is due comes up: the oldest queued alert,
      which leaves the queue and gets its timer; else the last status; else the bar
      is cleared. */
  ghost predicate NextUp(l: Loop, l': Loop) {
    if l.book.queue != [] then
      OnBar(l', l.book.queue[0]) && l'.book.queue == l.book.queue[1..] && l'.dismissArmed
    else
      && l'.active.None? && l'.book.queue == []
      && l'.bar == if l.lastStatus != "" then Status(l.lastStatus) else Cleared
  }

  /** A dismissal takes the active alert off the bar, except in command mode, where
      it does nothing. */
  lemma DismissShowsNext(l: Loop)
    ensures if l.cmd.NoCommand? then NextUp(l, Handle(l, Dismiss)) else Handle(l, Dismiss) == l
  {
  }

  /** Cancelling the open generation puts its alert back on the bar, or brings up
      what is next; any other cancellation does nothing. */
  lemma CancelRestores(l: Loop, gen: nat, idle: bool)
    ensures var l' := Handle(l, Cancel(gen, idle));
      if !l.cmd.Active? || gen != l.gen then l' == l
      else && l'.cmd.NoCommand? && l'.ctx.None? && l'.idle.None?
           && if l.active.None? then NextUp(l, l')
              else OnBar(l', l.active.value) && l'.dismissArmed && l'.book == l.book
  {
  }

  /** A status is kept, and shown unless an alert or command mode has the bar. */
  lemma StatusIsShown(l: Loop, m: string)
    ensures var l' := Handle(l, StatusEvent(m));
      && l'.lastStatus == m && l'.bar == (if l.active.None? && l.cmd.NoCommand? then Status(m) else l.bar)
      && l' == l.(lastStatus := m, bar := l'.bar)
  {
  }

  /** The last status among some events, or else the one before them. */
  function StatusAfter(before: string, es: seq<Event>): string {
    if es == [] then before
    else if es[|es| - 1].StatusEvent? then es[|es| - 1].message
    else StatusAfter(before, es[..|es| - 1])
  }

  lemma StatusMoves(l: Loop, e: Event)
    ensures Handle(l, e).lastStatus == if e.StatusEvent? then e.message else l.lastStatus
  {
  }

  lemma {:induction false} AllStatuses(l: Loop, es: seq<Event>)
    ensures HandleAll(l, es).lastStatus == StatusAfter(l.lastStatus, es)
  {
    if es != [] {
      AllStatuses(l, es[..|es| - 1]);
      StatusMoves(HandleAll(l, es[..|es| - 1]), es[|es| - 1]);
    }
  }

  /** An alert offers a hint's key unless the hint needs a target and there is none. */
  predicate Offers(a: Alert, h: Hint) { !h.requireAlert || a.target != "" }

  lemma {:induction false} KeysSnoc(hints: seq<Hint>, h: Hint, hasAlert: bool)
    ensures Keys(hints + [h], hasAlert) == Keys(hints, hasAlert) + if !h.requireAlert || hasAlert then [h.key] else []
  {
    if hints == [] {
      assert hints + [h] == [h] && Keys([h][1..], hasAlert) == [];
    } else {
      assert (hints + [h])[1..] == hints[1..] + [h];
      KeysSnoc(hints[1..], h, hasAlert);
      AppendAssoc(if hints[0].requireAlert && !hasAlert then [] else [hints[0].key], Keys(hints[1..], hasAlert),
                  if !h.requireAlert || hasAlert then [h.key] else []);
    }
  }

  lemma {:induction false} KeysAre(hints: seq<Hint>, hasAlert: bool, k: Byte)
    ensures k in Keys(hints, hasAlert) <==> exists h :: h in hints && h.key == k && (!h.requireAlert || hasAlert)
  {
    if hints != [] { KeysAre(hints[1..], hasAlert, k); }
  }

  /** The keys on offer are exactly those of the hints the alert offers, in the order
      of the hints. */
  lemma VisibleKeysAre(a: Alert, h: Hint, k: Byte)
    ensures k in VisibleKeys(Some(a)) <==> exists h :: h in a.hints && h.key == k && Offers(a, h)
    ensures VisibleKeys(Some(a.(hints := a.hints + [h]))) ==
      VisibleKeys(Some(a)) + if Offers(a, h) then [h.key] else []
    ensures VisibleKeys(None) == []
  {
    KeysAre(a.hints, a.target != "", k);
    KeysSnoc(a.hints, h, a.target != "");
  }

  // ----- The goroutine's closures -----------------------------------------

  function HandleAll(l: Loop, es: seq<Event>): Loop {
    if es == [] then l else Handle(HandleAll(l, es[..|es| - 1]), es[|es| - 1])
  }

  /** Over any events, received are exactly the alerts among them, in order. */
  lemma {:induction false} AllReceived(l: Loop, es: seq<Event>)
    requires BookInv(l.book)
    ensures BookInv(HandleAll(l, es).book)
    ensures HandleAll(l, es).book.received == l.book.received + AlertsIn(es)
  {
    if es == [] {
      assert l.book.received + [] == l.book.received;
    } else {
      var init, e := es[..|es| - 1], es[|es| - 1];
      AllReceived(l, init);
      BookKeeps(HandleAll(l, init), e);
      AppendAssoc(l.book.received, AlertsIn(init), if e.AlertEvent? then [e.alert] else []);
    }
  }

  /** The loop with its variables updated in place, closure by closure. book holds
      alertQueue together with its history. */
  class BarLoop {
    var lastStatus: string
    var book: Book
    var active: Option<Alert>
    var dismissArmed: bool
    var cmd: CommandState
    var gen: nat
    var idle: Option<nat>
    var ctx: Option<nat>
    var bar: Bar
    var reply: Option<C.Handler>
    var ack: Option<bool>
    ghost var entered: seq<Option<Alert>>
    ghost var misfire: bool

    ghost function View(): Loop
      reads this
    {
      Loop(lastStatus, book, active, dismissArmed, cmd, gen, idle, ctx, bar, reply, ack, entered, misfire)
    }

    /** What holds between events, whatever their order. */
    ghost predicate Valid()
      reads this
    {
      LoopInv(View()) && BookInv(book)
    }

    constructor ()
      ensures Valid() && View() == Initial()
    {
      lastStatus, book, active, dismissArmed := "", Book([], [], [], [], []), None, false;
      cmd, gen, idle, ctx, bar := NoCommand, 0, None, None, Hidden;
      reply, ack, entered, misfire := None, None, [], false;
    }

    method DoShowAlert(a: Alert)
      modifies this`active, this`bar, this`dismissArmed
      ensures View() == ShowAlert(old(View()), a)
    {
      active := Some(a);
      bar := AlertBar(a.message);
      dismissArmed := true;
    }

    method DoShowNext()
      modifies this`active, this`bar, this`dismissArmed, this`book
      ensures View() == ShowNext(old(View()))
    {
      if |book.queue| > 0 {
        var next := book.queue[0];
        book := Leave(book, Shown(next));
        DoShowAlert(next);
      } else if lastStatus != "" {
        bar := Status(lastStatus);
      } else {
        bar := Cleared;
      }
    }

    method DoExitCommandMode()
      modifies this`idle, this`ctx, this`cmd
      ensures View() == ExitCommandMode(old(View()))
    {
      idle, ctx := None, None;
      cmd := NoCommand;
    }

    method HandleAlert(a: Alert)
      modifies this`book, this`active, this`bar, this`dismissArmed
      ensures View() == OnAlert(old(View()), a)
    {
      if active.None? && cmd.NoCommand? {
        book := Direct(book, a);
        DoShowAlert(a);
      } else {
        if |book.queue| >= MAX_ALERT_QUEUE { book := Leave(book, Dropped(book.queue[0], |book.queue|)); }
        book := Queue(book, a);
      }
    }

    method HandleAction(g: nat, result: C.Result)
      modifies this`misfire, this`idle, this`cmd, this`ctx, this`active, this`bar, this`dismissArmed, this`book
      ensures View() == OnAction(old(View()), g, result)
    {
      if !cmd.Pending? || g != gen {
        misfire := true;
        return;
      }
      DoExitCommandMode();
      match result {
        case Failed(message) =>
          DoShowAlert(Alert(message, "", []));
          active := None;
        case Message(message) =>
          active := None;
          bar := Status(message);
          dismissArmed := true;
        case Silent =>
          active := None;
          DoShowNext();
      }
    }

    method DoStartTimers()
      modifies this`dismissArmed, this`idle, this`ctx
      ensures View() == old(View()).(dismissArmed := false, idle := Some(gen), ctx := Some(gen))
    {
      dismissArmed := false;
      idle := Some(gen);
      ctx := Some(gen);
    }

    method DoOpenCommandMode()
      modifies this`gen, this`cmd, this`dismissArmed, this`idle, this`ctx
      ensures var l := old(View());
        View() == l.(gen := l.gen + 1, cmd := Active, dismissArmed := false,
                     idle := Some(l.gen + 1), ctx := Some(l.gen + 1))
    {
      gen := gen + 1;
      cmd := Active;
      DoStartTimers();
    }

    method HandleEnter()
      modifies this`misfire, this`gen, this`cmd, this`dismissArmed, this`idle, this`ctx, this`reply, this`bar, this`entered
      ensures View() == OnEnter(old(View()))
    {
      misfire := misfire || !cmd.NoCommand? || idle.Some?;
      entered := entered + [active];
      DoOpenCommandMode();
      reply := Some(C.Handler(gen, TargetOf(active), VisibleKeys(active)));
      bar := CommandBar(TargetOf(active));
    }

    method HandleCancel(g: nat)
      modifies this`idle, this`cmd, this`ctx, this`active, this`bar, this`dismissArmed, this`book
      ensures View() == OnCancel(old(View()), g)
    {
      if !cmd.Active? || g != gen { return; }
      DoExitCommandMode();
      if active.Some? { DoShowAlert(active.value); } else { DoShowNext(); }
    }

    method Switch(e: Event)
      modifies this
      ensures View() == Handle(old(View()), e)
    {
      match e {
        case StatusEvent(m) =>
          lastStatus := m;
          if active.None? && cmd.NoCommand? { bar := Status(lastStatus); }
        case AlertEvent(a) => HandleAlert(a);
        case Dismiss =>
          if cmd.NoCommand? {
            active := None;
            DoShowNext();
          }
        case Enter => HandleEnter();
        case Begin(g) =>
          if !cmd.Active? || g != gen {
            ack := Some(false);
          } else {
            idle, cmd, ack := None, Pending, Some(true);
          }
        case Action(g, result) => HandleAction(g, result);
        case Cancel(g, _) => HandleCancel(g);
      }
    }

    /** The loop over the event channel: whatever arrives, in whatever order, every
        alert among the events is received in turn and accounted for, the last status
        is kept, the queue stays bounded and the bar tells the truth. */
    method Serve(events: seq<Event>)
      requires Valid()
      modifies this
      ensures Valid() && View() == HandleAll(old(View()), events)
      ensures book.received == old(book.received) + AlertsIn(events)
      ensures lastStatus == StatusAfter(old(lastStatus), events)
    {
      for i := 0 to |events|
        invariant Valid() && View() == HandleAll(old(View()), events[..i])
      {
        ghost var l := View();
        LoopKeeps(l, events[i]);
        BookKeeps(l, events[i]);
        assert events[..i + 1][..i] == events[..i];
        Switch(events[i]);
      }
      assert events[..|events|] == events;
      AllReceived(old(View()), events);
      AllStatuses(old(View()), events);
    }
  }
}
