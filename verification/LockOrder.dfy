/** The locks of the session package: stateFileMu, Manager.mu, a client's
    closeOnce (whose second caller waits for the first), Session.mu and a client's
    outputMu. Every entry point is listed with the lock operations along each of
    its paths; any number of threads run any sequence of entry points. */
module LockOrder {
  import opened Basics

  datatype Lock = StateFileMu | ManagerMu | CloseOnce(c: nat) | SessionMu(s: nat) | OutputMu(c: nat)

  datatype Op = Acquire(l: Lock) | Release(l: Lock)

  function Rank(l: Lock): nat {
    match l
    case StateFileMu => 0
    case ManagerMu => 1
    case CloseOnce(_) => 2
    case SessionMu(_) => 3
    case OutputMu(_) => 4
  }

  // ----- Paths through the code -------------------------------------------

  /** One chunk handed to a client of session s; full is the slow-consumer branch. */
  datatype Delivery = Delivery(c: nat, full: bool)

  /** An entry point with the branches it takes; lists are the sessions or
      clients it walks over. published: a state file path is configured. */
  datatype Call =
    | Create(counted: seq<nat>, accepted: bool, published: bool, listed: seq<nat>)
    | Get
    | List(listed: seq<nat>)
    | SessionChanged(published: bool, listed: seq<nat>)   // also the cleanup goroutine
    | Attach(s: nat, c: nat, exited: bool)
    | Close(s: nat, c: nat)
    | PumpChunk(s: nat, to: seq<Delivery>)
    | PumpExit(s: nat, cs: seq<nat>)
    | Inspect(s: nat)                                     // Info, Exited, TakeOver, Resize, WriteInput
    | WaitForExit(s: nat, published: bool, listed: seq<nat>)

  function Guarded(l: Lock, body: seq<Op>): seq<Op> { [Acquire(l)] + body + [Release(l)] }

  function VisitAll(ss: seq<nat>): seq<Op> {
    if ss == [] then [] else Guarded(SessionMu(ss[0]), []) + VisitAll(ss[1..])
  }

  function ListSessions(ss: seq<nat>): seq<Op> { Guarded(ManagerMu, VisitAll(ss)) }

  /** writeStateFile: entered and left with Manager.mu held. */
  function WriteStateFile(published: bool, ss: seq<nat>): seq<Op> {
    if !published then []
    else [Release(ManagerMu)] + Guarded(StateFileMu, ListSessions(ss)) + [Acquire(ManagerMu)]
  }

  function CloseClient(s: nat, c: nat): seq<Op> { Guarded(CloseOnce(c), Guarded(SessionMu(s), [])) }

  function Deliver(s: nat, d: Delivery): seq<Op> {
    Guarded(OutputMu(d.c), []) + if d.full then CloseClient(s, d.c) else []
  }

  function DeliverAll(s: nat, to: seq<Delivery>): seq<Op> {
    if to == [] then [] else Deliver(s, to[0]) + DeliverAll(s, to[1..])
  }

  function CloseOutputs(cs: seq<nat>): seq<Op> {
    if cs == [] then [] else Guarded(OutputMu(cs[0]), []) + CloseOutputs(cs[1..])
  }

  function Program(call: Call): seq<Op> {
    match call
    case Create(counted, accepted, published, listed) =>
      Guarded(ManagerMu, VisitAll(counted) + if accepted then WriteStateFile(published, listed) else [])
    case Get => Guarded(ManagerMu, [])
    case List(listed) => ListSessions(listed)
    case SessionChanged(published, listed) => Guarded(ManagerMu, WriteStateFile(published, listed))
    case Attach(s, c, exited) =>
      if exited then Guarded(SessionMu(s), []) + Guarded(OutputMu(c), [])
      else Guarded(SessionMu(s), Deliver(s, Delivery(c, false)))
    case Close(s, c) => CloseClient(s, c)
    case PumpChunk(s, to) => Guarded(SessionMu(s), []) + DeliverAll(s, to)
    case PumpExit(s, cs) => Guarded(SessionMu(s), []) + CloseOutputs(cs)
    case Inspect(s) => Guarded(SessionMu(s), [])
    case WaitForExit(s, published, listed) =>
      Guarded(SessionMu(s), []) + Guarded(SessionMu(s), []) + Guarded(ManagerMu, WriteStateFile(published, listed))
  }

  // ----- Order ------------------------------------------------------------

  predicate Above(held: set<Lock>, l: Lock) { forall h :: h in held ==> Rank(h) < Rank(l) }

  /** The locks held after ops, provided each lock is taken only above all locks
      held and released only while held. */
  function After(held: set<Lock>, ops: seq<Op>): Option<set<Lock>>
    decreases ops
  {
    if ops == [] then Some(held)
    else match ops[0]
      case Acquire(l) => if Above(held, l) then After(held + {l}, ops[1..]) else None
      case Release(l) => if l in held then After(held - {l}, ops[1..]) else None
  }

  lemma {:induction false} AfterAppend(held: set<Lock>, a: seq<Op>, b: seq<Op>)
    requires After(held, a).Some?
    ensures After(held, a + b) == After(After(held, a).value, b)
    decreases a
  {
    if a == [] {
      assert a + b == b;
    } else {
      assert (a + b)[1..] == a[1..] + b;
      match a[0]
      case Acquire(l) => AfterAppend(held + {l}, a[1..], b);
      case Release(l) => AfterAppend(held - {l}, a[1..], b);
    }
  }

  /** A guarded body that gives back what it took can be run below its lock. */
  lemma GuardedAfter(held: set<Lock>, l: Lock, body: seq<Op>)
    requires Above(held, l) && After(held + {l}, body) == Some(held + {l})
    ensures After(held, Guarded(l, body)) == Some(held)
  {
    assert l !in held;
    var tail := body + [Release(l)];
    AfterAppend(held + {l}, body, [Release(l)]);
    assert held + {l} - {l} == held;
    assert [Release(l)][1..] == [];
    assert Guarded(l, body) == [Acquire(l)] + tail && ([Acquire(l)] + tail)[1..] == tail;
  }

  lemma Sequenced(held: set<Lock>, a: seq<Op>, b: seq<Op>)
    requires After(held, a) == Some(held) && After(held, b) == Some(held)
    ensures After(held, a + b) == Some(held)
  {
    AfterAppend(held, a, b);
  }

  lemma {:induction false} VisitAllAfter(held: set<Lock>, ss: seq<nat>)
    requires forall h :: h in held ==> Rank(h) < 3
    ensures After(held, VisitAll(ss)) == Some(held)
  {
    if ss != [] {
      GuardedAfter(held, SessionMu(ss[0]), []);
      VisitAllAfter(held, ss[1..]);
      Sequenced(held, Guarded(SessionMu(ss[0]), []), VisitAll(ss[1..]));
    }
  }

  lemma WriteStateFileAfter(published: bool, ss: seq<nat>)
    ensures After({ManagerMu}, WriteStateFile(published, ss)) == Some({ManagerMu})
  {
    if published {
      VisitAllAfter({StateFileMu} + {ManagerMu}, ss);
      GuardedAfter({StateFileMu}, ManagerMu, VisitAll(ss));
      assert {} + {StateFileMu} == {StateFileMu};
      GuardedAfter({}, StateFileMu, ListSessions(ss));
      var mid := Guarded(StateFileMu, ListSessions(ss));
      AfterAppend({}, mid, [Acquire(ManagerMu)]);
      var tail := mid + [Acquire(ManagerMu)];
      assert WriteStateFile(published, ss) == [Release(ManagerMu)] + tail;
      assert ([Release(ManagerMu)] + tail)[1..] == tail;
      assert {ManagerMu} - {ManagerMu} == {} && {} + {ManagerMu} == {ManagerMu};
      assert [Acquire(ManagerMu)][1..] == [];
    }
  }

  lemma UnderManager(body: seq<Op>)
    requires After({ManagerMu}, body) == Some({ManagerMu})
    ensures After({}, Guarded(ManagerMu, body)) == Some({})
  {
    assert {} + {ManagerMu} == {ManagerMu};
    GuardedAfter({}, ManagerMu, body);
  }

  lemma DeliverAfter(s: nat, d: Delivery)
    ensures After({}, Deliver(s, d)) == Some({})
  {
    GuardedAfter({}, OutputMu(d.c), []);
    GuardedAfter({} + {CloseOnce(d.c)}, SessionMu(s), []);
    GuardedAfter({}, CloseOnce(d.c), Guarded(SessionMu(s), []));
    Sequenced({}, Guarded(OutputMu(d.c), []), if d.full then CloseClient(s, d.c) else []);
  }

  lemma {:induction false} DeliverAllAfter(s: nat, to: seq<Delivery>)
    ensures After({}, DeliverAll(s, to)) == Some({})
  {
    if to != [] {
      DeliverAfter(s, to[0]);
      DeliverAllAfter(s, to[1..]);
      Sequenced({}, Deliver(s, to[0]), DeliverAll(s, to[1..]));
    }
  }

  lemma {:induction false} CloseOutputsAfter(cs: seq<nat>)
    ensures After({}, CloseOutputs(cs)) == Some({})
  {
    if cs != [] {
      GuardedAfter({}, OutputMu(cs[0]), []);
      CloseOutputsAfter(cs[1..]);
      Sequenced({}, Guarded(OutputMu(cs[0]), []), CloseOutputs(cs[1..]));
    }
  }

  /** Every path of every entry point takes locks in rank order and releases them. */
  lemma ProgramOrdered(call: Call)
    ensures After({}, Program(call)) == Some({})
  {
    match call
    case Create(counted, accepted, published, listed) =>
      VisitAllAfter({ManagerMu}, counted);
      WriteStateFileAfter(published, listed);
      var rest := if accepted then WriteStateFile(published, listed) else [];
      Sequenced({ManagerMu}, VisitAll(counted), rest);
      UnderManager(VisitAll(counted) + rest);
    case Get => UnderManager([]);
    case List(listed) =>
      VisitAllAfter({ManagerMu}, listed);
      UnderManager(VisitAll(listed));
    case SessionChanged(published, listed) =>
      WriteStateFileAfter(published, listed);
      UnderManager(WriteStateFile(published, listed));
    case Attach(s, c, exited) =>
      if exited {
        GuardedAfter({}, SessionMu(s), []);
        GuardedAfter({}, OutputMu(c), []);
        Sequenced({}, Guarded(SessionMu(s), []), Guarded(OutputMu(c), []));
      } else {
        var held := {} + {SessionMu(s)};
        GuardedAfter(held, OutputMu(c), []);
        Sequenced(held, Guarded(OutputMu(c), []), []);
        GuardedAfter({}, SessionMu(s), Deliver(s, Delivery(c, false)));
      }
    case Close(s, c) =>
      GuardedAfter({} + {CloseOnce(c)}, SessionMu(s), []);
      GuardedAfter({}, CloseOnce(c), Guarded(SessionMu(s), []));
    case PumpChunk(s, to) =>
      GuardedAfter({}, SessionMu(s), []);
      DeliverAllAfter(s, to);
      Sequenced({}, Guarded(SessionMu(s), []), DeliverAll(s, to));
    case PumpExit(s, cs) =>
      GuardedAfter({}, SessionMu(s), []);
      CloseOutputsAfter(cs);
      Sequenced({}, Guarded(SessionMu(s), []), CloseOutputs(cs));
    case Inspect(s) => GuardedAfter({}, SessionMu(s), []);
    case WaitForExit(s, published, listed) =>
      GuardedAfter({}, SessionMu(s), []);
      Sequenced({}, Guarded(SessionMu(s), []), Guarded(SessionMu(s), []));
      WriteStateFileAfter(published, listed);
      UnderManager(WriteStateFile(published, listed));
      Sequenced({}, Guarded(SessionMu(s), []) + Guarded(SessionMu(s), []),
                Guarded(ManagerMu, WriteStateFile(published, listed)));
  }

  // ----- Threads ----------------------------------------------------------

  datatype Thread = Thread(held: set<Lock>, ops: seq<Op>)
  type State = seq<Thread>

  predicate Free(st: State, l: Lock) { forall i :: 0 <= i < |st| ==> l !in st[i].held }

  datatype Action = Spawn | Start(t: nat, call: Call) | Step(t: nat)

  predicate CanStep(st: State, t: nat) {
    t < |st| && st[t].ops != [] && (st[t].ops[0].Acquire? ==> Free(st, st[t].ops[0].l))
  }

  predicate Enabled(st: State, a: Action) {
    match a
    case Spawn => true
    case Start(t, _) => t < |st| && st[t].ops == []
    case Step(t) => CanStep(st, t)
  }

  function Apply(st: State, a: Action): State
    requires Enabled(st, a)
  {
    match a
    case Spawn => st + [Thread({}, [])]
    case Start(t, call) => st[t := st[t].(ops := Program(call))]
    case Step(t) =>
      var th := st[t];
      st[t := match th.ops[0]
              case Acquire(l) => Thread(th.held + {l}, th.ops[1..])
              case Release(l) => Thread(th.held - {l}, th.ops[1..])]
  }

  function Exec(st: State, acts: seq<Action>): Option<State>
    decreases acts
  {
    if acts == [] then Some(st)
    else if !Enabled(st, acts[0]) then None
    else Exec(Apply(st, acts[0]), acts[1..])
  }

  ghost predicate Reachable(st: State) { exists acts :: Exec([], acts) == Some(st) }

  ghost predicate Inv(st: State) {
    && (forall i :: 0 <= i < |st| ==> After(st[i].held, st[i].ops) == Some({}))
    && (forall i, j, l :: 0 <= i < |st| && 0 <= j < |st| && l in st[i].held && l in st[j].held ==> i == j)
  }

  lemma StepKeeps(st: State, a: Action)
    requires Inv(st) && Enabled(st, a)
    ensures Inv(Apply(st, a))
  {
    if a.Start? { ProgramOrdered(a.call); }
  }

  lemma {:induction false} RunKeeps(st: State, acts: seq<Action>)
    requires Inv(st) && Exec(st, acts).Some?
    ensures Inv(Exec(st, acts).value)
    decreases acts
  {
    if acts != [] {
      StepKeeps(st, acts[0]);
      RunKeeps(Apply(st, acts[0]), acts[1..]);
    }
  }

  /** Thread i waits for a lock that thread j holds. */
  ghost predicate Waits(st: State, i: nat, j: nat) {
    i < |st| && j < |st| && st[i].ops != [] && st[i].ops[0].Acquire? && st[i].ops[0].l in st[j].held
  }

  ghost predicate Chain(st: State, p: seq<nat>) {
    forall k :: 0 <= k < |p| - 1 ==> Waits(st, p[k], p[k + 1])
  }

  /** Rank of the lock thread i is about to take. */
  ghost function Wanted(st: State, i: nat): int {
    if i < |st| && st[i].ops != [] && st[i].ops[0].Acquire? then Rank(st[i].ops[0].l) else -1
  }

  /** Along a chain of waiting threads, the rank of the lock waited for rises. */
  lemma {:induction false} RanksRise(st: State, p: seq<nat>)
    requires Inv(st) && |p| >= 3 && Chain(st, p)
    ensures Wanted(st, p[0]) < Wanted(st, p[|p| - 2])
  {
    assert Waits(st, p[0], p[1]) && Waits(st, p[1], p[2]);
    assert Above(st[p[1]].held, st[p[1]].ops[0].l);
    if |p| > 3 {
      var q := p[1..];
      forall k | 0 <= k < |q| - 1 ensures Waits(st, q[k], q[k + 1]) {
        assert q[k] == p[k + 1] && Waits(st, p[k + 1], p[(k + 1) + 1]);
      }
      RanksRise(st, q);
    }
  }

  /** No reachable state has a cycle of threads each waiting for the next. */
  lemma NoCyclicWait(st: State, p: seq<nat>)
    requires Reachable(st) && |p| >= 2 && Chain(st, p)
    ensures p[0] != p[|p| - 1]
  {
    var acts :| Exec([], acts) == Some(st);
    RunKeeps([], acts);
    if p[0] == p[|p| - 1] {
      assert Waits(st, p[0], p[1]);
      var q := p + [p[1]];
      assert forall k :: 0 <= k < |q| - 1 ==> Waits(st, q[k], q[k + 1]);
      RanksRise(st, q);
    }
  }

  /** While any thread is inside a call, some thread can take a step. */
  lemma SomeThreadMoves(st: State, t: nat) returns (mover: nat)
    requires Reachable(st) && t < |st| && st[t].ops != []
    ensures CanStep(st, mover)
  {
    var acts :| Exec([], acts) == Some(st);
    RunKeeps([], acts);
    mover := FindMover(st, t);
  }

  lemma {:induction false} FindMover(st: State, t: nat) returns (mover: nat)
    requires Inv(st) && t < |st| && st[t].ops != []
    ensures CanStep(st, mover)
    decreases if st[t].ops[0].Acquire? then 5 - Rank(st[t].ops[0].l) else 0
  {
    if CanStep(st, t) {
      mover := t;
    } else {
      var l := st[t].ops[0].l;
      var j :| 0 <= j < |st| && l in st[j].held;
      mover := FindMover(st, j);
    }
  }

  /** Had Attach's delivery under Session.mu been able to take the slow-consumer
      branch, it would have taken locks against the order. */
  lemma SlowBranchUnderSessionMuBreaksOrder(s: nat, c: nat)
    ensures After({}, Guarded(SessionMu(s), Deliver(s, Delivery(c, true)))).None?
  {
    var held := {SessionMu(s)};
    assert {} + {SessionMu(s)} == held;
    GuardedAfter(held, OutputMu(c), []);
    var close := CloseClient(s, c) + [Release(SessionMu(s))];
    var tail := Guarded(OutputMu(c), []) + close;
    AfterAppend(held, Guarded(OutputMu(c), []), close);
    assert Guarded(SessionMu(s), Deliver(s, Delivery(c, true))) == [Acquire(SessionMu(s))] + tail;
    assert ([Acquire(SessionMu(s))] + tail)[1..] == tail;
    assert close[0] == Acquire(CloseOnce(c)) && SessionMu(s) in held;
  }
}
