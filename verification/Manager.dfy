/** session/manager.go: many sessions under one manager. A step is one action of
    one session, or one critical section (or iteration of the counting loop) of
    the manager. Create holds Manager.mu while it counts, but sessions keep
    exiting meanwhile. */
module Manager {
  import opened Basics
  import S = Session

  datatype Creating = Idle | Counting(todo: set<nat>, active: nat)

  /** sessions holds every session ever started, table the ids Manager.sessions
      still lists, issued the ids handed out, in order. */
  datatype State = State(
    limit: int, counter: nat, sessions: map<nat, S.State>, table: set<nat>,
    creating: Creating, issued: seq<nat>)

  type Replays = nat -> S.Replay

  function Initial(limit: int): State { State(limit, 0, map[], {}, Idle, []) }

  datatype Action =
    | CreateBegin
    | CountOne(id: nat)
    | LimitReached
    | ShellFails
    | CreateInsert(cols: nat, rows: nat)
    | RemoveExpired(id: nat)
    | SessionStep(id: nat, step: S.Action)

  predicate Enabled(m: State, a: Action) {
    match a
    case CreateBegin => m.creating.Idle?
    case CountOne(id) => m.creating.Counting? && id in m.creating.todo && id in m.sessions
    case LimitReached => m.creating.Counting? && m.creating.todo == {} && m.creating.active >= m.limit
    case ShellFails => m.creating.Counting? && m.creating.todo == {} && m.creating.active < m.limit
    case CreateInsert(_, _) => m.creating.Counting? && m.creating.todo == {} && m.creating.active < m.limit
    case RemoveExpired(id) => m.creating.Idle? && id in m.table && id in m.sessions && m.sessions[id].cleanup
    case SessionStep(id, step) => id in m.sessions && S.Enabled(m.sessions[id], step)
  }

  function Counted(m: State, id: nat): State
    requires m.creating.Counting? && id in m.sessions
  {
    m.(creating := Counting(m.creating.todo - {id},
                            m.creating.active + if m.sessions[id].exited then 0 else 1))
  }

  function Inserted(m: State, s: S.State): State {
    var id := m.counter + 1;
    m.(creating := Idle, counter := id, sessions := m.sessions[id := s],
       table := m.table + {id}, issued := m.issued + [id])
  }

  function Stepped(m: State, id: nat, s: S.State): State { m.(sessions := m.sessions[id := s]) }

  function Apply(rs: Replays, m: State, a: Action): State
    requires Enabled(m, a)
  {
    match a
    case CreateBegin => m.(creating := Counting(m.table, 0))
    case CountOne(id) => Counted(m, id)
    case LimitReached => m.(creating := Idle)
    case ShellFails => m.(creating := Idle, counter := m.counter + 1)
    case CreateInsert(cols, rows) => Inserted(m, S.Initial(cols, rows))
    case RemoveExpired(id) => m.(table := m.table - {id})
    case SessionStep(id, step) => Stepped(m, id, S.Apply(rs(id), m.sessions[id], step))
  }

  function Exec(rs: Replays, m: State, acts: seq<Action>): Option<State>
    decreases acts
  {
    if acts == [] then Some(m)
    else if !Enabled(m, acts[0]) then None
    else Exec(rs, Apply(rs, m, acts[0]), acts[1..])
  }

  ghost predicate Reachable(rs: Replays, m: State) {
    exists limit, acts :: Exec(rs, Initial(limit), acts) == Some(m)
  }

  /** The sessions among ids whose shell is still running. */
  function Live(m: State, ids: set<nat>): set<nat> {
    set id | id in ids && id in m.sessions && !m.sessions[id].exited
  }

  ghost predicate Gone(s: S.State) { s.exited && s.clients == [] }

  ghost predicate Inv(rs: Replays, m: State) {
    TableInv(m) && forall id :: id in m.sessions ==> S.Inv(rs(id), m.sessions[id])
  }

  ghost predicate TableInv(m: State) {
    && m.table <= m.sessions.Keys
    && (forall id :: id in m.sessions ==> 1 <= id <= m.counter)
    && (forall id :: id in m.sessions && id !in m.table ==> Gone(m.sessions[id]))
    && (|Live(m, m.table)| <= m.limit || Live(m, m.table) == {})
    && Increasing(m.issued)
    && (forall k :: 0 <= k < |m.issued| ==> m.issued[k] <= m.counter)
    && (m.creating.Counting? ==>
          m.creating.todo <= m.table && |Live(m, m.table - m.creating.todo)| <= m.creating.active)
  }

  // ----- What a session step cannot undo ----------------------------------

  lemma GoneIsFinal(replay: S.Replay, s: S.State, a: S.Action)
    requires S.Inv(replay, s) && S.Enabled(s, a) && Gone(s)
    ensures Gone(S.Apply(replay, s, a))
  {
    if a.CloseDetach? { S.RemoveIs(s.clients, a.c); }
  }

  lemma LiveShrinks(m: State, id: nat, s: S.State, ids: set<nat>)
    requires id in m.sessions && (m.sessions[id].exited ==> s.exited)
    ensures |Live(Stepped(m, id, s), ids)| <= |Live(m, ids)|
    ensures Live(Stepped(m, id, s), ids) <= Live(m, ids)
  {
    SubsetSize(Live(Stepped(m, id, s), ids), Live(m, ids));
  }

  lemma {:induction false} SubsetSize(a: set<nat>, b: set<nat>)
    requires a <= b
    ensures |a| <= |b|
  {
    if a != {} {
      var x :| x in a;
      SubsetSize(a - {x}, b - {x});
    }
  }

  lemma SteppedKeeps(m: State, id: nat, s: S.State)
    requires TableInv(m) && id in m.sessions
    requires (m.sessions[id].exited ==> s.exited) && (Gone(m.sessions[id]) ==> Gone(s))
    ensures TableInv(Stepped(m, id, s))
  {
    LiveShrinks(m, id, s, m.table);
    if m.creating.Counting? { LiveShrinks(m, id, s, m.table - m.creating.todo); }
  }

  lemma SessionStepKeeps(rs: Replays, m: State, id: nat, step: S.Action)
    requires Inv(rs, m) && id in m.sessions && S.Enabled(m.sessions[id], step)
    ensures Inv(rs, Stepped(m, id, S.Apply(rs(id), m.sessions[id], step)))
  {
    var s := m.sessions[id];
    S.StepKeeps(rs(id), s, step);
    S.ExitIsFinal(rs(id), s, step);
    if Gone(s) { GoneIsFinal(rs(id), s, step); }
    SteppedKeeps(m, id, S.Apply(rs(id), s, step));
  }

  lemma CountedKeeps(m: State, id: nat)
    requires TableInv(m) && m.creating.Counting? && id in m.sessions && id in m.creating.todo
    ensures TableInv(Counted(m, id))
  {
    var m' := Counted(m, id);
    var before := Live(m, m.table - m.creating.todo);
    assert m.table - (m.creating.todo - {id}) == m.table - m.creating.todo + {id};
    assert Live(m', m'.table - m'.creating.todo) == if m.sessions[id].exited then before else before + {id};
    assert Live(m', m'.table) == Live(m, m.table);
  }

  lemma LiveInserted(m: State, s: S.State)
    requires m.table <= m.sessions.Keys && !s.exited && m.counter + 1 !in m.sessions
    ensures |Live(Inserted(m, s), m.table + {m.counter + 1})| == |Live(m, m.table)| + 1
  {
    var m', id := Inserted(m, s), m.counter + 1;
    var live, live' := Live(m, m.table), Live(m', m.table + {id});
    forall k ensures k in live' <==> k in live + {id} {
      if k != id { assert k in m'.sessions <==> k in m.sessions; }
    }
    assert live' == live + {id} && id !in live;
  }

  lemma InsertedKeeps(m: State, s: S.State)
    requires TableInv(m) && !s.exited
    requires m.creating.Counting? && m.creating.todo == {} && m.creating.active < m.limit
    ensures TableInv(Inserted(m, s))
  {
    assert m.table - {} == m.table;
    LiveInserted(m, s);
    assert Increasing(Inserted(m, s).issued);
  }

  lemma RemovedKeeps(m: State, id: nat)
    requires TableInv(m) && m.creating.Idle? && id in m.sessions && Gone(m.sessions[id])
    ensures TableInv(m.(table := m.table - {id}))
  {
    var m' := m.(table := m.table - {id});
    assert Live(m', m'.table) == Live(m, m.table);
  }

  lemma StepKeeps(rs: Replays, m: State, a: Action)
    requires Inv(rs, m) && Enabled(m, a)
    ensures Inv(rs, Apply(rs, m, a))
  {
    match a
    case CreateBegin =>
      var m' := m.(creating := Counting(m.table, 0));
      assert m.table - m.table == {} && Live(m', {}) == {};
      assert Live(m', m'.table) == Live(m, m.table);
    case CountOne(id) => CountedKeeps(m, id);
    case CreateInsert(cols, rows) =>
      InsertedKeeps(m, S.Initial(cols, rows));
      S.InitialInv(rs(m.counter + 1), cols, rows);
    case RemoveExpired(id) =>
      assert S.ExitInv(m.sessions[id]);
      RemovedKeeps(m, id);
    case SessionStep(id, step) => SessionStepKeeps(rs, m, id, step);
    case LimitReached => assert Live(m.(creating := Idle), m.table) == Live(m, m.table);
    case ShellFails => assert Live(m.(creating := Idle, counter := m.counter + 1), m.table) == Live(m, m.table);
  }

  lemma {:induction false} RunKeeps(rs: Replays, m: State, acts: seq<Action>)
    requires Inv(rs, m) && Exec(rs, m, acts).Some?
    ensures Inv(rs, Exec(rs, m, acts).value)
    decreases acts
  {
    if acts != [] {
      StepKeeps(rs, m, acts[0]);
      RunKeeps(rs, Apply(rs, m, acts[0]), acts[1..]);
    }
  }

  lemma ReachableInv(rs: Replays, m: State)
    requires Reachable(rs, m)
    ensures Inv(rs, m)
  {
    var limit, acts :| Exec(rs, Initial(limit), acts) == Some(m);
    RunKeeps(rs, Initial(limit), acts);
  }

  // ----- The manager object -----------------------------------------------

  lemma LiveOne(m: State, ids: set<nat>, id: nat)
    requires id in m.sessions && id !in ids
    ensures |Live(m, ids + {id})| == |Live(m, ids)| + if m.sessions[id].exited then 0 else 1
  {
    assert Live(m, ids + {id}) == Live(m, ids) + if m.sessions[id].exited then {} else {id};
  }

  lemma ExecCons(rs: Replays, m: State, a: Action, acts: seq<Action>)
    requires Enabled(m, a)
    ensures Exec(rs, m, [a] + acts) == Exec(rs, Apply(rs, m, a), acts)
  {
    assert ([a] + acts)[1..] == acts;
  }

  function AllCounted(m: State, todo: set<nat>): State
    requires m.creating.Counting?
  {
    m.(creating := Counting({}, m.creating.active + |Live(m, todo)|))
  }

  /** The steps of an undisturbed Create up to the limit test, counting todo. */
  lemma {:induction false} CountRuns(rs: Replays, m: State, todo: set<nat>) returns (acts: seq<Action>)
    requires m.table <= m.sessions.Keys && m.creating.Counting? && m.creating.todo == todo <= m.table
    ensures Exec(rs, m, acts) == Some(AllCounted(m, todo))
    decreases todo
  {
    if todo == {} {
      acts := [];
      assert Live(m, todo) == {};
    } else {
      var id :| id in todo;
      var m1, rest := Counted(m, id), todo - {id};
      acts := CountRuns(rs, m1, rest);
      assert rest + {id} == todo && Live(m1, rest) == Live(m, rest);
      LiveOne(m, rest, id);
      ExecCons(rs, m, CountOne(id), acts);
      acts := [CountOne(id)] + acts;
    }
  }

  /** Manager with its fields updated in place; other goroutines are quiet
      meanwhile. sessions, table and issued are as in State. */
  class SessionManager {
    const limit: int
    var counter: nat
    var sessions: map<nat, S.State>
    var table: set<nat>
    var issued: seq<nat>

    function View(): State
      reads this
    {
      State(limit, counter, sessions, table, Idle, issued)
    }

    constructor (limit: int)
      ensures View() == Initial(limit)
    {
      this.limit := limit;
      counter, sessions, table, issued := 0, map[], {}, [];
    }

    method CountActive() returns (active: nat)
      requires table <= sessions.Keys
      ensures active == |Live(View(), table)|
    {
      active := 0;
      var todo := table;
      while todo != {}
        invariant todo <= table && active == |Live(View(), table - todo)|
        decreases todo
      {
        var id :| id in todo;
        var done := table - todo;
        assert table - (todo - {id}) == done + {id};
        LiveOne(View(), done, id);
        if !sessions[id].exited { active := active + 1; }
        todo := todo - {id};
      }
      assert table - {} == table;
    }

    /** Create: refused at the limit, and only there; a shell that does not start
        uses up a number; a new session gets a number of its own. */
    method Create(cols: nat, rows: nat, shellFails: bool) returns (id: Option<nat>)
      requires table <= sessions.Keys
      modifies this
      ensures table <= sessions.Keys
      ensures id.Some? <==> old(|Live(View(), table)|) < limit && !shellFails
      ensures id.Some? ==> id.value == old(counter) + 1 && View() == Inserted(old(View()), S.Initial(cols, rows))
      ensures id.None? ==> View() == old(View()).(counter := counter)
      ensures id.None? ==> counter == old(counter) + if old(|Live(View(), table)|) < limit then 1 else 0
    {
      id := None;
      var active := CountActive();
      if active >= limit { return; }
      counter := counter + 1;
      if shellFails { return; }
      id := Some(counter);
      sessions := sessions[counter := S.Initial(cols, rows)];
      table, issued := table + {counter}, issued + [counter];
    }

    /** The cleanup goroutine's critical section. */
    method Delete(id: nat)
      modifies this`table
      ensures View() == old(View()).(table := old(table) - {id})
    {
      table := table - {id};
    }
  }

  /** An undisturbed Create is a run of the step system, whatever its outcome. */
  lemma CreateRuns(rs: Replays, m: State, cols: nat, rows: nat, shellFails: bool)
    requires m.table <= m.sessions.Keys && m.creating.Idle?
    ensures var m' := if |Live(m, m.table)| >= m.limit then m
                      else if shellFails then m.(counter := m.counter + 1)
                      else Inserted(m, S.Initial(cols, rows));
      exists acts :: Exec(rs, m, acts) == Some(m')
  {
    var n := |Live(m, m.table)|;
    var m1 := m.(creating := Counting(m.table, 0));
    assert Live(m1, m.table) == Live(m, m.table);
    var acts := CountRuns(rs, m1, m.table);
    assert AllCounted(m1, m.table) == m.(creating := Counting({}, n));
    var last := if n >= m.limit then LimitReached else if shellFails then ShellFails else CreateInsert(cols, rows);
    ExecSnoc(rs, m1, acts, last);
    ExecCons(rs, m, CreateBegin, acts + [last]);
  }

  lemma {:induction false} ExecSnoc(rs: Replays, m: State, acts: seq<Action>, a: Action)
    requires Exec(rs, m, acts).Some? && Enabled(Exec(rs, m, acts).value, a)
    ensures Exec(rs, m, acts + [a]) == Some(Apply(rs, Exec(rs, m, acts).value, a))
    decreases acts
  {
    if acts == [] {
      assert acts + [a] == [a] && [a][1..] == [];
    } else {
      assert (acts + [a])[1..] == acts[1..] + [a];
      ExecSnoc(rs, Apply(rs, m, acts[0]), acts[1..], a);
    }
  }

  // ----- Theorems ---------------------------------------------------------

  /** Running sessions never exceed the limit, although the count Create relies
      on is taken one session at a time. */
  lemma LimitHolds(rs: Replays, m: State)
    requires Reachable(rs, m)
    ensures var live := set id | id in m.sessions && !m.sessions[id].exited;
      live == {} || |live| <= m.limit
  {
    ReachableInv(rs, m);
    assert (set id | id in m.sessions && !m.sessions[id].exited) == Live(m, m.table);
  }

  function SessionName(id: nat): Bytes {
    [0x73, 0x65, 0x73, 0x73, 0x69, 0x6F, 0x6E, 0x2D] + Decimal(id)
  }

  /** No two sessions of a run get the same name. */
  lemma NamesAreUnique(rs: Replays, m: State, i: nat, j: nat)
    requires Reachable(rs, m) && i < j < |m.issued|
    ensures SessionName(m.issued[i]) != SessionName(m.issued[j])
  {
    ReachableInv(rs, m);
    var a, b := m.issued[i], m.issued[j];
    DecimalRoundTrip(a);
    DecimalRoundTrip(b);
    assert Decimal(a) == SessionName(a)[8..] && Decimal(b) == SessionName(b)[8..];
  }

  /** A session leaves the manager only once its shell has exited and nobody is
      attached, and that stays true of it for ever. */
  lemma RemovedMeansGone(rs: Replays, m: State, id: nat)
    requires Reachable(rs, m) && id in m.sessions
    ensures id !in m.table ==> m.sessions[id].exited && m.sessions[id].clients == []
    ensures Enabled(m, RemoveExpired(id)) ==> m.sessions[id].exited && m.sessions[id].clients == []
  {
    ReachableInv(rs, m);
    assert S.ExitInv(m.sessions[id]);
  }

  /** A session whose expiry has started can always be taken off the list: its timer
      can fire, and once no Create is counting, the cleanup removes it and no other. */
  lemma ExpiredLeaves(rs: Replays, m: State, id: nat)
    requires Reachable(rs, m) && id in m.table && m.creating.Idle? && id in m.sessions && m.sessions[id].expiry
    ensures Enabled(m, SessionStep(id, S.ExpiryFires))
    ensures var m1 := Apply(rs, m, SessionStep(id, S.ExpiryFires));
      Enabled(m1, RemoveExpired(id)) && Apply(rs, m1, RemoveExpired(id)).table == m.table - {id}
  {
  }
}
