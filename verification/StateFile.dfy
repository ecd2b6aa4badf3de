/** session/statefile.go: any number of goroutines publish the session list.
    A writer enters holding Manager.mu, drops it, takes stateFileMu, lists the
    sessions one at a time under Manager.mu while they keep changing, writes a
    shared temp file and renames it over the state file.

    Each session's past is a sequence of values (None once it is no longer
    listed); a version is a length of that sequence. */
module StateFile {
  import opened Basics

  type Id = nat

  /** What a file holds: for each session, the version that was seen. */
  type Image = map<Id, nat>

  /** called: the state when the call was made (or, before that, when its
      goroutine was started). */
  datatype Writer =
    | Started(called: Image)
    | Waiting(called: Image)
    | Locked(called: Image)
    | Listing(called: Image, todo: set<Id>, seen: Image)
    | Listed(called: Image, seen: Image)
    | WroteTmp(called: Image, seen: Image)
    | Returned(called: Image, ok: bool)

  datatype State<Info> = State(
    past: map<Id, seq<Option<Info>>>,
    writers: seq<Writer>,
    owner: Option<nat>,      // who holds stateFileMu
    listing: bool,           // Manager.mu held by the lister
    tmp: Image, disk: Image,
    silent: set<Id>)         // changed early by an exit, final write still to come

  function Initial<Info>(): State<Info> { State(map[], [], None, false, map[], map[], {}) }

  function Version<Info>(s: State<Info>, id: Id): nat { if id in s.past then |s.past[id]| else 0 }

  function Now<Info>(s: State<Info>): Image { map id | id in s.past :: |s.past[id]| }

  function Seen(im: Image, id: Id): nat { if id in im then im[id] else 0 }

  /** The value of a session that an image shows. */
  function Shown<Info>(s: State<Info>, im: Image, id: Id): Option<Info>
    requires id in s.past ==> Seen(im, id) <= |s.past[id]|
  {
    if id in s.past && Seen(im, id) > 0 then s.past[id][Seen(im, id) - 1] else None
  }

  datatype Action<Info> =
    | Change(id: Id, info: Option<Info>)     // change a session and start a writer for it
    | SilentChange(id: Id, info: Option<Info>) // shell exit noticed: the writer comes later
    | SettleExit(id: Id)                     // waitForExit's final onSessionChanged
    | Enter(w: nat)                          // writeStateFile is called, with Manager.mu held
    | Acquire(w: nat)
    | StartList(w: nat)
    | Look(w: nat, id: Id)
    | FinishList(w: nat)
    | WriteTmp(w: nat)
    | WriteFails(w: nat, junk: Image)
    | Rename(w: nat)
    | RenameFails(w: nat)

  predicate Holds<Info>(s: State<Info>, w: nat) { w < |s.writers| && s.owner == Some(w) }

  /** A change of membership takes Manager.mu, so it cannot fall inside a listing. */
  predicate MayChange<Info>(s: State<Info>, id: Id, info: Option<Info>) {
    s.listing ==> id in s.past && s.past[id] != [] && s.past[id][|s.past[id]| - 1].Some? == info.Some?
  }

  predicate Enabled<Info>(s: State<Info>, a: Action<Info>) {
    match a
    case Change(id, info) => MayChange(s, id, info)
    case SilentChange(id, info) => MayChange(s, id, info)
    case SettleExit(id) => id in s.silent
    case Enter(w) => w < |s.writers| && s.writers[w].Started? && !s.listing
    case Acquire(w) => w < |s.writers| && s.writers[w].Waiting? && s.owner.None?
    case StartList(w) => Holds(s, w) && s.writers[w].Locked?
    case Look(w, id) => Holds(s, w) && s.writers[w].Listing? && id in s.writers[w].todo
    case FinishList(w) => Holds(s, w) && s.writers[w].Listing? && s.writers[w].todo == {}
    case WriteTmp(w) => Holds(s, w) && s.writers[w].Listed?
    case WriteFails(w, _) => Holds(s, w) && s.writers[w].Listed?
    case Rename(w) => Holds(s, w) && s.writers[w].WroteTmp?
    case RenameFails(w) => Holds(s, w) && s.writers[w].WroteTmp?
  }

  function Record<Info>(s: State<Info>, id: Id, info: Option<Info>): State<Info> {
    s.(past := s.past[id := (if id in s.past then s.past[id] else []) + [info]])
  }

  function Spawn<Info>(s: State<Info>): State<Info> { s.(writers := s.writers + [Started(Now(s))]) }

  function Move<Info>(s: State<Info>, w: nat, to: Writer): State<Info>
    requires w < |s.writers|
  {
    s.(writers := s.writers[w := to])
  }

  function Apply<Info>(s: State<Info>, a: Action<Info>): State<Info>
    requires Enabled(s, a)
  {
    match a
    case Change(id, info) => Spawn(Record(s, id, info))
    case SilentChange(id, info) => Record(s, id, info).(silent := s.silent + {id})
    case SettleExit(id) => Spawn(s.(silent := s.silent - {id}))
    case Enter(w) => Move(s, w, Waiting(Now(s)))
    case Acquire(w) => Move(s, w, Locked(s.writers[w].called)).(owner := Some(w))
    case StartList(w) => Move(s, w, Listing(s.writers[w].called, s.past.Keys, map[])).(listing := true)
    case Look(w, id) =>
      var r := s.writers[w];
      Move(s, w, Listing(r.called, r.todo - {id}, r.seen[id := Version(s, id)]))
    case FinishList(w) => Move(s, w, Listed(s.writers[w].called, s.writers[w].seen)).(listing := false)
    case WriteTmp(w) =>
      Move(s, w, WroteTmp(s.writers[w].called, s.writers[w].seen)).(tmp := s.writers[w].seen)
    case WriteFails(w, junk) => Move(s, w, Returned(s.writers[w].called, false)).(tmp := junk, owner := None)
    case Rename(w) => Move(s, w, Returned(s.writers[w].called, true)).(disk := s.tmp, owner := None)
    case RenameFails(w) => Move(s, w, Returned(s.writers[w].called, false)).(owner := None)
  }

  function Exec<Info>(s: State<Info>, acts: seq<Action<Info>>): Option<State<Info>>
    decreases acts
  {
    if acts == [] then Some(s)
    else if !Enabled(s, acts[0]) then None
    else Exec(Apply(s, acts[0]), acts[1..])
  }

  ghost predicate Reachable<Info(!new)>(s: State<Info>) {
    exists acts :: Exec(Initial(), acts) == Some(s)
  }

  // ----- Invariant --------------------------------------------------------

  /** Image b is at least as new as image a, session by session. */
  ghost predicate AtMost(a: Image, b: Image) {
    forall id :: id in a ==> a[id] <= Seen(b, id)
  }

  ghost predicate WriterInv<Info>(s: State<Info>, w: nat)
    requires w < |s.writers|
  {
    var r := s.writers[w];
    && AtMost(r.called, Now(s))
    && (s.owner == Some(w) <==> !r.Started? && !r.Waiting? && !r.Returned?)
    && match r
       case Started(_) => true
       case Waiting(_) => true
       case Locked(_) => !s.listing
       case Listing(called, todo, seen) =>
         && s.listing && todo <= s.past.Keys && AtMost(seen, Now(s))
         && forall id :: id in s.past && id !in todo ==>
              Seen(called, id) <= Seen(seen, id) && Seen(s.disk, id) <= Seen(seen, id)
       case Listed(called, seen) =>
         !s.listing && AtMost(called, seen) && AtMost(s.disk, seen) && AtMost(seen, Now(s))
       case WroteTmp(called, seen) =>
         !s.listing && AtMost(called, seen) && AtMost(s.disk, seen) && AtMost(seen, Now(s)) && s.tmp == seen
       case Returned(called, ok) => ok ==> AtMost(called, s.disk)
  }

  /** The latest change of a session is known to some writer. */
  ghost predicate Covered<Info>(s: State<Info>, id: Id) {
    exists w :: 0 <= w < |s.writers| && Seen(s.writers[w].called, id) >= Version(s, id)
  }

  ghost predicate Inv<Info>(s: State<Info>) {
    && AtMost(s.disk, Now(s))
    && (s.owner.Some? ==> s.owner.value < |s.writers|)
    && (s.listing ==> s.owner.Some? && s.writers[s.owner.value].Listing?)
    && (forall w :: 0 <= w < |s.writers| ==> WriterInv(s, w))
    && (forall id :: id in s.past && id !in s.silent ==> Covered(s, id))
  }

  lemma RecordKeeps<Info>(s: State<Info>, id: Id, info: Option<Info>)
    requires Inv(s) && MayChange(s, id, info)
    ensures Inv(Record(s, id, info).(silent := s.silent + {id}))
  {
    var s' := Record(s, id, info).(silent := s.silent + {id});
    assert forall i :: Seen(Now(s), i) <= Seen(Now(s'), i);
    forall w | 0 <= w < |s'.writers| ensures WriterInv(s', w) { assert WriterInv(s, w); }
    forall i | i in s'.past && i !in s'.silent ensures Covered(s', i) {
      assert Covered(s, i) && Version(s', i) == Version(s, i);
    }
  }

  lemma SpawnKeeps<Info>(s: State<Info>, was: State<Info>)
    requires Inv(was) && s == was.(silent := s.silent)
    requires forall id :: id in s.silent ==> id in was.silent
    ensures Inv(Spawn(s))
  {
    var s' := Spawn(s);
    forall w | 0 <= w < |s'.writers| ensures WriterInv(s', w) {
      if w < |s.writers| { assert WriterInv(was, w); }
    }
    forall id | id in s'.past && id !in s'.silent ensures Covered(s', id) {
      assert Seen(s'.writers[|s.writers|].called, id) >= Version(s', id);
    }
  }

  /** A step of the writer that holds, takes or gives up stateFileMu. */
  lemma OwnerStepKeeps<Info>(s: State<Info>, s': State<Info>, w: nat)
    requires Inv(s) && w < |s.writers| && (s.owner == Some(w) || s.owner.None?)
    requires |s'.writers| == |s.writers| && s'.past == s.past && s'.silent == s.silent
    requires s'.writers == s.writers[w := s'.writers[w]] && s'.writers[w].called == s.writers[w].called
    requires AtMost(s.disk, s'.disk) && AtMost(s'.disk, Now(s'))
    requires s'.owner == Some(w) || s'.owner.None?
    requires s'.listing ==> s'.owner == Some(w) && s'.writers[w].Listing?
    requires WriterInv(s', w)
    ensures Inv(s')
  {
    forall v | 0 <= v < |s'.writers| ensures WriterInv(s', v) {
      assert WriterInv(s, v);
      if v != w { AtMostTransitive(s.writers[v].called, s.disk, s'.disk); }
    }
    forall id | id in s'.past && id !in s'.silent ensures Covered(s', id) {
      assert Covered(s, id);
      var v :| 0 <= v < |s.writers| && Seen(s.writers[v].called, id) >= Version(s, id);
      assert s'.writers[v].called == s.writers[v].called;
    }
  }

  lemma EnterKeeps<Info>(s: State<Info>, w: nat)
    requires Inv(s) && Enabled(s, Enter(w))
    ensures Inv(Move(s, w, Waiting(Now(s))))
  {
    var s' := Move(s, w, Waiting(Now(s)));
    forall v | 0 <= v < |s'.writers| ensures WriterInv(s', v) { assert WriterInv(s, v); }
    forall id | id in s'.past && id !in s'.silent ensures Covered(s', id) {
      assert Seen(s'.writers[w].called, id) >= Version(s', id);
    }
  }

  lemma AtMostTransitive(a: Image, b: Image, c: Image)
    requires AtMost(b, c)
    ensures AtMost(a, b) ==> AtMost(a, c)
  {
    if AtMost(a, b) {
      forall id | id in a ensures a[id] <= Seen(c, id) {
        if id in b { assert b[id] <= Seen(c, id); }
      }
    }
  }

  lemma ListStepKeeps<Info>(s: State<Info>, a: Action<Info>)
    requires Inv(s) && Enabled(s, a) && (a.Acquire? || a.StartList? || a.Look? || a.FinishList?)
    ensures Inv(Apply(s, a))
  {
    assert WriterInv(s, a.w);
    OwnerStepKeeps(s, Apply(s, a), a.w);
  }

  lemma FileStepKeeps<Info>(s: State<Info>, a: Action<Info>)
    requires Inv(s) && Enabled(s, a) && (a.WriteTmp? || a.WriteFails? || a.Rename? || a.RenameFails?)
    ensures Inv(Apply(s, a)) && AtMost(s.disk, Apply(s, a).disk)
  {
    assert WriterInv(s, a.w);
    OwnerStepKeeps(s, Apply(s, a), a.w);
  }

  lemma StepKeeps<Info>(s: State<Info>, a: Action<Info>)
    requires Inv(s) && Enabled(s, a)
    ensures Inv(Apply(s, a))
    ensures AtMost(s.disk, Apply(s, a).disk)
  {
    match a
    case Change(id, info) =>
      RecordKeeps(s, id, info);
      SpawnKeeps(Record(s, id, info), Record(s, id, info).(silent := s.silent + {id}));
    case SilentChange(id, info) => RecordKeeps(s, id, info);
    case SettleExit(id) => SpawnKeeps(s.(silent := s.silent - {id}), s);
    case Enter(w) => EnterKeeps(s, w);
    case WriteTmp(_) => FileStepKeeps(s, a);
    case WriteFails(_, _) => FileStepKeeps(s, a);
    case Rename(_) => FileStepKeeps(s, a);
    case RenameFails(_) => FileStepKeeps(s, a);
    case _ => ListStepKeeps(s, a);
  }

  lemma {:induction false} RunKeeps<Info>(s: State<Info>, acts: seq<Action<Info>>)
    requires Inv(s) && Exec(s, acts).Some?
    ensures Inv(Exec(s, acts).value)
    ensures AtMost(s.disk, Exec(s, acts).value.disk)
    decreases acts
  {
    if acts != [] {
      var s1 := Apply(s, acts[0]);
      StepKeeps(s, acts[0]);
      RunKeeps(s1, acts[1..]);
      AtMostTransitive(s.disk, s1.disk, Exec(s, acts).value.disk);
    }
  }

  lemma ReachableInv<Info(!new)>(s: State<Info>)
    requires Reachable(s)
    ensures Inv(s)
  {
    var acts :| Exec(Initial(), acts) == Some(s);
    RunKeeps(Initial(), acts);
  }

  // ----- Theorems ---------------------------------------------------------

  /** However a run continues, the file never shows an older state of any session. */
  lemma DiskNeverGoesBack<Info(!new)>(s: State<Info>, acts: seq<Action<Info>>)
    requires Reachable(s) && Exec(s, acts).Some?
    ensures forall id :: Seen(s.disk, id) <= Seen(Exec(s, acts).value.disk, id)
  {
    ReachableInv(s);
    RunKeeps(s, acts);
  }

  /** When a writer returns without a file error, the file is at least as new as
      the sessions were when it was called. */
  lemma ReturnedMeansWritten<Info(!new)>(s: State<Info>, w: nat, id: Id)
    requires Reachable(s) && w < |s.writers| && s.writers[w].Returned? && s.writers[w].ok
    ensures Seen(s.writers[w].called, id) <= Seen(s.disk, id) <= Version(s, id)
  {
    ReachableInv(s);
    assert WriterInv(s, w);
  }

  /** At rest (all writers back without error, every exit settled) the file shows
      the current state of every session. */
  lemma AtRestFileIsCurrent<Info(!new)>(s: State<Info>, id: Id)
    requires Reachable(s) && s.silent == {} && id in s.past
    requires forall w :: 0 <= w < |s.writers| ==> s.writers[w].Returned? && s.writers[w].ok
    ensures Seen(s.disk, id) == Version(s, id)
    ensures s.past[id] != [] ==> Shown(s, s.disk, id) == s.past[id][|s.past[id]| - 1]
  {
    ReachableInv(s);
    assert Covered(s, id);
    var w :| 0 <= w < |s.writers| && Seen(s.writers[w].called, id) >= Version(s, id);
    ReturnedMeansWritten(s, w, id);
  }

  /** What writer w does next. */
  ghost function NextOf<Info>(s: State<Info>, w: nat): Action<Info>
    requires w < |s.writers| && !s.writers[w].Returned?
  {
    match s.writers[w]
    case Started(_) => Enter(w)
    case Waiting(_) => Acquire(w)
    case Locked(_) => StartList(w)
    case Listing(_, todo, _) => if todo == {} then FinishList(w) else (var id :| id in todo; Look(w, id))
    case Listed(_, _) => WriteTmp(w)
    case WroteTmp(_, _) => Rename(w)
  }

  lemma OwnerMoves<Info>(s: State<Info>, w: nat)
    requires w < |s.writers| && WriterInv(s, w) && s.owner == Some(w)
    ensures !s.writers[w].Returned? && Enabled(s, NextOf(s, w))
  {
  }

  lemma FreeMoves<Info>(s: State<Info>, w: nat)
    requires w < |s.writers| && WriterInv(s, w) && s.owner.None? && !s.listing && !s.writers[w].Returned?
    ensures Enabled(s, NextOf(s, w))
  {
  }

  /** No writer waits for ever: while one has not returned, it or the one that holds
      stateFileMu can go on. */
  lemma SomeWriterMoves<Info(!new)>(s: State<Info>, w: nat)
    requires Reachable(s) && w < |s.writers| && !s.writers[w].Returned?
    ensures var v := if s.owner.Some? then s.owner.value else w;
      v < |s.writers| && !s.writers[v].Returned? && Enabled(s, NextOf(s, v))
  {
    ReachableInv(s);
    if s.owner.Some? {
      assert WriterInv(s, s.owner.value);
      OwnerMoves(s, s.owner.value);
    } else {
      assert WriterInv(s, w);
      FreeMoves(s, w);
    }
  }
}
