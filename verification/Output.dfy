/** ward/wrapper.go, the PTY to stdout goroutine: pass the child's bytes through
    and, at read boundaries outside escape sequences, repair the scroll region
    and repaint the bar. */
module Output {
  import opened Basics
  import opened Scanner

  /** One read from the PTY, with what the other goroutines have set up by then:
      the scroll region sequence and the cached bar. */
  datatype Read = Read(data: Bytes, scrollSeq: Bytes, barHidden: bool, bar: Bytes)

  datatype Item = Child(b: Byte) | ScrollRepair(bytes: Bytes) | BarPaint(bytes: Bytes)

  datatype Writer = Writer(scan: Scan, scroll: bool, erased: bool, out: seq<Item>)

  const FRESH := Writer(START, false, false, [])

  function Children(data: Bytes): seq<Item> {
    seq(|data|, k requires 0 <= k < |data| => Child(data[k]))
  }

  /** The child's bytes within an output. */
  function ChildBytes(out: seq<Item>): Bytes {
    if out == [] then []
    else ChildBytes(out[..|out| - 1]) + (if out[|out| - 1].Child? then [out[|out| - 1].b] else [])
  }

  function Injection(scroll: bool, erased: bool, r: Read): seq<Item> {
    (if scroll then [ScrollRepair(r.scrollSeq)] else [])
    + (if (scroll || erased) && !r.barHidden then [BarPaint(r.bar)] else [])
  }

  /** One iteration of the read loop. */
  function Process(tty: bool, w: Writer, r: Read): Writer {
    var s := Scanned(w.scan, r.data);
    var scroll, erased := w.scroll || s.flags.scrollReset, w.erased || s.flags.barErased;
    var out := w.out + Children(r.data);
    if tty && s.next.state.Ground?
    then Writer(s.next, false, false, out + Injection(scroll, erased, r))
    else Writer(s.next, scroll, erased, out)
  }

  function Run(tty: bool, chunks: seq<Read>): Writer {
    if chunks == [] then FRESH else Process(tty, Run(tty, chunks[..|chunks| - 1]), chunks[|chunks| - 1])
  }

  /** What one iteration injects, and the flags it leaves pending. */
  method Inject(tty: bool, ground: bool, scroll: bool, erased: bool, r: Read)
    returns (injected: seq<Item>, scroll': bool, erased': bool)
    ensures injected == if tty && ground then Injection(scroll, erased, r) else []
    ensures scroll' == (scroll && !(tty && ground)) && erased' == (erased && !(tty && ground))
  {
    injected, scroll', erased' := [], scroll, erased;
    if tty && ground {
      if scroll { injected := [ScrollRepair(r.scrollSeq)]; }
      if (scroll || erased) && !r.barHidden { injected := injected + [BarPaint(r.bar)]; }
      scroll', erased' := false, false;
    }
  }

  /** The loop itself, with its own scanner object and pending flags. */
  method ReadLoop(tty: bool, chunks: seq<Read>) returns (out: seq<Item>)
    ensures out == Run(tty, chunks).out
  {
    var scanner := new EscScanner();
    var scroll, erased := false, false;
    out := [];
    for i := 0 to |chunks|
      invariant Writer(scanner.View(), scroll, erased, out) == Run(tty, chunks[..i])
      invariant fresh(scanner)
    {
      var r := chunks[i];
      ghost var w := Run(tty, chunks[..i]);
      var flags := scanner.ScanChunk(r.data);
      scroll, erased := scroll || flags.scrollReset, erased || flags.barErased;
      var ground := scanner.InGround();
      var injected;
      injected, scroll, erased := Inject(tty, ground, scroll, erased, r);
      out := out + Children(r.data) + injected;
      RunSnoc(tty, chunks, i);
      assert out == Process(tty, w, r).out;
    }
    assert chunks[..|chunks|] == chunks;
  }

  lemma RunSnoc(tty: bool, chunks: seq<Read>, i: nat)
    requires i < |chunks|
    ensures Run(tty, chunks[..i + 1]) == Process(tty, Run(tty, chunks[..i]), chunks[i])
  {
    assert chunks[..i + 1][..i] == chunks[..i];
  }

  // ----- Transparency -----------------------------------------------------

  function Data(chunks: seq<Read>): Bytes {
    if chunks == [] then [] else Data(chunks[..|chunks| - 1]) + chunks[|chunks| - 1].data
  }

  lemma {:induction false} ChildBytesAppend(a: seq<Item>, b: seq<Item>)
    ensures ChildBytes(a + b) == ChildBytes(a) + ChildBytes(b)
  {
    if b == [] {
      assert a + b == a;
    } else {
      ChildBytesAppend(a, b[..|b| - 1]);
      assert (a + b)[..|a + b| - 1] == a + b[..|b| - 1];
    }
  }

  lemma {:induction false} ChildrenBytes(data: Bytes)
    ensures ChildBytes(Children(data)) == data
  {
    if data != [] {
      var init := data[..|data| - 1];
      ChildrenBytes(init);
      assert Children(data)[..|data| - 1] == Children(init);
    }
  }

  lemma OneSilent(x: Item)
    requires !x.Child?
    ensures ChildBytes([x]) == []
  {
    assert [x][..0] == [];
  }

  lemma InjectionSilent(scroll: bool, erased: bool, r: Read)
    ensures ChildBytes(Injection(scroll, erased, r)) == []
  {
    OneSilent(ScrollRepair(r.scrollSeq));
    OneSilent(BarPaint(r.bar));
    var a := if scroll then [ScrollRepair(r.scrollSeq)] else [];
    var b := if (scroll || erased) && !r.barHidden then [BarPaint(r.bar)] else [];
    ChildBytesAppend(a, b);
  }

  /** One iteration appends the child's bytes and otherwise only injections. */
  lemma ProcessPasses(tty: bool, w: Writer, r: Read)
    ensures ChildBytes(Process(tty, w, r).out) == ChildBytes(w.out) + r.data
  {
    var s := Scanned(w.scan, r.data);
    var injection := Injection(w.scroll || s.flags.scrollReset, w.erased || s.flags.barErased, r);
    ChildrenBytes(r.data);
    ChildBytesAppend(w.out, Children(r.data));
    InjectionSilent(w.scroll || s.flags.scrollReset, w.erased || s.flags.barErased, r);
    ChildBytesAppend(w.out + Children(r.data), injection);
    assert ChildBytes(w.out) + r.data + [] == ChildBytes(w.out) + r.data;
  }

  /** Stdout minus this goroutine's injections is the child's output, byte for byte. */
  lemma {:induction false} ChildPassesThrough(tty: bool, chunks: seq<Read>)
    ensures ChildBytes(Run(tty, chunks).out) == Data(chunks)
    ensures Run(tty, chunks).scan == Scanned(START, Data(chunks)).next
  {
    if chunks != [] {
      var init, r := chunks[..|chunks| - 1], chunks[|chunks| - 1];
      ChildPassesThrough(tty, init);
      ScannedAppend(START, Data(init), r.data);
      ProcessPasses(tty, Run(tty, init), r);
    }
  }

  /** When stdout is no terminal the child's bytes are all that is written. */
  lemma {:induction false} NothingInjectedElsewhere(chunks: seq<Read>)
    ensures Run(false, chunks).out == Children(Data(chunks))
  {
    if chunks != [] {
      NothingInjectedElsewhere(chunks[..|chunks| - 1]);
      ChildrenAppend(Data(chunks[..|chunks| - 1]), chunks[|chunks| - 1].data);
    }
  }

  lemma ChildrenAppend(a: Bytes, b: Bytes)
    ensures Children(a + b) == Children(a) + Children(b)
  {
  }

  // ----- Where injections happen ------------------------------------------

  /** The scanner over all child bytes of the first n reads is in ground. */
  ghost predicate GroundAfter(chunks: seq<Read>, n: nat)
    requires n <= |chunks|
  {
    Scanned(START, Data(chunks[..n])).next.state.Ground?
  }

  /** The items injected at the end of read k. */
  ghost function Injected(tty: bool, chunks: seq<Read>, k: nat): seq<Item>
    requires k < |chunks|
  {
    var before := Run(tty, chunks[..k]).out + Children(chunks[k].data);
    var after := Run(tty, chunks[..k + 1]).out;
    if |before| <= |after| then after[|before|..] else []
  }

  lemma AllSilent(tail: seq<Item>)
    requires |tail| <= 1 && forall k :: 0 <= k < |tail| ==> !tail[k].Child?
    ensures ChildBytes(tail) == []
  {
    if |tail| == 1 { OneSilent(tail[0]); assert tail == [tail[0]]; }
  }

  /** Within one iteration, whatever is injected comes after bytes that leave the
      scanner in ground. */
  lemma InjectedInGround(tty: bool, init: seq<Read>, r: Read, i: nat)
    requires var w, w' := Run(tty, init), Process(tty, Run(tty, init), r);
      |w.out| + |r.data| <= i < |w'.out|
    ensures Scanned(START, ChildBytes(Process(tty, Run(tty, init), r).out[..i])).next.state.Ground?
  {
    var w, w' := Run(tty, init), Process(tty, Run(tty, init), r);
    var s, before := Scanned(w.scan, r.data), w.out + Children(r.data);
    var inj := Injection(w.scroll || s.flags.scrollReset, w.erased || s.flags.barErased, r);
    assert w'.out == before + inj && s.next.state.Ground?;
    var tail := inj[..i - |before|];
    AllSilent(tail);
    SplitAt(before, inj, i);
    ChildBytesAppend(before, tail);
    ChildPassesThrough(tty, init);
    ScannedAppend(START, Data(init), r.data);
    ChildrenBytes(r.data);
    ChildBytesAppend(w.out, Children(r.data));
    assert Data(init) + r.data + [] == Data(init) + r.data;
  }

  lemma SplitAt(a: seq<Item>, b: seq<Item>, i: nat)
    requires |a| <= i <= |a| + |b|
    ensures (a + b)[..i] == a + b[..i - |a|]
  {
  }

  /** Cut the output at any injected item: the child bytes before it leave the
      scanner in ground. */
  lemma {:induction false} InjectsOnlyInGround(tty: bool, chunks: seq<Read>, i: nat)
    requires i < |Run(tty, chunks).out| && !Run(tty, chunks).out[i].Child?
    ensures Scanned(START, ChildBytes(Run(tty, chunks).out[..i])).next.state.Ground?
  {
    if chunks != [] {
      var init, r := chunks[..|chunks| - 1], chunks[|chunks| - 1];
      var w, w' := Run(tty, init), Run(tty, chunks);
      assert forall k :: |w.out| <= k < |w.out| + |r.data| ==> w'.out[k].Child?;
      if i < |w.out| {
        InjectsOnlyInGround(tty, init, i);
        assert w'.out[..i] == w.out[..i];
      } else {
        InjectedInGround(tty, init, r, i);
      }
    }
  }

  // ----- When repairs happen ----------------------------------------------

  /** What the child can do to the bar row: reset the scroll region or erase it. */
  datatype Harm = ScrollReset | BarErased

  predicate Does(f: Flags, h: Harm) { if h.ScrollReset? then f.scrollReset else f.barErased }

  predicate PendingIn(w: Writer, h: Harm) { if h.ScrollReset? then w.scroll else w.erased }

  /** Harm h is completed within read j. */
  ghost predicate HarmIn(chunks: seq<Read>, j: nat, h: Harm)
    requires j < |chunks|
  {
    Does(Scanned(Scanned(START, Data(chunks[..j])).next, chunks[j].data).flags, h)
  }

  /** Since read j there has been no boundary in ground before boundary n. */
  ghost predicate NoGround(chunks: seq<Read>, j: nat, n: nat)
    requires n <= |chunks|
  {
    forall m :: j < m <= n ==> !GroundAfter(chunks, m)
  }

  ghost predicate Unrepaired(chunks: seq<Read>, n: nat, h: Harm)
    requires n <= |chunks|
  {
    exists j :: 0 <= j < n && HarmIn(chunks, j, h) && NoGround(chunks, j, n)
  }

  lemma NoGroundStep(chunks: seq<Read>, j: nat, n: nat)
    requires 0 < n <= |chunks|
    ensures NoGround(chunks, j, n) <==> NoGround(chunks, j, n - 1) && (j < n ==> !GroundAfter(chunks, n))
  {
  }

  lemma UnrepairedBefore(chunks: seq<Read>, n: nat, h: Harm)
    requires 0 < n <= |chunks| && Unrepaired(chunks, n, h)
    ensures !GroundAfter(chunks, n) && (Unrepaired(chunks, n - 1, h) || HarmIn(chunks, n - 1, h))
  {
    var j :| 0 <= j < n && HarmIn(chunks, j, h) && NoGround(chunks, j, n);
    NoGroundStep(chunks, j, n);
  }

  lemma UnrepairedAfter(chunks: seq<Read>, n: nat, h: Harm)
    requires 0 < n <= |chunks| && !GroundAfter(chunks, n)
    requires Unrepaired(chunks, n - 1, h) || HarmIn(chunks, n - 1, h)
    ensures Unrepaired(chunks, n, h)
  {
    var j: nat := n - 1;
    if !HarmIn(chunks, n - 1, h) { j :| 0 <= j < n - 1 && HarmIn(chunks, j, h) && NoGround(chunks, j, n - 1); }
    NoGroundStep(chunks, j, n);
  }

  lemma UnrepairedStep(chunks: seq<Read>, n: nat, h: Harm)
    requires 0 < n <= |chunks|
    ensures Unrepaired(chunks, n, h) <==>
      !GroundAfter(chunks, n) && (Unrepaired(chunks, n - 1, h) || HarmIn(chunks, n - 1, h))
  {
    if Unrepaired(chunks, n, h) {
      UnrepairedBefore(chunks, n, h);
    } else if !GroundAfter(chunks, n) && (Unrepaired(chunks, n - 1, h) || HarmIn(chunks, n - 1, h)) {
      UnrepairedAfter(chunks, n, h);
    }
  }

  /** One read, seen from the start of the stream. */
  lemma ReadStep(chunks: seq<Read>, k: nat)
    requires k < |chunks|
    ensures Run(true, chunks[..k + 1]) == Process(true, Run(true, chunks[..k]), chunks[k])
    ensures var s := Scanned(Run(true, chunks[..k]).scan, chunks[k].data);
      (forall h :: HarmIn(chunks, k, h) <==> Does(s.flags, h)) && (GroundAfter(chunks, k + 1) <==> s.next.state.Ground?)
  {
    assert chunks[..k + 1][..k] == chunks[..k] && chunks[..k + 1][k] == chunks[k];
    ChildPassesThrough(true, chunks[..k]);
    ChildPassesThrough(true, chunks[..k + 1]);
  }

  lemma ProcessPending(w: Writer, r: Read, h: Harm)
    ensures var s := Scanned(w.scan, r.data);
      PendingIn(Process(true, w, r), h) <==> !s.next.state.Ground? && (PendingIn(w, h) || Does(s.flags, h))
  {
  }

  /** The pending flag means exactly: some harm has met no ground boundary yet. */
  lemma {:induction false} PendingMeans(chunks: seq<Read>, n: nat, h: Harm)
    requires n <= |chunks|
    ensures PendingIn(Run(true, chunks[..n]), h) <==> Unrepaired(chunks, n, h)
    decreases n
  {
    if n > 0 {
      PendingMeans(chunks, n - 1, h);
      ReadStep(chunks, n - 1);
      ProcessPending(Run(true, chunks[..n - 1]), chunks[n - 1], h);
      UnrepairedStep(chunks, n, h);
    }
  }

  /** Harm in some read j <= k has met no ground boundary before read k. */
  ghost predicate RepairDue(chunks: seq<Read>, k: nat, h: Harm)
    requires k < |chunks|
  {
    exists j :: 0 <= j <= k && HarmIn(chunks, j, h) && NoGround(chunks, j, k)
  }

  lemma DueMeans(chunks: seq<Read>, k: nat, h: Harm)
    requires k < |chunks|
    ensures RepairDue(chunks, k, h) <==> Unrepaired(chunks, k, h) || HarmIn(chunks, k, h)
  {
    if HarmIn(chunks, k, h) { assert NoGround(chunks, k, k); }
    if RepairDue(chunks, k, h) && !HarmIn(chunks, k, h) {
      var j :| 0 <= j <= k && HarmIn(chunks, j, h) && NoGround(chunks, j, k);
      assert j < k;
    }
  }

  /** However the stream is cut into reads, what is injected after read k is decided
      by what the child has done: nothing unless read k ends in ground; then the
      scroll region is set exactly if a reset is due, and after it the bar repainted
      exactly if a reset or an erasure is due and the bar is not hidden. So every reset and
      every erasure is repaired at the first boundary in ground after it, and
      nothing else triggers a repair. */
  lemma RepairedAtFirstGround(chunks: seq<Read>, k: nat)
    requires k < |chunks|
    ensures var scroll, paint := RepairDue(chunks, k, ScrollReset), RepairDue(chunks, k, BarErased);
      Injected(true, chunks, k) ==
        if !GroundAfter(chunks, k + 1) then []
        else (if scroll then [ScrollRepair(chunks[k].scrollSeq)] else [])
             + (if (scroll || paint) && !chunks[k].barHidden then [BarPaint(chunks[k].bar)] else [])
  {
    var r, w := chunks[k], Run(true, chunks[..k]);
    PendingMeans(chunks, k, ScrollReset);
    PendingMeans(chunks, k, BarErased);
    ReadStep(chunks, k);
    DueMeans(chunks, k, ScrollReset);
    DueMeans(chunks, k, BarErased);
    var s := Scanned(w.scan, r.data);
    assert RepairDue(chunks, k, ScrollReset) <==> w.scroll || Does(s.flags, ScrollReset);
    assert RepairDue(chunks, k, BarErased) <==> w.erased || Does(s.flags, BarErased);
  }

  /** The same, said of the two kinds of injected item. */
  lemma RepairsAre(chunks: seq<Read>, k: nat)
    requires k < |chunks|
    ensures ScrollRepair(chunks[k].scrollSeq) in Injected(true, chunks, k) <==>
      GroundAfter(chunks, k + 1) && RepairDue(chunks, k, ScrollReset)
    ensures BarPaint(chunks[k].bar) in Injected(true, chunks, k) <==>
      && GroundAfter(chunks, k + 1) && !chunks[k].barHidden
      && (RepairDue(chunks, k, ScrollReset) || RepairDue(chunks, k, BarErased))
  {
    RepairedAtFirstGround(chunks, k);
  }
}
