/** proxy/log.go: a fixed-size ring of the latest proxy decisions, with statistics
    over all of them. */
module LogBuffer {
  import opened Basics

  datatype Verdict = Allow | Block | Other

  /** info stands for the remaining fields (time, port, source, reason). */
  datatype Entry = Entry(id: nat, domain: string, verdict: Verdict, info: string)
  datatype Stats = Stats(allowed: nat, blocked: nat)

  const FIRST_POLL := 25

  // ----- Specification over the full history ------------------------------

  function Last<T>(s: seq<T>, n: nat): seq<T> { if |s| <= n then s else s[|s| - n..] }

  function Count(h: seq<Entry>, domain: string, v: Verdict): nat {
    if h == [] then 0
    else Count(h[..|h| - 1], domain, v)
         + (if h[|h| - 1].domain == domain && h[|h| - 1].verdict == v then 1 else 0)
  }

  predicate Mentions(h: seq<Entry>, domain: string) { exists k :: 0 <= k < |h| && h[k].domain == domain }

  /** Ids are 1, 2, 3, ... without gaps. */
  predicate Numbered(h: seq<Entry>) { forall k :: 0 <= k < |h| ==> h[k].id == k + 1 }

  /** What a client that has seen everything up to afterID is told. */
  function EntriesSince(h: seq<Entry>, cap: nat, afterID: nat): seq<Entry> {
    if afterID == 0 then Last(Last(h, cap), FIRST_POLL)
    else if afterID >= |h| then []
    else Last(h[afterID..], cap)
  }

  // ----- The buffer -------------------------------------------------------

  class Buffer {
    const cap: nat
    var entries: array<Entry>
    var pos: nat
    var full: bool
    var nextID: nat
    var stats: map<string, Stats>
    ghost var history: seq<Entry>

    ghost predicate Valid()
      reads this, entries
    {
      RingFor(history) && StatsFor(history)
    }

    /** The ring, read from the oldest entry, is the end of h. */
    ghost predicate RingFor(h: seq<Entry>)
      reads this`entries, this`pos, this`full, this`nextID, entries
    {
      && cap == entries.Length && Numbered(h)
      && (cap > 0 ==> pos < cap && nextID == |h| + 1)
      && (cap == 0 ==> pos == 0 && !full)
      && (!full ==> pos == |h| && entries[..pos] == h)
      && (full ==> |h| >= cap && entries[pos..] + entries[..pos] == h[|h| - cap..])
    }

    /** Statistics cover the whole history, evicted entries included. */
    ghost predicate StatsFor(h: seq<Entry>)
      reads this`stats
    {
      forall d :: StatsAt(h, d)
    }

    ghost predicate StatsAt(h: seq<Entry>, d: string)
      reads this`stats
    {
      && (d in stats <==> Mentions(h, d))
      && (d in stats ==> stats[d] == Stats(Count(h, d, Allow), Count(h, d, Block)))
    }

    constructor (capacity: nat)
      ensures Valid() && cap == capacity && history == [] && fresh(entries)
    {
      cap := capacity;
      entries := new Entry[capacity](_ => Entry(0, "", Other, ""));
      pos, full, nextID, stats, history := 0, false, 1, map[], [];
    }

    /** Add: a buffer of capacity 0 has no slot to write, and the call panics. */
    method Add(domain: string, verdict: Verdict, info: string) returns (panics: bool)
      requires Valid()
      modifies this`nextID, this`pos, this`full, this`stats, this`history, entries
      ensures Valid() && (panics <==> cap == 0)
      ensures panics ==> history == old(history)
      ensures !panics ==> history == old(history) + [Entry(|old(history)| + 1, domain, verdict, info)]
    {
      var entry := Entry(nextID, domain, verdict, info);
      panics := cap == 0;
      if panics {
        nextID := nextID + 1;
        return;
      }
      Store(entry, history);
      CountStats(entry, history);
      history := history + [entry];
    }

    method Store(entry: Entry, ghost h: seq<Entry>)
      requires RingFor(h) && entry.id == nextID && cap > 0
      modifies this`nextID, this`pos, this`full, entries
      ensures entries == old(entries) && RingFor(h + [entry])
    {
      ghost var ring := entries[..];
      RingStep(full, pos, ring, h, entry, cap);
      NextPos(pos, cap);
      nextID := nextID + 1;
      entries[pos] := entry;
      assert entries[..] == ring[pos := entry];
      pos := (pos + 1) % cap;
      if pos == 0 && !full { full := true; }
      assert entries[..pos] == entries[..][..pos] && entries[pos..] == entries[..][pos..];
    }

    method CountStats(entry: Entry, ghost h: seq<Entry>)
      requires StatsFor(h)
      modifies this`stats
      ensures StatsFor(h + [entry])
    {
      var s := if entry.domain in stats then stats[entry.domain] else Stats(0, 0);
      match entry.verdict {
        case Allow => s := s.(allowed := s.allowed + 1);
        case Block => s := s.(blocked := s.blocked + 1);
        case Other =>
      }
      stats := stats[entry.domain := s];
      forall d ensures StatsAt(h + [entry], d) {
        assert old(StatsAt(h, d));
        StatsStep(h, entry, d);
      }
    }

    method Entries() returns (r: seq<Entry>)
      requires Valid()
      ensures r == Last(history, cap)
    {
      if !full { return entries[..pos]; }
      r := entries[pos..] + entries[..pos];
    }

    method EntriesAfter(afterID: nat) returns (r: seq<Entry>)
      requires Valid()
      ensures r == EntriesSince(history, cap, afterID)
    {
      var all := Entries();
      if afterID == 0 {
        if |all| > FIRST_POLL { return all[|all| - FIRST_POLL..]; }
        return all;
      }
      var start := 0;
      while start < |all| && all[start].id <= afterID
        invariant 0 <= start <= |all|
        invariant forall k :: 0 <= k < start ==> all[k].id <= afterID
      {
        start := start + 1;
      }
      r := all[start..];
      SinceStarts(history, cap, afterID, start);
    }

    method StatsOf(domain: string) returns (s: Option<Stats>)
      requires Valid()
      ensures s.Some? <==> Mentions(history, domain)
      ensures s.Some? ==> s.value == Stats(Count(history, domain, Allow), Count(history, domain, Block))
    {
      assert StatsAt(history, domain);
      s := if domain in stats then Some(stats[domain]) else None;
    }
  }

  lemma NextPos(pos: nat, cap: nat)
    requires pos < cap
    ensures (pos + 1) % cap == if pos + 1 == cap then 0 else pos + 1
  {
    if pos + 1 < cap { assert (pos + 1) / cap == 0; }
  }

  function Max(a: nat, b: nat): nat { if a < b then b else a }

  /** Where the last n elements of a sequence of length len start. */
  function TailAt(len: nat, n: nat): nat { if len <= n then 0 else len - n }

  lemma LastIsTail<T>(s: seq<T>, n: nat)
    ensures TailAt(|s|, n) <= |s| && Last(s, n) == s[TailAt(|s|, n)..]
  {
    assert s[0..] == s;
  }

  lemma TailOfTail<T>(s: seq<T>, a: nat, b: nat)
    requires a + b <= |s|
    ensures s[a..][b..] == s[a + b..]
  {
  }

  /** What a client that has seen something is told: everything after it that the
      ring still holds. */
  lemma SinceIsTail(h: seq<Entry>, cap: nat, afterID: nat)
    requires 0 < afterID
    ensures var lo := Max(if afterID <= |h| then afterID else |h|, TailAt(|h|, cap));
      lo <= |h| && EntriesSince(h, cap, afterID) == h[lo..]
  {
    if afterID >= |h| { return; }
    LastIsTail(h[afterID..], cap);
    TailOfTail(h, afterID, TailAt(|h| - afterID, cap));
  }

  /** A first poll is told the latest entries, up to 25 of those the ring holds. */
  lemma FirstPollTells(h: seq<Entry>, cap: nat)
    ensures var m := if |h| <= cap && |h| <= 25 then |h| else if cap <= 25 then cap else 25;
      m <= |h| && EntriesSince(h, cap, 0) == h[|h| - m..]
  {
    LastIsTail(h, cap);
    LastIsTail(Last(h, cap), FIRST_POLL);
    TailOfTail(h, TailAt(|h|, cap), TailAt(|Last(h, cap)|, FIRST_POLL));
  }

  /** The first entry of the ring that is newer than afterID starts the answer. */
  lemma SinceStarts(h: seq<Entry>, cap: nat, afterID: nat, start: nat)
    requires Numbered(h) && afterID > 0 && start <= |Last(h, cap)|
    requires forall k :: 0 <= k < start ==> Last(h, cap)[k].id <= afterID
    requires start < |Last(h, cap)| ==> Last(h, cap)[start].id > afterID
    ensures Last(h, cap)[start..] == EntriesSince(h, cap, afterID)
  {
    var lo := TailAt(|h|, cap);
    LastIsTail(h, cap);
    TailOfTail(h, lo, start);
    if start > 0 { assert Last(h, cap)[start - 1] == h[lo + start - 1]; }
    if start < |h| - lo { assert Last(h, cap)[start] == h[lo + start]; }
    if afterID <= |h| {
      SinceIsTail(h, cap, afterID);
      assert lo + start == Max(afterID, lo);
    }
  }

  /** One step of the ring on plain sequences. */
  ghost predicate RingHolds(full: bool, pos: nat, ring: seq<Entry>, h: seq<Entry>, e: Entry, cap: nat)
    requires 0 < cap == |ring| && pos < cap
  {
    var ring', h', pos' := ring[pos := e], h + [e], if pos + 1 == cap then 0 else pos + 1;
    if full || pos + 1 == cap then |h'| >= cap && ring'[pos'..] + ring'[..pos'] == h'[|h'| - cap..]
    else pos' == |h'| && ring'[..pos'] == h'
  }

  lemma UpdateSplits(ring: seq<Entry>, pos: nat, e: Entry)
    requires pos < |ring|
    ensures ring[pos := e][..pos] == ring[..pos] && ring[pos := e][pos + 1..] == ring[pos + 1..]
    ensures ring[pos := e][..pos + 1] == ring[..pos] + [e]
    ensures ring[pos..] == [ring[pos]] + ring[pos + 1..]
  {
  }

  /** The window moves on by one: its oldest entry goes, the new one comes last. */
  lemma WindowMoves(h: seq<Entry>, e: Entry, x: Entry, middle: seq<Entry>)
    requires |h| > |middle| && h[|h| - |middle| - 1..] == [x] + middle
    ensures (h + [e])[|h| - |middle|..] == middle + [e]
  {
    var k := |h| - |middle| - 1;
    assert h[k..][1..] == middle && h[k..][1..] == h[k + 1..];
    assert (h + [e])[k + 1..] == h[k + 1..] + [e];
  }

  /** Reading the ring from its oldest entry, before and after a slot is overwritten. */
  lemma Rotates(pos: nat, ring: seq<Entry>, e: Entry)
    requires pos < |ring|
    ensures var ring', pos' := ring[pos := e], if pos + 1 == |ring| then 0 else pos + 1;
      && ring[pos..] + ring[..pos] == [ring[pos]] + (ring[pos + 1..] + ring[..pos])
      && ring'[pos'..] + ring'[..pos'] == (ring[pos + 1..] + ring[..pos]) + [e]
  {
    var a, b := ring[..pos], ring[pos + 1..];
    UpdateSplits(ring, pos, e);
    AppendAssoc([ring[pos]], b, a);
    AppendAssoc(b, a, [e]);
    if pos + 1 == |ring| { assert b == [] && ring[pos := e][..pos + 1] == ring[pos := e]; }
  }

  lemma FullStep(pos: nat, ring: seq<Entry>, h: seq<Entry>, e: Entry, cap: nat)
    requires 0 < cap == |ring| && pos < cap && |h| >= cap && ring[pos..] + ring[..pos] == h[|h| - cap..]
    ensures RingHolds(true, pos, ring, h, e, cap)
  {
    Rotates(pos, ring, e);
    WindowMoves(h, e, ring[pos], ring[pos + 1..] + ring[..pos]);
  }

  lemma RingStep(full: bool, pos: nat, ring: seq<Entry>, h: seq<Entry>, e: Entry, cap: nat)
    requires 0 < cap == |ring| && pos < cap
    requires !full ==> pos == |h| && ring[..pos] == h
    requires full ==> |h| >= cap && ring[pos..] + ring[..pos] == h[|h| - cap..]
    ensures RingHolds(full, pos, ring, h, e, cap)
  {
    if full {
      FullStep(pos, ring, h, e, cap);
    } else {
      UpdateSplits(ring, pos, e);
      if pos + 1 == cap { assert ring[pos := e] == ring[..pos] + [e]; }
    }
  }

  lemma StatsStep(h: seq<Entry>, e: Entry, d: string)
    ensures Mentions(h + [e], d) <==> Mentions(h, d) || d == e.domain
    ensures forall v :: Count(h + [e], d, v) == Count(h, d, v) + (if e.domain == d && e.verdict == v then 1 else 0)
    ensures !Mentions(h, d) ==> forall v :: Count(h, d, v) == 0
  {
    var h' := h + [e];
    assert h'[..|h|] == h && h'[|h|] == e;
    if Mentions(h, d) {
      var k :| 0 <= k < |h| && h[k].domain == d;
      assert h'[k].domain == d;
    } else {
      forall v ensures Count(h, d, v) == 0 { NeverMentioned(h, d, v); }
    }
  }

  lemma {:induction false} NeverMentioned(h: seq<Entry>, d: string, v: Verdict)
    requires !Mentions(h, d)
    ensures Count(h, d, v) == 0
  {
    if h != [] {
      var init := h[..|h| - 1];
      assert h[|h| - 1].domain != d;
      forall k | 0 <= k < |init| ensures init[k].domain != d { assert h[k].domain != d; }
      NeverMentioned(init, d, v);
    }
  }
}
