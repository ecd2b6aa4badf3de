/** proxy/presets.go and config/config.go: expanding preset names into domains
    through possibly cyclic includes, and the deduplicating merge. */
module Presets {
  import opened Basics

  datatype Preset = Preset(name: string, domains: seq<string>, includes: seq<string>)

  /** The registry's index: later presets of the same name win. */
  type Index = map<string, Preset>

  function IndexOf(presets: seq<Preset>): Index {
    if presets == [] then map[]
    else IndexOf(presets[..|presets| - 1])[presets[|presets| - 1].name := presets[|presets| - 1]]
  }

  /** p is what name n stands for in the registry: the last preset of that name. */
  ghost predicate Defines(presets: seq<Preset>, n: string, p: Preset) {
    exists i :: DefinesAt(presets, n, p, i)
  }

  ghost predicate DefinesAt(presets: seq<Preset>, n: string, p: Preset, i: int) {
    0 <= i < |presets| && presets[i] == p && p.name == n && forall j :: i < j < |presets| ==> presets[j].name != n
  }

  lemma {:induction false} IndexIs(presets: seq<Preset>, n: string, p: Preset)
    ensures n in IndexOf(presets) && IndexOf(presets)[n] == p <==> Defines(presets, n, p)
  {
    if presets != [] {
      var init, z := presets[..|presets| - 1], |presets| - 1;
      IndexIs(init, n, p);
      if presets[z].name == n {
        if presets[z] == p { assert DefinesAt(presets, n, p, z); }
      } else {
        if i :| DefinesAt(init, n, p, i) { assert DefinesAt(presets, n, p, i); }
        if i :| DefinesAt(presets, n, p, i) { assert DefinesAt(init, n, p, i); }
      }
    }
  }

  // ----- Specification ----------------------------------------------------

  /** path leads from its first to its last name through Includes of known presets. */
  ghost predicate Path(ix: Index, path: seq<string>) {
    && path != []
    && forall k :: 0 <= k < |path| - 1 ==> path[k] in ix && path[k + 1] in ix[path[k]].includes
  }

  ghost predicate Reaches(ix: Index, from: string, goal: string) {
    exists path :: Path(ix, path) && path[0] == from && path[|path| - 1] == goal
  }

  ghost predicate Distinct(s: seq<string>) {
    forall i, j :: 0 <= i < j < |s| ==> s[i] != s[j]
  }

  lemma ReachesSelf(ix: Index, n: string)
    ensures Reaches(ix, n, n)
  {
    assert Path(ix, [n]) && [n][0] == n && [n][|[n]| - 1] == n;
  }

  lemma ReachesInclude(ix: Index, n: string, inc: string, goal: string)
    requires n in ix && inc in ix[n].includes && Reaches(ix, inc, goal)
    ensures Reaches(ix, n, goal)
  {
    var p :| Path(ix, p) && p[0] == inc && p[|p| - 1] == goal;
    var q := [n] + p;
    forall k | 0 <= k < |q| - 1 ensures q[k] in ix && q[k + 1] in ix[q[k]].includes {
      if k > 0 { assert q[k] == p[k - 1] && q[(k - 1) + 1] == p[k - 1]; }
    }
    assert Path(ix, q) && q[0] == n && q[|q| - 1] == goal;
  }

  /** A set closed under Includes keeps every path within it. */
  ghost predicate Closed(ix: Index, visited: set<string>) {
    forall n, inc :: n in visited && n in ix && inc in ix[n].includes ==> inc in visited
  }

  lemma {:induction false} ClosedKeepsPaths(ix: Index, visited: set<string>, path: seq<string>)
    requires Closed(ix, visited) && Path(ix, path) && path[0] in visited
    ensures path[|path| - 1] in visited
    decreases path
  {
    if |path| > 1 {
      assert path[0] in ix && path[0 + 1] in ix[path[0]].includes;
      var rest := path[1..];
      forall k | 0 <= k < |rest| - 1 ensures rest[k] in ix && rest[k + 1] in ix[rest[k]].includes {
        assert path[k + 1] in ix && path[(k + 1) + 1] in ix[path[k + 1]].includes;
      }
      ClosedKeepsPaths(ix, visited, rest);
    }
  }

  // ----- First occurrences ------------------------------------------------

  /** First occurrences only, in order. */
  function Firsts(s: seq<string>): seq<string> {
    if s == [] then []
    else
      var init := Firsts(s[..|s| - 1]);
      if s[|s| - 1] in s[..|s| - 1] then init else init + [s[|s| - 1]]
  }

  ghost function FirstAt(s: seq<string>, x: string): nat
    requires x in s
    ensures FirstAt(s, x) < |s| && s[FirstAt(s, x)] == x
    ensures forall k :: 0 <= k < FirstAt(s, x) ==> s[k] != x
  {
    if s[0] == x then 0 else 1 + FirstAt(s[1..], x)
  }

  lemma {:induction false} FirstAtSnoc(s: seq<string>, y: string, x: string)
    requires x in s
    ensures FirstAt(s + [y], x) == FirstAt(s, x)
  {
    assert forall k :: 0 <= k < |s| ==> (s + [y])[k] == s[k];
    assert (s + [y])[FirstAt(s, x)] == x;
  }

  /** Firsts keeps the elements and no others, has no duplicates, and orders
      elements by where they first occur. */
  lemma {:induction false} FirstsAre(s: seq<string>)
    ensures forall x :: x in Firsts(s) <==> x in s
    ensures Distinct(Firsts(s))
    ensures forall i, j :: 0 <= i < j < |Firsts(s)| ==> FirstAt(s, Firsts(s)[i]) < FirstAt(s, Firsts(s)[j])
  {
    if s != [] {
      var init, x := s[..|s| - 1], s[|s| - 1];
      FirstsAre(init);
      assert s == init + [x];
      var f := Firsts(s);
      forall i, j | 0 <= i < j < |f| ensures FirstAt(s, f[i]) < FirstAt(s, f[j]) {
        var fi := Firsts(init);
        FirstAtSnoc(init, x, fi[i]);
        if j < |fi| { FirstAtSnoc(init, x, fi[j]); }
      }
    }
  }

  /** The inner loop of both the expansion and the merge: append what is new. all is
      everything that was offered so far. */
  method AppendNew(ds: seq<string>, seen: set<string>, result: seq<string>, ghost all: seq<string>)
    returns (seen': set<string>, result': seq<string>)
    requires result == Firsts(all) && forall x :: x in seen <==> x in all
    ensures result' == Firsts(all + ds) && forall x :: x in seen' <==> x in all + ds
  {
    seen', result' := seen, result;
    assert all + ds[..0] == all;
    for j := 0 to |ds|
      invariant result' == Firsts(all + ds[..j]) && forall x :: x in seen' <==> x in all + ds[..j]
    {
      Offer(all, ds, j);
      if ds[j] !in seen' {
        seen' := seen' + {ds[j]};
        result' := result' + [ds[j]];
      }
    }
    assert ds[..|ds|] == ds;
  }

  lemma Offer(all: seq<string>, ds: seq<string>, j: nat)
    requires j < |ds|
    ensures var now := all + ds[..j];
      && all + ds[..j + 1] == now + [ds[j]]
      && Firsts(now + [ds[j]]) == if ds[j] in now then Firsts(now) else Firsts(now) + [ds[j]]
  {
    var now := all + ds[..j];
    assert all + ds[..j + 1] == now + [ds[j]];
    assert (now + [ds[j]])[..|now|] == now;
  }

  // ----- Expand -----------------------------------------------------------

  datatype Visited = Visited(seen: set<string>, order: seq<string>)

  /** The order in which presets are finished: names in turn, each after what it
      includes, none twice, unknown names skipped. */
  function Visit(ix: Index, seen: set<string>, names: seq<string>): (v: Visited)
    ensures seen <= v.seen
    decreases ix.Keys - seen, |names|
  {
    if names == [] then Visited(seen, [])
    else
      var init, n := Visit(ix, seen, names[..|names| - 1]), names[|names| - 1];
      if n in init.seen then init
      else if n !in ix then Visited(init.seen + {n}, init.order)
      else
        var inner := Visit(ix, init.seen + {n}, ix[n].includes);
        Visited(inner.seen, init.order + inner.order + [n])
  }

  /** The domains of the presets in order, run together. */
  function AllDomains(ix: Index, order: seq<string>): seq<string> {
    if order == [] then []
    else
      var n := order[|order| - 1];
      AllDomains(ix, order[..|order| - 1]) + if n in ix then ix[n].domains else []
  }

  lemma {:induction false} AllDomainsAre(ix: Index, order: seq<string>, d: string)
    ensures d in AllDomains(ix, order) <==> exists n :: n in order && n in ix && d in ix[n].domains
  {
    if order != [] {
      var init, last := order[..|order| - 1], order[|order| - 1];
      AllDomainsAre(ix, init, d);
      assert order == init + [last];
    }
  }

  lemma VisitOne(ix: Index, seen: set<string>, n: string)
    ensures Visit(ix, seen, [n]) ==
      if n in seen then Visited(seen, [])
      else if n !in ix then Visited(seen + {n}, [])
      else
        var inner := Visit(ix, seen + {n}, ix[n].includes);
        Visited(inner.seen, inner.order + [n])
  {
    assert [n][..0] == [];
  }

  /** One name more. */
  lemma VisitSnoc(ix: Index, seen: set<string>, names: seq<string>, i: nat)
    requires i < |names|
    ensures var init := Visit(ix, seen, names[..i]);
      var one := Visit(ix, init.seen, [names[i]]);
      Visit(ix, seen, names[..i + 1]) == Visited(one.seen, init.order + one.order)
  {
    var init := Visit(ix, seen, names[..i]);
    assert names[..i + 1][..i] == names[..i];
    VisitOne(ix, init.seen, names[i]);
    if names[i] !in init.seen && names[i] in ix {
      AppendAssoc(init.order, Visit(ix, init.seen + {names[i]}, ix[names[i]].includes).order, [names[i]]);
    } else {
      assert init.order + [] == init.order;
    }
  }

  /** The variables that the recursive closure updates. finished: the presets whose
      domains have been added, in order. */
  class Expander {
    const ix: Index
    var visited: set<string>
    var seen: set<string>
    var domains: seq<string>
    ghost var finished: seq<string>

    /** The domains of the finished presets, first occurrences only. */
    ghost predicate Valid()
      reads this
    {
      && domains == Firsts(AllDomains(ix, finished))
      && forall d :: d in seen <==> d in AllDomains(ix, finished)
    }

    constructor (ix: Index)
      ensures this.ix == ix && Valid() && visited == {} && finished == []
    {
      this.ix := ix;
      visited, seen, domains, finished := {}, {}, [], [];
    }

    method AddDomains(name: string)
      requires Valid() && name in ix
      modifies this`seen, this`domains, this`finished
      ensures Valid() && finished == old(finished) + [name]
    {
      ghost var all := AllDomains(ix, finished);
      seen, domains := AppendNew(ix[name].domains, seen, domains, all);
      finished := finished + [name];
      assert finished[..|finished| - 1] == old(finished);
    }

    method ExpandName(name: string)
      requires Valid()
      modifies this
      ensures Valid()
      ensures var v := Visit(ix, old(visited), [name]);
        visited == v.seen && finished == old(finished) + v.order
      decreases ix.Keys - visited, 0
    {
      VisitOne(ix, visited, name);
      if name in visited { return; }
      visited := visited + {name};
      if name !in ix { return; }
      ExpandAll(ix[name].includes);
      AddDomains(name);
    }

    method ExpandAll(names: seq<string>)
      requires Valid()
      modifies this
      ensures Valid()
      ensures var v := Visit(ix, old(visited), names);
        visited == v.seen && finished == old(finished) + v.order
      decreases ix.Keys - visited, 1
    {
      ghost var v := Visited(visited, []);
      for i := 0 to |names|
        invariant Valid() && v == Visit(ix, old(visited), names[..i])
        invariant visited == v.seen && finished == old(finished) + v.order
      {
        VisitSnoc(ix, old(visited), names, i);
        ghost var one := Visit(ix, v.seen, [names[i]]);
        AppendAssoc(old(finished), v.order, one.order);
        ExpandName(names[i]);
        v := Visited(one.seen, v.order + one.order);
      }
      assert names[..|names|] == names;
    }
  }

  // ----- What is visited --------------------------------------------------

  /** Some name of names reaches n. */
  ghost predicate ReachedFrom(ix: Index, names: seq<string>, n: string) {
    exists from :: from in names && Reaches(ix, from, n)
  }

  lemma {:induction false} VisitReached(ix: Index, seen: set<string>, names: seq<string>, n: string)
    requires n in Visit(ix, seen, names).seen && n !in seen
    ensures ReachedFrom(ix, names, n)
    decreases ix.Keys - seen, |names|
  {
    if names != [] {
      var names0, last := names[..|names| - 1], names[|names| - 1];
      var init := Visit(ix, seen, names0);
      if n in init.seen {
        VisitReached(ix, seen, names0, n);
      } else if n == last {
        ReachesSelf(ix, n);
      } else {
        VisitReached(ix, init.seen + {last}, ix[last].includes, n);
        var inc :| inc in ix[last].includes && Reaches(ix, inc, n);
        ReachesInclude(ix, last, inc, n);
      }
    }
  }

  /** What is newly visited and known is finished, and nothing else is. */
  lemma {:induction false} VisitOrder(ix: Index, seen: set<string>, names: seq<string>, n: string)
    ensures var v := Visit(ix, seen, names);
      n in v.order <==> n in v.seen && n !in seen && n in ix
    decreases ix.Keys - seen, |names|
  {
    if names != [] {
      var names0, last := names[..|names| - 1], names[|names| - 1];
      var init := Visit(ix, seen, names0);
      VisitOrder(ix, seen, names0, n);
      if last !in init.seen && last in ix { VisitOrder(ix, init.seen + {last}, ix[last].includes, n); }
    }
  }

  lemma {:induction false} VisitCovers(ix: Index, seen: set<string>, names: seq<string>, k: nat)
    requires k < |names|
    ensures names[k] in Visit(ix, seen, names).seen
    decreases |names|
  {
    var names0 := names[..|names| - 1];
    if k < |names| - 1 { VisitCovers(ix, seen, names0, k); }
  }

  /** Whatever a newly visited preset includes has been visited too. */
  lemma {:induction false} VisitCloses(ix: Index, seen: set<string>, names: seq<string>, n: string, inc: string)
    requires n in Visit(ix, seen, names).seen && n !in seen && n in ix && inc in ix[n].includes
    ensures inc in Visit(ix, seen, names).seen
    decreases ix.Keys - seen, |names|
  {
    if names != [] {
      var names0, last := names[..|names| - 1], names[|names| - 1];
      var init := Visit(ix, seen, names0);
      if n in init.seen {
        VisitCloses(ix, seen, names0, n, inc);
      } else if n == last {
        var k :| 0 <= k < |ix[n].includes| && ix[n].includes[k] == inc;
        VisitCovers(ix, init.seen + {last}, ix[last].includes, k);
      } else {
        VisitCloses(ix, init.seen + {last}, ix[last].includes, n, inc);
      }
    }
  }

  lemma VisitIsClosed(ix: Index, names: seq<string>)
    ensures Closed(ix, Visit(ix, {}, names).seen)
  {
    var v := Visit(ix, {}, names);
    forall n, inc | n in v.seen && n in ix && inc in ix[n].includes ensures inc in v.seen {
      VisitCloses(ix, {}, names, n, inc);
    }
  }

  /** A full visit finishes exactly the known presets reachable from names. */
  lemma VisitIsReachable(ix: Index, names: seq<string>, n: string)
    ensures n in Visit(ix, {}, names).order <==> n in ix && ReachedFrom(ix, names, n)
  {
    var v := Visit(ix, {}, names);
    VisitOrder(ix, {}, names, n);
    VisitIsClosed(ix, names);
    if n in v.seen {
      VisitReached(ix, {}, names, n);
    } else if ReachedFrom(ix, names, n) {
      var from :| from in names && Reaches(ix, from, n);
      var k :| 0 <= k < |names| && names[k] == from;
      VisitCovers(ix, {}, names, k);
      var path :| Path(ix, path) && path[0] == from && path[|path| - 1] == n;
      ClosedKeepsPaths(ix, v.seen, path);
    }
  }

  // ----- In which order ---------------------------------------------------

  /** Names are dealt with in turn: what the first of them lead to is finished first. */
  lemma {:induction false} NamesInTurn(ix: Index, seen: set<string>, names: seq<string>, more: seq<string>)
    ensures Visit(ix, seen, names).order <= Visit(ix, seen, names + more).order
    decreases |more|
  {
    if more == [] {
      assert names + more == names;
    } else {
      var init := more[..|more| - 1];
      NamesInTurn(ix, seen, names, init);
      assert (names + more)[..|names + more| - 1] == names + init;
    }
  }

  /** inc comes before position p of the order. */
  ghost predicate Precedes(order: seq<string>, inc: string, p: nat)
    requires p <= |order|
  {
    inc in order[..p]
  }

  lemma PrefixOf(a: seq<string>, b: seq<string>, c: seq<string>, p: nat, x: string)
    requires p <= |b|
    ensures x in a || x in b[..p] ==> x in (a + b + c)[..|a| + p]
  {
    assert (a + b + c)[..|a| + p] == a + b[..p];
  }

  /** Includes come first: a preset's known include is finished before it, was seen
      before the visit started, or leads back to it. */
  lemma {:induction false} IncludesFirstFrom(ix: Index, seen: set<string>, names: seq<string>, p: nat, inc: string)
    requires var order := Visit(ix, seen, names).order;
      p < |order| && order[p] in ix && inc in ix[order[p]].includes && inc in ix
    ensures var order := Visit(ix, seen, names).order;
      Precedes(order, inc, p) || inc in seen || Reaches(ix, inc, order[p])
    decreases ix.Keys - seen, |names|
  {
    if names != [] {
      var names0, last := names[..|names| - 1], names[|names| - 1];
      var init, order := Visit(ix, seen, names0), Visit(ix, seen, names).order;
      if p < |init.order| {
        assert order[p] == init.order[p] && order[..p] == init.order[..p];
        IncludesFirstFrom(ix, seen, names0, p, inc);
      } else {
        var inner := Visit(ix, init.seen + {last}, ix[last].includes);
        var q := p - |init.order|;
        VisitOrder(ix, seen, names0, inc);
        assert order == init.order + inner.order + [last];
        PrefixOf(init.order, inner.order, [last], q, inc);
        if q < |inner.order| {
          IncludesFirstWithin(ix, init.seen, last, q, inc);
        } else {
          LastFinishes(ix, init.seen, last, inc);
          assert inner.order[..q] == inner.order;
        }
      }
    }
  }

  /** While last is being expanded. */
  lemma IncludesFirstWithin(ix: Index, seen: set<string>, last: string, q: nat, inc: string)
    requires last in ix && last !in seen
    requires var order := Visit(ix, seen + {last}, ix[last].includes).order;
      q < |order| && order[q] in ix && inc in ix[order[q]].includes && inc in ix
    ensures var order := Visit(ix, seen + {last}, ix[last].includes).order;
      Precedes(order, inc, q) || inc in seen || Reaches(ix, inc, order[q])
    decreases ix.Keys - seen, 0
  {
    var inner := Visit(ix, seen + {last}, ix[last].includes);
    IncludesFirstFrom(ix, seen + {last}, ix[last].includes, q, inc);
    if inc == last {
      VisitOrder(ix, seen + {last}, ix[last].includes, inner.order[q]);
      VisitReached(ix, seen + {last}, ix[last].includes, inner.order[q]);
      var from :| from in ix[last].includes && Reaches(ix, from, inner.order[q]);
      ReachesInclude(ix, last, from, inner.order[q]);
    }
  }

  lemma LastFinishes(ix: Index, seen: set<string>, last: string, inc: string)
    requires last in ix && inc in ix[last].includes && inc in ix
    ensures var order := Visit(ix, seen + {last}, ix[last].includes).order;
      inc in order || inc in seen || Reaches(ix, inc, last)
  {
    var k :| 0 <= k < |ix[last].includes| && ix[last].includes[k] == inc;
    VisitCovers(ix, seen + {last}, ix[last].includes, k);
    VisitOrder(ix, seen + {last}, ix[last].includes, inc);
    ReachesSelf(ix, last);
  }

  /** Over a whole expansion: what a preset includes comes before it, unless the two
      are on a cycle of includes. */
  lemma IncludesFirst(ix: Index, names: seq<string>, p: nat, inc: string)
    requires var order := Visit(ix, {}, names).order;
      p < |order| && order[p] in ix && inc in ix[order[p]].includes && inc in ix
    ensures var order := Visit(ix, {}, names).order;
      Precedes(order, inc, p) || Reaches(ix, inc, order[p])
  {
    IncludesFirstFrom(ix, {}, names, p, inc);
  }

  /** The domains of the known presets reachable from names. */
  ghost predicate Wanted(ix: Index, names: seq<string>, d: string) {
    exists n :: n in ix && d in ix[n].domains && ReachedFrom(ix, names, n)
  }

  /** In the registry's own terms: n includes m. */
  ghost predicate Includes(presets: seq<Preset>, n: string, m: string) {
    exists p :: Defines(presets, n, p) && m in p.includes
  }

  /** A chain of includes from one of names to a preset with domain d. */
  ghost predicate ChainTo(presets: seq<Preset>, names: seq<string>, d: string, chain: seq<string>, p: Preset) {
    && chain != [] && chain[0] in names
    && Chain(presets, chain)
    && Defines(presets, chain[|chain| - 1], p) && d in p.domains
  }

  ghost predicate ListedDomain(presets: seq<Preset>, names: seq<string>, d: string) {
    exists chain, p :: ChainTo(presets, names, d, chain, p)
  }

  lemma IncludesIs(presets: seq<Preset>, n: string, m: string)
    ensures Includes(presets, n, m) <==> n in IndexOf(presets) && m in IndexOf(presets)[n].includes
  {
    if p :| Defines(presets, n, p) && m in p.includes { IndexIs(presets, n, p); }
    if n in IndexOf(presets) { IndexIs(presets, n, IndexOf(presets)[n]); }
  }

  ghost predicate Chain(presets: seq<Preset>, chain: seq<string>) {
    forall k :: 0 <= k < |chain| - 1 ==> Includes(presets, chain[k], chain[k + 1])
  }

  lemma ChainIsPath(presets: seq<Preset>, chain: seq<string>)
    requires chain != []
    ensures Chain(presets, chain) <==> Path(IndexOf(presets), chain)
  {
    var ix := IndexOf(presets);
    if Path(ix, chain) {
      forall k | 0 <= k < |chain| - 1 ensures Includes(presets, chain[k], chain[k + 1]) {
        assert chain[k] in ix && chain[k + 1] in ix[chain[k]].includes;
        IncludesIs(presets, chain[k], chain[k + 1]);
      }
    }
    if Chain(presets, chain) {
      forall k | 0 <= k < |chain| - 1 ensures chain[k] in ix && chain[k + 1] in ix[chain[k]].includes {
        assert Includes(presets, chain[k], chain[k + 1]);
        IncludesIs(presets, chain[k], chain[k + 1]);
      }
    }
  }

  lemma WantedIsListed(presets: seq<Preset>, names: seq<string>, d: string)
    ensures Wanted(IndexOf(presets), names, d) <==> ListedDomain(presets, names, d)
  {
    var ix := IndexOf(presets);
    if n :| n in ix && d in ix[n].domains && ReachedFrom(ix, names, n) {
      var from :| from in names && Reaches(ix, from, n);
      var path :| Path(ix, path) && path[0] == from && path[|path| - 1] == n;
      ChainIsPath(presets, path);
      IndexIs(presets, n, ix[n]);
      assert ChainTo(presets, names, d, path, ix[n]);
    }
    if chain, p :| ChainTo(presets, names, d, chain, p) {
      var n := chain[|chain| - 1];
      ChainIsPath(presets, chain);
      IndexIs(presets, n, p);
      assert Reaches(ix, chain[0], n);
    }
  }

  /** Expand terminates on every registry, cyclic or not, and returns without
      duplicates exactly the domains of the known presets reachable from names, in
      the order in which the presets are finished. */
  method Expand(presets: seq<Preset>, names: seq<string>) returns (domains: seq<string>)
    ensures Distinct(domains)
    ensures forall d :: d in domains <==> ListedDomain(presets, names, d)
    ensures domains == Firsts(AllDomains(IndexOf(presets), Visit(IndexOf(presets), {}, names).order))
  {
    var ix := IndexOf(presets);
    var e := new Expander(ix);
    e.ExpandAll(names);
    domains := e.domains;
    ghost var order := Visit(ix, {}, names).order;
    assert e.finished == order;
    FirstsAre(AllDomains(ix, order));
    forall d ensures d in domains <==> ListedDomain(presets, names, d) {
      WantedIsListed(presets, names, d);
      AllDomainsAre(ix, order, d);
      forall n ensures n in order <==> n in ix && ReachedFrom(ix, names, n) { VisitIsReachable(ix, names, n); }
    }
  }

  // ----- Merge ------------------------------------------------------------

  /** dedup: the lists run together, keeping first occurrences only. */
  method Dedup(slices: seq<seq<string>>) returns (result: seq<string>)
    ensures result == Firsts(Flatten(slices))
  {
    var seen: set<string> := {};
    result := [];
    for i := 0 to |slices|
      invariant result == Firsts(Flatten(slices[..i]))
      invariant forall x :: x in seen <==> x in Flatten(slices[..i])
    {
      assert slices[..i + 1] == slices[..i] + [slices[i]];
      FlattenSnoc(slices[..i], slices[i]);
      seen, result := AppendNew(slices[i], seen, result, Flatten(slices[..i]));
    }
    assert slices[..|slices|] == slices;
  }
}
