/**
 Trace reconstruction (`aggregate` of observability/main.py): the span forest built from arbitrary parent
 pointers, and the time each module was busy. Instants are integer microseconds.
 */
module Traces {
  import opened Outcomes

  // ---------------------------------------------------------------- the forest

  datatype Span = Span(id: string, parent: Option<string>)

  type Parents = map<string, Option<string>>

  /** by_id.get(parent_span_id) */
  function Up(m: Parents, s: string): (r: Option<string>)
    ensures r.Some? ==> r.value in m
  {
    if s in m && m[s].Some? && m[s].value in m then m[s] else None
  }

  /** The ancestor n steps up, if the chain is that long. */
  function Ancestor(m: Parents, s: string, n: nat): Option<string>
  {
    if n == 0 then Some(s)
    else
      var a := Ancestor(m, s, n - 1);
      if a.Some? then Up(m, a.value) else None
  }

  ghost predicate Endless(m: Parents, s: string)
  {
    forall n: nat :: Ancestor(m, s, n).Some?
  }

  lemma {:induction false} AncestorSum(m: Parents, s: string, j: nat, k: nat)
    requires Ancestor(m, s, j).Some?
    ensures Ancestor(m, s, j + k) == Ancestor(m, Ancestor(m, s, j).value, k)
    decreases k
  {
    if k > 0 { AncestorSum(m, s, j, k - 1); }
  }

  /** A chain that stopped stays stopped. */
  lemma {:induction false} AncestorStops(m: Parents, s: string, n: nat, k: nat)
    requires n <= k && Ancestor(m, s, n).None?
    ensures Ancestor(m, s, k).None?
    decreases k
  {
    if n < k { AncestorStops(m, s, n, k - 1); }
  }

  /** A chain that meets itself never ends. */
  lemma {:induction false} Repeats(m: Parents, s: string, j: nat, k: nat, n: nat)
    requires j < k && Ancestor(m, s, j).Some? && Ancestor(m, s, k) == Ancestor(m, s, j)
    ensures Ancestor(m, s, n).Some?
    decreases n
  {
    if n <= k {
      if Ancestor(m, s, n).None? { AncestorStops(m, s, n, k); }
    } else {
      AncestorSum(m, s, j, n - k);
      AncestorSum(m, s, k, n - k);
      Repeats(m, s, j, k, n - (k - j));
    }
  }

  lemma AncestorSelf(m: Parents, s: string)
    ensures exists k: nat :: k < 1 && Ancestor(m, s, k) == Some(s)
  {
    var k: nat :| k < 1;
    assert Ancestor(m, s, k) == Some(s);
  }

  /** The walk over the ancestors ends on every input, and tells whether the chain does. */
  method Walk(m: Parents, s: string) returns (cycle: bool)
    requires s in m
    ensures cycle <==> Endless(m, s)
  {
    cycle := false;
    var ancestor, visited := Up(m, s), {s};
    ghost var n := 1;
    AncestorSelf(m, s);
    while ancestor.Some?
      invariant n >= 1 && Ancestor(m, s, n) == ancestor
      invariant visited <= m.Keys
      invariant forall x | x in visited :: exists k: nat :: k < n && Ancestor(m, s, k) == Some(x)
      decreases m.Keys - visited
    {
      if ancestor.value in visited {
        ghost var k: nat :| k < n && Ancestor(m, s, k) == ancestor;
        forall i: nat ensures Ancestor(m, s, i).Some? { Repeats(m, s, k, n, i); }
        return true;
      }
      assert Ancestor(m, s, n) == Some(ancestor.value);
      visited := visited + {ancestor.value};
      ancestor := Up(m, ancestor.value);
      n := n + 1;
    }
  }

  datatype Forest = Forest(roots: seq<string>, children: map<string, seq<string>>)

  predicate Unique(spans: seq<Span>)
  {
    forall i, j | 0 <= i < j < |spans| :: spans[i].id != spans[j].id
  }

  function ById(spans: seq<Span>): (m: Parents)
    ensures forall x :: x in m <==> exists k :: 0 <= k < |spans| && spans[k].id == x
  {
    if spans == [] then map[] else
      var rest := ById(spans[..|spans| - 1]);
      assert forall k | 0 <= k < |spans| - 1 :: spans[..|spans| - 1][k] == spans[k];
      rest[spans[|spans| - 1].id := spans[|spans| - 1].parent]
  }

  /** Where a span belongs: under its parent, unless it has none or its chain never ends. */
  ghost function Home(m: Parents, s: string): Option<string>
  {
    if Endless(m, s) then None else Up(m, s)
  }

  /** The spans that belong under `home`, in their order. */
  ghost function Under(m: Parents, spans: seq<Span>, home: Option<string>): seq<string>
  {
    if spans == [] then [] else
      var last := spans[|spans| - 1].id;
      Under(m, spans[..|spans| - 1], home) + (if Home(m, last) == home then [last] else [])
  }

  ghost predicate Linked(m: Parents, spans: seq<Span>, f: Forest)
  {
    && f.children.Keys == m.Keys && f.roots == Under(m, spans, None)
    && forall p | p in m :: f.children[p] == Under(m, spans, Some(p))
  }

  lemma LinkedSnoc(m: Parents, spans: seq<Span>, f: Forest, s: Span)
    requires Linked(m, spans, f) && s.id in m
    ensures Home(m, s.id).None? ==> Linked(m, spans + [s], f.(roots := f.roots + [s.id]))
    ensures Home(m, s.id).Some? ==>
              var p := Home(m, s.id).value;
              p in m && Linked(m, spans + [s], f.(children := f.children[p := f.children[p] + [s.id]]))
  {
    assert (spans + [s])[..|spans|] == spans;
  }

  method Link(spans: seq<Span>) returns (f: Forest)
    requires Unique(spans)  // the keys of a dictionary
    ensures Linked(ById(spans), spans, f)
  {
    var m := ById(spans);
    var roots: seq<string>, children := [], map x | x in m :: [];
    for n := 0 to |spans|
      invariant Linked(m, spans[..n], Forest(roots, children))
    {
      var id := spans[n].id;
      var cycle := Walk(m, id);
      var parent := Up(m, id);
      assert spans[..n + 1] == spans[..n] + [spans[n]];
      LinkedSnoc(m, spans[..n], Forest(roots, children), spans[n]);
      if parent.Some? && !cycle {
        children := children[parent.value := children[parent.value] + [id]];
      } else {
        roots := roots + [id];
      }
    }
    assert spans[..|spans|] == spans;
    f := Forest(roots, children);
  }

  lemma {:induction false} UnderIff(m: Parents, spans: seq<Span>, home: Option<string>, s: string)
    ensures s in Under(m, spans, home) <==> Home(m, s) == home && exists k :: 0 <= k < |spans| && spans[k].id == s
    decreases |spans|
  {
    if spans != [] {
      var front := spans[..|spans| - 1];
      UnderIff(m, front, home, s);
      assert forall k | 0 <= k < |front| :: front[k] == spans[k];
    }
  }

  lemma {:induction false} UnderOnce(m: Parents, spans: seq<Span>, home: Option<string>)
    requires Unique(spans)
    ensures forall i, j | 0 <= i < j < |Under(m, spans, home)| :: Under(m, spans, home)[i] != Under(m, spans, home)[j]
    decreases |spans|
  {
    if spans != [] {
      var front := spans[..|spans| - 1];
      UnderOnce(m, front, home);
      UnderIff(m, front, home, spans[|spans| - 1].id);
      assert forall k | 0 <= k < |front| :: front[k] == spans[k];
    }
  }

  ghost predicate Listed(f: Forest, s: string, home: Option<string>)
  {
    if home.None? then s in f.roots else home.value in f.children && s in f.children[home.value]
  }

  /** Roots and child lists partition the span ids: each id is in exactly one list, and once. */
  lemma Partition(spans: seq<Span>, f: Forest, s: string)
    requires Unique(spans) && Linked(ById(spans), spans, f)
    ensures forall home :: Listed(f, s, home) <==> s in ById(spans) && home == Home(ById(spans), s)
    ensures forall i, j | 0 <= i < j < |f.roots| :: f.roots[i] != f.roots[j]
    ensures forall p, i, j | p in f.children && 0 <= i < j < |f.children[p]| :: f.children[p][i] != f.children[p][j]
  {
    var m := ById(spans);
    forall home ensures Listed(f, s, home) <==> s in m && home == Home(m, s) { UnderIff(m, spans, home, s); }
    UnderOnce(m, spans, None);
    forall p | p in f.children
      ensures forall i, j | 0 <= i < j < |f.children[p]| :: f.children[p][i] != f.children[p][j]
    {
      UnderOnce(m, spans, Some(p));
    }
  }

  /** A way down from a root: each span is a listed child of the one before. */
  ghost predicate Way(f: Forest, w: seq<string>)
  {
    w != [] && w[0] in f.roots && forall i | 0 <= i < |w| - 1 :: Listed(f, w[i + 1], Some(w[i]))
  }

  ghost predicate Leads(f: Forest, w: seq<string>, s: string)
  {
    Way(f, w) && w[|w| - 1] == s
  }

  lemma WayExtended(f: Forest, v: seq<string>, p: string, s: string)
    requires Leads(f, v, p) && Listed(f, s, Some(p))
    ensures Leads(f, v + [s], s)
  {
    var w := v + [s];
    forall i | 0 <= i < |w| - 1 ensures Listed(f, w[i + 1], Some(w[i])) {
      if i < |v| - 1 { assert Listed(f, v[i + 1], Some(v[i])); }
    }
  }

  lemma WayShortened(f: Forest, w: seq<string>, s: string)
    requires Leads(f, w, s)
    ensures if |w| == 1 then Listed(f, s, None)
            else Listed(f, s, Some(w[|w| - 2])) && Leads(f, w[..|w| - 1], w[|w| - 2])
  {
    if |w| > 1 {
      assert Listed(f, w[|w| - 2 + 1], Some(w[|w| - 2]));
    }
  }

  /** Following homes upwards ends; `n` bounds the length of the chain. */
  lemma {:induction false} WayExists(spans: seq<Span>, f: Forest, s: string, n: nat) returns (w: seq<string>)
    requires Unique(spans) && Linked(ById(spans), spans, f) && s in ById(spans)
    requires Home(ById(spans), s).None? || Ancestor(ById(spans), s, n).None?
    ensures Leads(f, w, s)
    decreases n
  {
    var m := ById(spans);
    UnderIff(m, spans, Home(m, s), s);
    assert Listed(f, s, Home(m, s));
    if Home(m, s).None? {
      w := [s];
    } else {
      var p := Home(m, s).value;
      ParentChain(m, s, n);
      var v := WayExists(spans, f, p, n - 1);
      WayExtended(f, v, p, s);
      w := v + [s];
    }
  }

  lemma ParentChain(m: Parents, s: string, n: nat)
    requires Up(m, s).Some? && Ancestor(m, s, n).None?
    ensures n > 0 && Ancestor(m, Up(m, s).value, n - 1).None?
  {
    assert Ancestor(m, s, 0) == Some(s);
    assert Ancestor(m, s, 1) == Up(m, s);
    AncestorSum(m, s, 1, n - 1);
  }

  lemma {:induction false} WayUnique(spans: seq<Span>, f: Forest, v: seq<string>, w: seq<string>, s: string)
    requires Unique(spans) && Linked(ById(spans), spans, f)
    requires Leads(f, v, s) && Leads(f, w, s)
    ensures v == w
    decreases |v|
  {
    Partition(spans, f, s);
    WayShortened(f, v, s);
    WayShortened(f, w, s);
    if |v| > 1 {
      WayUnique(spans, f, v[..|v| - 1], w[..|w| - 1], v[|v| - 2]);
      assert v == v[..|v| - 1] + [s] && w == w[..|w| - 1] + [s];
    }
  }

  /** Every span is reached exactly once from the roots, whatever the parent pointers. */
  lemma ReachedExactlyOnce(spans: seq<Span>, f: Forest, s: string)
    requires Unique(spans) && Linked(ById(spans), spans, f)
    ensures s in ById(spans) <==> exists w :: Leads(f, w, s)
    ensures forall v, w | Leads(f, v, s) && Leads(f, w, s) :: v == w
  {
    var m := ById(spans);
    if s in m {
      var n: nat := 0;
      if !Endless(m, s) { n :| Ancestor(m, s, n).None?; }
      var w := WayExists(spans, f, s, n);
      assert Leads(f, w, s);
    }
    forall w | Leads(f, w, s) ensures s in m {
      Partition(spans, f, s);
      WayShortened(f, w, s);
    }
    forall v, w | Leads(f, v, s) && Leads(f, w, s) ensures v == w { WayUnique(spans, f, v, w, s); }
  }

  // ------------------------------------------------------------- busy intervals

  datatype Event = Event(instant: Option<int>, duration: Option<nat>)

  datatype Range = Range(start: int, end: int)

  function Latest(events: seq<Event>): (r: Option<int>)
    ensures r.Some? ==> exists e :: e in events && e.instant == r
    ensures forall e | e in events && e.instant.Some? :: r.Some? && e.instant.value <= r.value
  {
    if events == [] then None else
      var rest := Latest(events[1..]);
      var d := events[0].instant;
      if d.Some? && (rest.None? || rest.value <= d.value) then d else rest
  }

  function Earliest(events: seq<Event>): (r: Option<int>)
    ensures r.Some? ==>
              exists e :: e in events && e.instant.Some? && e.duration.Some? &&
                e.instant.value - e.duration.value == r.value
    ensures forall e | e in events && e.instant.Some? && e.duration.Some? ::
              r.Some? && r.value <= e.instant.value - e.duration.value
  {
    if events == [] then None else
      var rest := Earliest(events[1..]);
      var e := events[0];
      if e.instant.Some? && e.duration.Some? && (rest.None? || e.instant.value - e.duration.value <= rest.value)
      then Some(e.instant.value - e.duration.value) else rest
  }

  /** The interval of a span: it covers every dated member with a duration, and never runs backwards. */
  function SpanRange(events: seq<Event>): (r: Option<Range>)
    ensures r.Some? <==> exists e :: e in events && e.instant.Some? && e.duration.Some?
    ensures r.Some? ==> r.value.start <= r.value.end
    ensures r.Some? ==> exists e :: e in events && e.instant.Some? && e.duration.Some? &&
                          r.value.start == e.instant.value - e.duration.value
    ensures r.Some? ==> exists e :: e in events && e.instant == Some(r.value.end)
    ensures r.Some? ==> forall e | e in events && e.instant.Some? :: e.instant.value <= r.value.end
    ensures r.Some? ==> forall e | e in events && e.instant.Some? && e.duration.Some? ::
                          r.value.start <= e.instant.value - e.duration.value && e.instant.value <= r.value.end
  {
    if Earliest(events).Some? then Some(Range(Earliest(events).value, Latest(events).value)) else None
  }

  predicate During(t: int, a: int, b: int)
  {
    a <= t < b
  }

  function Block(a: int, b: int): set<int>
  {
    set t | a <= t < b && During(t, a, b)
  }

  lemma {:induction false} BlockSize(a: int, b: int)
    requires a <= b
    ensures |Block(a, b)| == b - a
    decreases b - a
  {
    if a < b {
      BlockSize(a, b - 1);
      assert Block(a, b) == Block(a, b - 1) + {b - 1};
    } else {
      assert Block(a, b) == {};
    }
  }

  /** The instants covered by at least one of the intervals. */
  function Covered(ranges: seq<Range>): set<int>
  {
    if ranges == [] then {} else
      Covered(ranges[..|ranges| - 1]) + Block(ranges[|ranges| - 1].start, ranges[|ranges| - 1].end)
  }

  lemma {:induction false} CoveredIff(ranges: seq<Range>, t: int)
    ensures t in Covered(ranges) <==> exists k :: 0 <= k < |ranges| && During(t, ranges[k].start, ranges[k].end)
    decreases |ranges|
  {
    if ranges != [] {
      var front := ranges[..|ranges| - 1];
      CoveredIff(front, t);
      assert forall k | 0 <= k < |front| :: front[k] == ranges[k];
    }
  }

  predicate Before(a: Range, b: Range)
  {
    a.start < b.start || (a.start == b.start && a.end <= b.end)
  }

  predicate Ascending(ranges: seq<Range>)
  {
    forall i, j | 0 <= i < j < |ranges| :: Before(ranges[i], ranges[j])
  }

  function Insert(r: Range, s: seq<Range>): (t: seq<Range>)
    ensures multiset(t) == multiset(s) + multiset{r}
  {
    if s == [] || Before(r, s[0]) then [r] + s else
      assert s == [s[0]] + s[1..];
      [s[0]] + Insert(r, s[1..])
  }

  lemma {:induction false} InsertAscending(r: Range, s: seq<Range>)
    requires Ascending(s)
    ensures Ascending(Insert(r, s))
  {
    if s != [] && !Before(r, s[0]) {
      var rest := Insert(r, s[1..]);
      InsertAscending(r, s[1..]);
      forall k | 0 <= k < |rest| ensures Before(s[0], rest[k]) {
        assert rest[k] in multiset(rest);
        if rest[k] != r { assert rest[k] in s[1..]; }
      }
    }
  }

  /** sorted(ranges) */
  function Sorted(ranges: seq<Range>): (t: seq<Range>)
    ensures Ascending(t) && multiset(t) == multiset(ranges)
  {
    if ranges == [] then [] else
      assert ranges == [ranges[0]] + ranges[1..];
      InsertAscending(ranges[0], Sorted(ranges[1..]));
      Insert(ranges[0], Sorted(ranges[1..]))
  }

  function Open(current: Option<Range>): set<int>
  {
    if current.Some? then Block(current.value.start, current.value.end) else {}
  }

  /** The closed intervals lie before the open one, and together they cover what was merged so far. */
  ghost predicate Merging(covered: set<int>, closed: set<int>, current: Option<Range>)
  {
    && covered == closed + Open(current)
    && (current.None? ==> closed == {})
    && (current.Some? ==> current.value.start <= current.value.end && forall t | t in closed :: t < current.value.start)
  }

  /** The next interval, in start order, overlaps the open one or follows it. */
  lemma Absorb(covered: set<int>, closed: set<int>, current: Range, r: Range)
    requires Merging(covered, closed, Some(current)) && current.start <= r.start <= r.end
    ensures r.start <= current.end && r.end <= current.end ==>
              Merging(covered + Block(r.start, r.end), closed, Some(current))
    ensures r.start <= current.end < r.end ==>
              Merging(covered + Block(r.start, r.end), closed, Some(Range(current.start, r.end)))
    ensures r.start > current.end ==> Merging(covered + Block(r.start, r.end), closed + Open(Some(current)), Some(r))
  {
    if r.start <= current.end < r.end {
      assert Block(current.start, r.end) == Block(current.start, current.end) + Block(r.start, r.end);
    }
  }

  lemma Closing(closed: set<int>, current: Range)
    requires Merging(closed + Open(Some(current)), closed, Some(current))
    ensures |closed + Open(Some(current))| == |closed| + (current.end - current.start)
  {
    BlockSize(current.start, current.end);
    assert closed !! Open(Some(current));
  }

  /** The loop over the intervals in start order. */
  method MergeSorted(sorted: seq<Range>) returns (total: nat)
    requires Ascending(sorted) && forall i | 0 <= i < |sorted| :: sorted[i].start <= sorted[i].end
    ensures total == |Covered(sorted)|
  {
    total := 0;
    var current: Option<Range> := None;
    ghost var closed: set<int>, covered: set<int> := {}, {};
    for n := 0 to |sorted|
      invariant current.Some? ==> n > 0 && current.value.start <= sorted[n - 1].start
      invariant |closed| == total && Merging(covered, closed, current)
      invariant covered == Covered(sorted[..n])
    {
      var r := sorted[n];
      assert n > 0 ==> Before(sorted[n - 1], r);
      CoveredSnoc(sorted[..n], r);
      assert sorted[..n + 1] == sorted[..n] + [r];
      total, current, closed := MergeStep(total, current, r, covered, closed);
      covered := covered + Block(r.start, r.end);
    }
    assert sorted[..|sorted|] == sorted;
    if current.Some? {
      Closing(closed, current.value);
      total := total + (current.value.end - current.value.start);
    }
  }

  /** One round of the loop: the next interval extends the open one or closes it. */
  method MergeStep(total: nat, current: Option<Range>, r: Range, ghost covered: set<int>, ghost closed: set<int>)
    returns (total': nat, current': Option<Range>, ghost closed': set<int>)
    requires |closed| == total && Merging(covered, closed, current) && r.start <= r.end
    requires current.Some? ==> current.value.start <= r.start
    ensures |closed'| == total' && Merging(covered + Block(r.start, r.end), closed', current')
    ensures current'.Some? && current'.value.start <= r.start
  {
    total', current', closed' := total, current, closed;
    if current.Some? { Absorb(covered, closed, current.value, r); }
    if current.None? || r.start > current.value.end {
      if current.Some? {
        Closing(closed, current.value);
        total', closed' := total + (current.value.end - current.value.start), closed + Open(current);
      }
      current' := Some(r);
    } else if r.end > current.value.end {
      current' := Some(Range(current.value.start, r.end));
    }
  }

  /** The merged duration is the measure of the union, in whatever order and however the intervals overlap. */
  method MergedDuration(ranges: seq<Range>) returns (total: nat)
    requires forall i | 0 <= i < |ranges| :: ranges[i].start <= ranges[i].end
    ensures total == |Covered(ranges)|
  {
    var sorted := Sorted(ranges);
    forall k | 0 <= k < |sorted| ensures sorted[k].start <= sorted[k].end {
      assert sorted[k] in multiset(sorted);
      assert sorted[k] in ranges;
    }
    total := MergeSorted(sorted);
    CoveredPermuted(sorted, ranges);
  }

  lemma CoveredSnoc(s: seq<Range>, r: Range)
    ensures Covered(s + [r]) == Covered(s) + Block(r.start, r.end)
  {
    assert (s + [r])[..|s|] == s;
  }

  lemma CoveredPermuted(a: seq<Range>, b: seq<Range>)
    requires multiset(a) == multiset(b)
    ensures Covered(a) == Covered(b)
  {
    assert forall x :: x in a <==> x in multiset(a);
    assert forall x :: x in b <==> x in multiset(b);
    forall t ensures t in Covered(a) <==> t in Covered(b) {
      CoveredIff(a, t);
      CoveredIff(b, t);
      if t in Covered(a) {
        var k :| 0 <= k < |a| && During(t, a[k].start, a[k].end);
        assert a[k] in b;
      }
      if t in Covered(b) {
        var k :| 0 <= k < |b| && During(t, b[k].start, b[k].end);
        assert b[k] in a;
      }
    }
  }

  /** A span as grouped: the module its members name, if any, and the members. */
  datatype Group = Group(name: Option<string>, events: seq<Event>)

  function RangesOf(groups: seq<Group>, name: string): (rs: seq<Range>)
    ensures forall i | 0 <= i < |rs| :: rs[i].start <= rs[i].end
  {
    if groups == [] then [] else
      var last := groups[|groups| - 1];
      RangesOf(groups[..|groups| - 1], name) +
        (if last.name == Some(name) && SpanRange(last.events).Some? then [SpanRange(last.events).value] else [])
  }

  lemma RangesSnoc(groups: seq<Group>, g: Group, name: string)
    ensures RangesOf(groups + [g], name) ==
            RangesOf(groups, name)
              + (if g.name == Some(name) && SpanRange(g.events).Some? then [SpanRange(g.events).value] else [])
  {
    assert (groups + [g])[..|groups|] == groups;
  }

  ghost predicate Tabulated(intervals: map<string, seq<Range>>, groups: seq<Group>)
  {
    && (forall name :: name in intervals <==> RangesOf(groups, name) != [])
    && (forall name | name in intervals :: intervals[name] == RangesOf(groups, name))
  }

  lemma TabulatedSnoc(intervals: map<string, seq<Range>>, groups: seq<Group>, g: Group)
    requires Tabulated(intervals, groups)
    ensures g.name.None? || SpanRange(g.events).None? ==> Tabulated(intervals, groups + [g])
    ensures g.name.Some? && SpanRange(g.events).Some? ==>
              Tabulated(intervals[g.name.value := RangesOf(groups, g.name.value) + [SpanRange(g.events).value]],
                        groups + [g])
  {
    forall x: string { RangesSnoc(groups, g, x); }
  }

  /** The intervals of each module that has any. */
  method Intervals(groups: seq<Group>) returns (intervals: map<string, seq<Range>>)
    ensures Tabulated(intervals, groups)
  {
    intervals := map[];
    for n := 0 to |groups|
      invariant Tabulated(intervals, groups[..n])
    {
      var name, range := groups[n].name, SpanRange(groups[n].events);
      assert groups[..n + 1] == groups[..n] + [groups[n]];
      TabulatedSnoc(intervals, groups[..n], groups[n]);
      if name.Some? && range.Some? {
        var ranges := if name.value in intervals then intervals[name.value] else [];
        intervals := intervals[name.value := ranges + [range.value]];
      }
    }
    assert groups[..|groups|] == groups;
  }

  /** Each module's busy time is the measure of the union of its spans' intervals. */
  method ModuleTimes(groups: seq<Group>) returns (times: map<string, nat>)
    ensures forall name :: name in times <==> RangesOf(groups, name) != []
    ensures forall name | name in times :: times[name] == |Covered(RangesOf(groups, name))|
  {
    var intervals := Intervals(groups);
    times := map[];
    var names := intervals.Keys;
    while names != {}
      invariant names <= intervals.Keys && times.Keys == intervals.Keys - names
      invariant forall name | name in times :: times[name] == |Covered(intervals[name])|
    {
      var name :| name in names;
      var total := MergedDuration(intervals[name]);
      times, names := times[name := total], names - {name};
    }
  }
}
