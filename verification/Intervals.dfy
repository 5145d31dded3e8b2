/**
 The two interval sweeps: `_union_seconds`, which clamps inverted intervals first, and the one in
 `status_projection`, which does not.  Time is counted in whole cells.
 */
module Intervals {
  import opened Prelude

  datatype Interval = Interval(start: int, finish: int)

  /** The cells of time one interval covers; an inverted interval covers none. */
  function Span(a: int, b: int): set<int> { set t | a <= t < b && Inside(a, t, b) }

  predicate Inside(a: int, t: int, b: int) { a <= t < b }

  /** The cells a list of intervals covers. */
  function Cells(xs: seq<Interval>): set<int> {
    if xs == [] then {} else Span(xs[0].start, xs[0].finish) + Cells(xs[1..])
  }

  function Length(a: int, b: int): nat { if a < b then b - a else 0 }

  /** The lengths of the intervals, counting shared time every time. */
  function Total(xs: seq<Interval>): nat {
    if xs == [] then 0 else Length(xs[0].start, xs[0].finish) + Total(xs[1..])
  }

  lemma {:induction false} SpanSize(a: int, b: int)
    ensures |Span(a, b)| == Length(a, b)
    decreases b - a
  {
    if a < b {
      SpanSize(a + 1, b);
      assert Span(a, b) == {a} + Span(a + 1, b);
    } else {
      assert Span(a, b) == {};
    }
  }

  lemma {:induction false} CellsAre(xs: seq<Interval>, t: int)
    ensures t in Cells(xs) <==> exists x :: x in xs && x.start <= t < x.finish
  {
    if xs != [] {
      CellsAre(xs[1..], t);
      assert forall x :: x in xs <==> x == xs[0] || x in xs[1..];
    }
  }

  /** What is covered depends on which intervals there are, not on their order. */
  lemma OrderIsIrrelevant(xs: seq<Interval>, ys: seq<Interval>)
    requires multiset(xs) == multiset(ys)
    ensures Cells(xs) == Cells(ys)
  {
    forall x ensures x in xs <==> x in ys {
      assert x in multiset(xs) <==> x in multiset(ys);
    }
    forall t ensures t in Cells(xs) <==> t in Cells(ys) {
      CellsAre(xs, t);
      CellsAre(ys, t);
    }
  }

  lemma Overlapping<T>(a: set<T>, b: set<T>)
    ensures |a + b| + |a * b| == |a| + |b|
  {
  }

  predicate Disjoint(x: Interval, y: Interval) { Span(x.start, x.finish) * Span(y.start, y.finish) == {} }

  predicate PairwiseDisjoint(xs: seq<Interval>) { forall i, j :: 0 <= i < j < |xs| ==> Disjoint(xs[i], xs[j]) }

  /** Shared time is never negative, and there is none exactly when no two intervals share a cell. */
  lemma {:induction false} SharedTime(xs: seq<Interval>)
    ensures |Cells(xs)| <= Total(xs)
    ensures |Cells(xs)| == Total(xs) <==> PairwiseDisjoint(xs)
  {
    if xs != [] {
      var first, rest := Span(xs[0].start, xs[0].finish), Cells(xs[1..]);
      SharedTime(xs[1..]);
      SpanSize(xs[0].start, xs[0].finish);
      Overlapping(first, rest);
      if first * rest == {} {
        forall j | 0 < j < |xs| ensures Disjoint(xs[0], xs[j]) {
          assert xs[1..][j - 1] == xs[j];
          forall t | t in Span(xs[j].start, xs[j].finish) ensures t in rest { CellsAre(xs[1..], t); }
        }
        forall i, j | 0 <= i < j < |xs| && PairwiseDisjoint(xs[1..]) ensures Disjoint(xs[i], xs[j]) {
          if i > 0 { assert xs[1..][i - 1] == xs[i] && xs[1..][j - 1] == xs[j]; }
        }
        if PairwiseDisjoint(xs) {
          TailDisjoint(xs);
        }
      } else {
        var t :| t in first * rest;
        CellsAre(xs[1..], t);
        var x :| x in xs[1..] && x.start <= t < x.finish;
        var j :| 0 <= j < |xs[1..]| && xs[1..][j] == x;
        assert xs[j + 1] == x && t in Span(xs[0].start, xs[0].finish) * Span(x.start, x.finish);
        assert !Disjoint(xs[0], xs[j + 1]);
      }
    }
  }

  lemma TailDisjoint(xs: seq<Interval>)
    requires xs != [] && PairwiseDisjoint(xs)
    ensures PairwiseDisjoint(xs[1..])
  {
  }

  // ---------------------------------------------------------------- sorting

  predicate Before(x: Interval, y: Interval) { x.start < y.start || (x.start == y.start && x.finish <= y.finish) }

  predicate Ordered(xs: seq<Interval>) { forall i, j :: 0 <= i < j < |xs| ==> Before(xs[i], xs[j]) }

  function Insert(x: Interval, xs: seq<Interval>): seq<Interval> {
    if xs == [] || Before(x, xs[0]) then [x] + xs else [xs[0]] + Insert(x, xs[1..])
  }

  function Sort(xs: seq<Interval>): seq<Interval> {
    if xs == [] then [] else Insert(xs[0], Sort(xs[1..]))
  }

  lemma {:induction false} InsertSorts(x: Interval, xs: seq<Interval>)
    requires Ordered(xs)
    ensures Ordered(Insert(x, xs)) && multiset(Insert(x, xs)) == multiset(xs) + multiset{x}
  {
    if xs != [] && !Before(x, xs[0]) {
      InsertSorts(x, xs[1..]);
      assert xs == [xs[0]] + xs[1..];
      var tail := Insert(x, xs[1..]);
      forall y | y in tail ensures Before(xs[0], y) {
        assert y in multiset(tail);
        assert y in xs[1..] || y == x;
      }
    } else {
      assert [x] + xs == Insert(x, xs);
      forall j | 0 <= j < |xs| ensures Before(x, xs[j]) {
        if j > 0 { assert Before(xs[0], xs[j]); }
      }
    }
  }

  lemma {:induction false} SortSorts(xs: seq<Interval>)
    ensures Ordered(Sort(xs)) && multiset(Sort(xs)) == multiset(xs)
  {
    if xs != [] {
      SortSorts(xs[1..]);
      InsertSorts(xs[0], Sort(xs[1..]));
      assert xs == [xs[0]] + xs[1..];
    }
  }

  // ---------------------------------------------------------------- the sweeps

  /** The sweep has covered `xs`: `total` cells before `begin`, and the open interval. */
  ghost predicate Swept(xs: seq<Interval>, behind: set<int>, total: nat, begin: int, end: int) {
    && Cells(xs) == behind + Span(begin, end) && |behind| == total
    && forall t :: t in behind ==> t < begin
  }

  lemma SweptSize(xs: seq<Interval>, behind: set<int>, total: nat, begin: int, end: int)
    requires Swept(xs, behind, total, begin, end)
    ensures |Cells(xs)| == total + Length(begin, end)
  {
    SpanSize(begin, end);
    assert behind * Span(begin, end) == {};
    Overlapping(behind, Span(begin, end));
  }

  lemma {:induction false} CellsAppend(xs: seq<Interval>, x: Interval)
    ensures Cells(xs + [x]) == Cells(xs) + Span(x.start, x.finish)
  {
    if xs == [] {
      assert xs + [x] == [x];
    } else {
      CellsAppend(xs[1..], x);
      assert (xs + [x])[1..] == xs[1..] + [x];
    }
  }

  /** The next interval starts beyond the open one, which is closed. */
  lemma SweepGap(xs: seq<Interval>, behind: set<int>, total: nat, begin: int, end: int, x: Interval)
    requires Swept(xs, behind, total, begin, end) && end < x.start && begin <= x.start
    ensures Swept(xs + [x], behind + Span(begin, end), total + Length(begin, end), x.start, x.finish)
  {
    CellsAppend(xs, x);
    SweptSize(xs, behind, total, begin, end);
  }

  lemma SpansJoin(a: int, b: int, c: int, d: int)
    requires a <= c <= b
    ensures Span(a, Max(b, d)) == Span(a, b) + Span(c, d)
  {
  }

  /** The next interval starts within the open one, which is extended. */
  lemma SweepOn(xs: seq<Interval>, behind: set<int>, total: nat, begin: int, end: int, x: Interval)
    requires Swept(xs, behind, total, begin, end) && begin <= x.start <= end
    ensures Swept(xs + [x], behind, total, begin, Max(end, x.finish))
  {
    CellsAppend(xs, x);
    SpansJoin(begin, end, x.start, x.finish);
    assert Cells(xs + [x]) == behind + (Span(begin, end) + Span(x.start, x.finish));
  }

  /** The open interval after the next one, and what lies behind it. */
  ghost function Behind(behind: set<int>, begin: int, end: int, x: Interval): set<int> {
    if x.start > end then behind + Span(begin, end) else behind
  }

  /** One step of a sweep over intervals in order of their starts. */
  lemma SweepNext(ordered: seq<Interval>, i: nat, behind: set<int>, total: nat, begin: int, end: int)
    requires 1 <= i < |ordered| && Ordered(ordered) && begin <= ordered[i - 1].start
    requires Swept(ordered[..i], behind, total, begin, end)
    ensures var x := ordered[i];
      if x.start > end then Swept(ordered[..i + 1], Behind(behind, begin, end, x), total + Length(begin, end), x.start, x.finish)
      else Swept(ordered[..i + 1], Behind(behind, begin, end, x), total, begin, Max(end, x.finish))
    ensures begin <= ordered[i].start
  {
    var x := ordered[i];
    assert Before(ordered[i - 1], x) && ordered[..i + 1] == ordered[..i] + [x];
    if x.start > end {
      SweepGap(ordered[..i], behind, total, begin, end, x);
    } else {
      SweepOn(ordered[..i], behind, total, begin, end, x);
    }
  }

  lemma SweepFirst(ordered: seq<Interval>)
    requires ordered != []
    ensures Swept(ordered[..1], {}, 0, ordered[0].start, ordered[0].finish)
  {
    assert ordered[..1] == [ordered[0]];
  }

  lemma SweepLast(ordered: seq<Interval>, behind: set<int>, total: nat, begin: int, end: int)
    requires Swept(ordered[..|ordered|], behind, total, begin, end)
    ensures |Cells(ordered)| == total + Length(begin, end)
  {
    assert ordered[..|ordered|] == ordered;
    SweptSize(ordered, behind, total, begin, end);
  }

  function Clamped(xs: seq<Interval>): (ys: seq<Interval>)
    ensures |ys| == |xs| && forall i :: 0 <= i < |xs| ==> ys[i] == Interval(xs[i].start, Max(xs[i].start, xs[i].finish))
  {
    if xs == [] then [] else [Interval(xs[0].start, Max(xs[0].start, xs[0].finish))] + Clamped(xs[1..])
  }

  lemma {:induction false} ClampingCoversTheSame(xs: seq<Interval>)
    ensures Cells(Clamped(xs)) == Cells(xs)
  {
    if xs != [] {
      ClampingCoversTheSame(xs[1..]);
      assert Clamped(xs)[1..] == Clamped(xs[1..]);
    }
  }

  lemma SortedClamped(xs: seq<Interval>)
    ensures var ys := Sort(Clamped(xs));
      Ordered(ys) && |Cells(ys)| == |Cells(xs)| && (ys == [] ==> xs == []) && forall i :: 0 <= i < |ys| ==> ys[i].start <= ys[i].finish
  {
    var ys := Sort(Clamped(xs));
    SortSorts(Clamped(xs));
    OrderIsIrrelevant(ys, Clamped(xs));
    ClampingCoversTheSame(xs);
    forall i | 0 <= i < |ys| ensures ys[i].start <= ys[i].finish {
      assert ys[i] in multiset(ys);
      assert ys[i] in Clamped(xs);
    }
    if ys == [] { assert |multiset(ys)| == |multiset(Clamped(xs))|; }
  }

  /** `_union_seconds`: the measure of the union, for every input. */
  method UnionSeconds(intervals: seq<Interval>) returns (seconds: int)
    ensures seconds == |Cells(intervals)|
  {
    var ordered := Sort(Clamped(intervals));
    SortedClamped(intervals);
    if ordered == [] { return 0; }
    var total, begin, end := 0, ordered[0].start, ordered[0].finish;
    ghost var behind: set<int> := {};
    SweepFirst(ordered);
    for i := 1 to |ordered|
      invariant total >= 0 && Swept(ordered[..i], behind, total, begin, end)
      invariant begin <= ordered[i - 1].start && begin <= end
    {
      SweepNext(ordered, i, behind, total, begin, end);
      var next := ordered[i];
      behind := Behind(behind, begin, end, next);
      if next.start > end {
        total := total + (end - begin);
        begin, end := next.start, next.finish;
      } else {
        end := Max(end, next.finish);
      }
    }
    SweepLast(ordered, behind, total, begin, end);
    return total + end - begin;
  }

  /** The sweep of `status_projection`, which meets inverted intervals as they are. */
  method SweepRaw(ordered: seq<Interval>) returns (union: int)
    requires Ordered(ordered)
    ensures union == |Cells(ordered)|
  {
    union := 0;
    if ordered == [] { return; }
    var begin, end := ordered[0].start, ordered[0].finish;
    ghost var behind: set<int> := {};
    SweepFirst(ordered);
    for i := 1 to |ordered|
      invariant union >= 0 && Swept(ordered[..i], behind, union, begin, end)
      invariant begin <= ordered[i - 1].start
    {
      SweepNext(ordered, i, behind, union, begin, end);
      var next := ordered[i];
      behind := Behind(behind, begin, end, next);
      if next.start > end {
        union := union + Max(0, end - begin);
        begin, end := next.start, next.finish;
      } else {
        end := Max(end, next.finish);
      }
    }
    SweepLast(ordered, behind, union, begin, end);
    union := union + Max(0, end - begin);
  }

  /**
   The overlap in `status_projection`.  Its sweep agrees with the measure on inverted intervals too; the overlap
   is never negative, and zero exactly when no time was shared.
   */
  method UsefulOverlap(intervals: seq<Interval>) returns (overlap: int)
    ensures overlap == Total(intervals) - |Cells(intervals)| && overlap >= 0
    ensures overlap == 0 <==> PairwiseDisjoint(intervals)
  {
    var ordered := Sort(intervals);
    SortSorts(intervals);
    OrderIsIrrelevant(ordered, intervals);
    TotalIsOrderless(intervals);
    SharedTime(intervals);
    var total := 0;
    for i := 0 to |ordered|
      invariant total + Total(ordered[i..]) == Total(ordered)
    {
      assert ordered[i..][1..] == ordered[i + 1..];
      total := total + Max(0, ordered[i].finish - ordered[i].start);
    }
    var union := SweepRaw(ordered);
    overlap := Max(0, total - union);
  }

  lemma {:induction false} InsertTotals(x: Interval, xs: seq<Interval>)
    ensures Total(Insert(x, xs)) == Length(x.start, x.finish) + Total(xs)
  {
    if xs != [] && !Before(x, xs[0]) {
      InsertTotals(x, xs[1..]);
      assert Insert(x, xs)[1..] == Insert(x, xs[1..]);
    } else {
      assert Insert(x, xs)[1..] == xs;
    }
  }

  lemma {:induction false} TotalIsOrderless(xs: seq<Interval>)
    ensures Total(Sort(xs)) == Total(xs)
  {
    if xs != [] {
      TotalIsOrderless(xs[1..]);
      InsertTotals(xs[0], Sort(xs[1..]));
    }
  }
}
