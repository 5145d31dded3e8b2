/** An option type, and the finite sum that every budget argument is written with. */
module Prelude {

  datatype Option<+T> = None | Some(value: T)

  /** The sum of `f` over the positions of `ids`. */
  function Sum(ids: seq<nat>, f: nat -> nat): (total: nat) {
    if ids == [] then 0 else f(ids[0]) + Sum(ids[1..], f)
  }

  function Min(a: nat, b: nat): nat { if a < b then a else b }
  function Max(a: int, b: int): int { if a < b then b else a }

  predicate Distinct<T(==)>(s: seq<T>) {
    forall i, j :: 0 <= i < j < |s| ==> s[i] != s[j]
  }

  lemma {:induction false} SumSame(ids: seq<nat>, f: nat -> nat, g: nat -> nat)
    requires forall x :: x in ids ==> f(x) == g(x)
    ensures Sum(ids, f) == Sum(ids, g)
  {
    if ids != [] {
      SumSame(ids[1..], f, g);
    }
  }

  lemma {:induction false} SumMono(ids: seq<nat>, f: nat -> nat, g: nat -> nat)
    requires forall x :: x in ids ==> f(x) <= g(x)
    ensures Sum(ids, f) <= Sum(ids, g)
  {
    if ids != [] {
      SumMono(ids[1..], f, g);
    }
  }

  /** Changing one summand changes the sum by exactly the difference. */
  lemma {:induction false} SumDelta(ids: seq<nat>, f: nat -> nat, g: nat -> nat, n: nat)
    requires Distinct(ids) && n in ids
    requires forall x :: x in ids && x != n ==> f(x) == g(x)
    ensures Sum(ids, g) + f(n) == Sum(ids, f) + g(n)
  {
    if ids[0] == n {
      SumSame(ids[1..], f, g);
    } else {
      SumDelta(ids[1..], f, g, n);
    }
  }

  /** Raising the summands only inside `region` by at most one raises the sum by at most its size. */
  lemma {:induction false} SumRegion(ids: seq<nat>, f: nat -> nat, g: nat -> nat, region: set<nat>)
    requires Distinct(ids)
    requires forall x :: x in ids ==> g(x) <= f(x) + (if x in region then 1 else 0)
    ensures Sum(ids, g) <= Sum(ids, f) + |region|
  {
    if ids != [] {
      var rest := region - {ids[0]};
      forall x | x in ids[1..] ensures g(x) <= f(x) + (if x in rest then 1 else 0) {
        var i :| 0 <= i < |ids[1..]| && ids[1..][i] == x;
        assert ids[i + 1] == x;
      }
      SumRegion(ids[1..], f, g, rest);
      if ids[0] in region {
        assert |rest| == |region| - 1;
      } else {
        assert rest == region;
      }
    }
  }

  lemma {:induction false} SumBound(ids: seq<nat>, f: nat -> nat, k: nat)
    requires forall x :: x in ids ==> f(x) <= k
    ensures Sum(ids, f) <= k * |ids|
  {
    if ids != [] {
      SumBound(ids[1..], f, k);
      assert k * |ids| == k * |ids[1..]| + k;
    }
  }

  lemma {:induction false} SumMember(ids: seq<nat>, f: nat -> nat, n: nat)
    requires n in ids
    ensures f(n) <= Sum(ids, f)
  {
    if ids[0] != n {
      SumMember(ids[1..], f, n);
    }
  }

  predicate Increasing(s: seq<nat>) {
    forall i, j :: 0 <= i < j < |s| ==> s[i] < s[j]
  }

  /** The least element. */
  ghost predicate IsMinimum(s: set<nat>, m: nat) {
    m in s && forall x :: x in s ==> m <= x
  }

  method Minimum(s: set<nat>) returns (m: nat)
    requires s != {}
    ensures IsMinimum(s, m)
  {
    m :| m in s;
    var rest := s - {m};
    while rest != {}
      invariant rest <= s && m in s
      invariant forall x :: x in s ==> x in rest || m <= x
      decreases |rest|
    {
      var x :| x in rest;
      rest := rest - {x};
      if x < m { m := x; }
    }
  }

  /** The elements of a set in increasing order. */
  method Sorted(s: set<nat>) returns (q: seq<nat>)
    ensures Increasing(q)
    ensures forall x :: x in q <==> x in s
  {
    q := [];
    var rest := s;
    while rest != {}
      invariant rest <= s
      invariant forall x :: x in q <==> x in s && x !in rest
      invariant Increasing(q)
      invariant forall i, y :: 0 <= i < |q| && y in rest ==> q[i] < y
      decreases |rest|
    {
      var m := Minimum(rest);
      q := q + [m];
      rest := rest - {m};
    }
  }

  lemma {:induction false} Within<T>(a: set<T>, b: set<T>)
    requires a <= b
    ensures |a| <= |b|
  {
    if a != {} {
      var x :| x in a;
      Within(a - {x}, b - {x});
    }
  }
}
