/**
 Dependency graphs: every node maps to the set of nodes it needs.  Chains, ancestors and acyclicity
 are defined here once; the validator, the runtime and the topology analysis all refer to them.
 */
module Graph {
  import opened Prelude

  type Needs<T> = map<T, set<T>>

  /** Every dependency is itself a declared node. */
  ghost predicate Closed<T(!new)>(g: Needs<T>) {
    forall n :: n in g ==> g[n] <= g.Keys
  }

  /** `p` walks along edges: each element is needed by the one after it. */
  ghost predicate IsChain<T(!new)>(g: Needs<T>, p: seq<T>) {
    && |p| >= 1
    && (forall i :: 0 <= i < |p| ==> p[i] in g)
    && (forall i :: 0 < i < |p| ==> p[i - 1] in g[p[i]])
  }

  ghost predicate ChainTo<T(!new)>(g: Needs<T>, p: seq<T>, n: T) {
    IsChain(g, p) && p[|p| - 1] == n
  }

  ghost predicate Connects<T(!new)>(g: Needs<T>, p: seq<T>, a: T, n: T) {
    |p| >= 2 && ChainTo(g, p, n) && p[0] == a
  }

  /** `n` transitively needs `a`. */
  ghost predicate Ancestor<T(!new)>(g: Needs<T>, a: T, n: T) {
    exists p :: Connects(g, p, a, n)
  }

  /** No node transitively needs itself. */
  ghost predicate Acyclic<T(!new)>(g: Needs<T>) {
    forall n :: !Ancestor(g, n, n)
  }

  /** A rank that rises along every edge rules cycles out. */
  lemma RankedIsAcyclic<T(!new)>(g: Needs<T>, rank: T -> nat)
    requires forall n, d :: n in g && d in g[n] ==> rank(d) < rank(n)
    ensures Acyclic(g)
  {
    if n :| Ancestor(g, n, n) {
      var p :| Connects(g, p, n, n);
      RankRises(g, rank, p);
    }
  }

  lemma AncestorsRankLower<T(!new)>(g: Needs<T>, rank: T -> nat, a: T, n: T)
    requires forall n, d :: n in g && d in g[n] ==> rank(d) < rank(n)
    requires Ancestor(g, a, n)
    ensures rank(a) < rank(n)
  {
    var p :| Connects(g, p, a, n);
    RankRises(g, rank, p);
  }

  lemma {:induction false} RankRises<T(!new)>(g: Needs<T>, rank: T -> nat, p: seq<T>)
    requires forall n, d :: n in g && d in g[n] ==> rank(d) < rank(n)
    requires IsChain(g, p)
    ensures rank(p[0]) + |p| - 1 <= rank(p[|p| - 1])
    decreases |p|
  {
    if |p| > 1 {
      var init := p[..|p| - 1];
      assert IsChain(g, init) && init[|init| - 1] in g[p[|p| - 1]];
      RankRises(g, rank, init);
    }
  }

  lemma ParentIsAncestor<T(!new)>(g: Needs<T>, a: T, n: T)
    requires Closed(g) && n in g && a in g[n]
    ensures Ancestor(g, a, n)
  {
    assert Connects(g, [a, n], a, n);
  }

  lemma AncestorTransitive<T(!new)>(g: Needs<T>, a: T, b: T, c: T)
    requires Ancestor(g, a, b) && Ancestor(g, b, c)
    ensures Ancestor(g, a, c)
  {
    var p :| Connects(g, p, a, b);
    var q :| Connects(g, q, b, c);
    var r := p + q[1..];
    forall i | 0 < i < |r| ensures r[i - 1] in g[r[i]] {
      if i < |p| {
      } else if i == |p| {
        assert r[i - 1] == q[0] && r[i] == q[1];
      } else {
        assert r[i - 1] == q[i - |p|] && r[i] == q[i - |p| + 1];
      }
    }
    assert Connects(g, r, a, c);
  }

  /** A set that contains the direct needs of `n` and is closed under needs contains every ancestor. */
  lemma {:induction false} ClosedSetHoldsAncestors<T(!new)>(g: Needs<T>, s: set<T>, n: T, p: seq<T>, a: T)
    requires n in g && g[n] <= s
    requires forall x :: x in s && x in g ==> g[x] <= s
    requires Connects(g, p, a, n)
    ensures a in s
    decreases |p|
  {
    var m := p[|p| - 2];
    assert p[|p| - 1] == n && m in g[n];
    if |p| > 2 {
      assert Connects(g, p[..|p| - 1], a, m);
      ClosedSetHoldsAncestors(g, s, m, p[..|p| - 1], a);
    }
  }

  /** Some listing of a set, as iterating over it yields one. */
  method Listing<T(==)>(s: set<T>) returns (q: seq<T>)
    ensures forall x :: x in q <==> x in s
    ensures Distinct(q)
  {
    q := [];
    var rest := s;
    while rest != {}
      invariant rest <= s
      invariant forall x :: x in q <==> x in s && x !in rest
      invariant forall i :: 0 <= i < |q| ==> q[i] !in rest
      invariant Distinct(q)
      decreases |rest|
    {
      var x :| x in rest;
      q := q + [x];
      rest := rest - {x};
    }
  }

  /**
   The worklist that the validator, the runtime and the topology analysis each write out: it returns
   exactly the transitive needs of `n`, on cyclic graphs too.
   */
  method Ancestors<T(==,!new)>(g: Needs<T>, n: T) returns (found: set<T>)
    requires Closed(g) && n in g
    ensures found <= g.Keys
    ensures forall a :: a in found <==> Ancestor(g, a, n)
  {
    found := {};
    var pending := Listing(g[n]);
    forall x | x in pending ensures x in g && Ancestor(g, x, n) { ParentIsAncestor(g, x, n); }
    while pending != []
      invariant found <= g.Keys
      invariant forall x :: x in pending ==> x in g && Ancestor(g, x, n)
      invariant forall a :: a in found ==> Ancestor(g, a, n)
      invariant forall x :: x in g[n] ==> x in found || x in pending
      invariant forall a, x :: a in found && x in g[a] ==> x in found || x in pending
      decreases g.Keys - found, |pending|
    {
      var current := pending[|pending| - 1];
      ghost var before := pending;
      pending := pending[..|pending| - 1];
      assert forall x :: x in before <==> x in pending || x == current;
      if current !in found {
        found := found + {current};
        var more := Listing(g[current]);
        forall x | x in more ensures x in g && Ancestor(g, x, n) {
          ParentIsAncestor(g, x, current);
          AncestorTransitive(g, x, current, n);
        }
        pending := pending + more;
      }
    }
    forall a | Ancestor(g, a, n) ensures a in found {
      var p :| Connects(g, p, a, n);
      ClosedSetHoldsAncestors(g, found, n, p, a);
    }
  }
}
