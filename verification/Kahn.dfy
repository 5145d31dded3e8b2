/**
 The counting sort of a dependency graph that the workflow validator uses to report CYCLE and the
 schema check uses to report SCHEMA_REFERENCE_CYCLE: it visits every node exactly when there is no cycle.
 */
module Kahn {
  import opened Prelude
  import opened Graph

  function Elements<T>(s: seq<T>): set<T> { set x | x in s }

  /** Every node comes after everything it needs. */
  ghost predicate Ordered<T(!new)>(g: Needs<T>, order: seq<T>) {
    forall i :: 0 <= i < |order| ==> order[i] in g && g[order[i]] <= Elements(order[..i])
  }

  /** When no unvisited node has all its needs visited, walking backwards from one finds a cycle. */
  lemma {:induction false} StuckHasCycle<T(!new)>(g: Needs<T>, done: set<T>, walk: seq<T>)
    requires Closed(g) && forall y :: y in g && g[y] <= done ==> y in done
    requires IsChain(g, walk) && Distinct(walk) && walk[0] !in done
    ensures !Acyclic(g)
    decreases g.Keys - Elements(walk)
  {
    var x :| x in g[walk[0]] && x !in done;
    var longer := [x] + walk;
    assert IsChain(g, longer);
    if x in walk {
      var i :| 0 <= i < |walk| && walk[i] == x;
      ChainRepeats(g, longer, i + 1);
    } else {
      assert Elements(longer) == Elements(walk) + {x};
      StuckHasCycle(g, done, longer);
    }
  }

  lemma ChainRepeats<T(!new)>(g: Needs<T>, p: seq<T>, i: nat)
    requires IsChain(g, p) && 0 < i < |p| && p[i] == p[0]
    ensures !Acyclic(g)
  {
    assert Connects(g, p[..i + 1], p[0], p[0]);
    assert Ancestor(g, p[0], p[0]);
  }

  /** A graph whose nodes can all be listed after their needs has no cycle. */
  lemma OrderedIsAcyclic<T(!new)>(g: Needs<T>, order: seq<T>)
    requires Ordered(g, order) && Distinct(order) && Elements(order) == g.Keys
    ensures Acyclic(g)
  {
    forall n ensures !Ancestor(g, n, n) {
      if p :| Connects(g, p, n, n) {
        var i :| 0 <= i < |order| && order[i] == p[|p| - 1];
        ChainStaysEarlier(g, order, p, i);
        assert false;
      }
    }
  }

  /** Walking a chain backwards from position `i` of the order leads to ever earlier positions. */
  lemma {:induction false} ChainStaysEarlier<T(!new)>(g: Needs<T>, order: seq<T>, p: seq<T>, i: nat)
    requires Ordered(g, order) && IsChain(g, p) && |p| >= 2
    requires i < |order| && order[i] == p[|p| - 1]
    ensures p[0] in order[..i]
    decreases |p|
  {
    var m := p[|p| - 2];
    assert m in Elements(order[..i]);
    var j :| 0 <= j < i && order[j] == m;
    if |p| > 2 {
      ChainStaysEarlier(g, order, p[..|p| - 1], j);
      assert p[..|p| - 1][0] == p[0];
      assert order[..j] <= order[..i];
    }
  }

  /** The nodes that need `x`. */
  function Children<T>(g: Needs<T>, x: T): set<T> { set y | y in g && x in g[y] }

  /** How many of `needs` have not been visited yet. */
  function Left<T>(needs: set<T>, done: set<T>): nat { |needs - done| }

  lemma LeftZero<T>(needs: set<T>, done: set<T>)
    ensures Left(needs, done) == 0 <==> needs <= done
  {
    if needs - done == {} {
      forall x | x in needs ensures x in done { assert x !in needs - done; }
    } else {
      var x :| x in needs - done;
    }
  }

  lemma LeftVisit<T>(needs: set<T>, done: set<T>, x: T)
    requires x !in done
    ensures Left(needs, done) == Left(needs, done + {x}) + (if x in needs then 1 else 0)
  {
    if x in needs {
      assert needs - done == (needs - (done + {x})) + {x};
    } else {
      assert needs - done == needs - (done + {x});
    }
  }

  /** What remains of the needs of every node. */
  ghost function Counts<T>(g: Needs<T>, done: set<T>): (m: map<T, nat>)
    ensures m.Keys == g.Keys
  {
    map y | y in g :: Left(g[y], done)
  }

  lemma CountsVisit<T(!new)>(g: Needs<T>, done: set<T>, x: T)
    requires x !in done
    ensures forall y :: y in g ==>
      Counts(g, done)[y] == Counts(g, done + {x})[y] + (if x in g[y] then 1 else 0)
  {
    forall y | y in g ensures Counts(g, done)[y] == Counts(g, done + {x})[y] + (if x in g[y] then 1 else 0) {
      LeftVisit(g[y], done, x);
    }
  }

  lemma CountsZero<T(!new)>(g: Needs<T>, done: set<T>)
    ensures forall y :: y in g ==> (Counts(g, done)[y] == 0 <==> g[y] <= done)
  {
    forall y | y in g ensures Counts(g, done)[y] == 0 <==> g[y] <= done { LeftZero(g[y], done); }
  }

  /** Decrements the children of one visited node and returns those that became free, in some order. */
  method Visit<T(==,!new)>(kids: set<T>, indegree: map<T, nat>, ghost after: map<T, nat>)
    returns (counts: map<T, nat>, freed: seq<T>)
    requires indegree.Keys == after.Keys >= kids
    requires forall y :: y in after ==> indegree[y] == after[y] + (if y in kids then 1 else 0)
    ensures counts == after
    ensures Distinct(freed)
    ensures forall y :: y in freed <==> y in kids && after[y] == 0
  {
    counts, freed := indegree, [];
    var todo := kids;
    while todo != {}
      invariant todo <= kids && counts.Keys == after.Keys
      invariant forall y :: y in after ==> counts[y] == after[y] + (if y in todo then 1 else 0)
      invariant Distinct(freed)
      invariant forall y :: y in freed <==> y in kids && y !in todo && after[y] == 0
      decreases |todo|
    {
      var y :| y in todo;
      todo := todo - {y};
      counts := counts[y := counts[y] - 1];
      if counts[y] == 0 {
        freed := freed + [y];
      }
    }
  }

  /** `ready` queues, once each, exactly the unvisited nodes whose needs have all been visited. */
  ghost predicate Queued<T(!new)>(g: Needs<T>, done: set<T>, ready: seq<T>) {
    && Distinct(ready)
    && done <= g.Keys
    && (forall y :: y in done ==> y !in ready && g[y] <= done)
    && (forall y :: y in ready <==> y in g && y !in done && g[y] <= done)
  }

  lemma QueuedStep<T(!new)>(g: Needs<T>, done: set<T>, ready: seq<T>, freed: seq<T>)
    requires Queued(g, done, ready) && ready != [] && Distinct(freed)
    requires forall y :: y in freed <==> y in Children(g, ready[0]) && g[y] <= done + {ready[0]}
    ensures ready[0] in g && ready[0] !in done && Queued(g, done + {ready[0]}, ready[1..] + freed)
  {
    var x := ready[0];
    assert x in ready;
    forall y | y in ready[1..] ensures y in ready && y != x {
      var i :| 0 <= i < |ready[1..]| && ready[1..][i] == y;
      assert ready[i + 1] == y;
    }
    assert x !in g[x];
    assert forall y :: y in ready <==> y == x || y in ready[1..];
    var rest := ready[1..];
    assert Distinct(rest);
    forall i, j | 0 <= i < j < |rest + freed| ensures (rest + freed)[i] != (rest + freed)[j] {
      if i < |rest| <= j {
        assert rest[i] in rest && freed[j - |rest|] in freed;
      }
    }
  }

  /** Takes the head of the queue: decrements its children and queues the ones that became free. */
  method VisitHead<T(==,!new)>(g: Needs<T>, indegree: map<T, nat>, ghost done: set<T>, ready: seq<T>)
    returns (counts: map<T, nat>, freed: seq<T>)
    requires indegree == Counts(g, done) && Queued(g, done, ready) && ready != []
    ensures counts == Counts(g, done + {ready[0]})
    ensures ready[0] in g && ready[0] !in done && g[ready[0]] <= done
    ensures Queued(g, done + {ready[0]}, ready[1..] + freed)
  {
    var source := ready[0];
    assert source in ready;
    ghost var next := Counts(g, done + {source});
    CountsVisit(g, done, source);
    CountsZero(g, done + {source});
    counts, freed := Visit(Children(g, source), indegree, next);
    QueuedStep(g, done, ready, freed);
  }

  lemma OrderedStep<T(!new)>(g: Needs<T>, visited: seq<T>, x: T)
    requires Ordered(g, visited) && x in g && g[x] <= Elements(visited)
    ensures Ordered(g, visited + [x]) && Elements(visited + [x]) == Elements(visited) + {x}
  {
    var longer := visited + [x];
    assert longer[..|visited|] == visited;
    assert forall i :: 0 <= i < |visited| ==> longer[..i] == visited[..i];
  }

  lemma DistinctStep<T>(s: seq<T>, x: T)
    requires Distinct(s) && x !in Elements(s)
    ensures Distinct(s + [x])
  {
    assert forall i :: 0 <= i < |s| ==> s[i] in Elements(s);
  }

  lemma InitialCounts<T(!new)>(g: Needs<T>)
    ensures Counts(g, {}) == map n | n in g :: |g[n]|
  {
    forall y | y in g ensures Counts(g, {})[y] == |g[y]| { LeftAll(g[y]); }
  }

  lemma LeftAll<T>(needs: set<T>)
    ensures Left(needs, {}) == |needs|
  {
    assert needs - {} == needs;
  }

  lemma InitialQueue<T(!new)>(g: Needs<T>, ready: seq<T>)
    requires Distinct(ready) && forall n :: n in ready <==> n in g && |g[n]| == 0
    ensures Queued(g, {}, ready)
  {
    forall y | y in g ensures |g[y]| == 0 <==> g[y] <= {} { }
  }

  /** The whole sort: `visited` covers the graph exactly when the graph has no cycle. */
  method Sort<T(==,!new)>(g: Needs<T>) returns (visited: seq<T>)
    requires Closed(g)
    ensures Distinct(visited) && Elements(visited) <= g.Keys
    ensures Ordered(g, visited)
    ensures |visited| == |g| <==> Acyclic(g)
  {
    var indegree: map<T, nat> := map n | n in g :: |g[n]|;
    var ready := Listing(set n | n in g && indegree[n] == 0);
    visited := [];
    ghost var done: set<T> := {};
    InitialCounts(g);
    InitialQueue(g, ready);
    while ready != []
      invariant done == Elements(visited) && Distinct(visited) && Ordered(g, visited)
      invariant indegree == Counts(g, done)
      invariant Queued(g, done, ready)
      decreases g.Keys - done
    {
      var source := ready[0];
      var freed;
      indegree, freed := VisitHead(g, indegree, done, ready);
      OrderedStep(g, visited, source);
      DistinctStep(visited, source);
      visited, ready, done := visited + [source], ready[1..] + freed, done + {source};
    }
    Verdict(g, visited);
  }

  lemma Verdict<T(!new)>(g: Needs<T>, visited: seq<T>)
    requires Closed(g) && Distinct(visited) && Ordered(g, visited)
    requires Queued(g, Elements(visited), [])
    ensures |visited| == |g| <==> Acyclic(g)
  {
    SizesAgree(visited, g.Keys);
    if Elements(visited) == g.Keys {
      OrderedIsAcyclic(g, visited);
    } else {
      var y :| y in g.Keys && y !in Elements(visited);
      StuckHasCycle(g, Elements(visited), [y]);
    }
  }

  lemma {:induction false} DistinctSize<T>(s: seq<T>)
    requires Distinct(s)
    ensures |Elements(s)| == |s|
  {
    if s != [] {
      var init := s[..|s| - 1];
      DistinctSize(init);
      ElementsGrow(s);
      LastIsNew(s);
    }
  }

  lemma ElementsGrow<T>(s: seq<T>)
    requires s != []
    ensures Elements(s) == Elements(s[..|s| - 1]) + {s[|s| - 1]}
  {
    forall x ensures x in Elements(s) <==> x in Elements(s[..|s| - 1]) + {s[|s| - 1]} {
    }
  }

  lemma LastIsNew<T>(s: seq<T>)
    requires s != [] && Distinct(s)
    ensures s[|s| - 1] !in Elements(s[..|s| - 1])
  {
  }

  /** A repetition-free listing of part of `all` is complete exactly when the sizes agree. */
  lemma SizesAgree<T>(s: seq<T>, all: set<T>)
    requires Distinct(s) && Elements(s) <= all
    ensures |s| == |all| <==> Elements(s) == all
  {
    DistinctSize(s);
    assert all == Elements(s) + (all - Elements(s));
    if |s| == |all| {
      assert |all - Elements(s)| == 0;
    }
  }
}
