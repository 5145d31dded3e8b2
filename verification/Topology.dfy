/**
 The topology analysis: ready layers and the critical path of a dependency graph
 (`analyze_topology`).  Node ids are ranks in the sorted order of the workflow's ids, so tuple
 comparison of paths is the lexicographic order below.
 */
module Topology {
  import opened Prelude
  import opened Graph
  import opened Kahn

  /** Tuple comparison. */
  predicate LexLe(p: seq<nat>, q: seq<nat>) {
    p == [] || (q != [] && (p[0] < q[0] || (p[0] == q[0] && LexLe(p[1..], q[1..]))))
  }

  /** `min(..., key=lambda path: (-len(path), path))` prefers `p` to `q`, or does not tell them apart. */
  predicate Better(p: seq<nat>, q: seq<nat>) {
    |p| > |q| || (|p| == |q| && LexLe(p, q))
  }

  lemma {:induction false} LexTotal(p: seq<nat>, q: seq<nat>)
    ensures LexLe(p, q) || LexLe(q, p)
    ensures LexLe(p, q) && LexLe(q, p) ==> p == q
  {
    if p != [] && q != [] {
      LexTotal(p[1..], q[1..]);
      assert p == [p[0]] + p[1..] && q == [q[0]] + q[1..];
    }
  }

  lemma {:induction false} LexTransitive(p: seq<nat>, q: seq<nat>, r: seq<nat>)
    requires LexLe(p, q) && LexLe(q, r)
    ensures LexLe(p, r)
  {
    if p != [] && q != [] && r != [] {
      if p[0] == q[0] == r[0] {
        LexTransitive(p[1..], q[1..], r[1..]);
      }
    }
  }

  lemma {:induction false} LexAppend(p: seq<nat>, q: seq<nat>, x: nat)
    requires |p| == |q| && LexLe(p, q)
    ensures LexLe(p + [x], q + [x])
  {
    if p != [] {
      assert (p + [x])[1..] == p[1..] + [x] && (q + [x])[1..] == q[1..] + [x];
      if p[0] == q[0] {
        LexAppend(p[1..], q[1..], x);
      }
    }
  }

  lemma BetterTransitive(p: seq<nat>, q: seq<nat>, r: seq<nat>)
    requires Better(p, q) && Better(q, r)
    ensures Better(p, r)
  {
    if |p| == |q| == |r| {
      LexTransitive(p, q, r);
    }
  }

  lemma BetterTotal(p: seq<nat>, q: seq<nat>)
    ensures Better(p, q) || Better(q, p)
    ensures Better(p, q) && Better(q, p) ==> p == q
  {
    LexTotal(p, q);
  }

  /** `p` is a chain to `n`; none is longer, and none as long precedes it. */
  ghost predicate BestTo(g: Needs<nat>, p: seq<nat>, n: nat) {
    ChainTo(g, p, n) && forall q :: ChainTo(g, q, n) ==> Better(p, q)
  }

  /** No chain to `n` has more than `k` nodes. */
  ghost predicate Shallow(g: Needs<nat>, n: nat, k: nat) {
    forall p :: ChainTo(g, p, n) ==> |p| <= k
  }

  /** The longest dependency chain that ends at `n` has exactly `k` edges. */
  ghost predicate Depth(g: Needs<nat>, n: nat, k: nat) {
    (exists p :: ChainTo(g, p, n) && |p| == k + 1) && forall p :: ChainTo(g, p, n) ==> |p| <= k + 1
  }

  lemma ChainExtends(g: Needs<nat>, p: seq<nat>, m: nat, n: nat)
    requires n in g && m in g[n] && ChainTo(g, p, m)
    ensures ChainTo(g, p + [n], n)
  {
    var q := p + [n];
    forall i | 0 < i < |q| ensures q[i - 1] in g[q[i]] {
      if i < |p| { assert p[i - 1] in g[p[i]]; }
    }
  }

  lemma ChainShortens(g: Needs<nat>, p: seq<nat>, n: nat)
    requires ChainTo(g, p, n) && |p| > 1
    ensures n in g && p[|p| - 2] in g[n] && ChainTo(g, p[..|p| - 1], p[|p| - 2])
    ensures p == p[..|p| - 1] + [n]
  {
    assert p[|p| - 1] == n;
  }

  lemma ShallowStep(g: Needs<nat>, n: nat, k: nat)
    requires Closed(g) && n in g
    ensures Shallow(g, n, k + 1) <==> forall m :: m in g[n] ==> Shallow(g, m, k)
  {
    if Shallow(g, n, k + 1) {
      forall m, p | m in g[n] && ChainTo(g, p, m) ensures |p| <= k {
        ChainExtends(g, p, m, n);
        assert |p + [n]| <= k + 1;
      }
    } else {
      var p :| ChainTo(g, p, n) && |p| > k + 1;
      ChainShortens(g, p, n);
      assert !Shallow(g, p[|p| - 2], k);
    }
  }

  /** The nodes that no chain longer than `k` nodes reaches. */
  ghost predicate Peeled(g: Needs<nat>, done: set<nat>, k: nat) {
    done <= g.Keys && forall n :: n in g ==> (n in done <==> Shallow(g, n, k))
  }

  lemma NextLayer(g: Needs<nat>, done: set<nat>, k: nat, next: set<nat>)
    requires Closed(g) && Peeled(g, done, k)
    requires forall n :: n in next <==> n in g && n !in done && g[n] <= done
    ensures Peeled(g, done + next, k + 1)
    ensures forall n :: n in next <==> n in g && Depth(g, n, k)
  {
    forall n | n in g
      ensures n in done + next <==> Shallow(g, n, k + 1)
      ensures n in next <==> Depth(g, n, k)
    {
      ShallowStep(g, n, k);
      assert n in done ==> Shallow(g, n, k);
      assert g[n] <= done <==> Shallow(g, n, k + 1);
      if n in next {
        var p :| ChainTo(g, p, n) && |p| > k;
        assert |p| == k + 1;
      }
    }
  }

  lemma NothingLeft(g: Needs<nat>, done: set<nat>, k: nat)
    requires Closed(g) && Peeled(g, done, k)
    requires forall n :: n in g && g[n] <= done ==> n in done
    ensures forall n, j :: n in g && j >= k ==> !Depth(g, n, j)
  {
    forall n, j | n in g && j >= k ensures !Depth(g, n, j) {
      if Depth(g, n, j) {
        var p :| ChainTo(g, p, n) && |p| == j + 1;
        NothingLeftBelow(g, done, k, n, j);
      }
    }
  }

  /** Past the last layer every shallow node was already peeled. */
  lemma {:induction false} NothingLeftBelow(g: Needs<nat>, done: set<nat>, k: nat, n: nat, j: nat)
    requires Closed(g) && Peeled(g, done, k) && n in g && j >= k
    requires forall m :: m in g && g[m] <= done ==> m in done
    ensures Shallow(g, n, j + 1) ==> Shallow(g, n, k)
    decreases j
  {
    if Shallow(g, n, j + 1) {
      ShallowStep(g, n, j);
      forall m | m in g[n] ensures m in done {
        assert Shallow(g, m, j);
        if j > k { NothingLeftBelow(g, done, k, m, j - 1); }
      }
      assert n in done;
    }
  }

  /** Appending `n` to the best of the dependencies' best chains gives the best chain to `n`. */
  lemma BestExtends(g: Needs<nat>, longest: map<nat, seq<nat>>, n: nat, best: seq<nat>)
    requires Closed(g) && n in g && g[n] != {}
    requires forall m :: m in g[n] ==> m in longest && BestTo(g, longest[m], m)
    requires exists m :: m in g[n] && best == longest[m] + [n]
    requires forall m :: m in g[n] ==> Better(best, longest[m] + [n])
    ensures BestTo(g, best, n)
  {
    var m0 :| m0 in g[n] && best == longest[m0] + [n];
    ChainExtends(g, longest[m0], m0, n);
    forall q | ChainTo(g, q, n) ensures Better(best, q) {
      if |q| > 1 {
        ChainShortens(g, q, n);
        var m, init := q[|q| - 2], q[..|q| - 1];
        assert Better(longest[m], init);
        if |longest[m]| == |init| {
          LexAppend(longest[m], init, n);
        }
        assert Better(longest[m] + [n], q);
        BetterTransitive(best, longest[m] + [n], q);
      }
    }
  }

  lemma RootIsBest(g: Needs<nat>, n: nat)
    requires n in g && g[n] == {}
    ensures BestTo(g, [n], n)
  {
    forall q | ChainTo(g, q, n) ensures Better([n], q) {
      if |q| > 1 {
        ChainShortens(g, q, n);
      }
      assert q == [n];
    }
  }

  /** The layers so far: layer `i` lists, in order, the nodes at depth `i`, and `order` lists the layers. */
  ghost predicate Layered(g: Needs<nat>, layers: seq<seq<nat>>, order: seq<nat>) {
    && (forall i :: 0 <= i < |layers| ==> Increasing(layers[i]))
    && (forall i: nat, n: nat :: i < |layers| ==> (n in layers[i] <==> n in g && Depth(g, n, i)))
    && (forall n :: n in order <==> exists i :: 0 <= i < |layers| && n in layers[i])
  }

  lemma LayeredStep(g: Needs<nat>, layers: seq<seq<nat>>, order: seq<nat>, layer: seq<nat>)
    requires Layered(g, layers, order) && Increasing(layer)
    requires forall n :: n in layer <==> n in g && Depth(g, n, |layers|)
    ensures Layered(g, layers + [layer], order + layer)
  {
    var more := layers + [layer];
    forall n ensures n in order + layer <==> exists i :: 0 <= i < |more| && n in more[i] {
      if n in order {
        var i :| 0 <= i < |layers| && n in layers[i];
        assert n in more[i];
      } else if n in layer {
        assert n in more[|layers|];
      }
    }
  }

  /** Where the layered sort stands: everything peeled so far, and the frontier to peel next. */
  ghost predicate Frontier(g: Needs<nat>, indegree: map<nat, nat>, layers: seq<seq<nat>>, order: seq<nat>,
                           frontier: seq<nat>) {
    && Increasing(frontier) && Distinct(order) && Ordered(g, order)
    && indegree == Counts(g, Elements(order)) && Queued(g, Elements(order), frontier)
    && Peeled(g, Elements(order), |layers|)
    && Layered(g, layers, order)
  }

  /** One layer of the sort. */
  method PeelLayer(g: Needs<nat>, indegree: map<nat, nat>, ghost layers: seq<seq<nat>>, order: seq<nat>,
                   layer: seq<nat>)
    returns (counts: map<nat, nat>, frontier: seq<nat>)
    requires Closed(g) && Frontier(g, indegree, layers, order, layer) && layer != []
    ensures Frontier(g, counts, layers + [layer], order + layer, frontier)
    ensures g.Keys - Elements(order + layer) < g.Keys - Elements(order)
  {
    assert layer[0] in layer;
    NextLayer(g, Elements(order), |layers|, Elements(layer));
    LayeredStep(g, layers, order, layer);
    OrderedLayer(g, order, layer);
    var next;
    counts, next := Peel(g, indegree, Elements(order), layer);
    frontier := Sorted(Elements(next));
    RequeueSorted(g, Elements(order + layer), next, frontier);
  }

  /** The layered sort: peels the frontier, counting down the needs of the children of each peeled node. */
  method Layers(g: Needs<nat>) returns (layers: seq<seq<nat>>, order: seq<nat>)
    requires Closed(g)
    ensures Layered(g, layers, order)
    ensures forall n: nat, i: nat :: n in g && i >= |layers| ==> !Depth(g, n, i)
    ensures Ordered(g, order) && Distinct(order)
    ensures |order| == |g| <==> Acyclic(g)
  {
    var indegree: map<nat, nat> := map n | n in g :: |g[n]|;
    var frontier := Sorted(set n | n in g && indegree[n] == 0);
    layers, order := [], [];
    InitialFrontier(g, frontier);
    while frontier != []
      invariant Frontier(g, indegree, layers, order, frontier)
      decreases g.Keys - Elements(order)
    {
      var layer := frontier;
      indegree, frontier := PeelLayer(g, indegree, layers, order, layer);
      layers, order := layers + [layer], order + layer;
    }
    NothingLeft(g, Elements(order), |layers|);
    Verdict(g, order);
  }

  lemma InitialFrontier(g: Needs<nat>, frontier: seq<nat>)
    requires Increasing(frontier) && forall n :: n in frontier <==> n in g && |g[n]| == 0
    ensures Frontier(g, map n | n in g :: |g[n]|, [], [], frontier)
  {
    assert Elements<nat>([]) == {};
    InitialCounts(g);
    InitialQueue(g, frontier);
    NothingPeeled(g);
  }

  lemma NothingPeeled(g: Needs<nat>)
    ensures Peeled(g, {}, 0)
  {
    forall n | n in g ensures !Shallow(g, n, 0) { assert ChainTo(g, [n], n); }
  }

  lemma RequeueSorted(g: Needs<nat>, done: set<nat>, ready: seq<nat>, sorted: seq<nat>)
    requires Queued(g, done, ready) && Increasing(sorted) && forall x :: x in sorted <==> x in ready
    ensures Queued(g, done, sorted)
  {
  }

  lemma OrderedLayer(g: Needs<nat>, order: seq<nat>, layer: seq<nat>)
    requires Ordered(g, order) && Distinct(order) && Queued(g, Elements(order), layer)
    ensures Ordered(g, order + layer) && Distinct(order + layer)
    ensures Elements(order + layer) == Elements(order) + Elements(layer)
  {
    var longer := order + layer;
    forall i | 0 <= i < |longer| ensures longer[i] in g && g[longer[i]] <= Elements(longer[..i]) {
      if i < |order| {
        assert longer[..i] == order[..i];
      } else {
        assert longer[i] in layer;
        assert Elements(order) <= Elements(longer[..i]) by {
          assert forall j :: 0 <= j < |order| ==> longer[..i][j] == order[j];
        }
      }
    }
    forall i, j | 0 <= i < j < |longer| ensures longer[i] != longer[j] {
      if i < |order| <= j {
        assert order[i] in Elements(order) && layer[j - |order|] in layer;
      }
    }
  }

  lemma QueueHead(layer: seq<nat>, i: nat, next: seq<nat>)
    requires i < |layer|
    ensures layer[i..] + next != [] && (layer[i..] + next)[0] == layer[i]
  {
  }

  lemma QueueTail(layer: seq<nat>, i: nat, next: seq<nat>, freed: seq<nat>)
    requires i < |layer|
    ensures (layer[i..] + next)[1..] + freed == layer[i + 1..] + (next + freed)
  {
  }

  lemma ElementsTake(done: set<nat>, s: seq<nat>, i: nat)
    requires i < |s|
    ensures done + Elements(s[..i + 1]) == done + Elements(s[..i]) + {s[i]}
  {
    assert s[..i + 1] == s[..i] + [s[i]];
  }

  /** Where a layer's loop stands before its node `i`: the rest of the layer, then the nodes freed so far. */
  ghost predicate Peeling(g: Needs<nat>, counts: map<nat, nat>, done: set<nat>, layer: seq<nat>, i: nat, next: seq<nat>)
    requires i <= |layer|
  {
    var now := done + Elements(layer[..i]);
    counts == Counts(g, now) && Queued(g, now, layer[i..] + next)
  }

  method PeelOne(g: Needs<nat>, indegree: map<nat, nat>, ghost done: set<nat>, layer: seq<nat>, i: nat, freed: seq<nat>)
    returns (counts: map<nat, nat>, next: seq<nat>)
    requires i < |layer| && Peeling(g, indegree, done, layer, i, freed)
    ensures Peeling(g, counts, done, layer, i + 1, next)
  {
    var queue, more := layer[i..] + freed, [];
    QueueHead(layer, i, freed);
    counts, more := VisitHead(g, indegree, done + Elements(layer[..i]), queue);
    next := freed + more;
    ElementsTake(done, layer, i);
    QueueTail(layer, i, freed, more);
  }

  /** One layer: visits its nodes in order and collects the nodes they free. */
  method Peel(g: Needs<nat>, indegree: map<nat, nat>, ghost done: set<nat>, layer: seq<nat>)
    returns (counts: map<nat, nat>, next: seq<nat>)
    requires indegree == Counts(g, done) && Queued(g, done, layer)
    ensures counts == Counts(g, done + Elements(layer))
    ensures Queued(g, done + Elements(layer), next)
  {
    counts, next := indegree, [];
    assert layer[0..] + next == layer && done + Elements(layer[..0]) == done;
    for i := 0 to |layer|
      invariant Peeling(g, counts, done, layer, i, next)
    {
      counts, next := PeelOne(g, counts, done, layer, i, next);
    }
    assert layer[..|layer|] == layer && layer[|layer|..] + next == next;
  }

  /** The dynamic program over the topological order. */
  method LongestChains(g: Needs<nat>, order: seq<nat>) returns (longest: map<nat, seq<nat>>)
    requires Closed(g) && Ordered(g, order)
    ensures longest.Keys == Elements(order)
    ensures forall n :: n in longest ==> BestTo(g, longest[n], n)
  {
    longest := map[];
    for i := 0 to |order|
      invariant longest.Keys == Elements(order[..i])
      invariant forall n :: n in longest ==> BestTo(g, longest[n], n)
    {
      var n := order[i];
      var dependencies := Sorted(g[n]);
      var best := [n];
      if dependencies == [] {
        assert forall x :: x in g[n] ==> x in dependencies;
        assert g[n] == {};
        RootIsBest(g, n);
      } else {
        assert dependencies[0] in dependencies;
        best := longest[dependencies[0]] + [n];
        BetterTotal(best, best);
        for j := 1 to |dependencies|
          invariant exists m :: m in g[n] && best == longest[m] + [n]
          invariant forall k :: 0 <= k < j ==> Better(best, longest[dependencies[k]] + [n])
        {
          assert dependencies[j] in dependencies;
          var candidate := longest[dependencies[j]] + [n];
          BetterTotal(best, candidate);
          BetterTotal(candidate, candidate);
          if !Better(best, candidate) {
            forall k | 0 <= k < j ensures Better(candidate, longest[dependencies[k]] + [n]) {
              BetterTransitive(candidate, best, longest[dependencies[k]] + [n]);
            }
            best := candidate;
          }
        }
        BestExtends(g, longest, n, best);
      }
      longest := longest[n := best];
      assert order[..i + 1] == order[..i] + [n];
    }
    assert order[..|order|] == order;
  }

  /** `p` ends at an output producer, and no chain to any producer is better. */
  ghost predicate Critical(g: Needs<nat>, outputs: set<nat>, p: seq<nat>) {
    && (exists n :: n in outputs && ChainTo(g, p, n))
    && forall n, q :: n in outputs && ChainTo(g, q, n) ==> Better(p, q)
  }

  /**
   The critical path over an acyclic graph: a longest dependency chain that ends at an output
   producer, and among those the lexicographically least one.
   */
  predicate BestOf(longest: map<nat, seq<nat>>, producers: seq<nat>, path: seq<nat>) {
    forall k :: 0 <= k < |producers| ==> producers[k] in longest && Better(path, longest[producers[k]])
  }

  lemma BestSoFar(longest: map<nat, seq<nat>>, producers: seq<nat>, path: seq<nat>, n: nat)
    requires BestOf(longest, producers, path) && n in longest
    ensures BestOf(longest, producers + [n], if Better(path, longest[n]) then path else longest[n])
  {
    var candidate := longest[n];
    BetterTotal(path, candidate);
    BetterTotal(candidate, candidate);
    if !Better(path, candidate) {
      forall k | 0 <= k < |producers| ensures Better(candidate, longest[producers[k]]) {
        BetterTransitive(candidate, path, longest[producers[k]]);
      }
    }
  }

  method CriticalPath(g: Needs<nat>, outputs: set<nat>) returns (path: seq<nat>)
    requires Closed(g) && Acyclic(g) && outputs <= g.Keys
    ensures outputs == {} ==> path == []
    ensures outputs != {} ==> Critical(g, outputs, path)
  {
    var layers, order := Layers(g);
    SizesAgree(order, g.Keys);
    var longest := LongestChains(g, order);
    var producers := Sorted(outputs);
    path := [];
    if producers == [] {
      assert forall n :: n in outputs ==> n in producers;
      return;
    }
    assert producers[0] in producers;
    path := longest[producers[0]];
    BetterTotal(path, path);
    for i := 1 to |producers|
      invariant exists n :: n in outputs && path == longest[n]
      invariant BestOf(longest, producers[..i], path)
    {
      assert producers[i] in producers && producers[..i + 1] == producers[..i] + [producers[i]];
      var candidate := longest[producers[i]];
      BestSoFar(longest, producers[..i], path, producers[i]);
      if !Better(path, candidate) {
        path := candidate;
      }
    }
    assert producers[..|producers|] == producers;
    forall n, q | n in outputs && ChainTo(g, q, n) ensures Better(path, q) {
      assert n in producers;
      BetterTransitive(path, longest[n], q);
    }
  }

  /** Two paths that both qualify as critical are the same path. */
  lemma CriticalIsUnique(g: Needs<nat>, outputs: set<nat>, p: seq<nat>, q: seq<nat>)
    requires Critical(g, outputs, p) && Critical(g, outputs, q)
    ensures p == q
  {
    BetterTotal(p, q);
  }
}
