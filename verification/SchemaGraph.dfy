/**
 `_reference_cycle`: containment of schema containers together with local references, searched for a
 cycle by the counting sort.  Without a cycle, expanding references recursively comes to an end, which
 section 8.2.3.1 of JSON Schema Core (Draft 2020-12) asks an implementation to ensure.
 */
module SchemaGraph {
  import opened Prelude
  import opened Graph
  import opened Kahn
  import opened JsonPointer
  import opened SchemaScan

  datatype Reference = Reference(source: Location, target: Location)

  /** The edges a schema can be expanded along: into a member, or from a `$ref` to its target. */
  predicate Expands(containers: set<Location>, inside: Edges, references: seq<Reference>, p: Location, q: Location) {
    || q in Out(inside, p)
    || (q in containers && Reference(p, q) in references)
  }

  ghost predicate Walk(containers: set<Location>, inside: Edges, references: seq<Reference>, w: seq<Location>) {
    && |w| >= 1 && w[0] in containers
    && forall i :: 0 < i < |w| ==> Expands(containers, inside, references, w[i - 1], w[i])
  }

  /** Some expansion leads back to where it started. */
  ghost predicate Recursive(containers: set<Location>, inside: Edges, references: seq<Reference>) {
    exists w :: Walk(containers, inside, references, w) && |w| >= 2 && w[0] == w[|w| - 1]
  }

  /** What the scan and the reference checks have established before. */
  ghost predicate Prepared(containers: set<Location>, inside: Edges, references: seq<Reference>) {
    && (forall p, q :: q in Out(inside, p) ==> p in containers && q in containers)
    && forall i :: 0 <= i < |references| ==> references[i].source in containers
  }

  /** The edges as `_reference_cycle` collects them. */
  ghost predicate Collected(containers: set<Location>, inside: Edges, references: seq<Reference>, edges: Edges) {
    && edges.Keys == containers
    && forall p, q :: p in containers ==> (q in edges[p] <==> Expands(containers, inside, references, p, q))
  }

  method CollectEdges(containers: set<Location>, inside: Edges, references: seq<Reference>) returns (edges: Edges)
    requires Prepared(containers, inside, references)
    ensures Collected(containers, inside, references, edges)
  {
    edges := map p | p in containers :: Out(inside, p);
    for i := 0 to |references|
      invariant Collected(containers, inside, references[..i], edges)
    {
      var r := references[i];
      assert references[..i + 1] == references[..i] + [r];
      if r.target in containers {
        edges := edges[r.source := edges[r.source] + {r.target}];
      }
    }
    assert references[..|references|] == references;
  }

  /** Who leads to each container. */
  function Arrivals(edges: Edges): Needs<Location> { map q | q in edges :: set p | p in edges && q in edges[p] }

  /** A chain of arrivals is a walk. */
  lemma ChainsAreWalks(containers: set<Location>, inside: Edges, references: seq<Reference>, edges: Edges, w: seq<Location>)
    requires Prepared(containers, inside, references) && Collected(containers, inside, references, edges)
    ensures IsChain(Arrivals(edges), w) <==> Walk(containers, inside, references, w)
  {
    if Walk(containers, inside, references, w) {
      forall i | 0 <= i < |w| ensures w[i] in containers {
        if i > 0 { assert Expands(containers, inside, references, w[i - 1], w[i]); }
      }
      forall i | 0 < i < |w| ensures w[i - 1] in Arrivals(edges)[w[i]] {
        assert Expands(containers, inside, references, w[i - 1], w[i]);
      }
    }
    if IsChain(Arrivals(edges), w) {
      forall i | 0 < i < |w| ensures Expands(containers, inside, references, w[i - 1], w[i]) {
        assert w[i - 1] in Arrivals(edges)[w[i]];
      }
    }
  }

  lemma CyclesAgree(containers: set<Location>, inside: Edges, references: seq<Reference>, edges: Edges)
    requires Prepared(containers, inside, references) && Collected(containers, inside, references, edges)
    ensures Acyclic(Arrivals(edges)) <==> !Recursive(containers, inside, references)
  {
    if w :| Walk(containers, inside, references, w) && |w| >= 2 && w[0] == w[|w| - 1] {
      ChainsAreWalks(containers, inside, references, edges, w);
      assert Connects(Arrivals(edges), w, w[0], w[0]);
      assert Ancestor(Arrivals(edges), w[0], w[0]);
    }
    if n :| Ancestor(Arrivals(edges), n, n) {
      var w :| Connects(Arrivals(edges), w, n, n);
      ChainsAreWalks(containers, inside, references, edges, w);
    }
  }

  /** Every edge leads to a smaller rank. */
  ghost predicate Descends(containers: set<Location>, inside: Edges, references: seq<Reference>, rank: map<Location, nat>) {
    && rank.Keys == containers
    && forall p, q :: p in containers && Expands(containers, inside, references, p, q) ==> q in rank && rank[q] < rank[p]
  }

  /** The position of a node in the order of the sort, counted from the end. */
  function RankOf(order: seq<Location>): map<Location, nat> {
    map p | p in order :: |order| - 1 - Position(order, p)
  }

  function Position(order: seq<Location>, p: Location): (i: nat)
    requires p in order
    ensures i < |order| && order[i] == p
  {
    if order[0] == p then 0 else 1 + Position(order[1..], p)
  }

  lemma OrderDescends(containers: set<Location>, inside: Edges, references: seq<Reference>, edges: Edges, order: seq<Location>)
    requires Prepared(containers, inside, references) && Collected(containers, inside, references, edges)
    requires Ordered(Arrivals(edges), order) && Distinct(order) && Elements(order) == containers
    ensures Descends(containers, inside, references, RankOf(order))
  {
    forall p, q | p in containers && Expands(containers, inside, references, p, q)
      ensures q in RankOf(order) && RankOf(order)[q] < RankOf(order)[p]
    {
      assert q in Elements(order) && p in Elements(order);
      var i := Position(order, q);
      assert p in Arrivals(edges)[q] && p in Elements(order[..i]);
      var j :| 0 <= j < i && order[j] == p;
      assert Position(order, p) == j;
    }
    assert RankOf(order).Keys == containers by {
      forall p ensures p in RankOf(order) <==> p in containers { assert p in order <==> p in Elements(order); }
    }
  }

  /**
   `_reference_cycle` reports a cycle exactly when the expansion is recursive; when it reports none, a rank
   decreases along every edge and counts containers.
   */
  method ReferenceCycle(containers: set<Location>, inside: Edges, references: seq<Reference>)
    returns (cyclic: bool, ghost rank: map<Location, nat>)
    requires Prepared(containers, inside, references)
    ensures cyclic <==> Recursive(containers, inside, references)
    ensures !cyclic ==> Descends(containers, inside, references, rank) && forall p :: p in rank ==> rank[p] < |containers|
  {
    var edges := CollectEdges(containers, inside, references);
    var visited := Sort(Arrivals(edges));
    CyclesAgree(containers, inside, references, edges);
    SizesAgree(visited, edges.Keys);
    assert Arrivals(edges).Keys == containers;
    assert |Arrivals(edges)| == |Arrivals(edges).Keys|;
    rank := RankOf(visited);
    if |visited| == |containers| {
      OrderDescends(containers, inside, references, edges, visited);
    }
    return |visited| != |containers|, rank;
  }

  /** With a decreasing rank every expansion ends: no walk is longer than the rank it starts from allows. */
  lemma {:induction false} ExpansionEnds(containers: set<Location>, inside: Edges, references: seq<Reference>,
                                         rank: map<Location, nat>, w: seq<Location>)
    requires Descends(containers, inside, references, rank) && Walk(containers, inside, references, w)
    ensures w[|w| - 1] in rank && rank[w[|w| - 1]] + |w| <= rank[w[0]] + 1
    decreases |w|
  {
    if |w| > 1 {
      var init := w[..|w| - 1];
      ExpansionEnds(containers, inside, references, rank, init);
      assert Expands(containers, inside, references, w[|w| - 2], w[|w| - 1]);
    }
  }

  /** Containment alone is never recursive: a recursive schema has a reference that leads no deeper than it stands. */
  lemma CyclesUseReferences(heap: Heap, root: Val, inside: Edges, containers: set<Location>, references: seq<Reference>)
    requires forall p, q :: q in Out(inside, p) ==> Holds(heap, root, p, q)
    requires Recursive(containers, inside, references)
    ensures exists i :: 0 <= i < |references| && references[i].target in containers
                        && |references[i].target| <= |references[i].source|
  {
    var w :| Walk(containers, inside, references, w) && |w| >= 2 && w[0] == w[|w| - 1];
    if forall i :: 0 <= i < |references| && references[i].target in containers ==>
         |references[i].target| > |references[i].source|
    {
      Deepens(heap, root, inside, containers, references, w);
    }
  }

  lemma {:induction false} Deepens(heap: Heap, root: Val, inside: Edges, containers: set<Location>,
                                   references: seq<Reference>, w: seq<Location>)
    requires forall p, q :: q in Out(inside, p) ==> Holds(heap, root, p, q)
    requires forall i :: 0 <= i < |references| && references[i].target in containers ==>
      |references[i].target| > |references[i].source|
    requires Walk(containers, inside, references, w)
    ensures |w[|w| - 1]| >= |w[0]| + |w| - 1
    decreases |w|
  {
    if |w| > 1 {
      Deepens(heap, root, inside, containers, references, w[..|w| - 1]);
      assert Expands(containers, inside, references, w[|w| - 2], w[|w| - 1]);
    }
  }
}
