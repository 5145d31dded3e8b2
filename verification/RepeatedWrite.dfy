/**
 A loop repeats a write.  The control checks let a loop replay a node that declares no effect, whatever it may write;
 recovery and retry treat the same node as one that must not be repeated.
 */
module RepeatedWrite {
  import opened Prelude
  import opened Graph
  import opened Workflow
  import opened Store
  import opened Joins
  import opened Runs
  import opened Scenes
  import Validator

  predicate Twice(node: NodeSpec, needs: set<NodeId>, loop: Option<Loop>) {
    && node.needs == needs && node.required && node.retry == Retry(Some(2), None) && node.progress == Progress(None, None)
    && node.timeout.None? && node.join.None? && node.route.None? && node.repair.None? && node.loop == loop
    && node.effect.None? && "verdict" in node.ports.outputs
  }

  /** Node 0 may write and declares no effect; node 1 sends it round once more. */
  predicate Writing(flow: Flow) {
    && flow.ids == [0, 1] && flow.nodes.Keys == {0, 1} && flow.budgets == Budgets(1, 4, 2, 60)
    && Twice(flow.nodes[0], {}, None) && flow.nodes[0].permission.Write?
    && Twice(flow.nodes[1], {0}, Some(Loop(0, "verdict", 2))) && flow.nodes[1].permission.Read?
  }

  lemma SomeAreWriting() returns (flow: Flow)
    ensures Writing(flow)
  {
    var node := NodeSpec({}, true, true, false, Ports(map[], {"verdict"}, {}), None, Read, false, None, None, None, None,
                         Retry(Some(2), None), Progress(None, None), None);
    flow := Flow([0, 1], map[0 := node.(permission := Write), 1 := node.(needs := {0}, loop := Some(Loop(0, "verdict", 2)))],
                 Budgets(1, 4, 2, 60), {});
  }

  lemma NeedsAre(flow: Flow)
    requires Writing(flow)
    ensures NeedsOf(flow) == map[0 := {}, 1 := {0}] && Closed(NeedsOf(flow))
  {
  }

  lemma Order(g: Needs<NodeId>)
    requires g == map[0 := {}, 1 := {0}]
    ensures Acyclic(g) && Ancestor(g, 0, 1)
  {
    RankedIsAcyclic(g, n => n);
    assert Connects(g, [0, 1], 0, 1);
  }

  lemma RegionIsBoth(flow: Flow)
    requires Writing(flow)
    ensures LoopRegion(flow, 1, 0) == {0, 1}
  {
  }

  lemma WritingIsReadable(flow: Flow)
    requires Writing(flow)
    ensures WellFormed(flow) && Plain(flow) && Validator.Readable(flow)
  {
    NeedsAre(flow);
    assert forall n :: n in flow.ids <==> n == 0 || n == 1;
  }

  lemma SumOfTwo(f: nat -> nat)
    ensures Sum([0, 1], f) == f(0) + f(1)
  {
    var ids := [0, 1];
    assert ids[1..] == [1] && [1][1..] == [];
  }

  lemma WritingIsAccepted(flow: Flow)
    requires Writing(flow)
    ensures Validator.ControlAccepted(flow)
  {
    NeedsAre(flow);
    Order(NeedsOf(flow));
    RegionIsBoth(flow);
    SumOfTwo(LoopCosts(flow));
    SumOfTwo(RepairCosts(flow));
    assert LoopCosts(flow)(0) == 0 && LoopCosts(flow)(1) == 2;
    forall n | n in flow.nodes
      ensures Validator.RouteAccepted(flow, n) && Validator.LoopAccepted(flow, n) && Validator.RepairAccepted(flow, n)
    {
    }
  }

  // ---------------------------------------------------------------- the run

  lemma MayRun(flow: Flow, acts: seq<Action>, v: Scene, n: NodeId)
    requires Writing(flow) && Plain(flow) && Plays(flow, acts, v) && n in flow.nodes && v.status[n].Pending? && v.active == map[]
    requires (forall d :: d in flow.nodes[n].needs ==> v.status[d].Succeeded?) && v.made[0] + v.made[1] < 4
    ensures May(flow, acts, TxStart(n))
  {
    var s := End(flow, acts);
    TotalShows(flow, acts, v);
    StatusesShow(flow, acts, v);
    SumOfTwo(MadeOf(v));
    Look(flow, acts, v);
    NeedsAre(flow);
    ReadyNow(flow, s.db, v, n);
    MayStart(flow, s, v, n);
  }

  lemma ReadyNow(flow: Flow, db: Db, v: Scene, n: NodeId)
    requires Writing(flow) && Closed(NeedsOf(flow)) && Statuses(db.nodes, v) && v.status.Keys == flow.nodes.Keys && n in flow.nodes
    requires forall d :: d in flow.nodes[n].needs ==> v.status[d].Succeeded?
    ensures Ready(flow, db, {}, n)
  {
  }

  const Verdict: Outputs := map["verdict" := "v"]

  /** One attempt of `n`, which succeeds. */
  lemma RunsOnce(flow: Flow, acts: seq<Action>, v: Scene, n: NodeId) returns (more: seq<Action>)
    requires Writing(flow) && Plain(flow) && Plays(flow, acts, v) && n in flow.nodes && v.status[n].Pending? && v.active == map[]
    requires (forall d :: d in flow.nodes[n].needs ==> v.status[d].Succeeded?) && v.made[0] + v.made[1] < 4 && v.now == 0
    ensures Plays(flow, more, Done(v, n))
  {
    MayRun(flow, acts, v, n);
    var started := Starts(flow, acts, v, n);
    more := Succeeds(flow, started, Starting(v, n), n, Verdict);
    DoneIs(v, n);
  }

  function Done(v: Scene, n: NodeId): Scene
    requires n in v.made
  {
    v.(status := v.status[n := Succeeded], made := v.made[n := v.made[n] + 1], outputs := v.outputs[n := Verdict], clean := v.clean - {n})
  }

  lemma DoneIs(v: Scene, n: NodeId)
    requires n in v.made && v.active == map[]
    ensures Succeeding(Starting(v, n), n, Verdict) == Done(v, n)
  {
    assert map[n := v.made[n] + 1] - {n} == map[];
    assert v.status[n := Running][n := Succeeded] == v.status[n := Succeeded];
  }

  predicate AtFirst(v: Scene) {
    && v.now == 0 && v.status == map[0 := Pending, 1 := Pending] && v.made == map[0 := 0, 1 := 0] && v.active == map[] && v.loops == map[]
  }

  lemma CurtainIs(flow: Flow)
    requires Writing(flow)
    ensures AtFirst(Curtain(flow))
  {
  }

  predicate WriterDone(v: Scene) {
    && v.now == 0 && v.status == map[0 := Succeeded, 1 := Pending] && v.made == map[0 := 1, 1 := 0] && v.active == map[] && v.loops == map[]
  }

  lemma WriterSucceeds(flow: Flow) returns (acts: seq<Action>, v: Scene)
    requires Writing(flow) && Plain(flow)
    ensures Plays(flow, acts, v) && WriterDone(v)
  {
    acts := Opens(flow);
    var w := Curtain(flow);
    CurtainIs(flow);
    acts := RunsOnce(flow, acts, w, 0);
    v := Done(w, 0);
    DoneNext(w);
  }

  lemma DoneNext(v: Scene)
    requires AtFirst(v) || WriterDone(v) || OnceMore(v)
    ensures AtFirst(v) ==> WriterDone(Done(v, 0))
    ensures WriterDone(v) ==> BothDone(Done(v, 1))
    ensures OnceMore(v) ==> Done(v, 0).made == map[0 := 2, 1 := 1]
  {
  }

  predicate BothDone(v: Scene) {
    && v.now == 0 && v.status == map[0 := Succeeded, 1 := Succeeded] && v.made == map[0 := 1, 1 := 1] && v.active == map[] && v.loops == map[]
  }

  lemma BothSucceed(flow: Flow) returns (acts: seq<Action>, v: Scene)
    requires Writing(flow) && Plain(flow)
    ensures Plays(flow, acts, v) && BothDone(v)
  {
    var w;
    acts, w := WriterSucceeds(flow);
    acts := RunsOnce(flow, acts, w, 1);
    v := Done(w, 1);
    DoneNext(w);
  }

  predicate OnceMore(v: Scene) {
    v.now == 0 && v.status == map[0 := Pending, 1 := Pending] && v.made == map[0 := 1, 1 := 1] && v.active == map[]
  }

  lemma AgainIs(v: Scene)
    requires BothDone(v)
    ensures OnceMore(Decided(v, 1, {0, 1}, true))
  {
  }

  /**
   An accepted workflow and a run of it in which nothing fails and nobody reconciles, and in which a node that must not be
   repeated, and owns no repair route, makes two attempts.
   */
  lemma WriteIsRepeated() returns (flow: Flow, acts: seq<Action>)
    ensures Validator.Readable(flow) && Validator.ControlAccepted(flow) && Run(flow, Initial(flow), acts)
    ensures 0 in flow.nodes && Unrepeatable(flow.nodes[0]) && flow.nodes[0].repair.None?
    ensures Attempts(After(flow, Initial(flow), acts).db, 0) == 2 && Retries(After(flow, Initial(flow), acts), 0) == 0
  {
    flow := SomeAreWriting();
    WritingIsReadable(flow);
    WritingIsAccepted(flow);
    var v;
    acts, v := BothSucceed(flow);
    RegionIsBoth(flow);
    acts := Loops(flow, acts, v, 1, {0, 1}, true);
    AgainIs(v);
    var w := Decided(v, 1, {0, 1}, true);
    acts := RunsOnce(flow, acts, w, 0);
    DoneNext(w);
    Stands(flow, acts, Done(w, 0));
  }
}
