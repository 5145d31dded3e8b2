/**
 A run in which a loop decision fails a controller that has done nothing wrong: of two nested loops the outer controller
 comes first in id order, takes its loop-back edge over the inner one, and the same pass then misses the inner verdict.
 */
module NestedLoops {
  import opened Prelude
  import opened Graph
  import opened Workflow
  import opened Store
  import opened Joins
  import opened Runs
  import opened ControlPasses
  import opened Scenes
  import Validator

  /** A reading node that may be tried twice. */
  predicate Reader(node: NodeSpec, needs: set<NodeId>, loop: Option<Loop>) {
    && node.needs == needs && node.required && node.retry == Retry(Some(2), None) && node.progress == Progress(None, None)
    && node.timeout.None? && node.join.None? && node.route.None? && node.repair.None? && node.loop == loop
    && node.effect.None? && node.permission.Read? && "verdict" in node.ports.outputs
  }

  /** The outer controller 0 and the inner controller 1 both go back to node 2. */
  predicate Nested(flow: Flow) {
    && flow.ids == [0, 1, 2] && flow.nodes.Keys == {0, 1, 2} && flow.budgets == Budgets(1, 8, 2, 60)
    && Reader(flow.nodes[0], {1}, Some(Loop(2, "verdict", 2))) && Reader(flow.nodes[1], {2}, Some(Loop(2, "verdict", 2)))
    && Reader(flow.nodes[2], {}, None)
  }

  lemma SomeAreNested() returns (flow: Flow)
    ensures Nested(flow)
  {
    var node := NodeSpec({}, true, true, false, Ports(map[], {"verdict"}, {}), None, Read, false, None, None, None, None,
                         Retry(Some(2), None), Progress(None, None), None);
    var back := Some(Loop(2, "verdict", 2));
    flow := Flow([0, 1, 2], map[0 := node.(needs := {1}, loop := back), 1 := node.(needs := {2}, loop := back), 2 := node],
                 Budgets(1, 8, 2, 60), {});
  }

  // ---------------------------------------------------------------- the workflow is accepted

  lemma NeedsAre(flow: Flow)
    requires Nested(flow)
    ensures NeedsOf(flow) == map[0 := {1}, 1 := {2}, 2 := {}] && Closed(NeedsOf(flow))
  {
  }

  function Depth(n: NodeId): nat { if n < 3 then 2 - n else 0 }

  lemma Order(g: Needs<NodeId>)
    requires g == map[0 := {1}, 1 := {2}, 2 := {}]
    ensures Acyclic(g) && Ancestor(g, 2, 1) && Ancestor(g, 1, 0) && Ancestor(g, 2, 0) && !Ancestor(g, 0, 1)
  {
    RankedIsAcyclic(g, Depth);
    assert Connects(g, [2, 1], 2, 1) && Connects(g, [1, 0], 1, 0) && Connects(g, [2, 1, 0], 2, 0);
    if Ancestor(g, 0, 1) { AncestorsRankLower(g, Depth, 0, 1); }
  }

  lemma Regions(flow: Flow)
    requires Nested(flow)
    ensures LoopRegion(flow, 0, 2) == {0, 1, 2} && LoopRegion(flow, 1, 2) == {1, 2}
  {
    NeedsAre(flow);
    Order(NeedsOf(flow));
  }

  lemma NestedIsReadable(flow: Flow)
    requires Nested(flow)
    ensures WellFormed(flow) && Plain(flow) && Validator.Readable(flow)
  {
    NeedsAre(flow);
    IdsAre(flow);
  }

  lemma IdsAre(flow: Flow)
    requires Nested(flow)
    ensures Increasing(flow.ids) && Listed(flow)
  {
  }

  lemma Floor(flow: Flow)
    requires Nested(flow)
    ensures AttemptFloor(flow) == 8
  {
    Regions(flow);
    SumOfThree(LoopCosts(flow));
    assert LoopCosts(flow)(0) == 3 && LoopCosts(flow)(1) == 2 && LoopCosts(flow)(2) == 0;
    SumBound(flow.ids, RepairCosts(flow), 0);
  }

  lemma NestedIsAccepted(flow: Flow)
    requires Nested(flow)
    ensures Validator.ControlAccepted(flow)
  {
    NeedsAre(flow);
    Order(NeedsOf(flow));
    Regions(flow);
    Floor(flow);
    forall n | n in flow.nodes
      ensures Validator.RouteAccepted(flow, n) && Validator.LoopAccepted(flow, n) && Validator.RepairAccepted(flow, n)
    {
    }
  }

  // ---------------------------------------------------------------- all three succeed

  lemma MayRun(flow: Flow, acts: seq<Action>, v: Scene, n: NodeId)
    requires Nested(flow) && Plain(flow) && Plays(flow, acts, v) && n in flow.nodes && v.status[n].Pending? && v.active == map[]
    requires (forall d :: d in flow.nodes[n].needs ==> v.status[d].Succeeded?) && v.made[0] + v.made[1] + v.made[2] < 8
    ensures May(flow, acts, TxStart(n))
  {
    var s := End(flow, acts);
    TotalShows(flow, acts, v);
    StatusesShow(flow, acts, v);
    SumOfThree(MadeOf(v));
    Look(flow, acts, v);
    NeedsAre(flow);
    ReadyNow(flow, s.db, v, n);
    MayStart(flow, s, v, n);
  }

  lemma ReadyNow(flow: Flow, db: Db, v: Scene, n: NodeId)
    requires Nested(flow) && Closed(NeedsOf(flow)) && Statuses(db.nodes, v) && v.status.Keys == flow.nodes.Keys && n in flow.nodes
    requires forall d :: d in flow.nodes[n].needs ==> v.status[d].Succeeded?
    ensures Ready(flow, db, {}, n)
  {
  }

  const Verdict: Outputs := map["verdict" := "v"]

  /** One attempt, which succeeds. */
  lemma RunsOnce(flow: Flow, acts: seq<Action>, v: Scene, n: NodeId) returns (more: seq<Action>)
    requires Nested(flow) && Plain(flow) && Plays(flow, acts, v) && n in flow.nodes && v.status[n].Pending? && v.active == map[]
    requires (forall d :: d in flow.nodes[n].needs ==> v.status[d].Succeeded?) && v.made[0] + v.made[1] + v.made[2] < 8
    requires v.now == 0
    ensures Plays(flow, more, Done(v, n))
  {
    MayRun(flow, acts, v, n);
    var started := Starts(flow, acts, v, n);
    more := Succeeds(flow, started, Starting(v, n), n, Verdict);
    DoneIs(v, n);
  }

  function Done(v: Scene, n: NodeId): Scene
    requires n in v.made
  {
    v.(status := v.status[n := Succeeded], made := v.made[n := v.made[n] + 1], outputs := v.outputs[n := Verdict], clean := v.clean - {n})
  }

  lemma DoneIs(v: Scene, n: NodeId)
    requires n in v.made && v.active == map[]
    ensures Succeeding(Starting(v, n), n, Verdict) == Done(v, n)
  {
    assert map[n := v.made[n] + 1] - {n} == map[];
    assert v.status[n := Running][n := Succeeded] == v.status[n := Succeeded];
  }

  /** Before the pass: everything has succeeded once, and the inner loop is done for its only attempt. */
  predicate AllDone(v: Scene) {
    && v.now == 0 && v.status == map[0 := Succeeded, 1 := Succeeded, 2 := Succeeded] && v.made == map[0 := 1, 1 := 1, 2 := 1]
    && v.active == map[] && v.outputs == map[0 := Verdict, 1 := Verdict, 2 := Verdict] && v.loops == map[1 := LoopRow(1, 1, false)]
  }

  predicate InnerDone(v: Scene) {
    && v.now == 0 && v.status == map[0 := Pending, 1 := Succeeded, 2 := Succeeded] && v.made == map[0 := 0, 1 := 1, 2 := 1]
    && v.active == map[] && v.outputs == map[1 := Verdict, 2 := Verdict] && v.loops == map[1 := LoopRow(1, 1, false)]
  }

  predicate TargetDone(v: Scene) {
    && v.now == 0 && v.status == map[0 := Pending, 1 := Pending, 2 := Succeeded] && v.made == map[0 := 0, 1 := 0, 2 := 1]
    && v.active == map[] && v.outputs == map[2 := Verdict] && v.loops == map[]
  }

  lemma TargetSucceeds(flow: Flow) returns (acts: seq<Action>, v: Scene)
    requires Nested(flow) && Plain(flow)
    ensures Plays(flow, acts, v) && TargetDone(v)
  {
    acts := Opens(flow);
    var w := Curtain(flow);
    CurtainIs(flow);
    acts := RunsOnce(flow, acts, w, 2);
    v := Done(w, 2);
    TargetIs(w);
  }

  predicate Untouched(v: Scene) {
    && v.now == 0 && v.status == map[0 := Pending, 1 := Pending, 2 := Pending] && v.made == map[0 := 0, 1 := 0, 2 := 0]
    && v.active == map[] && v.outputs == map[] && v.loops == map[]
  }

  lemma CurtainIs(flow: Flow)
    requires Nested(flow)
    ensures Untouched(Curtain(flow))
  {
  }

  lemma TargetIs(v: Scene)
    requires Untouched(v)
    ensures TargetDone(Done(v, 2))
  {
  }

  lemma InnerSucceeds(flow: Flow) returns (acts: seq<Action>, v: Scene)
    requires Nested(flow) && Plain(flow)
    ensures Plays(flow, acts, v) && InnerDone(v)
  {
    acts, v := TargetSucceeds(flow);
    acts := RunsOnce(flow, acts, v, 1);
    var w := Done(v, 1);
    Regions(flow);
    acts := Loops(flow, acts, w, 1, {1, 2}, false);
    v := Decided(w, 1, {1, 2}, false);
    InnerIs(w);
  }

  lemma InnerIs(w: Scene)
    requires exists v :: TargetDone(v) && w == Done(v, 1)
    ensures InnerDone(Decided(w, 1, {1, 2}, false))
  {
  }

  lemma AllAreDone(flow: Flow) returns (acts: seq<Action>, v: Scene)
    requires Nested(flow) && Plain(flow)
    ensures Plays(flow, acts, v) && AllDone(v)
  {
    var w;
    acts, w := InnerSucceeds(flow);
    acts := RunsOnce(flow, acts, w, 0);
    v := Done(w, 0);
    AllIs(w);
  }

  lemma AllIs(v: Scene)
    requires InnerDone(v)
    ensures AllDone(Done(v, 0))
  {
  }

  // ---------------------------------------------------------------- the pass

  /** What the pass finds. */
  predicate Found(db: Db) {
    && db.nodes.Keys == {0, 1, 2} && (forall n :: n in db.nodes ==> db.nodes[n].status.Succeeded? && db.nodes[n].attemptCount == 1)
    && db.artifacts == map[0 := Verdict, 1 := Verdict, 2 := Verdict] && db.control.loops == map[1 := LoopRow(1, 1, false)]
  }

  lemma DoneIsFound(flow: Flow, acts: seq<Action>, v: Scene)
    requires Nested(flow) && Plays(flow, acts, v) && AllDone(v)
    ensures Found(End(flow, acts).db)
  {
    Look(flow, acts, v);
    var s := End(flow, acts);
    forall n | n in s.db.nodes ensures s.db.nodes[n].status.Succeeded? && s.db.nodes[n].attemptCount == 1 {
      assert RowShows(s.db, Generation(s), v, n);
    }
  }

  /** If the outer verdict matches, its loop-back edge takes the inner artifact away before the inner controller is judged. */
  lemma OuterGoesFirst(flow: Flow, judge: Judge, db: Db)
    requires Nested(flow) && Found(db) && judge(0, "v") == Some(true)
    ensures Continues(flow, judge, db.nodes, db, 0) && ReopenedBefore(flow, judge, db.nodes, db, 1, 1)
  {
    Regions(flow);
    assert LoopFold(flow, judge, db.nodes, db, 0) == db;
    assert flow.ids[0] == 0 && 1 in RegionOf(flow, 0);
  }

  /** So the inner controller fails, although its loop was done. */
  lemma InnerFails(flow: Flow, judge: Judge, db: Db)
    requires Nested(flow) && Found(db) && judge(0, "v") == Some(true)
    ensures IsStatus(LoopFold(flow, judge, db.nodes, db, 3), 1, Failed)
  {
    InnerIsFailed(flow, judge, db);
    LastStands(flow, judge, db.nodes, LoopFold(flow, judge, db.nodes, db, 2));
    assert LoopFold(flow, judge, db.nodes, db, 3) == LoopOne(flow, judge, db.nodes, LoopFold(flow, judge, db.nodes, db, 2), flow.ids[2]);
  }

  lemma InnerIsFailed(flow: Flow, judge: Judge, db: Db)
    requires Nested(flow) && Found(db) && judge(0, "v") == Some(true)
    ensures IsStatus(LoopFold(flow, judge, db.nodes, db, 2), 1, Failed)
  {
    OuterGoesFirst(flow, judge, db);
    OuterKeepsNodes(flow, judge, db);
    JudgedOnOwnArtifact(flow, judge, db, 1);
  }

  lemma OuterKeepsNodes(flow: Flow, judge: Judge, db: Db)
    requires Nested(flow) && Found(db)
    ensures LoopFold(flow, judge, db.nodes, db, 1).nodes.Keys == {0, 1, 2}
  {
    assert LoopFold(flow, judge, db.nodes, db, 0) == db;
  }

  lemma LastStands(flow: Flow, judge: Judge, rows: Rows, db: Db)
    requires Nested(flow)
    ensures LoopOne(flow, judge, rows, db, 2) == db
  {
  }

  // ---------------------------------------------------------------- the run

  /** The transactions of that pass. */
  lemma PassRuns(flow: Flow, acts: seq<Action>, v: Scene) returns (more: seq<Action>)
    requires Nested(flow) && Plain(flow) && Plays(flow, acts, v) && AllDone(v)
    ensures Run(flow, Initial(flow), more)
    ensures var db := End(flow, more).db; IsStatus(db, 0, Pending) && IsStatus(db, 1, Failed) && IsStatus(db, 2, Pending)
  {
    Regions(flow);
    more := Loops(flow, acts, v, 0, {0, 1, 2}, true);
    var w := Decided(v, 0, {0, 1, 2}, true);
    MayFail(flow, more, w);
    more := Writes(flow, more, w, 1, Failed);
    StatusesShow(flow, more, Writing(w, 1, Failed));
    Look(flow, more, Writing(w, 1, Failed));
  }

  lemma MayFail(flow: Flow, acts: seq<Action>, v: Scene)
    requires Nested(flow) && Plays(flow, acts, v) && v.status[1].Pending?
    ensures May(flow, acts, TxStatus(1, Failed))
  {
    Stands(flow, acts, v);
    FailingIsAllowed(flow, acts, v, 1);
  }

  lemma FailingIsAllowed(flow: Flow, acts: seq<Action>, v: Scene, n: NodeId)
    requires Plays(flow, acts, v) && CanFailLoop(flow, End(flow, acts).db, n)
    ensures May(flow, acts, TxStatus(n, Failed))
  {
    Look(flow, acts, v);
  }

  /**
   A run of an accepted workflow reaches a state in which, whenever the outer verdict matches, the loop pass fails the inner
   controller; and the run that makes these decisions ends with it failed.
   */
  lemma InnerControllerFails(flow: Flow) returns (acts: seq<Action>, more: seq<Action>)
    requires Nested(flow)
    ensures Validator.Readable(flow) && Validator.ControlAccepted(flow)
    ensures Run(flow, Initial(flow), acts) && Run(flow, Initial(flow), more)
    ensures var db := End(flow, acts).db;
      IsStatus(db, 1, Succeeded) && 1 in db.control.loops && !db.control.loops[1].matched
      && forall judge: Judge :: judge(0, "v") == Some(true) ==>
           ReopenedBefore(flow, judge, db.nodes, db, 1, 1) && IsStatus(LoopFold(flow, judge, db.nodes, db, 3), 1, Failed)
    ensures IsStatus(End(flow, more).db, 1, Failed)
  {
    NestedIsReadable(flow);
    NestedIsAccepted(flow);
    var v;
    acts, v := AllAreDone(flow);
    DoneIsFound(flow, acts, v);
    Look(flow, acts, v);
    var db := End(flow, acts).db;
    forall judge: Judge | judge(0, "v") == Some(true)
      ensures ReopenedBefore(flow, judge, db.nodes, db, 1, 1) && IsStatus(LoopFold(flow, judge, db.nodes, db, 3), 1, Failed)
    {
      OuterGoesFirst(flow, judge, db);
      InnerFails(flow, judge, db);
    }
    more := PassRuns(flow, acts, v);
  }
}
