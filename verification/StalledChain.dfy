/**
 A run in which the loop ends without progress: on a chain of three nodes the first fails, and the failure has reached
 the second node only when nothing is left to do.
 */
module StalledChain {
  import opened Prelude
  import opened Graph
  import opened Workflow
  import opened Store
  import opened Joins
  import opened Runs
  import opened Passes
  import opened ControlPasses
  import opened Settling
  import opened Stalls
  import opened Scenes
  import Validator

  /** A node that is tried once, decides nothing and repairs nothing. */
  predicate Link(node: NodeSpec, needs: set<NodeId>) {
    && node.needs == needs && node.required && node.retry == Retry(None, None) && node.progress == Progress(None, None)
    && node.timeout.None? && node.join.None? && node.route.None? && node.loop.None? && node.repair.None?
  }

  predicate Chained(flow: Flow) {
    && flow.ids == [0, 1, 2] && flow.nodes.Keys == {0, 1, 2} && flow.budgets == Budgets(1, 3, 1, 60)
    && Link(flow.nodes[0], {}) && Link(flow.nodes[1], {0}) && Link(flow.nodes[2], {1})
  }

  function Chain(): Flow {
    var node := NodeSpec({}, true, true, false, Ports(map[], {}, {}), None, Read, false, None, None, None, None,
                         Retry(None, None), Progress(None, None), None);
    Flow([0, 1, 2], map[0 := node, 1 := node.(needs := {0}), 2 := node.(needs := {1})], Budgets(1, 3, 1, 60), {})
  }

  lemma ChainIsChained()
    ensures Chained(Chain())
  {
  }

  // ---------------------------------------------------------------- the workflow is accepted

  lemma NeedsAre(flow: Flow)
    requires Chained(flow)
    ensures NeedsOf(flow) == map[0 := {}, 1 := {0}, 2 := {1}] && Closed(NeedsOf(flow))
  {
  }

  lemma IdsAre(flow: Flow)
    requires Chained(flow)
    ensures Increasing(flow.ids) && Listed(flow)
  {
  }

  lemma Floor(flow: Flow)
    requires Chained(flow)
    ensures AttemptFloor(flow) == 3
  {
    SumBound(flow.ids, LoopCosts(flow), 0);
    SumBound(flow.ids, RepairCosts(flow), 0);
  }

  lemma ChainIsReadable(flow: Flow)
    requires Chained(flow)
    ensures WellFormed(flow) && Plain(flow) && Validator.Readable(flow)
  {
    NeedsAre(flow);
    IdsAre(flow);
  }

  lemma ChainIsAccepted(flow: Flow)
    requires Chained(flow)
    ensures Validator.ControlAccepted(flow)
  {
    NeedsAre(flow);
    RankedIsAcyclic(NeedsOf(flow), n => n);
    Floor(flow);
  }

  // ---------------------------------------------------------------- the run

  lemma FirstMayStart(flow: Flow, acts: seq<Action>)
    requires Chained(flow) && Plays(flow, acts, Curtain(flow))
    ensures May(flow, acts, TxStart(0))
  {
    var v, s := Curtain(flow), End(flow, acts);
    Look(flow, acts, v);
    TotalShows(flow, acts, v);
    SumBound(flow.ids, MadeOf(v), 0);
    assert RowShows(s.db, Generation(s), v, 0);
    FirstIsReady(flow, s.db);
    MayStart(flow, s, v, 0);
  }

  lemma FirstIsReady(flow: Flow, db: Db)
    requires Chained(flow) && db.nodes.Keys == flow.nodes.Keys
    ensures Ready(flow, db, {}, 0)
  {
    NeedsAre(flow);
  }

  /** The first node has failed, and nobody is waited for. */
  function Broken(flow: Flow): Scene
    requires 0 in flow.nodes
  {
    Losing(Starting(Curtain(flow), 0), 0, Failed)
  }

  lemma FirstStarts(flow: Flow) returns (acts: seq<Action>)
    requires Chained(flow) && Plain(flow)
    ensures Plays(flow, acts, Starting(Curtain(flow), 0))
  {
    acts := Opens(flow);
    FirstMayStart(flow, acts);
    acts := Starts(flow, acts, Curtain(flow), 0);
  }

  lemma NoRetry(flow: Flow)
    requires Chained(flow)
    ensures Todo(flow, 0, 1, 0, Continue) == None
  {
  }

  lemma FirstFails(flow: Flow) returns (acts: seq<Action>)
    requires Chained(flow) && Plain(flow)
    ensures Plays(flow, acts, Broken(flow))
  {
    acts := FirstStarts(flow);
    NoRetry(flow);
    acts := Fails(flow, acts, Starting(Curtain(flow), 0), 0);
  }

  // ---------------------------------------------------------------- and what follows

  /** The first node has failed and the others are pending, in any tables. */
  predicate FirstFailed(flow: Flow, db: Db) {
    && Chained(flow) && db.nodes.Keys == flow.nodes.Keys && AttemptTotal(flow, db) < 3
    && IsStatus(db, 0, Failed) && IsStatus(db, 1, Pending) && IsStatus(db, 2, Pending)
  }

  lemma RowsAreThere(flow: Flow, db: Db)
    requires FirstFailed(flow, db)
    ensures RowsFor(flow, db.nodes)
  {
  }

  lemma NothingToJudge(flow: Flow, judge: Judge, db: Db)
    requires Chained(flow)
    ensures Controlled(flow, judge, db) == db && NoRepair(flow, db)
  {
    LoopsStand(flow, judge, db, 3);
    RoutesStand(flow, judge, db, 3);
  }

  lemma {:induction false} LoopsStand(flow: Flow, judge: Judge, db: Db, i: nat)
    requires Chained(flow) && i <= 3
    ensures LoopFold(flow, judge, db.nodes, db, i) == db
  {
    if i > 0 { LoopsStand(flow, judge, db, i - 1); }
  }

  lemma {:induction false} RoutesStand(flow: Flow, judge: Judge, db: Db, i: nat)
    requires Chained(flow) && i <= 3
    ensures RouteFold(flow, judge, db.nodes, db, i) == db
  {
    if i > 0 { RoutesStand(flow, judge, db, i - 1); }
  }

  /** The last node's need is pending when the rows are read, so the failure does not reach it in this iteration. */
  lemma LastTravels(flow: Flow, db: Db)
    requires FirstFailed(flow, db) && RowsFor(flow, db.nodes)
    ensures Travelling(flow, db.nodes, 2)
  {
    assert 1 in flow.nodes[2].needs;
  }

  lemma NoVoters(flow: Flow, order: seq<NodeId>, rows: Rows)
    requires Chained(flow)
    ensures Voters(flow, order, rows, {}) == {}
  {
  }

  lemma ChainStalls(flow: Flow, db: Db, order: seq<NodeId>, skipped: bool)
    requires FirstFailed(flow, db) && RowsFor(flow, db.nodes)
    ensures Stalled(flow, order, db, skipped)
  {
    LastTravels(flow, db);
    NoVoters(flow, order, db.nodes);
    assert LeftBehind(flow, order, db, skipped, 2);
    StalledExactly(flow, order, db, skipped);
  }

  /** The second node is blocked, the last one waits for it. */
  lemma NotMet(flow: Flow, db: Db, decisions: map<NodeId, Decision>)
    requires FirstFailed(flow, db)
    ensures !NeedsMet(flow, db.nodes, decisions, 1) && !NeedsMet(flow, db.nodes, decisions, 2)
  {
    assert 0 in flow.nodes[1].needs && 1 in flow.nodes[2].needs;
  }

  lemma NotDue(flow: Flow, rows: Rows, decisions: map<NodeId, Decision>)
    requires Chained(flow) && RowsFor(flow, rows) && !rows[0].status.Pending?
    requires !NeedsMet(flow, rows, decisions, 1) && !NeedsMet(flow, rows, decisions, 2)
    ensures Due(flow, rows, {}, decisions) == {}
  {
  }

  lemma FirstNotPending(flow: Flow, db: Db, order: seq<NodeId>)
    requires FirstFailed(flow, db) && RowsFor(flow, db.nodes)
    ensures !AfterBlock(flow, order, db, map[])[0].status.Pending?
  {
    PendingAfterBlock(flow, order, db, 0);
  }

  lemma LaterNotMet(flow: Flow, db: Db, order: seq<NodeId>, n: NodeId)
    requires FirstFailed(flow, db) && RowsFor(flow, db.nodes) && n in {1, 2}
    ensures !NeedsMet(flow, AfterBlock(flow, order, db, map[]), Decisions(flow, db), n)
  {
    NeedsStayMet(flow, order, db, map[], n);
    NotMet(flow, db, Decisions(flow, db));
  }

  lemma NoneIsDue(flow: Flow, db: Db, order: seq<NodeId>)
    requires FirstFailed(flow, db) && RowsFor(flow, db.nodes)
    ensures NobodyDue(flow, order, db, map[])
  {
    NoVoters(flow, order, db.nodes);
    FirstNotPending(flow, db, order);
    LaterNotMet(flow, db, order, 1);
    LaterNotMet(flow, db, order, 2);
    NotDue(flow, AfterBlock(flow, order, db, map[]), Decisions(flow, db));
  }

  /**
   A run of an accepted workflow after which the loop cannot go on: in the state it reaches nothing is waited for, nothing
   is due, and the rows are stalled.
   */
  lemma ChainRunStalls(flow: Flow) returns (acts: seq<Action>)
    requires Chained(flow)
    ensures Validator.Readable(flow) && Validator.ControlAccepted(flow) && Run(flow, Initial(flow), acts)
    ensures var s := End(flow, acts);
      && s.session.Some? && s.session.value.active == map[] && s.session.value.todo.None? && FirstFailed(flow, s.db)
      && NoWayOnFrom(flow, s.db)
  {
    ChainIsReadable(flow);
    ChainIsAccepted(flow);
    acts := FirstFails(flow);
    BrokenShows(flow, acts);
    FailureIsFinal(flow, End(flow, acts).db);
  }

  /** Nothing is due, and the rows are stalled, in any order of declaration and whether or not a cancel event is seen. */
  ghost predicate NoWayOnFrom(flow: Flow, db: Db) {
    && RowsFor(flow, db.nodes)
    && (forall order :: NobodyDue(flow, order, db, map[]))
    && forall order, skipped :: Stalled(flow, order, db, skipped)
  }

  lemma FailureIsFinal(flow: Flow, db: Db)
    requires FirstFailed(flow, db)
    ensures NoWayOnFrom(flow, db)
  {
    RowsAreThere(flow, db);
    forall order ensures NobodyDue(flow, order, db, map[]) {
      NoneIsDue(flow, db, order);
    }
    forall order, skipped ensures Stalled(flow, order, db, skipped) {
      ChainStalls(flow, db, order, skipped);
    }
  }

  lemma BrokenShows(flow: Flow, acts: seq<Action>)
    requires Chained(flow) && Plays(flow, acts, Broken(flow))
    ensures var s := End(flow, acts);
      s.session.Some? && s.session.value.active == map[] && s.session.value.todo.None? && FirstFailed(flow, s.db)
    ensures Run(flow, Initial(flow), acts)
  {
    var v := Broken(flow);
    BrokenIs(flow);
    StatusesShow(flow, acts, v);
    TotalShows(flow, acts, v);
    Look(flow, acts, v);
  }

  lemma BrokenIs(flow: Flow)
    requires Chained(flow)
    ensures var v := Broken(flow);
      && v.status == map[0 := Failed, 1 := Pending, 2 := Pending] && v.active == map[] && Sum(flow.ids, MadeOf(v)) == 1
  {
    assert flow.ids[1..] == [1, 2] && [1, 2][1..] == [2] && [2][1..] == [];
    assert map[0 := 1] - {0} == map[];
  }
}
