/**
 A run in which an owner waits for an attempt that is no longer its node's own: a reserve voter is still running when a
 loop over it is taken.  If that attempt is overdue at its turn, its late result leaves the scheduler.
 */
module LateVoter {
  import opened Prelude
  import opened Graph
  import opened Workflow
  import opened Store
  import opened Joins
  import opened Runs
  import opened Settling
  import opened Scenes
  import Validator

  /** A reading node that may be tried twice. */
  predicate Reader(node: NodeSpec, needs: set<NodeId>) {
    && node.needs == needs && node.required && node.retry == Retry(Some(2), None) && node.progress == Progress(None, None)
    && node.timeout.None? && node.route.None? && node.repair.None? && node.effect.None? && node.permission.Read?
  }

  /** Node 2 goes on as soon as one of the voters 0 and 1 has succeeded, and may go back to voter 1. */
  predicate Raced(flow: Flow) {
    && flow.ids == [0, 1, 2] && flow.nodes.Keys == {0, 1, 2} && flow.budgets == Budgets(2, 5, 2, 60)
    && Reader(flow.nodes[0], {}) && flow.nodes[0].join.None? && flow.nodes[0].loop.None?
    && Reader(flow.nodes[1], {}) && flow.nodes[1].join.None? && flow.nodes[1].loop.None?
    && Reader(flow.nodes[2], {0, 1}) && flow.nodes[2].join == Some(AnyOf) && flow.nodes[2].loop == Some(Loop(1, "verdict", 2))
    && "verdict" in flow.nodes[2].ports.outputs
  }

  lemma SomeAreRaced() returns (flow: Flow)
    ensures Raced(flow)
  {
    var node := NodeSpec({}, true, true, false, Ports(map[], {"verdict"}, {}), None, Read, false, None, None, None, None,
                         Retry(Some(2), None), Progress(None, None), None);
    var consumer := node.(needs := {0, 1}, join := Some(AnyOf), loop := Some(Loop(1, "verdict", 2)));
    flow := Flow([0, 1, 2], map[0 := node, 1 := node, 2 := consumer], Budgets(2, 5, 2, 60), {});
  }

  // ---------------------------------------------------------------- the workflow is accepted

  lemma NeedsAre(flow: Flow)
    requires Raced(flow)
    ensures NeedsOf(flow) == map[0 := {}, 1 := {}, 2 := {0, 1}] && Closed(NeedsOf(flow))
  {
  }

  lemma Order(g: Needs<NodeId>)
    requires g == map[0 := {}, 1 := {}, 2 := {0, 1}]
    ensures Acyclic(g) && Ancestor(g, 1, 2) && !Ancestor(g, 1, 0)
  {
    RankedIsAcyclic(g, n => n);
    assert Connects(g, [1, 2], 1, 2);
    if Ancestor(g, 1, 0) { AncestorsRankLower(g, n => n, 1, 0); }
  }

  lemma Region(flow: Flow)
    requires Raced(flow)
    ensures LoopRegion(flow, 2, 1) == {1, 2}
  {
    NeedsAre(flow);
    Order(NeedsOf(flow));
  }

  lemma RacedIsReadable(flow: Flow)
    requires Raced(flow)
    ensures WellFormed(flow) && Plain(flow) && Validator.Readable(flow)
  {
    NeedsAre(flow);
    IdsAre(flow);
  }

  lemma IdsAre(flow: Flow)
    requires Raced(flow)
    ensures Increasing(flow.ids) && Listed(flow)
  {
  }

  lemma Floor(flow: Flow)
    requires Raced(flow)
    ensures AttemptFloor(flow) == 5
  {
    Region(flow);
    SumOfThree(LoopCosts(flow));
    assert LoopCosts(flow)(0) == 0 && LoopCosts(flow)(1) == 0 && LoopCosts(flow)(2) == 2;
    SumBound(flow.ids, RepairCosts(flow), 0);
  }

  lemma RacedIsAccepted(flow: Flow)
    requires Raced(flow)
    ensures Validator.ControlAccepted(flow)
  {
    NeedsAre(flow);
    Order(NeedsOf(flow));
    Region(flow);
    Floor(flow);
    forall n | n in flow.nodes
      ensures Validator.RouteAccepted(flow, n) && Validator.LoopAccepted(flow, n) && Validator.RepairAccepted(flow, n)
    {
    }
  }

  // ---------------------------------------------------------------- who may start

  /** Before anybody has voted the quorum has room for one voter. */
  lemma FirstHasRoom(flow: Flow, rows: Rows)
    requires Raced(flow) && rows.Keys == {0, 1, 2} && forall n :: n in rows ==> rows[n].status.Pending?
    ensures QuorumRoom(flow, 0, rows, {})
  {
    assert With({0, 1}, rows, Succeeded) == {} && InFlight({0, 1}, rows, {}) == {};
  }

  /** One success decides the quorum. */
  lemma OneIsEnough(rows: Rows)
    requires {0, 1} <= rows.Keys && rows[0].status.Succeeded?
    ensures Snapshot(AnyOf, {0, 1}, rows).decision == JoinSucceeded
  {
    assert 0 in With({0, 1}, rows, Succeeded);
  }

  lemma LaunchFits(flow: Flow, acts: seq<Action>, v: Scene, n: NodeId)
    requires Raced(flow) && Plays(flow, acts, v) && n in flow.nodes && v.status[n].Pending? && n !in v.active && |v.active| < 2
    requires v.made[0] + v.made[1] + v.made[2] < 5
    requires var db := End(flow, acts).db; Ready(flow, db, v.active.Keys, n) || Reserve(flow, db, n)
    ensures May(flow, acts, TxStart(n))
  {
    var s := End(flow, acts);
    TotalShows(flow, acts, v);
    SumOfThree(MadeOf(v));
    Look(flow, acts, v);
    assert RowShows(s.db, Generation(s), v, n);
    MayStart(flow, s, v, n);
  }

  lemma FirstMayVote(flow: Flow, acts: seq<Action>)
    requires Raced(flow) && Plays(flow, acts, Curtain(flow))
    ensures May(flow, acts, TxStart(0))
  {
    var db := End(flow, acts).db;
    StatusesShow(flow, acts, Curtain(flow));
    FirstHasRoom(flow, db.nodes);
    NeedsAre(flow);
    assert Ready(flow, db, {}, 0);
    LaunchFits(flow, acts, Curtain(flow), 0);
  }

  /** Once the quorum is decided, the reserve voter starts as well. */
  lemma SecondMayVote(flow: Flow, acts: seq<Action>, v: Scene)
    requires Raced(flow) && Plays(flow, acts, v) && v.status[0].Succeeded? && v.status[1].Pending? && v.active == map[]
    requires v.made[0] + v.made[1] + v.made[2] < 5
    ensures May(flow, acts, TxStart(1))
  {
    var db := End(flow, acts).db;
    StatusesShow(flow, acts, v);
    OneIsEnough(db.nodes);
    assert ReserveOf(flow, db, 2, 1);
    LaunchFits(flow, acts, v, 1);
  }

  lemma ConsumerIsReady(flow: Flow, db: Db)
    requires Raced(flow) && db.nodes.Keys == {0, 1, 2} && 2 in db.control.joins && db.control.joins[2].decision == JoinSucceeded
    ensures Ready(flow, db, {1}, 2)
  {
    NeedsAre(flow);
  }

  /** And the consumer, once its decision is recorded. */
  lemma ConsumerMayStart(flow: Flow, acts: seq<Action>, v: Scene)
    requires Raced(flow) && Plays(flow, acts, v) && v.status[2].Pending? && v.active == map[1 := 1]
    requires v.decisions == map[2 := JoinSucceeded] && v.made[0] + v.made[1] + v.made[2] < 5
    ensures May(flow, acts, TxStart(2))
  {
    StatusesShow(flow, acts, v);
    DecisionsAre(flow, acts, v);
    ConsumerIsReady(flow, End(flow, acts).db);
    assert map[1 := 1].Keys == {1};
    LaunchFits(flow, acts, v, 2);
  }

  // ---------------------------------------------------------------- the run

  predicate Voted(v: Scene) {
    && v.now == 0 && v.status == map[0 := Succeeded, 1 := Pending, 2 := Pending] && v.made == map[0 := 1, 1 := 0, 2 := 0]
    && v.active == map[] && v.decisions == map[] && v.loops == map[]
  }

  predicate Racing(v: Scene) {
    && v.now == 0 && v.status == map[0 := Succeeded, 1 := Running, 2 := Pending] && v.made == map[0 := 1, 1 := 1, 2 := 0]
    && v.active == map[1 := 1] && v.decisions == map[2 := JoinSucceeded] && v.loops == map[]
  }

  predicate Won(v: Scene) {
    && v.now == 0 && v.status == map[0 := Succeeded, 1 := Running, 2 := Succeeded] && v.made == map[0 := 1, 1 := 1, 2 := 1]
    && v.active == map[1 := 1] && v.loops == map[]
  }

  /** The first voter succeeds. */
  lemma OneVotes(flow: Flow) returns (acts: seq<Action>, v: Scene)
    requires Raced(flow) && Plain(flow)
    ensures Plays(flow, acts, v) && Voted(v)
  {
    acts := Opens(flow);
    FirstMayVote(flow, acts);
    var w := Curtain(flow);
    acts := Starts(flow, acts, w, 0);
    acts := Succeeds(flow, acts, Starting(w, 0), 0, map[]);
    v := Succeeding(Starting(w, 0), 0, map[]);
    VotedIs(flow);
  }

  lemma VotedIs(flow: Flow)
    requires Raced(flow)
    ensures Voted(Succeeding(Starting(Curtain(flow), 0), 0, map[]))
  {
    assert map[0 := 1] - {0} == map[];
  }

  /** The second one is launched as well, and the decision is recorded. */
  lemma OtherRuns(flow: Flow) returns (acts: seq<Action>, v: Scene)
    requires Raced(flow) && Plain(flow)
    ensures Plays(flow, acts, v) && Racing(v)
  {
    var w;
    acts, w := OneVotes(flow);
    SecondMayVote(flow, acts, w);
    acts := Starts(flow, acts, w, 1);
    var u := Starting(w, 1);
    StatusesShow(flow, acts, u);
    OneIsEnough(End(flow, acts).db.nodes);
    acts := Records(flow, acts, u, 2, JoinSucceeded);
    v := Deciding(u, 2, JoinSucceeded);
    RacingIs(w);
  }

  lemma RacingIs(w: Scene)
    requires Voted(w)
    ensures Racing(Deciding(Starting(w, 1), 2, JoinSucceeded))
  {
  }

  /** The consumer runs and succeeds meanwhile. */
  lemma ConsumerWins(flow: Flow) returns (acts: seq<Action>, v: Scene)
    requires Raced(flow) && Plain(flow)
    ensures Plays(flow, acts, v) && Won(v)
  {
    var w;
    acts, w := OtherRuns(flow);
    ConsumerMayStart(flow, acts, w);
    acts := Starts(flow, acts, w, 2);
    acts := Succeeds(flow, acts, Starting(w, 2), 2, map["verdict" := "v"]);
    v := Succeeding(Starting(w, 2), 2, map["verdict" := "v"]);
    WonIs(w);
  }

  lemma WonIs(w: Scene)
    requires Racing(w)
    ensures Won(Succeeding(Starting(w, 2), 2, map["verdict" := "v"]))
  {
    assert map[1 := 1, 2 := 1] - {2} == map[1 := 1];
  }

  /** What the owner waits for is not its node's own attempt any more. */
  predicate WaitsInVain(s: Sys, n: NodeId) {
    s.session.Some? && n in s.session.value.active && !Own(Moment(s.db, s.session.value.active), n, s.session.value.lease.generation)
  }

  /**
   A run of an accepted workflow after which the owner waits for an attempt of voter 1 that a loop has replaced: overdue at
   its turn, it ends the loop (`Schedulers.Scheduler.Expire`).
   */
  lemma VoterIsReplaced(flow: Flow) returns (acts: seq<Action>)
    requires Raced(flow)
    ensures Validator.Readable(flow) && Validator.ControlAccepted(flow) && Run(flow, Initial(flow), acts)
    ensures var s := End(flow, acts);
      WaitsInVain(s, 1) && IsStatus(s.db, 1, Pending) && s.session.value.todo.None? && InLoopPhase(s.session.value)
  {
    RacedIsReadable(flow);
    RacedIsAccepted(flow);
    Region(flow);
    var w;
    acts, w := ConsumerWins(flow);
    acts := Loops(flow, acts, w, 2, {1, 2}, true);
    var v := Decided(w, 2, {1, 2}, true);
    Look(flow, acts, v);
    StatusesShow(flow, acts, v);
  }
}
