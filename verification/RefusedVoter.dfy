/**
 A run in which one reserve pass asks a voter twice and then blocks it: its time is up, two quorums are decided without
 it, and a need of its own has failed.
 */
module RefusedVoter {
  import opened Prelude
  import opened Graph
  import opened Workflow
  import opened Store
  import opened Joins
  import opened Runs
  import opened Scenes
  import Validator

  predicate Reader(node: NodeSpec, needs: set<NodeId>, attempts: nat) {
    && node.needs == needs && node.required && node.retry == Retry(Some(attempts), None) && node.progress == Progress(None, None)
    && node.timeout.None? && node.route.None? && node.loop.None? && node.repair.None? && node.effect.None? && node.permission.Read?
  }

  /** Nodes 3 and 4 each go on after one of the voters 0 and 1; voter 1 needs node 2. */
  predicate Shared(flow: Flow) {
    && flow.ids == [0, 1, 2, 3, 4] && flow.nodes.Keys == {0, 1, 2, 3, 4} && flow.budgets == Budgets(2, 6, 2, 60)
    && Reader(flow.nodes[0], {}, 2) && Reader(flow.nodes[1], {2}, 2) && Reader(flow.nodes[2], {}, 1)
    && Reader(flow.nodes[3], {0, 1}, 2) && Reader(flow.nodes[4], {0, 1}, 2)
    && flow.nodes[0].join.None? && flow.nodes[1].join.None? && flow.nodes[2].join.None?
    && flow.nodes[3].join == Some(AnyOf) && flow.nodes[4].join == Some(AnyOf)
  }

  lemma SomeAreShared() returns (flow: Flow)
    ensures Shared(flow)
  {
    var node := NodeSpec({}, true, true, false, Ports(map[], {}, {}), None, Read, false, None, None, None, None,
                         Retry(Some(2), None), Progress(None, None), None);
    var consumer := node.(needs := {0, 1}, join := Some(AnyOf));
    flow := Flow([0, 1, 2, 3, 4],
                 map[0 := node, 1 := node.(needs := {2}), 2 := node.(retry := Retry(Some(1), None)), 3 := consumer, 4 := consumer],
                 Budgets(2, 6, 2, 60), {});
  }

  // ---------------------------------------------------------------- the workflow is accepted

  lemma NeedsAre(flow: Flow)
    requires Shared(flow)
    ensures NeedsOf(flow) == map[0 := {}, 1 := {2}, 2 := {}, 3 := {0, 1}, 4 := {0, 1}] && Closed(NeedsOf(flow))
  {
  }

  function Depth(n: NodeId): nat { if n == 1 then 1 else if n >= 3 then 2 else 0 }

  lemma IdsAre(flow: Flow)
    requires Shared(flow)
    ensures Increasing(flow.ids) && Listed(flow)
  {
    assert forall n :: n in flow.ids <==> n in {0, 1, 2, 3, 4};
  }

  lemma SharedIsReadable(flow: Flow)
    requires Shared(flow)
    ensures WellFormed(flow) && Plain(flow) && Validator.Readable(flow)
  {
    NeedsAre(flow);
    IdsAre(flow);
  }

  lemma Floor(flow: Flow)
    requires Shared(flow)
    ensures AttemptFloor(flow) == 5
  {
    SumBound(flow.ids, LoopCosts(flow), 0);
    SumBound(flow.ids, RepairCosts(flow), 0);
  }

  lemma SharedIsAccepted(flow: Flow)
    requires Shared(flow)
    ensures Validator.ControlAccepted(flow)
  {
    NeedsAre(flow);
    RankedIsAcyclic(NeedsOf(flow), Depth);
    Floor(flow);
  }

  // ---------------------------------------------------------------- who may start

  lemma OneIsEnough(rows: Rows)
    requires {0, 1} <= rows.Keys && rows[0].status.Succeeded?
    ensures Snapshot(AnyOf, {0, 1}, rows).decision == JoinSucceeded
  {
    assert 0 in With({0, 1}, rows, Succeeded);
  }

  lemma RoomAtFirst(flow: Flow, rows: Rows)
    requires Shared(flow) && rows.Keys == {0, 1, 2, 3, 4} && forall n :: n in rows ==> rows[n].status.Pending?
    ensures QuorumRoom(flow, 0, rows, {})
  {
    assert With({0, 1}, rows, Succeeded) == {} && InFlight({0, 1}, rows, {}) == {};
  }

  lemma CanStart(flow: Flow, acts: seq<Action>, v: Scene, n: NodeId)
    requires Shared(flow) && Plays(flow, acts, v) && n in flow.nodes && v.status[n].Pending? && n !in v.active && |v.active| < 2
    requires v.made[0] + v.made[1] + v.made[2] + v.made[3] + v.made[4] < 6
    requires var db := End(flow, acts).db; Ready(flow, db, v.active.Keys, n) || Reserve(flow, db, n)
    ensures CanLaunch(flow, End(flow, acts).db, v.active, n)
  {
    var s := End(flow, acts);
    TotalShows(flow, acts, v);
    SumOfFive(MadeOf(v));
    Look(flow, acts, v);
    assert RowShows(s.db, Generation(s), v, n);
  }

  lemma StartFollows(flow: Flow, acts: seq<Action>, v: Scene, n: NodeId)
    requires Plays(flow, acts, v) && CanLaunch(flow, End(flow, acts).db, v.active, n)
    ensures May(flow, acts, TxStart(n)) && May(flow, acts, TxAdmit(n))
  {
    Look(flow, acts, v);
  }

  lemma FirstMayVote(flow: Flow, acts: seq<Action>)
    requires Shared(flow) && Plays(flow, acts, Curtain(flow))
    ensures May(flow, acts, TxStart(0))
  {
    var db := End(flow, acts).db;
    StatusesShow(flow, acts, Curtain(flow));
    RoomAtFirst(flow, db.nodes);
    NeedsAre(flow);
    assert Ready(flow, db, {}, 0);
    CanStart(flow, acts, Curtain(flow), 0);
    StartFollows(flow, acts, Curtain(flow), 0);
  }

  lemma NeedIsReady(flow: Flow, db: Db)
    requires Shared(flow) && db.nodes.Keys == flow.nodes.Keys
    ensures Ready(flow, db, {0}, 2)
  {
    NeedsAre(flow);
  }

  lemma NeedMayStart(flow: Flow, acts: seq<Action>, v: Scene)
    requires Shared(flow) && Plays(flow, acts, v) && v.status[2].Pending? && v.active == map[0 := 1]
    requires v.made[0] + v.made[1] + v.made[2] + v.made[3] + v.made[4] < 6
    ensures May(flow, acts, TxStart(2))
  {
    StatusesShow(flow, acts, v);
    assert map[0 := 1].Keys == {0};
    NeedIsReady(flow, End(flow, acts).db);
    CanStart(flow, acts, v, 2);
    StartFollows(flow, acts, v, 2);
  }

  /** Both quorums are decided: voter 1 is launched, or asked, whatever its own need says. */
  lemma ReserveMayVote(flow: Flow, acts: seq<Action>, v: Scene)
    requires Shared(flow) && Plays(flow, acts, v) && v.status[0].Succeeded? && v.status[1].Pending? && 1 !in v.active && |v.active| < 2
    requires v.made[0] + v.made[1] + v.made[2] + v.made[3] + v.made[4] < 6
    ensures May(flow, acts, TxStart(1)) && May(flow, acts, TxAdmit(1))
  {
    var db := End(flow, acts).db;
    StatusesShow(flow, acts, v);
    OneIsEnough(db.nodes);
    assert ReserveOf(flow, db, 3, 1);
    CanStart(flow, acts, v, 1);
    StartFollows(flow, acts, v, 1);
  }

  // ---------------------------------------------------------------- the run

  predicate Counts(v: Scene, a: nat, b: nat, c: nat) { v.made == map[0 := a, 1 := b, 2 := c, 3 := 0, 4 := 0] }

  predicate Show(v: Scene, a: Status, b: Status, c: Status) {
    v.status == map[0 := a, 1 := b, 2 := c, 3 := Pending, 4 := Pending]
  }

  predicate Both(v: Scene) {
    && v.now == 0 && Show(v, Running, Pending, Running) && Counts(v, 1, 0, 1) && v.active == map[0 := 1, 2 := 1]
    && v.clean == {0, 1, 2, 3, 4} && v.outputs == map[]
  }

  predicate ReserveRuns(v: Scene) {
    && v.now == 0 && Show(v, Succeeded, Running, Running) && Counts(v, 1, 1, 1) && v.active == map[1 := 1, 2 := 1]
    && 1 in v.clean && 2 in v.clean && v.outputs == map[0 := map[]]
  }

  predicate NeedFailed(v: Scene) {
    Show(v, Succeeded, Pending, Failed) && Counts(v, 1, 1, 1) && v.active == map[] && v.outputs == map[0 := map[]]
  }

  lemma BothStart(flow: Flow) returns (acts: seq<Action>, v: Scene)
    requires Shared(flow) && Plain(flow)
    ensures Plays(flow, acts, v) && Both(v)
  {
    acts := FirstStarts(flow);
    var w := Starting(Curtain(flow), 0);
    FirstIs(flow);
    NeedMayStart(flow, acts, w);
    acts := Starts(flow, acts, w, 2);
    v := Starting(w, 2);
    BothIs(w);
  }

  lemma FirstStarts(flow: Flow) returns (acts: seq<Action>)
    requires Shared(flow) && Plain(flow)
    ensures Plays(flow, acts, Starting(Curtain(flow), 0))
  {
    acts := Opens(flow);
    FirstMayVote(flow, acts);
    acts := Starts(flow, acts, Curtain(flow), 0);
  }

  predicate First(v: Scene) {
    && v.now == 0 && Show(v, Running, Pending, Pending) && Counts(v, 1, 0, 0) && v.active == map[0 := 1]
    && v.clean == {0, 1, 2, 3, 4} && v.outputs == map[]
  }

  lemma FirstIs(flow: Flow)
    requires Shared(flow)
    ensures First(Starting(Curtain(flow), 0))
  {
  }

  lemma BothIs(w: Scene)
    requires First(w)
    ensures Both(Starting(w, 2))
  {
  }

  lemma ReserveStarts(flow: Flow) returns (acts: seq<Action>, v: Scene)
    requires Shared(flow) && Plain(flow)
    ensures Plays(flow, acts, v) && ReserveRuns(v)
  {
    var w;
    acts, w := BothStart(flow);
    acts := Succeeds(flow, acts, w, 0, map[]);
    var u := Succeeding(w, 0, map[]);
    VotedIs(w);
    ReserveMayVote(flow, acts, u);
    acts := Starts(flow, acts, u, 1);
    v := Starting(u, 1);
    ReserveIs(u);
  }

  predicate Voted(v: Scene) {
    && v.now == 0 && Show(v, Succeeded, Pending, Running) && Counts(v, 1, 0, 1) && v.active == map[2 := 1] && |v.active| == 1
    && 1 in v.clean && 2 in v.clean && v.outputs == map[0 := map[]]
  }

  lemma VotedIs(w: Scene)
    requires Both(w)
    ensures Voted(Succeeding(w, 0, map[]))
  {
    assert map[0 := 1, 2 := 1] - {0} == map[2 := 1];
  }

  lemma ReserveIs(u: Scene)
    requires Voted(u)
    ensures ReserveRuns(Starting(u, 1))
  {
  }

  /** The reserve voter fails with a try left, and the node it needs fails for good. */
  lemma BothFail(flow: Flow) returns (acts: seq<Action>, v: Scene)
    requires Shared(flow) && Plain(flow)
    ensures Plays(flow, acts, v) && NeedFailed(v) && v.now == 0
  {
    var w;
    acts, w := ReserveStarts(flow);
    var u := Writing(Losing(w, 1, Failed), 1, Pending);
    acts := ReserveFails(flow, acts, w);
    OwedIs(w);
    NoRetry(flow);
    acts := Fails(flow, acts, u, 2);
    v := Losing(u, 2, Failed);
    FailedIs(u);
  }

  lemma ReserveFails(flow: Flow, acts: seq<Action>, w: Scene) returns (more: seq<Action>)
    requires Shared(flow) && Plain(flow) && Plays(flow, acts, w) && ReserveRuns(w)
    ensures Plays(flow, more, Writing(Losing(w, 1, Failed), 1, Pending))
  {
    OneRetry(flow);
    more := FaultOwes(flow, acts, w, 1);
    more := Pays(flow, more, Losing(w, 1, Failed), 1, Pending);
  }

  lemma OneRetry(flow: Flow)
    requires Shared(flow)
    ensures Todo(flow, 1, 1, 0, Continue) == Some((1, Pending))
  {
  }

  lemma NoRetry(flow: Flow)
    requires Shared(flow)
    ensures Todo(flow, 2, 1, 0, Continue) == None
  {
  }

  predicate Owed(v: Scene) {
    && v.now == 0 && Show(v, Succeeded, Pending, Running) && Counts(v, 1, 1, 1) && v.active == map[2 := 1] && 2 in v.clean
    && v.outputs == map[0 := map[]]
  }

  lemma OwedIs(w: Scene)
    requires ReserveRuns(w)
    ensures Owed(Writing(Losing(w, 1, Failed), 1, Pending))
  {
    assert map[1 := 1, 2 := 1] - {1} == map[2 := 1];
  }

  lemma FailedIs(u: Scene)
    requires Owed(u)
    ensures NeedFailed(Losing(u, 2, Failed)) && Losing(u, 2, Failed).now == 0
  {
    assert map[2 := 1] - {2} == map[];
  }

  // ---------------------------------------------------------------- the pass

  /** The refused voter may be asked again. */
  lemma MayAskAgain(flow: Flow, acts: seq<Action>, v: Scene)
    requires Shared(flow) && Plays(flow, acts, v) && v.status[1].Failed? && 1 !in v.outputs
    requires var db := End(flow, acts).db; 1 in db.progress && db.progress[1].verdict == Stop
    ensures May(flow, acts, TxAdmit(1))
  {
    Look(flow, acts, v);
    var s := End(flow, acts);
    assert RowShows(s.db, Generation(s), v, 1);
    assert RefusedBefore(flow, s.db, 1);
  }

  /** And blocked, on the rows read before it was refused. */
  lemma MayBeBlocked(flow: Flow, acts: seq<Action>, v: Scene)
    requires Shared(flow) && Plays(flow, acts, v) && v.status[1].Failed? && v.status[2].Failed? && 1 !in v.outputs
    requires var db := End(flow, acts).db; 1 in db.progress && db.progress[1].verdict == Stop
    ensures May(flow, acts, TxStatus(1, Blocked))
  {
    Stands(flow, acts, v);
    KeepsOutputs(flow, acts, v);
    BlocksOnOldRows(flow, End(flow, acts).db);
    BlockingIsAllowed(flow, acts, v, 1);
  }

  lemma BlockingIsAllowed(flow: Flow, acts: seq<Action>, v: Scene, n: NodeId)
    requires Plays(flow, acts, v) && exists rows :: CanBlock(flow, End(flow, acts).db, rows, n)
    ensures May(flow, acts, TxStatus(n, Blocked))
  {
    Look(flow, acts, v);
  }

  lemma BlocksOnOldRows(flow: Flow, db: Db)
    requires Shared(flow) && db.nodes.Keys == flow.nodes.Keys && IsStatus(db, 1, Failed) && IsStatus(db, 2, Failed)
    requires Accepted(db, 1) == map[] && 1 in db.progress && db.progress[1].verdict == Stop
    ensures exists rows :: CanBlock(flow, db, rows, 1)
  {
    var rows := db.nodes[1 := db.nodes[1].(status := Pending)];
    assert Lags(rows, db.nodes) && 2 in flow.nodes[1].needs && Stops(rows[2].status);
    assert CanBlock(flow, db, rows, 1);
  }

  /**
   A run of an accepted workflow that ends with the pass in question: voter 1, pending when the rows are read, is refused
   for one consumer, asked and refused again for the next, and then overwritten as blocked.
   */
  lemma VoterIsAskedTwice(flow: Flow) returns (before: seq<Action>, acts: seq<Action>)
    requires Shared(flow)
    ensures Validator.Readable(flow) && Validator.ControlAccepted(flow)
    ensures Run(flow, Initial(flow), before) && IsStatus(End(flow, before).db, 1, Pending)
    ensures acts == before + [Do(TxAdmit(1))] + [Do(TxAdmit(1))] + [Do(TxStatus(1, Blocked))] && Run(flow, Initial(flow), acts)
    ensures IsStatus(End(flow, before + [Do(TxAdmit(1))]).db, 1, Failed)
    ensures var db := End(flow, before + [Do(TxAdmit(1))] + [Do(TxAdmit(1))]).db;
      IsStatus(db, 1, Failed) && 1 in db.progress && db.progress[1].verdict == Stop
    ensures IsStatus(End(flow, acts).db, 1, Blocked)
  {
    SharedIsReadable(flow);
    SharedIsAccepted(flow);
    var w;
    acts, w := BothFail(flow);
    before := Waits(flow, acts, w, 60);
    acts := Refused(flow, before, w.(now := 60));
  }

  lemma Refused(flow: Flow, before: seq<Action>, v: Scene) returns (acts: seq<Action>)
    requires Shared(flow) && Plays(flow, before, v) && NeedFailed(v) && v.now == 60
    ensures Run(flow, Initial(flow), before) && IsStatus(End(flow, before).db, 1, Pending)
    ensures acts == before + [Do(TxAdmit(1))] + [Do(TxAdmit(1))] + [Do(TxStatus(1, Blocked))] && Run(flow, Initial(flow), acts)
    ensures IsStatus(End(flow, before + [Do(TxAdmit(1))]).db, 1, Failed)
    ensures var db := End(flow, before + [Do(TxAdmit(1))] + [Do(TxAdmit(1))]).db;
      IsStatus(db, 1, Failed) && 1 in db.progress && db.progress[1].verdict == Stop
    ensures IsStatus(End(flow, acts).db, 1, Blocked)
  {
    var w := Writing(v, 1, Failed);
    var once := FirstRefusal(flow, before, v);
    var twice := SecondRefusal(flow, once, w);
    MayBeBlocked(flow, twice, w);
    acts := Writes(flow, twice, w, 1, Blocked);
    Stands(flow, acts, Writing(w, 1, Blocked));
  }

  lemma FirstRefusal(flow: Flow, before: seq<Action>, v: Scene) returns (once: seq<Action>)
    requires Shared(flow) && Plays(flow, before, v) && NeedFailed(v) && v.now == 60
    ensures Run(flow, Initial(flow), before) && IsStatus(End(flow, before).db, 1, Pending)
    ensures once == before + [Do(TxAdmit(1))] && Plays(flow, once, Writing(v, 1, Failed))
    ensures var db := End(flow, once).db; IsStatus(db, 1, Failed) && 1 in db.progress && db.progress[1].verdict == Stop
  {
    ReserveMayVote(flow, before, v);
    once := Refuses(flow, before, v, 1);
    Stands(flow, before, v);
    Stands(flow, once, Writing(v, 1, Failed));
  }

  lemma StaysFailed(w: Scene)
    requires 1 in w.status && w.status[1] == Failed
    ensures Writing(w, 1, Failed) == w
  {
    assert w.status[1 := Failed] == w.status;
  }

  lemma SecondRefusal(flow: Flow, once: seq<Action>, w: Scene) returns (twice: seq<Action>)
    requires Shared(flow) && Plays(flow, once, w) && w.status[1].Failed? && w.made[1] > 0 && 1 !in w.outputs && w.now == 60
    requires var db := End(flow, once).db; 1 in db.progress && db.progress[1].verdict == Stop
    ensures twice == once + [Do(TxAdmit(1))] && Plays(flow, twice, w)
    ensures var db := End(flow, twice).db; IsStatus(db, 1, Failed) && 1 in db.progress && db.progress[1].verdict == Stop
  {
    MayAskAgain(flow, once, w);
    StaysFailed(w);
    twice := Refuses(flow, once, w, 1);
    Stands(flow, twice, w);
  }
}
