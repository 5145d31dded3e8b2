/**
 The bound on attempts is attained.  For every retry limit and every iteration ceiling it covers there is a workflow the
 validator accepts, and a run of it in which a loop takes a node past its limit by all the iterations after the first.
 */
module LoopOverrun {
  import opened Prelude
  import opened Graph
  import opened Workflow
  import opened Store
  import opened Joins
  import opened Runs
  import opened RetryLimits
  import Validator

  /** A reading node, and a controller that sends it round again; both may be tried `limit` times. */
  function Worker(limit: nat): NodeSpec {
    NodeSpec({}, true, true, false, Ports(map[], {}, {}), None, Read, false, None, None, None, None, Retry(Some(limit), None), Progress(None, None), None)
  }

  function Controller(limit: nat, rounds: nat): NodeSpec {
    NodeSpec({0}, true, true, false, Ports(map[], {"verdict"}, {}), None, Read, false, None, None, Some(Loop(0, "verdict", rounds)), None,
             Retry(Some(limit), None), Progress(None, None), None)
  }

  function LoopFlow(limit: nat, rounds: nat): Flow {
    Flow([0, 1], map[0 := Worker(limit), 1 := Controller(limit, rounds)],
         Budgets(1, limit + 2 * rounds, limit, 60), {})
  }

  // ---------------------------------------------------------------- the workflow is accepted

  lemma LoopedIsWellFormed(limit: nat, rounds: nat)
    requires rounds >= 1
    ensures WellFormed(LoopFlow(limit, rounds)) && NeedsOf(LoopFlow(limit, rounds)) == map[0 := {}, 1 := {0}]
  {
    NeedsAre(limit, rounds);
    IdsAre(limit, rounds);
  }

  lemma NeedsAre(limit: nat, rounds: nat)
    ensures NeedsOf(LoopFlow(limit, rounds)) == map[0 := {}, 1 := {0}] && Closed(NeedsOf(LoopFlow(limit, rounds)))
  {
  }

  lemma IdsAre(limit: nat, rounds: nat)
    ensures Increasing(LoopFlow(limit, rounds).ids) && Listed(LoopFlow(limit, rounds))
  {
    assert forall n :: n in LoopFlow(limit, rounds).ids <==> n == 0 || n == 1;
  }

  lemma OneEdge(g: Needs<NodeId>)
    requires g == map[0 := {}, 1 := {0}]
    ensures Acyclic(g) && Ancestor(g, 0, 1)
  {
    RankedIsAcyclic(g, n => n);
    assert Connects(g, [0, 1], 0, 1);
  }

  lemma RegionIsBoth(limit: nat, rounds: nat)
    requires rounds >= 1
    ensures LoopRegion(LoopFlow(limit, rounds), 1, 0) == {0, 1}
  {
  }

  /** The cost of the only loop. */
  lemma Floor(limit: nat, rounds: nat)
    requires rounds >= 1
    ensures AttemptFloor(LoopFlow(limit, rounds)) == 2 * rounds
  {
    var flow := LoopFlow(limit, rounds);
    RegionIsBoth(limit, rounds);
    assert flow.ids[1..] == [1] && [1][1..] == [];
    assert LoopCosts(flow)(0) == 0 && LoopCosts(flow)(1) == 2 * (rounds - 1);
    assert RepairCosts(flow)(0) == 0 && RepairCosts(flow)(1) == 0;
    assert Sum(flow.ids, LoopCosts(flow)) == 2 * (rounds - 1);
    assert Sum(flow.ids, RepairCosts(flow)) == 0;
  }

  lemma LoopedIsAccepted(limit: nat, rounds: nat)
    requires 1 <= rounds <= limit
    ensures WellFormed(LoopFlow(limit, rounds)) && Validator.ControlAccepted(LoopFlow(limit, rounds))
  {
    var flow := LoopFlow(limit, rounds);
    LoopedIsWellFormed(limit, rounds);
    OneEdge(NeedsOf(flow));
    RegionIsBoth(limit, rounds);
    Floor(limit, rounds);
    assert Validator.LoopAccepted(flow, 0) && Validator.LoopAccepted(flow, 1);
    assert Validator.RepairAccepted(flow, 0) && Validator.RepairAccepted(flow, 1);
  }

  /** The bound that the declarations of this workflow give. */
  lemma DeclaredBound(limit: nat, rounds: nat)
    requires 1 <= rounds <= limit
    ensures var flow := LoopFlow(limit, rounds);
      Base(flow, 0) + Sum(flow.ids, LoopCeilingsOf(flow, 0)) == limit + rounds - 1
  {
    var flow := LoopFlow(limit, rounds);
    RegionIsBoth(limit, rounds);
    assert flow.ids[1..] == [1] && [1][1..] == [];
    assert LoopCeilingsOf(flow, 0)(0) == 0 && LoopCeilingsOf(flow, 0)(1) == rounds - 1;
  }

  // ---------------------------------------------------------------- what one transaction does

  /** The progress budget of a node is not used up. */
  predicate Fresh(db: Db, n: NodeId, now: Time) {
    && n in db.progress
    && var row := db.progress[n];
       && row.maxElapsed == 60 && row.maxChecks.None? && row.noProgressLimit == 1 && row.noProgress == 0
       && (row.startedAt.None? ==> row.deadlineAt.None?)
       && (row.startedAt.Some? ==> row.startedAt == Some(now) && row.deadlineAt == Some(now + 60))
  }

  predicate BothFresh(db: Db, now: Time) { Fresh(db, 0, now) && Fresh(db, 1, now) }

  /** Only the row of `n` differs, and budgets are as fresh as before. */
  predicate Touches(db: Db, later: Db, n: NodeId, now: Time) {
    && n in later.nodes && db.nodes.Keys == later.nodes.Keys == {0, 1} && later.nodes == db.nodes[n := later.nodes[n]]
    && BothFresh(later, now) && later.control == db.control && later.run == db.run
  }

  lemma Begins(db: Db, n: NodeId, generation: nat, now: Time)
    requires db.nodes.Keys == {0, 1} && n in {0, 1} && IsStatus(db, n, Pending) && BothFresh(db, now)
    ensures var (later, reply) := StartAttempt(db, n, generation, now);
      && Touches(db, later, n, now) && reply == Started(db.nodes[n].attemptCount + 1)
      && later.nodes[n].attemptCount == db.nodes[n].attemptCount + 1 && later.nodes[n].status.Running?
      && ActiveAttempt(later, n, later.nodes[n].attemptCount, generation) && later.progress[n].startedAt.Some?
  {
  }

  lemma Succeeds(db: Db, n: NodeId, number: nat, generation: nat, now: Time)
    requires db.nodes.Keys == {0, 1} && n in {0, 1} && BothFresh(db, now)
    requires ActiveAttempt(db, n, number, generation) && db.progress[n].startedAt.Some?
    ensures var (later, reply) := SucceedAttempt(db, n, number, "", map[], None, generation, now);
      && Touches(db, later, n, now) && reply.Done?
      && later.nodes[n].status.Succeeded? && later.nodes[n].attemptCount == db.nodes[n].attemptCount
  {
  }

  /** A failure that is not the one seen last. */
  function NewFailure(db: Db): (digest: Digest)
    requires 0 in db.nodes && 0 in db.progress
    ensures db.nodes[0].lastDigest != Some(digest) && db.progress[0].failure != Some(digest)
  {
    if db.nodes[0].lastDigest != Some("a") && db.progress[0].failure != Some("a") then "a"
    else if db.nodes[0].lastDigest != Some("b") && db.progress[0].failure != Some("b") then "b"
    else "c"
  }

  lemma FailsAnew(db: Db, number: nat, generation: nat, now: Time)
    requires db.nodes.Keys == {0, 1} && BothFresh(db, now)
    requires ActiveAttempt(db, 0, number, generation) && db.progress[0].startedAt.Some?
    ensures var (later, reply) := FinishAttempt(db, 0, number, NewFailure(db), None, map[], None, generation, now);
      && Touches(db, later, 0, now) && reply == Settled(0, Continue)
      && later.nodes[0].status.Failed? && later.nodes[0].attemptCount == db.nodes[0].attemptCount
  {
  }

  lemma GoesBack(db: Db, attempt: nat, rounds: nat, now: Time)
    requires db.nodes.Keys == {0, 1} && BothFresh(db, now) && LoopIterations(db, 1) + 1 < rounds
    requires 1 in db.control.loops ==> db.control.loops[1].lastAttempt < attempt
    ensures var (later, reply) := ApplyLoop(db, 1, attempt, true, rounds, {0, 1});
      && reply == Looped(LoopContinued) && later.nodes.Keys == {0, 1} && BothFresh(later, now) && later.run == db.run
      && later.nodes[0].status.Pending? && later.nodes[0].attemptCount == db.nodes[0].attemptCount
      && later.nodes[1].status.Pending? && later.nodes[1].attemptCount == db.nodes[1].attemptCount
      && LoopIterations(later, 1) == LoopIterations(db, 1) + 1 && 1 in later.control.loops
      && later.control.loops[1].lastAttempt == attempt
  {
  }

  // ---------------------------------------------------------------- the run

  /** The owner rests between attempts: what the two nodes have done so far. */
  datatype Stage = Stage(worker: nat, controller: nat, iterations: nat, workerStatus: Status, controllerStatus: Status)

  /** One owner holds the run, waits for `active`, and owes the status `todo`. */
  predicate Owns(s: Sys, active: map<NodeId, nat>, todo: Option<(NodeId, Status)>) {
    && s.session.Some? && LeaseLive(s.db.run, s.session.value.lease, s.now)
    && InLoopPhase(s.session.value) && s.session.value.active == active && s.session.value.todo == todo
  }

  predicate RowsAt(db: Db, now: Time, g: Stage) {
    && db.nodes.Keys == {0, 1} && BothFresh(db, now)
    && db.nodes[0].status == g.workerStatus && db.nodes[0].attemptCount == g.worker
    && db.nodes[1].status == g.controllerStatus && db.nodes[1].attemptCount == g.controller
    && LoopIterations(db, 1) == g.iterations
    && (1 in db.control.loops ==>
          db.control.loops[1].lastAttempt + (if g.controllerStatus.Pending? then 0 else 1) <= g.controller)
  }

  predicate Rests(s: Sys, g: Stage) { Owns(s, map[], None) && RowsAt(s.db, s.now, g) }

  /** A run that leaves the worker alone. */
  ghost predicate Lonely(flow: Flow, acts: seq<Action>) { Run(flow, Initial(flow), acts) && LeftAlone(acts, 0) }

  ghost predicate At(limit: nat, rounds: nat, acts: seq<Action>, g: Stage) {
    var flow := LoopFlow(limit, rounds); Lonely(flow, acts) && Rests(After(flow, Initial(flow), acts), g)
  }

  /** One more transaction of the owner. */
  lemma Goes(flow: Flow, acts: seq<Action>, tx: Tx) returns (more: seq<Action>)
    requires Lonely(flow, acts) && !tx.TxRecover? && !tx.TxReconcile?
    requires var s := After(flow, Initial(flow), acts); s.session.Some? && Guard(flow, s.db, s.session.value, tx)
    ensures Lonely(flow, more) && After(flow, Initial(flow), more) == DoTx(flow, After(flow, Initial(flow), acts), tx)
  {
    RunExtends(flow, Initial(flow), acts, Do(tx));
    more := acts + [Do(tx)];
  }

  lemma TakesRun(limit: nat, rounds: nat) returns (acts: seq<Action>)
    ensures At(limit, rounds, acts, Stage(0, 0, 0, Pending, Pending))
  {
    var flow := LoopFlow(limit, rounds);
    RunExtends(flow, Initial(flow), [], Acquire("a", 10, Opening(false)));
    acts := [] + [Acquire("a", 10, Opening(false))];
  }

  lemma TotalIs(limit: nat, rounds: nat, db: Db, g: Stage, now: Time)
    requires RowsAt(db, now, g)
    ensures AttemptTotal(LoopFlow(limit, rounds), db) == g.worker + g.controller
  {
    var flow := LoopFlow(limit, rounds);
    assert flow.ids[1..] == [1] && [1][1..] == [];
    assert AttemptsOf(db)(0) == g.worker && AttemptsOf(db)(1) == g.controller;
  }

  lemma NeedsAreMet(limit: nat, rounds: nat, db: Db, now: Time, g: Stage, n: NodeId)
    requires rounds >= 1 && RowsAt(db, now, g) && (n == 0 || (n == 1 && g.workerStatus.Succeeded?))
    ensures Ready(LoopFlow(limit, rounds), db, {}, n)
  {
    LoopedIsWellFormed(limit, rounds);
  }

  lemma MayLaunch(limit: nat, rounds: nat, db: Db, now: Time, g: Stage, n: NodeId)
    requires rounds >= 1 && RowsAt(db, now, g) && g.worker + g.controller < limit + 2 * rounds
    requires (n == 0 && g.workerStatus.Pending?) || (n == 1 && g.controllerStatus.Pending? && g.workerStatus.Succeeded?)
    ensures CanLaunch(LoopFlow(limit, rounds), db, map[], n)
  {
    NeedsAreMet(limit, rounds, db, now, g, n);
    TotalIs(limit, rounds, db, g, now);
  }

  /** With attempts left, a pending node whose needs have succeeded may start. */
  lemma MayStart(limit: nat, rounds: nat, s: Sys, g: Stage, n: NodeId)
    requires rounds >= 1 && Owns(s, map[], None) && RowsAt(s.db, s.now, g) && g.worker + g.controller < limit + 2 * rounds
    requires (n == 0 && g.workerStatus.Pending?) || (n == 1 && g.controllerStatus.Pending? && g.workerStatus.Succeeded?)
    ensures Guard(LoopFlow(limit, rounds), s.db, s.session.value, TxStart(n))
  {
    MayLaunch(limit, rounds, s.db, s.now, g, n);
  }

  /** The stage while node `n` is running its next attempt, and after it. */
  function During(g: Stage, n: NodeId, status: Status): Stage {
    if n == 0 then g.(worker := g.worker + 1, workerStatus := status)
    else g.(controller := g.controller + 1, controllerStatus := status)
  }

  /** Node `n` is running its next attempt. */
  predicate RunsOne(db: Db, generation: nat, now: Time, g: Stage, n: NodeId) {
    && n in {0, 1} && RowsAt(db, now, During(g, n, Running))
    && ActiveAttempt(db, n, db.nodes[n].attemptCount, generation) && db.progress[n].startedAt.Some?
  }

  ghost predicate Busy(limit: nat, rounds: nat, acts: seq<Action>, g: Stage, n: NodeId) {
    var flow := LoopFlow(limit, rounds); Lonely(flow, acts) && Works(After(flow, Initial(flow), acts), g, n)
  }

  predicate Works(s: Sys, g: Stage, n: NodeId) {
    && s.session.Some? && RunsOne(s.db, s.session.value.lease.generation, s.now, g, n)
    && Owns(s, map[n := s.db.nodes[n].attemptCount], None)
  }

  lemma BeginsOne(db: Db, generation: nat, now: Time, g: Stage, n: NodeId)
    requires RowsAt(db, now, g) && n in {0, 1} && IsStatus(db, n, Pending)
    ensures var (later, reply) := StartAttempt(db, n, generation, now);
      RunsOne(later, generation, now, g, n) && reply == Started(later.nodes[n].attemptCount) && later.run == db.run
  {
    Begins(db, n, generation, now);
  }

  lemma StartOne(limit: nat, rounds: nat, acts: seq<Action>, g: Stage, n: NodeId) returns (more: seq<Action>)
    requires rounds >= 1 && At(limit, rounds, acts, g) && g.worker + g.controller < limit + 2 * rounds
    requires (n == 0 && g.workerStatus.Pending?) || (n == 1 && g.controllerStatus.Pending? && g.workerStatus.Succeeded?)
    ensures Busy(limit, rounds, more, g, n)
  {
    var flow := LoopFlow(limit, rounds);
    var s := After(flow, Initial(flow), acts);
    MayStart(limit, rounds, s, g, n);
    more := StartAllowed(limit, rounds, acts, g, n);
  }

  lemma StartAllowed(limit: nat, rounds: nat, acts: seq<Action>, g: Stage, n: NodeId) returns (more: seq<Action>)
    requires At(limit, rounds, acts, g) && n in {0, 1}
    requires var flow := LoopFlow(limit, rounds);
      var s := After(flow, Initial(flow), acts);
      IsStatus(s.db, n, Pending) && Guard(flow, s.db, s.session.value, TxStart(n))
    ensures Busy(limit, rounds, more, g, n)
  {
    var flow := LoopFlow(limit, rounds);
    StartMoves(flow, After(flow, Initial(flow), acts), g, n);
    more := Goes(flow, acts, TxStart(n));
  }

  lemma StartMoves(flow: Flow, s: Sys, g: Stage, n: NodeId)
    requires Rests(s, g) && n in {0, 1} && IsStatus(s.db, n, Pending)
    ensures Works(DoTx(flow, s, TxStart(n)), g, n)
  {
    BeginsOne(s.db, s.session.value.lease.generation, s.now, g, n);
    DoCommits(flow, s, TxStart(n));
  }

  lemma SucceedsOne(db: Db, generation: nat, now: Time, g: Stage, n: NodeId)
    requires RunsOne(db, generation, now, g, n)
    ensures var (later, reply) := SucceedAttempt(db, n, db.nodes[n].attemptCount, "", map[], None, generation, now);
      RowsAt(later, now, During(g, n, Succeeded)) && reply.Done? && later.run == db.run
  {
    Succeeds(db, n, db.nodes[n].attemptCount, generation, now);
  }

  lemma SucceedOne(limit: nat, rounds: nat, acts: seq<Action>, g: Stage, n: NodeId) returns (more: seq<Action>)
    requires Busy(limit, rounds, acts, g, n)
    ensures At(limit, rounds, more, During(g, n, Succeeded))
  {
    var flow := LoopFlow(limit, rounds);
    var s := After(flow, Initial(flow), acts);
    SuccessMoves(flow, s, g, n);
    more := Goes(flow, acts, TxSucceed(n, s.db.nodes[n].attemptCount, "", map[], None));
  }

  lemma SuccessMoves(flow: Flow, s: Sys, g: Stage, n: NodeId)
    requires Works(s, g, n)
    ensures Rests(DoTx(flow, s, TxSucceed(n, s.db.nodes[n].attemptCount, "", map[], None)), During(g, n, Succeeded))
  {
    var number := s.db.nodes[n].attemptCount;
    SucceedsOne(s.db, s.session.value.lease.generation, s.now, g, n);
    DoCommits(flow, s, TxSucceed(n, number, "", map[], None));
    assert map[n := number] - {n} == map[];
  }

  lemma FailsOne(db: Db, generation: nat, now: Time, g: Stage)
    requires RunsOne(db, generation, now, g, 0)
    ensures var (later, reply) := FinishAttempt(db, 0, g.worker + 1, NewFailure(db), None, map[], None, generation, now);
      RowsAt(later, now, During(g, 0, Failed)) && reply == Settled(0, Continue) && later.run == db.run
  {
    FailsAnew(db, g.worker + 1, generation, now);
  }

  lemma RetryIsOwed(limit: nat, rounds: nat, number: nat)
    requires number < limit
    ensures Todo(LoopFlow(limit, rounds), 0, number, 0, Continue) == Some((0, Pending))
  {
  }

  /** The worker's attempt fails in a new way, with a retry left. */
  lemma FailOne(limit: nat, rounds: nat, acts: seq<Action>, g: Stage) returns (more: seq<Action>)
    requires Busy(limit, rounds, acts, g, 0) && g.worker + 1 < limit
    ensures var flow := LoopFlow(limit, rounds); Lonely(flow, more) && OwesRetry(After(flow, Initial(flow), more), g)
  {
    var flow := LoopFlow(limit, rounds);
    var s := After(flow, Initial(flow), acts);
    RetryIsOwed(limit, rounds, g.worker + 1);
    FailureMoves(flow, s, g);
    more := Goes(flow, acts, TxFinish(0, g.worker + 1, NewFailure(s.db), None, map[], None));
  }

  /** The worker has failed, and a retry is owed. */
  predicate OwesRetry(s: Sys, g: Stage) { Owns(s, map[], Some((0, Pending))) && RowsAt(s.db, s.now, During(g, 0, Failed)) }

  lemma FailureMoves(flow: Flow, s: Sys, g: Stage)
    requires Works(s, g, 0) && Todo(flow, 0, g.worker + 1, 0, Continue) == Some((0, Pending))
    ensures OwesRetry(DoTx(flow, s, TxFinish(0, g.worker + 1, NewFailure(s.db), None, map[], None)), g)
  {
    FailsOne(s.db, s.session.value.lease.generation, s.now, g);
    DoCommits(flow, s, TxFinish(0, g.worker + 1, NewFailure(s.db), None, map[], None));
    assert map[0 := g.worker + 1] - {0} == map[];
  }

  /** An attempt of the worker that fails and is retried. */
  lemma RetryOne(limit: nat, rounds: nat, acts: seq<Action>, g: Stage) returns (more: seq<Action>)
    requires rounds >= 1 && At(limit, rounds, acts, g) && g.worker + g.controller < limit + 2 * rounds
    requires g.workerStatus.Pending? && g.worker + 1 < limit
    ensures At(limit, rounds, more, g.(worker := g.worker + 1))
  {
    var started := StartOne(limit, rounds, acts, g, 0);
    var failed := FailOne(limit, rounds, started, g);
    more := WriteRetry(limit, rounds, failed, g);
  }

  /** The retry that was owed is written. */
  lemma WriteRetry(limit: nat, rounds: nat, acts: seq<Action>, g: Stage) returns (more: seq<Action>)
    requires var flow := LoopFlow(limit, rounds); Lonely(flow, acts) && OwesRetry(After(flow, Initial(flow), acts), g)
    requires g.workerStatus.Pending?
    ensures At(limit, rounds, more, g.(worker := g.worker + 1))
  {
    var flow := LoopFlow(limit, rounds);
    RetryMoves(flow, After(flow, Initial(flow), acts), g);
    more := Goes(flow, acts, TxStatus(0, Pending));
  }

  lemma RetryMoves(flow: Flow, s: Sys, g: Stage)
    requires OwesRetry(s, g) && g.workerStatus.Pending?
    ensures Rests(DoTx(flow, s, TxStatus(0, Pending)), g.(worker := g.worker + 1))
  {
    DoCommits(flow, s, TxStatus(0, Pending));
  }

  lemma RunOne(limit: nat, rounds: nat, acts: seq<Action>, g: Stage, n: NodeId) returns (more: seq<Action>)
    requires rounds >= 1 && At(limit, rounds, acts, g) && g.worker + g.controller < limit + 2 * rounds
    requires (n == 0 && g.workerStatus.Pending?) || (n == 1 && g.controllerStatus.Pending? && g.workerStatus.Succeeded?)
    ensures At(limit, rounds, more, During(g, n, Succeeded))
  {
    var started := StartOne(limit, rounds, acts, g, n);
    more := SucceedOne(limit, rounds, started, g, n);
  }

  lemma GoesBackOne(db: Db, now: Time, g: Stage, rounds: nat)
    requires RowsAt(db, now, g) && g.controllerStatus.Succeeded? && g.iterations + 1 < rounds
    ensures var (later, reply) := ApplyLoop(db, 1, g.controller, true, rounds, {0, 1});
      && RowsAt(later, now, Stage(g.worker, g.controller, g.iterations + 1, Pending, Pending)) && later.run == db.run
      && !reply.LeaseLost?
  {
    GoesBack(db, g.controller, rounds, now);
  }

  /** The controller's decision sends the worker round again. */
  lemma LoopBack(limit: nat, rounds: nat, acts: seq<Action>, g: Stage) returns (more: seq<Action>)
    requires rounds >= 1 && At(limit, rounds, acts, g) && g.controllerStatus.Succeeded? && g.iterations + 1 < rounds
    ensures At(limit, rounds, more, Stage(g.worker, g.controller, g.iterations + 1, Pending, Pending))
  {
    var flow := LoopFlow(limit, rounds);
    RegionIsBoth(limit, rounds);
    LoopMoves(flow, After(flow, Initial(flow), acts), g, rounds);
    more := Goes(flow, acts, TxLoop(1, g.controller, true, rounds, {0, 1}));
  }

  lemma LoopMoves(flow: Flow, s: Sys, g: Stage, rounds: nat)
    requires Rests(s, g) && g.controllerStatus.Succeeded? && g.iterations + 1 < rounds
    ensures Rests(DoTx(flow, s, TxLoop(1, g.controller, true, rounds, {0, 1})),
                  Stage(g.worker, g.controller, g.iterations + 1, Pending, Pending))
  {
    GoesBackOne(s.db, s.now, g, rounds);
    DoCommits(flow, s, TxLoop(1, g.controller, true, rounds, {0, 1}));
  }

  // ---------------------------------------------------------------- all retries, then all iterations

  lemma {:induction false} UseRetries(limit: nat, rounds: nat, retries: nat) returns (acts: seq<Action>)
    requires 1 <= rounds <= limit && retries < limit
    ensures At(limit, rounds, acts, Stage(retries, 0, 0, Pending, Pending))
    decreases retries
  {
    if retries == 0 {
      acts := TakesRun(limit, rounds);
    } else {
      var before := UseRetries(limit, rounds, retries - 1);
      acts := RetryOne(limit, rounds, before, Stage(retries - 1, 0, 0, Pending, Pending));
    }
  }

  lemma {:induction false} UseIterations(limit: nat, rounds: nat, iterations: nat) returns (acts: seq<Action>)
    requires 1 <= rounds <= limit && iterations < rounds
    ensures At(limit, rounds, acts, Stage(limit + iterations, iterations, iterations, Succeeded, Pending))
    decreases iterations
  {
    if iterations == 0 {
      var retried := UseRetries(limit, rounds, limit - 1);
      acts := RunOne(limit, rounds, retried, Stage(limit - 1, 0, 0, Pending, Pending), 0);
    } else {
      var k := iterations - 1;
      var before := UseIterations(limit, rounds, k);
      var decided := RunOne(limit, rounds, before, Stage(limit + k, k, k, Succeeded, Pending), 1);
      var reopened := LoopBack(limit, rounds, decided, Stage(limit + k, k + 1, k, Succeeded, Succeeded));
      acts := RunOne(limit, rounds, reopened, Stage(limit + k, k + 1, k + 1, Pending, Pending), 0);
    }
  }

  /**
   For every limit and every iteration ceiling it covers: an accepted workflow, and a run without recovery and
   reconciliation in which the worker makes exactly as many attempts as `RetryLimits.AttemptsWithinDeclared` allows,
   `rounds - 1` more than it declares.
   */
  lemma BoundIsAttained(limit: nat, rounds: nat) returns (acts: seq<Action>)
    requires 1 <= rounds <= limit
    ensures var flow := LoopFlow(limit, rounds);
      && WellFormed(flow) && Validator.ControlAccepted(flow) && flow.nodes[0].retry.maxAttempts == Some(limit)
      && Run(flow, Initial(flow), acts) && LeftAlone(acts, 0)
      && Attempts(After(flow, Initial(flow), acts).db, 0)
         == Base(flow, 0) + Sum(flow.ids, LoopCeilingsOf(flow, 0))
         == limit + rounds - 1
  {
    LoopedIsAccepted(limit, rounds);
    DeclaredBound(limit, rounds);
    acts := UseIterations(limit, rounds, rounds - 1);
  }
}
