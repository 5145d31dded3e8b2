/** What `_finalize_attempt` and `_try_repair` make of one result. */
module Settling {
  import opened Prelude
  import opened Workflow
  import opened Store
  import opened Invariants
  import opened Runs

  /** What a worker hands back. */
  datatype Result = Result(passed: bool, digest: Digest, failure: Option<Failure>, outputs: Outputs, checks: Option<nat>)

  /** A failed attempt as recorded, before anything follows from it. */
  function Fault(db: Db, n: NodeId, number: nat, result: Result, generation: nat, now: Time): (Db, Reply) {
    FinishAttempt(db, n, number, result.digest, result.failure, result.outputs, result.checks, generation, now)
  }

  /** A failed attempt of a node without repair routes: retried, put up for reconciliation, forgiven, or failed. */
  function Settlement(flow: Flow, db: Db, n: NodeId, number: nat, result: Result, generation: nat, now: Time): Db {
    var (later, reply) := Fault(db, n, number, result, generation, now);
    if !reply.Settled? then later
    else
      match Todo(flow, n, number, reply.noProgress, reply.verdict)
      case None => later
      case Some(next) => SetNodeStatus(later, next.0, next.1).0
  }

  /** The attempt is the node's newest, and still open. */
  predicate Newest(db: Db, n: NodeId, number: nat, generation: nat) {
    && n in db.nodes && number == db.nodes[n].attemptCount
    && n in db.progress && db.progress[n].startedAt.Some?
    && AttemptKey(n, number) in db.attempts
    && db.attempts[AttemptKey(n, number)].status.AttemptRunning? && db.attempts[AttemptKey(n, number)].generation == generation
  }

  lemma RunningIsNewest(db: Db, published: Published, n: NodeId, number: nat, generation: nat)
    requires StoreInv(db, published) && ActiveAttempt(db, n, number, generation)
    ensures Newest(db, n, number, generation)
  {
    assert NodeInv(db, published, n);
  }

  /** An attempt that is still the node's own is settled; nothing else can be wrong with it. */
  lemma ResultAnswers(db: Db, n: NodeId, number: nat, result: Result, generation: nat, now: Time)
    requires ActiveAttempt(db, n, number, generation) ==> Newest(db, n, number, generation)
    ensures var reply := Fault(db, n, number, result, generation, now).1;
      if ActiveAttempt(db, n, number, generation) then reply.Settled? else reply.Stale?
    ensures var reply := SucceedAttempt(db, n, number, result.digest, result.outputs, result.checks, generation, now).1;
      if ActiveAttempt(db, n, number, generation) then reply.Done? else reply.Stale?
  {
  }

  /** The row a recorded fault leaves. */
  lemma FaultRow(db: Db, n: NodeId, number: nat, result: Result, generation: nat, now: Time)
    requires ActiveAttempt(db, n, number, generation) && Newest(db, n, number, generation)
    ensures var (later, reply) := Fault(db, n, number, result, generation, now);
      && reply.Settled? && n in later.progress && later.progress[n].verdict == reply.verdict
      && n in later.nodes && later.nodes[n].status.Failed? && later.nodes[n].noProgress == reply.noProgress
      && later.nodes == db.nodes[n := later.nodes[n]]
  {
  }

  /** The attempt is closed with this outcome, the row of its node no longer waits for it, and nothing else has changed. */
  ghost predicate Closes(db: Db, later: Db, n: NodeId, number: nat, outcome: AttemptStatus, failure: Option<Failure>, digest: Digest,
                         now: Time)
    requires n in db.nodes && AttemptKey(n, number) in db.attempts
  {
    var key := AttemptKey(n, number);
    && n in later.nodes && later.nodes == db.nodes[n := later.nodes[n]]
    && later.nodes[n] == db.nodes[n].(status := later.nodes[n].status, lastDigest := Some(digest),
                                      noProgress := later.nodes[n].noProgress, activeAttempt := None, activeGeneration := None)
    && later.attempts == db.attempts[key := AttemptRow(outcome, db.attempts[key].generation, db.attempts[key].startedAt,
                                                       Some(now), Some(digest), failure)]
    && later.control == db.control && later.attached == db.attached && later.run == db.run
  }

  /** A success publishes its artifacts and forgets earlier failures; a fault keeps them, and publishes nothing. */
  lemma AttemptIsClosed(db: Db, n: NodeId, number: nat, result: Result, generation: nat, now: Time)
    requires ActiveAttempt(db, n, number, generation) && Newest(db, n, number, generation)
    ensures var later := SucceedAttempt(db, n, number, result.digest, result.outputs, result.checks, generation, now).0;
      && Closes(db, later, n, number, AttemptSucceeded, None, result.digest, now)
      && later.nodes[n].status.Succeeded? && later.nodes[n].noProgress == 0 && later.artifacts == db.artifacts[n := result.outputs]
    ensures var later := Fault(db, n, number, result, generation, now).0;
      && Closes(db, later, n, number, AttemptFailed, result.failure, result.digest, now)
      && later.nodes[n].status.Failed? && later.nodes[n].noProgress == Repeats(db.nodes[n], result.digest)
      && later.artifacts == db.artifacts
  {
  }

  /** How often in a row a node with row `row` has now failed with this digest, not counting the first time. */
  function Repeats(row: NodeRow, digest: Digest): nat { if row.lastDigest == Some(digest) then row.noProgress + 1 else 0 }

  /**
   A failed attempt leaves another try: its number is below the limits of the node and of the workflow, it does not
   repeat the last failure too often, and the progress budget goes on.
   */
  predicate TryLeft(flow: Flow, node: NodeSpec, number: nat, repeats: nat, verdict: Verdict) {
    && number < flow.budgets.maxAttemptsPerNode
    && (node.retry.maxAttempts.Some? ==> number < node.retry.maxAttempts.value)
    && (match node.retry.noProgressLimit case Some(limit) => repeats < limit case None => repeats == 0)
    && verdict == Continue
  }

  /** The status of a node whose attempt has failed. */
  predicate FailedInto(node: NodeSpec, again: bool, status: Status) {
    && (status == Pending <==> again && !Unrepeatable(node))
    && (status == Uncertain <==> again && Unrepeatable(node))
    && (status == OptionalFailed <==> !again && !node.required)
    && (status == Failed <==> !again && node.required)
  }

  /**
   A failed attempt is retried if another try is left and repeating is safe, and put up for reconciliation if a try is
   left and repeating is not; otherwise an optional node is forgiven and a required one fails.
   */
  lemma SettlementStatus(flow: Flow, db: Db, n: NodeId, number: nat, result: Result, generation: nat, now: Time)
    requires ActiveAttempt(db, n, number, generation) && Newest(db, n, number, generation)
    requires n in flow.nodes && flow.nodes[n].repair.None?
    ensures var later, node, repeats := Settlement(flow, db, n, number, result, generation, now), flow.nodes[n],
        Repeats(db.nodes[n], result.digest);
      && n in later.nodes && n in later.progress
      && FailedInto(node, TryLeft(flow, node, number, repeats, later.progress[n].verdict), later.nodes[n].status)
      && later.nodes == db.nodes[n := db.nodes[n].(status := later.nodes[n].status, lastDigest := Some(result.digest),
                                                    noProgress := repeats, activeAttempt := None, activeGeneration := None)]
  {
    SafeUnlessUnrepeatable(flow.nodes[n]);
  }

  /** The single route that handles a failed check, if there is exactly one. */
  method FindRoute(routes: seq<RepairRoute>, check: Name) returns (found: Option<nat>)
    ensures found.Some? ==> HandledBy(routes, check, found.value)
    ensures found.None? ==> forall i: nat :: !HandledBy(routes, check, i)
  {
    found := None;
    for i := 0 to |routes|
      invariant found.None? ==> forall j :: 0 <= j < i ==> check !in routes[j].checkIds
      invariant found.Some? ==> found.value < i && check in routes[found.value].checkIds
      invariant found.Some? ==> forall j :: 0 <= j < i && check in routes[j].checkIds ==> j == found.value
    {
      if check in routes[i].checkIds {
        if found.Some? {
          var first := found.value;
          assert forall j: nat :: HandledBy(routes, check, j) ==> j == i && j == first;
          return None;
        }
        found := Some(i);
      }
    }
  }

  /** A target may be rerun with evidence: it writes, and repeating it is safe. */
  predicate Repairable(flow: Flow, t: NodeId) {
    t in flow.nodes && flow.nodes[t].permission.Write? && ReplaySafe(flow.nodes[t])
  }

  /** Each of the first `k` targets is to be rerun with the evidence under the input it names, within its own limit. */
  ghost predicate Ordered(flow: Flow, targets: seq<RepairTarget>, orders: map<NodeId, RepairOrder>, evidence: Digest, k: nat)
    requires k <= |targets|
  {
    forall i :: 0 <= i < k ==>
      && targets[i].node in orders && targets[i].node in flow.nodes
      && orders[targets[i].node] == RepairOrder(targets[i].input, evidence, AttemptLimit(flow.nodes[targets[i].node]))
  }

  /** The orders for the targets of a route, unless one of them may not be rerun. */
  method CollectTargets(flow: Flow, targets: seq<RepairTarget>, evidence: Digest)
    returns (orders: Option<map<NodeId, RepairOrder>>)
    requires TargetsWellFormed(flow, targets)
    ensures orders.Some? <==> forall i :: 0 <= i < |targets| ==> Repairable(flow, targets[i].node)
    ensures orders.Some? ==> orders.value.Keys == TargetNodes(targets)
    ensures orders.Some? ==> (forall t :: t in orders.value ==> Repairable(flow, t))
    ensures orders.Some? ==> Ordered(flow, targets, orders.value, evidence, |targets|)
  {
    var found: map<NodeId, RepairOrder> := map[];
    for i := 0 to |targets|
      invariant forall j :: 0 <= j < i ==> Repairable(flow, targets[j].node)
      invariant found.Keys == TargetNodes(targets[..i])
      invariant forall t :: t in found ==> Repairable(flow, t)
      invariant Ordered(flow, targets, found, evidence, i)
    {
      var target := targets[i];
      if !flow.nodes[target.node].permission.Write? || !ReplaySafe(flow.nodes[target.node]) { return None; }
      found := found[target.node := RepairOrder(target.input, evidence, AttemptLimit(flow.nodes[target.node]))];
      OneTargetMore(targets, i);
    }
    assert targets[..|targets|] == targets;
    return Some(found);
  }

  lemma OneTargetMore(targets: seq<RepairTarget>, i: nat)
    requires i < |targets|
    ensures TargetNodes(targets[..i + 1]) == TargetNodes(targets[..i]) + {targets[i].node}
  {
    var more := targets[..i + 1];
    assert more[i] == targets[i];
    forall t | t in TargetNodes(targets[..i]) ensures t in TargetNodes(more) {
      var j :| 0 <= j < i && targets[..i][j].node == t;
      assert more[j].node == t;
    }
  }

  /** A route has rounds left, its failure is not stuck, and everything it reruns has attempts left. */
  ghost predicate RouteFits(flow: Flow, db: Db, n: NodeId, route: RepairRoute, digest: Digest)
    requires n in flow.nodes
  {
    && IsStatus(db, n, Failed) && db.nodes[n].attemptCount < AttemptLimit(flow.nodes[n])
    && RepairRounds(db, n, route.id) < route.maxRounds && RepairStall(db, n, route.id, digest) < route.noProgressLimit
    && forall i :: 0 <= i < |route.targets| ==> TargetFits(flow, db, route.targets[i].node)
  }

  predicate TargetFits(flow: Flow, db: Db, t: NodeId) {
    Repairable(flow, t) && IsStatus(db, t, Succeeded) && db.nodes[t].attemptCount < AttemptLimit(flow.nodes[t])
  }

  /** The failed check that a failure reports. */
  function FailedCheck(failure: Option<Failure>): Option<Name> {
    if failure.Some? && failure.value.code == "CHECK_FAILED" then failure.value.checkId else None
  }

  /** The failed check is handled by exactly one route, and that route fits. */
  ghost predicate RepairPossible(flow: Flow, db: Db, n: NodeId, failure: Option<Failure>, digest: Digest, i: nat)
    requires n in flow.nodes
  {
    && flow.nodes[n].repair.Some? && FailedCheck(failure).Some?
    && HandledBy(flow.nodes[n].repair.value, FailedCheck(failure).value, i)
    && RouteFits(flow, db, n, flow.nodes[n].repair.value[i], digest)
  }

  /** Orders for exactly the targets of a route, with this evidence. */
  ghost predicate OrdersFor(flow: Flow, route: RepairRoute, orders: map<NodeId, RepairOrder>, evidence: Digest) {
    && orders.Keys == TargetNodes(route.targets) && (forall t :: t in orders ==> Repairable(flow, t))
    && Ordered(flow, route.targets, orders, evidence, |route.targets|)
  }

  /** The store accepts the round exactly when the route fits. */
  lemma AllowedWhenItFits(flow: Flow, db: Db, n: NodeId, route: RepairRoute, digest: Digest, orders: map<NodeId, RepairOrder>,
                          evidence: Digest)
    requires n in flow.nodes && OrdersFor(flow, route, orders, evidence)
    ensures RepairAllowed(db, n, route.id, digest, route.maxRounds, route.noProgressLimit, orders, AttemptLimit(flow.nodes[n]))
            <==> RouteFits(flow, db, n, route, digest)
  {
    assert forall i :: 0 <= i < |route.targets| ==> route.targets[i].node in TargetNodes(route.targets);
    assert forall t :: t in orders ==> exists i :: 0 <= i < |route.targets| && route.targets[i].node == t;
  }

  /** One repair round over a route that fits. */
  ghost predicate Repaired(flow: Flow, db: Db, later: Db, n: NodeId, failure: Option<Failure>, digest: Digest)
    requires n in flow.nodes
  {
    exists i: nat, orders, evidence :: RepairedBy(flow, db, later, n, failure, digest, i, orders, evidence)
  }

  ghost predicate RepairedBy(flow: Flow, db: Db, later: Db, n: NodeId, failure: Option<Failure>, digest: Digest, i: nat,
                             orders: map<NodeId, RepairOrder>, evidence: Digest)
    requires n in flow.nodes
  {
    && RepairPossible(flow, db, n, failure, digest, i)
    && OrdersFor(flow, flow.nodes[n].repair.value[i], orders, evidence)
    && later == RepairTables(db, n, flow.nodes[n].repair.value[i].id, digest, orders)
  }

  /**
   What a repair round leaves.  The integration and the targets of the one route that handles the failed check run again,
   without artifacts; everything else keeps its row.  Each target finds the same evidence under the input its route
   names.  The round is counted for that route under the digest of the failure.
   */
  ghost predicate RoundLeaves(flow: Flow, db: Db, later: Db, n: NodeId, check: Name, digest: Digest, route: RepairRoute,
                              evidence: Digest)
    requires n in flow.nodes && flow.nodes[n].repair.Some?
  {
    var rerun := TargetNodes(route.targets) + {n};
    && route in flow.nodes[n].repair.value && check in route.checkIds
    && (forall other :: other in flow.nodes[n].repair.value && check in other.checkIds ==> other == route)
    && RerunRows(db, later, rerun)
    && (forall i :: 0 <= i < |route.targets| ==>
          var target := route.targets[i];
          target.node in later.attached.inputs && later.attached.inputs[target.node] == RepairInput(target.input, evidence))
    && RoundCounted(db, later, RouteKey(n, route.id), digest)
  }

  /** Exactly the nodes in `rerun` are pending again, and nothing else about the rows has changed. */
  ghost predicate RerunRows(db: Db, later: Db, rerun: set<NodeId>) {
    && later.nodes.Keys == db.nodes.Keys && later.attempts == db.attempts && later.progress == db.progress
    && later.control == db.control && later.run == db.run.(status := RunRunning) && later.attached.remote == db.attached.remote
    && (forall d :: d in db.nodes && d !in rerun ==> later.nodes[d] == db.nodes[d] && Accepted(later, d) == Accepted(db, d))
    && (forall d :: d in rerun && d in db.nodes ==> later.nodes[d] == db.nodes[d].(status := Pending) && d !in later.artifacts)
    && (forall d :: d !in rerun ==> (d in later.attached.inputs <==> d in db.attached.inputs)
                                    && (d in db.attached.inputs ==> later.attached.inputs[d] == db.attached.inputs[d]))
  }

  lemma RoundReruns(db: Db, n: NodeId, route: Name, digest: Digest, orders: map<NodeId, RepairOrder>)
    ensures var later := RepairTables(db, n, route, digest, orders);
      RerunRows(db, later, orders.Keys + {n}) && RoundCounted(db, later, RouteKey(n, route), digest)
  {
  }

  predicate RoundCounted(db: Db, later: Db, key: RouteKey, digest: Digest) {
    && key in later.attached.repairs && later.attached.repairs == db.attached.repairs[key := later.attached.repairs[key]]
    && var row := later.attached.repairs[key];
       && row.lastFailure == digest
       && if key !in db.attached.repairs then row.rounds == 1 && row.noProgress == 0
          else
            var before := db.attached.repairs[key];
            row.rounds == before.rounds + 1 && row.noProgress == if before.lastFailure == digest then before.noProgress + 1 else 0
  }

  lemma RoundIsExact(flow: Flow, db: Db, later: Db, n: NodeId, failure: Option<Failure>, digest: Digest)
    requires n in flow.nodes && Repaired(flow, db, later, n, failure, digest)
    ensures failure.Some? && failure.value.code == "CHECK_FAILED" && failure.value.checkId.Some? && flow.nodes[n].repair.Some?
    ensures exists route, evidence :: RoundLeaves(flow, db, later, n, failure.value.checkId.value, digest, route, evidence)
  {
    var i: nat, orders, evidence :| RepairedBy(flow, db, later, n, failure, digest, i, orders, evidence);
    var routes, route := flow.nodes[n].repair.value, flow.nodes[n].repair.value[i];
    var check := failure.value.checkId.value;
    forall other | other in routes && check in other.checkIds ensures other == route {
      var j :| 0 <= j < |routes| && routes[j] == other;
    }
    RoundInputs(flow, db, later, n, digest, route, orders, evidence);
    RoundReruns(db, n, route.id, digest, orders);
    assert RoundLeaves(flow, db, later, n, check, digest, route, evidence);
  }

  lemma RoundInputs(flow: Flow, db: Db, later: Db, n: NodeId, digest: Digest, route: RepairRoute,
                    orders: map<NodeId, RepairOrder>, evidence: Digest)
    requires OrdersFor(flow, route, orders, evidence) && later == RepairTables(db, n, route.id, digest, orders)
    ensures forall i :: 0 <= i < |route.targets| ==>
      var target := route.targets[i];
      target.node in later.attached.inputs && later.attached.inputs[target.node] == RepairInput(target.input, evidence)
  {
  }

  /** What follows from a recorded fault of a node with repair routes. */
  ghost predicate RepairFollows(flow: Flow, db: Db, later: Db, n: NodeId, result: Result, verdict: Verdict)
    requires n in flow.nodes
  {
    if verdict == Continue && exists i: nat :: RepairPossible(flow, db, n, result.failure, result.digest, i)
    then Repaired(flow, db, later, n, result.failure, result.digest)
    else later == db
  }

  /** A recorded fault is what `_try_repair` then reads back. */
  lemma FaultIsReadBack(db: Db, n: NodeId, number: nat, result: Result, generation: nat, now: Time)
    requires ActiveAttempt(db, n, number, generation) && Newest(db, n, number, generation)
    ensures var later := Fault(db, n, number, result, generation, now).0;
      n in later.nodes && LastFailure(later, n) == result.failure && later.nodes[n].lastDigest == Some(result.digest)
  {
  }

  /** The whole of `_finalize_attempt` on the tables. */
  ghost predicate Finalized(flow: Flow, db: Db, later: Db, n: NodeId, number: nat, result: Result, generation: nat, at: Time)
    requires n in flow.nodes
  {
    if result.passed then
      later == SucceedAttempt(db, n, number, result.digest, result.outputs, result.checks, generation, at).0
    else if flow.nodes[n].repair.None? then
      later == Settlement(flow, db, n, number, result, generation, at)
    else
      var (mid, reply) := Fault(db, n, number, result, generation, at);
      if reply.Settled? then RepairFollows(flow, mid, later, n, result, reply.verdict) else later == mid
  }

  /** The tables and the workers waited for, at one moment. */
  datatype Moment = Moment(db: Db, active: map<NodeId, nat>)

  /** A worker in the queue of completions: what it hands back, and whether it is past its deadline when that is read. */
  datatype Finished = Finished(n: NodeId, result: Result, late: bool)

  /** What the owner hears in one iteration: the head of that queue, and which workers are overdue. */
  datatype News = News(head: Option<Finished>, overdue: set<NodeId>)

  /** Any of it concerns a worker that is waited for. */
  predicate Heard(news: News, active: set<NodeId>) {
    (news.head.Some? && news.head.value.n in active) || news.overdue * active != {}
  }

  /** Worker `n` was settled with this result and is no longer waited for. */
  ghost predicate SettlesOne(flow: Flow, a: Moment, b: Moment, n: NodeId, result: Result, generation: nat) {
    exists at :: SettledBy(flow, a, b, n, result, generation, at)
  }

  function TimeoutOf(digest: Digest): Result {
    Result(false, digest, Some(Failure("PROGRESS_DEADLINE_EXCEEDED", None)), map[], None)
  }

  ghost predicate SettledBy(flow: Flow, a: Moment, b: Moment, n: NodeId, result: Result, generation: nat, at: Time) {
    && n in flow.nodes && n in a.active && b.active == a.active - {n}
    && Finalized(flow, a.db, b.db, n, a.active[n], result, generation, at)
  }

  predicate IsTimeout(result: Result) {
    && !result.passed && result.failure == Some(Failure("PROGRESS_DEADLINE_EXCEEDED", None))
    && result.outputs == map[] && result.checks.None?
  }

  /** The attempt waited for is still its node's own. */
  predicate Own(m: Moment, n: NodeId, generation: nat) {
    n in m.active && ActiveAttempt(m.db, n, m.active[n], generation)
  }

  /** The workers in `turns` are settled one after the other as timeouts. */
  ghost predicate TimedOut(flow: Flow, trace: seq<Moment>, turns: seq<NodeId>, generation: nat) {
    && |trace| == |turns| + 1
    && forall i :: 0 <= i < |turns| ==> TimeoutStep(flow, trace[i], trace[i + 1], turns[i], generation)
  }

  ghost predicate TimeoutStep(flow: Flow, a: Moment, b: Moment, n: NodeId, generation: nat) {
    && (exists result, at :: IsTimeout(result) && SettledBy(flow, a, b, n, result, generation, at))
    && (!Own(a, n, generation) ==> b.db == a.db)
  }

  /** The workers that had their turn. */
  function Taken(turns: seq<NodeId>): set<NodeId> { set n | n in turns }

  lemma NobodyTurned(turns: seq<NodeId>)
    ensures Taken(turns) == {} <==> turns == []
  {
    if turns != [] {
      assert turns[0] in Taken(turns);
    }
  }

  lemma TimedOutNext(flow: Flow, trace: seq<Moment>, turns: seq<NodeId>, last: Moment, n: NodeId, generation: nat)
    requires TimedOut(flow, trace, turns, generation) && TimeoutStep(flow, trace[|turns|], last, n, generation)
    ensures TimedOut(flow, trace + [last], turns + [n], generation)
  {
  }

  lemma TakenNext(turns: seq<NodeId>, n: NodeId)
    ensures Taken(turns + [n]) == Taken(turns) + {n}
  {
  }

  /** All turns but the last were taken by workers whose attempt was their node's own. */
  predicate OwnUntil(trace: seq<Moment>, turns: seq<NodeId>, generation: nat, i: nat)
    requires i <= |turns| <= |trace|
  {
    forall k :: 0 <= k < i ==> Own(trace[k], turns[k], generation)
  }

  /** The timeouts in `turns` lead from the first moment to the last. */
  ghost predicate Lapsed(flow: Flow, trace: seq<Moment>, turns: seq<NodeId>, first: Moment, last: Moment, generation: nat) {
    TimedOut(flow, trace, turns, generation) && trace[0] == first && trace[|turns|] == last
  }

  /** All turns were taken by workers whose attempt was their node's own, but for the last. */
  predicate LastIsLate(trace: seq<Moment>, turns: seq<NodeId>, generation: nat) {
    && turns != [] && |turns| <= |trace| && OwnUntil(trace, turns, generation, |turns| - 1)
    && !Own(trace[|turns| - 1], turns[|turns| - 1], generation)
  }

  lemma LapsedNext(flow: Flow, trace: seq<Moment>, turns: seq<NodeId>, first: Moment, last: Moment, next: Moment, n: NodeId,
                   generation: nat)
    requires Lapsed(flow, trace, turns, first, last, generation) && TimeoutStep(flow, last, next, n, generation)
    requires OwnUntil(trace, turns, generation, |turns|)
    ensures Lapsed(flow, trace + [next], turns + [n], first, next, generation)
    ensures if Own(last, n, generation) then OwnUntil(trace + [next], turns + [n], generation, |turns| + 1)
            else LastIsLate(trace + [next], turns + [n], generation)
  {
    TimedOutNext(flow, trace, turns, next, n, generation);
  }

  lemma StaleChangesNothing(flow: Flow, db: Db, later: Db, n: NodeId, number: nat, result: Result, generation: nat, at: Time)
    requires n in flow.nodes && Finalized(flow, db, later, n, number, result, generation, at)
    requires !ActiveAttempt(db, n, number, generation)
    ensures later == db
  {
  }

  // ---------------------------------------------------------------- the repair pass

  /** No repair round fits the last failure of `n`. */
  ghost predicate NothingToRepair(flow: Flow, db: Db, n: NodeId) {
    n in flow.nodes && n in db.nodes && db.nodes[n].lastDigest.Some? ==>
      forall i: nat :: !RepairPossible(flow, db, n, LastFailure(db, n), db.nodes[n].lastDigest.value, i)
  }

  /** A round routed for one node opens no round for another, and closes its own. */
  lemma RepairOnlyCloses(flow: Flow, db: Db, later: Db, n: NodeId, failure: Option<Failure>, digest: Digest, m: NodeId)
    requires n in flow.nodes && Repaired(flow, db, later, n, failure, digest)
    requires m == n || NothingToRepair(flow, db, m)
    ensures NothingToRepair(flow, later, m)
  {
    var i: nat, orders, evidence :| RepairedBy(flow, db, later, n, failure, digest, i, orders, evidence);
    if m in flow.nodes && m in later.nodes && later.nodes[m].lastDigest.Some? {
      var last := later.nodes[m].lastDigest.value;
      forall k: nat ensures !RepairPossible(flow, later, m, LastFailure(later, m), last, k) {
        if RepairPossible(flow, later, m, LastFailure(later, m), last, k) {
          assert m != n;
          FitsBefore(flow, db, n, flow.nodes[n].repair.value[i].id, digest, orders, m, flow.nodes[m].repair.value[k], last);
          assert RepairPossible(flow, db, m, LastFailure(db, m), last, k);
        }
      }
    }
  }

  lemma FitsBefore(flow: Flow, db: Db, n: NodeId, id: Name, digest: Digest, orders: map<NodeId, RepairOrder>,
                   m: NodeId, route: RepairRoute, last: Digest)
    requires m in flow.nodes && m != n && RouteFits(flow, RepairTables(db, n, id, digest, orders), m, route, last)
    ensures RouteFits(flow, db, m, route, last)
  {
    var later := RepairTables(db, n, id, digest, orders);
    forall i | 0 <= i < |route.targets| ensures TargetFits(flow, db, route.targets[i].node) {
      assert TargetFits(flow, later, route.targets[i].node);
    }
  }

  /** Rounds move no failure digest. */
  lemma RepairKeepsDigests(flow: Flow, db: Db, later: Db, n: NodeId, failure: Option<Failure>, digest: Digest)
    requires n in flow.nodes && Repaired(flow, db, later, n, failure, digest)
    ensures later.nodes.Keys == db.nodes.Keys
    ensures forall m :: m in db.nodes ==> later.nodes[m].lastDigest == db.nodes[m].lastDigest
    ensures forall m :: IsStatus(later, m, Failed) ==> IsStatus(db, m, Failed)
  {
  }

  /** One round for the last failure of some node. */
  ghost predicate RoundOf(flow: Flow, db: Db, later: Db) {
    exists n :: LastRound(flow, db, later, n)
  }

  ghost predicate LastRound(flow: Flow, db: Db, later: Db, n: NodeId) {
    && n in flow.nodes && n in db.nodes && db.nodes[n].lastDigest.Some?
    && Repaired(flow, db, later, n, LastFailure(db, n), db.nodes[n].lastDigest.value)
  }

  /** A sequence of such rounds. */
  ghost predicate Rounds(flow: Flow, trace: seq<Db>) {
    trace != [] && forall k :: 0 <= k < |trace| - 1 ==> RoundOf(flow, trace[k], trace[k + 1])
  }

  /** The rounds lead from `first` to `last`. */
  ghost predicate RoundsFrom(flow: Flow, trace: seq<Db>, first: Db, last: Db) {
    Rounds(flow, trace) && trace[0] == first && trace[|trace| - 1] == last
  }

  lemma RoundsNext(flow: Flow, trace: seq<Db>, first: Db, last: Db, later: Db, n: NodeId)
    requires RoundsFrom(flow, trace, first, last) && LastRound(flow, last, later, n)
    ensures RoundsFrom(flow, trace + [later], first, later)
  {
    assert RoundOf(flow, last, later);
  }

  /** The repair pass before the node at position `i`. */
  ghost predicate Repairing(flow: Flow, rows: map<NodeId, NodeRow>, db: Db, i: nat) {
    && i <= |flow.ids| && db.nodes.Keys == rows.Keys
    && (forall m :: m in rows ==> db.nodes[m].lastDigest == rows[m].lastDigest)
    && (forall m :: IsStatus(db, m, Failed) ==> m in rows && rows[m].status.Failed?)
    && forall j :: 0 <= j < i ==> NothingToRepair(flow, db, flow.ids[j])
  }

  lemma RepairingNext(flow: Flow, rows: map<NodeId, NodeRow>, db: Db, i: nat)
    requires i < |flow.ids| && Repairing(flow, rows, db, i) && NothingToRepair(flow, db, flow.ids[i])
    ensures Repairing(flow, rows, db, i + 1)
  {
  }

  lemma RepairingRound(flow: Flow, rows: map<NodeId, NodeRow>, db: Db, later: Db, i: nat, failure: Option<Failure>, digest: Digest)
    requires i < |flow.ids| && Repairing(flow, rows, db, i)
    requires flow.ids[i] in flow.nodes && Repaired(flow, db, later, flow.ids[i], failure, digest)
    ensures Repairing(flow, rows, later, i + 1)
  {
    RepairKeepsDigests(flow, db, later, flow.ids[i], failure, digest);
    forall j | 0 <= j <= i ensures NothingToRepair(flow, later, flow.ids[j]) {
      RepairOnlyCloses(flow, db, later, flow.ids[i], failure, digest, flow.ids[j]);
    }
  }

  /** A node that the pass passes over has nothing to repair. */
  lemma PassedOver(flow: Flow, rows: map<NodeId, NodeRow>, db: Db, i: nat)
    requires i < |flow.ids| && Repairing(flow, rows, db, i) && flow.ids[i] in rows
    requires !rows[flow.ids[i]].status.Failed? || LastFailure(db, flow.ids[i]).None? || rows[flow.ids[i]].lastDigest.None?
    ensures NothingToRepair(flow, db, flow.ids[i])
  {
  }
}
