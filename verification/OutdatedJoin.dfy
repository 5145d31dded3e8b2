/**
 A run in which a frozen join decision stops being the one the rows give: its only voter ends uncertain, the
 join over it fails for good, and the voter is then reconciled for another try.
 */
module OutdatedJoin {
  import opened Prelude
  import opened Graph
  import opened Workflow
  import opened Store
  import opened Joins
  import opened Runs
  import opened FrozenJoins

  /** A voter whose effect must not be repeated, and a join over it. */
  const Voter := NodeSpec({}, true, true, false, Ports(map[], {}, {}), Some(NonIdempotentWrite), Write, false, None, None, None, None,
                          Retry(Some(2), None), Progress(None, None), None)
  const Consumer := NodeSpec({0}, true, true, false, Ports(map[], {}, {}), None, Read, false, Some(AnyOf), None, None, None,
                             Retry(None, None), Progress(None, None), None)

  function TwoNodes(): Flow { Flow([0, 1], map[0 := Voter, 1 := Consumer], Budgets(1, 10, 2, 60), {}) }

  lemma NeedsAre()
    ensures NeedsOf(TwoNodes()) == map[0 := {}, 1 := {0}] && Closed(NeedsOf(TwoNodes()))
  {
  }

  lemma IdsAre()
    ensures Increasing(TwoNodes().ids) && Listed(TwoNodes())
  {
    assert forall n :: n in TwoNodes().ids <==> n == 0 || n == 1;
  }

  lemma TwoNodesAreWellFormed()
    ensures WellFormed(TwoNodes())
  {
    NeedsAre();
    IdsAre();
  }

  /** One owner works on the run: what it remembers, and what the rows of the two nodes say. */
  predicate At(s: Sys, active: map<NodeId, nat>, todo: Option<(NodeId, Status)>, voter: Status, consumer: Status) {
    && s.tokens == {"a"} && s.session.Some?
    && var sess := s.session.value;
       && sess.lease.token == "a" && LeaseLive(s.db.run, sess.lease, s.now)
       && InLoopPhase(sess) && sess.active == active && sess.todo == todo
       && s.db.nodes.Keys == {0, 1} && IsStatus(s.db, 0, voter) && IsStatus(s.db, 1, consumer)
       && s.db.nodes[1].attemptCount == 0
  }

  /** The progress budget of the voter has just started, or not even that. */
  predicate Fresh(db: Db, started: Option<Time>) {
    && 0 in db.progress
    && var row := db.progress[0];
       && row.startedAt == started && row.maxElapsed == 60 && row.maxChecks.None? && row.noProgressLimit == 1
       && row.checkCount.None? && row.failure.None? && row.noProgress == 0
       && (started.None? ==> row.deadlineAt.None?)
       && row.verdict == Continue
  }

  function End(acts: seq<Action>): Sys { After(TwoNodes(), Initial(TwoNodes()), acts) }

  /** One more transaction of the owner. */
  lemma Goes(acts: seq<Action>, tx: Tx) returns (more: seq<Action>)
    requires Run(TwoNodes(), Initial(TwoNodes()), acts)
    requires End(acts).session.Some? && Guard(TwoNodes(), End(acts).db, End(acts).session.value, tx)
    ensures more == acts + [Do(tx)] && Run(TwoNodes(), Initial(TwoNodes()), more) && End(more) == DoTx(TwoNodes(), End(acts), tx)
  {
    RunExtends(TwoNodes(), Initial(TwoNodes()), acts, Do(tx));
    more := acts + [Do(tx)];
  }

  lemma Opened() returns (acts: seq<Action>)
    ensures Run(TwoNodes(), Initial(TwoNodes()), acts)
    ensures var s := After(TwoNodes(), Initial(TwoNodes()), acts);
      && At(s, map[], None, Pending, Pending) && s.db.control.joins == map[] && Fresh(s.db, None)
      && s.db.nodes[0].attemptCount == 0 && s.db.nodes[0].lastDigest.None?
  {
    var flow := TwoNodes();
    RunExtends(flow, Initial(flow), [], Acquire("a", 10, Opening(false)));
    acts := [] + [Acquire("a", 10, Opening(false))];
  }

  lemma NothingAttempted(db: Db)
    requires db.nodes.Keys == {0, 1} && db.nodes[0].attemptCount == 0 && db.nodes[1].attemptCount == 0
    ensures AttemptTotal(TwoNodes(), db) == 0
  {
    assert TwoNodes().ids[1..] == [1] && [1][1..] == [];
    assert AttemptsOf(db)(0) == 0 && AttemptsOf(db)(1) == 0;
  }

  /** The quorum has room for its only voter. */
  lemma RoomForOne(rows: Rows)
    requires rows.Keys == {0, 1} && rows[0].status.Pending?
    ensures QuorumRoom(TwoNodes(), 0, rows, {})
  {
    assert With({0}, rows, Succeeded) == {} && InFlight({0}, rows, {}) == {};
  }

  /** The voter may start: it has no needs, and the quorum has room. */
  lemma VoterMayStart(s: Sys)
    requires At(s, map[], None, Pending, Pending) && s.db.nodes[0].attemptCount == 0
    ensures Guard(TwoNodes(), s.db, s.session.value, TxStart(0))
  {
    TwoNodesAreWellFormed();
    NothingAttempted(s.db);
    RoomForOne(s.db.nodes);
    assert Ready(TwoNodes(), s.db, {}, 0);
  }

  lemma VoterStarts(db: Db, generation: nat, now: Time)
    requires db.nodes.Keys == {0, 1} && IsStatus(db, 0, Pending) && db.nodes[0].attemptCount == 0 && Fresh(db, None)
    ensures var (later, reply) := StartAttempt(db, 0, generation, now);
      && reply == Started(1) && Fresh(later, Some(now)) && ActiveAttempt(later, 0, 1, generation)
      && later.nodes == db.nodes[0 := later.nodes[0]] && later.nodes[0].lastDigest == db.nodes[0].lastDigest
      && later.control == db.control && later.run == db.run
  {
  }

  predicate VoterIsRunning(s: Sys) {
    && At(s, map[0 := 1], None, Running, Pending) && s.db.control.joins == map[] && Fresh(s.db, Some(s.now))
    && ActiveAttempt(s.db, 0, 1, s.session.value.lease.generation) && s.db.nodes[0].lastDigest.None?
  }

  lemma StartMoves(s: Sys)
    requires At(s, map[], None, Pending, Pending) && s.db.control.joins == map[] && Fresh(s.db, None)
    requires s.db.nodes[0].attemptCount == 0 && s.db.nodes[0].lastDigest.None?
    ensures VoterIsRunning(DoTx(TwoNodes(), s, TxStart(0)))
  {
    VoterStarts(s.db, s.session.value.lease.generation, s.now);
    DoCommits(TwoNodes(), s, TxStart(0));
  }

  lemma VoterRuns() returns (acts: seq<Action>)
    ensures Run(TwoNodes(), Initial(TwoNodes()), acts) && VoterIsRunning(End(acts))
  {
    acts := Opened();
    VoterMayStart(End(acts));
    StartMoves(End(acts));
    acts := Goes(acts, TxStart(0));
  }

  const Fault := TxFinish(0, 1, "x", None, map[], None)

  lemma VoterFails(db: Db, generation: nat, now: Time)
    requires ActiveAttempt(db, 0, 1, generation) && Fresh(db, Some(now)) && db.nodes[0].lastDigest.None?
    ensures var (later, reply) := Commit(db, Fault, generation, now);
      && reply == Settled(0, Continue) && IsStatus(later, 0, Failed)
      && later.nodes == db.nodes[0 := later.nodes[0]] && later.control == db.control && later.run == db.run
    ensures Todo(TwoNodes(), 0, 1, 0, Continue) == Some((0, Uncertain))
  {
  }

  lemma FaultMoves(s: Sys)
    requires VoterIsRunning(s)
    ensures var t := DoTx(TwoNodes(), s, Fault); At(t, map[], Some((0, Uncertain)), Failed, Pending) && t.db.control.joins == map[]
  {
    VoterFails(s.db, s.session.value.lease.generation, s.now);
    DoCommits(TwoNodes(), s, Fault);
    assert map[0 := 1] - {0} == map[];
  }

  lemma DebtMoves(s: Sys)
    requires At(s, map[], Some((0, Uncertain)), Failed, Pending) && s.db.control.joins == map[]
    ensures var t := DoTx(TwoNodes(), s, TxStatus(0, Uncertain)); At(t, map[], None, Uncertain, Pending) && t.db.control.joins == map[]
  {
    DoCommits(TwoNodes(), s, TxStatus(0, Uncertain));
  }

  /** The voter fails with a retry left, which its effect forbids. */
  lemma VoterIsUncertain() returns (acts: seq<Action>)
    ensures Run(TwoNodes(), Initial(TwoNodes()), acts)
    ensures At(End(acts), map[], None, Uncertain, Pending) && End(acts).db.control.joins == map[]
  {
    acts := VoterRuns();
    FaultMoves(End(acts));
    acts := Goes(acts, Fault);
    DebtMoves(End(acts));
    acts := Goes(acts, TxStatus(0, Uncertain));
  }

  /** With its only voter settled otherwise than by success, the join has failed. */
  lemma NoVoteLeft(rows: Rows)
    requires rows.Keys == {0, 1}
    ensures rows[0].status.Uncertain? ==> Snapshot(AnyOf, {0}, rows).decision == JoinFailed
    ensures rows[0].status.Pending? ==> Snapshot(AnyOf, {0}, rows).decision == Waiting
  {
    assert With({0}, rows, Succeeded) == if rows[0].status.Succeeded? then {0} else {};
    assert SettledIn({0}, rows) == if Terminal(rows[0].status) then {0} else {};
  }

  lemma JoinMayBeRecorded(s: Sys)
    requires At(s, map[], None, Uncertain, Pending)
    ensures Guard(TwoNodes(), s.db, s.session.value, TxJoin(1, Snapshot(AnyOf, {0}, s.db.nodes)))
  {
    assert Lags(s.db.nodes, s.db.nodes) && JoinOf(TwoNodes(), s.db.nodes, 1, Snapshot(AnyOf, {0}, s.db.nodes));
  }

  predicate JoinHasFailed(db: Db) { IsFrozen(db.control.joins, 1) && db.control.joins[1].decision == JoinFailed }

  lemma JoinMoves(s: Sys)
    requires At(s, map[], None, Uncertain, Pending) && s.db.control.joins == map[]
    ensures var t := DoTx(TwoNodes(), s, TxJoin(1, Snapshot(AnyOf, {0}, s.db.nodes)));
      At(t, map[], None, Uncertain, Pending) && JoinHasFailed(t.db)
  {
    NoVoteLeft(s.db.nodes);
    DoCommits(TwoNodes(), s, TxJoin(1, Snapshot(AnyOf, {0}, s.db.nodes)));
  }

  /** The join is frozen as failed. */
  lemma JoinFreezes() returns (acts: seq<Action>)
    ensures Run(TwoNodes(), Initial(TwoNodes()), acts)
    ensures At(End(acts), map[], None, Uncertain, Pending) && JoinHasFailed(End(acts).db)
  {
    acts := VoterIsUncertain();
    JoinMayBeRecorded(End(acts));
    JoinMoves(End(acts));
    acts := Goes(acts, TxJoin(1, Snapshot(AnyOf, {0}, End(acts).db.nodes)));
  }

  lemma ConsumerMayBeBlocked(s: Sys)
    requires At(s, map[], None, Uncertain, Pending) && JoinHasFailed(s.db)
    ensures Guard(TwoNodes(), s.db, s.session.value, TxStatus(1, Blocked))
  {
    assert CanBlock(TwoNodes(), s.db, s.db.nodes, 1);
  }

  lemma BlockMoves(s: Sys)
    requires At(s, map[], None, Uncertain, Pending) && JoinHasFailed(s.db)
    ensures var t := DoTx(TwoNodes(), s, TxStatus(1, Blocked)); At(t, map[], None, Uncertain, Blocked) && JoinHasFailed(t.db)
  {
    DoCommits(TwoNodes(), s, TxStatus(1, Blocked));
  }

  /** And its consumer is blocked. */
  lemma ConsumerIsBlocked() returns (acts: seq<Action>)
    ensures Run(TwoNodes(), Initial(TwoNodes()), acts)
    ensures At(End(acts), map[], None, Uncertain, Blocked) && JoinHasFailed(End(acts).db)
  {
    acts := JoinFreezes();
    ConsumerMayBeBlocked(End(acts));
    BlockMoves(End(acts));
    acts := Goes(acts, TxStatus(1, Blocked));
  }

  const Finishing := TxFinishRun(RunNeedsReconciliation)

  lemma MayFinish(s: Sys)
    requires At(s, map[], None, Uncertain, Blocked)
    ensures Guard(TwoNodes(), s.db, s.session.value, Finishing)
  {
    assert s.db.nodes[0].status.Uncertain? && s.db.nodes[1].status.Blocked?;
    assert Reduce(TwoNodes(), s.db) == RunNeedsReconciliation;
  }

  lemma FinishMoves(s: Sys)
    requires At(s, map[], None, Uncertain, Blocked) && JoinHasFailed(s.db)
    ensures var t := Apply(TwoNodes(), DoTx(TwoNodes(), s, Finishing), Action.Release); LetGo(t)
  {
    DoCommits(TwoNodes(), s, Finishing);
  }

  predicate LetGo(s: Sys) {
    && s.tokens == {"a"} && s.db.run.ownerToken.None? && s.db.run.status == RunNeedsReconciliation
    && s.db.nodes.Keys == {0, 1} && IsStatus(s.db, 0, Uncertain) && JoinHasFailed(s.db)
  }

  /** The run ends and asks for reconciliation, and its owner lets go of it. */
  lemma RunAsksForHelp() returns (acts: seq<Action>)
    ensures Run(TwoNodes(), Initial(TwoNodes()), acts) && LetGo(End(acts))
  {
    acts := ConsumerIsBlocked();
    MayFinish(End(acts));
    FinishMoves(End(acts));
    Finishes(End(acts));
    acts := Goes(acts, Finishing);
    RunExtends(TwoNodes(), Initial(TwoNodes()), acts, Action.Release);
    acts := acts + [Action.Release];
  }

  lemma Finishes(s: Sys)
    requires At(s, map[], None, Uncertain, Blocked)
    ensures DoTx(TwoNodes(), s, Finishing).session.Some?
  {
    DoCommits(TwoNodes(), s, Finishing);
  }

  /** Somebody has taken the run to reconcile the voter. */
  predicate Asked(s: Sys) {
    && s.session.Some? && s.session.value.phase.Reconciling? && s.session.value.todo.None?
    && LeaseLive(s.db.run, s.session.value.lease, s.now)
    && s.db.nodes.Keys == {0, 1} && IsStatus(s.db, 0, Uncertain) && JoinHasFailed(s.db)
  }

  lemma SomebodyAnswers() returns (acts: seq<Action>)
    ensures Run(TwoNodes(), Initial(TwoNodes()), acts) && Asked(End(acts))
  {
    acts := RunAsksForHelp();
    RunExtends(TwoNodes(), Initial(TwoNodes()), acts, Acquire("b", 10, Reconciling));
    acts := acts + [Acquire("b", 10, Reconciling)];
  }

  const Retrying := TxReconcile(0, true)

  /** Told from the tables before it, the reconciliation leaves no evidence for the frozen decision. */
  lemma RetryIsHarmful(s: Sys)
    requires Asked(s)
    ensures Enabled(TwoNodes(), s, Do(Retrying)) && !Harmless(TwoNodes(), s, Do(Retrying))
  {
    NoVoteLeft(s.db.nodes);
    assert {0} * {0} == {0};
    assert SettledIn({0}, s.db.nodes) == {0} && With({0}, s.db.nodes, Succeeded) == {};
    assert !Spares(TwoNodes(), s.db, Retrying, 1);
  }

  /** And afterwards the frozen decision is still `failed`, while the rows leave the join open. */
  lemma RetryOpensJoin(db: Db, generation: nat, now: Time)
    requires db.nodes.Keys == {0, 1} && IsStatus(db, 0, Uncertain) && JoinHasFailed(db)
    ensures var later := Commit(db, Retrying, generation, now).0;
      later.nodes.Keys == {0, 1} && JoinHasFailed(later) && Snapshot(AnyOf, {0}, later.nodes).decision == Waiting
  {
    NoVoteLeft(Commit(db, Retrying, generation, now).0.nodes);
  }

  /**
   A run of a well-formed workflow that ends with the harmful reconciliation of its voter: the decision frozen for the
   join is no longer the one the rows give.
   */
  lemma ReconciliationOutdatesJoin() returns (acts: seq<Action>)
    ensures WellFormed(TwoNodes()) && Run(TwoNodes(), Initial(TwoNodes()), acts) && !AllHarmless(TwoNodes(), acts)
    ensures JoinHasFailed(End(acts).db)
    ensures {0} <= End(acts).db.nodes.Keys && Snapshot(AnyOf, {0}, End(acts).db.nodes).decision == Waiting
  {
    TwoNodesAreWellFormed();
    var before := SomebodyAnswers();
    RetryIsHarmful(End(before));
    RetryMoves(End(before));
    acts := Goes(before, Retrying);
    assert acts[..|acts| - 1] == before;
  }

  lemma RetryMoves(s: Sys)
    requires Asked(s)
    ensures var db := DoTx(TwoNodes(), s, Retrying).db;
      JoinHasFailed(db) && {0} <= db.nodes.Keys && Snapshot(AnyOf, {0}, db.nodes).decision == Waiting
  {
    RetryOpensJoin(s.db, s.session.value.lease.generation, s.now);
    DoCommits(TwoNodes(), s, Retrying);
  }
}
