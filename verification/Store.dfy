/**
 The durable tables of one run, and what every transaction of the state store does to them.  A
 transaction is a function from the tables to the tables and a reply; a rolled-back transaction
 returns the tables it was given.
 */
module Store {
  import opened Prelude
  import opened Workflow

  datatype RunStatus = RunRunning | RunSucceeded | RunFailed | RunCancelled | RunNeedsReconciliation

  datatype RunRow = RunRow(
    status: RunStatus, cancelRequested: bool,
    ownerToken: Option<Token>, generation: nat, expiresAt: Option<Time>)

  datatype NodeRow = NodeRow(
    status: Status, required: bool, attemptCount: nat, lastDigest: Option<Digest>, noProgress: nat,
    activeAttempt: Option<nat>, activeGeneration: Option<nat>)

  datatype AttemptStatus = AttemptRunning | AttemptSucceeded | AttemptFailed | AttemptInterrupted | AttemptCancelled

  /** The structured failure of an attempt; `checkId` is present for a failed acceptance check. */
  datatype Failure = Failure(code: string, checkId: Option<Name>)

  datatype AttemptRow = AttemptRow(
    status: AttemptStatus, generation: nat, startedAt: Time, finishedAt: Option<Time>,
    digest: Option<Digest>, failure: Option<Failure>)

  datatype Decision = Waiting | JoinSucceeded | JoinFailed

  datatype JoinRow = JoinRow(
    threshold: nat, expected: nat, received: nat, passed: nat, failed: nat, cancelled: nat, missing: nat,
    decision: Decision, settlements: map<NodeId, Status>)

  datatype RouteRow = RouteRow(source: Digest, matched: bool)
  datatype LoopRow = LoopRow(iterations: nat, lastAttempt: nat, matched: bool)
  datatype RepairRow = RepairRow(rounds: nat, lastFailure: Digest, noProgress: nat)
  datatype Verdict = Continue | Stop | Complete

  datatype ProgressRow = ProgressRow(
    maxElapsed: nat, maxChecks: Option<nat>, noProgressLimit: nat,
    startedAt: Option<Time>, deadlineAt: Option<Time>,
    observations: nat, checkCount: Option<nat>, artifacts: Option<Outputs>, artifactDelta: bool,
    failure: Option<Digest>, repeatedFailure: bool, noProgress: nat,
    lastProgressAt: Option<Time>, lastObservedAt: Option<Time>, elapsed: Time, verdict: Verdict)

  datatype RemoteRow = RemoteRow(taskId: string, attempt: nat, identity: string)

  /** Accepted output digests of one node, by output name. */
  type Outputs = map<Name, Digest>

  /** The primary keys of `attempts` and `repair_routes` within one run. */
  datatype AttemptKey = AttemptKey(node: NodeId, number: nat)
  datatype RouteKey = RouteKey(node: NodeId, route: Name)
  datatype RepairInput = RepairInput(name: Name, digest: Digest)

  /** The tables of control edges, and the tables of what is attached to a node from outside. */
  datatype Control = Control(joins: map<NodeId, JoinRow>, routes: map<NodeId, RouteRow>, loops: map<NodeId, LoopRow>)
  datatype Attached = Attached(
    repairs: map<RouteKey, RepairRow>, inputs: map<NodeId, RepairInput>, remote: map<NodeId, RemoteRow>)

  datatype Db = Db(
    run: RunRow,
    nodes: map<NodeId, NodeRow>,
    attempts: map<AttemptKey, AttemptRow>,
    artifacts: map<NodeId, Outputs>,
    progress: map<NodeId, ProgressRow>,
    control: Control,
    attached: Attached)

  datatype RunLease = RunLease(token: Token, generation: nat, ttl: Time)

  datatype LoopOutcome = LoopComplete | LoopContinued | LoopExhausted

  datatype Reply =
    | Done
    | LeaseLost                                     // RunLeaseError: the caller no longer owns the run
    | LeaseHeld                                     // RunLeaseError: another owner is live
    | Stale                                         // StaleAttemptError
    | Expired                                       // ProgressBudgetExpiredError, raised after commit
    | Rejected                                      // any other error; the transaction was rolled back
    | Leased(lease: RunLease)
    | Started(number: nat)
    | Answer(yes: bool)
    | Settled(noProgress: nat, verdict: Verdict)
    | Looped(outcome: LoopOutcome)
    | Joined(row: JoinRow)
    | Recovered(uncertain: set<NodeId>)

  // ---------------------------------------------------------------- leases

  function Expiry(run: RunRow): Time { if run.expiresAt.Some? then run.expiresAt.value else 0 }

  /** `_assert_lease` */
  predicate LeaseLive(run: RunRow, lease: RunLease, now: Time) {
    run.ownerToken == Some(lease.token) && run.generation == lease.generation && Expiry(run) > now
  }

  function AcquireLease(run: RunRow, token: Token, ttl: Time, now: Time): (RunRow, Reply) {
    if ttl <= 0 then (run, Rejected)
    else if run.ownerToken.Some? && run.ownerToken.value != token && Expiry(run) > now then (run, LeaseHeld)
    else
      var generation :=
        if run.ownerToken == Some(token) && Expiry(run) > now then run.generation else run.generation + 1;
      (run.(ownerToken := Some(token), generation := generation, expiresAt := Some(now + ttl)),
       Leased(RunLease(token, generation, ttl)))
  }

  function RenewLease(run: RunRow, lease: RunLease, now: Time): (RunRow, Reply) {
    if && run.ownerToken == Some(lease.token) && run.generation == lease.generation
       && run.expiresAt.Some? && run.expiresAt.value > now
    then (run.(expiresAt := Some(now + lease.ttl)), Done)
    else (run, LeaseLost)
  }

  function ReleaseLease(run: RunRow, lease: RunLease): RunRow {
    if run.ownerToken == Some(lease.token) && run.generation == lease.generation
    then run.(ownerToken := None, expiresAt := None)
    else run
  }

  // ---------------------------------------------------------------- progress

  function Count(checks: Option<nat>): nat { if checks.Some? then checks.value else 0 }

  /** `next_progress_observation`; the digest of an artifact set is represented by the set itself. */
  function Observe(prior: ProgressRow, outputs: Outputs, failure: Option<Digest>, checks: Option<nat>,
                   succeeded: bool, now: Time): (next: ProgressRow)
    requires prior.startedAt.Some?
  {
    var artifacts := if outputs == map[] then None else Some(outputs);
    var delta := artifacts.Some? && artifacts != prior.artifacts;
    var repeated := failure.Some? && failure == prior.failure;
    var noProgress := if delta then 0 else if repeated then prior.noProgress + 1 else prior.noProgress;
    var count := if checks.None? then prior.checkCount else Some(Count(prior.checkCount) + checks.value);
    var elapsed := Max(0, now - prior.startedAt.value);
    var verdict :=
      if succeeded then Complete
      else if elapsed >= prior.maxElapsed then Stop
      else if prior.maxChecks.Some? && count.Some? && count.value >= prior.maxChecks.value then Stop
      else if noProgress >= prior.noProgressLimit then Stop
      else Continue;
    prior.(
      observations := prior.observations + 1,
      checkCount := count,
      artifacts := if artifacts.Some? then artifacts else prior.artifacts,
      artifactDelta := delta,
      failure := failure,
      repeatedFailure := repeated,
      noProgress := noProgress,
      lastProgressAt := if delta then Some(now) else if prior.lastProgressAt.Some? then prior.lastProgressAt else prior.startedAt,
      lastObservedAt := Some(now),
      elapsed := elapsed,
      verdict := verdict)
  }

  predicate Overdue(row: ProgressRow, now: Time) { row.deadlineAt.Some? && row.deadlineAt.value <= now }

  function Halted(row: ProgressRow, now: Time): ProgressRow {
    row.(
      observations := row.observations + 1,
      lastObservedAt := Some(now),
      elapsed := if row.startedAt.Some? then Max(0, now - row.startedAt.value) else row.elapsed,
      verdict := Stop)
  }

  // ---------------------------------------------------------------- attempts

  predicate IsStatus(db: Db, n: NodeId, s: Status) { n in db.nodes && db.nodes[n].status == s }

  function Accepted(db: Db, n: NodeId): Outputs { if n in db.artifacts then db.artifacts[n] else map[] }

  function Attempts(db: Db, n: NodeId): nat { if n in db.nodes then db.nodes[n].attemptCount else 0 }

  /** `admit_attempt` */
  function AdmitAttempt(db: Db, n: NodeId, now: Time): (Db, Reply) {
    if n !in db.progress then (db, Rejected)
    else
      var row := db.progress[n];
      if !Overdue(row, now) && row.verdict != Stop then (db, Answer(true))
      else
        (db.(
           progress := db.progress[n := Halted(row, now)],
           nodes := if IsStatus(db, n, Pending) then db.nodes[n := db.nodes[n].(status := Failed)] else db.nodes),
         Answer(false))
  }

  /** `start_attempt` */
  function StartAttempt(db: Db, n: NodeId, generation: nat, now: Time): (Db, Reply) {
    if !IsStatus(db, n, Pending) then (db, Stale)
    else if n !in db.progress then (db, Rejected)
    else
      var row, progress := db.nodes[n], db.progress[n];
      if Overdue(progress, now) then
        (db.(
           progress := db.progress[n := Halted(progress, now)],
           nodes := db.nodes[n := row.(status := Failed)]),
         Expired)
      else
        var number := row.attemptCount + 1;
        (db.(
           progress :=
             if progress.startedAt.Some? then db.progress
             else db.progress[n := progress.(
               startedAt := Some(now), deadlineAt := Some(now + progress.maxElapsed), lastProgressAt := Some(now))],
           nodes := db.nodes[n := row.(
             status := Running, attemptCount := number,
             activeAttempt := Some(number), activeGeneration := Some(generation))],
           attempts := db.attempts[AttemptKey(n, number) := AttemptRow(AttemptRunning, generation, now, None, None, None)]),
         Started(number))
  }

  /** `_assert_active_attempt`, after the lease assertion. */
  predicate ActiveAttempt(db: Db, n: NodeId, number: nat, generation: nat) {
    && IsStatus(db, n, Running)
    && db.nodes[n].activeAttempt == Some(number)
    && db.nodes[n].activeGeneration == Some(generation)
  }

  /** The guarded UPDATE of one attempt row: only a running attempt of this generation is settled. */
  function SettleRow(attempts: map<AttemptKey, AttemptRow>, key: AttemptKey, generation: nat,
                     status: AttemptStatus, digest: Digest, failure: Option<Failure>, now: Time)
    : map<AttemptKey, AttemptRow>
  {
    if key in attempts && attempts[key].status.AttemptRunning? && attempts[key].generation == generation
    then attempts[key := attempts[key].(
      status := status, digest := Some(digest), failure := failure, finishedAt := Some(now))]
    else attempts
  }

  function SettledNode(row: NodeRow, status: Status, digest: Digest, noProgress: nat): NodeRow {
    row.(status := status, lastDigest := Some(digest), noProgress := noProgress,
         activeAttempt := None, activeGeneration := None)
  }

  /** `finish_attempt`, which the scheduler calls for failed attempts only. */
  function FinishAttempt(db: Db, n: NodeId, number: nat, digest: Digest, failure: Option<Failure>,
                         outputs: Outputs, checks: Option<nat>, generation: nat, now: Time): (Db, Reply)
  {
    if !ActiveAttempt(db, n, number, generation) then (db, Stale)
    else if n !in db.progress || db.progress[n].startedAt.None? then (db, Rejected)
    else
      var row := db.nodes[n];
      var noProgress := if row.lastDigest == Some(digest) then row.noProgress + 1 else 0;
      var observed := Observe(db.progress[n], outputs, Some(digest), checks, false, now);
      (db.(
         attempts := SettleRow(db.attempts, AttemptKey(n, number), generation, AttemptFailed, digest, failure, now),
         nodes := db.nodes[n := SettledNode(row, Failed, digest, noProgress)],
         progress := db.progress[n := observed]),
       Settled(noProgress, observed.verdict))
  }

  /** `succeed_attempt` */
  function SucceedAttempt(db: Db, n: NodeId, number: nat, digest: Digest, outputs: Outputs, checks: Option<nat>,
                          generation: nat, now: Time): (Db, Reply)
  {
    if !ActiveAttempt(db, n, number, generation) then (db, Stale)
    else if n !in db.progress || db.progress[n].startedAt.None? then (db, Rejected)
    else
      (db.(
         artifacts := db.artifacts[n := outputs],
         attempts := SettleRow(db.attempts, AttemptKey(n, number), generation, AttemptSucceeded, digest, None, now),
         nodes := db.nodes[n := SettledNode(db.nodes[n], Succeeded, digest, 0)],
         progress := db.progress[n := Observe(db.progress[n], outputs, None, checks, true, now)]),
       Done)
  }

  /** `set_node_status` */
  function SetNodeStatus(db: Db, n: NodeId, status: Status): (Db, Reply) {
    if n !in db.nodes then (db, Rejected)
    else (db.(nodes := db.nodes[n := db.nodes[n].(status := status)]), Done)
  }

  // ---------------------------------------------------------------- control edges

  /** `record_route_decision` */
  function RecordRoute(db: Db, n: NodeId, source: Digest, matched: bool): (Db, Reply) {
    if n in db.control.routes then
      if db.control.routes[n] != RouteRow(source, matched) then (db, Rejected) else (db, Answer(matched))
    else if !IsStatus(db, n, Pending) then (db, Rejected)
    else
      (db.(
         control := db.control.(routes := db.control.routes[n := RouteRow(source, matched)]),
         nodes := if matched then db.nodes else db.nodes[n := db.nodes[n].(status := Skipped)]),
       Answer(matched))
  }

  function Reopened(row: NodeRow): NodeRow {
    row.(status := Pending, activeAttempt := None, activeGeneration := None)
  }

  function LoopIterations(db: Db, c: NodeId): nat { if c in db.control.loops then db.control.loops[c].iterations else 0 }

  /** The decision is recorded under the controller's attempt. */
  function Checkpoint(db: Db, c: NodeId, attempt: nat, matched: bool): Db {
    var row := LoopRow(LoopIterations(db, c) + 1, attempt, matched);
    db.(control := db.control.(loops := db.control.loops[c := row]))
  }

  /** The iteration ceiling: the controller loses its artifacts and fails. */
  function ExhaustLoop(db: Db, c: NodeId): Db {
    db.(artifacts := db.artifacts - {c},
        nodes := if IsStatus(db, c, Succeeded) then db.nodes[c := db.nodes[c].(status := Failed)] else db.nodes)
  }

  /** The loop-back edge: every node of the region is pending again, without artifacts or route decision. */
  function ReopenRegion(db: Db, region: set<NodeId>): Db {
    db.(artifacts := db.artifacts - region,
        control := db.control.(routes := db.control.routes - region),
        nodes := map n | n in db.nodes :: if n in region then Reopened(db.nodes[n]) else db.nodes[n],
        progress := map n | n in db.progress ::
          if n in region then db.progress[n].(verdict := Continue) else db.progress[n])
  }

  /** `apply_loop_decision` */
  function ApplyLoop(db: Db, c: NodeId, attempt: nat, matched: bool, maxIterations: nat, region: set<NodeId>)
    : (Db, Reply)
  {
    if c in db.control.loops && db.control.loops[c].lastAttempt == attempt then
      (db, Looped(if !db.control.loops[c].matched then LoopComplete
                  else if db.control.loops[c].iterations < maxIterations then LoopContinued else LoopExhausted))
    else if c in db.control.loops && db.control.loops[c].lastAttempt > attempt then (db, Rejected)
    else
      var iterations := LoopIterations(db, c) + 1;
      var checkpointed := Checkpoint(db, c, attempt, matched);
      if !matched then (checkpointed, Looped(LoopComplete))
      else if iterations >= maxIterations then (ExhaustLoop(checkpointed, c), Looped(LoopExhausted))
      else (ReopenRegion(checkpointed, region), Looped(LoopContinued))
  }

  datatype RepairOrder = RepairOrder(input: Name, digest: Digest, attemptLimit: nat)

  function RepairRounds(db: Db, n: NodeId, route: Name): nat {
    if RouteKey(n, route) in db.attached.repairs then db.attached.repairs[RouteKey(n, route)].rounds else 0
  }

  /** How often in a row this route has now seen the same failure. */
  function RepairStall(db: Db, n: NodeId, route: Name, digest: Digest): nat {
    if RouteKey(n, route) in db.attached.repairs && db.attached.repairs[RouteKey(n, route)].lastFailure == digest
    then db.attached.repairs[RouteKey(n, route)].noProgress + 1 else 0
  }

  predicate RepairAllowed(db: Db, n: NodeId, route: Name, digest: Digest, maxRounds: nat, noProgressLimit: nat,
                          targets: map<NodeId, RepairOrder>, attemptLimit: nat)
  {
    && IsStatus(db, n, Failed)
    && db.nodes[n].attemptCount < attemptLimit
    && RepairRounds(db, n, route) < maxRounds
    && RepairStall(db, n, route, digest) < noProgressLimit
    && forall t :: t in targets ==>
         IsStatus(db, t, Succeeded) && db.nodes[t].attemptCount < targets[t].attemptLimit
  }

  /** One repair round: the targets and the integration lose their artifacts and are pending again. */
  function RepairTables(db: Db, n: NodeId, route: Name, digest: Digest, targets: map<NodeId, RepairOrder>): Db {
    db.(attached := db.attached.(
          repairs := db.attached.repairs[RouteKey(n, route) :=
            RepairRow(RepairRounds(db, n, route) + 1, digest, RepairStall(db, n, route, digest))],
          inputs := db.attached.inputs + map t | t in targets :: RepairInput(targets[t].input, targets[t].digest)),
        artifacts := db.artifacts - targets.Keys - {n},
        nodes := map m | m in db.nodes ::
          if m in targets || m == n then db.nodes[m].(status := Pending) else db.nodes[m],
        run := db.run.(status := RunRunning))
  }

  /** `route_repair` */
  function RouteRepair(db: Db, n: NodeId, route: Name, digest: Digest, maxRounds: nat, noProgressLimit: nat,
                       targets: map<NodeId, RepairOrder>, attemptLimit: nat): (Db, Reply)
  {
    if !RepairAllowed(db, n, route, digest, maxRounds, noProgressLimit, targets, attemptLimit)
    then (db, Answer(false))
    else (RepairTables(db, n, route, digest, targets), Answer(true))
  }

  /** `record_join_state`: the first terminal decision is frozen. */
  function RecordJoin(db: Db, n: NodeId, snapshot: JoinRow): (Db, Reply) {
    if n in db.control.joins && db.control.joins[n].decision != Waiting then (db, Joined(db.control.joins[n]))
    else (db.(control := db.control.(joins := db.control.joins[n := snapshot])), Joined(snapshot))
  }

  // ---------------------------------------------------------------- recovery and completion

  function Interrupted(row: AttemptRow, status: AttemptStatus, now: Time): AttemptRow {
    if row.status.AttemptRunning? then row.(status := status, finishedAt := Some(now)) else row
  }

  /** `recover_interrupted` */
  function RecoverInterrupted(db: Db, replaySafe: set<NodeId>, now: Time): (Db, Reply) {
    (db.(
       attempts := map k | k in db.attempts :: Interrupted(db.attempts[k], AttemptInterrupted, now),
       nodes := map n | n in db.nodes ::
         if db.nodes[n].status.Running?
         then Reopened(db.nodes[n]).(status := if n in replaySafe then Pending else Uncertain)
         else db.nodes[n],
       run := db.run.(status := RunRunning)),
     Recovered(set n | n in db.nodes && db.nodes[n].status.Running? && n !in replaySafe))
  }

  /** `reconcile_node` */
  function ReconcileNode(db: Db, n: NodeId, retry: bool): (Db, Reply) {
    if !IsStatus(db, n, Uncertain) then (db, Rejected)
    else
      (db.(nodes := db.nodes[n := db.nodes[n].(status := if retry then Pending else Failed)],
           run := db.run.(status := RunRunning)),
       Done)
  }

  /** `invalidate_node` */
  function InvalidateNode(db: Db, n: NodeId): (Db, Reply) {
    (db.(nodes := if n in db.nodes then db.nodes[n := db.nodes[n].(status := Failed)] else db.nodes), Done)
  }

  /** What a cancellation leaves of nodes and attempts. */
  function CancelledRows(nodes: map<NodeId, NodeRow>): map<NodeId, NodeRow> {
    map n | n in nodes ::
      if nodes[n].status.Succeeded? || nodes[n].status.OptionalFailed? then nodes[n]
      else Reopened(nodes[n]).(status := Cancelled)
  }

  function CancelledAttempts(attempts: map<AttemptKey, AttemptRow>, now: Time): map<AttemptKey, AttemptRow> {
    map k | k in attempts :: Interrupted(attempts[k], AttemptCancelled, now)
  }

  /** `finish_run` */
  function FinishRun(db: Db, status: RunStatus, now: Time): (Db, Reply) {
    var finished := db.(run := db.run.(status := status));
    if status != RunCancelled then (finished, Done)
    else
      (finished.(nodes := CancelledRows(db.nodes), attempts := CancelledAttempts(db.attempts, now)), Done)
  }

  /** `bind_remote_task`, which asserts the active attempt but no lease. */
  function BindRemote(db: Db, n: NodeId, row: RemoteRow): (Db, Reply) {
    if !(IsStatus(db, n, Running) && db.nodes[n].activeAttempt == Some(row.attempt)) then (db, Stale)
    else if n in db.attached.remote then (db, if db.attached.remote[n] == row then Done else Stale)
    else (db.(attached := db.attached.(remote := db.attached.remote[n := row])), Done)
  }

  /** `create_run` */
  function CreateRun(flow: Flow): Db {
    Db(RunRow(RunRunning, false, None, 0, None),
       map n | n in flow.nodes :: NodeRow(Pending, flow.nodes[n].required, 0, None, 0, None, None),
       map[], map[],
       map n | n in flow.nodes ::
         ProgressRow(ElapsedBudget(flow, flow.nodes[n]), flow.nodes[n].progress.maxChecks,
                     NoProgressLimit(flow.nodes[n]), None, None, 0, None, None, false, None, false, 0,
                     None, None, 0, Continue),
       Control(map[], map[], map[]), Attached(map[], map[], map[]))
  }

  // ---------------------------------------------------------------- leased transactions

  /** The transactions that open with `_assert_lease`. */
  datatype Tx =
    | TxAdmit(n: NodeId)
    | TxStart(n: NodeId)
    | TxFinish(n: NodeId, number: nat, digest: Digest, failure: Option<Failure>, outputs: Outputs, checks: Option<nat>)
    | TxSucceed(n: NodeId, number: nat, digest: Digest, outputs: Outputs, checks: Option<nat>)
    | TxStatus(n: NodeId, status: Status)
    | TxRoute(n: NodeId, source: Digest, matched: bool)
    | TxLoop(n: NodeId, number: nat, matched: bool, maxIterations: nat, region: set<NodeId>)
    | TxRepair(n: NodeId, route: Name, digest: Digest, maxRounds: nat, noProgressLimit: nat,
               targets: map<NodeId, RepairOrder>, attemptLimit: nat)
    | TxJoin(n: NodeId, snapshot: JoinRow)
    | TxRecover(replaySafe: set<NodeId>)
    | TxReconcile(n: NodeId, retry: bool)
    | TxInvalidate(n: NodeId)
    | TxFinishRun(runStatus: RunStatus)

  function Commit(db: Db, tx: Tx, generation: nat, now: Time): (Db, Reply) {
    match tx
    case TxAdmit(n) => AdmitAttempt(db, n, now)
    case TxStart(n) => StartAttempt(db, n, generation, now)
    case TxFinish(n, number, digest, failure, outputs, checks) =>
      FinishAttempt(db, n, number, digest, failure, outputs, checks, generation, now)
    case TxSucceed(n, number, digest, outputs, checks) =>
      SucceedAttempt(db, n, number, digest, outputs, checks, generation, now)
    case TxStatus(n, status) => SetNodeStatus(db, n, status)
    case TxRoute(n, source, matched) => RecordRoute(db, n, source, matched)
    case TxLoop(n, number, matched, maxIterations, region) => ApplyLoop(db, n, number, matched, maxIterations, region)
    case TxRepair(n, route, digest, maxRounds, noProgressLimit, targets, attemptLimit) =>
      RouteRepair(db, n, route, digest, maxRounds, noProgressLimit, targets, attemptLimit)
    case TxJoin(n, snapshot) => RecordJoin(db, n, snapshot)
    case TxRecover(replaySafe) => RecoverInterrupted(db, replaySafe, now)
    case TxReconcile(n, retry) => ReconcileNode(db, n, retry)
    case TxInvalidate(n) => InvalidateNode(db, n)
    case TxFinishRun(status) => FinishRun(db, status, now)
  }

  /** A leased transaction: fenced first, then committed. */
  function Exec(db: Db, tx: Tx, lease: RunLease, now: Time): (Db, Reply) {
    if LeaseLive(db.run, lease, now) then Commit(db, tx, lease.generation, now) else (db, LeaseLost)
  }
}
