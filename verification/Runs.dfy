/**
 Whole runs of the scheduler: owners acquire the lease, drive the store, crash, and are taken over,
 while fenced owners keep trying to write.  Every action is one transaction (or the passage of time),
 so a crash can fall between any two of them.
 */
module Runs {
  import opened Prelude
  import opened Graph
  import opened Workflow
  import opened Store
  import opened Joins

  /** How far `Scheduler.run` has got under one lease; `reconcile_node` holds a lease of its own. */
  datatype Phase = Opening(resume: bool) | Looping | Finished | Reconciling

  /**
   The memory of the owner: its lease, the attempts it waits for, and the status `_finalize_attempt`
   still has to write for the failure it has just recorded.
   */
  datatype Session = Session(
    lease: RunLease, phase: Phase, active: map<NodeId, nat>, todo: Option<(NodeId, Status)>)

  /** The run, with the history the theorems speak about. */
  datatype Sys = Sys(
    db: Db, now: Time, session: Option<Session>, tokens: set<Token>,
    starts: seq<NodeId>,                            // the node of every attempt started, in order
    found: seq<map<NodeId, Status>>,                // the statuses of its needs at that moment
    retries: map<NodeId, nat>,                      // explicit `retry` reconciliations per node
    published: map<AttemptKey, Outputs>)         // what each accepted attempt published

  datatype Action =
    | Tick(dt: nat)
    | Acquire(token: Token, ttl: Time, phase: Phase)
    | Renew
    | Release
    | Crash                                         // the owner's memory is lost; its lease is not
    | RequestCancel
    | Bind(n: NodeId, row: RemoteRow)
    | Do(tx: Tx)                                    // a transaction of the owner
    | Zombie(lease: RunLease, tx: Tx)               // a transaction of a replaced owner

  function Initial(flow: Flow): Sys { Sys(CreateRun(flow), 0, None, {}, [], [], map[], map[]) }

  // ---------------------------------------------------------------- what the scheduler asks first

  function AttemptsOf(db: Db): nat -> nat { n => Attempts(db, n) }

  /** `sum(row["attempt_count"] for row in rows.values())` */
  function AttemptTotal(flow: Flow, db: Db): nat { Sum(flow.ids, AttemptsOf(db)) }

  /** Attempts a node has made, plus the one it may still make while it is pending. */
  function Load(db: Db, n: NodeId): nat { Attempts(db, n) + if IsStatus(db, n, Pending) then 1 else 0 }

  ghost predicate Ready(flow: Flow, db: Db, active: set<NodeId>, n: NodeId)
    requires n in flow.nodes
  {
    && (if flow.nodes[n].join.Some? then n in db.control.joins && db.control.joins[n].decision == JoinSucceeded
        else forall d :: d in flow.nodes[n].needs ==> d in db.nodes && Good(db.nodes[d].status))
    && flow.nodes.Keys <= db.nodes.Keys && Closed(NeedsOf(flow))
    && (forall c :: c in flow.nodes ==> flow.nodes[c].needs <= db.nodes.Keys)
    && QuorumRoom(flow, n, db.nodes, active)
  }

  /** `n` votes in a quorum that is already decided; it is launched without looking at its own needs. */
  ghost predicate Reserve(flow: Flow, db: Db, n: NodeId) {
    exists c :: c in flow.nodes && ReserveOf(flow, db, c, n)
  }

  ghost predicate ReserveOf(flow: Flow, db: Db, c: NodeId, n: NodeId)
    requires c in flow.nodes
  {
    && flow.nodes[c].join.Some? && IsQuorum(flow.nodes[c].join.value) && n in flow.nodes[c].needs
    && flow.nodes[c].needs <= db.nodes.Keys
    && Snapshot(flow.nodes[c].join.value, flow.nodes[c].needs, db.nodes).decision != Waiting
  }

  ghost predicate CanLaunch(flow: Flow, db: Db, active: map<NodeId, nat>, n: NodeId) {
    && n in flow.nodes && IsStatus(db, n, Pending) && n !in active
    && |active| < flow.budgets.maxConcurrency
    && AttemptTotal(flow, db) < flow.budgets.maxTotalAttempts
    && (Ready(flow, db, active.Keys, n) || Reserve(flow, db, n))
  }

  /**
   The reserve pass works on a snapshot, so a voter that was refused for one consumer can be tried again
   for the next one; its progress budget has stopped and it is refused again.
   */
  predicate RefusedBefore(flow: Flow, db: Db, n: NodeId) {
    && n in flow.nodes && IsStatus(db, n, Failed) && Accepted(db, n) == map[]
    && n in db.progress && db.progress[n].verdict == Stop
  }

  /**
   The rows a pass has read lag behind the tables: nodes that were pending have since been refused,
   blocked or skipped by the pass itself.
   */
  ghost predicate Lags(rows: Rows, now: Rows) {
    && rows.Keys == now.Keys
    && forall d :: d in rows ==> LagRow(rows[d], now[d])
  }

  predicate LagRow(row: NodeRow, now: NodeRow) {
    now == row || (row.status.Pending? && Stopped(now.status) && now == row.(status := now.status))
  }

  predicate Stopped(s: Status) { s.Failed? || s.Blocked? || s.Skipped? }

  predicate Stops(s: Status) { s.Failed? || s.Blocked? || s.Cancelled? || s.Uncertain? }

  /** The rows a pass has read, on which a node is still pending. */
  ghost predicate SeenPending(flow: Flow, db: Db, rows: Rows, n: NodeId) {
    && Lags(rows, db.nodes) && n in flow.nodes && n in rows && rows[n].status.Pending?
    && flow.nodes[n].needs <= rows.Keys
    && (IsStatus(db, n, Pending) || RefusedBefore(flow, db, n))
  }

  /** Blocking and skipping, decided on the rows the pass has read. */
  ghost predicate CanBlock(flow: Flow, db: Db, rows: Rows, n: NodeId) {
    && SeenPending(flow, db, rows, n)
    && if flow.nodes[n].join.Some? then n in db.control.joins && db.control.joins[n].decision == JoinFailed
       else exists d :: d in flow.nodes[n].needs && Stops(rows[d].status)
  }

  ghost predicate CanSkip(flow: Flow, db: Db, rows: Rows, n: NodeId) {
    && SeenPending(flow, db, rows, n) && flow.nodes[n].join.None?
    && (forall d :: d in flow.nodes[n].needs ==> !Stops(rows[d].status))
    && exists d :: d in flow.nodes[n].needs && rows[d].status.Skipped?
  }

  ghost predicate RouteOpen(flow: Flow, db: Db, n: NodeId) {
    && n in flow.nodes && IsStatus(db, n, Pending)
    && flow.nodes[n].route.Some? && IsStatus(db, flow.nodes[n].route.value.producer, Succeeded)
  }

  /**
   A control failure of a loop controller.  The pass works on a snapshot, so a controller that an
   earlier decision of the same pass has reopened is pending, not succeeded, when this is written.
   */
  ghost predicate CanFailLoop(flow: Flow, db: Db, n: NodeId) {
    && n in flow.nodes && flow.nodes[n].loop.Some?
    && (IsStatus(db, n, Succeeded) || IsStatus(db, n, Pending))
  }

  ghost predicate StatusAllowed(flow: Flow, db: Db, sess: Session, n: NodeId, status: Status) {
    if sess.todo.Some? then sess.todo.value == (n, status)
    else
      || (status.Blocked? && exists rows :: CanBlock(flow, db, rows, n))
      || (status.Skipped? && exists rows :: CanSkip(flow, db, rows, n))
      || (status.Failed? && RouteOpen(flow, db, n))
      || (status.Failed? && CanFailLoop(flow, db, n))
      || (status.Failed? && n in flow.nodes && IsStatus(db, n, Pending) && sess.active == map[]
          && AttemptTotal(flow, db) >= flow.budgets.maxTotalAttempts)
  }

  function LastFailure(db: Db, n: NodeId): Option<Failure> {
    if n in db.nodes && AttemptKey(n, db.nodes[n].attemptCount) in db.attempts
    then db.attempts[AttemptKey(n, db.nodes[n].attemptCount)].failure else None
  }

  function TargetNodes(targets: seq<RepairTarget>): set<NodeId> {
    set i | 0 <= i < |targets| :: targets[i].node
  }

  /** Exactly one route handles the failed check. */
  ghost predicate HandledBy(routes: seq<RepairRoute>, check: Name, i: nat) {
    && i < |routes| && check in routes[i].checkIds
    && forall j :: 0 <= j < |routes| && check in routes[j].checkIds ==> j == i
  }

  /** The arguments `_try_repair` computes for the route it found. */
  ghost predicate RepairArguments(flow: Flow, db: Db, n: NodeId, tx: Tx, i: nat)
    requires tx.TxRepair? && n in flow.nodes && flow.nodes[n].repair.Some?
  {
    var routes := flow.nodes[n].repair.value;
    var failure := LastFailure(db, n);
    && failure.Some? && failure.value.code == "CHECK_FAILED" && failure.value.checkId.Some?
    && HandledBy(routes, failure.value.checkId.value, i)
    && n in db.nodes && db.nodes[n].lastDigest == Some(tx.digest)
    && tx.n == n && tx.route == routes[i].id
    && tx.maxRounds == routes[i].maxRounds && tx.noProgressLimit == routes[i].noProgressLimit
    && tx.attemptLimit == AttemptLimit(flow.nodes[n])
    && tx.targets.Keys == TargetNodes(routes[i].targets)
    && forall t :: t in tx.targets ==>
         t in flow.nodes && ReplaySafe(flow.nodes[t]) && flow.nodes[t].permission.Write?
         && tx.targets[t].attemptLimit == AttemptLimit(flow.nodes[t])
  }

  ghost predicate CanRepair(flow: Flow, db: Db, tx: Tx)
    requires tx.TxRepair?
  {
    && tx.n in flow.nodes && flow.nodes[tx.n].repair.Some?
    && exists i: nat :: RepairArguments(flow, db, tx.n, tx, i)
  }

  ghost predicate CanDecideLoop(flow: Flow, db: Db, tx: Tx)
    requires tx.TxLoop?
  {
    && tx.n in flow.nodes && flow.nodes[tx.n].loop.Some? && IsStatus(db, tx.n, Succeeded)
    && tx.number == db.nodes[tx.n].attemptCount
    && tx.maxIterations == flow.nodes[tx.n].loop.value.maxIterations
    && tx.region == LoopRegion(flow, tx.n, flow.nodes[tx.n].loop.value.target)
  }

  /** A join snapshot of the rows a pass has read. */
  ghost predicate JoinOf(flow: Flow, rows: Rows, n: NodeId, snapshot: JoinRow) {
    && n in flow.nodes && flow.nodes[n].join.Some? && flow.nodes[n].needs <= rows.Keys
    && snapshot == Snapshot(flow.nodes[n].join.value, flow.nodes[n].needs, rows)
  }

  ghost predicate JoinSeen(flow: Flow, db: Db, n: NodeId, snapshot: JoinRow) {
    exists rows :: Lags(rows, db.nodes) && JoinOf(flow, rows, n, snapshot)
  }

  predicate AllTerminal(flow: Flow, db: Db) {
    forall n :: n in flow.nodes ==> n in db.nodes && Terminal(db.nodes[n].status)
  }

  /** The reduction of a terminal graph to a run status. */
  function Reduce(flow: Flow, db: Db): RunStatus
    requires flow.nodes.Keys <= db.nodes.Keys
  {
    if exists n :: n in flow.nodes && db.nodes[n].status.Uncertain? then RunNeedsReconciliation
    else if exists n :: n in flow.nodes && db.nodes[n].status.Cancelled? then RunCancelled
    else if exists n :: n in flow.nodes && db.nodes[n].required
                        && !db.nodes[n].status.Succeeded? && !db.nodes[n].status.Skipped? then RunFailed
    else RunSucceeded
  }

  function SafeNodes(flow: Flow): set<NodeId> { set n | n in flow.nodes && ReplaySafe(flow.nodes[n]) }

  predicate InLoopPhase(sess: Session) { sess.phase.Opening? || sess.phase.Looping? }

  /** The end of the loop: nothing runs, everything is terminal. */
  predicate AtRest(flow: Flow, db: Db, sess: Session) {
    InLoopPhase(sess) && sess.active == map[] && AllTerminal(flow, db)
  }

  /** When the owner issues which transaction. */
  ghost predicate Guard(flow: Flow, db: Db, sess: Session, tx: Tx) {
    && (sess.todo.Some? ==> tx.TxStatus?)
    && match tx
       case TxAdmit(n) => InLoopPhase(sess) && (CanLaunch(flow, db, sess.active, n) || RefusedBefore(flow, db, n))
       case TxStart(n) => InLoopPhase(sess) && CanLaunch(flow, db, sess.active, n)
       case TxFinish(n, number, _, _, _, _) => InLoopPhase(sess) && n in sess.active && sess.active[n] == number
       case TxSucceed(n, number, _, _, _) => InLoopPhase(sess) && n in sess.active && sess.active[n] == number
       case TxStatus(n, status) => InLoopPhase(sess) && StatusAllowed(flow, db, sess, n, status)
       case TxRoute(n, _, _) => InLoopPhase(sess) && RouteOpen(flow, db, n)
       case TxLoop(_, _, _, _, _) => InLoopPhase(sess) && CanDecideLoop(flow, db, tx)
       case TxRepair(_, _, _, _, _, _, _) => InLoopPhase(sess) && CanRepair(flow, db, tx)
       case TxJoin(n, snapshot) => (InLoopPhase(sess) || sess.phase.Finished?) && JoinSeen(flow, db, n, snapshot)
       case TxRecover(safe) => sess.phase == Opening(true) && sess.active == map[] && safe == SafeNodes(flow)
       case TxReconcile(_, _) => sess.phase.Reconciling?
       case TxInvalidate(n) => n in flow.nodes && (sess.phase.Opening? || AtRest(flow, db, sess))
       case TxFinishRun(status) =>
         || (InLoopPhase(sess) && status.RunCancelled?)
         || (sess.phase.Opening? && (status.RunFailed? || status.RunNeedsReconciliation?))
         || (AtRest(flow, db, sess) && (status == RunFailed || (flow.nodes.Keys <= db.nodes.Keys && status == Reduce(flow, db))))
  }

  // ---------------------------------------------------------------- steps

  /** What `_finalize_attempt` writes after a recorded failure. */
  function Todo(flow: Flow, n: NodeId, number: nat, noProgress: nat, verdict: Verdict): Option<(NodeId, Status)> {
    if n !in flow.nodes || flow.nodes[n].repair.Some? then None
    else
      var node := flow.nodes[n];
      var again := number < RetryLimit(flow, node) && noProgress < NoProgressLimit(node) && verdict == Continue;
      if again then Some((n, if ReplaySafe(node) then Pending else Uncertain))
      else if !node.required then Some((n, OptionalFailed))
      else None
  }

  /** The owner's memory after one of its transactions was answered. */
  function Remember(flow: Flow, sess: Session, tx: Tx, reply: Reply): Session {
    match tx
    case TxStart(n) =>
      if reply.Started? then sess.(phase := Looping, active := sess.active[n := reply.number])
      else sess.(phase := Looping)
    case TxFinish(n, number, _, _, _, _) =>
      sess.(phase := Looping, active := sess.active - {n},
            todo := if reply.Settled? then Todo(flow, n, number, reply.noProgress, reply.verdict) else None)
    case TxSucceed(n, _, _, _, _) => sess.(phase := Looping, active := sess.active - {n})
    case TxStatus(_, _) => sess.(phase := Looping, todo := None)
    case TxJoin(_, _) => if sess.phase.Finished? then sess else sess.(phase := Looping)
    case TxRecover(_) => sess.(phase := Opening(false))
    case TxReconcile(_, _) => sess
    case TxInvalidate(_) => sess
    case TxFinishRun(status) => sess.(phase := Finished, active := if status.RunCancelled? then map[] else sess.active)
    case _ => sess.(phase := Looping)
  }

  function NeedStatuses(flow: Flow, db: Db, n: NodeId): map<NodeId, Status> {
    if n in flow.nodes then map d | d in flow.nodes[n].needs && d in db.nodes :: db.nodes[d].status else map[]
  }

  function Retries(s: Sys, n: NodeId): nat { if n in s.retries then s.retries[n] else 0 }

  function PublishedAfter(published: map<AttemptKey, Outputs>, tx: Tx, reply: Reply): map<AttemptKey, Outputs> {
    if tx.TxSucceed? && reply.Done? then published[AttemptKey(tx.n, tx.number) := tx.outputs] else published
  }

  /** One leased transaction of the owner, with the history it leaves. */
  function DoTx(flow: Flow, s: Sys, tx: Tx): Sys
    requires s.session.Some?
  {
    var sess := s.session.value;
    var (db, reply) := Exec(s.db, tx, sess.lease, s.now);
    if reply.LeaseLost? then s.(session := None)
    else
      s.(db := db,
         session := Some(Remember(flow, sess, tx, reply)),
         starts := if tx.TxStart? && reply.Started? then s.starts + [tx.n] else s.starts,
         found := if tx.TxStart? && reply.Started? then s.found + [NeedStatuses(flow, s.db, tx.n)] else s.found,
         retries := if tx.TxReconcile? && tx.retry && reply.Done? then s.retries[tx.n := Retries(s, tx.n) + 1] else s.retries,
         published := PublishedAfter(s.published, tx, reply))
  }

  ghost predicate Enabled(flow: Flow, s: Sys, a: Action) {
    match a
    case Tick(_) => true
    case Acquire(token, _, phase) => token !in s.tokens && (phase.Opening? || phase.Reconciling?)
    case Renew => s.session.Some?
    case Release => s.session.Some?
    case Crash => true
    case RequestCancel => true
    case Bind(_, _) => true
    case Do(tx) => s.session.Some? && Guard(flow, s.db, s.session.value, tx)
    case Zombie(lease, _) => lease.generation < s.db.run.generation
  }

  function Apply(flow: Flow, s: Sys, a: Action): Sys {
    match a
    case Tick(dt) => s.(now := s.now + dt)
    case Acquire(token, ttl, phase) =>
      var (run, reply) := AcquireLease(s.db.run, token, ttl, s.now);
      if reply.Leased? then
        s.(db := s.db.(run := run), tokens := s.tokens + {token},
           session := Some(Session(reply.lease, phase, map[], None)))
      else s.(tokens := s.tokens + {token})
    case Renew =>
      if s.session.None? then s else
      var (run, reply) := RenewLease(s.db.run, s.session.value.lease, s.now);
      if reply.Done? then s.(db := s.db.(run := run)) else s.(session := None)
    case Release =>
      if s.session.None? then s else
      s.(db := s.db.(run := ReleaseLease(s.db.run, s.session.value.lease)), session := None)
    case Crash => s.(session := None)
    case RequestCancel => s.(db := s.db.(run := s.db.run.(cancelRequested := true)))
    case Bind(n, row) => s.(db := BindRemote(s.db, n, row).0)
    case Do(tx) => if s.session.None? then s else DoTx(flow, s, tx)
    case Zombie(lease, tx) => s.(db := Exec(s.db, tx, lease, s.now).0)
  }

  /** A run: every action is enabled when it happens. */
  ghost predicate Run(flow: Flow, s: Sys, acts: seq<Action>)
    decreases |acts|
  {
    acts == [] || (Run(flow, s, acts[..|acts| - 1]) && Enabled(flow, After(flow, s, acts[..|acts| - 1]), acts[|acts| - 1]))
  }

  function After(flow: Flow, s: Sys, acts: seq<Action>): Sys
    decreases |acts|
  {
    if acts == [] then s else Apply(flow, After(flow, s, acts[..|acts| - 1]), acts[|acts| - 1])
  }

  /** A run and one more enabled action. */
  lemma RunExtends(flow: Flow, s: Sys, acts: seq<Action>, a: Action)
    requires Run(flow, s, acts) && Enabled(flow, After(flow, s, acts), a)
    ensures Run(flow, s, acts + [a]) && After(flow, s, acts + [a]) == Apply(flow, After(flow, s, acts), a)
  {
    assert (acts + [a])[..|acts + [a]| - 1] == acts;
  }

  /** A replaced owner changes nothing, whatever it sends. */
  lemma ZombieIsHarmless(flow: Flow, s: Sys, lease: RunLease, tx: Tx)
    requires Enabled(flow, s, Zombie(lease, tx))
    ensures Apply(flow, s, Zombie(lease, tx)) == s
  {
  }

  /** A run and one more transaction of the owner that commits. */
  lemma RunDoes(flow: Flow, start: Sys, acts: seq<Action>, tx: Tx)
    requires Run(flow, start, acts)
    requires var s := After(flow, start, acts);
      s.session.Some? && LeaseLive(s.db.run, s.session.value.lease, s.now) && Guard(flow, s.db, s.session.value, tx)
    ensures var s, t := After(flow, start, acts), After(flow, start, acts + [Do(tx)]);
      var (later, reply) := Commit(s.db, tx, s.session.value.lease.generation, s.now);
      && Run(flow, start, acts + [Do(tx)])
      && (!reply.LeaseLost? ==>
            t.db == later && t.session == Some(Remember(flow, s.session.value, tx, reply))
            && t.now == s.now && t.tokens == s.tokens)
  {
    var s := After(flow, start, acts);
    RunExtends(flow, start, acts, Do(tx));
    DoCommits(flow, s, tx);
  }

  /** The tables that only owners' transactions write. */
  ghost predicate SameTables(s: Sys, t: Sys) {
    && t.db.nodes == s.db.nodes && t.db.attempts == s.db.attempts && t.db.artifacts == s.db.artifacts
    && t.db.progress == s.db.progress && t.db.control == s.db.control && t.db.attached.repairs == s.db.attached.repairs
    && t.starts == s.starts && t.found == s.found && t.retries == s.retries && t.published == s.published
  }

  /** An acquisition that is answered with a lease; any other leaves the owner as it is. */
  predicate TakesOver(s: Sys, a: Action) { a.Acquire? && AcquireLease(s.db.run, a.token, a.ttl, s.now).1.Leased? }

  /** Nobody takes the run over after the first `i` actions. */
  predicate OneOwnerFrom(flow: Flow, s: Sys, acts: seq<Action>, i: nat)
    requires i <= |acts|
    decreases |acts|
  {
    i == |acts| ||
      (OneOwnerFrom(flow, s, acts[..|acts| - 1], i) && !TakesOver(After(flow, s, acts[..|acts| - 1]), acts[|acts| - 1]))
  }

  /** Everything but a transaction of the owner leaves them alone, and at most replaces the owner or drops its memory. */
  lemma OutsideFrame(flow: Flow, s: Sys, a: Action)
    requires Enabled(flow, s, a) && !a.Do?
    ensures var t := Apply(flow, s, a);
            && SameTables(s, t)
            && (t.session.None? || t.session == s.session
                || (TakesOver(s, a) && t.session.value.todo.None? && t.session.value.active == map[]))
  {
    match a
    case Zombie(lease, tx) => ZombieIsHarmless(flow, s, lease, tx);
    case Acquire(token, ttl, phase) => AcquireFrame(flow, s, token, ttl, phase);
    case _ =>
  }

  lemma AcquireFrame(flow: Flow, s: Sys, token: Token, ttl: Time, phase: Phase)
    ensures var t := Apply(flow, s, Acquire(token, ttl, phase));
      && SameTables(s, t)
      && (t.session == s.session
          || (TakesOver(s, Acquire(token, ttl, phase)) && t.session.Some? && t.session.value.todo.None?
              && t.session.value.active == map[]))
  {
  }

  /** A transaction that finds the lease gone ends the session and changes nothing else. */
  lemma DoFrame(flow: Flow, s: Sys, tx: Tx)
    requires s.session.Some? && !LeaseLive(s.db.run, s.session.value.lease, s.now)
    ensures DoTx(flow, s, tx) == s.(session := None)
  {
  }

  lemma DoCommits(flow: Flow, s: Sys, tx: Tx)
    requires s.session.Some? && LeaseLive(s.db.run, s.session.value.lease, s.now)
    ensures var sess := s.session.value;
            var (later, reply) := Commit(s.db, tx, sess.lease.generation, s.now);
            var t := DoTx(flow, s, tx);
            && t.db == later && t.session == Some(Remember(flow, sess, tx, reply)) && t.now == s.now
            && t.starts == (if tx.TxStart? && reply.Started? then s.starts + [tx.n] else s.starts)
            && t.found == (if tx.TxStart? && reply.Started? then s.found + [NeedStatuses(flow, s.db, tx.n)] else s.found)
            && t.retries == (if tx.TxReconcile? && tx.retry && reply.Done? then s.retries[tx.n := Retries(s, tx.n) + 1] else s.retries)
            && t.published == PublishedAfter(s.published, tx, reply)
  {
  }
}
