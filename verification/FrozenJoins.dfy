/**
 A join decision frozen during a run is the decision its dependencies would give at every later moment if and
 only if every loop, repair, invalidation, reconciliation and failed controller in between leaves enough of the
 evidence; whether it does can be told before it happens.
 */
module FrozenJoins {
  import opened Prelude
  import opened Workflow
  import opened Store
  import opened Joins
  import opened JoinReopening
  import opened Runs
  import opened RunInvariants
  import opened History

  /** What a transaction does to dependencies that have settled. */
  datatype Disturbance = Calm | Reopening(nodes: set<NodeId>) | Failing(node: NodeId)

  /** The branch of the transaction that will be taken, told from the present tables. */
  function Disturbs(db: Db, tx: Tx): Disturbance {
    match tx
    case TxReconcile(d, true) => if IsStatus(db, d, Uncertain) then Reopening({d}) else Calm
    case TxLoop(c, attempt, matched, maxIterations, region) =>
      if !matched || (c in db.control.loops && db.control.loops[c].lastAttempt >= attempt) then Calm
      else if LoopIterations(db, c) + 1 < maxIterations then Reopening(region)
      else Failing(c)
    case TxRepair(n, route, digest, maxRounds, limit, targets, attemptLimit) =>
      if RepairAllowed(db, n, route, digest, maxRounds, limit, targets, attemptLimit) then Reopening(targets.Keys + {n}) else Calm
    case TxInvalidate(c) => Failing(c)
    case TxStatus(c, Failed) => if IsStatus(db, c, Succeeded) then Failing(c) else Calm
    case _ => Calm
  }

  /** Enough evidence for the present decision is left. */
  predicate Outlives(policy: Policy, needs: set<NodeId>, rows: Rows, e: Disturbance)
    requires needs <= rows.Keys
  {
    match e
    case Calm => true
    case Reopening(nodes) => OutlivesReopening(policy, needs, rows, nodes)
    case Failing(c) => OutlivesFailure(policy, needs, rows, c)
  }

  predicate StatusSettles(s: Status, t: Status) {
    && (s.Succeeded? ==> t.Succeeded?) && (s.OptionalFailed? ==> t.OptionalFailed?) && (Bad(s) ==> Bad(t))
  }

  /** The rows with the node that `_finalize_attempt` is still settling counted as unsettled. */
  function Held(rows: Rows, todo: Option<(NodeId, Status)>): Rows {
    if todo.Some? && todo.value.0 in rows then rows[todo.value.0 := rows[todo.value.0].(status := Running)] else rows
  }

  function TodoOf(session: Option<Session>): Option<(NodeId, Status)> {
    if session.Some? then session.value.todo else None
  }

  function Effective(s: Sys): Rows { Held(s.db.nodes, TodoOf(s.session)) }

  ghost predicate RowsSettle(rows: Rows, later: Rows) {
    && rows.Keys == later.Keys
    && forall d :: d in rows ==> later[d].required == rows[d].required && StatusSettles(rows[d].status, later[d].status)
  }

  /** The rows give this decision. */
  predicate DecidedBy(flow: Flow, n: NodeId, rows: Rows, decision: Decision) {
    && n in flow.nodes && flow.nodes[n].join.Some? && flow.nodes[n].needs <= rows.Keys
    && Snapshot(flow.nodes[n].join.value, flow.nodes[n].needs, rows).decision == decision
  }

  /** Each frozen decision is the decision of the present rows. */
  ghost predicate Current(flow: Flow, s: Sys) {
    forall n :: n in flow.nodes && IsFrozen(s.db.control.joins, n) ==>
      DecidedBy(flow, n, Effective(s), s.db.control.joins[n].decision)
  }

  lemma BulkSettles(db: Db, tx: Tx, generation: nat, now: Time)
    requires tx.TxRecover? || tx.TxFinishRun?
    ensures RowsSettle(db.nodes, Commit(db, tx, generation, now).0.nodes)
  {
  }

  lemma AttemptSettles(db: Db, tx: Tx, generation: nat, now: Time)
    requires tx.TxAdmit? || tx.TxStart? || tx.TxFinish? || tx.TxSucceed? || tx.TxRoute? || tx.TxJoin?
    ensures RowsSettle(db.nodes, Commit(db, tx, generation, now).0.nodes)
  {
  }

  /** A loop, repair or reconciliation whose branch leaves settled dependencies alone. */
  lemma IdleSettles(db: Db, tx: Tx, generation: nat, now: Time)
    requires (tx.TxLoop? || tx.TxRepair? || tx.TxReconcile?) && Disturbs(db, tx).Calm?
    ensures RowsSettle(db.nodes, Commit(db, tx, generation, now).0.nodes)
  {
  }

  lemma CommitSettles(db: Db, tx: Tx, generation: nat, now: Time)
    requires Disturbs(db, tx).Calm? && !tx.TxStatus?
    ensures RowsSettle(db.nodes, Commit(db, tx, generation, now).0.nodes)
  {
    if tx.TxRecover? || tx.TxFinishRun? {
      BulkSettles(db, tx, generation, now);
    } else if tx.TxLoop? || tx.TxRepair? || tx.TxReconcile? {
      IdleSettles(db, tx, generation, now);
    } else {
      AttemptSettles(db, tx, generation, now);
    }
  }

  lemma OthersKeepJoins(db: Db, tx: Tx, generation: nat, now: Time)
    requires !tx.TxJoin?
    ensures Commit(db, tx, generation, now).0.control.joins == db.control.joins
  {
  }

  /** A recorded failure: the row is held as running until its status is final. */
  lemma FinishSettlesRows(flow: Flow, db: Db, sess: Session, tx: Tx, now: Time)
    requires tx.TxFinish?
    ensures var (later, reply) := Commit(db, tx, sess.lease.generation, now);
            RowsSettle(db.nodes, Held(later.nodes, Remember(flow, sess, tx, reply).todo))
  {
    FinishRow(db, tx, sess.lease.generation, now);
    CommitSettles(db, tx, sess.lease.generation, now);
  }

  /** The rows only settle, with the node under settlement held open until its status is final. */
  lemma DoSettles(flow: Flow, db: Db, sess: Session, tx: Tx, now: Time)
    requires SessionInv(flow, db, sess) && Guard(flow, db, sess, tx) && Disturbs(db, tx).Calm?
    ensures var (later, reply) := Commit(db, tx, sess.lease.generation, now);
            RowsSettle(Held(db.nodes, sess.todo), Held(later.nodes, Remember(flow, sess, tx, reply).todo))
  {
    if tx.TxStatus? {
      StatusSettlesRows(flow, db, sess, tx.n, tx.status);
    } else if tx.TxFinish? {
      FinishSettlesRows(flow, db, sess, tx, now);
    } else {
      CommitSettles(db, tx, sess.lease.generation, now);
      TodoStays(flow, sess, tx, Commit(db, tx, sess.lease.generation, now).1);
    }
  }

  lemma TodoStays(flow: Flow, sess: Session, tx: Tx, reply: Reply)
    requires !tx.TxFinish? && sess.todo.None?
    ensures Remember(flow, sess, tx, reply).todo.None?
  {
  }

  /** A status written by hand settles a pending node or the node still under settlement. */
  lemma StatusSettlesRows(flow: Flow, db: Db, sess: Session, n: NodeId, status: Status)
    requires SessionInv(flow, db, sess) && StatusAllowed(flow, db, sess, n, status)
    requires Disturbs(db, TxStatus(n, status)).Calm?
    ensures RowsSettle(Held(db.nodes, sess.todo), SetNodeStatus(db, n, status).0.nodes)
  {
    AllowedStatus(flow, db, sess, n, status);
    StatusFromPending(flow, db, sess, n, status);
  }

  lemma StatusFromPending(flow: Flow, db: Db, sess: Session, n: NodeId, status: Status)
    requires StatusAllowed(flow, db, sess, n, status) && Disturbs(db, TxStatus(n, status)).Calm?
    ensures sess.todo.None? ==> IsStatus(db, n, Pending) || (IsStatus(db, n, Failed) && Bad(status))
  {
  }

  lemma FinishRow(db: Db, tx: Tx, generation: nat, now: Time)
    requires tx.TxFinish?
    ensures var (later, reply) := Commit(db, tx, generation, now);
      reply.Settled? ==>
        && IsStatus(db, tx.n, Running)
        && forall d :: d in later.nodes && d != tx.n ==> d in db.nodes && later.nodes[d] == db.nodes[d]
  {
  }

  lemma SettledDecision(flow: Flow, n: NodeId, rows: Rows, later: Rows)
    requires n in flow.nodes && flow.nodes[n].join.Some? && flow.nodes[n].needs <= rows.Keys && RowsSettle(rows, later)
    requires Snapshot(flow.nodes[n].join.value, flow.nodes[n].needs, rows).decision != Waiting
    ensures Snapshot(flow.nodes[n].join.value, flow.nodes[n].needs, later).decision
            == Snapshot(flow.nodes[n].join.value, flow.nodes[n].needs, rows).decision
  {
    DecisionIsStable(flow.nodes[n].join.value, flow.nodes[n].needs, rows, later);
  }

  /** A decision frozen earlier is untouched; one frozen now was computed from the rows. */
  lemma JoinsAfter(flow: Flow, db: Db, sess: Session, tx: Tx, now: Time, n: NodeId)
    requires Guard(flow, db, sess, tx) && n in flow.nodes
    requires n in db.control.joins ==> db.control.joins[n].decision == Waiting
    ensures var later := Commit(db, tx, sess.lease.generation, now).0;
      n in later.control.joins && later.control.joins[n].decision != Waiting ==>
        tx.TxJoin? && sess.todo.None? && JoinSeen(flow, db, n, later.control.joins[n]) && later.nodes == db.nodes
  {
    if !tx.TxJoin? {
      OthersKeepJoins(db, tx, sess.lease.generation, now);
    }
  }

  /** Rows a pass has read only settle further in what the pass does. */
  lemma LaggingRowsSettle(flow: Flow, db: Db, n: NodeId, snapshot: JoinRow)
    requires JoinSeen(flow, db, n, snapshot) && snapshot.decision != Waiting
    ensures n in flow.nodes && flow.nodes[n].join.Some? && flow.nodes[n].needs <= db.nodes.Keys
    ensures Snapshot(flow.nodes[n].join.value, flow.nodes[n].needs, db.nodes).decision == snapshot.decision
  {
    var rows :| Lags(rows, db.nodes) && JoinOf(flow, rows, n, snapshot);
    assert RowsSettle(rows, db.nodes);
    SettledDecision(flow, n, rows, db.nodes);
  }

  /** A decision frozen before a transaction that disturbs nothing. */
  lemma StillDecided(flow: Flow, db: Db, sess: Session, tx: Tx, now: Time, n: NodeId)
    requires SessionInv(flow, db, sess) && Guard(flow, db, sess, tx) && Disturbs(db, tx).Calm?
    requires n in db.control.joins && db.control.joins[n].decision != Waiting
    requires DecidedBy(flow, n, Held(db.nodes, sess.todo), db.control.joins[n].decision)
    ensures var (later, reply) := Commit(db, tx, sess.lease.generation, now);
      DecidedBy(flow, n, Held(later.nodes, Remember(flow, sess, tx, reply).todo), db.control.joins[n].decision)
  {
    var (later, reply) := Commit(db, tx, sess.lease.generation, now);
    DoSettles(flow, db, sess, tx, now);
    SettledDecision(flow, n, Held(db.nodes, sess.todo), Held(later.nodes, Remember(flow, sess, tx, reply).todo));
  }

  /** While a transaction disturbs settled dependencies, no failure waits for its status. */
  lemma DisturbedOwesNothing(flow: Flow, db: Db, sess: Session, tx: Tx, reply: Reply)
    requires SessionInv(flow, db, sess) && Guard(flow, db, sess, tx) && !Disturbs(db, tx).Calm?
    ensures sess.todo.None? && Remember(flow, sess, tx, reply).todo.None?
  {
  }

  lemma LoopDisturbs(db: Db, tx: Tx, generation: nat, now: Time, needs: set<NodeId>)
    requires tx.TxLoop? && !Disturbs(db, tx).Calm? && needs <= db.nodes.Keys && IsStatus(db, tx.n, Succeeded)
    ensures DisturbedRows(db.nodes, Commit(db, tx, generation, now).0.nodes, needs, Disturbs(db, tx))
  {
  }

  lemma OneNodeDisturbs(db: Db, tx: Tx, generation: nat, now: Time, needs: set<NodeId>)
    requires (tx.TxReconcile? || tx.TxInvalidate? || tx.TxStatus?) && !Disturbs(db, tx).Calm? && needs <= db.nodes.Keys
    ensures DisturbedRows(db.nodes, Commit(db, tx, generation, now).0.nodes, needs, Disturbs(db, tx))
  {
  }

  lemma RepairDisturbs(db: Db, tx: Tx, generation: nat, now: Time, needs: set<NodeId>)
    requires tx.TxRepair? && !Disturbs(db, tx).Calm? && needs <= db.nodes.Keys
    ensures DisturbedRows(db.nodes, Commit(db, tx, generation, now).0.nodes, needs, Disturbs(db, tx))
  {
  }

  /** The rows as the disturbance leaves them. */
  ghost predicate DisturbedRows(rows: Rows, later: Rows, needs: set<NodeId>, e: Disturbance) {
    match e
    case Calm => true
    case Reopening(nodes) => Reopens(needs, rows, later, nodes)
    case Failing(c) => Fails(needs, rows, later, c)
  }

  lemma Disturbed(flow: Flow, db: Db, sess: Session, tx: Tx, now: Time, needs: set<NodeId>)
    requires Guard(flow, db, sess, tx) && !Disturbs(db, tx).Calm? && needs <= db.nodes.Keys
    ensures DisturbedRows(db.nodes, Commit(db, tx, sess.lease.generation, now).0.nodes, needs, Disturbs(db, tx))
  {
    if tx.TxLoop? {
      LoopDisturbs(db, tx, sess.lease.generation, now, needs);
    } else if tx.TxRepair? {
      RepairDisturbs(db, tx, sess.lease.generation, now, needs);
    } else {
      OneNodeDisturbs(db, tx, sess.lease.generation, now, needs);
    }
  }

  /** A decision frozen before a transaction that disturbs settled dependencies. */
  lemma DecidedIfItOutlives(flow: Flow, db: Db, sess: Session, tx: Tx, now: Time, n: NodeId)
    requires SessionInv(flow, db, sess) && Guard(flow, db, sess, tx) && !Disturbs(db, tx).Calm?
    requires n in db.control.joins && db.control.joins[n].decision != Waiting
    requires DecidedBy(flow, n, Held(db.nodes, sess.todo), db.control.joins[n].decision)
    requires flow.nodes[n].needs <= db.nodes.Keys
    ensures var (later, reply) := Commit(db, tx, sess.lease.generation, now);
      DecidedBy(flow, n, Held(later.nodes, Remember(flow, sess, tx, reply).todo), db.control.joins[n].decision)
      <==> Outlives(flow.nodes[n].join.value, flow.nodes[n].needs, db.nodes, Disturbs(db, tx))
  {
    var (later, reply) := Commit(db, tx, sess.lease.generation, now);
    var policy, needs := flow.nodes[n].join.value, flow.nodes[n].needs;
    Disturbed(flow, db, sess, tx, now, needs);
    DisturbedOwesNothing(flow, db, sess, tx, reply);
    match Disturbs(db, tx)
    case Calm =>
    case Reopening(nodes) => ReopeningIsExact(policy, needs, db.nodes, later.nodes, nodes);
    case Failing(c) => FailureIsExact(policy, needs, db.nodes, later.nodes, c);
  }

  /** A decision frozen by this transaction. */
  lemma NowDecided(flow: Flow, db: Db, sess: Session, tx: Tx, now: Time, n: NodeId)
    requires Guard(flow, db, sess, tx) && n in flow.nodes
    requires n in db.control.joins ==> db.control.joins[n].decision == Waiting
    ensures var (later, reply) := Commit(db, tx, sess.lease.generation, now);
      n in later.control.joins && later.control.joins[n].decision != Waiting ==>
        DecidedBy(flow, n, Held(later.nodes, Remember(flow, sess, tx, reply).todo), later.control.joins[n].decision)
  {
    JoinsAfter(flow, db, sess, tx, now, n);
    var (later, reply) := Commit(db, tx, sess.lease.generation, now);
    if n in later.control.joins && later.control.joins[n].decision != Waiting {
      LaggingRowsSettle(flow, db, n, later.control.joins[n]);
      TodoStays(flow, sess, tx, reply);
    }
  }

  /** The transaction leaves enough evidence for the frozen decision of `n`; told from the tables before it. */
  predicate Spares(flow: Flow, db: Db, tx: Tx, n: NodeId) {
    n in flow.nodes && flow.nodes[n].join.Some? && flow.nodes[n].needs <= db.nodes.Keys && IsFrozen(db.control.joins, n) ==>
      Outlives(flow.nodes[n].join.value, flow.nodes[n].needs, db.nodes, Disturbs(db, tx))
  }

  /** An action is harmless if it commits no transaction, or one that spares every frozen decision. */
  ghost predicate Harmless(flow: Flow, s: Sys, a: Action) {
    a.Do? && s.session.Some? && LeaseLive(s.db.run, s.session.value.lease, s.now) ==>
      forall n :: n in flow.nodes ==> Spares(flow, s.db, a.tx, n)
  }

  lemma SparedNode(flow: Flow, db: Db, sess: Session, tx: Tx, now: Time, n: NodeId)
    requires SessionInv(flow, db, sess) && Guard(flow, db, sess, tx) && IsFrozen(db.control.joins, n) && n in flow.nodes
    requires DecidedBy(flow, n, Held(db.nodes, sess.todo), db.control.joins[n].decision)
    ensures var (later, reply) := Commit(db, tx, sess.lease.generation, now);
      && IsFrozen(later.control.joins, n) && later.control.joins[n] == db.control.joins[n]
      && (DecidedBy(flow, n, Held(later.nodes, Remember(flow, sess, tx, reply).todo), db.control.joins[n].decision)
          <==> Spares(flow, db, tx, n))
  {
    CommitKeepsJoins(db, tx, sess.lease.generation, now);
    HeldKeys(db.nodes, sess.todo);
    if Disturbs(db, tx).Calm? {
      StillDecided(flow, db, sess, tx, now, n);
    } else {
      DecidedIfItOutlives(flow, db, sess, tx, now, n);
    }
  }

  lemma HeldKeys(rows: Rows, todo: Option<(NodeId, Status)>)
    ensures Held(rows, todo).Keys == rows.Keys
  {
  }

  lemma CurrentDo(flow: Flow, s: Sys, tx: Tx)
    requires Inv(flow, s) && Current(flow, s) && Enabled(flow, s, Do(tx))
    requires LeaseLive(s.db.run, s.session.value.lease, s.now)
    ensures Current(flow, DoTx(flow, s, tx)) <==> Harmless(flow, s, Do(tx))
  {
    var t, sess := DoTx(flow, s, tx), s.session.value;
    DoCommits(flow, s, tx);
    forall n | n in flow.nodes
      ensures IsFrozen(t.db.control.joins, n) ==> (DecidedBy(flow, n, Effective(t), t.db.control.joins[n].decision) <==> Spares(flow, s.db, tx, n))
      ensures !IsFrozen(t.db.control.joins, n) ==> Spares(flow, s.db, tx, n)
    {
      if IsFrozen(s.db.control.joins, n) {
        SparedNode(flow, s.db, sess, tx, s.now, n);
      } else {
        NowDecided(flow, s.db, sess, tx, s.now, n);
      }
    }
  }

  lemma CurrentStep(flow: Flow, s: Sys, a: Action)
    requires Inv(flow, s) && Current(flow, s) && Enabled(flow, s, a)
    ensures Current(flow, Apply(flow, s, a)) <==> Harmless(flow, s, a)
  {
    var t := Apply(flow, s, a);
    if a.Do? && LeaseLive(s.db.run, s.session.value.lease, s.now) {
      CurrentDo(flow, s, a.tx);
    } else {
      if a.Do? { DoFrame(flow, s, a.tx); } else { OutsideFrame(flow, s, a); }
      CurrentOutside(flow, s, t);
    }
  }

  /** With the tables unchanged, at most the node under settlement stops being held open. */
  lemma CurrentOutside(flow: Flow, s: Sys, t: Sys)
    requires Current(flow, s) && SameTables(s, t)
    requires t.session.None? || t.session == s.session || t.session.value.todo.None?
    ensures Current(flow, t)
  {
    forall n | n in flow.nodes && IsFrozen(t.db.control.joins, n)
      ensures DecidedBy(flow, n, Effective(t), t.db.control.joins[n].decision)
    {
      SettledDecision(flow, n, Effective(s), Effective(t));
    }
  }

  /** At every moment of the run each frozen decision is the one the rows give. */
  ghost predicate AlwaysCurrent(flow: Flow, acts: seq<Action>)
    decreases |acts|
  {
    Current(flow, After(flow, Initial(flow), acts)) && (acts == [] || AlwaysCurrent(flow, acts[..|acts| - 1]))
  }

  /** No action of the run was harmful when it was taken. */
  ghost predicate AllHarmless(flow: Flow, acts: seq<Action>)
    decreases |acts|
  {
    acts == []
    || (AllHarmless(flow, acts[..|acts| - 1])
        && Harmless(flow, After(flow, Initial(flow), acts[..|acts| - 1]), acts[|acts| - 1]))
  }

  lemma LastMoment(flow: Flow, acts: seq<Action>)
    requires WellFormed(flow) && Run(flow, Initial(flow), acts) && acts != []
    requires Current(flow, After(flow, Initial(flow), acts[..|acts| - 1]))
    ensures Current(flow, After(flow, Initial(flow), acts))
            <==> Harmless(flow, After(flow, Initial(flow), acts[..|acts| - 1]), acts[|acts| - 1])
  {
    var before := acts[..|acts| - 1];
    InvRun(flow, before);
    CurrentStep(flow, After(flow, Initial(flow), before), acts[|acts| - 1]);
  }

  lemma FirstMoment(flow: Flow)
    ensures Current(flow, After(flow, Initial(flow), []))
  {
  }

  /**
   Over every run, with loops, repairs, invalidations and reconciliations: recomputing any frozen decision at any
   later moment gives the same decision if and only if no action of the run was harmful when it was taken.
   */
  lemma {:induction false} FrozenIsRecomputed(flow: Flow, acts: seq<Action>)
    requires WellFormed(flow) && Run(flow, Initial(flow), acts)
    ensures AlwaysCurrent(flow, acts) <==> AllHarmless(flow, acts)
    decreases |acts|
  {
    if acts == [] {
      FirstMoment(flow);
    } else {
      FrozenIsRecomputed(flow, acts[..|acts| - 1]);
      if AlwaysCurrent(flow, acts[..|acts| - 1]) {
        LastMoment(flow, acts);
      }
    }
  }

  /** Control that never goes back: no loops, no repairs, no retry of an uncertain node, no invalidation. */
  ghost predicate OnlyForward(flow: Flow, acts: seq<Action>) {
    && (forall n :: n in flow.nodes ==> flow.nodes[n].loop.None? && flow.nodes[n].repair.None?)
    && forall i :: 0 <= i < |acts| && acts[i].Do? ==> !acts[i].tx.TxInvalidate? && !(acts[i].tx.TxReconcile? && acts[i].tx.retry)
  }

  /** Without loops no status is written over a success. */
  lemma NoStatusForSuccess(flow: Flow, db: Db, sess: Session, n: NodeId, status: Status)
    requires SessionInv(flow, db, sess) && StatusAllowed(flow, db, sess, n, status)
    requires forall c :: c in flow.nodes ==> flow.nodes[c].loop.None?
    ensures !IsStatus(db, n, Succeeded)
  {
  }

  lemma ForwardActionIsHarmless(flow: Flow, s: Sys, a: Action)
    requires Enabled(flow, s, a)
    requires forall n :: n in flow.nodes ==> flow.nodes[n].loop.None? && flow.nodes[n].repair.None?
    requires a.Do? ==> !a.tx.TxInvalidate? && !(a.tx.TxReconcile? && a.tx.retry)
    requires Inv(flow, s)
    ensures Harmless(flow, s, a)
  {
    if a.Do? {
      if a.tx.TxStatus? {
        NoStatusForSuccess(flow, s.db, s.session.value, a.tx.n, a.tx.status);
      }
      assert Disturbs(s.db, a.tx).Calm?;
    }
  }

  /** In particular nothing is harmful in a run whose control only goes forward. */
  lemma {:induction false} ForwardRunsKeepDecisions(flow: Flow, acts: seq<Action>)
    requires WellFormed(flow) && Run(flow, Initial(flow), acts) && OnlyForward(flow, acts)
    ensures AllHarmless(flow, acts) && AlwaysCurrent(flow, acts)
    decreases |acts|
  {
    if acts != [] {
      var before := acts[..|acts| - 1];
      ForwardRunsKeepDecisions(flow, before);
      InvRun(flow, before);
      ForwardActionIsHarmless(flow, After(flow, Initial(flow), before), acts[|acts| - 1]);
    }
    FrozenIsRecomputed(flow, acts);
  }
}
