/** The events that the state store appends to an active ledger with each transaction, and which of them the ledger knows. */
module LedgerEvents {
  import opened Prelude
  import opened Workflow
  import opened Store
  import Ledger

  function NodeEvent(s: Status): string {
    match s
    case Pending => "node.pending"
    case Running => "node.running"
    case Succeeded => "node.succeeded"
    case Failed => "node.failed"
    case OptionalFailed => "node.optional_failed"
    case Blocked => "node.blocked"
    case Cancelled => "node.cancelled"
    case Uncertain => "node.uncertain"
    case Skipped => "node.skipped"
  }

  function RunEvent(s: RunStatus): string {
    match s
    case RunRunning => "run.running"
    case RunSucceeded => "run.succeeded"
    case RunFailed => "run.failed"
    case RunCancelled => "run.cancelled"
    case RunNeedsReconciliation => "run.needs_reconciliation"
  }

  function AnyRunning(db: Db): bool { exists n :: n in db.nodes && db.nodes[n].status.Running? }

  /** The event types of one transaction that was answered with `reply`; one that is rolled back appends none. */
  function Events(flow: Flow, db: Db, tx: Tx, reply: Reply): set<string> {
    match tx
    case TxAdmit(n) => if reply == Answer(false) && IsStatus(db, n, Pending) then {"progress.observed", "node.failed"} else {}
    case TxStart(_) =>
      if reply.Started? then {"node.running", "attempt.started"} + (if reply.number > 1 then {"retry.scheduled"} else {})
      else if reply.Expired? then {"progress.observed"} else {}
    case TxFinish(_, _, _, _, _, _) => if reply.Settled? then {"progress.observed", "attempt.failed", "node.failed"} else {}
    case TxSucceed(n, _, _, outputs, _) =>
      if !reply.Done? then {}
      else
        {"progress.observed", "attempt.succeeded", "node.succeeded"}
        + (if outputs == map[] then {} else {"artifact.accepted"})
        + (if n in flow.nodes && flow.nodes[n].isIntegration then {"integration.completed"} else {})
    case TxStatus(_, status) => if reply.Done? then {NodeEvent(status)} else {}
    case TxRoute(n, _, _) => if reply.Answer? && n !in db.control.routes then {"route.decided"} else {}
    case TxLoop(n, number, _, _, _) => if reply.Looped? && !DecidedFor(db, n, number) then {"loop.decided"} else {}
    case TxRepair(_, _, _, _, _, _, _) => if reply == Answer(true) then {"repair.routed"} else {}
    case TxJoin(n, snapshot) =>
      if snapshot.decision != Waiting && !(n in db.control.joins && db.control.joins[n].decision != Waiting)
      then {"join.decided"} else {}
    case TxRecover(safe) =>
      if AnyRunning(db) then {"attempt.interrupted"} + set n | n in db.nodes && db.nodes[n].status.Running? ::
        NodeEvent(if n in safe then Pending else Uncertain) else {}
    case TxReconcile(_, retry) =>
      if reply.Done? then {"reconciliation.decided", NodeEvent(if retry then Pending else Failed)} else {}
    case TxInvalidate(_) => {"node.failed"}
    case TxFinishRun(status) =>
      {RunEvent(status)} + if status.RunCancelled? then {"attempt.cancelled", "node.cancelled"} else {}
  }

  predicate DecidedFor(db: Db, c: NodeId, attempt: nat) {
    c in db.control.loops && db.control.loops[c].lastAttempt == attempt
  }

  /** A route or loop decision that is not on record yet, or a node skipped for a dependency. */
  predicate Refused(db: Db, tx: Tx, reply: Reply) {
    || (tx.TxRoute? && reply.Answer? && tx.n !in db.control.routes)
    || (tx.TxLoop? && reply.Looped? && !DecidedFor(db, tx.n, tx.number))
    || (tx.TxStatus? && tx.status.Skipped? && reply.Done?)
  }

  /** A ledger takes every event of a transaction exactly unless it is one of those three. */
  lemma OnlyControlIsRefused(flow: Flow, db: Db, tx: Tx, generation: nat, now: Time)
    requires tx != TxFinishRun(RunRunning)
    ensures var reply := Commit(db, tx, generation, now).1;
      Events(flow, db, tx, reply) <= Ledger.EventTypes <==> !Refused(db, tx, reply)
  {
    var reply := Commit(db, tx, generation, now).1;
    StatusesKnown();
    if tx.TxRoute? && Refused(db, tx, reply) {
      assert "route.decided" in Events(flow, db, tx, reply);
    }
    if tx.TxLoop? && Refused(db, tx, reply) {
      assert "loop.decided" in Events(flow, db, tx, reply);
    }
    if tx.TxStatus? && Refused(db, tx, reply) {
      assert "node.skipped" in Events(flow, db, tx, reply);
    }
  }

  lemma StatusesKnown()
    ensures forall s :: NodeEvent(s) in Ledger.EventTypes <==> !s.Skipped?
    ensures forall s :: RunEvent(s) in Ledger.EventTypes <==> !s.RunRunning?
  {
  }
}
