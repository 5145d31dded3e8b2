/** What an owner that resumes a run makes of the attempts it finds interrupted. */
module Recovery {
  import opened Prelude
  import opened Workflow
  import opened Store
  import opened Joins
  import opened Runs
  import opened Endings

  /** An interrupted attempt of `n` may have done something that must not be done twice. */
  predicate InDoubt(flow: Flow, db: Db, n: NodeId) {
    n in flow.nodes && IsStatus(db, n, Running) && Unrepeatable(flow.nodes[n])
  }

  /** The status of a row after recovery. */
  predicate RecoveredStatus(flow: Flow, n: NodeId, before: Status, later: Status)
    requires n in flow.nodes
  {
    && (before.Running? ==> (later.Pending? <==> !Unrepeatable(flow.nodes[n])))
    && (before.Running? ==> (later.Uncertain? <==> Unrepeatable(flow.nodes[n])))
    && (!before.Running? ==> later == before)
  }

  /** Nothing but status and attempt of the rows that were running has changed, and no running attempt row is left. */
  ghost predicate RecoveredRows(flow: Flow, db: Db, later: Db) {
    && later.nodes.Keys == db.nodes.Keys && later.attempts.Keys == db.attempts.Keys
    && (forall n :: n in flow.nodes && n in db.nodes ==> RecoveredStatus(flow, n, db.nodes[n].status, later.nodes[n].status))
    && (forall n :: n in db.nodes ==> later.nodes[n] == db.nodes[n].(
          status := later.nodes[n].status, activeAttempt := later.nodes[n].activeAttempt,
          activeGeneration := later.nodes[n].activeGeneration))
    && (forall n :: n in db.nodes && db.nodes[n].status.Running? ==>
          later.nodes[n].activeAttempt.None? && later.nodes[n].activeGeneration.None?)
    && (forall n :: n in db.nodes && !db.nodes[n].status.Running? ==> later.nodes[n] == db.nodes[n])
    && (forall k :: k in db.attempts && !db.attempts[k].status.AttemptRunning? ==> later.attempts[k] == db.attempts[k])
    && (forall k :: k in db.attempts && db.attempts[k].status.AttemptRunning? ==> later.attempts[k].status.AttemptInterrupted?)
    && later.artifacts == db.artifacts && later.progress == db.progress
    && later.control == db.control && later.attached == db.attached
    && later.run == db.run.(status := RunRunning)
  }

  /** Recovery takes up again what may be repeated, puts the rest in doubt, and reports exactly that. */
  lemma RecoveryIsExact(flow: Flow, db: Db, now: Time)
    requires db.nodes.Keys == flow.nodes.Keys
    ensures var (later, reply) := RecoverInterrupted(db, SafeNodes(flow), now);
      && RecoveredRows(flow, db, later)
      && reply.Recovered? && forall n :: n in reply.uncertain <==> InDoubt(flow, db, n)
  {
    forall n | n in flow.nodes ensures n in SafeNodes(flow) <==> !Unrepeatable(flow.nodes[n]) {
      SafeUnlessUnrepeatable(flow.nodes[n]);
    }
  }

  /**
   A decision about an uncertain node: it runs again or has failed, the run goes on, and nothing else changes.  No other
   node can be decided about.
   */
  lemma ReconciliationIsExact(db: Db, n: NodeId, retry: bool)
    ensures var (later, reply) := ReconcileNode(db, n, retry);
      if IsStatus(db, n, Uncertain) then
        && reply.Done? && IsStatus(later, n, if retry then Pending else Failed)
        && later.nodes == db.nodes[n := db.nodes[n].(status := later.nodes[n].status)]
        && later == db.(nodes := later.nodes, run := db.run.(status := RunRunning))
      else later == db && reply.Rejected?
  {
  }

  /** How opening a run ends: with lost artifacts, with attempts in doubt, or not at all. */
  ghost predicate OpensAs(flow: Flow, holds: Holding, db: Db, resume: bool, stored: RunStatus, outcome: Option<RunStatus>) {
    var valid := Kept(flow, holds, db) && (resume && stored.RunSucceeded? ==> Delivered(flow, db));
    var doubt := resume && stored.RunRunning? && exists n :: InDoubt(flow, db, n);
    && (outcome == Some(RunFailed) <==> !valid)
    && (outcome == Some(RunNeedsReconciliation) <==> valid && doubt)
    && (outcome == None <==> valid && !doubt)
  }

  /** The rows that are there when the loop begins. */
  ghost predicate OpenRows(flow: Flow, db: Db, later: Db, resume: bool, stored: RunStatus) {
    if resume && stored.RunRunning? then RecoveredRows(flow, db, later) else later == db
  }

  lemma WithdrawnShows(flow: Flow, holds: Holding, db: Db, outputs: bool, later: Db)
    requires db.nodes.Keys == flow.nodes.Keys && (forall o :: o in flow.outputs ==> o.0 in flow.nodes)
    requires later.nodes == Checked(flow, holds, db, outputs).nodes && later.run.status.RunFailed?
    requires !(Kept(flow, holds, db) && (outputs ==> Delivered(flow, db)))
    ensures Shows(flow, holds, later, RunFailed)
  {
    NothingWithdrawn(flow, holds, db, outputs);
    var n :| n in Withdrawn(flow, holds, db, outputs);
    assert later.nodes[n].status == Failed;
  }

  lemma DoubtIsUncertain(flow: Flow, db: Db, later: Db, n: NodeId)
    requires db.nodes.Keys == flow.nodes.Keys && RecoveredRows(flow, db, later) && InDoubt(flow, db, n)
    ensures n in flow.nodes && IsStatus(later, n, Uncertain)
  {
    assert RecoveredStatus(flow, n, db.nodes[n].status, later.nodes[n].status);
  }
}
