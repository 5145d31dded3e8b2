/** How a run ends: what is still accepted when nothing runs any more, and which status that gives. */
module Endings {
  import opened Prelude
  import opened Workflow
  import opened Store
  import opened Joins
  import opened Runs
  import opened Passes

  /** Whether the artifact of this digest can still be read and meets every schema that the output declares. */
  type Holding = (NodeId, Name, Digest) -> bool

  /** `order` names the declared nodes, and every workflow output is bound to one of them. */
  ghost predicate Declares(flow: Flow, order: seq<NodeId>) {
    (forall n :: n in order <==> n in flow.nodes) && forall o :: o in flow.outputs ==> o.0 in flow.nodes
  }

  /** Every declared output of `n` is accepted, and its artifact still holds. */
  predicate Intact(flow: Flow, holds: Holding, db: Db, n: NodeId)
    requires n in flow.nodes
  {
    forall output :: output in flow.nodes[n].ports.outputs ==>
      output in Accepted(db, n) && holds(n, output, Accepted(db, n)[output])
  }

  predicate Broken(flow: Flow, holds: Holding, db: Db, n: NodeId) {
    n in flow.nodes && IsStatus(db, n, Succeeded) && !Intact(flow, holds, db, n)
  }

  /** Nothing accepted has been lost. */
  predicate Kept(flow: Flow, holds: Holding, db: Db) {
    forall n :: n in flow.nodes && IsStatus(db, n, Succeeded) ==> Intact(flow, holds, db, n)
  }

  predicate Missing(db: Db, o: (NodeId, Name)) { !IsStatus(db, o.0, Succeeded) || o.1 !in Accepted(db, o.0) }

  /** Every workflow output is accepted from a producer that succeeded. */
  predicate Delivered(flow: Flow, db: Db) {
    forall o :: o in flow.outputs ==> IsStatus(db, o.0, Succeeded) && o.1 in Accepted(db, o.0)
  }

  /** Producers of the missing ones among some outputs. */
  function Debtors(db: Db, outputs: set<(NodeId, Name)>): set<NodeId> { set o | o in outputs && Missing(db, o) :: o.0 }

  /** The nodes that a check of the accepted artifacts invalidates. */
  function Withdrawn(flow: Flow, holds: Holding, db: Db, outputs: bool): set<NodeId> {
    (set n | n in flow.nodes && Broken(flow, holds, db, n)) + if outputs then Debtors(db, flow.outputs) else {}
  }

  /** The tables such a check leaves. */
  function Checked(flow: Flow, holds: Holding, db: Db, outputs: bool): Db {
    db.(nodes := Failing(db.nodes, Withdrawn(flow, holds, db, outputs)))
  }

  function WithNodes(db: Db, nodes: Rows): Db { db.(nodes := nodes) }

  /** A check finds nothing if and only if nothing was lost and, where they are asked for, all outputs are there. */
  lemma NothingWithdrawn(flow: Flow, holds: Holding, db: Db, outputs: bool)
    ensures Withdrawn(flow, holds, db, outputs) == {} <==> Kept(flow, holds, db) && (outputs ==> Delivered(flow, db))
    ensures Withdrawn(flow, holds, db, outputs) == {} ==> Checked(flow, holds, db, outputs) == db
  {
    assert Failing(db.nodes, {}) == db.nodes;
    var gone := Withdrawn(flow, holds, db, outputs);
    if n :| n in flow.nodes && IsStatus(db, n, Succeeded) && !Intact(flow, holds, db, n) {
      assert Broken(flow, holds, db, n) && n in gone;
    }
    if o :| outputs && o in flow.outputs && Missing(db, o) {
      assert o.0 in gone;
    }
  }

  lemma WithdrawnNext(nodes: Rows, gone: set<NodeId>, n: NodeId)
    requires n in nodes
    ensures Failing(nodes, gone)[n := Failing(nodes, gone)[n].(status := Failed)] == Failing(nodes, gone + {n})
  {
  }

  /** Failing some nodes takes no artifact away, and the next one is failed beside them. */
  lemma IntactAsBefore(flow: Flow, holds: Holding, db: Db, gone: set<NodeId>, n: NodeId)
    requires n in flow.nodes && n in db.nodes
    ensures var later := db.(nodes := Failing(db.nodes, gone));
      && (Intact(flow, holds, later, n) <==> Intact(flow, holds, db, n))
      && WithNodes(later, later.nodes[n := later.nodes[n].(status := Failed)]) == db.(nodes := Failing(db.nodes, gone + {n}))
  {
    WithdrawnNext(db.nodes, gone, n);
    assert Accepted(db.(nodes := Failing(db.nodes, gone)), n) == Accepted(db, n);
  }

  /** The debtors found before the first and after the last output. */
  lemma DebtorsEnds(flow: Flow, holds: Holding, db: Db)
    ensures var broken := Withdrawn(flow, holds, db, false);
      && broken + Debtors(db, flow.outputs - flow.outputs) == broken
      && broken + Debtors(db, flow.outputs - {}) == Withdrawn(flow, holds, db, true)
  {
  }

  lemma DebtorsNext(db: Db, outputs: set<(NodeId, Name)>, rest: set<(NodeId, Name)>, o: (NodeId, Name), broken: set<NodeId>)
    requires o in rest && rest <= outputs
    ensures broken + Debtors(db, outputs - (rest - {o})) ==
      broken + Debtors(db, outputs - rest) + if Missing(db, o) then {o.0} else {}
  {
    assert outputs - (rest - {o}) == outputs - rest + {o};
  }

  /** The broken ones among the first nodes of an order. */
  function BrokenIn(flow: Flow, holds: Holding, db: Db, nodes: seq<NodeId>): set<NodeId> {
    set n | n in nodes && Broken(flow, holds, db, n)
  }

  lemma BrokenNext(flow: Flow, holds: Holding, db: Db, order: seq<NodeId>, k: nat)
    requires k < |order|
    ensures BrokenIn(flow, holds, db, order[..k + 1]) ==
      BrokenIn(flow, holds, db, order[..k]) + if Broken(flow, holds, db, order[k]) then {order[k]} else {}
  {
    assert order[..k + 1] == order[..k] + [order[k]];
  }

  lemma BrokenInAll(flow: Flow, holds: Holding, db: Db, order: seq<NodeId>)
    requires Declares(flow, order)
    ensures BrokenIn(flow, holds, db, order[..|order|]) == Withdrawn(flow, holds, db, false)
  {
    assert order[..|order|] == order;
  }

  lemma BrokenAtFirst(flow: Flow, holds: Holding, db: Db, order: seq<NodeId>)
    ensures BrokenIn(flow, holds, db, order[..0]) == {} && db.(nodes := Failing(db.nodes, {})) == db
  {
    assert order[..0] == [] && Failing(db.nodes, {}) == db.nodes;
  }

  // ---------------------------------------------------------------- the reduction

  /** What a node that had to succeed may be in the end. */
  predicate Fulfilled(row: NodeRow) { row.required ==> row.status.Succeeded? || row.status.Skipped? }

  /** What each status of an ended run says about the rows and artifacts it was reduced from. */
  ghost predicate EndsAs(flow: Flow, holds: Holding, db: Db, status: RunStatus) {
    var unclear := exists n :: n in flow.nodes && IsStatus(db, n, Uncertain);
    var dropped := exists n :: n in flow.nodes && IsStatus(db, n, Cancelled);
    match status
    case RunNeedsReconciliation => unclear
    case RunCancelled => !unclear && dropped
    case RunSucceeded =>
      && !unclear && !dropped && (forall n :: n in flow.nodes ==> n in db.nodes && Fulfilled(db.nodes[n]))
      && Kept(flow, holds, db) && Delivered(flow, db)
    case RunFailed =>
      && !unclear && !dropped
      && ((exists n :: n in flow.nodes && n in db.nodes && !Fulfilled(db.nodes[n]))
          || !Kept(flow, holds, db) || !Delivered(flow, db))
    case RunRunning => false
  }

  /** The rows of an ended run: a check that found something has failed its nodes, a cancellation has closed the rest. */
  ghost predicate EndRows(flow: Flow, holds: Holding, db: Db, later: Db, status: RunStatus) {
    && later.artifacts == db.artifacts && later.run.status == status
    && (status.RunSucceeded? || status.RunNeedsReconciliation? ==> later.nodes == db.nodes)
    && (status.RunCancelled? ==> later.nodes == CancelledRows(db.nodes))
    && (status.RunFailed? ==> later.nodes == if Unfulfilled(flow, db) then db.nodes
                                             else Failing(db.nodes, Withdrawn(flow, holds, db, true)))
  }

  ghost predicate Unfulfilled(flow: Flow, db: Db) {
    exists n :: n in flow.nodes && n in db.nodes && !Fulfilled(db.nodes[n])
  }

  /** The run was ended from the tables `db`, in which everything had settled, with the one status they end as. */
  ghost predicate Concluded(flow: Flow, holds: Holding, db: Db, later: Db, status: RunStatus) {
    && AllTerminal(flow, db) && EndRows(flow, holds, db, later, status)
    && forall other :: EndsAs(flow, holds, db, other) <==> other == status
  }

  /** Rows and artifacts end in one way only. */
  lemma OneEnding(flow: Flow, holds: Holding, db: Db, status: RunStatus, other: RunStatus)
    requires EndsAs(flow, holds, db, status)
    ensures EndsAs(flow, holds, db, other) <==> other == status
  {
  }

  /** What the reduction and the check of the artifacts say together. */
  lemma ReducesTo(flow: Flow, holds: Holding, db: Db)
    requires AllTerminal(flow, db)
    ensures !Reduce(flow, db).RunSucceeded? ==> EndsAs(flow, holds, db, Reduce(flow, db))
    ensures Reduce(flow, db).RunSucceeded? ==>
      EndsAs(flow, holds, db, if Kept(flow, holds, db) && Delivered(flow, db) then RunSucceeded else RunFailed)
    ensures Reduce(flow, db).RunFailed? <==>
      && (forall n :: n in flow.nodes ==> !IsStatus(db, n, Uncertain) && !IsStatus(db, n, Cancelled))
      && exists n :: n in flow.nodes && n in db.nodes && !Fulfilled(db.nodes[n])
  {
  }

  /** The status that the reduction and the check of the artifacts give. */
  predicate ReducedTo(flow: Flow, holds: Holding, db: Db, status: RunStatus)
    requires flow.nodes.Keys <= db.nodes.Keys
  {
    status == if !Reduce(flow, db).RunSucceeded? then Reduce(flow, db)
              else if Kept(flow, holds, db) && Delivered(flow, db) then RunSucceeded else RunFailed
  }

  /** The tables when the status is written. */
  function BeforeEnd(flow: Flow, holds: Holding, db: Db): Db
    requires flow.nodes.Keys <= db.nodes.Keys
  {
    if Reduce(flow, db).RunSucceeded? then Checked(flow, holds, db, true) else db
  }

  lemma ConcludedFrom(flow: Flow, holds: Holding, db: Db, mid: Db, later: Db, status: RunStatus)
    requires AllTerminal(flow, db) && ReducedTo(flow, holds, db, status) && mid == BeforeEnd(flow, holds, db)
    requires later.artifacts == mid.artifacts && later.run.status == status
    requires later.nodes == if status.RunCancelled? then CancelledRows(mid.nodes) else mid.nodes
    ensures Concluded(flow, holds, db, later, status)
  {
    ReducesTo(flow, holds, db);
    NothingWithdrawn(flow, holds, db, true);
    forall other ensures EndsAs(flow, holds, db, other) <==> other == status {
      OneEnding(flow, holds, db, status, other);
    }
  }

  /** Where a cancellation leaves a row. */
  predicate Dropped(s: Status) { s.Succeeded? || s.OptionalFailed? || s.Cancelled? }

  /** What the final tables of a run show, whatever ended it. */
  ghost predicate Shows(flow: Flow, holds: Holding, db: Db, status: RunStatus) {
    && db.run.status == status
    && (status.RunSucceeded? ==> EndsAs(flow, holds, db, RunSucceeded))
    && (status.RunNeedsReconciliation? ==> exists n :: n in flow.nodes && IsStatus(db, n, Uncertain))
    && (status.RunCancelled? ==> forall n :: n in db.nodes ==> Dropped(db.nodes[n].status))
    && (status.RunFailed? ==> exists n :: n in db.nodes && !db.nodes[n].status.Succeeded? && !db.nodes[n].status.Skipped?)
    && !status.RunRunning?
  }

  /** A cancellation drops what has not succeeded and closes what is still open; what was accepted stays. */
  lemma CancellationIsExact(db: Db, now: Time)
    ensures var later := FinishRun(db, RunCancelled, now).0;
      && later.nodes.Keys == db.nodes.Keys && later.attempts.Keys == db.attempts.Keys
      && (forall n :: n in db.nodes ==>
            var kept := db.nodes[n].status.Succeeded? || db.nodes[n].status.OptionalFailed?;
            later.nodes[n] == if kept then db.nodes[n]
                              else db.nodes[n].(status := Cancelled, activeAttempt := None, activeGeneration := None))
      && (forall k :: k in db.attempts ==>
            later.attempts[k] == if db.attempts[k].status.AttemptRunning?
                                 then db.attempts[k].(status := AttemptCancelled, finishedAt := Some(now)) else db.attempts[k])
      && later.artifacts == db.artifacts && later.progress == db.progress && later.control == db.control
      && later.attached == db.attached && later.run == db.run.(status := RunCancelled)
  {
  }

  /** Giving the lease up leaves the tables as they are, and no lease. */
  lemma ReleaseShows(flow: Flow, holds: Holding, db: Db, lease: RunLease)
    ensures var later := db.(run := ReleaseLease(db.run, lease));
      && (forall now :: !LeaseLive(later.run, lease, now))
      && forall status :: Shows(flow, holds, db, status) ==> Shows(flow, holds, later, status)
  {
    var later := db.(run := ReleaseLease(db.run, lease));
    forall status | Shows(flow, holds, db, status) ensures Shows(flow, holds, later, status) {
      assert forall n :: Accepted(later, n) == Accepted(db, n);
    }
  }

  lemma ConcludedShows(flow: Flow, holds: Holding, db: Db, later: Db, status: RunStatus)
    requires Concluded(flow, holds, db, later, status) && (forall o :: o in flow.outputs ==> o.0 in flow.nodes)
    ensures Shows(flow, holds, later, status)
  {
    assert EndsAs(flow, holds, db, status);
    if status.RunSucceeded? {
      assert forall n :: Accepted(later, n) == Accepted(db, n);
    }
    if status.RunFailed? {
      if n :| n in flow.nodes && n in db.nodes && !Fulfilled(db.nodes[n]) {
        assert later.nodes[n] == db.nodes[n];
      } else {
        NothingWithdrawn(flow, holds, db, true);
        var n :| n in Withdrawn(flow, holds, db, true);
        assert later.nodes[n].status == Failed;
      }
    }
  }
}
