/**
 What an iteration of the scheduler's loop leaves when it launches nothing, told from the rows before its passes:
 refused voters, join evidence, blocked and skipped nodes, refused launches.  From that follows exactly when the loop
 ends with nodes that are not terminal and nothing left to do.
 */
module Stalls {
  import opened Prelude
  import opened Graph
  import opened Workflow
  import opened Store
  import opened Joins
  import opened Runs
  import opened Passes
  import opened ControlPasses
  import opened Settling

  // ---------------------------------------------------------------- a frontier that launches nothing

  /** The voters of decided quorums have been refused, if there were slots and attempts to ask for. */
  function AfterReserve(flow: Flow, order: seq<NodeId>, db: Db, active: map<NodeId, nat>): (nodes: Rows)
    ensures nodes.Keys == db.nodes.Keys
  {
    if Full(flow, db, active) then db.nodes else Failing(db.nodes, Voters(flow, order, db.nodes, active.Keys))
  }

  /** The join decisions on the rows the iteration has read. */
  function Decisions(flow: Flow, db: Db): map<NodeId, Decision>
    requires RowsFor(flow, db.nodes)
  {
    Verdicts(flow, SavedJoins(flow, db.nodes, db.control.joins))
  }

  /** Then nodes are blocked and skipped, on the rows read before. */
  function AfterBlock(flow: Flow, order: seq<NodeId>, db: Db, active: map<NodeId, nat>): (nodes: Rows)
    requires RowsFor(flow, db.nodes)
    ensures nodes.Keys == db.nodes.Keys
  {
    BlockedRows(flow, db.nodes, Decisions(flow, db), AfterReserve(flow, order, db, active))
  }

  /** And the launches that are due have been refused, unless the dispatch pass was skipped or had no room. */
  function QuietRows(flow: Flow, order: seq<NodeId>, db: Db, active: map<NodeId, nat>, skipped: bool): Rows
    requires RowsFor(flow, db.nodes)
  {
    var nodes := AfterBlock(flow, order, db, active);
    if skipped || Full(flow, db, active) then nodes
    else Failing(nodes, Due(flow, nodes, active.Keys, Decisions(flow, db)))
  }

  /** Nobody can be launched from these rows. */
  predicate NobodyDue(flow: Flow, order: seq<NodeId>, db: Db, active: map<NodeId, nat>)
    requires RowsFor(flow, db.nodes)
  {
    || Full(flow, db, active)
    || (Voters(flow, order, db.nodes, active.Keys) == {}
        && Due(flow, AfterBlock(flow, order, db, active), active.Keys, Decisions(flow, db)) == {})
  }

  /** The same nodes have made the same attempts. */
  predicate SameCounts(nodes: Rows, later: Rows) {
    later.Keys == nodes.Keys && forall n :: n in nodes ==> later[n].attemptCount == nodes[n].attemptCount
  }

  lemma BlockCounts(flow: Flow, order: seq<NodeId>, db: Db, active: map<NodeId, nat>)
    requires RowsFor(flow, db.nodes)
    ensures SameCounts(db.nodes, AfterReserve(flow, order, db, active)) && SameCounts(db.nodes, AfterBlock(flow, order, db, active))
  {
  }

  /** What launches nothing moves no attempt. */
  lemma QuietCounts(flow: Flow, order: seq<NodeId>, db: Db, active: map<NodeId, nat>, skipped: bool, later: Db)
    requires RowsFor(flow, db.nodes) && later.nodes == QuietRows(flow, order, db, active, skipped)
    ensures AttemptTotal(flow, later) == AttemptTotal(flow, db)
  {
    BlockCounts(flow, order, db, active);
    StatusCounts(flow, db, later);
  }

  /** The tables an iteration shows to the passes that launch, if there is nothing to repair. */
  ghost function Controlled(flow: Flow, judge: Judge, db: Db): Db {
    var looped := LoopFold(flow, judge, db.nodes, db, |flow.ids|);
    RouteFold(flow, judge, looped.nodes, looped, |flow.ids|)
  }

  lemma {:induction false} RoutesKeepRun(flow: Flow, judge: Judge, rows: Rows, db: Db, i: nat)
    requires i <= |flow.ids|
    ensures RouteFold(flow, judge, rows, db, i).run == db.run
  {
    if i > 0 {
      RoutesKeepRun(flow, judge, rows, db, i - 1);
    }
  }

  lemma {:induction false} LoopsKeepRun(flow: Flow, judge: Judge, rows: Rows, db: Db, i: nat)
    requires i <= |flow.ids|
    ensures LoopFold(flow, judge, rows, db, i).run == db.run
  {
    if i > 0 {
      LoopsKeepRun(flow, judge, rows, db, i - 1);
    }
  }

  lemma ControlKeepsRun(flow: Flow, judge: Judge, db: Db)
    ensures Controlled(flow, judge, db).run == db.run
  {
    LoopsKeepRun(flow, judge, db.nodes, db, |flow.ids|);
    var looped := LoopFold(flow, judge, db.nodes, db, |flow.ids|);
    RoutesKeepRun(flow, judge, looped.nodes, looped, |flow.ids|);
  }

  /** No repair round fits the last failure of any node. */
  ghost predicate NoRepair(flow: Flow, db: Db) { forall n :: n in flow.nodes ==> NothingToRepair(flow, db, n) }

  lemma RepairIgnoresRun(flow: Flow, db: Db, run: RunRow)
    ensures NoRepair(flow, db) ==> NoRepair(flow, db.(run := run))
  {
    if NoRepair(flow, db) {
      forall n | n in flow.nodes ensures NothingToRepair(flow, db.(run := run), n) {
        RepairIgnores(flow, db, run, n);
      }
    }
  }

  lemma RepairIgnores(flow: Flow, db: Db, run: RunRow, n: NodeId)
    requires NothingToRepair(flow, db, n)
    ensures NothingToRepair(flow, db.(run := run), n)
  {
    var later := db.(run := run);
    if n in flow.nodes && n in db.nodes && db.nodes[n].lastDigest.Some? {
      var failure, digest := LastFailure(db, n), db.nodes[n].lastDigest.value;
      forall i: nat ensures !RepairPossible(flow, later, n, failure, digest, i) {
        if RepairPossible(flow, later, n, failure, digest, i) {
          FitsIgnores(flow, db, run, n, flow.nodes[n].repair.value[i], digest);
          assert RepairPossible(flow, db, n, failure, digest, i);
        }
      }
    }
  }

  lemma FitsIgnores(flow: Flow, db: Db, run: RunRow, n: NodeId, route: RepairRoute, digest: Digest)
    requires n in flow.nodes && RouteFits(flow, db.(run := run), n, route, digest)
    ensures RouteFits(flow, db, n, route, digest)
  {
    forall i | 0 <= i < |route.targets| ensures TargetFits(flow, db, route.targets[i].node) {
      assert TargetFits(flow, db.(run := run), route.targets[i].node);
    }
  }

  /**
   The repair rounds of an iteration, the tables before the passes that launch, whether the cancel event was seen there,
   and whether they launched nothing.
   */
  datatype Front = Front(rounds: seq<Db>, db: Db, skipped: bool, quiet: bool)

  /** An iteration that starts from `start` repairs what can be repaired, and then processes the control edges. */
  ghost predicate Begins(flow: Flow, judge: Judge, start: Db, front: Front) {
    && Rounds(flow, front.rounds) && front.rounds[0] == start
    && var repaired := front.rounds[|front.rounds| - 1];
       NoRepair(flow, repaired) && front.db == Controlled(flow, judge, repaired)
  }

  // ---------------------------------------------------------------- the end without progress

  /**
   With nothing running and nothing launched, the loop ends without progress: some node is not terminal, and no
   pending node waits for the attempt budget to fail it.
   */
  predicate Stalled(flow: Flow, order: seq<NodeId>, db: Db, skipped: bool)
    requires RowsFor(flow, db.nodes)
  {
    var nodes := QuietRows(flow, order, db, map[], skipped);
    && (exists n :: n in flow.nodes && !Terminal(nodes[n].status))
    && !(AttemptTotal(flow, db) >= flow.budgets.maxTotalAttempts && exists n :: n in nodes && nodes[n].status.Pending?)
  }

  /** Some node is not terminal, and no pending one waits for the attempt budget to fail it. */
  predicate NoWayOn(flow: Flow, db: Db) {
    && !AllTerminal(flow, db)
    && !(AttemptTotal(flow, db) >= flow.budgets.maxTotalAttempts && exists n :: n in db.nodes && db.nodes[n].status.Pending?)
  }

  /** Either the passes launched nothing, and left what they leave then, or somebody was due. */
  predicate FrontLeft(flow: Flow, order: seq<NodeId>, front: Front, held: map<NodeId, nat>, later: Db)
    requires RowsFor(flow, front.db.nodes)
  {
    if front.quiet then
      && later.nodes == QuietRows(flow, order, front.db, held, front.skipped)
      && later.control.joins == SavedJoins(flow, front.db.nodes, front.db.control.joins)
      && later.control.loops == front.db.control.loops
    else !NobodyDue(flow, order, front.db, held)
  }

  lemma BlockSucceedsNoMore(flow: Flow, order: seq<NodeId>, db: Db, active: map<NodeId, nat>, n: NodeId)
    requires RowsFor(flow, db.nodes) && n in db.nodes
    ensures AfterBlock(flow, order, db, active)[n].status.Succeeded? ==> AfterBlock(flow, order, db, active)[n] == db.nodes[n]
  {
    ReserveFails(flow, order, db, active, n);
    BlockOrLeave(flow, db.nodes, Decisions(flow, db), AfterReserve(flow, order, db, active), n);
  }

  lemma ReserveFails(flow: Flow, order: seq<NodeId>, db: Db, active: map<NodeId, nat>, n: NodeId)
    requires n in db.nodes
    ensures var row := AfterReserve(flow, order, db, active)[n]; row == db.nodes[n] || row.status.Failed?
  {
  }

  lemma BlockOrLeave(flow: Flow, rows: Rows, decisions: map<NodeId, Decision>, nodes: Rows, n: NodeId)
    requires RowsFor(flow, rows) && n in nodes
    ensures var row := BlockedRows(flow, rows, decisions, nodes)[n]; row == nodes[n] || row.status.Blocked? || row.status.Skipped?
  {
  }

  lemma QuietSucceedsNoMore(flow: Flow, order: seq<NodeId>, db: Db, active: map<NodeId, nat>, skipped: bool, n: NodeId)
    requires RowsFor(flow, db.nodes) && n in QuietRows(flow, order, db, active, skipped)
    ensures n in db.nodes
    ensures var row := QuietRows(flow, order, db, active, skipped)[n]; row.status.Succeeded? ==> row == db.nodes[n]
  {
    BlockSucceedsNoMore(flow, order, db, active, n);
  }

  /** How the tables `start`, with the workers `held`, lead to the front of an iteration. */
  ghost predicate Fronted(flow: Flow, judge: Judge, order: seq<NodeId>, start: Db, held: map<NodeId, nat>, front: Front) {
    && RowsFor(flow, front.db.nodes) && Begins(flow, judge, start, front)
    && (NoRepair(flow, start) ==> front.db == Controlled(flow, judge, start))
    && (!front.quiet ==> !NobodyDue(flow, order, front.db, held))
  }

  /** Passes that launch nothing leave no loop decision outstanding. */
  lemma QuietKeepsClosed(flow: Flow, order: seq<NodeId>, front: Front, held: map<NodeId, nat>, later: Db)
    requires RowsFor(flow, front.db.nodes) && front.quiet && FrontLeft(flow, order, front, held, later)
    requires LoopsClosed(flow, front.db)
    ensures LoopsClosed(flow, later)
  {
    forall n | IsStatus(later, n, Succeeded) ensures n in front.db.nodes && later.nodes[n] == front.db.nodes[n] {
      QuietSucceedsNoMore(flow, order, front.db, held, front.skipped, n);
    }
    ClosedStays(flow, front.db, later);
  }

  /** With nothing running, there is no way on exactly when the rows before were stalled. */
  lemma StallIsSeen(flow: Flow, order: seq<NodeId>, front: Front, later: Db)
    requires RowsFor(flow, front.db.nodes) && front.quiet && FrontLeft(flow, order, front, map[], later)
    ensures Stalled(flow, order, front.db, front.skipped) <==> NoWayOn(flow, later)
  {
    QuietCounts(flow, order, front.db, map[], front.skipped, later);
    WayOn(flow, front.db, later);
  }

  /** Whether there is a way on is told from the rows, with the attempts counted before. */
  lemma WayOn(flow: Flow, db: Db, later: Db)
    requires flow.nodes.Keys <= later.nodes.Keys && AttemptTotal(flow, later) == AttemptTotal(flow, db)
    ensures NoWayOn(flow, later) <==>
      && (exists n :: n in flow.nodes && !Terminal(later.nodes[n].status))
      && !(AttemptTotal(flow, db) >= flow.budgets.maxTotalAttempts && exists n :: n in later.nodes && later.nodes[n].status.Pending?)
  {
  }

  // ---------------------------------------------------------------- told from the rows before

  /** A pending node to which nothing has happened yet: no need has stopped or been skipped, and one is not settled. */
  predicate Travelling(flow: Flow, rows: Rows, n: NodeId)
    requires RowsFor(flow, rows) && n in flow.nodes
  {
    && rows[n].status.Pending? && flow.nodes[n].join.None?
    && (forall d :: d in flow.nodes[n].needs ==> !Stops(rows[d].status) && !rows[d].status.Skipped?)
    && exists d :: d in flow.nodes[n].needs && !Terminal(rows[d].status)
  }

  predicate OpenJoin(flow: Flow, rows: Rows, decisions: map<NodeId, Decision>, n: NodeId)
    requires RowsFor(flow, rows) && n in flow.nodes
  {
    rows[n].status.Pending? && flow.nodes[n].join.Some? && DecisionOf(decisions, n) == Waiting
  }

  /** A node whose needs are met but that is not launched: held back for an open quorum, or no launch is tried. */
  predicate HeldBack(flow: Flow, order: seq<NodeId>, db: Db, skipped: bool, n: NodeId)
    requires RowsFor(flow, db.nodes) && n in flow.nodes
  {
    && db.nodes[n].status.Pending? && NeedsMet(flow, db.nodes, Decisions(flow, db), n)
    && (skipped || Full(flow, db, map[])
        || !Dispatchable(flow, n, AfterBlock(flow, order, db, map[]), {}, Decisions(flow, db)))
  }

  predicate RefusedVoter(flow: Flow, order: seq<NodeId>, db: Db, n: NodeId) {
    !Full(flow, db, map[]) && n in Voters(flow, order, db.nodes, {})
  }

  /** What the iteration leaves unsettled when nothing runs and nothing is launched. */
  predicate LeftBehind(flow: Flow, order: seq<NodeId>, db: Db, skipped: bool, n: NodeId)
    requires RowsFor(flow, db.nodes) && n in flow.nodes
  {
    || db.nodes[n].status.Running?
    || (!RefusedVoter(flow, order, db, n)
        && (Travelling(flow, db.nodes, n) || OpenJoin(flow, db.nodes, Decisions(flow, db), n)
            || HeldBack(flow, order, db, skipped, n)))
  }

  lemma AllVerdicts(flow: Flow, db: Db, n: NodeId)
    requires RowsFor(flow, db.nodes) && IsJoin(flow, n)
    ensures n in Decisions(flow, db)
  {
  }

  lemma ReserveLags(flow: Flow, order: seq<NodeId>, db: Db, active: map<NodeId, nat>, d: NodeId)
    requires d in db.nodes
    ensures LagRow(db.nodes[d], AfterReserve(flow, order, db, active)[d])
  {
  }

  lemma BlockLags(flow: Flow, order: seq<NodeId>, db: Db, active: map<NodeId, nat>, d: NodeId)
    requires RowsFor(flow, db.nodes) && d in db.nodes
    ensures LagRow(db.nodes[d], AfterBlock(flow, order, db, active)[d])
  {
    ReserveLags(flow, order, db, active, d);
    var rows, nodes, decisions := db.nodes, AfterReserve(flow, order, db, active), Decisions(flow, db);
    if d in flow.nodes {
      BlockedRowLags(flow, rows, decisions, d, nodes[d]);
    }
  }

  /** Blocking makes no need good and none bad that was. */
  lemma GoodStays(flow: Flow, order: seq<NodeId>, db: Db, active: map<NodeId, nat>, d: NodeId)
    requires RowsFor(flow, db.nodes) && d in db.nodes
    ensures Good(AfterBlock(flow, order, db, active)[d].status) <==> Good(db.nodes[d].status)
    ensures !db.nodes[d].status.Pending? ==> AfterBlock(flow, order, db, active)[d] == db.nodes[d]
    ensures AfterBlock(flow, order, db, active)[d].status.Running? <==> db.nodes[d].status.Running?
  {
    BlockLags(flow, order, db, active, d);
  }

  lemma NeedsStayMet(flow: Flow, order: seq<NodeId>, db: Db, active: map<NodeId, nat>, n: NodeId)
    requires RowsFor(flow, db.nodes) && n in flow.nodes
    ensures NeedsMet(flow, AfterBlock(flow, order, db, active), Decisions(flow, db), n)
            <==> NeedsMet(flow, db.nodes, Decisions(flow, db), n)
  {
    var after := AfterBlock(flow, order, db, active);
    forall d | d in flow.nodes[n].needs ensures Good(after[d].status) <==> Good(db.nodes[d].status) {
      GoodStays(flow, order, db, active, d);
    }
  }

  /** A node still pending after blocking. */
  lemma PendingAfterBlock(flow: Flow, order: seq<NodeId>, db: Db, n: NodeId)
    requires RowsFor(flow, db.nodes) && n in flow.nodes
    ensures AfterBlock(flow, order, db, map[])[n].status.Pending? <==>
      && !RefusedVoter(flow, order, db, n) && db.nodes[n].status.Pending?
      && (Travelling(flow, db.nodes, n) || OpenJoin(flow, db.nodes, Decisions(flow, db), n)
          || NeedsMet(flow, db.nodes, Decisions(flow, db), n))
  {
    var decisions := Decisions(flow, db);
    if db.nodes[n].status.Pending? {
      if flow.nodes[n].join.Some? {
        AllVerdicts(flow, db, n);
      } else {
        assert Travelling(flow, db.nodes, n) || NeedsMet(flow, db.nodes, decisions, n) <==>
          !Blocks(flow, db.nodes, decisions, n) && !Skips(flow, db.nodes, decisions, n);
      }
    }
  }

  /** What the dispatch pass leaves of a node when it launches nothing. */
  lemma QuietRow(flow: Flow, order: seq<NodeId>, db: Db, skipped: bool, n: NodeId)
    requires RowsFor(flow, db.nodes) && n in flow.nodes
    ensures var after, later := AfterBlock(flow, order, db, map[]), QuietRows(flow, order, db, map[], skipped)[n].status;
      && (later.Running? <==> after[n].status.Running?)
      && (later.Pending? <==>
            && after[n].status.Pending?
            && (skipped || Full(flow, db, map[]) || !Dispatchable(flow, n, after, {}, Decisions(flow, db))
                || !NeedsMet(flow, after, Decisions(flow, db), n)))
  {
    var nodes, decisions := AfterBlock(flow, order, db, map[]), Decisions(flow, db);
    DueIs(flow, nodes, decisions, n);
  }

  lemma DueIs(flow: Flow, rows: Rows, decisions: map<NodeId, Decision>, n: NodeId)
    requires RowsFor(flow, rows) && n in flow.nodes
    ensures n in Due(flow, rows, {}, decisions) <==>
      rows[n].status.Pending? && Dispatchable(flow, n, rows, {}, decisions) && NeedsMet(flow, rows, decisions, n)
  {
  }

  /** With nothing running and nothing launched, exactly these nodes are not terminal afterwards. */
  lemma LeftExactly(flow: Flow, order: seq<NodeId>, db: Db, skipped: bool, n: NodeId)
    requires RowsFor(flow, db.nodes) && n in flow.nodes
    ensures var later := QuietRows(flow, order, db, map[], skipped)[n].status;
      && (later.Running? <==> db.nodes[n].status.Running?)
      && (!Terminal(later) <==> LeftBehind(flow, order, db, skipped, n))
  {
    PendingAfterBlock(flow, order, db, n);
    NeedsStayMet(flow, order, db, map[], n);
    GoodStays(flow, order, db, map[], n);
    QuietRow(flow, order, db, skipped, n);
    TravellersWait(flow, db, n);
  }

  /** The three kinds of nodes left behind exclude one another. */
  lemma TravellersWait(flow: Flow, db: Db, n: NodeId)
    requires RowsFor(flow, db.nodes) && n in flow.nodes
    ensures Travelling(flow, db.nodes, n) || OpenJoin(flow, db.nodes, Decisions(flow, db), n) ==>
      !NeedsMet(flow, db.nodes, Decisions(flow, db), n)
  {
  }

  lemma StalledNodes(flow: Flow, order: seq<NodeId>, db: Db, skipped: bool)
    requires RowsFor(flow, db.nodes)
    ensures (exists n :: n in flow.nodes && !Terminal(QuietRows(flow, order, db, map[], skipped)[n].status))
            <==> exists n :: n in flow.nodes && LeftBehind(flow, order, db, skipped, n)
  {
    forall n | n in flow.nodes
      ensures !Terminal(QuietRows(flow, order, db, map[], skipped)[n].status) <==> LeftBehind(flow, order, db, skipped, n)
    {
      LeftExactly(flow, order, db, skipped, n);
    }
  }

  lemma HasRoom(flow: Flow, order: seq<NodeId>, db: Db, n: NodeId)
    requires RowsFor(flow, db.nodes) && n in flow.nodes && !Full(flow, db, map[])
    requires forall c :: c in flow.nodes ==> flow.nodes[c].join.None?
    ensures LeftBehind(flow, order, db, false, n) <==> db.nodes[n].status.Running? || Travelling(flow, db.nodes, n)
  {
  }

  /** Without joins, with room and nobody cancelling: a node runs that nobody waits for, or something has not reached a node. */
  lemma StalledWithoutJoins(flow: Flow, order: seq<NodeId>, db: Db)
    requires RowsFor(flow, db.nodes) && db.nodes.Keys == flow.nodes.Keys && !Full(flow, db, map[])
    requires forall c :: c in flow.nodes ==> flow.nodes[c].join.None?
    ensures Stalled(flow, order, db, false) <==>
      exists n :: n in flow.nodes && (db.nodes[n].status.Running? || Travelling(flow, db.nodes, n))
  {
    StalledNodes(flow, order, db, false);
    forall n | n in flow.nodes
      ensures LeftBehind(flow, order, db, false, n) <==> db.nodes[n].status.Running? || Travelling(flow, db.nodes, n)
    {
      HasRoom(flow, order, db, n);
    }
  }

  /** In general. */
  lemma StalledExactly(flow: Flow, order: seq<NodeId>, db: Db, skipped: bool)
    requires RowsFor(flow, db.nodes) && db.nodes.Keys == flow.nodes.Keys
    ensures Stalled(flow, order, db, skipped) <==>
      && (exists n :: n in flow.nodes && LeftBehind(flow, order, db, skipped, n))
      && (AttemptTotal(flow, db) >= flow.budgets.maxTotalAttempts ==>
            forall n :: n in flow.nodes && LeftBehind(flow, order, db, skipped, n) ==> db.nodes[n].status.Running?)
  {
    StalledNodes(flow, order, db, skipped);
    forall n | n in flow.nodes
      ensures QuietRows(flow, order, db, map[], skipped)[n].status.Pending?
              <==> LeftBehind(flow, order, db, skipped, n) && !db.nodes[n].status.Running?
    {
      LeftExactly(flow, order, db, skipped, n);
    }
  }

  /** A cancel event seen only by the dispatch pass stalls whatever was ready. */
  lemma SkippedStalls(flow: Flow, order: seq<NodeId>, db: Db, n: NodeId)
    requires RowsFor(flow, db.nodes) && db.nodes.Keys == flow.nodes.Keys && n in flow.nodes && !RefusedVoter(flow, order, db, n)
    requires db.nodes[n].status.Pending? && NeedsMet(flow, db.nodes, Decisions(flow, db), n)
    requires AttemptTotal(flow, db) < flow.budgets.maxTotalAttempts
    ensures Stalled(flow, order, db, true)
  {
    assert HeldBack(flow, order, db, true, n) && LeftBehind(flow, order, db, true, n);
    StalledExactly(flow, order, db, true);
  }
}
