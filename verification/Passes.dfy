/**
 What the passes of the scheduler's loop may assume and leave behind: each works on rows it has read
 once, while its own transactions move the tables on.
 */
module Passes {
  import opened Prelude
  import opened Graph
  import opened Workflow
  import opened Store
  import opened Joins
  import opened Runs

  // ---------------------------------------------------------------- launches

  /** A node as a started attempt leaves it. */
  predicate StartedRow(row: NodeRow, later: NodeRow) {
    && row.status.Pending? && later.status.Running? && later.required == row.required
    && later.attemptCount == row.attemptCount + 1
  }

  /** Only the rows of `n` differ. */
  predicate OnlyRow(db: Db, later: Db, n: NodeId) {
    && n in db.nodes && n in later.nodes && n in later.progress
    && later.nodes == db.nodes[n := later.nodes[n]]
    && later.progress == db.progress[n := later.progress[n]]
    && later.control == db.control && later.artifacts == db.artifacts
  }

  /** A refused attempt: the node has failed and its progress budget has stopped. */
  predicate Refused(db: Db, later: Db, n: NodeId) {
    && OnlyRow(db, later, n) && later.progress[n].verdict == Stop
    && later.nodes[n] == db.nodes[n].(status := Failed)
  }

  predicate Launched(db: Db, later: Db, n: NodeId) {
    OnlyRow(db, later, n) && StartedRow(db.nodes[n], later.nodes[n])
  }

  /** The progress budget of a node goes on, and its deadline has not passed. */
  predicate InBudget(row: ProgressRow, now: Time) {
    row.verdict != Stop && (row.deadlineAt.Some? ==> now < row.deadlineAt.value)
  }

  lemma AdmitOutcome(db: Db, n: NodeId, now: Time)
    requires n in db.nodes && n in db.progress
    requires IsStatus(db, n, Pending) || (IsStatus(db, n, Failed) && db.progress[n].verdict == Stop)
    ensures var (later, reply) := AdmitAttempt(db, n, now);
            if reply == Answer(true) then later == db && IsStatus(db, n, Pending) else Refused(db, later, n)
    ensures AdmitAttempt(db, n, now).1 == Answer(true) <==> InBudget(db.progress[n], now)
  {
    assert IsStatus(db, n, Failed) ==> db.nodes[n := db.nodes[n].(status := Failed)] == db.nodes;
  }

  lemma StartOutcome(db: Db, n: NodeId, generation: nat, now: Time)
    requires IsStatus(db, n, Pending) && n in db.progress
    ensures var (later, reply) := StartAttempt(db, n, generation, now);
            if reply.Started? then Launched(db, later, n) && reply.number == later.nodes[n].attemptCount
            else Refused(db, later, n)
    ensures db.progress[n].verdict != Stop ==> (StartAttempt(db, n, generation, now).1.Started? <==> InBudget(db.progress[n], now))
  {
    assert db.progress == db.progress[n := db.progress[n]];
  }

  /** A start opens the next attempt under the generation of the owner; nothing else but the first deadline is written. */
  lemma StartOpens(db: Db, n: NodeId, generation: nat, now: Time)
    requires n in db.nodes && n in db.progress
    ensures var (later, reply) := StartAttempt(db, n, generation, now);
      var next := db.nodes[n].attemptCount + 1;
      reply.Started? ==>
        && db.nodes[n].status.Pending? && reply.number == next
        && later.nodes == db.nodes[n := db.nodes[n].(status := Running, attemptCount := next, activeAttempt := Some(next),
                                                      activeGeneration := Some(generation))]
        && later.attempts == db.attempts[AttemptKey(n, next) := AttemptRow(AttemptRunning, generation, now, None, None, None)]
        && later.artifacts == db.artifacts && later.control == db.control && later.attached == db.attached && later.run == db.run
        && (db.progress[n].startedAt.Some? ==> later.progress == db.progress)
        && (db.progress[n].startedAt.None? ==> later.progress == db.progress[n := db.progress[n].(
              startedAt := Some(now), deadlineAt := later.progress[n].deadlineAt, lastProgressAt := Some(now))])
  {
  }

  /** One row of a pass that launches: as read, running under the owner's attempt, or refused. */
  predicate LaunchRow(row: NodeRow, db: Db, active: map<NodeId, nat>, d: NodeId)
    requires d in db.nodes
  {
    || db.nodes[d] == row
    || (d in active && StartedRow(row, db.nodes[d]))
    || (d !in active && row.status.Pending? && db.nodes[d] == row.(status := Failed)
        && Accepted(db, d) == map[] && d in db.progress && db.progress[d].verdict == Stop)
  }

  /** The tables that launches can have made of `rows`. */
  ghost predicate LaunchedFrom(rows: Rows, db: Db, active: map<NodeId, nat>) {
    rows.Keys == db.nodes.Keys && forall d :: d in rows ==> LaunchRow(rows[d], db, active, d)
  }

  lemma LaunchKeeps(rows: Rows, db: Db, later: Db, active: map<NodeId, nat>, n: NodeId, number: nat)
    requires LaunchedFrom(rows, db, active) && Launched(db, later, n) && n !in active
    ensures LaunchedFrom(rows, later, active[n := number])
  {
    forall d | d in rows ensures LaunchRow(rows[d], later, active[n := number], d) {
      assert LaunchRow(rows[d], db, active, d);
    }
  }

  lemma RefusalKeeps(rows: Rows, db: Db, later: Db, active: map<NodeId, nat>, n: NodeId)
    requires LaunchedFrom(rows, db, active) && Refused(db, later, n) && n !in active
    requires db.nodes[n].status.Pending? || db.nodes[n].status.Failed?
    requires Accepted(db, n) == map[]
    ensures LaunchedFrom(rows, later, active)
  {
    forall d | d in rows ensures LaunchRow(rows[d], later, active, d) {
      assert LaunchRow(rows[d], db, active, d);
    }
  }

  lemma LaunchCounts(flow: Flow, db: Db, later: Db, n: NodeId)
    requires Increasing(flow.ids) && n in flow.ids && Launched(db, later, n)
    ensures AttemptTotal(flow, later) == AttemptTotal(flow, db) + 1
  {
    SumDelta(flow.ids, AttemptsOf(db), AttemptsOf(later), n);
  }

  lemma RefusalCounts(flow: Flow, db: Db, later: Db, n: NodeId)
    requires Refused(db, later, n)
    ensures AttemptTotal(flow, later) == AttemptTotal(flow, db)
  {
    SumSame(flow.ids, AttemptsOf(db), AttemptsOf(later));
  }

  lemma OneMore(active: map<NodeId, nat>, n: NodeId, number: nat)
    requires n !in active
    ensures |active[n := number]| == |active| + 1 && active.Keys <= active[n := number].Keys
  {
    assert active[n := number].Keys == active.Keys + {n};
  }

  /** The dependencies of `n`, as the dispatch pass has read them. */
  predicate NeedsMet(flow: Flow, rows: Rows, decisions: map<NodeId, Decision>, n: NodeId)
    requires n in flow.nodes
  {
    if flow.nodes[n].join.Some? then DecisionOf(decisions, n) == JoinSucceeded
    else forall d :: d in flow.nodes[n].needs ==> d in rows && Good(rows[d].status)
  }

  /** The decisions of a pass are the recorded ones. */
  predicate Agree(joins: JoinTable, decisions: map<NodeId, Decision>) {
    forall c :: c in decisions ==> c in joins && joins[c].decision == decisions[c]
  }

  /** Every declared node and every dependency has a row. */
  predicate RowsFor(flow: Flow, rows: Rows) {
    flow.nodes.Keys <= rows.Keys && forall c :: c in flow.nodes ==> flow.nodes[c].needs <= rows.Keys
  }

  ghost predicate Wired(flow: Flow, rows: Rows) {
    rows.Keys == flow.nodes.Keys && Closed(NeedsOf(flow)) && RowsFor(flow, rows)
  }

  lemma WellFormedIsWired(flow: Flow, rows: Rows)
    requires WellFormed(flow) && rows.Keys == flow.nodes.Keys
    ensures Wired(flow, rows)
  {
    forall c | c in flow.nodes ensures flow.nodes[c].needs <= rows.Keys {
      assert NeedsOf(flow)[c] == flow.nodes[c].needs;
    }
  }

  /** What is ready on the rows the pass has read is ready now, whatever the pass has launched since. */
  lemma ReadyNow(flow: Flow, rows: Rows, db: Db, active: map<NodeId, nat>, decisions: map<NodeId, Decision>, n: NodeId)
    requires Wired(flow, rows) && LaunchedFrom(rows, db, active) && Agree(db.control.joins, decisions)
    requires n in flow.nodes && Dispatchable(flow, n, rows, active.Keys, decisions) && NeedsMet(flow, rows, decisions, n)
    ensures Ready(flow, db, active.Keys, n)
  {
    forall d | d in rows
      ensures db.nodes[d].status == rows[d].status ||
              (rows[d].status.Pending? && if d in active.Keys then db.nodes[d].status.Running? else db.nodes[d].status.Failed?)
    {
      assert LaunchRow(rows[d], db, active, d);
    }
    RoomSurvivesLaunches(flow, n, rows, db.nodes, active.Keys, decisions);
  }

  lemma LaunchesSettle(rows: Rows, db: Db, active: map<NodeId, nat>, needs: set<NodeId>)
    requires LaunchedFrom(rows, db, active) && needs <= rows.Keys
    ensures SettlesTo(needs, rows, db.nodes)
  {
    forall d | d in needs
      ensures db.nodes[d].required == rows[d].required
      ensures !rows[d].status.Pending? ==> db.nodes[d] == rows[d]
    {
      assert LaunchRow(rows[d], db, active, d);
    }
  }

  /** A quorum decided on the rows the pass has read is decided now. */
  lemma ReserveNow(flow: Flow, rows: Rows, db: Db, active: map<NodeId, nat>, c: NodeId, n: NodeId)
    requires Wired(flow, rows) && LaunchedFrom(rows, db, active)
    requires c in flow.nodes && flow.nodes[c].join.Some? && IsQuorum(flow.nodes[c].join.value)
    requires Snapshot(flow.nodes[c].join.value, flow.nodes[c].needs, rows).decision != Waiting
    requires n in flow.nodes[c].needs
    ensures Reserve(flow, db, n)
  {
    LaunchesSettle(rows, db, active, flow.nodes[c].needs);
    DecisionIsStable(flow.nodes[c].join.value, flow.nodes[c].needs, rows, db.nodes);
    assert ReserveOf(flow, db, c, n);
  }

  /** Launching a node with a larger id frees no place in any slice. */
  lemma SlicesOnlyFill(flow: Flow, rows: Rows, active: set<NodeId>, m: NodeId, decisions: map<NodeId, Decision>, n: NodeId)
    requires Wired(flow, rows) && n in flow.nodes && n < m && Dispatchable(flow, n, rows, active + {m}, decisions)
    ensures Dispatchable(flow, n, rows, active, decisions)
  {
    forall c | c in flow.nodes && Holds(flow, c, n, rows)
      ensures DecisionOf(decisions, c) == Waiting && InSlice(flow, c, n, rows, active)
    {
      var needs := flow.nodes[c].needs;
      Within(InFlight(needs, rows, active), InFlight(needs, rows, active + {m}));
      assert Below(Candidates(needs, rows, active), n) == Below(Candidates(needs, rows, active + {m}), n);
    }
  }

  /** What the dispatch pass would launch from these rows. */
  function Due(flow: Flow, rows: Rows, active: set<NodeId>, decisions: map<NodeId, Decision>): set<NodeId>
    requires RowsFor(flow, rows)
  {
    set n | n in flow.nodes && n !in active && rows[n].status.Pending?
            && Dispatchable(flow, n, rows, active, decisions) && NeedsMet(flow, rows, decisions, n)
  }

  /** Rows of which some have been refused. */
  function Failing(nodes: Rows, gone: set<NodeId>): Rows {
    map n | n in nodes :: if n in gone then nodes[n].(status := Failed) else nodes[n]
  }

  /** No slot or no attempt is left. */
  predicate Full(flow: Flow, db: Db, active: map<NodeId, nat>) {
    |active| >= flow.budgets.maxConcurrency || AttemptTotal(flow, db) >= flow.budgets.maxTotalAttempts
  }

  /** The dispatch pass has dealt with `n`: what it could launch was launched or refused. */
  predicate Considered(flow: Flow, rows: Rows, db: Db, active: map<NodeId, nat>, decisions: map<NodeId, Decision>, n: NodeId)
    requires RowsFor(flow, rows)
  {
    (n in flow.nodes && rows[n].status.Pending? && n !in active
     && Dispatchable(flow, n, rows, active.Keys, decisions) && NeedsMet(flow, rows, decisions, n))
    ==> IsStatus(db, n, Failed)
  }

  lemma StillConsidered(flow: Flow, rows: Rows, db: Db, later: Db, active: map<NodeId, nat>, m: NodeId, number: nat,
                        decisions: map<NodeId, Decision>, n: NodeId)
    requires Wired(flow, rows) && Considered(flow, rows, db, active, decisions, n) && n < m && OnlyRow(db, later, m)
    ensures Considered(flow, rows, later, active, decisions, n)
    ensures Considered(flow, rows, later, active[m := number], decisions, n)
  {
    assert active[m := number].Keys == active.Keys + {m};
    if n in flow.nodes && Dispatchable(flow, n, rows, active.Keys + {m}, decisions) {
      SlicesOnlyFill(flow, rows, active.Keys, m, decisions, n);
    }
  }

  /** The dispatch pass before the node at position `i` of the sorted ids. */
  ghost predicate Dispatching(flow: Flow, rows: Rows, db: Db, active: map<NodeId, nat>, decisions: map<NodeId, Decision>,
                              i: nat)
  {
    && Wired(flow, rows) && Increasing(flow.ids) && Listed(flow) && i <= |flow.ids|
    && LaunchedFrom(rows, db, active) && Agree(db.control.joins, decisions)
    && (forall j :: i <= j < |flow.ids| ==> AsRead(rows, db, flow.ids[j]))
    && Visited(flow, rows, db, active, decisions, i)
  }

  ghost predicate Visited(flow: Flow, rows: Rows, db: Db, active: map<NodeId, nat>, decisions: map<NodeId, Decision>, i: nat)
    requires Wired(flow, rows) && i <= |flow.ids|
  {
    forall j :: 0 <= j < i ==> Considered(flow, rows, db, active, decisions, flow.ids[j])
  }

  predicate AsRead(rows: Rows, db: Db, n: NodeId) { n in rows && n in db.nodes && db.nodes[n] == rows[n] }

  lemma DispatchingAtFirst(flow: Flow, rows: Rows, db: Db, active: map<NodeId, nat>, decisions: map<NodeId, Decision>)
    requires Wired(flow, rows) && Increasing(flow.ids) && Listed(flow) && rows == db.nodes && Agree(db.control.joins, decisions)
    ensures Dispatching(flow, rows, db, active, decisions, 0)
  {
    forall j | 0 <= j < |flow.ids| ensures AsRead(rows, db, flow.ids[j]) {
      assert flow.ids[j] in flow.ids;
    }
  }

  /** The nodes not visited yet are untouched when the node at `i` is. */
  lemma RestAsRead(flow: Flow, rows: Rows, db: Db, later: Db, i: nat)
    requires Increasing(flow.ids) && i < |flow.ids| && OnlyRow(db, later, flow.ids[i])
    requires forall j :: i <= j < |flow.ids| ==> AsRead(rows, db, flow.ids[j])
    ensures forall j :: i < j < |flow.ids| ==> AsRead(rows, later, flow.ids[j])
  {
  }

  lemma ActiveIsConsidered(flow: Flow, rows: Rows, db: Db, active: map<NodeId, nat>, decisions: map<NodeId, Decision>, n: NodeId)
    requires Wired(flow, rows) && (n in active || IsStatus(db, n, Failed))
    ensures Considered(flow, rows, db, active, decisions, n)
  {
  }

  /** The node at `i` was launched: it and the nodes visited before are dealt with. */
  lemma VisitedLaunches(flow: Flow, rows: Rows, db: Db, later: Db, active: map<NodeId, nat>,
                        decisions: map<NodeId, Decision>, i: nat, number: nat)
    requires Wired(flow, rows) && Increasing(flow.ids) && i < |flow.ids| && OnlyRow(db, later, flow.ids[i])
    requires Visited(flow, rows, db, active, decisions, i)
    ensures Visited(flow, rows, later, active[flow.ids[i] := number], decisions, i + 1)
  {
    ActiveIsConsidered(flow, rows, later, active[flow.ids[i] := number], decisions, flow.ids[i]);
    forall j | 0 <= j < i ensures Considered(flow, rows, later, active[flow.ids[i] := number], decisions, flow.ids[j]) {
      StillConsidered(flow, rows, db, later, active, flow.ids[i], number, decisions, flow.ids[j]);
    }
  }

  /** The same when it was refused. */
  lemma VisitedRefuses(flow: Flow, rows: Rows, db: Db, later: Db, active: map<NodeId, nat>,
                       decisions: map<NodeId, Decision>, i: nat)
    requires Wired(flow, rows) && Increasing(flow.ids) && i < |flow.ids| && OnlyRow(db, later, flow.ids[i])
    requires Visited(flow, rows, db, active, decisions, i) && IsStatus(later, flow.ids[i], Failed)
    ensures Visited(flow, rows, later, active, decisions, i + 1)
  {
    ActiveIsConsidered(flow, rows, later, active, decisions, flow.ids[i]);
    forall j | 0 <= j < i ensures Considered(flow, rows, later, active, decisions, flow.ids[j]) {
      StillConsidered(flow, rows, db, later, active, flow.ids[i], 0, decisions, flow.ids[j]);
    }
  }

  /** What the dispatch pass leaves after the node at `i`. */
  ghost predicate DispatchStep(flow: Flow, rows: Rows, db: Db, later: Db, active: map<NodeId, nat>, grown: map<NodeId, nat>,
                               decisions: map<NodeId, Decision>, i: nat, launched: bool)
    requires i < |flow.ids|
  {
    && Dispatching(flow, rows, later, grown, decisions, i + 1)
    && AttemptTotal(flow, later) == AttemptTotal(flow, db) + (if launched then 1 else 0)
    && |grown| == |active| + (if launched then 1 else 0)
    && grown.Keys <= active.Keys + {flow.ids[i]}
    && (!launched ==> grown == active)
    && Moves(flow, rows, db, later, active, decisions, flow.ids[i], launched)
  }

  /** Only a node that was due has been launched or refused. */
  ghost predicate Moves(flow: Flow, rows: Rows, db: Db, later: Db, active: map<NodeId, nat>,
                        decisions: map<NodeId, Decision>, n: NodeId, launched: bool)
    requires Wired(flow, rows)
  {
    && later.control == db.control && later.nodes.Keys == db.nodes.Keys
    && (forall d :: d in db.nodes && d != n ==> later.nodes[d] == db.nodes[d])
    && (launched || later.nodes != db.nodes ==> n in Due(flow, rows, active.Keys, decisions))
  }

  /** What the dispatch pass has moved since it started; `held` is what was running before it. */
  ghost predicate Tracked(flow: Flow, rows: Rows, control: Control, db: Db, held: map<NodeId, nat>, active: map<NodeId, nat>,
                          decisions: map<NodeId, Decision>)
    requires RowsFor(flow, rows)
  {
    && db.control == control && db.nodes.Keys == rows.Keys
    && (forall n :: n in rows && db.nodes[n] != rows[n] ==>
          n in flow.nodes && NeedsMet(flow, rows, decisions, n) && (active == held ==> n in Due(flow, rows, held.Keys, decisions)))
    && (active != held ==> |active| > |held| && Due(flow, rows, held.Keys, decisions) != {})
  }

  /** The same with the counters of the pass, which started with `start`. */
  ghost predicate Dispensing(flow: Flow, rows: Rows, control: Control, db: Db, held: map<NodeId, nat>, active: map<NodeId, nat>,
                             decisions: map<NodeId, Decision>, start: Tally, tally: Tally)
    requires RowsFor(flow, rows)
  {
    && Tracked(flow, rows, control, db, held, active, decisions)
    && (if tally.started then active != held else active == held && tally == start)
    && (Exhausted(flow, start) ==> db.nodes == rows && tally == start)
  }

  lemma TrackedNext(flow: Flow, rows: Rows, control: Control, db: Db, later: Db, held: map<NodeId, nat>,
                    active: map<NodeId, nat>, grown: map<NodeId, nat>, decisions: map<NodeId, Decision>, n: NodeId, launched: bool)
    requires Wired(flow, rows) && Tracked(flow, rows, control, db, held, active, decisions)
    requires Moves(flow, rows, db, later, active, decisions, n, launched)
    requires |grown| == |active| + (if launched then 1 else 0) && (!launched ==> grown == active)
    ensures Tracked(flow, rows, control, later, held, grown, decisions)
    ensures grown == held ==> !launched
  {
  }

  lemma DispensingNext(flow: Flow, rows: Rows, control: Control, db: Db, later: Db, held: map<NodeId, nat>,
                       active: map<NodeId, nat>, grown: map<NodeId, nat>, decisions: map<NodeId, Decision>, i: nat,
                       launched: bool, start: Tally, tally: Tally)
    requires i < |flow.ids| && Wired(flow, rows) && !Exhausted(flow, tally)
    requires Dispensing(flow, rows, control, db, held, active, decisions, start, tally)
    requires DispatchStep(flow, rows, db, later, active, grown, decisions, i, launched)
    ensures Dispensing(flow, rows, control, later, held, grown, decisions, start, Tallied(tally, launched))
  {
    TrackedNext(flow, rows, control, db, later, held, active, grown, decisions, flow.ids[i], launched);
  }

  /** A complete pass that launched nothing has refused exactly what was due. */
  lemma QuietDispatch(flow: Flow, rows: Rows, db: Db, active: map<NodeId, nat>, decisions: map<NodeId, Decision>)
    requires Dispatched(flow, rows, db, active, decisions) && LaunchedFrom(rows, db, active)
    requires Tracked(flow, rows, db.control, db, active, active, decisions)
    ensures db.nodes == Failing(rows, Due(flow, rows, active.Keys, decisions))
  {
    forall n | n in rows
      ensures db.nodes[n] == if n in Due(flow, rows, active.Keys, decisions) then rows[n].(status := Failed) else rows[n]
    {
      assert LaunchRow(rows[n], db, active, n);
      assert n in flow.nodes ==> Considered(flow, rows, db, active, decisions, n);
    }
  }

  /** Everything the pass has launched had its dependencies met, on the rows it read. */
  ghost predicate OnlyReady(flow: Flow, rows: Rows, held: map<NodeId, nat>, active: map<NodeId, nat>,
                            decisions: map<NodeId, Decision>)
  {
    forall n :: n in active && n !in held ==> n in flow.nodes && NeedsMet(flow, rows, decisions, n)
  }

  lemma OnlyReadyNext(flow: Flow, rows: Rows, db: Db, later: Db, held: map<NodeId, nat>, active: map<NodeId, nat>,
                      grown: map<NodeId, nat>, decisions: map<NodeId, Decision>, i: nat, launched: bool)
    requires i < |flow.ids| && OnlyReady(flow, rows, held, active, decisions)
    requires DispatchStep(flow, rows, db, later, active, grown, decisions, i, launched)
    ensures OnlyReady(flow, rows, held, grown, decisions)
  {
  }

  /** What the needs of a node launched by the pass say now: without a join, all of them are good. */
  ghost predicate StartedReady(flow: Flow, db: Db, held: map<NodeId, nat>, active: map<NodeId, nat>,
                               decisions: map<NodeId, Decision>)
  {
    forall n :: n in active && n !in held ==>
      && n in flow.nodes
      && if flow.nodes[n].join.Some? then DecisionOf(decisions, n) == JoinSucceeded
         else forall d :: d in flow.nodes[n].needs ==> d in db.nodes && Good(db.nodes[d].status)
  }

  lemma ReadyStays(flow: Flow, rows: Rows, db: Db, held: map<NodeId, nat>, active: map<NodeId, nat>,
                   decisions: map<NodeId, Decision>)
    requires OnlyReady(flow, rows, held, active, decisions) && LaunchedFrom(rows, db, active)
    ensures StartedReady(flow, db, held, active, decisions)
  {
    forall n, d | n in active && n !in held && flow.nodes[n].join.None? && d in flow.nodes[n].needs
      ensures d in db.nodes && Good(db.nodes[d].status)
    {
      assert LaunchRow(rows[d], db, active, d);
    }
  }

  /** The dispatch pass before the node at `i`, with its local counters. */
  ghost predicate Counting(flow: Flow, rows: Rows, db: Db, active: map<NodeId, nat>, decisions: map<NodeId, Decision>,
                           i: nat, tally: Tally)
  {
    && Dispatching(flow, rows, db, active, decisions, i)
    && tally.attempts == AttemptTotal(flow, db) && tally.slots == flow.budgets.maxConcurrency - |active|
  }

  lemma CountingNext(flow: Flow, rows: Rows, db: Db, later: Db, active: map<NodeId, nat>, grown: map<NodeId, nat>,
                     decisions: map<NodeId, Decision>, i: nat, launched: bool, tally: Tally)
    requires i < |flow.ids| && Counting(flow, rows, db, active, decisions, i, tally)
    requires DispatchStep(flow, rows, db, later, active, grown, decisions, i, launched)
    ensures Counting(flow, rows, later, grown, decisions, i + 1, Tallied(tally, launched))
  {
  }

  lemma DispatchLaunches(flow: Flow, rows: Rows, db: Db, later: Db, active: map<NodeId, nat>,
                         decisions: map<NodeId, Decision>, i: nat, number: nat)
    requires i < |flow.ids| && Dispatching(flow, rows, db, active, decisions, i)
    requires flow.ids[i] !in active && Launched(db, later, flow.ids[i])
    requires flow.ids[i] in Due(flow, rows, active.Keys, decisions)
    ensures DispatchStep(flow, rows, db, later, active, active[flow.ids[i] := number], decisions, i, true)
  {
    LaunchKeeps(rows, db, later, active, flow.ids[i], number);
    RestAsRead(flow, rows, db, later, i);
    VisitedLaunches(flow, rows, db, later, active, decisions, i, number);
    LaunchCounts(flow, db, later, flow.ids[i]);
    OneMore(active, flow.ids[i], number);
  }

  lemma DispatchRefuses(flow: Flow, rows: Rows, db: Db, later: Db, active: map<NodeId, nat>,
                        decisions: map<NodeId, Decision>, i: nat)
    requires i < |flow.ids| && Dispatching(flow, rows, db, active, decisions, i)
    requires flow.ids[i] !in active && Refused(db, later, flow.ids[i])
    requires IsStatus(db, flow.ids[i], Pending) && Accepted(db, flow.ids[i]) == map[]
    requires flow.ids[i] in Due(flow, rows, active.Keys, decisions)
    ensures DispatchStep(flow, rows, db, later, active, active, decisions, i, false)
  {
    RefusalKeeps(rows, db, later, active, flow.ids[i]);
    RestAsRead(flow, rows, db, later, i);
    VisitedRefuses(flow, rows, db, later, active, decisions, i);
    RefusalCounts(flow, db, later, flow.ids[i]);
  }

  lemma DispatchLeaves(flow: Flow, rows: Rows, db: Db, active: map<NodeId, nat>, decisions: map<NodeId, Decision>, i: nat)
    requires i < |flow.ids| && Dispatching(flow, rows, db, active, decisions, i)
    requires Considered(flow, rows, db, active, decisions, flow.ids[i])
    ensures DispatchStep(flow, rows, db, db, active, active, decisions, i, false)
  {
  }

  /** What the dispatch pass asks before it launches. */
  lemma DispatchingReady(flow: Flow, rows: Rows, db: Db, active: map<NodeId, nat>, decisions: map<NodeId, Decision>, i: nat)
    requires i < |flow.ids| && Dispatching(flow, rows, db, active, decisions, i)
    requires flow.ids[i] in flow.nodes && rows[flow.ids[i]].status.Pending?
    requires Dispatchable(flow, flow.ids[i], rows, active.Keys, decisions) && NeedsMet(flow, rows, decisions, flow.ids[i])
    ensures IsStatus(db, flow.ids[i], Pending) && Ready(flow, db, active.Keys, flow.ids[i])
  {
    assert AsRead(rows, db, flow.ids[i]);
    ReadyNow(flow, rows, db, active, decisions, flow.ids[i]);
  }

  /** Every node ready on the rows read now runs, is held back as a reserve voter, or was refused. */
  ghost predicate Dispatched(flow: Flow, rows: Rows, db: Db, active: map<NodeId, nat>, decisions: map<NodeId, Decision>) {
    Wired(flow, rows) && forall n :: n in flow.nodes ==> Considered(flow, rows, db, active, decisions, n)
  }

  lemma DispatchingAtLast(flow: Flow, rows: Rows, db: Db, active: map<NodeId, nat>, decisions: map<NodeId, Decision>)
    requires Dispatching(flow, rows, db, active, decisions, |flow.ids|)
    ensures Dispatched(flow, rows, db, active, decisions)
  {
    forall n | n in flow.nodes ensures Considered(flow, rows, db, active, decisions, n) {
      var j :| 0 <= j < |flow.ids| && flow.ids[j] == n;
    }
  }

  /** How the dispatch pass ends: complete, or out of room, or interrupted after a launch. */
  lemma DispatchEnds(flow: Flow, rows: Rows, db: Db, held: map<NodeId, nat>, active: map<NodeId, nat>,
                     decisions: map<NodeId, Decision>, start: Tally, tally: Tally, full: bool)
    requires Wired(flow, rows) && LaunchedFrom(rows, db, active) && !start.started
    requires Dispensing(flow, rows, db.control, db, held, active, decisions, start, tally)
    requires if full then Dispatching(flow, rows, db, active, decisions, |flow.ids|) else Exhausted(flow, tally) || tally.started
    ensures full ==> Dispatched(flow, rows, db, active, decisions)
    ensures if active == held
            then db.nodes == if Exhausted(flow, start) then rows else Failing(rows, Due(flow, rows, active.Keys, decisions))
            else !Exhausted(flow, start)
  {
    if full {
      DispatchingAtLast(flow, rows, db, active, decisions);
      if active == held {
        QuietDispatch(flow, rows, db, active, decisions);
      }
    }
  }

  // ---------------------------------------------------------------- reserve voters

  /** The rows read, when nothing was launched since: only refused nodes have moved on. */
  ghost predicate ReadAs(rows: Rows, db: Db) { LaunchedFrom(rows, db, map[]) }

  /** A quorum that is decided on the rows read. */
  predicate DecidedQuorum(flow: Flow, rows: Rows, c: NodeId) {
    && c in flow.nodes && flow.nodes[c].join.Some? && IsQuorum(flow.nodes[c].join.value)
    && flow.nodes[c].needs <= rows.Keys
    && Snapshot(flow.nodes[c].join.value, flow.nodes[c].needs, rows).decision != Waiting
  }

  /** A voter that was pending on the rows read has been launched or refused. */
  predicate Claimed(rows: Rows, db: Db, active: map<NodeId, nat>, d: NodeId) {
    d in rows && rows[d].status.Pending? ==> d in active || IsStatus(db, d, Failed)
  }

  /** Claimed voters stay claimed. */
  ghost predicate OnlyGrows(db: Db, later: Db, active: map<NodeId, nat>, grown: map<NodeId, nat>) {
    && active.Keys <= grown.Keys
    && forall d :: IsStatus(db, d, Failed) ==> d in grown || IsStatus(later, d, Failed)
  }

  lemma ReserveStatus(flow: Flow, rows: Rows, db: Db, active: map<NodeId, nat>, n: NodeId)
    requires rows.Keys == flow.nodes.Keys && LaunchedFrom(rows, db, active)
    requires n in rows && rows[n].status.Pending? && n !in active
    ensures IsStatus(db, n, Pending) || RefusedBefore(flow, db, n)
  {
    assert LaunchRow(rows[n], db, active, n);
  }

  /** What claiming the voter `n` leaves. */
  ghost predicate Claiming(flow: Flow, rows: Rows, db: Db, later: Db, active: map<NodeId, nat>, grown: map<NodeId, nat>,
                           n: NodeId, launched: bool)
  {
    && LaunchedFrom(rows, later, grown) && Claimed(rows, later, grown, n) && OnlyGrows(db, later, active, grown)
    && AttemptTotal(flow, later) == AttemptTotal(flow, db) + (if launched then 1 else 0)
    && |grown| == |active| + (if launched then 1 else 0)
    && (!launched && ReadAs(rows, db) ==> ReadAs(rows, later))
    && later.control == db.control && (forall d :: d in db.nodes && d != n ==> d in later.nodes && later.nodes[d] == db.nodes[d])
    && (!launched ==> grown == active)
  }

  lemma ClaimLaunches(flow: Flow, rows: Rows, db: Db, later: Db, active: map<NodeId, nat>, n: NodeId, number: nat)
    requires Increasing(flow.ids) && n in flow.ids && n in rows && n !in active
    requires LaunchedFrom(rows, db, active) && Launched(db, later, n)
    ensures Claiming(flow, rows, db, later, active, active[n := number], n, true)
  {
    LaunchKeeps(rows, db, later, active, n, number);
    LaunchCounts(flow, db, later, n);
    OneMore(active, n, number);
  }

  lemma ClaimRefuses(flow: Flow, rows: Rows, db: Db, later: Db, active: map<NodeId, nat>, n: NodeId)
    requires n in flow.ids && n in rows && n !in active && Accepted(db, n) == map[]
    requires IsStatus(db, n, Pending) || IsStatus(db, n, Failed)
    requires LaunchedFrom(rows, db, active) && Refused(db, later, n)
    ensures Claiming(flow, rows, db, later, active, active, n, false)
  {
    RefusalKeeps(rows, db, later, active, n);
    RefusalCounts(flow, db, later, n);
    if ReadAs(rows, db) {
      RefusalKeeps(rows, db, later, map[], n);
    }
  }

  /** A voter that is pending on the rows read may be launched, or was refused before. */
  lemma MayClaim(flow: Flow, rows: Rows, db: Db, active: map<NodeId, nat>, c: NodeId, n: NodeId)
    requires Wired(flow, rows) && LaunchedFrom(rows, db, active) && DecidedQuorum(flow, rows, c)
    requires n in flow.nodes[c].needs && rows[n].status.Pending? && n !in active
    requires |active| < flow.budgets.maxConcurrency && AttemptTotal(flow, db) < flow.budgets.maxTotalAttempts
    requires IsStatus(db, n, Pending) ==> Accepted(db, n) == map[]
    ensures CanLaunch(flow, db, active, n) || RefusedBefore(flow, db, n)
    ensures Accepted(db, n) == map[] && (IsStatus(db, n, Pending) || IsStatus(db, n, Failed))
  {
    ReserveNow(flow, rows, db, active, c, n);
    ReserveStatus(flow, rows, db, active, n);
  }

  /** The voters at the first `i` positions are claimed. */
  ghost predicate ClaimedTo(flow: Flow, rows: Rows, db: Db, active: map<NodeId, nat>, c: NodeId, i: nat)
    requires c in flow.nodes && i <= |flow.ids|
  {
    forall j :: 0 <= j < i && flow.ids[j] in flow.nodes[c].needs ==> Claimed(rows, db, active, flow.ids[j])
  }

  ghost predicate AllClaimed(flow: Flow, rows: Rows, db: Db, active: map<NodeId, nat>, c: NodeId) {
    c in flow.nodes && forall d :: d in flow.nodes[c].needs ==> Claimed(rows, db, active, d)
  }

  lemma ClaimedNext(flow: Flow, rows: Rows, db: Db, later: Db, active: map<NodeId, nat>, grown: map<NodeId, nat>,
                    c: NodeId, i: nat)
    requires c in flow.nodes && i < |flow.ids| && ClaimedTo(flow, rows, db, active, c, i)
    requires OnlyGrows(db, later, active, grown)
    requires flow.ids[i] in flow.nodes[c].needs ==> Claimed(rows, later, grown, flow.ids[i])
    ensures ClaimedTo(flow, rows, later, grown, c, i + 1)
  {
  }

  lemma AllAreClaimed(flow: Flow, rows: Rows, db: Db, active: map<NodeId, nat>, c: NodeId)
    requires Wired(flow, rows) && Listed(flow) && c in flow.nodes && ClaimedTo(flow, rows, db, active, c, |flow.ids|)
    ensures AllClaimed(flow, rows, db, active, c)
  {
    forall d | d in flow.nodes[c].needs ensures Claimed(rows, db, active, d) {
      assert d in flow.ids;
    }
  }

  /** Every voter of every quorum decided on the rows read, for the consumers at the first `k` positions. */
  ghost predicate QuorumsClaimed(flow: Flow, order: seq<NodeId>, rows: Rows, db: Db, active: map<NodeId, nat>, k: nat)
    requires k <= |order|
  {
    forall j :: 0 <= j < k && DecidedQuorum(flow, rows, order[j]) ==> AllClaimed(flow, rows, db, active, order[j])
  }

  lemma QuorumsNext(flow: Flow, order: seq<NodeId>, rows: Rows, db: Db, later: Db, active: map<NodeId, nat>,
                    grown: map<NodeId, nat>, k: nat)
    requires k < |order| && QuorumsClaimed(flow, order, rows, db, active, k) && OnlyGrows(db, later, active, grown)
    requires DecidedQuorum(flow, rows, order[k]) ==> AllClaimed(flow, rows, later, grown, order[k])
    ensures QuorumsClaimed(flow, order, rows, later, grown, k + 1)
  {
  }

  /** The local counters of a launching pass. */
  datatype Tally = Tally(attempts: int, slots: int, started: bool)

  ghost predicate Counted(flow: Flow, rows: Rows, db: Db, active: map<NodeId, nat>, tally: Tally) {
    && tally.attempts == AttemptTotal(flow, db) && tally.slots == flow.budgets.maxConcurrency - |active|
    && LaunchedFrom(rows, db, active) && (!tally.started ==> ReadAs(rows, db))
  }

  /** The tally after claiming one voter. */
  function Tallied(tally: Tally, launched: bool): Tally {
    if launched then Tally(tally.attempts + 1, tally.slots - 1, true) else tally
  }

  lemma CountedNext(flow: Flow, rows: Rows, db: Db, later: Db, active: map<NodeId, nat>, grown: map<NodeId, nat>,
                    n: NodeId, launched: bool, tally: Tally)
    requires Counted(flow, rows, db, active, tally) && Claiming(flow, rows, db, later, active, grown, n, launched)
    ensures Counted(flow, rows, later, grown, Tallied(tally, launched))
  {
  }

  predicate VotesIn(flow: Flow, rows: Rows, c: NodeId, n: NodeId) {
    DecidedQuorum(flow, rows, c) && n in flow.nodes[c].needs
  }

  /** Reserve voters are claimed once their quorum has won or lost, and for no other join. */
  lemma QuorumIsDecided(flow: Flow, rows: Rows, c: NodeId)
    requires RowsFor(flow, rows)
    ensures DecidedQuorum(flow, rows, c) <==>
      && c in flow.nodes && flow.nodes[c].join.Some? && !flow.nodes[c].join.value.All? && !flow.nodes[c].join.value.AllSettled?
      && (Wins(flow.nodes[c].join.value, flow.nodes[c].needs, rows) || Loses(flow.nodes[c].join.value, flow.nodes[c].needs, rows))
  {
    if c in flow.nodes && flow.nodes[c].join.Some? {
      DecisionByVotes(flow.nodes[c].join.value, flow.nodes[c].needs, rows);
    }
  }

  /** Voters of decided quorums that are pending on the rows read and not running. */
  function Voters(flow: Flow, order: seq<NodeId>, rows: Rows, active: set<NodeId>): set<NodeId> {
    set n | n in rows && rows[n].status.Pending? && n !in active
            && exists k :: 0 <= k < |order| && VotesIn(flow, rows, order[k], n)
  }

  predicate Exhausted(flow: Flow, tally: Tally) {
    tally.slots <= 0 || tally.attempts >= flow.budgets.maxTotalAttempts
  }

  /** What the reserve pass starts with: what is running, the voters it may launch, and its counters. */
  datatype Mark = Mark(control: Control, held: map<NodeId, nat>, voters: set<NodeId>, start: Tally)

  predicate Shrinks(tally: Tally, later: Tally) { later.slots <= tally.slots && later.attempts >= tally.attempts }

  /** What the reserve pass has moved since then. */
  ghost predicate Marked(flow: Flow, rows: Rows, db: Db, active: map<NodeId, nat>, mark: Mark, tally: Tally) {
    && db.control == mark.control && db.nodes.Keys == rows.Keys && mark.held.Keys <= active.Keys
    && (forall n :: n in rows && db.nodes[n] != rows[n] ==> n in mark.voters && !Exhausted(flow, mark.start))
    && (if tally.started then |active| > |mark.held| && mark.voters != {} && !Exhausted(flow, mark.start)
        else active == mark.held && tally == mark.start)
    && Shrinks(mark.start, tally)
  }

  lemma MarkedNext(flow: Flow, rows: Rows, db: Db, later: Db, active: map<NodeId, nat>, grown: map<NodeId, nat>, mark: Mark,
                   tally: Tally, n: NodeId, launched: bool)
    requires Marked(flow, rows, db, active, mark, tally) && n in mark.voters && !Exhausted(flow, tally)
    requires Claiming(flow, rows, db, later, active, grown, n, launched)
    ensures Marked(flow, rows, later, grown, mark, Tallied(tally, launched))
  {
  }

  /** The voters of one quorum are among those the pass may launch. */
  predicate Covers(flow: Flow, rows: Rows, mark: Mark, c: NodeId) {
    DecidedQuorum(flow, rows, c) && forall d :: d in flow.nodes[c].needs ==> MayVote(rows, mark, d)
  }

  predicate MayVote(rows: Rows, mark: Mark, d: NodeId) {
    d in rows && rows[d].status.Pending? && d !in mark.held ==> d in mark.voters
  }

  lemma VotersOf(flow: Flow, order: seq<NodeId>, rows: Rows, mark: Mark, k: nat)
    requires k < |order| && DecidedQuorum(flow, rows, order[k]) && mark.voters == Voters(flow, order, rows, mark.held.Keys)
    ensures Covers(flow, rows, mark, order[k])
  {
    forall d | d in flow.nodes[order[k]].needs ensures MayVote(rows, mark, d) {
      assert VotesIn(flow, rows, order[k], d);
    }
  }

  /** A complete pass that launched nothing has refused exactly the voters. */
  lemma QuietReserve(flow: Flow, order: seq<NodeId>, rows: Rows, db: Db, active: map<NodeId, nat>, mark: Mark)
    requires Wired(flow, rows) && QuorumsClaimed(flow, order, rows, db, active, |order|) && LaunchedFrom(rows, db, active)
    requires Marked(flow, rows, db, active, mark, mark.start) && !mark.start.started
    requires mark.voters == Voters(flow, order, rows, active.Keys)
    ensures db.nodes == Failing(rows, mark.voters)
  {
    forall n | n in rows ensures db.nodes[n] == if n in mark.voters then rows[n].(status := Failed) else rows[n] {
      assert LaunchRow(rows[n], db, active, n);
      if n in mark.voters {
        var k :| 0 <= k < |order| && VotesIn(flow, rows, order[k], n);
        assert Claimed(rows, db, active, n);
      }
    }
  }

  /** How the reserve pass ends when it has launched nothing. */
  lemma ReserveEnds(flow: Flow, order: seq<NodeId>, rows: Rows, db: Db, active: map<NodeId, nat>, mark: Mark, tally: Tally, full: bool)
    requires Wired(flow, rows) && LaunchedFrom(rows, db, active) && Marked(flow, rows, db, active, mark, tally)
    requires mark.voters == Voters(flow, order, rows, mark.held.Keys) && !mark.start.started
    requires if full then QuorumsClaimed(flow, order, rows, db, active, |order|) else Exhausted(flow, tally)
    ensures !tally.started ==> db.nodes == if Exhausted(flow, mark.start) then rows else Failing(rows, mark.voters)
  {
    if full && !tally.started {
      QuietReserve(flow, order, rows, db, active, mark);
    }
    assert Exhausted(flow, mark.start) ==> db.nodes == rows;
  }

  // ---------------------------------------------------------------- join evidence

  lemma ReadAsLags(rows: Rows, db: Db)
    requires ReadAs(rows, db)
    ensures Lags(rows, db.nodes)
  {
    forall d | d in rows ensures LagRow(rows[d], db.nodes[d]) {
      assert LaunchRow(rows[d], db, map[], d);
    }
  }

  /** The evidence the pass offers for join `n`. */
  function Evidence(flow: Flow, rows: Rows, n: NodeId): JoinRow
    requires n in flow.nodes && flow.nodes[n].join.Some? && flow.nodes[n].needs <= rows.Keys
  {
    Snapshot(flow.nodes[n].join.value, flow.nodes[n].needs, rows)
  }

  /** The row recorded for join `n`: the frozen row if there was one, else the evidence. */
  predicate JoinSaved(flow: Flow, rows: Rows, joins: JoinTable, later: JoinTable, n: NodeId)
    requires n in flow.nodes && flow.nodes[n].join.Some? && flow.nodes[n].needs <= rows.Keys
  {
    n in later && later[n] == if IsFrozen(joins, n) then joins[n] else Evidence(flow, rows, n)
  }

  predicate SameJoin(joins: JoinTable, later: JoinTable, n: NodeId) {
    (n in later <==> n in joins) && (n in joins ==> later[n] == joins[n])
  }

  predicate IsJoin(flow: Flow, n: NodeId) { n in flow.nodes && flow.nodes[n].join.Some? }

  /** The first `i` ids. */
  function Heads(flow: Flow, i: nat): set<NodeId>
    requires i <= |flow.ids|
  {
    set j | 0 <= j < i :: flow.ids[j]
  }

  /** The joins at the first `i` positions are recorded. */
  ghost predicate Persisted(flow: Flow, rows: Rows, joins: JoinTable, later: JoinTable, decisions: map<NodeId, Decision>, i: nat)
    requires RowsFor(flow, rows) && i <= |flow.ids|
  {
    && Agree(later, decisions)
    && (forall j :: 0 <= j < i && flow.ids[j] in flow.nodes && flow.nodes[flow.ids[j]].join.Some? ==>
          flow.ids[j] in decisions && JoinSaved(flow, rows, joins, later, flow.ids[j]))
    && (forall n :: n !in Heads(flow, i) || !IsJoin(flow, n) ==> SameJoin(joins, later, n))
    && forall n :: n in decisions ==> IsJoin(flow, n)
  }

  lemma PersistNext(flow: Flow, rows: Rows, joins: JoinTable, mid: JoinTable, later: JoinTable,
                    decisions: map<NodeId, Decision>, i: nat)
    requires RowsFor(flow, rows) && Increasing(flow.ids) && i < |flow.ids|
    requires Persisted(flow, rows, joins, mid, decisions, i)
    requires flow.ids[i] in flow.nodes && flow.nodes[flow.ids[i]].join.Some?
    requires later == if IsFrozen(mid, flow.ids[i]) then mid else mid[flow.ids[i] := Evidence(flow, rows, flow.ids[i])]
    ensures Persisted(flow, rows, joins, later, decisions[flow.ids[i] := later[flow.ids[i]].decision], i + 1)
  {
    assert flow.ids[i] !in Heads(flow, i) && SameJoin(joins, mid, flow.ids[i]);
    assert Heads(flow, i + 1) == Heads(flow, i) + {flow.ids[i]};
  }

  lemma PersistSkips(flow: Flow, rows: Rows, joins: JoinTable, mid: JoinTable, decisions: map<NodeId, Decision>, i: nat)
    requires RowsFor(flow, rows) && i < |flow.ids| && Persisted(flow, rows, joins, mid, decisions, i)
    requires flow.ids[i] in flow.nodes && flow.nodes[flow.ids[i]].join.None?
    ensures Persisted(flow, rows, joins, mid, decisions, i + 1)
  {
    assert Heads(flow, i + 1) == Heads(flow, i) + {flow.ids[i]};
  }

  /** Every join has its decision. */
  predicate AllDecided(flow: Flow, decisions: map<NodeId, Decision>) {
    forall n :: n in flow.nodes && flow.nodes[n].join.Some? ==> n in decisions
  }

  /** Every join has its evidence recorded. */
  predicate AllSaved(flow: Flow, rows: Rows, joins: JoinTable, later: JoinTable) {
    RowsFor(flow, rows) && forall n :: n in flow.nodes && flow.nodes[n].join.Some? ==> JoinSaved(flow, rows, joins, later, n)
  }

  /** The join table with the evidence of the rows in every join that is not frozen. */
  function SavedJoins(flow: Flow, rows: Rows, joins: JoinTable): JoinTable
    requires RowsFor(flow, rows)
  {
    map n | n in joins.Keys + flow.nodes.Keys && (n in joins || IsJoin(flow, n)) ::
      if IsJoin(flow, n) && !IsFrozen(joins, n) then Evidence(flow, rows, n) else joins[n]
  }

  /** The decisions recorded for the joins of the workflow. */
  function Verdicts(flow: Flow, joins: JoinTable): map<NodeId, Decision> {
    map n | n in joins && IsJoin(flow, n) :: joins[n].decision
  }

  lemma PersistedAll(flow: Flow, rows: Rows, joins: JoinTable, later: JoinTable, decisions: map<NodeId, Decision>)
    requires RowsFor(flow, rows) && Listed(flow) && Persisted(flow, rows, joins, later, decisions, |flow.ids|)
    ensures AllSaved(flow, rows, joins, later) && AllDecided(flow, decisions)
    ensures later == SavedJoins(flow, rows, joins) && decisions == Verdicts(flow, later)
  {
    forall n | IsJoin(flow, n) ensures n in decisions && JoinSaved(flow, rows, joins, later, n) {
      assert n in flow.ids;
    }
    forall n ensures n in later <==> n in SavedJoins(flow, rows, joins) {
      assert IsJoin(flow, n) || SameJoin(joins, later, n);
    }
    forall n | n in later ensures later[n] == SavedJoins(flow, rows, joins)[n] {
      assert IsJoin(flow, n) || SameJoin(joins, later, n);
    }
  }

  /** Recording the evidence again from rows that have not changed writes what is there already. */
  lemma EvidenceSettles(flow: Flow, rows: Rows, joins: JoinTable)
    requires RowsFor(flow, rows)
    ensures SavedJoins(flow, rows, SavedJoins(flow, rows, joins)) == SavedJoins(flow, rows, joins)
  {
  }

  lemma RowsUnchangedIsRead(rows: Rows, db: Db)
    requires rows == db.nodes
    ensures ReadAs(rows, db)
  {
  }

  lemma ReadAsStays(rows: Rows, db: Db, later: Db)
    requires ReadAs(rows, db)
    requires later.nodes == db.nodes && later.artifacts == db.artifacts && later.progress == db.progress
    ensures ReadAs(rows, later)
  {
    forall d | d in rows ensures LaunchRow(rows[d], later, map[], d) {
      assert LaunchRow(rows[d], db, map[], d);
    }
  }

  /** The join transaction of the pass may be issued. */
  lemma MayPersist(flow: Flow, rows: Rows, db: Db, n: NodeId)
    requires ReadAs(rows, db) && RowsFor(flow, rows) && n in flow.nodes && flow.nodes[n].join.Some?
    ensures JoinSeen(flow, db, n, Evidence(flow, rows, n))
  {
    ReadAsLags(rows, db);
    assert JoinOf(flow, rows, n, Evidence(flow, rows, n));
  }

  // ---------------------------------------------------------------- blocking and skipping

  /** What the pass makes of a node that is pending on the rows read. */
  predicate Blocks(flow: Flow, rows: Rows, decisions: map<NodeId, Decision>, n: NodeId)
    requires RowsFor(flow, rows) && n in flow.nodes
  {
    && rows[n].status.Pending?
    && if flow.nodes[n].join.Some? then n in decisions && decisions[n] == JoinFailed
       else exists d :: d in flow.nodes[n].needs && Stops(rows[d].status)
  }

  predicate Skips(flow: Flow, rows: Rows, decisions: map<NodeId, Decision>, n: NodeId)
    requires RowsFor(flow, rows) && n in flow.nodes
  {
    && rows[n].status.Pending? && flow.nodes[n].join.None? && !Blocks(flow, rows, decisions, n)
    && exists d :: d in flow.nodes[n].needs && rows[d].status.Skipped?
  }

  function BlockedRow(flow: Flow, rows: Rows, decisions: map<NodeId, Decision>, n: NodeId, row: NodeRow): NodeRow
    requires RowsFor(flow, rows) && n in flow.nodes
  {
    if Blocks(flow, rows, decisions, n) then row.(status := Blocked)
    else if Skips(flow, rows, decisions, n) then row.(status := Skipped)
    else row
  }

  /** The nodes at the first `i` positions have been blocked or skipped as the rows read demand. */
  ghost predicate Blocking(flow: Flow, rows: Rows, decisions: map<NodeId, Decision>, nodes: Rows, later: Rows, i: nat)
    requires RowsFor(flow, rows) && i <= |flow.ids|
  {
    && later.Keys == nodes.Keys
    && forall j :: 0 <= j < |flow.ids| ==>
         flow.ids[j] in flow.nodes && flow.ids[j] in nodes
         && later[flow.ids[j]] ==
            if j < i then BlockedRow(flow, rows, decisions, flow.ids[j], nodes[flow.ids[j]]) else nodes[flow.ids[j]]
  }

  lemma BlockingNext(flow: Flow, rows: Rows, decisions: map<NodeId, Decision>, nodes: Rows, mid: Rows, i: nat)
    requires RowsFor(flow, rows) && Increasing(flow.ids) && i < |flow.ids| && Blocking(flow, rows, decisions, nodes, mid, i)
    ensures var n := flow.ids[i];
      var later := mid[n := BlockedRow(flow, rows, decisions, n, mid[n])];
      Blocking(flow, rows, decisions, nodes, later, i + 1)
      && (!Blocks(flow, rows, decisions, n) && !Skips(flow, rows, decisions, n) ==> later == mid)
  {
  }

  /** The whole pass, as one function of the rows. */
  function BlockedRows(flow: Flow, rows: Rows, decisions: map<NodeId, Decision>, nodes: Rows): Rows
    requires RowsFor(flow, rows)
  {
    map n | n in nodes :: if n in flow.nodes then BlockedRow(flow, rows, decisions, n, nodes[n]) else nodes[n]
  }

  lemma BlockedAll(flow: Flow, rows: Rows, decisions: map<NodeId, Decision>, nodes: Rows, later: Rows)
    requires RowsFor(flow, rows) && Listed(flow) && nodes.Keys == flow.nodes.Keys
    requires Blocking(flow, rows, decisions, nodes, later, |flow.ids|)
    ensures later == BlockedRows(flow, rows, decisions, nodes)
  {
    forall n | n in nodes ensures later[n] == BlockedRow(flow, rows, decisions, n, nodes[n]) {
      assert n in flow.ids;
    }
  }

  lemma BlockingAtFirst(flow: Flow, rows: Rows, decisions: map<NodeId, Decision>, nodes: Rows)
    requires RowsFor(flow, rows) && Listed(flow) && nodes.Keys == flow.nodes.Keys
    ensures Blocking(flow, rows, decisions, nodes, nodes, 0)
  {
    forall j | 0 <= j < |flow.ids| ensures flow.ids[j] in flow.nodes { assert flow.ids[j] in flow.ids; }
  }

  lemma BlockedRowLags(flow: Flow, rows: Rows, decisions: map<NodeId, Decision>, n: NodeId, row: NodeRow)
    requires RowsFor(flow, rows) && n in flow.nodes && LagRow(rows[n], row)
    ensures LagRow(rows[n], BlockedRow(flow, rows, decisions, n, row))
  {
  }

  lemma BlockingRowLags(flow: Flow, rows: Rows, decisions: map<NodeId, Decision>, nodes: Rows, mid: Rows, i: nat, d: NodeId)
    requires RowsFor(flow, rows) && Listed(flow) && i <= |flow.ids| && Blocking(flow, rows, decisions, nodes, mid, i)
    requires d in flow.nodes && d in nodes && LagRow(rows[d], nodes[d])
    ensures LagRow(rows[d], mid[d])
  {
    assert d in flow.ids;
    BlockedRowLags(flow, rows, decisions, d, nodes[d]);
  }

  /** In the middle of the pass the rows read still lag behind. */
  lemma BlockingLags(flow: Flow, rows: Rows, decisions: map<NodeId, Decision>, db: Db, mid: Rows, i: nat)
    requires Wired(flow, rows) && Listed(flow) && i <= |flow.ids| && ReadAs(rows, db)
    requires Blocking(flow, rows, decisions, db.nodes, mid, i)
    ensures Lags(rows, mid)
  {
    ReadAsLags(rows, db);
    forall d | d in rows ensures LagRow(rows[d], mid[d]) {
      assert LagRow(rows[d], db.nodes[d]);
      BlockingRowLags(flow, rows, decisions, db.nodes, mid, i, d);
    }
  }

  /** The node at `i`, if pending on the rows read, is still pending or was refused. */
  lemma BlockingReaches(flow: Flow, rows: Rows, decisions: map<NodeId, Decision>, db: Db, mid: Db, i: nat)
    requires Wired(flow, rows) && Listed(flow) && i < |flow.ids| && ReadAs(rows, db)
    requires mid == db.(nodes := mid.nodes) && Blocking(flow, rows, decisions, db.nodes, mid.nodes, i)
    requires rows[flow.ids[i]].status.Pending?
    ensures SeenPending(flow, mid, rows, flow.ids[i])
  {
    BlockingLags(flow, rows, decisions, db, mid.nodes, i);
    assert LaunchRow(rows[flow.ids[i]], db, map[], flow.ids[i]);
  }

  /** What the pass writes for a node, if anything. */
  lemma MayBlock(flow: Flow, rows: Rows, decisions: map<NodeId, Decision>, db: Db, n: NodeId)
    requires Wired(flow, rows) && Agree(db.control.joins, decisions) && SeenPending(flow, db, rows, n)
    ensures Blocks(flow, rows, decisions, n) ==> CanBlock(flow, db, rows, n)
    ensures Skips(flow, rows, decisions, n) ==> CanSkip(flow, db, rows, n)
  {
  }

  /** A need that has settled without the success somebody waits for. */
  predicate Spoils(s: Status) { s.Failed? || s.Blocked? || s.Cancelled? || s.Uncertain? }

  /**
   The pass in statuses.  Of the nodes that were pending, one with a join is blocked if and only if its join has failed.
   One without a join is blocked if and only if a need has failed, is blocked, cancelled or uncertain; it is skipped if
   and only if none has and some need was skipped.  All others keep their rows.
   */
  lemma BlockedStatuses(flow: Flow, rows: Rows, decisions: map<NodeId, Decision>, n: NodeId)
    requires RowsFor(flow, rows) && n in flow.nodes && rows[n].status.Pending?
    ensures var s, needs := BlockedRows(flow, rows, decisions, rows)[n].status, flow.nodes[n].needs;
      var spoilt := exists d :: d in needs && Spoils(rows[d].status);
      var dropped := exists d :: d in needs && rows[d].status.Skipped?;
      && (s.Blocked? <==> if flow.nodes[n].join.Some? then n in decisions && decisions[n] == JoinFailed else spoilt)
      && (s.Skipped? <==> flow.nodes[n].join.None? && !spoilt && dropped)
      && (s.Pending? || s.Blocked? || s.Skipped?)
    ensures forall d :: d in rows && !rows[d].status.Pending? ==> BlockedRows(flow, rows, decisions, rows)[d] == rows[d]
  {
    assert forall d :: d in flow.nodes[n].needs ==> (Spoils(rows[d].status) <==> Stops(rows[d].status));
    assert BlockedRows(flow, rows, decisions, rows)[n] == BlockedRow(flow, rows, decisions, n, rows[n]);
  }

  /** Nobody is forgotten: a pending node whose needs have all settled is blocked, is skipped, or may start. */
  lemma NobodyIsForgotten(flow: Flow, rows: Rows, decisions: map<NodeId, Decision>, n: NodeId)
    requires RowsFor(flow, rows) && n in flow.nodes && rows[n].status.Pending?
    requires flow.nodes[n].join.None? && forall d :: d in flow.nodes[n].needs ==> !rows[d].status.Pending? && !rows[d].status.Running?
    ensures BlockedRows(flow, rows, decisions, rows)[n].status.Pending? <==> NeedsMet(flow, rows, decisions, n)
  {
    BlockedStatuses(flow, rows, decisions, n);
  }

  /**
   A failure moves one dependency further with each pass.  On a chain whose first node has failed, one pass blocks
   the second node and leaves the third pending, and only the next one reaches it.  `Stalls` says when the loop ends
   before there is a next one.
   */
  lemma FailureTravelsOneLevel(flow: Flow, rows: Rows, decisions: map<NodeId, Decision>, a: NodeId, b: NodeId, c: NodeId)
    requires RowsFor(flow, rows) && {a, b, c} <= flow.nodes.Keys && a != b && b != c && a != c
    requires flow.nodes[b].needs == {a} && flow.nodes[c].needs == {b}
    requires flow.nodes[b].join.None? && flow.nodes[c].join.None?
    requires rows[a].status.Failed? && rows[b].status.Pending? && rows[c].status.Pending?
    ensures var after := BlockedRows(flow, rows, decisions, rows);
      after[a].status.Failed? && after[b].status.Blocked? && after[c].status.Pending?
    ensures var after := BlockedRows(flow, rows, decisions, rows);
      RowsFor(flow, after) && BlockedRows(flow, after, decisions, after)[c].status.Blocked?
  {
    var after := BlockedRows(flow, rows, decisions, rows);
    assert a in flow.nodes[b].needs && b in flow.nodes[c].needs;
    assert after[b] == BlockedRow(flow, rows, decisions, b, rows[b]);
    assert after[c] == BlockedRow(flow, rows, decisions, c, rows[c]);
    assert BlockedRows(flow, after, decisions, after)[c] == BlockedRow(flow, after, decisions, c, after[c]);
  }

  // ---------------------------------------------------------------- the attempt budget is used up

  function ExhaustedRow(row: NodeRow): NodeRow { if row.status.Pending? then row.(status := Failed) else row }

  function ExhaustedRows(nodes: Rows): Rows { map n | n in nodes :: ExhaustedRow(nodes[n]) }

  /** The tables without pending nodes. */
  function Drained(db: Db): Db { db.(nodes := ExhaustedRows(db.nodes)) }

  ghost predicate Exhausting(flow: Flow, nodes: Rows, later: Rows, i: nat)
    requires i <= |flow.ids|
  {
    && later.Keys == nodes.Keys
    && (forall n :: n in nodes ==> later[n] == nodes[n] || later[n] == ExhaustedRow(nodes[n]))
    && (forall j :: 0 <= j < i ==> flow.ids[j] in nodes && later[flow.ids[j]] == ExhaustedRow(nodes[flow.ids[j]]))
    && forall j :: i <= j < |flow.ids| ==> flow.ids[j] in nodes && later[flow.ids[j]] == nodes[flow.ids[j]]
  }

  lemma ExhaustingAtFirst(flow: Flow, nodes: Rows)
    requires Listed(flow) && nodes.Keys == flow.nodes.Keys
    ensures Exhausting(flow, nodes, nodes, 0)
  {
    forall j | 0 <= j < |flow.ids| ensures flow.ids[j] in nodes { assert flow.ids[j] in flow.ids; }
  }

  lemma ExhaustingNext(flow: Flow, nodes: Rows, mid: Rows, i: nat)
    requires Increasing(flow.ids) && i < |flow.ids| && Exhausting(flow, nodes, mid, i)
    ensures Exhausting(flow, nodes, mid[flow.ids[i] := ExhaustedRow(mid[flow.ids[i]])], i + 1)
    ensures !mid[flow.ids[i]].status.Pending? ==> mid[flow.ids[i] := ExhaustedRow(mid[flow.ids[i]])] == mid
  {
  }

  lemma ExhaustedAll(flow: Flow, nodes: Rows, later: Rows)
    requires Listed(flow) && nodes.Keys == flow.nodes.Keys && Exhausting(flow, nodes, later, |flow.ids|)
    ensures later == ExhaustedRows(nodes)
  {
    forall n | n in nodes ensures later[n] == ExhaustedRow(nodes[n]) {
      assert n in flow.ids;
    }
  }

  /** A status written by hand moves no attempt. */
  lemma StatusCounts(flow: Flow, db: Db, later: Db)
    requires later.nodes.Keys == db.nodes.Keys
    requires forall n :: n in db.nodes ==> later.nodes[n].attemptCount == db.nodes[n].attemptCount
    ensures AttemptTotal(flow, later) == AttemptTotal(flow, db)
  {
    SumSame(flow.ids, AttemptsOf(db), AttemptsOf(later));
  }
}
