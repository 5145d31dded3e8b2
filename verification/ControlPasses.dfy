/**
 The passes over control edges, as functions of the rows they have read: `_process_conditional_routes`
 and `_process_loops`.  `judge` stands for reading an artifact, following the declared path and
 evaluating the predicate; it answers nothing when one of them raises an exception.
 */
module ControlPasses {
  import opened Prelude
  import opened Graph
  import opened Workflow
  import opened Store
  import opened Joins
  import opened Runs

  type Judge = (NodeId, Digest) -> Option<bool>

  function Judged(judge: Judge, db: Db, n: NodeId, producer: NodeId, output: Name): Option<bool> {
    if output in Accepted(db, producer) then judge(n, Accepted(db, producer)[output]) else None
  }

  function Fail(db: Db, n: NodeId): Db { SetNodeStatus(db, n, Failed).0 }

  // ---------------------------------------------------------------- routes

  /** A pending node whose route can be decided on the rows read. */
  predicate RouteDue(flow: Flow, rows: Rows, n: NodeId) {
    && n in flow.nodes && n in rows && flow.nodes[n].route.Some? && rows[n].status.Pending?
    && flow.nodes[n].route.value.producer in rows && rows[flow.nodes[n].route.value.producer].status.Succeeded?
  }

  /** One node of the pass: a route that cannot be evaluated or recorded fails closed. */
  function RouteOne(flow: Flow, judge: Judge, rows: Rows, db: Db, n: NodeId): Db {
    if !RouteDue(flow, rows, n) then db
    else
      var route := flow.nodes[n].route.value;
      match Judged(judge, db, n, route.producer, route.output)
      case None => Fail(db, n)
      case Some(matched) =>
        var (later, reply) := RecordRoute(db, n, Accepted(db, route.producer)[route.output], matched);
        if reply.Answer? then later else Fail(db, n)
  }

  function RouteFold(flow: Flow, judge: Judge, rows: Rows, db: Db, i: nat): Db
    requires i <= |flow.ids|
  {
    if i == 0 then db else RouteOne(flow, judge, rows, RouteFold(flow, judge, rows, db, i - 1), flow.ids[i - 1])
  }

  /** Only the node itself changes, and only its status and its route decision. */
  lemma RouteOneFrame(flow: Flow, judge: Judge, rows: Rows, db: Db, n: NodeId)
    requires n in flow.nodes ==> n in db.nodes
    ensures var later := RouteOne(flow, judge, rows, db, n);
      && later.artifacts == db.artifacts && later.nodes.Keys == db.nodes.Keys
      && (!RouteDue(flow, rows, n) ==> later == db)
      && (forall d :: d in db.nodes && d != n ==> later.nodes[d] == db.nodes[d])
      && (forall d :: d != n ==> (d in later.control.routes <==> d in db.control.routes))
      && (forall d :: d != n && d in db.control.routes ==> later.control.routes[d] == db.control.routes[d])
  {
  }

  /** Row and route decision of `d` agree in both. */
  predicate SameNode(db: Db, later: Db, d: NodeId) {
    && d in db.nodes && d in later.nodes && later.nodes[d] == db.nodes[d]
    && (d in later.control.routes <==> d in db.control.routes)
    && (d in db.control.routes ==> later.control.routes[d] == db.control.routes[d])
  }

  /** The pass with the nodes at the first `i` positions behind it. */
  ghost predicate RoutesTo(flow: Flow, judge: Judge, db: Db, later: Db, i: nat)
    requires i <= |flow.ids|
  {
    && later.artifacts == db.artifacts && later.nodes.Keys == db.nodes.Keys
    && (forall d :: d in db.nodes && !RouteDue(flow, db.nodes, d) ==> SameNode(db, later, d))
    && (forall j :: i <= j < |flow.ids| ==> SameNode(db, later, flow.ids[j]))
    && (forall j :: 0 <= j < i && RouteDue(flow, db.nodes, flow.ids[j]) ==>
          RouteSettled(flow, judge, db, later, flow.ids[j]))
  }

  /** A due route is decided: selected and recorded, skipped and recorded, or failed. */
  predicate RouteSettled(flow: Flow, judge: Judge, db: Db, later: Db, n: NodeId)
    requires n in flow.nodes && flow.nodes[n].route.Some?
  {
    var route := flow.nodes[n].route.value;
    match Judged(judge, db, n, route.producer, route.output)
    case None => IsStatus(later, n, Failed)
    case Some(matched) =>
      var row := RouteRow(Accepted(db, route.producer)[route.output], matched);
      if n in db.control.routes && db.control.routes[n] != row then IsStatus(later, n, Failed)
      else
        && n in later.control.routes && later.control.routes[n] == row
        && IsStatus(later, n, if matched || n in db.control.routes then Pending else Skipped)
  }

  lemma RouteOneSettles(flow: Flow, judge: Judge, rows: Rows, db: Db, mid: Db, n: NodeId)
    requires RouteDue(flow, rows, n) && n in db.nodes && db.nodes[n].status.Pending?
    requires SameNode(db, mid, n) && mid.artifacts == db.artifacts
    ensures RouteSettled(flow, judge, db, RouteOne(flow, judge, rows, mid, n), n)
  {
  }

  lemma SettledStays(flow: Flow, judge: Judge, db: Db, mid: Db, later: Db, n: NodeId)
    requires n in flow.nodes && flow.nodes[n].route.Some? && RouteSettled(flow, judge, db, mid, n)
    requires n in mid.nodes && SameNode(mid, later, n)
    ensures RouteSettled(flow, judge, db, later, n)
  {
  }

  lemma RoutesNext(flow: Flow, judge: Judge, db: Db, mid: Db, i: nat)
    requires i < |flow.ids| && Increasing(flow.ids) && Listed(flow) && db.nodes.Keys == flow.nodes.Keys
    requires RoutesTo(flow, judge, db, mid, i)
    ensures RoutesTo(flow, judge, db, RouteOne(flow, judge, db.nodes, mid, flow.ids[i]), i + 1)
  {
    var n := flow.ids[i];
    var later := RouteOne(flow, judge, db.nodes, mid, n);
    assert n in flow.ids;
    RouteOneFrame(flow, judge, db.nodes, mid, n);
    forall j | 0 <= j <= i && RouteDue(flow, db.nodes, flow.ids[j])
      ensures RouteSettled(flow, judge, db, later, flow.ids[j])
    {
      if j < i {
        SettledStays(flow, judge, db, mid, later, flow.ids[j]);
      } else {
        RouteOneSettles(flow, judge, db.nodes, db, mid, n);
      }
    }
  }

  lemma RoutesAtFirst(flow: Flow, judge: Judge, db: Db)
    requires Listed(flow) && db.nodes.Keys == flow.nodes.Keys
    ensures RoutesTo(flow, judge, db, db, 0)
  {
    forall j | 0 <= j < |flow.ids| ensures SameNode(db, db, flow.ids[j]) { assert flow.ids[j] in flow.ids; }
  }

  /** A due route is open when the pass reaches its node. */
  lemma RoutesDue(flow: Flow, judge: Judge, db: Db, mid: Db, i: nat)
    requires i < |flow.ids| && RoutesTo(flow, judge, db, mid, i)
    ensures RouteDue(flow, db.nodes, flow.ids[i]) ==> RouteOpen(flow, mid, flow.ids[i])
    ensures flow.ids[i] in mid.nodes && flow.ids[i] in db.nodes
  {
    if RouteDue(flow, db.nodes, flow.ids[i]) {
      assert SameNode(db, mid, flow.ids[i]);
      assert SameNode(db, mid, flow.nodes[flow.ids[i]].route.value.producer);
    }
  }

  lemma RouteFoldNext(flow: Flow, judge: Judge, rows: Rows, db: Db, i: nat, mid: Db)
    requires i < |flow.ids| && mid == RouteFold(flow, judge, rows, db, i) && rows == db.nodes
    requires Increasing(flow.ids) && Listed(flow) && db.nodes.Keys == flow.nodes.Keys && RoutesTo(flow, judge, db, mid, i)
    ensures RouteFold(flow, judge, rows, db, i + 1) == RouteOne(flow, judge, rows, mid, flow.ids[i])
    ensures RoutesTo(flow, judge, db, RouteFold(flow, judge, rows, db, i + 1), i + 1)
    ensures RouteDue(flow, rows, flow.ids[i]) ==> RouteOpen(flow, mid, flow.ids[i])
    ensures flow.ids[i] in mid.nodes && flow.ids[i] in db.nodes
  {
    RoutesDue(flow, judge, db, mid, i);
    RoutesNext(flow, judge, db, mid, i);
  }

  lemma {:induction false} RouteFoldTo(flow: Flow, judge: Judge, db: Db, i: nat)
    requires i <= |flow.ids| && Increasing(flow.ids) && Listed(flow) && db.nodes.Keys == flow.nodes.Keys
    ensures RoutesTo(flow, judge, db, RouteFold(flow, judge, db.nodes, db, i), i)
    decreases i, 1
  {
    if i == 0 {
      RoutesAtFirst(flow, judge, db);
    } else {
      RouteFoldStep(flow, judge, db, i);
    }
  }

  lemma {:induction false} RouteFoldStep(flow: Flow, judge: Judge, db: Db, i: nat)
    requires 0 < i <= |flow.ids| && Increasing(flow.ids) && Listed(flow) && db.nodes.Keys == flow.nodes.Keys
    ensures RoutesTo(flow, judge, db, RouteFold(flow, judge, db.nodes, db, i), i)
    decreases i, 0
  {
    var k: nat := i - 1;
    RouteFoldTo(flow, judge, db, k);
    RouteFoldNext(flow, judge, db.nodes, db, k, RouteFold(flow, judge, db.nodes, db, k));
    assert k + 1 == i;
  }

  /** What the pass meets when it reaches the node at `i`. */
  lemma RouteAt(flow: Flow, judge: Judge, rows: Rows, db: Db, i: nat)
    requires i < |flow.ids| && Increasing(flow.ids) && Listed(flow) && db.nodes.Keys == flow.nodes.Keys && rows == db.nodes
    ensures var mid := RouteFold(flow, judge, rows, db, i);
      && RouteFold(flow, judge, rows, db, i + 1) == RouteOne(flow, judge, rows, mid, flow.ids[i])
      && (RouteDue(flow, rows, flow.ids[i]) ==> RouteOpen(flow, mid, flow.ids[i]))
      && flow.ids[i] in mid.nodes && flow.ids[i] in flow.nodes
  {
    assert flow.ids[i] in flow.ids;
    RouteFoldTo(flow, judge, db, i);
    RouteFoldNext(flow, judge, rows, db, i, RouteFold(flow, judge, rows, db, i));
  }

  /** The routing pass settles every due route and leaves every other node alone. */
  lemma RoutesSettle(flow: Flow, judge: Judge, db: Db)
    requires Increasing(flow.ids) && Listed(flow) && db.nodes.Keys == flow.nodes.Keys
    ensures var later := RouteFold(flow, judge, db.nodes, db, |flow.ids|);
      forall n :: n in flow.nodes ==>
        if RouteDue(flow, db.nodes, n) then RouteSettled(flow, judge, db, later, n) else SameNode(db, later, n)
  {
    RouteFoldTo(flow, judge, db, |flow.ids|);
    var later := RouteFold(flow, judge, db.nodes, db, |flow.ids|);
    forall n | n in flow.nodes
      ensures if RouteDue(flow, db.nodes, n) then RouteSettled(flow, judge, db, later, n) else SameNode(db, later, n)
    {
      assert n in flow.ids;
    }
  }

  // ---------------------------------------------------------------- loops

  predicate LoopDue(flow: Flow, rows: Rows, c: NodeId) {
    c in flow.nodes && c in rows && flow.nodes[c].loop.Some? && rows[c].status.Succeeded?
  }

  /** The decision transaction of a due controller, and its answer. */
  ghost function Decide1(flow: Flow, rows: Rows, db: Db, c: NodeId, matched: bool): (Db, Reply)
    requires LoopDue(flow, rows, c)
  {
    var loop := flow.nodes[c].loop.value;
    ApplyLoop(db, c, rows[c].attemptCount, matched, loop.maxIterations, LoopRegion(flow, c, loop.target))
  }

  /** One controller of the pass: a decision that cannot be evaluated or recorded fails the controller. */
  ghost function LoopOne(flow: Flow, judge: Judge, rows: Rows, db: Db, c: NodeId): Db {
    if !LoopDue(flow, rows, c) then db
    else
      match Judged(judge, db, c, c, flow.nodes[c].loop.value.output)
      case None => Fail(db, c)
      case Some(matched) =>
        var (later, reply) := Decide1(flow, rows, db, c, matched);
        if reply.Looped? then later else Fail(db, c)
  }

  ghost function LoopFold(flow: Flow, judge: Judge, rows: Rows, db: Db, i: nat): Db
    requires i <= |flow.ids|
  {
    if i == 0 then db else LoopOne(flow, judge, rows, LoopFold(flow, judge, rows, db, i - 1), flow.ids[i - 1])
  }

  /** The controller's loop-back edge is taken: a new decision that matched, below the iteration ceiling. */
  ghost predicate Continues(flow: Flow, judge: Judge, rows: Rows, db: Db, c: NodeId) {
    && LoopDue(flow, rows, c)
    && Judged(judge, db, c, c, flow.nodes[c].loop.value.output) == Some(true)
    && (c in db.control.loops ==> db.control.loops[c].lastAttempt < rows[c].attemptCount)
    && LoopIterations(db, c) + 1 < flow.nodes[c].loop.value.maxIterations
  }

  /** Decided under its newest attempt. */
  predicate LoopDecided(db: Db, c: NodeId)
    requires c in db.nodes
  {
    c in db.control.loops && db.control.loops[c].lastAttempt == db.nodes[c].attemptCount
  }

  /** What one controller's turn does: the others at most become pending, and only its own decision changes. */
  ghost predicate Turn(db: Db, later: Db, c: NodeId) {
    && later.nodes.Keys == db.nodes.Keys
    && (forall d :: d in db.nodes ==> later.nodes[d].attemptCount == db.nodes[d].attemptCount)
    && (forall d :: d in db.nodes && d != c ==> later.nodes[d] == db.nodes[d] || later.nodes[d].status.Pending?)
    && (forall d :: d != c ==> (d in later.control.loops <==> d in db.control.loops))
    && (forall d :: d != c && d in db.control.loops ==> later.control.loops[d] == db.control.loops[d])
  }

  lemma FailTurn(db: Db, c: NodeId)
    requires c in db.nodes
    ensures Turn(db, Fail(db, c), c) && IsStatus(Fail(db, c), c, Failed)
  {
  }

  lemma DecisionTurn(db: Db, c: NodeId, attempt: nat, matched: bool, maxIterations: nat, region: set<NodeId>)
    requires c in db.nodes && c in region
    ensures var (later, reply) := ApplyLoop(db, c, attempt, matched, maxIterations, region);
      Turn(db, later, c) && (reply.Looped? && IsStatus(later, c, Succeeded) ==>
        c in later.control.loops && later.control.loops[c].lastAttempt == attempt)
  {
  }

  /** Node `d` is as it was before the turn. */
  predicate Untouched(db: Db, later: Db, d: NodeId) {
    && SameNode(db, later, d) && Accepted(later, d) == Accepted(db, d)
    && (d in db.progress ==> d in later.progress && later.progress[d] == db.progress[d])
  }

  /** Node `d` is to run again: no artifacts, no route decision, and its progress budget goes on. */
  predicate IsReopened(db: Db, later: Db, d: NodeId) {
    && d in db.nodes && d in later.nodes && d !in later.artifacts && d !in later.control.routes
    && later.nodes[d] == db.nodes[d].(status := Pending, activeAttempt := None, activeGeneration := None)
    && (d in db.progress ==> d in later.progress && later.progress[d] == db.progress[d].(verdict := Continue))
  }

  /**
   The turn of a controller whose newest attempt is not decided yet.  No outcome: it fails.  Otherwise the decision is
   counted under that attempt, and: negative, everything stays; positive, exactly its region runs again, unless this was
   the last iteration, in which case it fails and loses its artifacts.
   */
  ghost predicate TakesTurn(flow: Flow, judge: Judge, db: Db, later: Db, c: NodeId)
    requires c in flow.nodes && flow.nodes[c].loop.Some? && c in db.nodes
  {
    var loop := flow.nodes[c].loop.value;
    var done := if c in db.control.loops then db.control.loops[c].iterations else 0;
    match Judged(judge, db, c, c, loop.output)
    case None => later == db.(nodes := db.nodes[c := db.nodes[c].(status := Failed)])
    case Some(again) =>
      && later.control.loops == db.control.loops[c := LoopRow(done + 1, db.nodes[c].attemptCount, again)]
      && later.control.joins == db.control.joins && later.attempts == db.attempts && later.run == db.run
      && if !again then forall d :: d in db.nodes ==> Untouched(db, later, d)
         else if done + 1 < loop.maxIterations then
           forall d :: d in db.nodes ==>
             if InLoop(flow, c, loop.target, d) && d in flow.nodes then IsReopened(db, later, d) else Untouched(db, later, d)
         else
           && (forall d :: d in db.nodes && d != c ==> Untouched(db, later, d))
           && c in later.nodes && later.nodes[c] == db.nodes[c].(status := Failed) && c !in later.artifacts
  }

  lemma ReopeningReopens(db: Db, c: NodeId, attempt: nat, region: set<NodeId>, d: NodeId)
    requires d in db.nodes
    ensures var later := ReopenRegion(Checkpoint(db, c, attempt, true), region);
      if d in region then IsReopened(db, later, d) else Untouched(db, later, d)
  {
  }

  lemma ExhaustionFails(db: Db, c: NodeId, attempt: nat, d: NodeId)
    requires d in db.nodes && IsStatus(db, c, Succeeded)
    ensures var later := ExhaustLoop(Checkpoint(db, c, attempt, true), c);
      if d == c then d in later.nodes && later.nodes[c] == db.nodes[c].(status := Failed) && c !in later.artifacts
      else Untouched(db, later, d)
  {
  }

  /** The decision of a controller whose newest attempt is not decided yet. */
  lemma NewDecision(db: Db, c: NodeId, attempt: nat, matched: bool, maxIterations: nat, region: set<NodeId>)
    requires c in db.control.loops ==> db.control.loops[c].lastAttempt < attempt
    ensures var later := ApplyLoop(db, c, attempt, matched, maxIterations, region).0;
      var done := if c in db.control.loops then db.control.loops[c].iterations else 0;
      && later.control.loops == db.control.loops[c := LoopRow(done + 1, attempt, matched)]
      && later.control.joins == db.control.joins && later.attempts == db.attempts && later.run == db.run
      && later == if !matched then Checkpoint(db, c, attempt, false)
                  else if done + 1 < maxIterations then ReopenRegion(Checkpoint(db, c, attempt, true), region)
                  else ExhaustLoop(Checkpoint(db, c, attempt, true), c)
    ensures ApplyLoop(db, c, attempt, matched, maxIterations, region).1.Looped?
  {
  }

  lemma TurnIsExact(flow: Flow, judge: Judge, rows: Rows, db: Db, c: NodeId)
    requires LoopDue(flow, rows, c) && IsStatus(db, c, Succeeded) && db.nodes[c] == rows[c]
    requires c in db.control.loops ==> db.control.loops[c].lastAttempt < db.nodes[c].attemptCount
    ensures TakesTurn(flow, judge, db, LoopOne(flow, judge, rows, db, c), c)
  {
    var loop, attempt := flow.nodes[c].loop.value, rows[c].attemptCount;
    var region := LoopRegion(flow, c, loop.target);
    match Judged(judge, db, c, c, loop.output)
    case None =>
    case Some(again) =>
      NewDecision(db, c, attempt, again, loop.maxIterations, region);
      forall d | d in db.nodes
        ensures again ==>
          var reopened, exhausted := ReopenRegion(Checkpoint(db, c, attempt, true), region), ExhaustLoop(Checkpoint(db, c, attempt, true), c);
          && (if d in region then IsReopened(db, reopened, d) else Untouched(db, reopened, d))
          && (d != c ==> Untouched(db, exhausted, d))
      {
        ReopeningReopens(db, c, attempt, region, d);
        ExhaustionFails(db, c, attempt, d);
      }
      ExhaustionFails(db, c, attempt, c);
  }

  lemma TurnOf(flow: Flow, judge: Judge, rows: Rows, db: Db, c: NodeId)
    requires c in flow.nodes && Awaits(rows, db, c)
    ensures var later := LoopOne(flow, judge, rows, db, c); Turn(db, later, c) && ControllerDone(flow, later, c)
  {
    FailTurn(db, c);
    if LoopDue(flow, rows, c) {
      var loop := flow.nodes[c].loop.value;
      var region := LoopRegion(flow, c, loop.target);
      DecisionTurn(db, c, rows[c].attemptCount, true, loop.maxIterations, region);
      DecisionTurn(db, c, rows[c].attemptCount, false, loop.maxIterations, region);
    }
  }

  /** What the guards of the pass need about the controllers still to come. */
  predicate Awaits(rows: Rows, db: Db, d: NodeId) {
    && d in rows && d in db.nodes && db.nodes[d].attemptCount == rows[d].attemptCount
    && (db.nodes[d] == rows[d] || db.nodes[d].status.Pending?)
  }

  /** A controller that succeeded has its decision. */
  predicate ControllerDone(flow: Flow, db: Db, d: NodeId) {
    d in flow.nodes && flow.nodes[d].loop.Some? && IsStatus(db, d, Succeeded) ==> LoopDecided(db, d)
  }

  /** No loop decision is outstanding. */
  ghost predicate LoopsClosed(flow: Flow, db: Db) { forall c :: c in flow.nodes ==> ControllerDone(flow, db, c) }

  /** Rows that succeed no more than before, under the same loop decisions, leave none outstanding. */
  lemma ClosedStays(flow: Flow, db: Db, later: Db)
    requires LoopsClosed(flow, db) && later.control.loops == db.control.loops
    requires forall n :: IsStatus(later, n, Succeeded) ==> n in db.nodes && later.nodes[n] == db.nodes[n]
    ensures LoopsClosed(flow, later)
  {
    forall c | c in flow.nodes ensures ControllerDone(flow, later, c) {
      assert ControllerDone(flow, db, c);
    }
  }

  lemma {:induction false} RoutesKeepClosed(flow: Flow, judge: Judge, rows: Rows, db: Db, i: nat)
    requires i <= |flow.ids| && LoopsClosed(flow, db)
    ensures LoopsClosed(flow, RouteFold(flow, judge, rows, db, i))
  {
    if i > 0 {
      RoutesKeepClosed(flow, judge, rows, db, i - 1);
      var mid := RouteFold(flow, judge, rows, db, i - 1);
      ClosedStays(flow, mid, RouteOne(flow, judge, rows, mid, flow.ids[i - 1]));
    }
  }

  ghost predicate RestAwaits(flow: Flow, rows: Rows, db: Db, i: nat) {
    forall j :: i <= j < |flow.ids| ==> Awaits(rows, db, flow.ids[j])
  }

  ghost predicate DoneTo(flow: Flow, db: Db, i: nat)
    requires i <= |flow.ids|
  {
    forall j :: 0 <= j < i ==> ControllerDone(flow, db, flow.ids[j])
  }

  lemma RestAwaitsTurn(flow: Flow, rows: Rows, db: Db, later: Db, i: nat)
    requires i < |flow.ids| && Increasing(flow.ids) && RestAwaits(flow, rows, db, i) && Turn(db, later, flow.ids[i])
    ensures RestAwaits(flow, rows, later, i + 1)
  {
  }

  lemma DoneTurn(flow: Flow, db: Db, later: Db, i: nat)
    requires i < |flow.ids| && Increasing(flow.ids) && Listed(flow) && db.nodes.Keys == flow.nodes.Keys
    requires DoneTo(flow, db, i) && Turn(db, later, flow.ids[i]) && ControllerDone(flow, later, flow.ids[i])
    ensures DoneTo(flow, later, i + 1)
  {
    forall j | 0 <= j < i ensures ControllerDone(flow, later, flow.ids[j]) {
      assert flow.ids[j] in flow.ids;
    }
  }

  /** The pass with the controllers at the first `i` positions behind it. */
  ghost predicate LoopsTo(flow: Flow, rows: Rows, db: Db, i: nat)
    requires i <= |flow.ids|
  {
    db.nodes.Keys == flow.nodes.Keys && RestAwaits(flow, rows, db, i) && DoneTo(flow, db, i)
  }

  lemma LoopsNext(flow: Flow, judge: Judge, rows: Rows, db: Db, i: nat)
    requires i < |flow.ids| && Increasing(flow.ids) && Listed(flow) && LoopsTo(flow, rows, db, i)
    ensures LoopsTo(flow, rows, LoopOne(flow, judge, rows, db, flow.ids[i]), i + 1)
  {
    var later, c := LoopOne(flow, judge, rows, db, flow.ids[i]), flow.ids[i];
    assert c in flow.ids;
    TurnOf(flow, judge, rows, db, c);
    RestAwaitsTurn(flow, rows, db, later, i);
    DoneTurn(flow, db, later, i);
  }

  lemma LoopsAtFirst(flow: Flow, db: Db)
    requires Listed(flow) && db.nodes.Keys == flow.nodes.Keys
    ensures LoopsTo(flow, db.nodes, db, 0)
  {
    forall j | 0 <= j < |flow.ids| ensures Awaits(db.nodes, db, flow.ids[j]) { assert flow.ids[j] in flow.ids; }
  }

  lemma LoopFoldNext(flow: Flow, judge: Judge, rows: Rows, db: Db, i: nat, mid: Db, later: Db)
    requires i < |flow.ids| && mid == LoopFold(flow, judge, rows, db, i) && later == LoopOne(flow, judge, rows, mid, flow.ids[i])
    requires Increasing(flow.ids) && Listed(flow) && LoopsTo(flow, rows, mid, i)
    ensures later == LoopFold(flow, judge, rows, db, i + 1) && LoopsTo(flow, rows, later, i + 1)
  {
    LoopsNext(flow, judge, rows, mid, i);
  }

  lemma {:induction false} LoopFoldFrame(flow: Flow, judge: Judge, rows: Rows, db: Db, i: nat) returns (later: Db)
    requires i <= |flow.ids| && Increasing(flow.ids) && Listed(flow) && LoopsTo(flow, rows, db, 0)
    ensures later == LoopFold(flow, judge, rows, db, i) && LoopsTo(flow, rows, later, i)
  {
    later := db;
    if i > 0 {
      var mid := LoopFoldFrame(flow, judge, rows, db, i - 1);
      later := LoopOne(flow, judge, rows, mid, flow.ids[i - 1]);
      LoopFoldNext(flow, judge, rows, db, i - 1, mid, later);
    }
  }

  /** After the pass no succeeded controller is undecided: a fast last controller cannot bypass its loop. */
  lemma LoopsDecided(flow: Flow, judge: Judge, db: Db)
    requires Increasing(flow.ids) && Listed(flow) && db.nodes.Keys == flow.nodes.Keys
    ensures forall c :: c in flow.nodes ==> ControllerDone(flow, LoopFold(flow, judge, db.nodes, db, |flow.ids|), c)
  {
    LoopsAtFirst(flow, db);
    var later := LoopFoldFrame(flow, judge, db.nodes, db, |flow.ids|);
    forall c | c in flow.nodes ensures ControllerDone(flow, LoopFold(flow, judge, db.nodes, db, |flow.ids|), c) {
      assert c in flow.ids;
    }
  }

  // ---------------------------------------------------------------- controllers that reopen one another

  ghost function RegionOf(flow: Flow, c: NodeId): set<NodeId>
    requires c in flow.nodes && flow.nodes[c].loop.Some?
  {
    LoopRegion(flow, c, flow.nodes[c].loop.value.target)
  }

  /** A controller visited earlier in the pass has taken its loop-back edge over `c`. */
  ghost predicate ReopenedBefore(flow: Flow, judge: Judge, rows: Rows, db: Db, i: nat, c: NodeId)
    requires i <= |flow.ids|
  {
    exists j :: 0 <= j < i && Continues(flow, judge, rows, LoopFold(flow, judge, rows, db, j), flow.ids[j])
                && c in RegionOf(flow, flow.ids[j])
  }

  /** What one controller's turn does to the artifacts of another. */
  lemma TurnTakesArtifacts(flow: Flow, judge: Judge, rows: Rows, db: Db, d: NodeId, c: NodeId)
    requires c != d
    ensures Accepted(LoopOne(flow, judge, rows, db, d), c) ==
      if Continues(flow, judge, rows, db, d) && c in RegionOf(flow, d) then map[] else Accepted(db, c)
  {
    if LoopDue(flow, rows, d) {
      match Judged(judge, db, d, d, flow.nodes[d].loop.value.output)
      case None =>
      case Some(matched) =>
        var loop := flow.nodes[d].loop.value;
        DecisionTakesArtifacts(db, d, rows[d].attemptCount, matched, loop.maxIterations, RegionOf(flow, d), c);
    }
  }

  lemma DecisionTakesArtifacts(db: Db, d: NodeId, attempt: nat, matched: bool, maxIterations: nat, region: set<NodeId>, c: NodeId)
    requires c != d
    ensures var (later, reply) := ApplyLoop(db, d, attempt, matched, maxIterations, region);
      Accepted(later, c) ==
        if && matched && c in region && (d in db.control.loops ==> db.control.loops[d].lastAttempt < attempt)
           && LoopIterations(db, d) + 1 < maxIterations
        then map[] else Accepted(db, c)
  {
  }

  lemma {:induction false} ArtifactsSoFar(flow: Flow, judge: Judge, rows: Rows, db: Db, i: nat, c: NodeId)
    requires i <= |flow.ids| && forall j :: 0 <= j < i ==> flow.ids[j] != c
    ensures Accepted(LoopFold(flow, judge, rows, db, i), c) ==
      if ReopenedBefore(flow, judge, rows, db, i, c) then map[] else Accepted(db, c)
  {
    if i > 0 {
      ArtifactsSoFar(flow, judge, rows, db, i - 1, c);
      var mid, d := LoopFold(flow, judge, rows, db, i - 1), flow.ids[i - 1];
      TurnTakesArtifacts(flow, judge, rows, mid, d, c);
      assert ReopenedBefore(flow, judge, rows, db, i, c) <==>
        ReopenedBefore(flow, judge, rows, db, i - 1, c) || (Continues(flow, judge, rows, mid, d) && c in RegionOf(flow, d));
    }
  }

  /**
   The pass reads statuses once and artifacts as it goes.  A controller is judged on the artifact it was
   read with exactly when no controller before it in id order has reopened it; one that was reopened is failed.
   */
  lemma JudgedOnOwnArtifact(flow: Flow, judge: Judge, db: Db, i: nat)
    requires Increasing(flow.ids) && i < |flow.ids| && LoopDue(flow, db.nodes, flow.ids[i])
    requires Accepted(db, flow.ids[i]) != map[]
    ensures var c, mid := flow.ids[i], LoopFold(flow, judge, db.nodes, db, i);
      && (Accepted(mid, c) == Accepted(db, c) <==> !ReopenedBefore(flow, judge, db.nodes, db, i, c))
      && (ReopenedBefore(flow, judge, db.nodes, db, i, c) ==> LoopFold(flow, judge, db.nodes, db, i + 1) == Fail(mid, c))
  {
    ArtifactsSoFar(flow, judge, db.nodes, db, i, flow.ids[i]);
  }
}
