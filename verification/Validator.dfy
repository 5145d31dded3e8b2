/**
 The control-edge part of `validate_workflow`: the cycle check, the route, loop and repair checks, and the two
 running floors that it compares with `max_total_attempts`.
 */
module Validator {
  import opened Prelude
  import opened Graph
  import opened Workflow
  import K = Kahn

  datatype Issue =
    | Cycle
    | InvalidRouteSource(n: NodeId)
    | UnorderedRoute(n: NodeId)
    | InvalidLoopTarget(n: NodeId)
    | UnorderedLoopTarget(n: NodeId)
    | InvalidLoopOutput(n: NodeId)
    | UnsafeLoopEffect(n: NodeId)
    | LoopAttemptLimit(n: NodeId)
    | LoopTotalAttemptBudget
    | RepairOnNonIntegration(n: NodeId)
    | DuplicateRepairRoute(n: NodeId)
    | UnknownRepairCheck(n: NodeId)
    | AmbiguousRepairCheck(n: NodeId)
    | DuplicateRepairTarget(n: NodeId)
    | DuplicateRepairTargetNode(n: NodeId)
    | UnknownRepairTarget(n: NodeId)
    | UnboundRepairTarget(n: NodeId)
    | InvalidRepairTarget(n: NodeId)
    | UnsafeRepairTarget(n: NodeId)
    | RepairInputCollision(n: NodeId)
    | RepairTargetFanout(n: NodeId)
    | RepairAttemptBudget(n: NodeId)
    | RepairTotalAttemptBudget

  /** What the schema and the earlier checks establish: ids, dependencies, iteration ceilings. */
  ghost predicate Readable(flow: Flow) {
    && Increasing(flow.ids) && Listed(flow) && Closed(NeedsOf(flow))
    && forall n :: n in flow.nodes && flow.nodes[n].loop.Some? ==> flow.nodes[n].loop.value.maxIterations >= 1
  }

  /** A route is decided by a declared output of a node that is always settled before. */
  ghost predicate RouteAccepted(flow: Flow, n: NodeId)
    requires n in flow.nodes
  {
    flow.nodes[n].route.Some? ==>
      var route := flow.nodes[n].route.value;
      && route.producer in flow.nodes && route.output in flow.nodes[route.producer].ports.outputs
      && Ancestor(NeedsOf(flow), route.producer, n)
  }

  /** A node declares no write, and its permission reaches nothing outside. */
  predicate Replayable(node: NodeSpec) {
    && node.effect != Some(IdempotentWrite) && node.effect != Some(NonIdempotentWrite)
    && (node.permission.Read? || node.permission.Write?)
  }

  /**
   The loop of `n` is decided by an output of its own, goes back to an ancestor, replays only safe nodes, and each
   may be tried often enough.
   */
  ghost predicate LoopAccepted(flow: Flow, n: NodeId)
    requires n in flow.nodes
  {
    flow.nodes[n].loop.Some? ==>
      var loop := flow.nodes[n].loop.value;
      && Ancestor(NeedsOf(flow), loop.target, n) && loop.output in flow.nodes[n].ports.outputs
      && forall x :: x in LoopRegion(flow, n, loop.target) ==>
           Replayable(flow.nodes[x]) && AttemptLimit(flow.nodes[x]) >= loop.maxIterations
  }

  function RoundsTotal(routes: seq<RepairRoute>): nat {
    if routes == [] then 0 else RoundsTotal(routes[..|routes| - 1]) + routes[|routes| - 1].maxRounds
  }

  predicate Names(targets: seq<RepairTarget>, t: NodeId) {
    exists i :: 0 <= i < |targets| && targets[i].node == t
  }

  /** Rounds of all routes that name `t`. */
  function TargetRounds(routes: seq<RepairRoute>, t: NodeId): nat {
    if routes == [] then 0
    else
      var last := routes[|routes| - 1];
      TargetRounds(routes[..|routes| - 1], t)
        + if Names(last.targets, t) then last.maxRounds else 0
  }

  predicate Targeted(routes: seq<RepairRoute>, t: NodeId) {
    exists i :: 0 <= i < |routes| && Names(routes[i].targets, t)
  }

  /** An effect that is declared and safe to repeat; an undeclared one never is. */
  predicate DeclaredSafe(node: NodeSpec) {
    && node.effect.Some?
    && (node.effect.value.NoEffect? || node.effect.value.ReadEffect?
        || (node.effect.value.IdempotentWrite? && node.idempotencyKey))
  }

  /** `t` produces a changeset that `n` integrates. */
  predicate Integrates(node: NodeSpec, t: NodeId) {
    exists name :: name in node.ports.inputs && node.ports.inputs[name] == Binding(t, "changeset")
  }

  /** Somebody else needs `t`. */
  predicate FeedsOthers(flow: Flow, n: NodeId, t: NodeId) {
    exists m :: m in flow.nodes && m != n && t in flow.nodes[m].needs
  }

  /** A repair target is a required, replay-safe writer that works for this integration alone. */
  predicate TargetAccepted(flow: Flow, n: NodeId, target: RepairTarget)
    requires n in flow.nodes
  {
    && target.node in flow.nodes
    && var producer := flow.nodes[target.node];
       && producer.isAgent && producer.permission.Write? && producer.required
       && producer.effect.Some? && !Unrepeatable(producer)
       && (exists name :: name in flow.nodes[n].ports.inputs &&
             flow.nodes[n].ports.inputs[name].producer == target.node && flow.nodes[n].ports.inputs[name].output == "changeset")
       && target.input !in producer.ports.inputs
       && forall m :: m in flow.nodes && target.node in flow.nodes[m].needs ==> m == n
  }

  predicate DistinctNodes(targets: seq<RepairTarget>) {
    forall i, j :: 0 <= i < j < |targets| ==> targets[i].node != targets[j].node
  }

  predicate TargetsAccepted(flow: Flow, n: NodeId, targets: seq<RepairTarget>)
    requires n in flow.nodes
  {
    (forall i :: 0 <= i < |targets| ==> TargetAccepted(flow, n, targets[i])) && DistinctNodes(targets)
  }

  /** Routes have ids of their own, handle declared checks, no two of them the same, and rerun accepted targets. */
  predicate RoutesAccepted(flow: Flow, n: NodeId, routes: seq<RepairRoute>)
    requires n in flow.nodes
  {
    && (forall i :: 0 <= i < |routes| ==>
          routes[i].checkIds <= flow.nodes[n].ports.checks && TargetsAccepted(flow, n, routes[i].targets))
    && (forall i, j :: 0 <= i < j < |routes| ==> routes[i].id != routes[j].id && routes[i].checkIds !! routes[j].checkIds)
  }

  /** Repair belongs to an integration, its routes are accepted, and everything may be tried often enough. */
  ghost predicate RepairAccepted(flow: Flow, n: NodeId)
    requires n in flow.nodes
  {
    flow.nodes[n].repair.Some? ==>
      var routes := flow.nodes[n].repair.value;
      && flow.nodes[n].isIntegration && RoutesAccepted(flow, n, routes)
      && AttemptLimit(flow.nodes[n]) >= 1 + RoundsTotal(routes)
      && forall t :: t in flow.nodes && Targeted(routes, t) ==> AttemptLimit(flow.nodes[t]) >= 1 + TargetRounds(routes, t)
  }

  ghost predicate ControlAccepted(flow: Flow) {
    && Acyclic(NeedsOf(flow))
    && (forall n :: n in flow.nodes ==> RouteAccepted(flow, n) && LoopAccepted(flow, n) && RepairAccepted(flow, n))
    && AttemptFloor(flow) <= flow.budgets.maxTotalAttempts
  }

  lemma ChainStarts(g: Needs<NodeId>, a: NodeId, n: NodeId)
    ensures Ancestor(g, a, n) ==> a in g
  {
  }

  /** What the checks accept is well-formed, and only nodes that are safe to rerun are rerun by a repair. */
  lemma AcceptedIsWellFormed(flow: Flow)
    requires Readable(flow) && ControlAccepted(flow)
    ensures WellFormed(flow)
    ensures forall n, t :: n in flow.nodes && flow.nodes[n].repair.Some? && Targeted(flow.nodes[n].repair.value, t) ==>
      t in flow.nodes && ReplaySafe(flow.nodes[t])
  {
    forall n | n in flow.nodes ensures WellPlaced(flow, n) {
      AcceptedIsWellPlaced(flow, n);
    }
  }

  /** Nothing in an accepted loop declares a write or may reach outside. */
  lemma LoopsRepeatNoWrites(flow: Flow, c: NodeId, x: NodeId)
    requires ControlAccepted(flow) && c in flow.nodes && flow.nodes[c].loop.Some?
    requires x in LoopRegion(flow, c, flow.nodes[c].loop.value.target)
    ensures var effect := flow.nodes[x].effect; effect.None? || effect.value.NoEffect? || effect.value.ReadEffect?
    ensures flow.nodes[x].permission == Read || flow.nodes[x].permission == Write
  {
    assert LoopAccepted(flow, c);
  }

  /** What well-formedness asks of one node. */
  ghost predicate WellPlaced(flow: Flow, n: NodeId)
    requires n in flow.nodes
  {
    && (flow.nodes[n].loop.Some? ==> flow.nodes[n].loop.value.target in flow.nodes)
    && (flow.nodes[n].route.Some? ==> flow.nodes[n].route.value.producer in flow.nodes)
    && (flow.nodes[n].repair.Some? ==>
          RoutesWellFormed(flow, flow.nodes[n].repair.value)
          && forall t :: Targeted(flow.nodes[n].repair.value, t) ==> t in flow.nodes && ReplaySafe(flow.nodes[t]))
  }

  lemma AcceptedIsWellPlaced(flow: Flow, n: NodeId)
    requires n in flow.nodes && RouteAccepted(flow, n) && LoopAccepted(flow, n) && RepairAccepted(flow, n)
    ensures WellPlaced(flow, n)
  {
    if flow.nodes[n].loop.Some? {
      ChainStarts(NeedsOf(flow), flow.nodes[n].loop.value.target, n);
    }
  }

  method CheckRoute(flow: Flow, n: NodeId) returns (issues: set<Issue>)
    requires Closed(NeedsOf(flow)) && n in flow.nodes
    ensures issues == {} <==> RouteAccepted(flow, n)
  {
    issues := {};
    if flow.nodes[n].route.None? { return; }
    var route := flow.nodes[n].route.value;
    if route.producer !in flow.nodes || route.output !in flow.nodes[route.producer].ports.outputs {
      return {InvalidRouteSource(n)};
    }
    var upstream := Ancestors(NeedsOf(flow), n);
    if route.producer !in upstream {
      issues := {UnorderedRoute(n)};
    }
  }

  /** What UNSAFE_LOOP_EFFECT reports. */
  predicate UnsafeInLoop(node: NodeSpec) {
    || (node.effect.Some? && !node.effect.value.NoEffect? && !node.effect.value.ReadEffect?)
    || node.permission.External? || node.permission.Destructive?
  }

  method CheckLoop(flow: Flow, n: NodeId) returns (issues: set<Issue>, cost: nat)
    requires Listed(flow) && Closed(NeedsOf(flow)) && n in flow.nodes
    requires flow.nodes[n].loop.Some? ==> flow.nodes[n].loop.value.maxIterations >= 1
    ensures issues == {} <==> LoopAccepted(flow, n)
    ensures issues == {} ==> cost == LoopCost(flow, n)
  {
    issues, cost := {}, 0;
    if flow.nodes[n].loop.None? { return; }
    var loop := flow.nodes[n].loop.value;
    if loop.target !in flow.nodes {
      issues := {InvalidLoopTarget(n)};
      ChainStarts(NeedsOf(flow), loop.target, n);
      return;
    }
    var upstream := Ancestors(NeedsOf(flow), n);
    if loop.target !in upstream {
      issues := {UnorderedLoopTarget(n)};
      return;
    }
    if loop.output !in flow.nodes[n].ports.outputs {
      issues := {InvalidLoopOutput(n)};
    }
    var region := FindLoopRegion(flow, n, loop.target);
    if exists x :: x in region && UnsafeInLoop(flow.nodes[x]) {
      issues := issues + {UnsafeLoopEffect(n)};
    }
    cost := |region| * (loop.maxIterations - 1);
    if exists x :: x in region && AttemptLimit(flow.nodes[x]) < loop.maxIterations {
      issues := issues + {LoopAttemptLimit(n)};
    }
  }

  /** One target of a route. */
  method CheckTarget(flow: Flow, n: NodeId, target: RepairTarget) returns (issues: set<Issue>)
    requires n in flow.nodes
    ensures issues == {} <==> TargetAccepted(flow, n, target)
  {
    if target.node !in flow.nodes { return {UnknownRepairTarget(n)}; }
    issues := {};
    var producer := flow.nodes[target.node];
    if !Integrates(flow.nodes[n], target.node) {
      issues := issues + {UnboundRepairTarget(n)};
    }
    if !producer.isAgent || !producer.permission.Write? || !producer.required {
      issues := issues + {InvalidRepairTarget(n)};
    }
    if !DeclaredSafe(producer) {
      issues := issues + {UnsafeRepairTarget(n)};
    }
    if target.input in producer.ports.inputs {
      issues := issues + {RepairInputCollision(n)};
    }
    if FeedsOthers(flow, n, target.node) {
      issues := issues + {RepairTargetFanout(n)};
    }
  }

  /** The targets of one route, whose rounds are added to each target's tally. */
  method CheckTargets(flow: Flow, n: NodeId, route: RepairRoute, tally: map<NodeId, nat>)
    returns (issues: set<Issue>, next: map<NodeId, nat>)
    requires n in flow.nodes && tally.Keys <= flow.nodes.Keys
    ensures issues == {} <==> TargetsAccepted(flow, n, route.targets)
    ensures next.Keys <= flow.nodes.Keys
    ensures issues == {} ==> forall t :: Tally(next, t) == Tally(tally, t) + if Names(route.targets, t) then route.maxRounds else 0
    ensures issues == {} ==> forall t :: t in next <==> t in tally || Names(route.targets, t)
  {
    issues, next := {}, tally;
    var seen: set<(NodeId, Name)>, seenNodes: set<NodeId> := {}, {};
    for i := 0 to |route.targets|
      invariant issues == {} <==> TargetsAccepted(flow, n, route.targets[..i])
      invariant next.Keys <= flow.nodes.Keys
      invariant forall t :: t in seenNodes <==> Names(route.targets[..i], t)
      invariant forall pair :: pair in seen ==> pair.0 in seenNodes
      invariant issues == {} ==>
        forall t :: Tally(next, t) == Tally(tally, t) + if Names(route.targets[..i], t) then route.maxRounds else 0
      invariant issues == {} ==> forall t :: t in next <==> t in tally || Names(route.targets[..i], t)
    {
      var target := route.targets[i];
      NamesStep(route.targets, i);
      TargetsStep(flow, n, route.targets, i);
      if (target.node, target.input) in seen {
        issues := issues + {DuplicateRepairTarget(n)};
      }
      seen := seen + {(target.node, target.input)};
      if target.node in seenNodes {
        issues := issues + {DuplicateRepairTargetNode(n)};
      }
      seenNodes := seenNodes + {target.node};
      var found := CheckTarget(flow, n, target);
      issues := issues + found;
      if target.node in flow.nodes {
        next := next[target.node := Tally(next, target.node) + route.maxRounds];
      }
    }
    assert route.targets[..|route.targets|] == route.targets;
  }

  lemma TargetsStep(flow: Flow, n: NodeId, targets: seq<RepairTarget>, i: nat)
    requires n in flow.nodes && i < |targets|
    ensures TargetsAccepted(flow, n, targets[..i + 1]) <==>
      TargetsAccepted(flow, n, targets[..i]) && TargetAccepted(flow, n, targets[i]) && !Names(targets[..i], targets[i].node)
  {
    var more := targets[..i + 1];
    assert more[i] == targets[i] && forall j :: 0 <= j < i ==> more[j] == targets[..i][j];
    if Names(targets[..i], targets[i].node) {
      var j :| 0 <= j < i && targets[..i][j].node == targets[i].node;
      assert more[j].node == more[i].node;
    }
    if TargetsAccepted(flow, n, more) {
      assert forall j :: 0 <= j < i ==> TargetAccepted(flow, n, more[j]);
    }
  }

  lemma NamesStep(targets: seq<RepairTarget>, i: nat)
    requires i < |targets|
    ensures forall t :: Names(targets[..i + 1], t) <==> Names(targets[..i], t) || targets[i].node == t
  {
    forall t ensures Names(targets[..i + 1], t) <==> Names(targets[..i], t) || targets[i].node == t {
      if Names(targets[..i], t) {
        var j :| 0 <= j < i && targets[j].node == t;
        assert targets[..i + 1][j].node == t;
      }
      if targets[i].node == t {
        assert targets[..i + 1][i].node == t;
      }
    }
  }

  function Tally(tally: map<NodeId, nat>, t: NodeId): nat { if t in tally then tally[t] else 0 }

  /** The tallies over the routes read so far. */
  ghost predicate Tallied(routes: seq<RepairRoute>, rounds: nat, cost: nat, tally: map<NodeId, nat>) {
    && rounds == RoundsTotal(routes) && cost == RoundsCost(routes)
    && (forall t :: Tally(tally, t) == TargetRounds(routes, t))
    && (forall t :: t in tally <==> Targeted(routes, t))
  }

  lemma TalliedStep(routes: seq<RepairRoute>, route: RepairRoute, rounds: nat, cost: nat, tally: map<NodeId, nat>,
                    next: map<NodeId, nat>)
    requires Tallied(routes, rounds, cost, tally)
    requires forall t :: Tally(next, t) == Tally(tally, t) + if Names(route.targets, t) then route.maxRounds else 0
    requires forall t :: t in next <==> t in tally || Names(route.targets, t)
    ensures Tallied(routes + [route], rounds + route.maxRounds, cost + (|route.targets| + 1) * route.maxRounds, next)
  {
    var more := routes + [route];
    assert more[..|more| - 1] == routes;
    forall t ensures Targeted(more, t) <==> Targeted(routes, t) || Names(route.targets, t) {
      if Targeted(routes, t) {
        var i :| 0 <= i < |routes| && Names(routes[i].targets, t);
        assert Names(more[i].targets, t);
      }
      if Names(route.targets, t) {
        assert Names(more[|routes|].targets, t);
      }
    }
  }

  /** The checks handled by the routes read so far. */
  function Handled(routes: seq<RepairRoute>): set<Name> {
    if routes == [] then {} else Handled(routes[..|routes| - 1]) + routes[|routes| - 1].checkIds
  }

  lemma {:induction false} HandledBySome(routes: seq<RepairRoute>, check: Name)
    ensures check in Handled(routes) <==> exists i :: 0 <= i < |routes| && check in routes[i].checkIds
    decreases |routes|
  {
    if routes != [] {
      var init := routes[..|routes| - 1];
      HandledBySome(init, check);
      if i :| 0 <= i < |routes| && check in routes[i].checkIds {
        assert i < |init| ==> check in init[i].checkIds;
      }
    }
  }

  lemma RoutesStep(flow: Flow, n: NodeId, routes: seq<RepairRoute>, route: RepairRoute)
    requires n in flow.nodes
    ensures RoutesAccepted(flow, n, routes + [route]) <==>
      && RoutesAccepted(flow, n, routes) && route.checkIds <= flow.nodes[n].ports.checks
      && TargetsAccepted(flow, n, route.targets) && (forall i :: 0 <= i < |routes| ==> routes[i].id != route.id)
      && route.checkIds !! Handled(routes)
  {
    var more := routes + [route];
    assert more[|routes|] == route && forall i :: 0 <= i < |routes| ==> more[i] == routes[i];
    forall check | check in route.checkIds
      ensures check in Handled(routes) <==> exists i :: 0 <= i < |routes| && check in routes[i].checkIds
    {
      HandledBySome(routes, check);
    }
    if RoutesAccepted(flow, n, more) {
      forall i | 0 <= i < |routes|
        ensures routes[i].checkIds <= flow.nodes[n].ports.checks && TargetsAccepted(flow, n, routes[i].targets)
        ensures routes[i].id != route.id && routes[i].checkIds !! route.checkIds
      {
        assert more[i] == routes[i];
      }
    }
  }

  /** The ids and the checks of the routes read so far. */
  ghost predicate Seen(routes: seq<RepairRoute>, ids: set<Name>, handled: set<Name>) {
    handled == Handled(routes) && forall id :: id in ids <==> exists i :: 0 <= i < |routes| && routes[i].id == id
  }

  predicate RouteFits(flow: Flow, n: NodeId, route: RepairRoute, ids: set<Name>, handled: set<Name>)
    requires n in flow.nodes
  {
    && route.id !in ids && route.checkIds <= flow.nodes[n].ports.checks
    && route.checkIds !! handled && TargetsAccepted(flow, n, route.targets)
  }

  lemma SeenStep(flow: Flow, n: NodeId, routes: seq<RepairRoute>, route: RepairRoute, ids: set<Name>, handled: set<Name>)
    requires n in flow.nodes && Seen(routes, ids, handled)
    ensures RoutesAccepted(flow, n, routes + [route]) <==>
      RoutesAccepted(flow, n, routes) && RouteFits(flow, n, route, ids, handled)
    ensures Seen(routes + [route], ids + {route.id}, handled + route.checkIds)
  {
    RoutesStep(flow, n, routes, route);
    HandledStep(routes, route);
    var more := routes + [route];
    forall id ensures id in ids + {route.id} <==> exists i :: 0 <= i < |more| && more[i].id == id {
      if id == route.id {
        assert more[|routes|].id == id;
      }
      if i :| 0 <= i < |routes| && routes[i].id == id {
        assert more[i].id == id;
      }
    }
  }

  /** One route: its id, its checks, its targets. */
  method CheckRepairRoute(flow: Flow, n: NodeId, route: RepairRoute, ids: set<Name>, handled: set<Name>, tally: map<NodeId, nat>)
    returns (issues: set<Issue>, next: map<NodeId, nat>)
    requires n in flow.nodes && tally.Keys <= flow.nodes.Keys
    ensures issues == {} <==> RouteFits(flow, n, route, ids, handled)
    ensures next.Keys <= flow.nodes.Keys
    ensures issues == {} ==> forall t :: Tally(next, t) == Tally(tally, t) + if Names(route.targets, t) then route.maxRounds else 0
    ensures issues == {} ==> forall t :: t in next <==> t in tally || Names(route.targets, t)
  {
    issues := {};
    if route.id in ids {
      issues := issues + {DuplicateRepairRoute(n)};
    }
    if exists check :: check in route.checkIds && check !in flow.nodes[n].ports.checks {
      issues := issues + {UnknownRepairCheck(n)};
    }
    if exists check :: check in route.checkIds && check in handled {
      issues := issues + {AmbiguousRepairCheck(n)};
    }
    var found;
    found, next := CheckTargets(flow, n, route, tally);
    issues := issues + found;
  }

  method CheckRoutes(flow: Flow, n: NodeId, routes: seq<RepairRoute>)
    returns (issues: set<Issue>, rounds: nat, cost: nat, tally: map<NodeId, nat>)
    requires n in flow.nodes
    ensures issues == {} <==> RoutesAccepted(flow, n, routes)
    ensures issues == {} ==> Tallied(routes, rounds, cost, tally)
    ensures tally.Keys <= flow.nodes.Keys
  {
    issues, rounds, cost, tally := {}, 0, 0, map[];
    var ids: set<Name>, handled: set<Name> := {}, {};
    for i := 0 to |routes|
      invariant issues == {} <==> RoutesAccepted(flow, n, routes[..i])
      invariant issues == {} ==> Tallied(routes[..i], rounds, cost, tally)
      invariant tally.Keys <= flow.nodes.Keys && Seen(routes[..i], ids, handled)
    {
      var route := routes[i];
      assert routes[..i + 1] == routes[..i] + [route];
      SeenStep(flow, n, routes[..i], route, ids, handled);
      var found, next := CheckRepairRoute(flow, n, route, ids, handled, tally);
      if issues == {} && found == {} {
        TalliedStep(routes[..i], route, rounds, cost, tally, next);
      }
      issues, tally := issues + found, next;
      ids, handled := ids + {route.id}, handled + route.checkIds;
      rounds := rounds + route.maxRounds;
      cost := cost + (|route.targets| + 1) * route.maxRounds;
    }
    assert routes[..|routes|] == routes;
  }

  lemma HandledStep(routes: seq<RepairRoute>, route: RepairRoute)
    ensures Handled(routes + [route]) == Handled(routes) + route.checkIds
  {
    assert (routes + [route])[..|routes + [route]| - 1] == routes;
  }

  method CheckRepair(flow: Flow, n: NodeId) returns (issues: set<Issue>, cost: nat)
    requires n in flow.nodes
    ensures issues == {} <==> RepairAccepted(flow, n)
    ensures issues == {} ==> cost == RepairCost(flow, n)
  {
    issues, cost := {}, 0;
    if flow.nodes[n].repair.None? { return; }
    if !flow.nodes[n].isIntegration {
      issues := {RepairOnNonIntegration(n)};
      return;
    }
    var routes := flow.nodes[n].repair.value;
    var rounds, tally;
    issues, rounds, cost, tally := CheckRoutes(flow, n, routes);
    if AttemptLimit(flow.nodes[n]) < 1 + rounds {
      issues := issues + {RepairAttemptBudget(n)};
    }
    if t :| t in tally && AttemptLimit(flow.nodes[t]) < 1 + tally[t] {
      issues := issues + {RepairAttemptBudget(t)};
    }
  }

  lemma {:induction false} SumStep(ids: seq<nat>, f: nat -> nat, i: nat)
    requires i < |ids|
    ensures Sum(ids[..i + 1], f) == Sum(ids[..i], f) + f(ids[i])
  {
    if i == 0 {
      assert ids[..1] == [ids[0]] && ids[..0] == [];
    } else {
      SumStep(ids[1..], f, i - 1);
      assert ids[..i + 1][1..] == ids[1..][..i] && ids[..i][1..] == ids[1..][..i - 1];
    }
  }

  /** The sort of the required edges: fewer visited nodes than declared nodes means CYCLE. */
  method HasCycle(flow: Flow) returns (cyclic: bool)
    requires Closed(NeedsOf(flow))
    ensures cyclic <==> !Acyclic(NeedsOf(flow))
  {
    var visited := K.Sort(NeedsOf(flow));
    cyclic := |visited| != |flow.nodes|;
    assert NeedsOf(flow).Keys == flow.nodes.Keys;
    assert |NeedsOf(flow)| == |NeedsOf(flow).Keys| && |flow.nodes| == |flow.nodes.Keys|;
  }

  /** The control-edge checks report nothing exactly when the contract is acceptable. */
  method ValidateControl(flow: Flow) returns (issues: set<Issue>)
    requires Readable(flow)
    ensures issues == {} <==> ControlAccepted(flow)
  {
    issues := {};
    var cyclic := HasCycle(flow);
    if cyclic {
      issues := issues + {Cycle};
    }
    var loopIssues, loopFloor := LoopFloor(flow);
    issues := issues + loopIssues;
    if flow.budgets.maxTotalAttempts < loopFloor {
      issues := issues + {LoopTotalAttemptBudget};
    }
    var repairIssues, repairFloor := RepairFloor(flow, loopFloor);
    issues := issues + repairIssues;
    if flow.budgets.maxTotalAttempts < repairFloor {
      issues := issues + {RepairTotalAttemptBudget};
    }
  }

  ghost predicate LoopsAccepted(flow: Flow, i: nat)
    requires i <= |flow.ids| && Listed(flow)
  {
    forall j {:trigger flow.ids[j]} :: 0 <= j < i ==>
      flow.ids[j] in flow.ids && RouteAccepted(flow, flow.ids[j]) && LoopAccepted(flow, flow.ids[j])
  }

  lemma AllLoopsAccepted(flow: Flow)
    requires Listed(flow)
    ensures LoopsAccepted(flow, |flow.ids|) <==> forall n :: n in flow.nodes ==> RouteAccepted(flow, n) && LoopAccepted(flow, n)
  {
    forall n | n in flow.nodes ensures exists j :: 0 <= j < |flow.ids| && flow.ids[j] == n { assert n in flow.ids; }
    forall j | 0 <= j < |flow.ids| ensures flow.ids[j] in flow.nodes { assert flow.ids[j] in flow.ids; }
  }

  method LoopFloor(flow: Flow) returns (issues: set<Issue>, floor: nat)
    requires Readable(flow)
    ensures issues == {} <==> forall n :: n in flow.nodes ==> RouteAccepted(flow, n) && LoopAccepted(flow, n)
    ensures issues == {} ==> floor == |flow.ids| + Sum(flow.ids, LoopCosts(flow))
  {
    issues, floor := {}, |flow.ids|;
    for i := 0 to |flow.ids|
      invariant issues == {} <==> LoopsAccepted(flow, i)
      invariant issues == {} ==> floor == |flow.ids| + Sum(flow.ids[..i], LoopCosts(flow))
    {
      assert flow.ids[i] in flow.ids;
      var routed := CheckRoute(flow, flow.ids[i]);
      var found, cost := CheckLoop(flow, flow.ids[i]);
      SumStep(flow.ids, LoopCosts(flow), i);
      issues, floor := issues + routed + found, floor + cost;
    }
    assert flow.ids[..|flow.ids|] == flow.ids;
    AllLoopsAccepted(flow);
  }

  method RepairFloor(flow: Flow, start: nat) returns (issues: set<Issue>, floor: nat)
    requires Readable(flow)
    ensures issues == {} <==> forall n :: n in flow.nodes ==> RepairAccepted(flow, n)
    ensures floor >= start
    ensures issues == {} ==> floor == start + Sum(flow.ids, RepairCosts(flow))
  {
    issues, floor := {}, start;
    for i := 0 to |flow.ids|
      invariant issues == {} <==> forall j :: 0 <= j < i ==> RepairAccepted(flow, flow.ids[j])
      invariant floor >= start
      invariant issues == {} ==> floor == start + Sum(flow.ids[..i], RepairCosts(flow))
    {
      assert flow.ids[i] in flow.ids;
      var found, cost := CheckRepair(flow, flow.ids[i]);
      SumStep(flow.ids, RepairCosts(flow), i);
      issues, floor := issues + found, floor + cost;
    }
    assert flow.ids[..|flow.ids|] == flow.ids;
    forall n | n in flow.nodes ensures exists j :: 0 <= j < |flow.ids| && flow.ids[j] == n { assert n in flow.ids; }
  }

  // ---------------------------------------------------------------- what a repair may cost

  /** The targets of a route, as a set. */
  function TargetSet(targets: seq<RepairTarget>): set<NodeId> { set i | 0 <= i < |targets| :: targets[i].node }

  lemma {:induction false} DistinctTargets(targets: seq<RepairTarget>)
    requires DistinctNodes(targets)
    ensures |TargetSet(targets)| == |targets|
    decreases |targets|
  {
    if targets != [] {
      var k: nat := |targets| - 1;
      var init := targets[..k];
      DistinctTargets(init);
      assert forall i :: 0 <= i < k ==> init[i] == targets[i];
      assert TargetSet(targets) == TargetSet(init) + {targets[k].node};
    }
  }

  function Share(region: set<NodeId>, rounds: nat): nat -> nat { t => if t in region then rounds else 0 }

  /** A share of `rounds` for every node of a region. */
  lemma {:induction false} SumOfShares(ids: seq<NodeId>, region: set<NodeId>, rounds: nat)
    requires Distinct(ids) && forall t :: t in region ==> t in ids
    ensures Sum(ids, Share(region, rounds)) == |region| * rounds
    decreases |region|
  {
    if region == {} {
      SumBound(ids, Share(region, rounds), 0);
    } else {
      var t :| t in region;
      var fewer := region - {t};
      SumOfShares(ids, fewer, rounds);
      SumDelta(ids, Share(fewer, rounds), Share(region, rounds), t);
      OneMore(|fewer|, rounds);
    }
  }

  lemma OneMore(count: nat, rounds: nat)
    ensures (count + 1) * rounds == count * rounds + rounds
  {
  }

  lemma {:induction false} SumOfBoth(ids: seq<NodeId>, f: nat -> nat, g: nat -> nat, both: nat -> nat)
    requires forall t :: t in ids ==> both(t) == f(t) + g(t)
    ensures Sum(ids, both) == Sum(ids, f) + Sum(ids, g)
  {
    if ids != [] {
      SumOfBoth(ids[1..], f, g, both);
    }
  }

  function RoundsOf(routes: seq<RepairRoute>): nat -> nat { t => TargetRounds(routes, t) }

  /**
   What the validator adds for the repair routes of a node is what their rounds can rerun: the integration once for every
   round, and every node once for every round of every route that names it.
   */
  lemma {:induction false} CostCountsReruns(ids: seq<NodeId>, routes: seq<RepairRoute>)
    requires Distinct(ids)
    requires forall i :: 0 <= i < |routes| ==>
      DistinctNodes(routes[i].targets) && forall k :: 0 <= k < |routes[i].targets| ==> routes[i].targets[k].node in ids
    ensures RoundsCost(routes) == RoundsTotal(routes) + Sum(ids, RoundsOf(routes))
    decreases |routes|
  {
    if routes == [] {
      SumBound(ids, RoundsOf(routes), 0);
    } else {
      var k: nat := |routes| - 1;
      var init, last := routes[..k], routes[k];
      assert forall i :: 0 <= i < k ==> init[i] == routes[i];
      CostCountsReruns(ids, init);
      DistinctTargets(last.targets);
      SumOfShares(ids, TargetSet(last.targets), last.maxRounds);
      OneMore(|last.targets|, last.maxRounds);
      LastRoute(ids, routes);
    }
  }

  lemma LastRoute(ids: seq<NodeId>, routes: seq<RepairRoute>)
    requires routes != []
    ensures var init, last := routes[..|routes| - 1], routes[|routes| - 1];
      Sum(ids, RoundsOf(routes)) == Sum(ids, RoundsOf(init)) + Sum(ids, Share(TargetSet(last.targets), last.maxRounds))
  {
    var init, last := routes[..|routes| - 1], routes[|routes| - 1];
    SumOfBoth(ids, RoundsOf(init), Share(TargetSet(last.targets), last.maxRounds), RoundsOf(routes));
  }
}
