/**
 The validated workflow contract: what a node declares, what the run as a whole may spend, and the
 part of the validator that bounds loops and repairs.
 */
module Workflow {
  import opened Prelude
  import opened Graph

  /** A node id is represented by its rank in the sorted order of the workflow's ids. */
  type NodeId = nat
  type Name = string
  type Digest = string
  type Token = string
  type Time = int

  datatype Status =
    Pending | Running | Succeeded | Failed | OptionalFailed | Blocked | Cancelled | Uncertain | Skipped

  /** `Scheduler.TERMINAL` */
  predicate Terminal(s: Status) { !s.Pending? && !s.Running? }

  datatype Effect = NoEffect | ReadEffect | IdempotentWrite | NonIdempotentWrite
  datatype Permission = Read | Write | External | Destructive
  datatype Policy = All | AllSettled | AnyOf | NOfM(n: nat) | Majority

  datatype RepairTarget = RepairTarget(node: NodeId, input: Name)
  datatype RepairRoute = RepairRoute(
    id: Name, checkIds: set<Name>, targets: seq<RepairTarget>, maxRounds: nat, noProgressLimit: nat)
  datatype Loop = Loop(target: NodeId, output: Name, maxIterations: nat)
  datatype Route = Route(producer: NodeId, output: Name)
  datatype Retry = Retry(maxAttempts: Option<nat>, noProgressLimit: Option<nat>)
  datatype Progress = Progress(maxElapsed: Option<nat>, maxChecks: Option<nat>)

  /** An input is bound to an output of another node. */
  datatype Binding = Binding(producer: NodeId, output: Name)
  datatype Ports = Ports(inputs: map<Name, Binding>, outputs: set<Name>, checks: set<Name>)

  datatype NodeSpec = NodeSpec(
    needs: set<NodeId>,
    required: bool,
    isAgent: bool,
    isIntegration: bool,
    ports: Ports,
    effect: Option<Effect>,
    permission: Permission,
    idempotencyKey: bool,
    join: Option<Policy>,
    route: Option<Route>,
    loop: Option<Loop>,
    repair: Option<seq<RepairRoute>>,
    retry: Retry,
    progress: Progress,
    timeout: Option<nat>)

  datatype Budgets = Budgets(maxConcurrency: nat, maxTotalAttempts: nat, maxAttemptsPerNode: nat, timeout: nat)

  /** `ids` lists the node ids in sorted order, as `sorted(self.nodes.items())` does. */
  datatype Flow = Flow(
    ids: seq<NodeId>, nodes: map<NodeId, NodeSpec>, budgets: Budgets, outputs: set<(NodeId, Name)>)

  /** The dependency graph of a workflow. */
  function NeedsOf(flow: Flow): (g: Needs<NodeId>) { map n | n in flow.nodes :: flow.nodes[n].needs }

  ghost predicate Listed(flow: Flow) { forall n :: n in flow.ids <==> n in flow.nodes }

  /** What the validator's structural checks establish before anything is run. */
  ghost predicate WellFormed(flow: Flow) {
    && Increasing(flow.ids) && Listed(flow)
    && Closed(NeedsOf(flow))
    && (forall n :: n in flow.nodes && flow.nodes[n].loop.Some? ==>
          flow.nodes[n].loop.value.target in flow.nodes && flow.nodes[n].loop.value.maxIterations >= 1)
    && (forall n :: n in flow.nodes && flow.nodes[n].route.Some? ==> flow.nodes[n].route.value.producer in flow.nodes)
    && (forall n :: n in flow.nodes && flow.nodes[n].repair.Some? ==> RoutesWellFormed(flow, flow.nodes[n].repair.value))
  }

  ghost predicate RoutesWellFormed(flow: Flow, routes: seq<RepairRoute>) {
    && (forall i :: 0 <= i < |routes| ==> TargetsWellFormed(flow, routes[i].targets))
    && (forall i, j :: 0 <= i < j < |routes| ==> routes[i].id != routes[j].id)
  }

  /** Each target is a declared node and no route names one node twice (DUPLICATE_REPAIR_TARGET_NODE). */
  ghost predicate TargetsWellFormed(flow: Flow, targets: seq<RepairTarget>) {
    && (forall i :: 0 <= i < |targets| ==> targets[i].node in flow.nodes)
    && (forall i, j :: 0 <= i < j < |targets| ==> targets[i].node != targets[j].node)
  }

  /** `_replay_safe` */
  predicate ReplaySafe(node: NodeSpec) {
    match node.effect
    case Some(NoEffect) => true
    case Some(ReadEffect) => true
    case Some(IdempotentWrite) => node.idempotencyKey
    case Some(NonIdempotentWrite) => false
    case None => node.permission.Read?
  }

  /** Doing the node's work twice may do harm. */
  predicate Unrepeatable(node: NodeSpec) {
    || node.effect == Some(NonIdempotentWrite)
    || (node.effect == Some(IdempotentWrite) && !node.idempotencyKey)
    || (node.effect.None? && !node.permission.Read?)
  }

  lemma SafeUnlessUnrepeatable(node: NodeSpec)
    ensures ReplaySafe(node) <==> !Unrepeatable(node)
  {
  }

  /** The limit `_try_repair` passes to the store: `retry.max_attempts`, one when undeclared. */
  function AttemptLimit(node: NodeSpec): nat {
    if node.retry.maxAttempts.Some? then node.retry.maxAttempts.value else 1
  }

  /** The limit `_finalize_attempt` retries under. */
  function RetryLimit(flow: Flow, node: NodeSpec): nat {
    Min(if node.retry.maxAttempts.Some? then node.retry.maxAttempts.value else flow.budgets.maxAttemptsPerNode,
        flow.budgets.maxAttemptsPerNode)
  }

  /** `progress_budget` */
  function ElapsedBudget(flow: Flow, node: NodeSpec): nat {
    match node.progress.maxElapsed
    case Some(limit) => limit
    case None =>
      match node.timeout
      case Some(perAttempt) => Min(flow.budgets.timeout, perAttempt * AttemptLimit(node))
      case None => flow.budgets.timeout
  }

  function NoProgressLimit(node: NodeSpec): nat {
    if node.retry.noProgressLimit.Some? then node.retry.noProgressLimit.value else 1
  }

  /** Joins whose reserve voters stay idle while the decision is open. */
  predicate IsQuorum(p: Policy) { p.AnyOf? || p.NOfM? || p.Majority? }

  /** The nodes a loop decision reopens: target, controller, and everything on a path between them. */
  ghost predicate InLoop(flow: Flow, controller: NodeId, target: NodeId, n: NodeId) {
    || n == target || n == controller
    || (Ancestor(NeedsOf(flow), target, n) && Ancestor(NeedsOf(flow), n, controller))
  }

  ghost function LoopRegion(flow: Flow, controller: NodeId, target: NodeId): (region: set<NodeId>) {
    set n | n in flow.nodes && InLoop(flow, controller, target, n)
  }

  /** One candidate of the region comprehension, which walks the candidate's own ancestors. */
  method OnLoop(flow: Flow, controller: NodeId, target: NodeId, upstream: set<NodeId>, n: NodeId) returns (on: bool)
    requires Closed(NeedsOf(flow)) && n in flow.nodes
    requires forall a :: a in upstream <==> Ancestor(NeedsOf(flow), a, controller)
    ensures on <==> InLoop(flow, controller, target, n)
  {
    var below := Ancestors(NeedsOf(flow), n);
    on := n == target || n == controller || (target in below && n in upstream);
  }

  /** `_loop_region` at run time, and the same comprehension in the validator. */
  method FindLoopRegion(flow: Flow, controller: NodeId, target: NodeId) returns (region: set<NodeId>)
    requires Listed(flow) && Closed(NeedsOf(flow)) && controller in flow.nodes
    ensures region == LoopRegion(flow, controller, target)
  {
    ghost var all := LoopRegion(flow, controller, target);
    var upstream := Ancestors(NeedsOf(flow), controller);
    region := {};
    for i := 0 to |flow.ids|
      invariant region <= all
      invariant forall j :: 0 <= j < i && flow.ids[j] in all ==> flow.ids[j] in region
    {
      assert flow.ids[i] in flow.ids;
      var on := OnLoop(flow, controller, target, upstream, flow.ids[i]);
      if on {
        region := region + {flow.ids[i]};
      }
    }
    forall n | n in all ensures n in region { assert n in flow.ids; }
  }

  /** Attempts one loop may add: its region once for every iteration after the first. */
  ghost function LoopCost(flow: Flow, n: NodeId): nat {
    if n in flow.nodes && flow.nodes[n].loop.Some? && flow.nodes[n].loop.value.maxIterations >= 1 then
      var loop := flow.nodes[n].loop.value;
      |LoopRegion(flow, n, loop.target)| * (loop.maxIterations - 1)
    else 0
  }

  function RoundsCost(routes: seq<RepairRoute>): nat {
    if routes == [] then 0
    else RoundsCost(routes[..|routes| - 1]) + (|routes[|routes| - 1].targets| + 1) * routes[|routes| - 1].maxRounds
  }

  /** Attempts the repair routes of one node may add: each round reruns its targets and the integration. */
  function RepairCost(flow: Flow, n: NodeId): nat {
    if n in flow.nodes && flow.nodes[n].repair.Some? then RoundsCost(flow.nodes[n].repair.value) else 0
  }

  ghost function LoopCosts(flow: Flow): nat -> nat { n => LoopCost(flow, n) }
  function RepairCosts(flow: Flow): nat -> nat { n => RepairCost(flow, n) }

  /** The worst case that `validate_workflow` compares with `max_total_attempts`. */
  ghost function AttemptFloor(flow: Flow): nat {
    |flow.ids| + Sum(flow.ids, LoopCosts(flow)) + Sum(flow.ids, RepairCosts(flow))
  }
}
