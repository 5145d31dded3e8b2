/**
 Running a node as a remote task (`execute_a2a`): preflight, read the durable binding, send a message, bind
 the task it created, poll and accept that task.  Any number of workers, live or replaced, go through these
 steps, interleaved at will, and any of them can crash between two steps.
 */
module RemoteTask {
  import opened Prelude
  import Store
  import Workflow

  type TaskId = string
  type WorkerId = nat

  datatype NodeKey = NodeKey(runId: string, nodeId: string)

  /** Profile, protocol version, interface and the two digests of the Agent Card, as one value. */
  type Identity = string

  datatype Binding = Binding(task: TaskId, attempt: nat, identity: Identity)

  datatype Phase =
    | Preflight                                     // the Agent Card has been checked
    | Unbound                                       // no binding was found
    | Submitted(task: TaskId)                       // the remote answered with a task
    | Bound(task: TaskId)                           // the durable binding names this task
    | Finished(result: Option<TaskId>)              // the result of a task, or of a direct message, was handed back
    | Gone                                          // failed, refused or crashed

  datatype Worker = Worker(node: NodeKey, attempt: nat, identity: Identity, phase: Phase)

  /** A message that reached the remote and the task it was answered with; a use of a task by a worker. */
  datatype Sent = Sent(message: string, task: TaskId)
  datatype Use = Use(node: NodeKey, task: TaskId)

  datatype World = World(
    active: map<NodeKey, nat>,                      // the running attempt of each running node
    attempts: map<NodeKey, nat>,                    // attempts started so far
    bindings: map<NodeKey, Binding>,
    created: set<Sent>,
    workers: map<WorkerId, Worker>,
    polled: set<Use>,
    accepted: set<Use>)

  datatype Step =
    | Start(w: WorkerId, node: NodeKey, identity: Identity)
    | Settle(node: NodeKey)                         // the node stops running, for whatever reason
    | ReadBinding(w: WorkerId)
    | Send(w: WorkerId, task: TaskId, lost: bool)   // answered with a task; the answer may get lost
    | SendDirect(w: WorkerId)                       // answered with a message
    | Bind(w: WorkerId)
    | Poll(w: WorkerId, answer: TaskId)
    | Accept(w: WorkerId)
    | Crash(w: WorkerId)

  function Mover(step: Step): Option<WorkerId> {
    match step
    case Start(w, _, _) => Some(w)
    case Settle(_) => None
    case ReadBinding(w) => Some(w)
    case Send(w, _, _) => Some(w)
    case SendDirect(w) => Some(w)
    case Bind(w) => Some(w)
    case Poll(w, _) => Some(w)
    case Accept(w) => Some(w)
    case Crash(w) => Some(w)
  }

  /** The message id of a node, the same for all its attempts. */
  type MessageIds = NodeKey -> string

  function Initial(): World { World(map[], map[], map[], {}, map[], {}, {}) }

  function Started(s: World, n: NodeKey): nat { if n in s.attempts then s.attempts[n] else 0 }

  predicate In(s: World, w: WorkerId, phase: Phase) { w in s.workers && s.workers[w].phase == phase }

  predicate Enabled(s: World, step: Step) {
    match step
    case Start(w, node, _) => w !in s.workers && node !in s.active
    case Settle(_) => true
    case ReadBinding(w) => In(s, w, Preflight)
    case Send(w, _, _) => In(s, w, Unbound)
    case SendDirect(w) => In(s, w, Unbound)
    case Bind(w) => w in s.workers && s.workers[w].phase.Submitted?
    case Poll(w, _) => w in s.workers && s.workers[w].phase.Bound?
    case Accept(w) => w in s.workers && s.workers[w].phase.Bound?
    case Crash(w) => w in s.workers && !s.workers[w].phase.Finished?
  }

  function Enter(s: World, w: WorkerId, phase: Phase): World
    requires w in s.workers
  {
    s.(workers := s.workers[w := s.workers[w].(phase := phase)])
  }

  /** Whether the attempt of a worker is the one its node is running. */
  predicate Current(s: World, w: WorkerId) {
    w in s.workers && s.workers[w].node in s.active && s.active[s.workers[w].node] == s.workers[w].attempt
  }

  /** `bind_remote_task`: only the active attempt binds, and a binding never changes. */
  function Binds(s: World, w: WorkerId): World
    requires w in s.workers && s.workers[w].phase.Submitted?
  {
    var worker := s.workers[w];
    var binding := Binding(worker.phase.task, worker.attempt, worker.identity);
    if !Current(s, w) then Enter(s, w, Gone)
    else if worker.node in s.bindings then
      Enter(s, w, if s.bindings[worker.node] == binding then Bound(binding.task) else Gone)
    else Enter(s.(bindings := s.bindings[worker.node := binding]), w, Bound(binding.task))
  }

  function Next(ids: MessageIds, s: World, step: Step): World
    requires Enabled(s, step)
  {
    match step
    case Start(w, node, identity) =>
      var number := Started(s, node) + 1;
      s.(active := s.active[node := number], attempts := s.attempts[node := number],
         workers := s.workers[w := Worker(node, number, identity, Preflight)])
    case Settle(node) => s.(active := s.active - {node})
    case ReadBinding(w) =>
      var worker := s.workers[w];
      if worker.node !in s.bindings then Enter(s, w, Unbound)
      else if s.bindings[worker.node].identity == worker.identity then Enter(s, w, Bound(s.bindings[worker.node].task))
      else Enter(s, w, Gone)
    case Send(w, task, lost) =>
      Enter(s.(created := s.created + {Sent(ids(s.workers[w].node), task)}), w, if lost then Gone else Submitted(task))
    case SendDirect(w) => Enter(s, w, Finished(None))
    case Bind(w) => Binds(s, w)
    case Poll(w, answer) =>
      var task := s.workers[w].phase.task;
      Enter(s.(polled := s.polled + {Use(s.workers[w].node, task)}), w, if answer == task then Bound(task) else Gone)
    case Accept(w) =>
      var task := s.workers[w].phase.task;
      Enter(s.(accepted := s.accepted + {Use(s.workers[w].node, task)}), w, Finished(Some(task)))
    case Crash(w) => Enter(s, w, Gone)
  }

  predicate Run(ids: MessageIds, steps: seq<Step>)
    decreases |steps|, 0
  {
    steps == [] || (Run(ids, steps[..|steps| - 1]) && Enabled(After(ids, steps[..|steps| - 1]), steps[|steps| - 1]))
  }

  function After(ids: MessageIds, steps: seq<Step>): World
    requires Run(ids, steps)
    decreases |steps|, 1
  {
    if steps == [] then Initial() else Next(ids, After(ids, steps[..|steps| - 1]), steps[|steps| - 1])
  }

  // ---------------------------------------------------------------- one task per node

  predicate IsBound(s: World, n: NodeKey, t: TaskId) { n in s.bindings && s.bindings[n].task == t }

  predicate WorkerInv(ids: MessageIds, s: World, worker: Worker) {
    match worker.phase
    case Submitted(t) => Sent(ids(worker.node), t) in s.created
    case Bound(t) => IsBound(s, worker.node, t)
    case Finished(Some(t)) => IsBound(s, worker.node, t)
    case _ => true
  }

  ghost predicate Inv(ids: MessageIds, s: World) {
    && (forall w: WorkerId :: WorkerOk(ids, s, w))
    && (forall n :: n in s.bindings ==> Sent(ids(n), s.bindings[n].task) in s.created)
    && (forall u :: u in s.polled + s.accepted ==> IsBound(s, u.node, u.task))
    && (forall m :: m in s.created ==> exists n: NodeKey :: m.message == ids(n))
  }

  /** A binding, once made, stays as it is. */
  ghost predicate KeepsBindings(s: World, t: World) {
    forall n :: n in s.bindings ==> n in t.bindings && t.bindings[n] == s.bindings[n]
  }

  lemma StepKeepsBindings(ids: MessageIds, s: World, step: Step)
    requires Enabled(s, step)
    ensures KeepsBindings(s, Next(ids, s, step))
    ensures s.created <= Next(ids, s, step).created
  {
  }

  predicate WorkerOk(ids: MessageIds, s: World, w: WorkerId) {
    w in s.workers ==> WorkerInv(ids, s, s.workers[w]) && s.workers[w].attempt <= Started(s, s.workers[w].node)
  }

  /** A worker that the step does not move. */
  lemma OthersStayOk(ids: MessageIds, s: World, t: World, w: WorkerId)
    requires WorkerOk(ids, s, w) && w in s.workers && w in t.workers && t.workers[w] == s.workers[w]
    requires KeepsBindings(s, t) && s.created <= t.created && forall n :: Started(s, n) <= Started(t, n)
    ensures WorkerOk(ids, t, w)
  {
  }

  /** The worker that takes the step. */
  lemma MoverStaysOk(ids: MessageIds, s: World, step: Step, w: WorkerId)
    requires Enabled(s, step) && Mover(step) == Some(w) && WorkerOk(ids, s, w)
    requires forall n :: n in s.bindings ==> Sent(ids(n), s.bindings[n].task) in s.created
    ensures WorkerOk(ids, Next(ids, s, step), w)
  {
  }

  lemma StepKeepsWorkers(ids: MessageIds, s: World, step: Step)
    requires Inv(ids, s) && Enabled(s, step)
    ensures forall w: WorkerId :: WorkerOk(ids, Next(ids, s, step), w)
  {
    forall w: WorkerId ensures WorkerOk(ids, Next(ids, s, step), w) {
      WorkerStaysOk(ids, s, step, w);
    }
  }

  lemma WorkerStaysOk(ids: MessageIds, s: World, step: Step, w: WorkerId)
    requires Inv(ids, s) && Enabled(s, step)
    ensures WorkerOk(ids, Next(ids, s, step), w)
  {
    if Mover(step) == Some(w) {
      MoverStaysOk(ids, s, step, w);
    } else if w in s.workers {
      StepKeepsBindings(ids, s, step);
      StepKeepsOthers(ids, s, step, w);
      OthersStayOk(ids, s, Next(ids, s, step), w);
    } else {
      StepAddsMover(ids, s, step, w);
    }
  }

  lemma StepKeepsOthers(ids: MessageIds, s: World, step: Step, w: WorkerId)
    requires Enabled(s, step) && Mover(step) != Some(w) && w in s.workers
    ensures var t := Next(ids, s, step); w in t.workers && t.workers[w] == s.workers[w]
    ensures forall n :: Started(s, n) <= Started(Next(ids, s, step), n)
  {
  }

  lemma StepAddsMover(ids: MessageIds, s: World, step: Step, w: WorkerId)
    requires Enabled(s, step) && Mover(step) != Some(w) && w !in s.workers
    ensures w !in Next(ids, s, step).workers
  {
  }

  lemma StepKeepsInv(ids: MessageIds, s: World, step: Step)
    requires Inv(ids, s) && Enabled(s, step)
    ensures Inv(ids, Next(ids, s, step))
  {
    StepKeepsWorkers(ids, s, step);
    if Mover(step).Some? { assert WorkerOk(ids, s, Mover(step).value); }
    StepKeepsOrigins(ids, s, step);
    StepKeepsUses(ids, s, step);
  }

  /** What is bound was created, and what was created answers some node. */
  lemma StepKeepsOrigins(ids: MessageIds, s: World, step: Step)
    requires Inv(ids, s) && Enabled(s, step) && (Mover(step).Some? ==> WorkerOk(ids, s, Mover(step).value))
    ensures var t := Next(ids, s, step);
      && (forall n :: n in t.bindings ==> Sent(ids(n), t.bindings[n].task) in t.created)
      && (forall m :: m in t.created ==> exists n: NodeKey :: m.message == ids(n))
  {
  }

  /** What is used is bound. */
  lemma StepKeepsUses(ids: MessageIds, s: World, step: Step)
    requires Inv(ids, s) && Enabled(s, step) && (Mover(step).Some? ==> WorkerOk(ids, s, Mover(step).value))
    ensures var t := Next(ids, s, step); forall u :: u in t.polled + t.accepted ==> IsBound(t, u.node, u.task)
  {
    StepKeepsBindings(ids, s, step);
  }

  lemma {:induction false} RunKeepsInv(ids: MessageIds, steps: seq<Step>)
    requires Run(ids, steps)
    ensures Inv(ids, After(ids, steps))
    decreases |steps|
  {
    if steps != [] {
      RunKeepsInv(ids, steps[..|steps| - 1]);
      StepKeepsInv(ids, After(ids, steps[..|steps| - 1]), steps[|steps| - 1]);
    }
  }

  lemma {:induction false} BindingsAreForever(ids: MessageIds, steps: seq<Step>, i: nat)
    requires Run(ids, steps) && i <= |steps|
    ensures Run(ids, steps[..i]) && KeepsBindings(After(ids, steps[..i]), After(ids, steps))
    decreases |steps|
  {
    if i == |steps| {
      assert steps[..i] == steps;
    } else {
      var before := steps[..|steps| - 1];
      assert before[..i] == steps[..i];
      BindingsAreForever(ids, before, i);
      StepKeepsBindings(ids, After(ids, before), steps[|steps| - 1]);
    }
  }

  /**
   Whatever crashes, retries and replaced workers do, and whatever the remote answers: for one node no two
   different tasks are ever bound, polled or accepted, at any two moments of a run.
   */
  lemma AtMostOneTask(ids: MessageIds, steps: seq<Step>, i: nat, n: NodeKey, t: TaskId, u: TaskId)
    requires Run(ids, steps) && i <= |steps| && Run(ids, steps[..i])
    requires var s := After(ids, steps[..i]); IsBound(s, n, t) || Use(n, t) in s.polled + s.accepted
    requires var s := After(ids, steps); IsBound(s, n, u) || Use(n, u) in s.polled + s.accepted
    ensures t == u
  {
    RunKeepsInv(ids, steps[..i]);
    RunKeepsInv(ids, steps);
    BindingsAreForever(ids, steps, i);
  }

  /** No message id has been answered with two tasks. */
  ghost predicate Deduplicates(s: World) {
    forall a, b :: a in s.created && b in s.created && a.message == b.message ==> a.task == b.task
  }

  /** The remote answers a message id it has seen with the task it created then (A2A protocol 1.0, section 3.1.1). */
  ghost predicate RemembersNow(ids: MessageIds, s: World, step: Step)
    requires Enabled(s, step)
  {
    step.Send? ==> forall a :: a in s.created && a.message == ids(s.workers[step.w].node) ==> a.task == step.task
  }

  ghost predicate Remembers(ids: MessageIds, steps: seq<Step>)
    requires Run(ids, steps)
    decreases |steps|
  {
    steps == [] ||
      (var before := steps[..|steps| - 1];
       Remembers(ids, before) && RemembersNow(ids, After(ids, before), steps[|steps| - 1]))
  }

  /** A step after which no message id has two tasks is one the remote answered from memory, and conversely. */
  lemma RememberingDeduplicates(ids: MessageIds, s: World, step: Step)
    requires Enabled(s, step)
    ensures Deduplicates(Next(ids, s, step)) <==> Deduplicates(s) && RemembersNow(ids, s, step)
  {
    var t := Next(ids, s, step);
    StepKeepsBindings(ids, s, step);
    if step.Send? {
      var sent := Sent(ids(s.workers[step.w].node), step.task);
      assert t.created == s.created + {sent};
      assert sent in t.created;
    } else {
      assert t.created == s.created;
    }
  }

  /** Over a whole run: messages are deduplicated if and only if every one was answered from memory. */
  lemma {:induction false} MemoryIsDeduplication(ids: MessageIds, steps: seq<Step>)
    requires Run(ids, steps)
    ensures Remembers(ids, steps) <==> Deduplicates(After(ids, steps))
    decreases |steps|
  {
    if steps != [] {
      var before := steps[..|steps| - 1];
      MemoryIsDeduplication(ids, before);
      RememberingDeduplicates(ids, After(ids, before), steps[|steps| - 1]);
    }
  }

  /**
   With such a remote, whatever crashes and retries do, at most one task is ever created for a node's message,
   and it is the only one that is ever bound, polled or accepted.
   */
  lemma AtMostOneCreated(ids: MessageIds, steps: seq<Step>, n: NodeKey, t: TaskId, u: TaskId)
    requires Run(ids, steps) && Remembers(ids, steps) && Sent(ids(n), t) in After(ids, steps).created
    requires var s := After(ids, steps);
      Sent(ids(n), u) in s.created || IsBound(s, n, u) || Use(n, u) in s.polled + s.accepted
    ensures t == u
  {
    MemoryIsDeduplication(ids, steps);
    RunKeepsInv(ids, steps);
  }

  /** A running node runs its newest attempt. */
  ghost predicate RunsNewest(s: World) { forall n :: n in s.active ==> n in s.attempts && s.active[n] == s.attempts[n] }

  /** A worker whose node has started a later attempt. */
  predicate Replaced(s: World, w: WorkerId) { w in s.workers && s.workers[w].attempt < Started(s, s.workers[w].node) }

  lemma StepKeepsNewest(ids: MessageIds, s: World, step: Step)
    requires Enabled(s, step) && RunsNewest(s)
    ensures RunsNewest(Next(ids, s, step))
  {
  }

  lemma StepKeepsReplaced(ids: MessageIds, s: World, step: Step, w: WorkerId)
    requires Enabled(s, step) && Replaced(s, w)
    ensures Replaced(Next(ids, s, step), w)
  {
  }

  lemma {:induction false} RunningIsNewest(ids: MessageIds, steps: seq<Step>)
    requires Run(ids, steps)
    ensures RunsNewest(After(ids, steps))
    decreases |steps|
  {
    if steps != [] {
      RunningIsNewest(ids, steps[..|steps| - 1]);
      StepKeepsNewest(ids, After(ids, steps[..|steps| - 1]), steps[|steps| - 1]);
    }
  }

  /** Attempts are numbered upwards, so a worker replaced by a later attempt can never bind again. */
  lemma {:induction false} ReplacedForever(ids: MessageIds, steps: seq<Step>, i: nat, w: WorkerId)
    requires Run(ids, steps) && i <= |steps| && Run(ids, steps[..i])
    requires Replaced(After(ids, steps[..i]), w)
    ensures Replaced(After(ids, steps), w) && !Current(After(ids, steps), w)
    decreases |steps|
  {
    RunningIsNewest(ids, steps);
    if i == |steps| {
      assert steps[..i] == steps;
    } else {
      var before := steps[..|steps| - 1];
      assert before[..i] == steps[..i];
      ReplacedForever(ids, before, i, w);
      StepKeepsReplaced(ids, After(ids, before), steps[|steps| - 1], w);
    }
  }

  lemma StepAt(ids: MessageIds, steps: seq<Step>, j: nat)
    requires Run(ids, steps) && j < |steps|
    ensures Run(ids, steps[..j]) && Run(ids, steps[..j + 1]) && Enabled(After(ids, steps[..j]), steps[j])
    ensures After(ids, steps[..j + 1]) == Next(ids, After(ids, steps[..j]), steps[j])
  {
    BindingsAreForever(ids, steps, j);
    BindingsAreForever(ids, steps, j + 1);
    assert steps[..j + 1][..j] == steps[..j] && steps[..j + 1][j] == steps[j];
  }

  lemma BindingRefused(ids: MessageIds, s: World, w: WorkerId)
    requires Enabled(s, Bind(w)) && !Current(s, w)
    ensures Next(ids, s, Bind(w)) == Enter(s, w, Gone)
  {
  }

  /** Whenever a worker that was replaced before tries to bind its task, no binding is made and it is turned away. */
  lemma ReplacedWorkerCannotBind(ids: MessageIds, steps: seq<Step>, i: nat, j: nat, w: WorkerId)
    requires Run(ids, steps) && i <= j < |steps| && Run(ids, steps[..i])
    requires Replaced(After(ids, steps[..i]), w) && steps[j] == Bind(w)
    ensures Run(ids, steps[..j]) && Run(ids, steps[..j + 1]) && w in After(ids, steps[..j]).workers
    ensures After(ids, steps[..j + 1]) == Enter(After(ids, steps[..j]), w, Gone)
  {
    StepAt(ids, steps, j);
    assert steps[..j][..i] == steps[..i];
    ReplacedForever(ids, steps[..j], i, w);
    BindingRefused(ids, After(ids, steps[..j]), w);
  }

  lemma Extends(ids: MessageIds, steps: seq<Step>, step: Step)
    requires Run(ids, steps) && Enabled(After(ids, steps), step)
    ensures Run(ids, steps + [step]) && After(ids, steps + [step]) == Next(ids, After(ids, steps), step)
  {
    assert (steps + [step])[..|steps + [step]| - 1] == steps;
  }

  /** The first attempt sends its message, and crashes before it can bind the task. */
  lemma OrphanedTask(ids: MessageIds, n: NodeKey, identity: Identity) returns (steps: seq<Step>)
    ensures steps == [Start(0, n, identity), ReadBinding(0), Send(0, "first", true), Settle(n)]
    ensures Run(ids, steps)
    ensures After(ids, steps).created == {Sent(ids(n), "first")} && After(ids, steps).bindings == map[]
    ensures After(ids, steps).attempts == map[n := 1] && n !in After(ids, steps).active && After(ids, steps).workers.Keys == {0}
  {
    steps := [];
    Extends(ids, steps, Start(0, n, identity));
    steps := steps + [Start(0, n, identity)];
    Extends(ids, steps, ReadBinding(0));
    steps := steps + [ReadBinding(0)];
    Extends(ids, steps, Send(0, "first", true));
    steps := steps + [Send(0, "first", true)];
    Extends(ids, steps, Settle(n));
    steps := steps + [Settle(n)];
  }

  /**
   The premise matters: a worker that crashes between sending and binding leaves a task behind, and a remote that
   does not deduplicate creates a second one for the next attempt.  Still only one of them is ever bound.
   */
  lemma OrphanWithoutDeduplication(ids: MessageIds, n: NodeKey, identity: Identity) returns (steps: seq<Step>)
    ensures Run(ids, steps) && !Deduplicates(After(ids, steps))
    ensures Sent(ids(n), "first") in After(ids, steps).created && Sent(ids(n), "second") in After(ids, steps).created
    ensures IsBound(After(ids, steps), n, "second")
  {
    steps := OrphanedTask(ids, n, identity);
    Extends(ids, steps, Start(1, n, identity));
    steps := steps + [Start(1, n, identity)];
    Extends(ids, steps, ReadBinding(1));
    steps := steps + [ReadBinding(1)];
    Extends(ids, steps, Send(1, "second", false));
    steps := steps + [Send(1, "second", false)];
    Extends(ids, steps, Bind(1));
    steps := steps + [Bind(1)];
    assert Sent(ids(n), "first") != Sent(ids(n), "second");
  }

  /** The attempt the store lets bind. */
  function RunningAttempt(db: Store.Db, n: Workflow.NodeId): Option<nat> {
    if Store.IsStatus(db, n, Workflow.Running) then db.nodes[n].activeAttempt else None
  }

  /** The store's tables say the same about node `n` as the world does about `key`. */
  predicate Reflects(db: Store.Db, n: Workflow.NodeId, s: World, key: NodeKey) {
    && RunningAttempt(db, n) == (if key in s.active then Some(s.active[key]) else None)
    && (n in db.attached.remote <==> key in s.bindings)
    && (key in s.bindings ==> db.attached.remote[n] == RowOf(s.bindings[key]))
  }

  function RowOf(b: Binding): Store.RemoteRow { Store.RemoteRow(b.task, b.attempt, b.identity) }

  /** The binding step is the store's transaction: it succeeds in the same cases and writes the same row. */
  lemma BindMatchesStore(db: Store.Db, n: Workflow.NodeId, s: World, w: WorkerId)
    requires w in s.workers && s.workers[w].phase.Submitted? && Reflects(db, n, s, s.workers[w].node)
    ensures var worker, t := s.workers[w], Binds(s, w);
      var (later, reply) := Store.BindRemote(db, n, RowOf(Binding(worker.phase.task, worker.attempt, worker.identity)));
      Reflects(later, n, t, worker.node) && (reply.Done? <==> t.workers[w].phase.Bound?)
  {
  }

  // ---------------------------------------------------------------- one worker

  const ActiveStates: set<string> := { "TASK_STATE_SUBMITTED", "TASK_STATE_WORKING" }
  const TerminalStates: set<string> :=
    { "TASK_STATE_COMPLETED", "TASK_STATE_FAILED", "TASK_STATE_CANCELED", "TASK_STATE_REJECTED" }

  /** The last state read is one of these. */
  predicate EndsWith(seen: seq<string>, states: set<string>) { seen != [] && seen[|seen| - 1] in states }

  /** Anything else is not handled. */
  const Handled: set<string> := {
    "TASK_STATE_SUBMITTED", "TASK_STATE_WORKING",
    "TASK_STATE_COMPLETED", "TASK_STATE_FAILED", "TASK_STATE_CANCELED", "TASK_STATE_REJECTED" }

  /** Errors that say nothing about the state of the task. */
  predicate BeforePolling(code: string) { code != "A2A_REMOTE_FAILED" && code != "A2A_TASK_STATE" }

  datatype Outcome = Returned(task: Option<TaskId>, statuses: seq<string>) | Failed(code: string)

  /** The world one worker acts in; everything that ever happened in it is on record. */
  class Exchange {
    const ids: MessageIds
    var world: World
    ghost var steps: seq<Step>

    constructor (ids: MessageIds)
      ensures Faithful() && this.ids == ids && world == Initial()
    {
      this.ids, world, steps := ids, Initial(), [];
    }

    ghost predicate Faithful()
      reads this
    {
      Run(ids, steps) && world == After(ids, steps)
    }

    method Do(step: Step)
      requires Faithful() && Enabled(world, step)
      modifies this
      ensures Faithful() && world == Next(ids, old(world), step)
    {
      Extends(ids, steps, step);
      world, steps := Next(ids, world, step), steps + [step];
    }

    /** Some step of somebody else, or none. */
    method ElsewhereOnce(me: WorkerId)
      requires Faithful() && me in world.workers
      modifies this
      ensures Faithful() && me in world.workers && world.workers[me] == old(world).workers[me]
      ensures KeepsBindings(old(world), world)
    {
      var step: Step := *;
      if Enabled(world, step) && Mover(step) != Some(me) {
        StepKeepsBindings(ids, world, step);
        Do(step);
      }
    }

    /** Whatever everybody else does in the meantime: new attempts, replaced workers, other nodes. */
    method Elsewhere(me: WorkerId)
      requires Faithful() && me in world.workers
      modifies this
      ensures Faithful() && me in world.workers && world.workers[me] == old(world).workers[me]
      ensures KeepsBindings(old(world), world)
    {
      var times: nat :| times >= 0;
      for k := 0 to times
        invariant Faithful() && me in world.workers && world.workers[me] == old(world).workers[me]
        invariant KeepsBindings(old(world), world)
      {
        ElsewhereOnce(me);
      }
    }

    /** The invariant of every run, at the present moment. */
    lemma Invariant()
      requires Faithful()
      ensures Inv(ids, world)
    {
      RunKeepsInv(ids, steps);
    }

    /** One GetTask of the bound task; an answer about any other task is an error. */
    method Ask(me: WorkerId) returns (same: bool)
      requires Faithful() && me in world.workers && world.workers[me].phase.Bound?
      modifies this
      ensures Faithful() && KeepsBindings(old(world), world)
      ensures same ==> me in world.workers && world.workers[me] == old(world).workers[me]
    {
      var answer: TaskId := *;
      StepKeepsBindings(ids, world, Poll(me, answer));
      same := answer == world.workers[me].phase.task;
      Do(Poll(me, answer));
    }

    /** The message is sent once; a task it is answered with is bound before anything else. */
    method SendAndBind(me: WorkerId) returns (failure: Option<string>, direct: bool)
      requires Faithful() && In(world, me, Unbound)
      modifies this
      ensures Faithful()
      ensures failure.None? ==> me in world.workers && world.workers[me].node == old(world).workers[me].node
      ensures failure.None? && !direct ==> world.workers[me].phase.Bound?
      ensures failure.Some? ==> BeforePolling(failure.value)
      ensures failure.None? && direct ==> world.workers[me].phase == Finished(None)
    {
      var arrives: bool, answered: bool, task: TaskId := *, *, *;
      direct := *;
      if !answered {
        Do(if arrives then Send(me, task, true) else Crash(me));
        return Some("A2A_TRANSPORT"), false;
      }
      if direct {
        Do(SendDirect(me));
        return None, true;
      }
      Do(Send(me, task, false));
      Elsewhere(me);
      Do(Bind(me));
      return if world.workers[me].phase.Bound? then None else Some("STALE_ATTEMPT"), false;
    }

    /** Up to the binding: resume the bound task, or submit one. */
    method Submit(me: WorkerId) returns (failure: Option<string>, direct: bool)
      requires Faithful() && In(world, me, Preflight)
      modifies this
      ensures Faithful()
      ensures failure.None? ==> me in world.workers && world.workers[me].node == old(world).workers[me].node
      ensures failure.None? && !direct ==> world.workers[me].phase.Bound?
      ensures failure.Some? ==> BeforePolling(failure.value)
      ensures failure.None? && direct ==> world.workers[me].phase == Finished(None)
    {
      direct := false;
      Do(ReadBinding(me));
      if world.workers[me].phase.Gone? { return Some("A2A_IDENTITY_DRIFT"), false; }
      Elsewhere(me);
      if world.workers[me].phase.Bound? {
        var same := Ask(me);
        return if same then None else Some("A2A_TASK_IDENTITY"), false;
      }
      failure, direct := SendAndBind(me);
    }

    /**
     `execute_a2a` after its preflight.  A result that comes from a task comes from the task that is durably bound
     to the node, after it was seen active any number of times and then completed.
     */
    method ExecuteA2A(me: WorkerId, polls: nat) returns (outcome: Outcome, ghost seen: seq<string>)
      requires Faithful() && In(world, me, Preflight)
      modifies this
      ensures Faithful()
      ensures outcome.Returned? && outcome.task.Some? ==>
        var node := old(world).workers[me].node;
        && IsBound(world, node, outcome.task.value) && Use(node, outcome.task.value) in world.accepted
        && outcome.statuses != [] && outcome.statuses[|outcome.statuses| - 1] == "TASK_STATE_COMPLETED"
        && forall i :: 0 <= i < |outcome.statuses| - 1 ==> outcome.statuses[i] in ActiveStates
      ensures outcome.Returned? && outcome.task.None? ==> outcome.statuses == []
      ensures outcome.Returned? ==> outcome.statuses == seen
      ensures outcome.Returned? && outcome.task.Some? <==> EndsWith(seen, {"TASK_STATE_COMPLETED"})
      ensures outcome == Failed("A2A_REMOTE_FAILED") <==>
        EndsWith(seen, {"TASK_STATE_FAILED", "TASK_STATE_CANCELED", "TASK_STATE_REJECTED"})
      ensures outcome == Failed("A2A_TASK_STATE") <==> seen != [] && !EndsWith(seen, Handled)
      ensures forall i :: 0 <= i < |seen| - 1 ==> seen[i] == "TASK_STATE_SUBMITTED" || seen[i] == "TASK_STATE_WORKING"
    {
      seen := [];
      var failure, direct := Submit(me);
      if failure.Some? { return Failed(failure.value), seen; }
      if direct { return Returned(None, []), seen; }
      var statuses: seq<string>, left := [], polls;
      var state: string := *;
      while true
        invariant Faithful() && me in world.workers && world.workers[me].phase.Bound?
        invariant world.workers[me].node == old(world).workers[me].node
        invariant seen == statuses && forall i :: 0 <= i < |statuses| ==> statuses[i] in ActiveStates
        decreases left
      {
        var cancelled: bool := *;
        if cancelled {
          Do(Crash(me));
          return Failed("A2A_CANCELLED"), seen;
        }
        statuses, seen := statuses + [state], seen + [state];
        if state in TerminalStates { break; }
        if state !in ActiveStates {
          Do(Crash(me));
          return Failed("A2A_TASK_STATE"), seen;
        }
        if left == 0 {
          Do(Crash(me));
          return Failed("A2A_TIMEOUT"), seen;
        }
        left := left - 1;
        Elsewhere(me);
        var reached: bool := *;
        if reached {
          var same := Ask(me);
          if !same { return Failed("A2A_TASK_IDENTITY"), seen; }
          state := *;
        }
      }
      if state != "TASK_STATE_COMPLETED" {
        Do(Crash(me));
        return Failed("A2A_REMOTE_FAILED"), seen;
      }
      var task := world.workers[me].phase.task;
      Do(Accept(me));
      Invariant();
      return Returned(Some(task), statuses), seen;
    }
  }
}
