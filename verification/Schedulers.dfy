/**
 One owner of the run: `Scheduler.run` between acquiring and releasing the lease.  Its passes read
 snapshots of the rows, keep local counters and issue one transaction after another; every method is
 proved to issue only transactions that the step relation in `Runs` allows, so whatever is proved about
 runs holds between any two statements of this code.  Clock readings, worker results, predicate
 values and the loss of the lease are arbitrary.
 */
module Schedulers {
  import opened Prelude
  import opened Graph
  import opened Workflow
  import opened Store
  import opened Joins
  import opened Invariants
  import opened Runs
  import opened RunInvariants
  import opened StateStores
  import opened Passes
  import opened ControlPasses
  import opened Settling
  import opened Stalls
  import opened Endings
  import opened Recovery
  import Termination

  /** A state of some run of a validated workflow. */
  ghost predicate InSomeRun(flow: Flow, s: Sys) {
    WellFormed(flow) && exists acts :: Run(flow, Initial(flow), acts) && After(flow, Initial(flow), acts) == s
  }

  /**
   The same as `InSomeRun`, hidden from the solver: a quantifier over the one value of `Seal` is unfolded only
   where a lemma says `assert Broken(Seal, s)`, so the methods below carry the history along without looking into it.
   */
  ghost predicate Reached(flow: Flow, s: Sys) {
    forall k {:trigger Broken(k, s)} :: Broken(k, s) ==> InSomeRun(flow, s)
  }

  datatype Seal = Seal
  predicate Broken(k: Seal, s: Sys) { k.Seal? }
  predicate Gauged(k: Seal, s: Sys) { k.Seal? }

  /** While `fuel` is being counted it bounds what the loop may still do; hidden in the same way. */
  ghost predicate Fuelled(flow: Flow, s: Sys, fuel: Option<nat>) {
    fuel.Some? ==> forall k {:trigger Gauged(k, s)} :: Gauged(k, s) ==> Termination.Fuel(flow, s) <= fuel.value
  }

  /** Some of the counted fuel has been used up. */
  predicate Spent(before: Option<nat>, after: Option<nat>) {
    before.Some? ==> after.Some? && after.value < before.value
  }

  /** Something the loop cannot do for ever: an attempt is settled, or a pending node fails. */
  predicate Progresses(db: Db, tx: Tx) { Termination.Progresses(db, tx) }

  lemma Gauge(flow: Flow, s: Sys, fuel: nat)
    ensures Fuelled(flow, s, Some(fuel)) <==> Termination.Fuel(flow, s) <= fuel
  {
    assert Gauged(Seal, s);
  }

  /** A step that adds no fuel keeps the bound. */
  lemma FuelStays(flow: Flow, s: Sys, t: Sys, fuel: Option<nat>)
    requires Fuelled(flow, s, fuel) && Termination.Fuel(flow, t) <= Termination.Fuel(flow, s)
    ensures Fuelled(flow, t, fuel)
  {
    if fuel.Some? {
      Gauge(flow, s, fuel.value);
      Gauge(flow, t, fuel.value);
    }
  }

  lemma FuelledFromNow(flow: Flow, s: Sys)
    requires Reached(flow, s) && s.session.Some? && s.session.value.active == map[]
    ensures Fuelled(flow, s, Some(Termination.Fuel(flow, s))) && Termination.Fuel(flow, s) <= Termination.Horizon(flow)
  {
    ReachedInv(flow, s);
    Termination.FuelBounded(flow, s);
    Gauge(flow, s, Termination.Fuel(flow, s));
  }

  lemma ReachedInv(flow: Flow, s: Sys)
    requires Reached(flow, s)
    ensures WellFormed(flow) && Inv(flow, s)
  {
    assert Broken(Seal, s);
    var acts :| Run(flow, Initial(flow), acts) && After(flow, Initial(flow), acts) == s;
    InvRun(flow, acts);
  }

  lemma ReachedStep(flow: Flow, s: Sys, a: Action)
    requires Reached(flow, s) && Enabled(flow, s, a)
    ensures Reached(flow, Apply(flow, s, a))
  {
    assert Broken(Seal, s);
    var acts :| Run(flow, Initial(flow), acts) && After(flow, Initial(flow), acts) == s;
    RunExtends(flow, Initial(flow), acts, a);
  }

  lemma ReachedTick(flow: Flow, s: Sys, dt: nat, fuel: Option<nat>)
    requires Reached(flow, s) && Fuelled(flow, s, fuel)
    ensures Reached(flow, s.(now := s.now + dt)) && Fuelled(flow, s.(now := s.now + dt), fuel)
  {
    ReachedInv(flow, s);
    Termination.OutsideBurns(flow, s, Action.Tick(dt));
    FuelStays(flow, s, s.(now := s.now + dt), fuel);
    ReachedStep(flow, s, Action.Tick(dt));
  }

  lemma ReachedDo(flow: Flow, s: Sys, tx: Tx, memory: Session, fuel: Option<nat>, later: Db, reply: Reply) returns (t: Sys)
    requires Reached(flow, s) && s.session == Some(memory) && Guard(flow, s.db, memory, tx)
    requires Fuelled(flow, s, fuel) && (fuel.Some? ==> Termination.LoopTx(tx))
    requires LeaseLive(s.db.run, memory.lease, s.now) && (later, reply) == Commit(s.db, tx, memory.lease.generation, s.now)
    ensures Reached(flow, t) && t.db == later && t.now == s.now && t.session == Some(Remember(flow, memory, tx, reply))
    ensures Fuelled(flow, t, fuel)
    ensures fuel.Some? && Progresses(s.db, tx) ==> fuel.value > 0 && Fuelled(flow, t, Some(fuel.value - 1))
  {
    t := DoTx(flow, s, tx);
    assert Enabled(flow, s, Do(tx));
    ReachedStep(flow, s, Do(tx));
    DoCommits(flow, s, tx);
    if fuel.Some? {
      ReachedInv(flow, s);
      Termination.TransactionBurns(flow, s, tx);
      FuelStays(flow, s, t, fuel);
      Gauge(flow, s, fuel.value);
      if Progresses(s.db, tx) {
        Gauge(flow, t, fuel.value - 1);
      }
    }
  }

  lemma ReachedAcquire(flow: Flow, s: Sys, token: Token, ttl: Time, resume: bool) returns (t: Sys)
    requires Reached(flow, s) && token !in s.tokens
    ensures var (run, reply) := AcquireLease(s.db.run, token, ttl, s.now);
      reply.Leased? ==>
        && Reached(flow, t)
        && t.db == s.db.(run := run) && t.now == s.now
        && t.session == Some(Session(reply.lease, Opening(resume), map[], None))
  {
    t := Apply(flow, s, Acquire(token, ttl, Opening(resume)));
    ReachedStep(flow, s, Acquire(token, ttl, Opening(resume)));
  }

  lemma ReachedRenew(flow: Flow, s: Sys, fuel: Option<nat>) returns (t: Sys)
    requires Reached(flow, s) && s.session.Some? && Fuelled(flow, s, fuel)
    ensures var (run, reply) := RenewLease(s.db.run, s.session.value.lease, s.now);
      reply.Done? ==>
        Reached(flow, t) && Fuelled(flow, t, fuel) && t.db == s.db.(run := run) && t.now == s.now && t.session == s.session
  {
    t := Apply(flow, s, Action.Renew);
    ReachedInv(flow, s);
    Termination.OutsideBurns(flow, s, Action.Renew);
    FuelStays(flow, s, t, fuel);
    ReachedStep(flow, s, Action.Renew);
  }

  /** Whether the expiry of workers goes on, or an exception leaves `run`: for the lease, or for a late result. */
  datatype Exit = Stays | LeaseGone | TooLate

  /**
   How one iteration of the loop ends: left without the lease, left because of a late result, to be repeated after
   progress, to be repeated after waiting for a worker, with a run status, or without progress.
   */
  datatype Turn = Gone | Late | Again | Waits | Ended(status: RunStatus) | Stuck

  function Outcome(turn: Turn): Option<RunStatus> { if turn.Ended? then Some(turn.status) else None }

  class Scheduler {
    const flow: Flow
    const store: StateStore
    const lease: RunLease
    const judge: Judge                              // reading, following a path, evaluating a predicate
    const holds: Holding                            // what reading an accepted artifact and its schemas yield
    var active: map<NodeId, nat>
    var now: Time
    ghost var phase: Phase
    ghost var todo: Option<(NodeId, Status)>
    ghost var here: Sys                             // the state of the run, with its history
    ghost var fuel: Option<nat>                     // what the loop may still do, while it is counted

    ghost function Memory(): Session
      reads this
    {
      Session(lease, phase, active, todo)
    }

    /** The run is in a state it can reach, with the present tables and the memory `mem`. */
    ghost predicate Mirrors(mem: Session)
      reads this, store
    {
      && Reached(flow, here) && here.db == store.Tables() && here.now == now && here.session == Some(mem)
      && Fuelled(flow, here, fuel)
    }

    ghost predicate Faithful()
      reads this, store
    {
      Mirrors(Memory())
    }

    /** `acquire_lease`, answered with a lease, in any state the run can reach. */
    constructor (flow: Flow, store: StateStore, ghost before: Sys, token: Token, ttl: Time, resume: bool,
                 now: Time, lease: RunLease, judge: Judge, holds: Holding)
      requires Reached(flow, before) && token !in before.tokens && now == before.now
      requires AcquireLease(before.db.run, token, ttl, now) == (store.run, Leased(lease))
      requires store.Tables() == before.db.(run := store.run)
      ensures Faithful() && this.flow == flow && this.store == store
      ensures phase == Opening(resume) && todo == None && active == map[] && fuel == None
    {
      this.flow, this.store, this.lease, this.now := flow, store, lease, now;
      this.judge, this.holds := judge, holds;
      active := map[];
      phase, todo, fuel := Opening(resume), None, None;
      var t := ReachedAcquire(flow, before, token, ttl, resume);
      here := t;
    }

    /** The clock moves on by any amount. */
    method Tick()
      requires Faithful()
      modifies this`now, this`here
      ensures Faithful() && now >= old(now) && Memory() == old(Memory())
    {
      var dt :| dt >= 0;
      ReachedTick(flow, here, dt, fuel);
      now, here := now + dt, here.(now := now + dt);
    }

    /** The store method behind each transaction. */
    method Send(tx: Tx) returns (reply: Reply)
      modifies store
      ensures reply.LeaseLost? ==> store.Tables() == old(store.Tables())
      ensures !reply.LeaseLost? ==>
        && LeaseLive(old(store.Tables()).run, lease, now)
        && (store.Tables(), reply) == Commit(old(store.Tables()), tx, lease.generation, now)
    {
      ExecCases(store.Tables(), tx, lease, now);
      match tx {
        case TxAdmit(n) => reply := store.AdmitAttempt(n, lease, now);
        case TxStart(n) => reply := store.StartAttempt(n, lease, now);
        case TxFinish(n, number, digest, failure, outputs, checks) =>
          reply := store.FinishAttempt(n, number, digest, failure, outputs, checks, lease, now);
        case TxSucceed(n, number, digest, outputs, checks) =>
          reply := store.SucceedAttempt(n, number, digest, outputs, checks, lease, now);
        case TxStatus(n, status) => reply := store.SetNodeStatus(n, status, lease, now);
        case TxRoute(n, source, matched) => reply := store.RecordRouteDecision(n, source, matched, lease, now);
        case TxLoop(n, number, matched, maxIterations, region) =>
          reply := store.ApplyLoopDecision(n, number, matched, maxIterations, region, lease, now);
        case TxRepair(n, route, digest, maxRounds, noProgressLimit, targets, attemptLimit) =>
          reply := store.RouteRepair(n, route, digest, maxRounds, noProgressLimit, targets, attemptLimit, lease, now);
        case TxJoin(n, snapshot) => reply := store.RecordJoinState(n, snapshot, lease, now);
        case TxRecover(safe) => reply := store.RecoverInterrupted(safe, lease, now);
        case TxReconcile(n, retry) => reply := store.ReconcileNode(n, retry, lease, now);
        case TxInvalidate(n) => reply := store.InvalidateNode(n, lease, now);
        case TxFinishRun(status) => reply := store.FinishRun(status, lease, now);
      }
    }

    /** One transaction of the owner, at whatever time it is.  Losing the lease ends the session. */
    method Execute(tx: Tx) returns (reply: Reply)
      requires Faithful() && Guard(flow, store.Tables(), Memory(), tx) && (fuel.Some? ==> Termination.LoopTx(tx))
      modifies this`now, this`here, this`phase, this`todo, store
      ensures now >= old(now)
      ensures reply.LeaseLost? ==> store.Tables() == old(store.Tables())
      ensures !reply.LeaseLost? ==>
        && (store.Tables(), reply) == Commit(old(store.Tables()), tx, lease.generation, now)
        && Mirrors(Remember(flow, old(Memory()), tx, reply))
        && phase == Remember(flow, old(Memory()), tx, reply).phase && todo == Remember(flow, old(Memory()), tx, reply).todo
      ensures !reply.LeaseLost? && fuel.Some? && Progresses(old(store.Tables()), tx) ==>
        fuel.value > 0 && Fuelled(flow, here, Some(fuel.value - 1))
    {
      Tick();
      reply := Transact(tx);
    }

    /** The transaction itself. */
    method Transact(tx: Tx) returns (reply: Reply)
      requires Faithful() && Guard(flow, store.Tables(), Memory(), tx) && (fuel.Some? ==> Termination.LoopTx(tx))
      modifies this`here, this`phase, this`todo, store
      ensures reply.LeaseLost? ==> store.Tables() == old(store.Tables())
      ensures !reply.LeaseLost? ==>
        && (store.Tables(), reply) == Commit(old(store.Tables()), tx, lease.generation, now)
        && Mirrors(Remember(flow, old(Memory()), tx, reply))
        && phase == Remember(flow, old(Memory()), tx, reply).phase && todo == Remember(flow, old(Memory()), tx, reply).todo
      ensures !reply.LeaseLost? && fuel.Some? && Progresses(old(store.Tables()), tx) ==>
        fuel.value > 0 && Fuelled(flow, here, Some(fuel.value - 1))
    {
      ghost var memory, before := Memory(), here;
      reply := Send(tx);
      if !reply.LeaseLost? {
        ghost var t := ReachedDo(flow, before, tx, memory, fuel, store.Tables(), reply);
        Become(t);
      }
    }

    /** The run is now in state `t`. */
    ghost method Become(t: Sys)
      requires Reached(flow, t) && Fuelled(flow, t, fuel) && t.db == store.Tables() && t.now == now && t.session.Some?
      modifies this`here, this`phase, this`todo
      ensures here == t && Mirrors(t.session.value)
      ensures phase == t.session.value.phase && todo == t.session.value.todo
    {
      here, phase, todo := t, t.session.value.phase, t.session.value.todo;
    }

    /** A transaction that makes progress uses up fuel. */
    method Advance(tx: Tx) returns (reply: Reply)
      requires Faithful() && Guard(flow, store.Tables(), Memory(), tx)
      requires Progresses(store.Tables(), tx)
      modifies this`now, this`here, this`fuel, this`phase, this`todo, store
      ensures reply.LeaseLost? ==> store.Tables() == old(store.Tables())
      ensures !reply.LeaseLost? ==>
        && (store.Tables(), reply) == Commit(old(store.Tables()), tx, lease.generation, now)
        && Mirrors(Remember(flow, old(Memory()), tx, reply)) && Spent(old(fuel), fuel)
        && phase == Remember(flow, old(Memory()), tx, reply).phase && todo == Remember(flow, old(Memory()), tx, reply).todo
    {
      reply := Execute(tx);
      if !reply.LeaseLost? && fuel.Some? {
        fuel := Some(fuel.value - 1);
      }
    }

    /** The invariant of every run, at the present moment. */
    lemma Invariant()
      requires Faithful()
      ensures WellFormed(flow) && StoreInv(store.Tables(), here.published)
      ensures store.nodes.Keys == flow.nodes.Keys
      ensures SessionInv(flow, store.Tables(), Memory())
      ensures AttemptTotal(flow, store.Tables()) <= flow.budgets.maxTotalAttempts
    {
      ReachedInv(flow, here);
    }

    /** Every declared node has its rows, and a pending one has no artifact. */
    lemma RowsExist()
      requires Faithful()
      ensures store.nodes.Keys == flow.nodes.Keys && store.nodes.Keys <= store.progress.Keys
      ensures forall n :: IsStatus(store.Tables(), n, Pending) ==> Accepted(store.Tables(), n) == map[]
    {
      Invariant();

      forall n | IsStatus(store.Tables(), n, Pending) ensures Accepted(store.Tables(), n) == map[] {
        assert NodeInv(store.Tables(), here.published, n);
      }
    }

    lemma RowExists(n: NodeId)
      requires Faithful() && n in flow.nodes
      ensures n in store.nodes && n in store.progress
    {
      RowsExist();
    }

    /** What the passes need to know about the workflow. */
    lemma Wiring()
      requires Faithful()
      ensures Increasing(flow.ids) && Listed(flow) && Wired(flow, store.nodes) && |active| <= flow.budgets.maxConcurrency
    {
      Invariant();
      WellFormedIsWired(flow, store.nodes);
    }

    lemma Enumerated()
      requires Faithful()
      ensures Increasing(flow.ids) && Listed(flow) && store.nodes.Keys == flow.nodes.Keys
    {
      Invariant();
    }

    lemma Declared()
      requires Faithful()
      ensures RowsFor(flow, store.nodes)
    {
      Wiring();
    }

    lemma WellFormedNow()
      requires Faithful()
      ensures Listed(flow) && Closed(NeedsOf(flow))
    {
      Invariant();
    }

    /** Between two statements of a pass: nothing is half-written and the loop phase is on. */
    ghost predicate Idle()
      reads this, store
    {
      Faithful() && todo.None? && InLoopPhase(Memory()) && active.Keys <= flow.nodes.Keys
    }

    /** A transaction of a pass, other than one that starts or settles an attempt. */
    method Write(tx: Tx) returns (reply: Reply)
      requires Idle() && Guard(flow, store.Tables(), Memory(), tx)
      requires tx.TxAdmit? || tx.TxStatus? || tx.TxRoute? || tx.TxLoop? || tx.TxRepair? || tx.TxJoin?
      modifies this`now, this`here, this`phase, this`todo, store
      ensures now >= old(now)
      ensures !reply.LeaseLost? ==>
        Idle() && (store.Tables(), reply) == Commit(old(store.Tables()), tx, lease.generation, now)
    {
      reply := Execute(tx);
    }

    /** `admit_attempt` for a node about to be launched. */
    method Admit(n: NodeId) returns (alive: bool, admitted: bool)
      requires Idle()
      requires CanLaunch(flow, store.Tables(), active, n) || RefusedBefore(flow, store.Tables(), n)
      modifies this`now, this`here, this`phase, this`todo, store
      ensures alive ==> Idle()
      ensures alive && admitted ==> store.Tables() == old(store.Tables()) && IsStatus(store.Tables(), n, Pending)
      ensures alive && !admitted ==> Refused(old(store.Tables()), store.Tables(), n)
      ensures now >= old(now) && (alive ==> (admitted <==> old(n in store.progress) && InBudget(old(store.progress)[n], now)))
    {
      RowsExist();
      ghost var before := store.Tables();
      var reply := Write(TxAdmit(n));
      AdmitOutcome(before, n, now);
      return !reply.LeaseLost?, reply == Answer(true);
    }

    /** `start_attempt` for a node just admitted. */
    method Start(n: NodeId) returns (alive: bool, started: bool)
      requires Idle() && CanLaunch(flow, store.Tables(), active, n)
      modifies this`now, this`here, this`phase, this`todo, this`active, store
      ensures alive ==> Idle()
      ensures alive && started ==>
        Launched(old(store.Tables()), store.Tables(), n) && active == old(active)[n := store.nodes[n].attemptCount]
      ensures alive && !started ==> Refused(old(store.Tables()), store.Tables(), n) && active == old(active)
      ensures now >= old(now) && n in old(store.progress)
      ensures alive && old(store.progress)[n].verdict != Stop ==> (started <==> InBudget(old(store.progress)[n], now))
    {
      RowExists(n);
      ghost var before := store.Tables();
      var reply := SendStart(n);
      StartOutcome(before, n, lease.generation, now);
      return !reply.LeaseLost?, reply.Started?;
    }

    /** The attempt that was started is remembered. */
    method SendStart(n: NodeId) returns (reply: Reply)
      requires Idle() && n in flow.nodes && Guard(flow, store.Tables(), Memory(), TxStart(n))
      modifies this`now, this`here, this`phase, this`todo, this`active, store
      ensures now >= old(now)
      ensures !reply.LeaseLost? ==>
        && Idle() && (store.Tables(), reply) == StartAttempt(old(store.Tables()), n, lease.generation, now)
        && active == if reply.Started? then old(active)[n := reply.number] else old(active)
    {
      reply := Execute(TxStart(n));
      if reply.Started? {
        active := active[n := reply.number];
      }
    }

    /** `launch`: asks the progress budget, then starts the attempt. */
    method Launch(n: NodeId) returns (alive: bool, launched: bool)
      requires Idle()
      requires CanLaunch(flow, store.Tables(), active, n) || RefusedBefore(flow, store.Tables(), n)
      modifies this`now, this`here, this`phase, this`todo, this`active, store
      ensures alive ==> Idle()
      ensures alive && launched ==>
        && Launched(old(store.Tables()), store.Tables(), n)
        && active == old(active)[n := store.nodes[n].attemptCount]
      ensures alive && !launched ==> Refused(old(store.Tables()), store.Tables(), n) && active == old(active)
      ensures alive ==> (launched <==> old(n in store.progress) && InBudget(old(store.progress)[n], now))
    {
      var admitted;
      alive, admitted := Admit(n);
      if !alive || !admitted { return alive, false; }
      alive, launched := Start(n);
    }

    /** The node at position `i` in the dispatch pass. */
    method Dispatch(i: nat, rows: Rows, decisions: map<NodeId, Decision>) returns (alive: bool, launched: bool)
      requires i < |flow.ids| && Idle() && Dispatching(flow, rows, store.Tables(), active, decisions, i)
      requires |active| < flow.budgets.maxConcurrency && AttemptTotal(flow, store.Tables()) < flow.budgets.maxTotalAttempts
      modifies this`now, this`here, this`phase, this`todo, this`active, store
      ensures alive ==> Idle()
      ensures alive ==>
        DispatchStep(flow, rows, old(store.Tables()), store.Tables(), old(active), active, decisions, i, launched)
    {
      var n := flow.ids[i];
      ghost var before, held := store.Tables(), active;
      assert n in flow.ids;
      if && rows[n].status.Pending? && n !in active
         && Dispatchable(flow, n, rows, active.Keys, decisions) && NeedsMet(flow, rows, decisions, n)
      {
        DispatchingReady(flow, rows, before, active, decisions, i);
        RowsExist();
        alive, launched := Launch(n);
        if alive && launched {
          DispatchLaunches(flow, rows, before, store.Tables(), held, decisions, i, active[n]);
        } else if alive {
          DispatchRefuses(flow, rows, before, store.Tables(), held, decisions, i);
        }
      } else {
        DispatchLeaves(flow, rows, before, held, decisions, i);
        return true, false;
      }
    }

    /**
     The dispatch pass.  Unless it ran out of slots or attempts or was interrupted by a completion, it has
     dealt with every node that was ready.
     */
    method DispatchPass(rows: Rows, decisions: map<NodeId, Decision>) returns (alive: bool, full: bool)
      requires Idle() && rows == store.nodes && Agree(store.joins, decisions)
      modifies this`now, this`here, this`phase, this`todo, this`active, store
      ensures alive ==> Idle() && LaunchedFrom(rows, store.Tables(), active)
      ensures alive ==> StartedReady(flow, store.Tables(), old(active), active, decisions)
      ensures alive && full ==> Dispatched(flow, rows, store.Tables(), active, decisions)
      ensures alive ==> RowsFor(flow, rows) && Tracked(flow, rows, old(store.Tables()).control, store.Tables(), old(active), active, decisions)
      ensures alive && active == old(active) ==>
        store.nodes == if old(Full(flow, store.Tables(), active)) then rows else Failing(rows, Due(flow, rows, active.Keys, decisions))
      ensures alive && active != old(active) ==> !old(Full(flow, store.Tables(), active))
    {
      Wiring();
      var start := Tally(AttemptTotal(flow, store.Tables()), flow.budgets.maxConcurrency - |active|, false);
      DispatchingAtFirst(flow, rows, store.Tables(), active, decisions);
      var tally;
      alive, full, tally := DispatchFrom(rows, decisions, start);
      if alive {
        ReadyStays(flow, rows, store.Tables(), old(active), active, decisions);
        DispatchEnds(flow, rows, store.Tables(), old(active), active, decisions, start, tally, full);
      }
    }

    /** The loop of the pass. */
    method DispatchFrom(rows: Rows, decisions: map<NodeId, Decision>, start: Tally) returns (alive: bool, full: bool, tally: Tally)
      requires Idle() && Counting(flow, rows, store.Tables(), active, decisions, 0, start) && !start.started
      requires rows == store.nodes
      modifies this`now, this`here, this`phase, this`todo, this`active, store
      ensures alive ==> Idle() && LaunchedFrom(rows, store.Tables(), active) && OnlyReady(flow, rows, old(active), active, decisions)
      ensures alive ==>
        Dispensing(flow, rows, old(store.Tables()).control, store.Tables(), old(active), active, decisions, start, tally)
      ensures alive ==>
        if full then Dispatching(flow, rows, store.Tables(), active, decisions, |flow.ids|)
        else Exhausted(flow, tally) || tally.started
    {
      ghost var control := store.Tables().control;
      full, tally := true, start;
      for i := 0 to |flow.ids|
        invariant Idle() && Counting(flow, rows, store.Tables(), active, decisions, i, tally)
        invariant OnlyReady(flow, rows, old(active), active, decisions)
        invariant Dispensing(flow, rows, control, store.Tables(), old(active), active, decisions, start, tally)
      {
        if tally.slots <= 0 || tally.attempts >= flow.budgets.maxTotalAttempts { return true, false, tally; }
        var launched;
        alive, launched, tally := DispatchAt(i, rows, decisions, tally, start, control, old(active));
        if !alive { return; }
        var completion: bool := *;
        if launched && completion { return true, false, tally; }
      }
      alive := true;
    }

    /** The node at position `i`, with the counters of the pass. */
    method DispatchAt(i: nat, rows: Rows, decisions: map<NodeId, Decision>, tally: Tally, ghost start: Tally,
                      ghost control: Control, ghost held: map<NodeId, nat>)
      returns (alive: bool, launched: bool, later: Tally)
      requires i < |flow.ids| && Idle() && Counting(flow, rows, store.Tables(), active, decisions, i, tally)
      requires !Exhausted(flow, tally) && OnlyReady(flow, rows, held, active, decisions)
      requires Dispensing(flow, rows, control, store.Tables(), held, active, decisions, start, tally)
      modifies this`now, this`here, this`phase, this`todo, this`active, store
      ensures alive ==> Idle() && Counting(flow, rows, store.Tables(), active, decisions, i + 1, later)
      ensures alive ==> OnlyReady(flow, rows, held, active, decisions) && (launched ==> later.started)
      ensures alive ==> Dispensing(flow, rows, control, store.Tables(), held, active, decisions, start, later)
    {
      ghost var before, was := store.Tables(), active;
      later := tally;
      alive, launched := Dispatch(i, rows, decisions);
      if alive {
        later := Tallied(tally, launched);
        CountingNext(flow, rows, before, store.Tables(), was, active, decisions, i, launched, tally);
        OnlyReadyNext(flow, rows, before, store.Tables(), held, was, active, decisions, i, launched);
        DispensingNext(flow, rows, control, before, store.Tables(), held, was, active, decisions, i, launched, start, tally);
      }
    }

    /** A voter of a decided quorum, pending on the rows read. */
    method Claim(c: NodeId, n: NodeId, rows: Rows) returns (alive: bool, launched: bool)
      requires Idle() && Wired(flow, rows) && LaunchedFrom(rows, store.Tables(), active)
      requires DecidedQuorum(flow, rows, c) && n in flow.nodes[c].needs && rows[n].status.Pending? && n !in active
      requires |active| < flow.budgets.maxConcurrency && AttemptTotal(flow, store.Tables()) < flow.budgets.maxTotalAttempts
      modifies this`now, this`here, this`phase, this`todo, this`active, store
      ensures alive ==> Idle()
      ensures alive ==> Claiming(flow, rows, old(store.Tables()), store.Tables(), old(active), active, n, launched)
    {
      ghost var before, held := store.Tables(), active;
      RowsExist();
      Wiring();
      MayClaim(flow, rows, before, active, c, n);
      alive, launched := Launch(n);
      if alive && launched {
        ClaimLaunches(flow, rows, before, store.Tables(), held, n, active[n]);
      } else if alive {
        ClaimRefuses(flow, rows, before, store.Tables(), held, n);
      }
    }

    /** One voter of a decided quorum, with the counters of the pass. */
    method ReserveVoter(c: NodeId, d: NodeId, rows: Rows, tally: Tally, ghost mark: Mark) returns (alive: bool, later: Tally)
      requires Idle() && Wired(flow, rows) && DecidedQuorum(flow, rows, c) && d in flow.nodes[c].needs
      requires Counted(flow, rows, store.Tables(), active, tally) && Marked(flow, rows, store.Tables(), active, mark, tally)
      requires MayVote(rows, mark, d)
      requires !Exhausted(flow, tally)
      modifies this`now, this`here, this`phase, this`todo, this`active, store
      ensures alive ==> Idle() && Counted(flow, rows, store.Tables(), active, later)
      ensures alive ==> Marked(flow, rows, store.Tables(), active, mark, later)
      ensures alive ==> OnlyGrows(old(store.Tables()), store.Tables(), old(active), active) && Shrinks(tally, later)
      ensures alive ==> Claimed(rows, store.Tables(), active, d)
    {
      if rows[d].status.Pending? && d !in active {
        ghost var before, held := store.Tables(), active;
        var launched;
        alive, launched := Claim(c, d, rows);
        later := Tallied(tally, launched);
        if alive {
          CountedNext(flow, rows, before, store.Tables(), held, active, d, launched, tally);
          MarkedNext(flow, rows, before, store.Tables(), held, active, mark, tally, d, launched);
        }
      } else {
        return true, tally;
      }
    }

    /** The node at position `i`, if it votes in the quorum; `room` says whether slots and attempts have lasted. */
    method ReserveAt(c: NodeId, i: nat, rows: Rows, tally: Tally, ghost mark: Mark) returns (alive: bool, later: Tally, room: bool)
      requires Idle() && Wired(flow, rows) && Covers(flow, rows, mark, c) && i < |flow.ids|
      requires Counted(flow, rows, store.Tables(), active, tally) && Marked(flow, rows, store.Tables(), active, mark, tally)
      requires ClaimedTo(flow, rows, store.Tables(), active, c, i)
      modifies this`now, this`here, this`phase, this`todo, this`active, store
      ensures alive ==> Idle() && Counted(flow, rows, store.Tables(), active, later)
      ensures alive ==> Marked(flow, rows, store.Tables(), active, mark, later)
      ensures alive ==> OnlyGrows(old(store.Tables()), store.Tables(), old(active), active) && Shrinks(tally, later)
      ensures alive ==> if room then ClaimedTo(flow, rows, store.Tables(), active, c, i + 1) else Exhausted(flow, later)
    {
      ghost var before, held := store.Tables(), active;
      alive, later, room := true, tally, true;
      if flow.ids[i] in flow.nodes[c].needs {
        if later.slots <= 0 || later.attempts >= flow.budgets.maxTotalAttempts { return true, later, false; }
        alive, later := ReserveVoter(c, flow.ids[i], rows, later, mark);
        if !alive { return; }
      }
      ClaimedNext(flow, rows, before, store.Tables(), held, active, c, i);
    }

    /** The reserve voters of one decided quorum. */
    method ReserveFor(c: NodeId, rows: Rows, tally: Tally, ghost mark: Mark) returns (alive: bool, later: Tally, full: bool)
      requires Idle() && Wired(flow, rows) && Covers(flow, rows, mark, c)
      requires Counted(flow, rows, store.Tables(), active, tally) && Marked(flow, rows, store.Tables(), active, mark, tally)
      modifies this`now, this`here, this`phase, this`todo, this`active, store
      ensures alive ==> Idle() && Counted(flow, rows, store.Tables(), active, later)
      ensures alive ==> Marked(flow, rows, store.Tables(), active, mark, later)
      ensures alive && full ==> AllClaimed(flow, rows, store.Tables(), active, c)
      ensures alive ==> Shrinks(tally, later) && (!full ==> Exhausted(flow, later))
      ensures alive ==> OnlyGrows(old(store.Tables()), store.Tables(), old(active), active)
    {
      later := tally;
      for i := 0 to |flow.ids|
        invariant Idle() && Counted(flow, rows, store.Tables(), active, later)
        invariant Marked(flow, rows, store.Tables(), active, mark, later) && Shrinks(tally, later)
        invariant OnlyGrows(old(store.Tables()), store.Tables(), old(active), active)
        invariant ClaimedTo(flow, rows, store.Tables(), active, c, i)
      {
        alive, later, full := ReserveAt(c, i, rows, later, mark);
        if !alive || !full { return; }
      }
      Enumerated();
      AllAreClaimed(flow, rows, store.Tables(), active, c);
      return true, later, true;
    }

    /** The consumer at position `k`, if its quorum is decided. */
    method ReserveConsumer(order: seq<NodeId>, k: nat, rows: Rows, tally: Tally, full: bool, ghost mark: Mark)
      returns (alive: bool, later: Tally, all: bool)
      requires Idle() && Wired(flow, rows) && k < |order| && mark.voters == Voters(flow, order, rows, mark.held.Keys)
      requires Counted(flow, rows, store.Tables(), active, tally) && Marked(flow, rows, store.Tables(), active, mark, tally)
      requires if full then QuorumsClaimed(flow, order, rows, store.Tables(), active, k) else Exhausted(flow, tally)
      modifies this`now, this`here, this`phase, this`todo, this`active, store
      ensures alive ==> Idle() && Counted(flow, rows, store.Tables(), active, later)
      ensures alive ==> Marked(flow, rows, store.Tables(), active, mark, later)
      ensures alive ==> if all then QuorumsClaimed(flow, order, rows, store.Tables(), active, k + 1) else Exhausted(flow, later)
    {
      ghost var before, held := store.Tables(), active;
      alive, later, all := true, tally, full;
      if DecidedQuorum(flow, rows, order[k]) {
        VotersOf(flow, order, rows, mark, k);
        alive, later, all := ReserveFor(order[k], rows, tally, mark);
        all := full && all;
      }
      if alive && all {
        QuorumsNext(flow, order, rows, before, store.Tables(), held, active, k);
      }
    }

    /**
     The reserve pass: once a quorum is decided, every voter never dispatched is launched or refused,
     as long as slots and attempts last.  `order` is the order in which the workflow declares its nodes.
     */
    method ReservePass(order: seq<NodeId>) returns (alive: bool, started: bool, full: bool)
      requires Idle()
      modifies this`now, this`here, this`phase, this`todo, this`active, store
      ensures alive ==> Idle() && LaunchedFrom(old(store.nodes), store.Tables(), active)
      ensures alive && !started ==> ReadAs(old(store.nodes), store.Tables())
      ensures alive && full ==> QuorumsClaimed(flow, order, old(store.nodes), store.Tables(), active, |order|)
      ensures alive ==> store.Tables().control == old(store.Tables()).control
      ensures alive && started ==> |active| > |old(active)| && old(Voters(flow, order, store.nodes, active.Keys)) != {}
      ensures alive && started ==> !old(Full(flow, store.Tables(), active))
      ensures alive && !started ==> active == old(active) && store.nodes == old(AfterReserve(flow, order, store.Tables(), active))
    {
      Wiring();
      var rows := store.nodes;
      var tally := Tally(AttemptTotal(flow, store.Tables()), flow.budgets.maxConcurrency - |active|, false);
      ghost var mark := Mark(store.Tables().control, active, Voters(flow, order, rows, active.Keys), tally);
      full := true;
      for k := 0 to |order|
        invariant Idle() && Counted(flow, rows, store.Tables(), active, tally)
        invariant Marked(flow, rows, store.Tables(), active, mark, tally)
        invariant if full then QuorumsClaimed(flow, order, rows, store.Tables(), active, k) else Exhausted(flow, tally)
      {
        alive, tally, full := ReserveConsumer(order, k, rows, tally, full, mark);
        if !alive { return false, false, false; }
      }
      ReserveEnds(flow, order, rows, store.Tables(), active, mark, tally, full);
      return true, tally.started, full;
    }

    /** Like `Idle`, or the run has just been finished. */
    ghost predicate Settled()
      reads this, store
    {
      Faithful() && todo.None? && (InLoopPhase(Memory()) || phase.Finished?) && active.Keys <= flow.nodes.Keys
    }

    /** `record_join_state` for one join. */
    method SaveJoin(n: NodeId, snapshot: JoinRow) returns (alive: bool, decision: Decision)
      requires Settled() && JoinSeen(flow, store.Tables(), n, snapshot)
      modifies this`now, this`here, this`phase, this`todo, store
      ensures alive ==> Settled() && InLoopPhase(Memory()) == old(InLoopPhase(Memory()))
      ensures alive ==> store.Tables() == old(store.Tables()).(control := old(store.Tables()).control.(joins := store.joins))
      ensures alive ==> store.joins == if IsFrozen(old(store.joins), n) then old(store.joins) else old(store.joins)[n := snapshot]
      ensures alive ==> n in store.joins && decision == store.joins[n].decision
    {
      var reply := Execute(TxJoin(n, snapshot));
      if reply.LeaseLost? { return false, Waiting; }
      return true, reply.row.decision;
    }

    /** The node at position `i` in `_persist_join_states`. */
    method PersistOne(i: nat, rows: Rows, decisions: map<NodeId, Decision>, ghost joins: JoinTable)
      returns (alive: bool, later: map<NodeId, Decision>)
      requires Settled() && ReadAs(rows, store.Tables()) && RowsFor(flow, rows) && Increasing(flow.ids) && Listed(flow)
      requires i < |flow.ids| && Persisted(flow, rows, joins, store.joins, decisions, i)
      modifies this`now, this`here, this`phase, this`todo, store
      ensures alive ==> Settled() && InLoopPhase(Memory()) == old(InLoopPhase(Memory()))
      ensures alive ==> store.Tables() == old(store.Tables()).(control := old(store.Tables()).control.(joins := store.joins))
      ensures alive ==> Persisted(flow, rows, joins, store.joins, later, i + 1)
    {
      var n := flow.ids[i];
      assert n in flow.ids;
      if flow.nodes[n].join.None? {
        PersistSkips(flow, rows, joins, store.joins, decisions, i);
        return true, decisions;
      }
      MayPersist(flow, rows, store.Tables(), n);
      ghost var mid := store.joins;
      var decision;
      alive, decision := SaveJoin(n, Evidence(flow, rows, n));
      later := decisions[n := decision];
      if alive {
        PersistNext(flow, rows, joins, mid, store.joins, decisions, i);
      }
    }

    /** `_persist_join_states`, on rows read before; after a cancellation on fresh ones. */
    method PersistJoins(rows: Rows) returns (alive: bool, decisions: map<NodeId, Decision>)
      requires Settled() && ReadAs(rows, store.Tables())
      modifies this`now, this`here, this`phase, this`todo, store
      ensures alive ==> Settled() && InLoopPhase(Memory()) == old(InLoopPhase(Memory()))
      ensures alive ==> store.Tables() == old(store.Tables()).(control := old(store.Tables()).control.(joins := store.joins))
      ensures alive ==> AllSaved(flow, rows, old(store.joins), store.joins)
      ensures alive ==> Agree(store.joins, decisions) && AllDecided(flow, decisions)
      ensures alive ==> RowsFor(flow, rows)
      ensures alive ==> store.joins == SavedJoins(flow, rows, old(store.joins)) && decisions == Verdicts(flow, store.joins)
    {
      Wiring();
      alive, decisions := PersistFrom(rows);
      if alive {
        PersistedAll(flow, rows, old(store.joins), store.joins, decisions);
      }
    }

    /** The loop over the joins. */
    method PersistFrom(rows: Rows) returns (alive: bool, decisions: map<NodeId, Decision>)
      requires Settled() && ReadAs(rows, store.Tables()) && RowsFor(flow, rows) && Increasing(flow.ids) && Listed(flow)
      modifies this`now, this`here, this`phase, this`todo, store
      ensures alive ==> Settled() && InLoopPhase(Memory()) == old(InLoopPhase(Memory()))
      ensures alive ==> store.Tables() == old(store.Tables()).(control := old(store.Tables()).control.(joins := store.joins))
      ensures alive ==> Persisted(flow, rows, old(store.joins), store.joins, decisions, |flow.ids|)
    {
      alive, decisions := true, map[];
      ghost var db := store.Tables();
      for i := 0 to |flow.ids|
        invariant Settled() && InLoopPhase(Memory()) == old(InLoopPhase(Memory()))
        invariant store.Tables() == db.(control := db.control.(joins := store.joins))
        invariant Persisted(flow, rows, db.control.joins, store.joins, decisions, i)
      {
        ReadAsStays(rows, db, store.Tables());
        alive, decisions := PersistOne(i, rows, decisions, db.control.joins);
        if !alive { return; }
      }
    }

    /** `set_node_status` */
    method SetStatus(n: NodeId, status: Status) returns (alive: bool)
      requires Idle() && n in store.nodes && StatusAllowed(flow, store.Tables(), Memory(), n, status)
      modifies this`now, this`here, this`phase, this`todo, store
      ensures alive ==> Idle()
      ensures alive ==> store.Tables() == old(store.Tables()).(nodes := old(store.nodes)[n := old(store.nodes)[n].(status := status)])
    {
      var reply := Write(TxStatus(n, status));
      alive := !reply.LeaseLost?;
    }

    /**
     Blocking and skipping.  The pass decides on the rows it has read, so each run of it moves a failure
     one dependency further.
     */
    method BlockPass(rows: Rows, decisions: map<NodeId, Decision>) returns (alive: bool)
      requires Idle() && ReadAs(rows, store.Tables()) && Agree(store.joins, decisions) && AllDecided(flow, decisions)
      modifies this`now, this`here, this`phase, this`todo, store
      ensures alive ==> Idle() && RowsFor(flow, rows)
      ensures alive ==> store.Tables() == old(store.Tables()).(nodes := BlockedRows(flow, rows, decisions, old(store.nodes)))
    {
      Wiring();
      ghost var db := store.Tables();
      BlockingAtFirst(flow, rows, decisions, store.nodes);
      for i := 0 to |flow.ids|
        invariant Idle() && store.Tables() == db.(nodes := store.nodes)
        invariant Blocking(flow, rows, decisions, db.nodes, store.nodes, i)
      {
        alive := BlockOne(i, rows, decisions, db);
        if !alive { return false; }
      }
      BlockedAll(flow, rows, decisions, db.nodes, store.nodes);
      return true;
    }

    /** The node at position `i` in the blocking pass. */
    method BlockOne(i: nat, rows: Rows, decisions: map<NodeId, Decision>, ghost db: Db) returns (alive: bool)
      requires Idle() && Wired(flow, rows) && Increasing(flow.ids) && Listed(flow) && i < |flow.ids|
      requires ReadAs(rows, db) && Agree(db.control.joins, decisions) && store.Tables() == db.(nodes := store.nodes)
      requires Blocking(flow, rows, decisions, db.nodes, store.nodes, i)
      modifies this`now, this`here, this`phase, this`todo, store
      ensures alive ==> Idle() && store.Tables() == db.(nodes := store.nodes)
      ensures alive ==> Blocking(flow, rows, decisions, db.nodes, store.nodes, i + 1)
    {
      var n := flow.ids[i];
      assert n in flow.ids;
      BlockingNext(flow, rows, decisions, db.nodes, store.nodes, i);
      if rows[n].status.Pending? {
        BlockingReaches(flow, rows, decisions, db, store.Tables(), i);
        MayBlock(flow, rows, decisions, store.Tables(), n);
        if Blocks(flow, rows, decisions, n) || Skips(flow, rows, decisions, n) {
          alive := SetStatus(n, if Blocks(flow, rows, decisions, n) then Blocked else Skipped);
          return;
        }
      }
      return true;
    }

    /** One node of `_process_conditional_routes`. */
    method RouteNode(n: NodeId, rows: Rows) returns (alive: bool)
      requires Idle() && n in flow.nodes && n in rows && n in store.nodes && flow.nodes.Keys <= rows.Keys
      requires RouteDue(flow, rows, n) ==> RouteOpen(flow, store.Tables(), n)
      modifies this`now, this`here, this`phase, this`todo, store
      ensures alive ==> Idle() && store.Tables() == RouteOne(flow, judge, rows, old(store.Tables()), n)
    {
      if !RouteDue(flow, rows, n) { return true; }
      var route := flow.nodes[n].route.value;
      var outcome := Judged(judge, store.Tables(), n, route.producer, route.output);
      if outcome.Some? {
        var reply := Write(TxRoute(n, store.artifacts[route.producer][route.output], outcome.value));
        if reply.LeaseLost? { return false; }
        if reply.Answer? { return true; }
      }
      alive := SetStatus(n, Failed);
    }

    /** `_process_conditional_routes` */
    method RoutePass() returns (alive: bool)
      requires Idle()
      modifies this`now, this`here, this`phase, this`todo, store
      ensures alive ==> Idle()
      ensures alive ==> store.Tables() == RouteFold(flow, judge, old(store.nodes), old(store.Tables()), |flow.ids|)
    {
      Enumerated();
      var rows := store.nodes;
      ghost var db := store.Tables();
      for i := 0 to |flow.ids|
        invariant Idle() && store.Tables() == RouteFold(flow, judge, rows, db, i)
      {
        RouteAt(flow, judge, rows, db, i);
        alive := RouteNode(flow.ids[i], rows);
        if !alive { return; }
      }
      alive := true;
    }

    /** One controller of `_process_loops`. */
    method LoopController(c: NodeId, rows: Rows) returns (alive: bool)
      requires Idle() && c in flow.nodes && Awaits(rows, store.Tables(), c)
      modifies this`now, this`here, this`phase, this`todo, store
      ensures alive ==> Idle() && store.Tables() == LoopOne(flow, judge, rows, old(store.Tables()), c)
    {
      if !LoopDue(flow, rows, c) { return true; }
      var loop := flow.nodes[c].loop.value;
      var outcome := Judged(judge, store.Tables(), c, c, loop.output);
      RowsExist();
      if outcome.Some? {
        var decided;
        alive, decided := DecideLoop(c, rows, outcome.value);
        if !alive || decided { return; }
      }
      alive := SetStatus(c, Failed);
    }

    /** `apply_loop_decision` for a controller that still has its artifact. */
    method DecideLoop(c: NodeId, rows: Rows, matched: bool) returns (alive: bool, decided: bool)
      requires Idle() && LoopDue(flow, rows, c) && c in store.nodes && store.nodes[c] == rows[c]
      modifies this`now, this`here, this`phase, this`todo, store
      ensures alive ==> Idle()
      ensures alive ==> var (later, reply) := Decide1(flow, rows, old(store.Tables()), c, matched);
        decided == reply.Looped? && store.Tables() == later && (!decided ==> later == old(store.Tables()))
    {
      WellFormedNow();
      var loop := flow.nodes[c].loop.value;
      var region := FindLoopRegion(flow, c, loop.target);
      var reply := Write(TxLoop(c, rows[c].attemptCount, matched, loop.maxIterations, region));
      return !reply.LeaseLost?, reply.Looped?;
    }

    /** `_process_loops` */
    method LoopPass() returns (alive: bool)
      requires Idle()
      modifies this`now, this`here, this`phase, this`todo, store
      ensures alive ==> Idle()
      ensures alive ==> store.Tables() == LoopFold(flow, judge, old(store.nodes), old(store.Tables()), |flow.ids|)
      ensures alive ==> forall c :: c in flow.nodes ==> ControllerDone(flow, store.Tables(), c)
    {
      Wiring();
      var rows := store.nodes;
      ghost var db := store.Tables();
      LoopsAtFirst(flow, db);
      for i := 0 to |flow.ids|
        invariant Idle() && store.Tables() == LoopFold(flow, judge, rows, db, i)
        invariant LoopsTo(flow, rows, store.Tables(), i)
      {
        ghost var mid := store.Tables();
        assert flow.ids[i] in flow.ids;
        alive := LoopController(flow.ids[i], rows);
        if !alive { return; }
        LoopFoldNext(flow, judge, rows, db, i, mid, store.Tables());
      }
      LoopsDecided(flow, judge, db);
      alive := true;
    }

    /** `succeed_attempt` for an attempt the owner waits for. */
    method Accept(n: NodeId, result: Result) returns (alive: bool, stale: bool, ghost at: Time)
      requires Idle() && n in active
      modifies this`now, this`here, this`fuel, this`phase, this`todo, this`active, store
      ensures alive ==> Idle() && active == old(active) - {n}
      ensures alive ==> stale == !old(ActiveAttempt(store.Tables(), n, active[n], lease.generation))
      ensures alive ==> store.Tables() == SucceedAttempt(old(store.Tables()), n, old(active)[n], result.digest,
        result.outputs, result.checks, lease.generation, at).0
      ensures alive ==> Spent(old(fuel), fuel)
    {
      NewestWhenActive(n, active[n]);
      ghost var before := store.Tables();
      var reply := Advance(TxSucceed(n, active[n], result.digest, result.outputs, result.checks));
      at := now;
      ResultAnswers(before, n, active[n], result, lease.generation, at);
      active := active - {n};
      return !reply.LeaseLost?, reply.Stale?, at;
    }

    /** `finish_attempt` for an attempt the owner waits for; what follows from the failure is still to be written. */
    method RecordFault(n: NodeId, result: Result) returns (alive: bool, reply: Reply, ghost at: Time)
      requires Idle() && n in active
      modifies this`now, this`here, this`fuel, this`phase, this`todo, this`active, store
      ensures alive ==> Faithful() && InLoopPhase(Memory()) && active == old(active) - {n}
      ensures alive ==> (store.Tables(), reply) == Fault(old(store.Tables()), n, old(active)[n], result, lease.generation, at)
      ensures alive ==> if old(ActiveAttempt(store.Tables(), n, active[n], lease.generation)) then reply.Settled? else reply.Stale?
      ensures alive ==> todo == if reply.Settled? then Todo(flow, n, old(active)[n], reply.noProgress, reply.verdict) else None
      ensures alive ==> Spent(old(fuel), fuel)
    {
      NewestWhenActive(n, active[n]);
      ghost var before := store.Tables();
      reply := Advance(TxFinish(n, active[n], result.digest, result.failure, result.outputs, result.checks));
      at := now;
      ResultAnswers(before, n, active[n], result, lease.generation, at);
      active := active - {n};
      return !reply.LeaseLost?, reply, at;
    }

    /** `_try_repair`: a repair round is routed exactly when one fits. */
    method TryRepair(n: NodeId, failure: Option<Failure>, digest: Digest, evidence: Digest) returns (alive: bool, routed: bool)
      requires Idle() && n in flow.nodes && n in store.nodes
      requires LastFailure(store.Tables(), n) == failure && store.nodes[n].lastDigest == Some(digest)
      modifies this`now, this`here, this`phase, this`todo, store
      ensures alive ==> Idle()
      ensures alive && !routed ==> store.Tables() == old(store.Tables())
      ensures alive && !routed ==> forall i: nat :: !RepairPossible(flow, store.Tables(), n, failure, digest, i)
      ensures alive && routed ==> Repaired(flow, old(store.Tables()), store.Tables(), n, failure, digest)
    {
      if flow.nodes[n].repair.None? || FailedCheck(failure).None? { return true, false; }
      var routes := flow.nodes[n].repair.value;
      var found := FindRoute(routes, FailedCheck(failure).value);
      if found.None? { return true, false; }
      var route := routes[found.value];
      TargetsDeclared(n, found.value);
      var orders := CollectTargets(flow, route.targets, evidence);
      if orders.None? { return true, false; }
      AllowedWhenItFits(flow, store.Tables(), n, route, digest, orders.value, evidence);
      var tx := TxRepair(n, route.id, digest, route.maxRounds, route.noProgressLimit, orders.value, AttemptLimit(flow.nodes[n]));
      assert RepairArguments(flow, store.Tables(), n, tx, found.value);
      ghost var before := store.Tables();
      var reply := Write(tx);
      alive, routed := !reply.LeaseLost?, reply == Answer(true);
      assert alive && routed ==>
        RepairedBy(flow, before, store.Tables(), n, failure, digest, found.value, orders.value, evidence);
    }

    /** Repair routes name declared nodes. */
    lemma TargetsDeclared(n: NodeId, i: nat)
      requires Faithful() && n in flow.nodes && flow.nodes[n].repair.Some? && i < |flow.nodes[n].repair.value|
      ensures var targets := flow.nodes[n].repair.value[i].targets;
        TargetsWellFormed(flow, targets) && forall k :: 0 <= k < |targets| ==> targets[k].node in flow.nodes
    {
      Invariant();
      assert RoutesWellFormed(flow, flow.nodes[n].repair.value);
    }

    /** `_finalize_attempt` for a failed attempt of a node without repair routes. */
    method Fail(n: NodeId, result: Result) returns (alive: bool, stale: bool, ghost at: Time)
      requires Idle() && n in active && flow.nodes[n].repair.None?
      modifies this`now, this`here, this`fuel, this`phase, this`todo, this`active, store
      ensures alive ==> Idle() && active == old(active) - {n}
      ensures alive ==> stale == !old(ActiveAttempt(store.Tables(), n, active[n], lease.generation))
      ensures alive ==>
        store.Tables() == Settlement(flow, old(store.Tables()), n, old(active)[n], result, lease.generation, at)
      ensures alive ==> Spent(old(fuel), fuel)
    {
      var reply, number := Done, active[n];
      alive, reply, at := RecordFault(n, result);
      stale := reply.Stale?;
      if !alive || stale { return; }
      var node := flow.nodes[n];
      var retry := number < RetryLimit(flow, node) && reply.noProgress < NoProgressLimit(node) && reply.verdict == Continue;
      var status := Failed;
      if retry && !ReplaySafe(node) {
        status := Uncertain;
      } else if retry {
        status := Pending;
      } else if !node.required {
        status := OptionalFailed;
      }
      if status != Failed {
        alive := WriteOwed(n, status);
      }
    }

    /** The status owed for a recorded failure. */
    method WriteOwed(n: NodeId, status: Status) returns (alive: bool)
      requires Faithful() && InLoopPhase(Memory()) && todo == Some((n, status)) && active.Keys <= flow.nodes.Keys
      modifies this`now, this`here, this`phase, this`todo, store
      ensures alive ==> Idle() && store.Tables() == SetNodeStatus(old(store.Tables()), n, status).0
    {
      var last := Execute(TxStatus(n, status));
      alive := !last.LeaseLost?;
    }

    lemma NewestWhenActive(n: NodeId, number: nat)
      requires Faithful()
      ensures ActiveAttempt(store.Tables(), n, number, lease.generation) ==> Newest(store.Tables(), n, number, lease.generation)
    {
      Invariant();
      if ActiveAttempt(store.Tables(), n, number, lease.generation) {
        RunningIsNewest(store.Tables(), here.published, n, number, lease.generation);
      }
    }

    /** `_finalize_attempt` for a failed attempt of a node with repair routes. */
    method FailAndRepair(n: NodeId, result: Result, evidence: Digest) returns (alive: bool, stale: bool, ghost at: Time)
      requires Idle() && n in active && flow.nodes[n].repair.Some? && !result.passed
      modifies this`now, this`here, this`fuel, this`phase, this`todo, this`active, store
      ensures alive ==> Idle() && active == old(active) - {n}
      ensures alive ==> stale == !old(ActiveAttempt(store.Tables(), n, active[n], lease.generation))
      ensures alive ==> Finalized(flow, old(store.Tables()), store.Tables(), n, old(active)[n], result, lease.generation, at)
      ensures alive ==> Spent(old(fuel), fuel)
    {
      ghost var before := store.Tables();
      var reply, number := Done, active[n];
      NewestWhenActive(n, number);
      alive, reply, at := RecordFault(n, result);
      stale := reply.Stale?;
      if alive && !stale && reply.verdict == Continue {
        FaultIsReadBack(before, n, number, result, lease.generation, at);
        var routed;
        alive, routed := TryRepair(n, result.failure, result.digest, evidence);
      }
    }

    /** `_finalize_attempt`; a result of an attempt that is no longer the node's own changes nothing. */
    method FinalizeAttempt(n: NodeId, result: Result, evidence: Digest) returns (alive: bool, stale: bool, ghost at: Time)
      requires Idle() && n in active
      modifies this`now, this`here, this`fuel, this`phase, this`todo, this`active, store
      ensures alive ==> Idle() && active == old(active) - {n}
      ensures alive ==> stale == !old(ActiveAttempt(store.Tables(), n, active[n], lease.generation))
      ensures alive ==> Finalized(flow, old(store.Tables()), store.Tables(), n, old(active)[n], result, lease.generation, at)
      ensures alive ==> Spent(old(fuel), fuel)
    {
      if result.passed {
        alive, stale, at := Accept(n, result);
      } else if flow.nodes[n].repair.None? {
        alive, stale, at := Fail(n, result);
      } else {
        alive, stale, at := FailAndRepair(n, result, evidence);
      }
    }

    /** The node at position `i` in the repair pass. */
    method RepairNode(i: nat, rows: Rows, ghost first: Db, ghost before: seq<Db>) returns (alive: bool, ghost trace: seq<Db>)
      requires Idle() && i < |flow.ids| && Listed(flow) && rows.Keys == flow.nodes.Keys
      requires RoundsFrom(flow, before, first, store.Tables())
      requires Repairing(flow, rows, store.Tables(), i)
      modifies this`now, this`here, this`phase, this`todo, store
      ensures alive ==> Idle() && Repairing(flow, rows, store.Tables(), i + 1)
      ensures alive ==> RoundsFrom(flow, trace, first, store.Tables())
      ensures alive && old(NothingToRepair(flow, store.Tables(), flow.ids[i])) ==> store.Tables() == old(store.Tables())
    {
      var n := flow.ids[i];
      assert n in flow.ids;
      ghost var db := store.Tables();
      trace := before;
      if rows[n].status.Failed? {
        var failure, digest := LastFailure(store.Tables(), n), rows[n].lastDigest;
        if failure.Some? && digest.Some? {
          var evidence: Digest := *;
          var routed;
          alive, routed := TryRepair(n, failure, digest.value, evidence);
          if alive && routed {
            RepairingRound(flow, rows, db, store.Tables(), i, failure, digest.value);
            RoundsNext(flow, before, first, db, store.Tables(), n);
            trace := before + [store.Tables()];
          } else if alive {
            RepairingNext(flow, rows, db, i);
          }
          return;
        }
      }
      PassedOver(flow, rows, db, i);
      RepairingNext(flow, rows, db, i);
      alive := true;
    }

    /** The repair pass: afterwards no round fits the last failure of any node. */
    method RepairPass() returns (alive: bool, ghost trace: seq<Db>)
      requires Idle()
      modifies this`now, this`here, this`phase, this`todo, store
      ensures alive ==> Idle()
      ensures alive ==> NoRepair(flow, store.Tables()) && RoundsFrom(flow, trace, old(store.Tables()), store.Tables())
      ensures alive && old(NoRepair(flow, store.Tables())) ==> store.Tables() == old(store.Tables())
    {
      Wiring();
      var rows := store.nodes;
      ghost var db := store.Tables();
      trace := [db];
      for i := 0 to |flow.ids|
        invariant Idle() && Repairing(flow, rows, store.Tables(), i) && RoundsFrom(flow, trace, db, store.Tables())
        invariant NoRepair(flow, db) ==> store.Tables() == db
      {
        assert flow.ids[i] in flow.ids;
        alive, trace := RepairNode(i, rows, db, trace);
        if !alive { return; }
      }
      forall n | n in flow.nodes ensures NothingToRepair(flow, store.Tables(), n) {
        assert n in flow.ids;
      }
      alive := true;
    }

    ghost function Present(): Moment
      reads this, store
    {
      Moment(store.Tables(), active)
    }

    /**
     The finished worker at the head of the queue, if it is still waited for, is settled with its result, or as a timeout
     if it is past its deadline by now.  A result that comes too late for its node is dropped.
     */
    method Collect(head: Option<Finished>) returns (alive: bool, progressed: bool, ghost settled: Result)
      requires Idle()
      modifies this`now, this`here, this`fuel, this`phase, this`todo, this`active, store
      ensures alive ==> Idle()
      ensures alive ==> (progressed <==> head.Some? && head.value.n in old(active))
      ensures alive && progressed ==> SettlesOne(flow, old(Present()), Present(), head.value.n, settled, lease.generation)
      ensures alive && progressed ==> if head.value.late then IsTimeout(settled) else settled == head.value.result
      ensures alive && !progressed ==> Present() == old(Present())
      ensures alive ==> if progressed then Spent(old(fuel), fuel) else fuel == old(fuel)
    {
      var evidence: Digest := *;
      if head.None? || head.value.n !in active { return true, false, TimeoutOf(""); }
      var n, result := head.value.n, head.value.result;
      if head.value.late {
        result := TimeoutResult();
      }
      var stale;
      ghost var at;
      alive, stale, at := FinalizeAttempt(n, result, evidence);
      assert alive ==> SettledBy(flow, old(Present()), Present(), n, result, lease.generation, at);
      return alive, true, result;
    }

    /** `timeout_result` */
    method TimeoutResult() returns (result: Result)
      ensures IsTimeout(result)
    {
      var digest: Digest := *;
      return TimeoutOf(digest);
    }

    /** One overdue worker.  `late`: its attempt is no longer its node's own. */
    method ExpireOne(n: NodeId) returns (alive: bool, late: bool)
      requires Idle() && n in active
      modifies this`now, this`here, this`fuel, this`phase, this`todo, this`active, store
      ensures alive ==> Idle() && TimeoutStep(flow, old(Present()), Present(), n, lease.generation)
      ensures alive ==> late == !old(Own(Present(), n, lease.generation))
      ensures alive ==> active == old(active) - {n} && Spent(old(fuel), fuel)
    {
      var evidence: Digest := *;
      ghost var before, number := store.Tables(), active[n];
      var result := TimeoutResult();
      ghost var at;
      alive, late, at := FinalizeAttempt(n, result, evidence);
      if alive {
        assert SettledBy(flow, old(Present()), Present(), n, result, lease.generation, at);
        if late {
          StaleChangesNothing(flow, before, store.Tables(), n, number, result, lease.generation, at);
        }
      }
    }

    /**
     The workers that are past their deadline, settled as timeouts one after the other.  A result that comes too late
     for its node is an error here, which leaves the scheduler.
     */
    method Expire(overdue: set<NodeId>) returns (exit: Exit, progressed: bool, ghost trace: seq<Moment>, ghost turns: seq<NodeId>)
      requires Idle()
      modifies this`now, this`here, this`fuel, this`phase, this`todo, this`active, store
      ensures !exit.LeaseGone? ==> Idle() && Lapsed(flow, trace, turns, old(Present()), Present(), lease.generation)
      ensures exit.TooLate? ==> LastIsLate(trace, turns, lease.generation)
      ensures exit.Stays? ==> OwnUntil(trace, turns, lease.generation, |turns|) && (progressed <==> turns != [])
      ensures exit.Stays? ==> Taken(turns) == overdue * old(active).Keys
      ensures exit.Stays? ==> if progressed then Spent(old(fuel), fuel) else fuel == old(fuel)
    {
      var rest := overdue * active.Keys;
      ghost var want := rest;
      exit, progressed, trace, turns := Stays, false, [Present()], [];
      while rest != {}
        invariant Idle() && rest <= active.Keys && Lapsed(flow, trace, turns, old(Present()), Present(), lease.generation)
        invariant exit.Stays? && OwnUntil(trace, turns, lease.generation, |turns|) && (progressed <==> turns != [])
        invariant rest <= want && Taken(turns) == want - rest
        invariant if progressed then Spent(old(fuel), fuel) else fuel == old(fuel)
        decreases rest
      {
        var n :| n in rest;
        rest := rest - {n};
        exit, trace, turns := ExpireNext(n, trace, turns, old(Present()));
        progressed := true;
        if !exit.Stays? { return; }
      }
    }

    /** The next overdue worker. */
    method ExpireNext(n: NodeId, ghost before: seq<Moment>, ghost taken: seq<NodeId>, ghost first: Moment)
      returns (exit: Exit, ghost trace: seq<Moment>, ghost turns: seq<NodeId>)
      requires Idle() && n in active && Lapsed(flow, before, taken, first, Present(), lease.generation)
      requires OwnUntil(before, taken, lease.generation, |taken|)
      modifies this`now, this`here, this`fuel, this`phase, this`todo, this`active, store
      ensures turns != [] && Taken(turns) == Taken(taken) + {n}
      ensures !exit.LeaseGone? ==> Idle() && Lapsed(flow, trace, turns, first, Present(), lease.generation)
      ensures exit.Stays? ==> OwnUntil(trace, turns, lease.generation, |turns|)
      ensures exit.TooLate? ==> LastIsLate(trace, turns, lease.generation)
      ensures !exit.LeaseGone? ==> active == old(active) - {n} && Spent(old(fuel), fuel)
    {
      var alive, late := ExpireOne(n);
      trace, turns := before + [Present()], taken + [n];
      exit := if !alive then LeaseGone else if late then TooLate else Stays;
      TakenNext(taken, n);
      if alive {
        LapsedNext(flow, before, taken, first, old(Present()), Present(), n, lease.generation);
      }
    }

    /** With nothing running and the attempt budget used up, every pending node fails. */
    method Exhaust() returns (alive: bool)
      requires Idle() && active == map[] && AttemptTotal(flow, store.Tables()) >= flow.budgets.maxTotalAttempts
      modifies this`now, this`here, this`fuel, this`phase, this`todo, store
      ensures alive ==> Idle() && store.Tables() == old(store.Tables()).(nodes := ExhaustedRows(old(store.nodes)))
      ensures alive ==> Spent(old(fuel), fuel) || (fuel == old(fuel) && store.nodes == old(store.nodes))
    {
      Enumerated();
      ghost var db := store.Tables();
      ExhaustingAtFirst(flow, store.nodes);
      for i := 0 to |flow.ids|
        invariant Idle() && store.Tables() == db.(nodes := store.nodes) && Exhausting(flow, db.nodes, store.nodes, i)
        invariant Spent(old(fuel), fuel) || (fuel == old(fuel) && store.nodes == db.nodes)
      {
        alive := ExhaustOne(i, db);
        if !alive { return; }
      }
      ExhaustedAll(flow, db.nodes, store.nodes);
      alive := true;
    }

    /** The node at position `i`, which fails if it is pending. */
    method ExhaustOne(i: nat, ghost db: Db) returns (alive: bool)
      requires Idle() && active == map[] && AttemptTotal(flow, db) >= flow.budgets.maxTotalAttempts
      requires Increasing(flow.ids) && Listed(flow) && i < |flow.ids|
      requires store.Tables() == db.(nodes := store.nodes) && Exhausting(flow, db.nodes, store.nodes, i)
      modifies this`now, this`here, this`fuel, this`phase, this`todo, store
      ensures alive ==> Idle() && store.Tables() == db.(nodes := store.nodes) && Exhausting(flow, db.nodes, store.nodes, i + 1)
      ensures alive ==>
        if old(store.nodes[flow.ids[i]].status.Pending?) then Spent(old(fuel), fuel)
        else fuel == old(fuel) && store.nodes == old(store.nodes)
    {
      var n := flow.ids[i];
      assert n in flow.ids;
      ExhaustingNext(flow, db.nodes, store.nodes, i);
      if !store.nodes[n].status.Pending? { return true; }
      ExhaustedCounts(db, store.nodes, i);
      var reply := Advance(TxStatus(n, Failed));
      return !reply.LeaseLost?;
    }

    lemma SomeExhausted(nodes: Rows)
      requires exists n :: n in nodes && nodes[n].status.Pending?
      ensures ExhaustedRows(nodes) != nodes
    {
      var n :| n in nodes && nodes[n].status.Pending?;
      assert ExhaustedRows(nodes)[n] != nodes[n];
    }

    /** Failing pending nodes leaves the attempts as they are. */
    lemma ExhaustedCounts(db: Db, nodes: Rows, i: nat)
      requires i <= |flow.ids| && Exhausting(flow, db.nodes, nodes, i)
      ensures AttemptTotal(flow, db.(nodes := nodes)) == AttemptTotal(flow, db)
    {
      StatusCounts(flow, db, db.(nodes := nodes));
    }

    /** `invalidate_node`: an accepted artifact is missing or no longer meets its schema. */
    method Invalidate(n: NodeId) returns (alive: bool)
      requires Idle() && n in flow.nodes && (phase.Opening? || AtRest(flow, store.Tables(), Memory()))
      requires fuel.None?
      modifies this`now, this`here, this`phase, this`todo, store
      ensures alive ==> Idle() && phase == old(phase) && n in old(store.nodes)
      ensures alive ==> store.Tables() == WithNodes(old(store.Tables()), old(store.nodes)[n := old(store.nodes)[n].(status := Failed)])
      ensures alive && old(AllTerminal(flow, store.Tables())) ==> AllTerminal(flow, store.Tables())
    {
      RowsExist();
      var reply := Execute(TxInvalidate(n));
      alive := !reply.LeaseLost?;
    }

    /**
     `_validate_accepted`: the nodes whose accepted artifacts are lost, and on demand the producers of missing workflow
     outputs, are failed.  It is valid if and only if there are none.
     */
    method ValidateAccepted(order: seq<NodeId>, outputs: bool) returns (alive: bool, valid: bool)
      requires Idle() && (phase.Opening? || AtRest(flow, store.Tables(), Memory()))
      requires Declares(flow, order) && fuel.None?
      modifies this`now, this`here, this`phase, this`todo, store
      ensures alive ==> Idle() && phase == old(phase)
      ensures alive && old(AllTerminal(flow, store.Tables())) ==> AllTerminal(flow, store.Tables())
      ensures alive ==> store.Tables() == old(Checked(flow, holds, store.Tables(), outputs))
      ensures alive ==> (valid <==> old(Kept(flow, holds, store.Tables()) && (outputs ==> Delivered(flow, store.Tables()))))
    {
      RowsExist();
      var rows := store.nodes;
      ghost var db := store.Tables();
      alive, valid := ValidateNodes(order, rows);
      if alive && outputs {
        alive, valid := ValidateOutputs(rows, valid, db);
      }
      NothingWithdrawn(flow, holds, db, outputs);
    }

    /** The artifacts of every node that has succeeded. */
    method ValidateNodes(order: seq<NodeId>, rows: Rows) returns (alive: bool, valid: bool)
      requires Idle() && (phase.Opening? || AtRest(flow, store.Tables(), Memory())) && Declares(flow, order) && fuel.None?
      requires rows == store.nodes && rows.Keys == flow.nodes.Keys
      modifies this`now, this`here, this`phase, this`todo, store
      ensures alive ==> Idle() && phase == old(phase) && (phase.Opening? || AtRest(flow, store.Tables(), Memory()))
      ensures alive && old(AllTerminal(flow, store.Tables())) ==> AllTerminal(flow, store.Tables())
      ensures alive ==> store.Tables() == old(Checked(flow, holds, store.Tables(), false))
      ensures alive ==> (valid <==> old(Withdrawn(flow, holds, store.Tables(), false)) == {})
    {
      ghost var db := store.Tables();
      ghost var gone: set<NodeId> := {};
      alive, valid := true, true;
      BrokenAtFirst(flow, holds, db, order);
      for k := 0 to |order|
        invariant Idle() && phase == old(phase) && (phase.Opening? || AtRest(flow, store.Tables(), Memory()))
        invariant old(AllTerminal(flow, store.Tables())) ==> AllTerminal(flow, store.Tables())
        invariant store.Tables() == db.(nodes := Failing(rows, gone)) && gone == BrokenIn(flow, holds, db, order[..k])
        invariant valid <==> gone == {}
      {
        alive, valid, gone := ValidateNode(order, k, rows, valid, db, gone);
        if !alive { return; }
      }
      BrokenInAll(flow, holds, db, order);
    }

    /** The artifacts of one node. */
    method ValidateNode(order: seq<NodeId>, k: nat, rows: Rows, soFar: bool, ghost db: Db, ghost gone: set<NodeId>)
      returns (alive: bool, valid: bool, ghost next: set<NodeId>)
      requires Idle() && (phase.Opening? || AtRest(flow, store.Tables(), Memory())) && Declares(flow, order) && fuel.None?
      requires k < |order| && rows == db.nodes && rows.Keys == flow.nodes.Keys && (soFar <==> gone == {})
      requires store.Tables() == db.(nodes := Failing(rows, gone)) && gone == BrokenIn(flow, holds, db, order[..k])
      modifies this`now, this`here, this`phase, this`todo, store
      ensures alive ==> Idle() && phase == old(phase) && (phase.Opening? || AtRest(flow, store.Tables(), Memory()))
      ensures alive && old(AllTerminal(flow, store.Tables())) ==> AllTerminal(flow, store.Tables())
      ensures alive ==> store.Tables() == db.(nodes := Failing(rows, next)) && (valid <==> next == {})
      ensures next == BrokenIn(flow, holds, db, order[..k + 1])
    {
      alive, valid, next := true, soFar, gone;
      BrokenNext(flow, holds, db, order, k);
      var n := order[k];
      assert n in order;
      IntactAsBefore(flow, holds, db, gone, n);
      if rows[n].status.Succeeded? && !Intact(flow, holds, store.Tables(), n) {
        valid, next := false, gone + {n};
        alive := Invalidate(n);
      }
    }

    /** The declared workflow outputs: the producer of a missing one is failed. */
    method ValidateOutputs(rows: Rows, soFar: bool, ghost db: Db) returns (alive: bool, valid: bool)
      requires Idle() && (phase.Opening? || AtRest(flow, store.Tables(), Memory())) && fuel.None?
      requires rows == db.nodes && rows.Keys == flow.nodes.Keys && (forall o :: o in flow.outputs ==> o.0 in flow.nodes)
      requires store.Tables() == Checked(flow, holds, db, false) && (soFar <==> Withdrawn(flow, holds, db, false) == {})
      modifies this`now, this`here, this`phase, this`todo, store
      ensures alive ==> Idle() && phase == old(phase)
      ensures alive && old(AllTerminal(flow, store.Tables())) ==> AllTerminal(flow, store.Tables())
      ensures alive ==> store.Tables() == Checked(flow, holds, db, true)
      ensures alive ==> (valid <==> Withdrawn(flow, holds, db, true) == {})
    {
      alive, valid := true, soFar;
      var rest := flow.outputs;
      ghost var broken := Withdrawn(flow, holds, db, false);
      DebtorsEnds(flow, holds, db);
      while rest != {}
        invariant rest <= flow.outputs
        invariant Idle() && phase == old(phase) && (phase.Opening? || AtRest(flow, store.Tables(), Memory()))
        invariant old(AllTerminal(flow, store.Tables())) ==> AllTerminal(flow, store.Tables())
        invariant store.Tables() == db.(nodes := Failing(rows, broken + Debtors(db, flow.outputs - rest)))
        invariant valid <==> broken + Debtors(db, flow.outputs - rest) == {}
        decreases rest
      {
        var o :| o in rest;
        alive, valid := ValidateOutput(rows, o, rest, valid, db, broken);
        rest := rest - {o};
        if !alive { return; }
      }
    }

    /** One workflow output. */
    method ValidateOutput(rows: Rows, o: (NodeId, Name), ghost rest: set<(NodeId, Name)>, soFar: bool, ghost db: Db,
                          ghost broken: set<NodeId>)
      returns (alive: bool, valid: bool)
      requires Idle() && (phase.Opening? || AtRest(flow, store.Tables(), Memory())) && fuel.None?
      requires rows == db.nodes && rows.Keys == flow.nodes.Keys && o in rest && rest <= flow.outputs && o.0 in flow.nodes
      requires store.Tables() == db.(nodes := Failing(rows, broken + Debtors(db, flow.outputs - rest)))
      requires soFar <==> broken + Debtors(db, flow.outputs - rest) == {}
      modifies this`now, this`here, this`phase, this`todo, store
      ensures alive ==> Idle() && phase == old(phase) && (phase.Opening? || AtRest(flow, store.Tables(), Memory()))
      ensures alive && old(AllTerminal(flow, store.Tables())) ==> AllTerminal(flow, store.Tables())
      ensures alive ==> store.Tables() == db.(nodes := Failing(rows, broken + Debtors(db, flow.outputs - (rest - {o}))))
      ensures alive ==> (valid <==> broken + Debtors(db, flow.outputs - (rest - {o})) == {})
    {
      alive, valid := true, soFar;
      ghost var gone := broken + Debtors(db, flow.outputs - rest);
      DebtorsNext(db, flow.outputs, rest, o, broken);
      if !rows[o.0].status.Succeeded? || o.1 !in Accepted(store.Tables(), o.0) {
        valid := false;
        IntactAsBefore(flow, holds, db, gone, o.0);
        alive := Invalidate(o.0);
      }
    }

    /** `renew_lease` */
    method RenewLease() returns (alive: bool)
      requires Idle()
      modifies this`now, this`here, store
      ensures alive ==> Idle() && store.Tables() == old(store.Tables()).(run := store.run)
      ensures alive ==> store.run == old(store.run).(expiresAt := Some(now + lease.ttl)) && LeaseLive(old(store.run), lease, now)
    {
      Tick();
      ghost var t := ReachedRenew(flow, here, fuel);
      var reply := store.Renew(lease, now);
      here := t;
      return reply.Done?;
    }

    /** Terminal rows that a cancellation leaves. */
    predicate AllCancelled()
      reads store
    {
      forall n :: n in store.nodes ==> Dropped(store.nodes[n].status)
    }

    /** The cancellation of a run: its workers are dropped, and their results will be refused. */
    method Cancel() returns (alive: bool)
      requires Idle()
      requires fuel.None?
      modifies this`now, this`here, this`phase, this`todo, this`active, store
      ensures alive ==> Settled() && phase.Finished? && active == map[] && AllCancelled() && store.run.status == RunCancelled
      ensures alive ==> store.nodes == CancelledRows(old(store.nodes)) && store.artifacts == old(store.artifacts)
      ensures alive ==> RowsFor(flow, store.nodes) && store.joins == SavedJoins(flow, store.nodes, old(store.joins))
    {
      var reply := Execute(TxFinishRun(RunCancelled));
      active := map[];
      if reply.LeaseLost? { return false; }
      assert AllCancelled();
      RowsUnchangedIsRead(store.nodes, store.Tables());
      var decisions;
      alive, decisions := PersistJoins(store.nodes);
    }

    /** A terminal graph is reduced to the status of the run. */
    method Finish(order: seq<NodeId>) returns (alive: bool, status: RunStatus)
      requires Idle() && active == map[] && AllTerminal(flow, store.Tables())
      requires Declares(flow, order)
      requires fuel.None?
      modifies this`now, this`here, this`phase, this`todo, store
      ensures alive ==> Settled() && phase.Finished?
      ensures alive ==> Concluded(flow, holds, old(store.Tables()), store.Tables(), status)
    {
      ghost var db := store.Tables();
      alive, status := ReduceAndCheck(order);
      if !alive { return; }
      ghost var mid := store.Tables();
      alive := Conclude(status);
      if alive {
        ConcludedFrom(flow, holds, db, mid, store.Tables(), status);
      }
    }

    /** The reduction, and the check of the artifacts when it comes out as success. */
    method ReduceAndCheck(order: seq<NodeId>) returns (alive: bool, status: RunStatus)
      requires Idle() && active == map[] && AllTerminal(flow, store.Tables()) && Declares(flow, order) && fuel.None?
      modifies this`now, this`here, this`phase, this`todo, store
      ensures alive ==> Idle() && AtRest(flow, store.Tables(), Memory())
      ensures alive ==> old(ReducedTo(flow, holds, store.Tables(), status)) && flow.nodes.Keys <= store.nodes.Keys
      ensures alive ==> store.Tables() == old(BeforeEnd(flow, holds, store.Tables()))
      ensures alive ==> status == RunFailed || status == Reduce(flow, store.Tables())
    {
      Enumerated();
      alive := true;
      status := Reduce(flow, store.Tables());
      if status == RunSucceeded {
        NothingWithdrawn(flow, holds, store.Tables(), true);
        var valid;
        alive, valid := ValidateAccepted(order, true);
        if !alive { return; }
        Enumerated();
        if !valid { status := RunFailed; }
      }
    }

    /** `finish_run` for a terminal graph. */
    method Conclude(status: RunStatus) returns (alive: bool)
      requires Idle() && fuel.None? && AtRest(flow, store.Tables(), Memory())
      requires flow.nodes.Keys <= store.nodes.Keys && (status == RunFailed || status == Reduce(flow, store.Tables()))
      modifies this`now, this`here, this`phase, this`todo, store
      ensures alive ==> Settled() && phase.Finished? && store.run.status == status
      ensures alive ==> store.artifacts == old(store.artifacts)
      ensures alive ==> store.nodes == if status.RunCancelled? then CancelledRows(old(store.nodes)) else old(store.nodes)
    {
      var reply := Execute(TxFinishRun(status));
      alive := !reply.LeaseLost?;
    }

    /** Loop decisions, then route decisions on the rows they have left. */
    method ControlPass() returns (alive: bool)
      requires Idle()
      modifies this`now, this`here, this`phase, this`todo, store
      ensures alive ==> Idle()
      ensures alive ==> store.Tables() == Controlled(flow, judge, old(store.Tables()))
      ensures alive ==> LoopsClosed(flow, store.Tables())
    {
      alive := LoopPass();
      if alive {
        RoutesKeepClosed(flow, judge, store.nodes, store.Tables(), |flow.ids|);
        alive := RoutePass();
      }
    }

    /**
     Reserve voters, join evidence, blocking, and launching.  What it leaves when it launches nothing is a function of
     the rows before it and of the cancel event alone.
     */
    method FrontierPass(order: seq<NodeId>) returns (alive: bool, skipped: bool)
      requires Idle()
      modifies this`now, this`here, this`phase, this`todo, this`active, store
      ensures alive ==> Idle() && old(RowsFor(flow, store.nodes))
      ensures alive ==> active == old(active) || |active| > |old(active)|
      ensures alive && active == old(active) ==>
        && store.nodes == old(QuietRows(flow, order, store.Tables(), active, skipped))
        && store.joins == old(SavedJoins(flow, store.nodes, store.joins))
      ensures alive ==> store.loops == old(store.loops)
      ensures alive && active != old(active) ==> !old(NobodyDue(flow, order, store.Tables(), active))
    {
      var started, full, decisions;
      ghost var db, held := store.Tables(), active;
      skipped := false;
      alive, started, decisions := Prepare(order);
      if !alive { return; }
      skipped := *;
      if skipped { return; }
      if !started {
        BlockCounts(flow, order, db, held);
        StatusCounts(flow, db, store.Tables());
      }
      alive, full := DispatchPass(store.nodes, decisions);
    }

    /** The passes before the dispatch pass. */
    method Prepare(order: seq<NodeId>) returns (alive: bool, started: bool, decisions: map<NodeId, Decision>)
      requires Idle()
      modifies this`now, this`here, this`phase, this`todo, this`active, store
      ensures alive ==> Idle() && old(RowsFor(flow, store.nodes)) && Agree(store.joins, decisions)
      ensures alive && !started ==>
        && active == old(active) && store.nodes == old(AfterBlock(flow, order, store.Tables(), active))
        && store.joins == old(SavedJoins(flow, store.nodes, store.joins)) && decisions == old(Decisions(flow, store.Tables()))
      ensures alive && started ==> |active| > |old(active)| && !old(NobodyDue(flow, order, store.Tables(), active))
      ensures alive ==> store.loops == old(store.loops)
    {
      Declared();
      var rows, full := store.nodes, false;
      alive, started, full := ReservePass(order);
      decisions := map[];
      if !alive { return; }
      if started {
        rows := store.nodes;
        RowsUnchangedIsRead(rows, store.Tables());
      }
      alive, decisions := SettlePass(rows);
    }

    /** Join evidence, and blocking on the same rows. */
    method SettlePass(rows: Rows) returns (alive: bool, decisions: map<NodeId, Decision>)
      requires Idle() && ReadAs(rows, store.Tables())
      modifies this`now, this`here, this`phase, this`todo, store
      ensures alive ==> Idle() && RowsFor(flow, rows) && Agree(store.joins, decisions)
      ensures alive ==> store.joins == SavedJoins(flow, rows, old(store.joins)) && decisions == Verdicts(flow, store.joins)
      ensures alive ==> store.nodes == BlockedRows(flow, rows, decisions, old(store.nodes)) && store.loops == old(store.loops)
    {
      ghost var before := store.Tables();
      alive, decisions := PersistJoins(rows);
      if !alive { return; }
      ReadAsStays(rows, before, store.Tables());
      alive := BlockPass(rows, decisions);
    }

    /** Repair, control and frontier. */
    method Advances(order: seq<NodeId>) returns (alive: bool, ghost front: Front)
      requires Idle()
      modifies this`now, this`here, this`phase, this`todo, this`active, store
      ensures alive ==> Idle() && RowsFor(flow, front.db.nodes)
      ensures alive && old(NoRepair(flow, store.Tables())) ==> front.db == Controlled(flow, judge, old(store.Tables()))
      ensures alive ==> Begins(flow, judge, old(store.Tables()), front)
      ensures alive ==> FrontLeft(flow, order, front, old(active), store.Tables()) && LoopsClosed(flow, front.db)
      ensures alive ==> if front.quiet then active == old(active) else |active| > |old(active)|
    {
      ghost var rounds;
      alive, rounds := RepairPass();
      front := Front(rounds, store.Tables(), false, true);
      if !alive { return; }
      alive := ControlPass();
      if !alive { return; }
      ghost var db := store.Tables();
      var skipped;
      alive, skipped := FrontierPass(order);
      front := Front(rounds, db, skipped, active == old(active));
    }

    /** One finished worker and the overdue ones; if there were any, the control edges again. */
    method Gather(news: News) returns (exit: Exit, progressed: bool)
      requires Idle()
      modifies this`now, this`here, this`fuel, this`phase, this`todo, this`active, store
      ensures !exit.LeaseGone? ==> Idle()
      ensures exit.Stays? ==> if progressed then Spent(old(fuel), fuel) else fuel == old(fuel) && Present() == old(Present())
      ensures !exit.LeaseGone? && old(active) == map[] ==> exit.Stays? && !progressed
      ensures exit.Stays? && progressed ==> LoopsClosed(flow, store.Tables())
      ensures exit.Stays? ==> (progressed <==> Heard(news, old(active).Keys))
    {
      exit := LeaseGone;
      var alive, more;
      ghost var settled, trace, turns;
      alive, progressed, settled := Collect(news.head);
      if !alive { return; }
      exit, more, trace, turns := Expire(news.overdue);
      NobodyTurned(turns);
      progressed := progressed || more;
      if exit.Stays? && progressed {
        // A controller that has just completed may open its loop again before the graph is reduced.
        alive := ControlPass();
        exit := if alive then Stays else LeaseGone;
      }
    }

    /** The passes of one iteration, in order. */
    method Work(order: seq<NodeId>, news: News)
      returns (exit: Exit, progressed: bool, ghost front: Front, ghost waiting: map<NodeId, nat>)
      requires Idle()
      modifies this`now, this`here, this`fuel, this`phase, this`todo, this`active, store
      ensures !exit.LeaseGone? ==> Idle() && Fronted(flow, judge, order, old(store.Tables()), old(active), front)
      ensures exit.Stays? && (progressed || front.quiet) ==> LoopsClosed(flow, store.Tables())
      ensures exit.Stays? ==> if progressed then Spent(old(fuel), fuel) else fuel == old(fuel)
      ensures !exit.LeaseGone? && old(active) == map[] && front.quiet ==> exit.Stays? && !progressed && active == map[]
      ensures exit.Stays? && !progressed ==> FrontLeft(flow, order, front, old(active), store.Tables())
      ensures exit.Stays? && !progressed ==> if front.quiet then active == old(active) else active != map[]
      ensures !exit.LeaseGone? ==> if front.quiet then waiting == old(active) else |waiting| > |old(active)|
      ensures exit.Stays? ==> (progressed <==> Heard(news, waiting.Keys))
    {
      var alive;
      alive, front := Advances(order);
      waiting := active;
      if !alive { return LeaseGone, false, front, waiting; }
      exit, progressed := Gather(news);
      if exit.Stays? && !progressed && front.quiet {
        QuietKeepsClosed(flow, order, front, old(active), store.Tables());
      }
    }

    /**
     One iteration of the loop of `run`.  It ends without progress exactly when nothing was running, nothing was
     launched, and the rows before the passes that launch were stalled.
     */
    method Iterate(order: seq<NodeId>) returns (turn: Turn, ghost front: Option<Front>, ghost rest: Db)
      requires Idle() && Declares(flow, order)
      modifies this`now, this`here, this`fuel, this`phase, this`todo, this`active, store
      ensures turn.Late? || turn.Again? || turn.Waits? || turn.Stuck? ==> Idle()
      ensures turn.Again? ==> Spent(old(fuel), fuel)
      ensures turn.Waits? ==> active != map[] && fuel == old(fuel)
      ensures turn.Ended? ==> Settled() && phase.Finished? && active == map[]
      ensures turn.Ended? && front.None? ==> AllCancelled() && store.run.status == turn.status
      ensures turn.Ended? && front.Some? ==> Concluded(flow, holds, rest, store.Tables(), turn.status) && LoopsClosed(flow, rest)
      ensures front.Some? && !turn.Late? ==> (turn.Ended? <==> active == map[] && AllTerminal(flow, rest))
      ensures turn.Waits? || turn.Stuck? || turn.Late? ==> store.Tables() == rest
      ensures turn.Again? ==> store.Tables() == rest || store.Tables() == Drained(rest)
      ensures old(store.run.status.RunRunning? && store.run.cancelRequested) ==> front.None?
      ensures if front.None? then turn.Gone? || turn == Ended(RunCancelled) else !turn.Gone?
      ensures front.Some? ==> RowsFor(flow, front.value.db.nodes)
      ensures !turn.Gone? ==>
        (turn.Stuck? <==> old(active) == map[] && front.Some? && front.value.quiet
                          && Stalled(flow, order, front.value.db, front.value.skipped))
      ensures front.Some? && !front.value.quiet ==> !NobodyDue(flow, order, front.value.db, old(active))
      ensures front.Some? && old(NoRepair(flow, store.Tables())) ==>
        front.value.db == Controlled(flow, judge, old(store.Tables()).(run := front.value.db.run))
      ensures front.Some? ==> exists run :: Begins(flow, judge, old(store.Tables()).(run := run), front.value)
      ensures (turn.Waits? || turn.Stuck?) ==> FrontLeft(flow, order, front.value, old(active), store.Tables())
    {
      var alive, renew: bool, late: bool, cancelled: bool := true, *, *, *;
      ghost var db := store.Tables();
      if renew {
        alive := RenewLease();
        if !alive { return Gone, None, db; }
      }
      if store.run.status.RunRunning? && (cancelled || store.run.cancelRequested || late) {
        fuel := None;
        alive := Cancel();
        return if alive then Ended(RunCancelled) else Gone, None, db;
      }
      RepairIgnoresRun(flow, db, store.run);
      ControlKeepsRun(flow, judge, store.Tables());
      ghost var passed;
      ghost var start := store.Tables();
      turn, passed, rest := Rest(order);
      assert turn.Gone? || Begins(flow, judge, db.(run := start.run), passed);
      front := if turn.Gone? then None else Some(passed);
    }

    /** How an iteration ends from the tables `rest` that its passes have left. */
    ghost predicate Leaves(turn: Turn, rest: Db)
      reads this, store
    {
      && (turn.Ended? ==> Settled() && phase.Finished? && active == map[])
      && (turn.Ended? ==> Concluded(flow, holds, rest, store.Tables(), turn.status))
      && (!turn.Gone? && !turn.Late? ==> (turn.Ended? <==> active == map[] && AllTerminal(flow, rest)))
      && (turn.Waits? || turn.Stuck? || turn.Late? ==> store.Tables() == rest)
      && (turn.Again? ==> store.Tables() == rest || store.Tables() == Drained(rest))
    }

    /** The rest of the iteration. */
    method Rest(order: seq<NodeId>) returns (turn: Turn, ghost front: Front, ghost rest: Db)
      requires Idle() && Declares(flow, order)
      modifies this`now, this`here, this`fuel, this`phase, this`todo, this`active, store
      ensures turn.Late? || turn.Again? || turn.Waits? || turn.Stuck? ==> Idle()
      ensures turn.Again? ==> Spent(old(fuel), fuel)
      ensures turn.Waits? ==> active != map[] && fuel == old(fuel)
      ensures Leaves(turn, rest) && (turn.Ended? ==> LoopsClosed(flow, rest))
      ensures !turn.Gone? ==> Fronted(flow, judge, order, old(store.Tables()), old(active), front)
      ensures !turn.Gone? ==>
        (turn.Stuck? <==> old(active) == map[] && front.quiet && Stalled(flow, order, front.db, front.skipped))
      ensures (turn.Waits? || turn.Stuck?) ==> FrontLeft(flow, order, front, old(active), store.Tables())
    {
      var exit, progressed;
      ghost var waiting;
      var news: News := *;
      exit, progressed, front, waiting := Work(order, news);
      rest := store.Tables();
      if exit.LeaseGone? { return Gone, front, rest; }
      if exit.TooLate? { return Late, front, rest; }
      turn := AfterWork(order, progressed, front, old(active));
    }

    /** After the passes. */
    method AfterWork(order: seq<NodeId>, progressed: bool, ghost front: Front, ghost held: map<NodeId, nat>) returns (turn: Turn)
      requires Idle() && RowsFor(flow, front.db.nodes)
      requires Declares(flow, order)
      requires held == map[] && front.quiet ==> !progressed && active == map[]
      requires !progressed ==> FrontLeft(flow, order, front, held, store.Tables())
      requires !progressed ==> if front.quiet then active == held else active != map[]
      requires progressed || front.quiet ==> LoopsClosed(flow, store.Tables())
      modifies this`now, this`here, this`fuel, this`phase, this`todo, store
      ensures turn.Again? || turn.Waits? || turn.Stuck? ==> Idle()
      ensures turn.Again? ==> if progressed then fuel == old(fuel) else Spent(old(fuel), fuel)
      ensures turn.Waits? ==> active != map[] && !progressed && fuel == old(fuel)
      ensures Leaves(turn, old(store.Tables())) && (turn.Ended? ==> LoopsClosed(flow, old(store.Tables())))
      ensures !turn.Gone? ==> (turn.Stuck? <==> held == map[] && front.quiet && Stalled(flow, order, front.db, front.skipped))
      ensures turn.Waits? || turn.Stuck? ==> FrontLeft(flow, order, front, held, store.Tables())
      ensures !turn.Late?
    {
      if active != map[] { return if progressed then Again else Waits; }
      turn := CloseFront(order, progressed, front);
    }

    /** Nothing is running any more. */
    method CloseFront(order: seq<NodeId>, progressed: bool, ghost front: Front) returns (turn: Turn)
      requires Idle() && active == map[] && RowsFor(flow, front.db.nodes)
      requires Declares(flow, order)
      requires !progressed ==> front.quiet && FrontLeft(flow, order, front, map[], store.Tables())
      modifies this`now, this`here, this`fuel, this`phase, this`todo, store
      ensures turn.Again? || turn.Stuck? ==> Idle()
      ensures turn.Ended? ==> Settled() && phase.Finished? && Concluded(flow, holds, old(store.Tables()), store.Tables(), turn.status)
      ensures !turn.Gone? ==> (turn.Ended? <==> old(AllTerminal(flow, store.Tables())))
      ensures !turn.Gone? ==> (turn.Stuck? <==> !progressed && Stalled(flow, order, front.db, front.skipped))
      ensures turn.Stuck? ==> store.Tables() == old(store.Tables())
      ensures turn.Again? ==> store.Tables() == if progressed then old(store.Tables()) else old(Drained(store.Tables()))
      ensures turn.Again? ==> if progressed then fuel == old(fuel) else Spent(old(fuel), fuel)
      ensures !turn.Waits? && !turn.Late?
    {
      if !progressed {
        StallIsSeen(flow, order, front, store.Tables());
      }
      turn := Close(order, progressed);
    }

    /** The end of an iteration in which nothing is running any more. */
    method Close(order: seq<NodeId>, progressed: bool) returns (turn: Turn)
      requires Idle() && active == map[]
      requires Declares(flow, order)
      modifies this`now, this`here, this`fuel, this`phase, this`todo, store
      ensures turn.Again? || turn.Stuck? ==> Idle()
      ensures turn.Ended? ==> Settled() && phase.Finished? && Concluded(flow, holds, old(store.Tables()), store.Tables(), turn.status)
      ensures !turn.Gone? ==> (turn.Ended? <==> old(AllTerminal(flow, store.Tables())))
      ensures !turn.Gone? ==> (turn.Stuck? <==> !progressed && old(NoWayOn(flow, store.Tables())))
      ensures turn.Stuck? ==> store.Tables() == old(store.Tables())
      ensures turn.Again? ==> store.Tables() == if progressed then old(store.Tables()) else old(Drained(store.Tables()))
      ensures turn.Again? ==> if progressed then fuel == old(fuel) else Spent(old(fuel), fuel)
      ensures !turn.Waits? && !turn.Late?
    {
      if AllTerminal(flow, store.Tables()) {
        fuel := None;
        var alive, status := Finish(order);
        return if alive then Ended(status) else Gone;
      }
      if progressed { return Again; }
      if && (exists n :: n in store.nodes && store.nodes[n].status.Pending?)
         && AttemptTotal(flow, store.Tables()) >= flow.budgets.maxTotalAttempts
      {
        SomeExhausted(store.nodes);
        var alive := Exhaust();
        return if alive then Again else Gone;
      }
      return Stuck;
    }

    /**
     What `run` does before its loop: accepted artifacts are checked, interrupted attempts recovered.  It fails the run
     if and only if artifacts are lost, and otherwise hands it to an operator if and only if it is a resumed running
     run with an interrupted attempt that must not be repeated.
     */
    method Open(order: seq<NodeId>, resume: bool, stored: RunStatus) returns (turn: Turn)
      requires Idle() && phase == Opening(resume) && active == map[]
      requires Declares(flow, order)
      requires fuel.None?
      modifies this`now, this`here, this`phase, this`todo, store
      ensures turn.Again? ==> Idle() && OpenRows(flow, old(store.Tables()), store.Tables(), resume, stored)
      ensures turn.Ended? ==> Settled() && phase.Finished? && Shows(flow, holds, store.Tables(), turn.status)
      ensures !turn.Gone? ==> old(OpensAs(flow, holds, store.Tables(), resume, stored, Outcome(turn)))
      ensures !turn.Stuck? && !turn.Waits? && !turn.Late?
    {
      RowsExist();
      ghost var db := store.Tables();
      var outputs := resume && stored.RunSucceeded?;
      var alive, valid := CheckAccepted(order, outputs);
      if !alive { return Gone; }
      if !valid {
        turn := Reject(outputs, db);
      } else if resume && stored.RunRunning? {
        turn := Recover();
      } else {
        turn := Again;
      }
    }

    /** The check of the artifacts before the loop, which changes nothing when it finds nothing. */
    method CheckAccepted(order: seq<NodeId>, outputs: bool) returns (alive: bool, valid: bool)
      requires Idle() && phase.Opening? && Declares(flow, order) && fuel.None?
      modifies this`now, this`here, this`phase, this`todo, store
      ensures alive ==> Idle() && phase == old(phase)
      ensures alive ==> (valid <==> old(Kept(flow, holds, store.Tables()) && (outputs ==> Delivered(flow, store.Tables()))))
      ensures alive ==>
        store.Tables() == if valid then old(store.Tables()) else old(Checked(flow, holds, store.Tables(), outputs))
    {
      NothingWithdrawn(flow, holds, store.Tables(), outputs);
      alive, valid := ValidateAccepted(order, outputs);
    }

    /** A run whose artifacts are lost. */
    method Reject(outputs: bool, ghost db: Db) returns (turn: Turn)
      requires Idle() && phase.Opening? && active == map[] && fuel.None? && store.Tables() == Checked(flow, holds, db, outputs)
      requires db.nodes.Keys == flow.nodes.Keys && (forall o :: o in flow.outputs ==> o.0 in flow.nodes)
      requires !(Kept(flow, holds, db) && (outputs ==> Delivered(flow, db)))
      modifies this`now, this`here, this`phase, this`todo, store
      ensures turn.Gone? || turn == Ended(RunFailed)
      ensures turn.Ended? ==> Settled() && phase.Finished? && Shows(flow, holds, store.Tables(), turn.status)
    {
      var reply := Execute(TxFinishRun(RunFailed));
      if reply.LeaseLost? { return Gone; }
      WithdrawnShows(flow, holds, db, outputs, store.Tables());
      return Ended(RunFailed);
    }

    /**
     Attempts of an earlier owner are interrupted.  What may be repeated is taken up again; if anything may not, the
     run waits for an operator.
     */
    method Recover() returns (turn: Turn)
      requires Idle() && phase == Opening(true) && active == map[] && fuel.None?
      modifies this`now, this`here, this`phase, this`todo, store
      ensures turn.Again? || turn.Gone? || turn == Ended(RunNeedsReconciliation)
      ensures turn.Again? ==> Idle() && RecoveredRows(flow, old(store.Tables()), store.Tables())
      ensures turn.Ended? ==> Settled() && phase.Finished? && Shows(flow, holds, store.Tables(), turn.status)
      ensures !turn.Gone? ==> (turn.Ended? <==> exists n :: InDoubt(flow, old(store.Tables()), n))
    {
      ghost var db := store.Tables();
      var alive, uncertain := Interrupt();
      if !alive { return Gone; }
      turn := Again;
      if uncertain != {} {
        ghost var n :| n in uncertain;
        DoubtIsUncertain(flow, db, store.Tables(), n);
        turn := HandOver(n);
      }
    }

    /** The attempts are interrupted; `uncertain` is what must not be repeated. */
    method Interrupt() returns (alive: bool, uncertain: set<NodeId>)
      requires Idle() && phase == Opening(true) && active == map[] && fuel.None?
      modifies this`now, this`here, this`phase, this`todo, store
      ensures alive ==> Idle() && phase.Opening? && old(store.nodes.Keys) == flow.nodes.Keys
      ensures alive ==> RecoveredRows(flow, old(store.Tables()), store.Tables())
      ensures alive ==> forall n :: n in uncertain <==> InDoubt(flow, old(store.Tables()), n)
    {
      RowsExist();
      ghost var db := store.Tables();
      var reply := Execute(TxRecover(SafeNodes(flow)));
      if reply.LeaseLost? { return false, {}; }
      RecoveryIsExact(flow, db, now);
      return true, reply.uncertain;
    }

    /** An operator has to decide. */
    method HandOver(ghost n: NodeId) returns (turn: Turn)
      requires Idle() && phase.Opening? && active == map[] && fuel.None?
      requires n in flow.nodes && IsStatus(store.Tables(), n, Uncertain)
      modifies this`now, this`here, this`phase, this`todo, store
      ensures turn.Gone? || turn == Ended(RunNeedsReconciliation)
      ensures turn.Ended? ==> Settled() && phase.Finished? && Shows(flow, holds, store.Tables(), turn.status)
    {
      var reply := Execute(TxFinishRun(RunNeedsReconciliation));
      if reply.LeaseLost? { return Gone; }
      turn := Ended(RunNeedsReconciliation);
    }

    /**
     `run` after acquiring the lease; the lease is released in any case.  Iterations that make progress are bounded
     by what the workflow allows, so the loop goes on for long only while it waits for workers.  The model gives up
     when more than `patience` iterations have found workers running and none of them finished or overdue.
     */
    method Serve(order: seq<NodeId>, resume: bool, stored: RunStatus, patience: nat)
      returns (turn: Turn, ghost rounds: nat, waits: nat)
      requires Idle() && phase == Opening(resume) && active == map[] && fuel.None?
      requires Declares(flow, order)
      modifies this`now, this`here, this`fuel, this`phase, this`todo, this`active, store
      ensures !turn.Again? && (turn.Waits? ==> active != map[] && waits > patience)
      ensures rounds <= Termination.Horizon(flow) + waits + 1 && waits <= patience + 1
      ensures turn.Ended? ==> Shows(flow, holds, store.Tables(), turn.status)
      ensures !turn.Gone? ==> AttemptTotal(flow, store.Tables()) <= flow.budgets.maxTotalAttempts
      ensures !turn.Gone? ==> |active| <= flow.budgets.maxConcurrency
      ensures forall later :: !LeaseLive(store.run, lease, later)
    {
      turn, rounds, waits := Drive(order, resume, stored, patience);
      if !turn.Gone? {
        Bounds();
      }
      ghost var before := store.Tables();
      store.Release(lease);
      StatusCounts(flow, before, store.Tables());
      ReleaseShows(flow, holds, before, lease);
    }

    /** `run` between acquiring and releasing the lease. */
    method Drive(order: seq<NodeId>, resume: bool, stored: RunStatus, patience: nat)
      returns (turn: Turn, ghost rounds: nat, waits: nat)
      requires Idle() && phase == Opening(resume) && active == map[] && fuel.None?
      requires Declares(flow, order)
      modifies this`now, this`here, this`fuel, this`phase, this`todo, this`active, store
      ensures !turn.Again? && (turn.Waits? ==> active != map[] && waits > patience)
      ensures rounds <= Termination.Horizon(flow) + waits + 1 && waits <= patience + 1
      ensures !turn.Gone? ==> Faithful()
      ensures turn.Ended? ==> Shows(flow, holds, store.Tables(), turn.status)
    {
      turn := Open(order, resume, stored);
      rounds, waits := 0, 0;
      if turn.Again? {
        StartCounting();
        turn, rounds, waits := Loop(order, patience);
      }
    }

    /** The loop of `run`: each iteration uses up fuel, or waits, or is the last. */
    method Loop(order: seq<NodeId>, patience: nat) returns (turn: Turn, ghost rounds: nat, waits: nat)
      requires Idle() && fuel.Some?
      requires Declares(flow, order)
      modifies this`now, this`here, this`fuel, this`phase, this`todo, this`active, store
      ensures !turn.Again? && (turn.Waits? ==> active != map[] && waits > patience)
      ensures turn.Late? || turn.Waits? || turn.Stuck? ==> Idle()
      ensures rounds <= old(fuel.value) + waits + 1 && waits <= patience + 1
      ensures turn.Ended? ==> Settled() && Shows(flow, holds, store.Tables(), turn.status)
    {
      turn, rounds, waits := Again, 0, 0;
      while turn.Again? || (turn.Waits? && waits <= patience)
        invariant turn.Late? || turn.Again? || turn.Waits? || turn.Stuck? ==> Idle()
        invariant turn.Again? || turn.Waits? ==> fuel.Some?
        invariant turn.Waits? ==> active != map[]
        invariant turn.Ended? ==> Settled() && Shows(flow, holds, store.Tables(), turn.status)
        invariant waits <= (if turn.Waits? then patience + 1 else patience) && rounds <= old(fuel.value) + waits + 1
        invariant turn.Again? || turn.Waits? ==> rounds + fuel.value <= old(fuel.value) + waits
        decreases patience + 1 - waits, if turn.Again? || turn.Waits? then fuel.value + 1 else 0
      {
        ghost var front, rest;
        turn, front, rest := Iterate(order);
        if turn.Ended? && front.Some? {
          ConcludedShows(flow, holds, rest, store.Tables(), turn.status);
        }
        rounds := rounds + 1;
        if turn.Waits? { waits := waits + 1; }
      }
    }

    /** From here on it is counted what the loop may still do. */
    ghost method StartCounting()
      requires Idle() && active == map[]
      modifies this`fuel
      ensures Idle() && fuel.Some? && fuel.value <= Termination.Horizon(flow)
    {
      FuelledFromNow(flow, here);
      fuel := Some(Termination.Fuel(flow, here));
    }

    /** The global bounds, at the present moment. */
    lemma Bounds()
      requires Faithful()
      ensures AttemptTotal(flow, store.Tables()) <= flow.budgets.maxTotalAttempts
      ensures |active| <= flow.budgets.maxConcurrency
    {
      Invariant();
    }
  }

  lemma ExecCases(db: Db, tx: Tx, lease: RunLease, now: Time)
    ensures Exec(db, tx, lease, now).1.LeaseLost? ==> Exec(db, tx, lease, now).0 == db
    ensures !Exec(db, tx, lease, now).1.LeaseLost? ==>
      LeaseLive(db.run, lease, now) && Exec(db, tx, lease, now) == Commit(db, tx, lease.generation, now)
  {
    CommitAnswers(db, tx, lease.generation, now);
  }
}
