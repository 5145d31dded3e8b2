/**
 The validator's worst case is the runtime's worst case: while only loop decisions and repair rounds
 rerun nodes, attempts made plus attempts pending never exceed the floor the validator computed, so an
 accepted workflow never stalls on its total budget.
 */
module AttemptBudget {
  import opened Prelude
  import opened Workflow
  import opened Store
  import opened Runs
  import opened RunInvariants
  import Validator

  /** No plain retry, no recovery, no reconciliation: only loops and repairs rerun nodes. */
  predicate Planned(a: Action) {
    a.Do? ==> !a.tx.TxRecover? && !a.tx.TxReconcile? && !(a.tx.TxStatus? && a.tx.status.Pending?)
  }

  function LoadOf(db: Db): nat -> nat { n => Load(db, n) }

  /** Attempts the decisions of one loop have added so far, at most. */
  ghost function LoopSpent(flow: Flow, db: Db, n: NodeId): nat {
    if n in flow.nodes && flow.nodes[n].loop.Some? && flow.nodes[n].loop.value.maxIterations >= 1 then
      var loop := flow.nodes[n].loop.value;
      |LoopRegion(flow, n, loop.target)| * Min(LoopIterations(db, n), loop.maxIterations - 1)
    else 0
  }

  function RoundsSpent(db: Db, n: NodeId, routes: seq<RepairRoute>): nat {
    if routes == [] then 0
    else
      var last := routes[|routes| - 1];
      RoundsSpent(db, n, routes[..|routes| - 1]) + (|last.targets| + 1) * Min(RepairRounds(db, n, last.id), last.maxRounds)
  }

  /** Attempts the repair rounds of one integration have added so far, at most. */
  function RepairSpent(flow: Flow, db: Db, n: NodeId): nat {
    if n in flow.nodes && flow.nodes[n].repair.Some? then RoundsSpent(db, n, flow.nodes[n].repair.value) else 0
  }

  ghost function LoopSpentOf(flow: Flow, db: Db): nat -> nat { n => LoopSpent(flow, db, n) }
  function RepairSpentOf(flow: Flow, db: Db): nat -> nat { n => RepairSpent(flow, db, n) }

  ghost predicate WithinPlan(flow: Flow, db: Db) {
    Sum(flow.ids, LoadOf(db)) <= |flow.ids| + Sum(flow.ids, LoopSpentOf(flow, db)) + Sum(flow.ids, RepairSpentOf(flow, db))
  }

  lemma Multiply(a: nat, b: nat, c: nat)
    requires b <= c
    ensures a * b <= a * c
  {
  }

  lemma {:induction false} RoundsBounded(db: Db, n: NodeId, routes: seq<RepairRoute>)
    ensures RoundsSpent(db, n, routes) <= RoundsCost(routes)
  {
    if routes != [] {
      var last := routes[|routes| - 1];
      RoundsBounded(db, n, routes[..|routes| - 1]);
      Multiply(|last.targets| + 1, Min(RepairRounds(db, n, last.id), last.maxRounds), last.maxRounds);
    }
  }

  /** What has been spent is bounded by the validator's floor. */
  lemma PlanWithinFloor(flow: Flow, db: Db)
    ensures Sum(flow.ids, LoopSpentOf(flow, db)) + Sum(flow.ids, RepairSpentOf(flow, db)) + |flow.ids| <= AttemptFloor(flow)
  {
    forall n: nat | n in flow.ids ensures LoopSpentOf(flow, db)(n) <= LoopCosts(flow)(n) {
      if n in flow.nodes && flow.nodes[n].loop.Some? && flow.nodes[n].loop.value.maxIterations >= 1 {
        var loop := flow.nodes[n].loop.value;
        Multiply(|LoopRegion(flow, n, loop.target)|, Min(LoopIterations(db, n), loop.maxIterations - 1), loop.maxIterations - 1);
      }
    }
    forall n: nat | n in flow.ids ensures RepairSpentOf(flow, db)(n) <= RepairCosts(flow)(n) {
      if n in flow.nodes && flow.nodes[n].repair.Some? {
        RoundsBounded(db, n, flow.nodes[n].repair.value);
      }
    }
    SumMono(flow.ids, LoopSpentOf(flow, db), LoopCosts(flow));
    SumMono(flow.ids, RepairSpentOf(flow, db), RepairCosts(flow));
  }

  lemma LoopSpentSame(flow: Flow, db: Db, later: Db)
    requires later.control.loops == db.control.loops
    ensures Sum(flow.ids, LoopSpentOf(flow, later)) == Sum(flow.ids, LoopSpentOf(flow, db))
  {
    SumSame(flow.ids, LoopSpentOf(flow, db), LoopSpentOf(flow, later));
  }

  lemma RepairSpentSame(flow: Flow, db: Db, later: Db)
    requires later.attached.repairs == db.attached.repairs
    ensures Sum(flow.ids, RepairSpentOf(flow, later)) == Sum(flow.ids, RepairSpentOf(flow, db))
  {
    forall n: nat | n in flow.ids ensures RepairSpentOf(flow, later)(n) == RepairSpentOf(flow, db)(n) {
      if n in flow.nodes && flow.nodes[n].repair.Some? {
        RoundsSame(db, later, n, flow.nodes[n].repair.value);
      }
    }
    SumSame(flow.ids, RepairSpentOf(flow, db), RepairSpentOf(flow, later));
  }

  lemma {:induction false} RoundsSame(db: Db, later: Db, n: NodeId, routes: seq<RepairRoute>)
    requires forall i :: 0 <= i < |routes| ==> RepairRounds(later, n, routes[i].id) == RepairRounds(db, n, routes[i].id)
    ensures RoundsSpent(later, n, routes) == RoundsSpent(db, n, routes)
  {
    if routes != [] {
      RoundsSame(db, later, n, routes[..|routes| - 1]);
    }
  }

  // ---------------------------------------------------------------- steps that reopen nothing

  lemma NoneReopened(db: Db, tx: Tx, generation: nat, now: Time)
    requires !tx.TxLoop? && !tx.TxRepair? && !tx.TxRecover? && !tx.TxReconcile?
    requires !(tx.TxStatus? && tx.status.Pending?)
    ensures var later := Commit(db, tx, generation, now).0;
      && (forall n :: Load(later, n) <= Load(db, n))
      && later.control.loops == db.control.loops && later.attached.repairs == db.attached.repairs
  {
  }

  lemma PlanUnderPlainStep(flow: Flow, db: Db, later: Db)
    requires WithinPlan(flow, db) && forall n :: Load(later, n) <= Load(db, n)
    requires later.control.loops == db.control.loops && later.attached.repairs == db.attached.repairs
    ensures WithinPlan(flow, later)
  {
    SumMono(flow.ids, LoadOf(later), LoadOf(db));
    LoopSpentSame(flow, db, later);
    RepairSpentSame(flow, db, later);
  }

  // ---------------------------------------------------------------- loops

  /** What one loop decision adds to the load, and what it spends. */
  ghost function LoopAdds(db: Db, tx: Tx): nat
    requires tx.TxLoop?
  {
    if tx.matched && LoopIterations(db, tx.n) + 1 < tx.maxIterations then |tx.region| else 0
  }

  lemma LoopLoadSum(flow: Flow, db: Db, later: Db, tx: Tx)
    requires Increasing(flow.ids) && tx.TxLoop?
    requires later == ApplyLoop(db, tx.n, tx.number, tx.matched, tx.maxIterations, tx.region).0 && later != db
    ensures Sum(flow.ids, LoadOf(later)) <= Sum(flow.ids, LoadOf(db)) + LoopAdds(db, tx)
  {
    var continued := tx.matched && LoopIterations(db, tx.n) + 1 < tx.maxIterations;
    LoopLoads(db, tx, continued);
    if continued {
      SumRegion(flow.ids, LoadOf(db), LoadOf(later), tx.region);
    } else {
      SumMono(flow.ids, LoadOf(later), LoadOf(db));
    }
  }

  lemma LoopSpentSum(flow: Flow, db: Db, later: Db, tx: Tx)
    requires Increasing(flow.ids) && tx.TxLoop? && tx.n in flow.ids
    requires CanDecideLoop(flow, db, tx) && tx.maxIterations >= 1
    requires later == ApplyLoop(db, tx.n, tx.number, tx.matched, tx.maxIterations, tx.region).0 && later != db
    ensures Sum(flow.ids, LoopSpentOf(flow, later)) >= Sum(flow.ids, LoopSpentOf(flow, db)) + LoopAdds(db, tx)
    ensures later.attached == db.attached
  {
    SumDelta(flow.ids, LoopSpentOf(flow, db), LoopSpentOf(flow, later), tx.n);
    LoopSpends(flow, db, later, tx);
  }

  lemma PlanUnderLoop(flow: Flow, db: Db, tx: Tx)
    requires WellFormed(flow) && WithinPlan(flow, db) && tx.TxLoop? && CanDecideLoop(flow, db, tx)
    ensures WithinPlan(flow, ApplyLoop(db, tx.n, tx.number, tx.matched, tx.maxIterations, tx.region).0)
  {
    var later := ApplyLoop(db, tx.n, tx.number, tx.matched, tx.maxIterations, tx.region).0;
    if later != db {
      assert tx.n in flow.ids && tx.maxIterations >= 1;
      LoopLoadSum(flow, db, later, tx);
      LoopSpentSum(flow, db, later, tx);
      RepairSpentSame(flow, db, later);
    }
  }

  /** A continued loop makes at most its region pending again; any other decision makes nothing pending. */
  lemma LoopLoads(db: Db, tx: Tx, continued: bool)
    requires tx.TxLoop? && continued == (tx.matched && LoopIterations(db, tx.n) + 1 < tx.maxIterations)
    ensures var later := ApplyLoop(db, tx.n, tx.number, tx.matched, tx.maxIterations, tx.region).0;
      later != db ==> forall n :: Load(later, n) <= Load(db, n) + (if continued && n in tx.region then 1 else 0)
  {
  }

  lemma LoopSpends(flow: Flow, db: Db, later: Db, tx: Tx)
    requires tx.TxLoop? && CanDecideLoop(flow, db, tx) && tx.maxIterations >= 1
    requires later == ApplyLoop(db, tx.n, tx.number, tx.matched, tx.maxIterations, tx.region).0 && later != db
    ensures LoopSpent(flow, later, tx.n) >= LoopSpent(flow, db, tx.n)
    ensures tx.matched && LoopIterations(db, tx.n) + 1 < tx.maxIterations ==>
              LoopSpent(flow, later, tx.n) == LoopSpent(flow, db, tx.n) + |tx.region|
  {
    var was := Min(LoopIterations(db, tx.n), tx.maxIterations - 1);
    var now := Min(LoopIterations(later, tx.n), tx.maxIterations - 1);
    assert LoopIterations(later, tx.n) == LoopIterations(db, tx.n) + 1;
    Multiply(|tx.region|, was, now);
    if tx.matched && LoopIterations(db, tx.n) + 1 < tx.maxIterations {
      assert now == was + 1;
      assert |tx.region| * now == |tx.region| * was + |tx.region|;
    }
  }

  // ---------------------------------------------------------------- repairs

  /** One more round of route `i` spends its targets and the integration once more. */
  lemma {:induction false} RoundsBump(db: Db, later: Db, n: NodeId, routes: seq<RepairRoute>, i: nat)
    requires i < |routes|
    requires forall j :: 0 <= j < |routes| && j != i ==> RepairRounds(later, n, routes[j].id) == RepairRounds(db, n, routes[j].id)
    requires RepairRounds(later, n, routes[i].id) == RepairRounds(db, n, routes[i].id) + 1 <= routes[i].maxRounds
    ensures RoundsSpent(later, n, routes) == RoundsSpent(db, n, routes) + |routes[i].targets| + 1
  {
    var init, last := routes[..|routes| - 1], routes[|routes| - 1];
    if i == |routes| - 1 {
      RoundsSame(db, later, n, init);
      var rounds := RepairRounds(db, n, last.id);
      assert (|last.targets| + 1) * (rounds + 1) == (|last.targets| + 1) * rounds + |last.targets| + 1;
    } else {
      RoundsBump(db, later, n, init, i);
    }
  }

  lemma {:induction false} TargetsAreFew(targets: seq<RepairTarget>)
    ensures |TargetNodes(targets)| <= |targets|
  {
    if targets != [] {
      var init := targets[..|targets| - 1];
      TargetsAreFew(init);
      assert TargetNodes(targets) == TargetNodes(init) + {targets[|targets| - 1].node};
    }
  }

  lemma RepairLoads(db: Db, tx: Tx)
    requires tx.TxRepair?
    ensures var later := Commit(db, tx, 0, 0).0;
      forall n :: Load(later, n) <= Load(db, n) + (if n in tx.targets.Keys + {tx.n} then 1 else 0)
  {
  }

  lemma RepairSpentSum(flow: Flow, db: Db, later: Db, tx: Tx, i: nat)
    requires WellFormed(flow) && tx.TxRepair? && tx.n in flow.nodes && flow.nodes[tx.n].repair.Some?
    requires RepairArguments(flow, db, tx.n, tx, i) && (later, Answer(true)) == Commit(db, tx, 0, 0)
    ensures Sum(flow.ids, RepairSpentOf(flow, later)) ==
            Sum(flow.ids, RepairSpentOf(flow, db)) + |flow.nodes[tx.n].repair.value[i].targets| + 1
  {
    assert tx.n in flow.ids;
    RoundsBump(db, later, tx.n, flow.nodes[tx.n].repair.value, i);
    RepairSpentElsewhere(flow, db, later, tx);
    SumDelta(flow.ids, RepairSpentOf(flow, db), RepairSpentOf(flow, later), tx.n);
  }

  lemma RepairLoadSum(flow: Flow, db: Db, later: Db, tx: Tx, i: nat)
    requires Increasing(flow.ids) && tx.TxRepair? && tx.n in flow.nodes && flow.nodes[tx.n].repair.Some?
    requires RepairArguments(flow, db, tx.n, tx, i) && later == Commit(db, tx, 0, 0).0
    ensures Sum(flow.ids, LoadOf(later)) <= Sum(flow.ids, LoadOf(db)) + |flow.nodes[tx.n].repair.value[i].targets| + 1
  {
    RepairLoads(db, tx);
    SumRegion(flow.ids, LoadOf(db), LoadOf(later), tx.targets.Keys + {tx.n});
    TargetsAreFew(flow.nodes[tx.n].repair.value[i].targets);
  }

  lemma PlanUnderRepair(flow: Flow, db: Db, tx: Tx)
    requires WellFormed(flow) && WithinPlan(flow, db) && tx.TxRepair? && CanRepair(flow, db, tx)
    ensures WithinPlan(flow, Commit(db, tx, 0, 0).0)
  {
    var (later, reply) := Commit(db, tx, 0, 0);
    if reply == Answer(true) {
      var i: nat :| RepairArguments(flow, db, tx.n, tx, i);
      RoundStaysWithin(flow, db, later, tx, i);
    }
  }

  lemma RoundStaysWithin(flow: Flow, db: Db, later: Db, tx: Tx, i: nat)
    requires WellFormed(flow) && WithinPlan(flow, db) && tx.TxRepair? && tx.n in flow.nodes && flow.nodes[tx.n].repair.Some?
    requires RepairArguments(flow, db, tx.n, tx, i) && (later, Answer(true)) == Commit(db, tx, 0, 0)
    ensures WithinPlan(flow, later)
  {
    RepairLoadSum(flow, db, later, tx, i);
    RepairSpentSum(flow, db, later, tx, i);
    LoopSpentSame(flow, db, later);
  }

  lemma RepairSpentElsewhere(flow: Flow, db: Db, later: Db, tx: Tx)
    requires tx.TxRepair? && later == Commit(db, tx, 0, 0).0
    ensures forall m :: m != tx.n ==> RepairSpent(flow, later, m) == RepairSpent(flow, db, m)
  {
    forall m | m != tx.n ensures RepairSpent(flow, later, m) == RepairSpent(flow, db, m) {
      if m in flow.nodes && flow.nodes[m].repair.Some? {
        RoundsSame(db, later, m, flow.nodes[m].repair.value);
      }
    }
  }

  // ---------------------------------------------------------------- whole runs

  lemma PlanStep(flow: Flow, s: Sys, a: Action)
    requires WellFormed(flow) && WithinPlan(flow, s.db) && Enabled(flow, s, a) && Planned(a)
    ensures WithinPlan(flow, Apply(flow, s, a).db)
  {
    if !a.Do? {
      OutsideFrame(flow, s, a);
      PlanUnderPlainStep(flow, s.db, Apply(flow, s, a).db);
    } else if !LeaseLive(s.db.run, s.session.value.lease, s.now) {
      DoFrame(flow, s, a.tx);
    } else {
      DoCommits(flow, s, a.tx);
      if a.tx.TxLoop? {
        PlanUnderLoop(flow, s.db, a.tx);
      } else if a.tx.TxRepair? {
        PlanUnderRepair(flow, s.db, a.tx);
      } else {
        var generation := s.session.value.lease.generation;
        NoneReopened(s.db, a.tx, generation, s.now);
        PlanUnderPlainStep(flow, s.db, Commit(s.db, a.tx, generation, s.now).0);
      }
    }
  }

  lemma PlanInitial(flow: Flow)
    ensures WithinPlan(flow, CreateRun(flow))
  {
    SumBound(flow.ids, LoadOf(CreateRun(flow)), 1);
  }

  /** Attempts made plus attempts pending stay within the validator's floor. */
  lemma {:induction false} RunWithinPlan(flow: Flow, acts: seq<Action>)
    requires WellFormed(flow) && Run(flow, Initial(flow), acts) && forall i :: 0 <= i < |acts| ==> Planned(acts[i])
    ensures WithinPlan(flow, After(flow, Initial(flow), acts).db)
    ensures Sum(flow.ids, LoadOf(After(flow, Initial(flow), acts).db)) <= AttemptFloor(flow)
    decreases |acts|
  {
    var db := After(flow, Initial(flow), acts).db;
    if acts == [] {
      PlanInitial(flow);
    } else {
      var before := acts[..|acts| - 1];
      RunWithinPlan(flow, before);
      PlanStep(flow, After(flow, Initial(flow), before), acts[|acts| - 1]);
    }
    PlanWithinFloor(flow, db);
  }

  lemma LoadSplits(flow: Flow, db: Db, n: NodeId)
    requires Increasing(flow.ids) && n in flow.ids && IsStatus(db, n, Pending)
    ensures AttemptTotal(flow, db) < Sum(flow.ids, LoadOf(db))
  {
    var f := (m: nat) => if m == n then Load(db, n) else Attempts(db, m);
    SumDelta(flow.ids, AttemptsOf(db), f, n);
    SumMono(flow.ids, f, LoadOf(db));
  }

  /** A workflow whose budget covers the floor never has a pending node and no attempt left for it. */
  lemma NeverStallsOnBudget(flow: Flow, acts: seq<Action>, n: NodeId)
    requires WellFormed(flow) && Run(flow, Initial(flow), acts) && forall i :: 0 <= i < |acts| ==> Planned(acts[i])
    requires AttemptFloor(flow) <= flow.budgets.maxTotalAttempts
    requires n in flow.nodes && IsStatus(After(flow, Initial(flow), acts).db, n, Pending)
    ensures AttemptTotal(flow, After(flow, Initial(flow), acts).db) < flow.budgets.maxTotalAttempts
  {
    RunWithinPlan(flow, acts);
    assert n in flow.ids;
    LoadSplits(flow, After(flow, Initial(flow), acts).db, n);
  }

  /** What the validator has accepted never stalls on its attempt budget. */
  lemma AcceptedNeverStalls(flow: Flow, acts: seq<Action>, n: NodeId)
    requires Validator.Readable(flow) && Validator.ControlAccepted(flow)
    requires Run(flow, Initial(flow), acts) && forall i :: 0 <= i < |acts| ==> Planned(acts[i])
    requires n in flow.nodes && IsStatus(After(flow, Initial(flow), acts).db, n, Pending)
    ensures AttemptTotal(flow, After(flow, Initial(flow), acts).db) < flow.budgets.maxTotalAttempts
  {
    Validator.AcceptedIsWellFormed(flow);
    NeverStallsOnBudget(flow, acts, n);
  }
}
