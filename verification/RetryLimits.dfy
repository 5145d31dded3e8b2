/**
 How many attempts one node makes over any run: plain retries up to its limit, and beyond it one for every
 loop-back edge over it, every repair round that names it, every recovery and every explicit retry.
 */
module RetryLimits {
  import opened Prelude
  import opened Workflow
  import opened Store
  import opened Invariants
  import opened Runs
  import opened RunInvariants
  import opened ReplaySafety
  import AttemptBudget

  /** The retry that `_finalize_attempt` has still to write. */
  function Due(todo: Option<(NodeId, Status)>, n: NodeId): nat { if todo == Some((n, Pending)) then 1 else 0 }

  function TodoOf(s: Sys): Option<(NodeId, Status)> { if s.session.Some? then s.session.value.todo else None }

  /** Attempts a node gets without anybody's help: one, or the retry limit if a failure may be retried at all. */
  function Unaided(flow: Flow, n: NodeId): nat
    requires n in flow.nodes
  {
    var node := flow.nodes[n];
    if ReplaySafe(node) && node.repair.None? && RetryLimit(flow, node) > 1 then RetryLimit(flow, node) else 1
  }

  /** How often the loop of `c` has reopened `n`, at most. */
  ghost function LoopShare(flow: Flow, db: Db, n: NodeId, c: NodeId): nat {
    if && c in flow.nodes && flow.nodes[c].loop.Some? && flow.nodes[c].loop.value.maxIterations >= 1
       && n in LoopRegion(flow, c, flow.nodes[c].loop.value.target)
    then Min(LoopIterations(db, c), flow.nodes[c].loop.value.maxIterations - 1)
    else 0
  }

  /** How often the repair routes of `c` have reopened `n`, at most. */
  function RoundsNaming(db: Db, c: NodeId, routes: seq<RepairRoute>, n: NodeId): nat {
    if routes == [] then 0
    else
      var last := routes[|routes| - 1];
      RoundsNaming(db, c, routes[..|routes| - 1], n)
        + if n == c || n in TargetNodes(last.targets) then Min(RepairRounds(db, c, last.id), last.maxRounds) else 0
  }

  function RepairShare(flow: Flow, db: Db, n: NodeId, c: NodeId): nat {
    if c in flow.nodes && flow.nodes[c].repair.Some? then RoundsNaming(db, c, flow.nodes[c].repair.value, n) else 0
  }

  ghost function LoopSharesOf(flow: Flow, db: Db, n: NodeId): nat -> nat { c => LoopShare(flow, db, n, c) }
  function RepairSharesOf(flow: Flow, db: Db, n: NodeId): nat -> nat { c => RepairShare(flow, db, n, c) }

  ghost function LoopReopenings(flow: Flow, db: Db, n: NodeId): nat { Sum(flow.ids, LoopSharesOf(flow, db, n)) }
  function RepairReopenings(flow: Flow, db: Db, n: NodeId): nat { Sum(flow.ids, RepairSharesOf(flow, db, n)) }

  /** Attempts that were recovered after an interruption, at most one per recovery and node. */
  function Recoveries(acts: seq<Action>): nat {
    if acts == [] then 0
    else Recoveries(acts[..|acts| - 1]) + if acts[|acts| - 1].Do? && acts[|acts| - 1].tx.TxRecover? then 1 else 0
  }

  // ---------------------------------------------------------------- one transaction

  /** A failure is retried only below the limit. */
  lemma FailureOwes(flow: Flow, db: Db, published: Published, sess: Session, tx: Tx, now: Time, n: NodeId)
    requires StoreInv(db, published) && n in flow.nodes && tx.TxFinish? && sess.todo.None?
    ensures var (later, reply) := Commit(db, tx, sess.lease.generation, now);
      Load(later, n) + Due(Remember(flow, sess, tx, reply).todo, n) <= Max(Unaided(flow, n), Load(db, n))
  {
    NothingReopened(db, tx, sess.lease.generation, now, n);
    if tx.n == n && n in db.nodes { assert n in db.progress && NodeInv(db, published, n); }
  }

  /** The retry that was owed makes the node pending; no other status written by hand does. */
  lemma StatusOwes(flow: Flow, db: Db, sess: Session, tx: Tx, now: Time, n: NodeId)
    requires SessionInv(flow, db, sess) && tx.TxStatus? && Guard(flow, db, sess, tx)
    ensures var (later, reply) := Commit(db, tx, sess.lease.generation, now);
      Load(later, n) + Due(Remember(flow, sess, tx, reply).todo, n) <= Load(db, n) + Due(sess.todo, n)
  {
  }

  /** What a recovery and a reconciliation add. */
  function Added(tx: Tx, reply: Reply, n: NodeId): nat {
    if tx.TxRecover? || (tx == TxReconcile(n, true) && reply.Done?) then 1 else 0
  }

  lemma RecoveryAddsOne(db: Db, tx: Tx, generation: nat, now: Time, n: NodeId)
    requires tx.TxRecover?
    ensures Load(Commit(db, tx, generation, now).0, n) <= Load(db, n) + 1
  {
  }

  lemma OthersOwe(flow: Flow, db: Db, sess: Session, tx: Tx, now: Time, n: NodeId)
    requires Guard(flow, db, sess, tx) && sess.todo.None?
    requires !tx.TxFinish? && !tx.TxStatus? && !tx.TxLoop? && !tx.TxRepair?
    ensures var (later, reply) := Commit(db, tx, sess.lease.generation, now);
      Load(later, n) <= Load(db, n) + Added(tx, reply, n) && Remember(flow, sess, tx, reply).todo.None?
  {
    if tx.TxRecover? {
      RecoveryAddsOne(db, tx, sess.lease.generation, now, n);
    } else if tx.TxReconcile? {
      ReopenedOnlyIfNamed(db, tx, sess.lease.generation, now, n);
    } else {
      NothingReopened(db, tx, sess.lease.generation, now, n);
    }
  }

  lemma ControlTablesStay(db: Db, tx: Tx, generation: nat, now: Time)
    requires !tx.TxLoop? && !tx.TxRepair?
    ensures var later := Commit(db, tx, generation, now).0;
      later.control.loops == db.control.loops && later.attached.repairs == db.attached.repairs
  {
  }

  /** Everything but loop decisions and repair rounds. */
  lemma PlainOwes(flow: Flow, s: Sys, tx: Tx, n: NodeId)
    requires Inv(flow, s) && s.session.Some? && Guard(flow, s.db, s.session.value, tx) && n in flow.nodes
    requires !tx.TxLoop? && !tx.TxRepair?
    ensures var sess := s.session.value;
      var (later, reply) := Commit(s.db, tx, sess.lease.generation, s.now);
      Load(later, n) + Due(Remember(flow, sess, tx, reply).todo, n)
        <= Max(Unaided(flow, n), Load(s.db, n) + Due(sess.todo, n)) + Added(tx, reply, n)
  {
    if tx.TxStatus? {
      StatusOwes(flow, s.db, s.session.value, tx, s.now, n);
    } else if tx.TxFinish? {
      FailureOwes(flow, s.db, s.published, s.session.value, tx, s.now, n);
    } else {
      OthersOwe(flow, s.db, s.session.value, tx, s.now, n);
    }
  }

  // ---------------------------------------------------------------- loops

  lemma LoopSharesSame(flow: Flow, db: Db, later: Db, n: NodeId)
    requires later.control.loops == db.control.loops
    ensures LoopReopenings(flow, later, n) == LoopReopenings(flow, db, n)
  {
    SumSame(flow.ids, LoopSharesOf(flow, db, n), LoopSharesOf(flow, later, n));
  }

  /** The share of the deciding controller grows by one when it reopens its region. */
  lemma OwnShare(flow: Flow, db: Db, later: Db, tx: Tx, n: NodeId)
    requires tx.TxLoop? && CanDecideLoop(flow, db, tx) && tx.maxIterations >= 1
    requires later == ApplyLoop(db, tx.n, tx.number, tx.matched, tx.maxIterations, tx.region).0 && later != db
    ensures forall c :: c != tx.n ==> LoopShare(flow, later, n, c) == LoopShare(flow, db, n, c)
    ensures LoopShare(flow, later, n, tx.n) >= LoopShare(flow, db, n, tx.n)
    ensures tx.matched && LoopIterations(db, tx.n) + 1 < tx.maxIterations && n in tx.region ==>
      LoopShare(flow, later, n, tx.n) == LoopShare(flow, db, n, tx.n) + 1
  {
    assert LoopIterations(later, tx.n) == LoopIterations(db, tx.n) + 1;
  }

  lemma LoopOwes(flow: Flow, db: Db, tx: Tx, n: NodeId)
    requires WellFormed(flow) && tx.TxLoop? && CanDecideLoop(flow, db, tx)
    ensures var later := ApplyLoop(db, tx.n, tx.number, tx.matched, tx.maxIterations, tx.region).0;
      && Load(later, n) + LoopReopenings(flow, db, n) <= Load(db, n) + LoopReopenings(flow, later, n)
      && later.attached == db.attached
  {
    var later := ApplyLoop(db, tx.n, tx.number, tx.matched, tx.maxIterations, tx.region).0;
    if later != db {
      assert tx.n in flow.ids && tx.maxIterations >= 1;
      AttemptBudget.LoopLoads(db, tx, tx.matched && LoopIterations(db, tx.n) + 1 < tx.maxIterations);
      OwnShare(flow, db, later, tx, n);
      SumDelta(flow.ids, LoopSharesOf(flow, db, n), LoopSharesOf(flow, later, n), tx.n);
    }
  }

  // ---------------------------------------------------------------- repairs

  lemma {:induction false} RoundsNamingSame(db: Db, later: Db, c: NodeId, routes: seq<RepairRoute>, n: NodeId)
    requires forall i :: 0 <= i < |routes| ==> RepairRounds(later, c, routes[i].id) == RepairRounds(db, c, routes[i].id)
    ensures RoundsNaming(later, c, routes, n) == RoundsNaming(db, c, routes, n)
  {
    if routes != [] {
      RoundsNamingSame(db, later, c, routes[..|routes| - 1], n);
    }
  }

  lemma {:induction false} RoundsNamingBump(db: Db, later: Db, c: NodeId, routes: seq<RepairRoute>, i: nat, n: NodeId)
    requires i < |routes|
    requires forall j :: 0 <= j < |routes| && j != i ==> RepairRounds(later, c, routes[j].id) == RepairRounds(db, c, routes[j].id)
    requires RepairRounds(later, c, routes[i].id) == RepairRounds(db, c, routes[i].id) + 1 <= routes[i].maxRounds
    ensures RoundsNaming(later, c, routes, n)
            == RoundsNaming(db, c, routes, n) + if n == c || n in TargetNodes(routes[i].targets) then 1 else 0
  {
    var init := routes[..|routes| - 1];
    if i == |routes| - 1 {
      RoundsNamingSame(db, later, c, init, n);
    } else {
      RoundsNamingBump(db, later, c, init, i, n);
    }
  }

  lemma RepairSharesSame(flow: Flow, db: Db, later: Db, n: NodeId)
    requires later.attached.repairs == db.attached.repairs
    ensures RepairReopenings(flow, later, n) == RepairReopenings(flow, db, n)
  {
    forall c: nat | c in flow.ids ensures RepairSharesOf(flow, later, n)(c) == RepairSharesOf(flow, db, n)(c) {
      if c in flow.nodes && flow.nodes[c].repair.Some? {
        RoundsNamingSame(db, later, c, flow.nodes[c].repair.value, n);
      }
    }
    SumSame(flow.ids, RepairSharesOf(flow, db, n), RepairSharesOf(flow, later, n));
  }

  lemma RepairSharesElsewhere(flow: Flow, db: Db, later: Db, tx: Tx, n: NodeId)
    requires tx.TxRepair? && later == Commit(db, tx, 0, 0).0
    ensures forall c :: c != tx.n ==> RepairShare(flow, later, n, c) == RepairShare(flow, db, n, c)
  {
    forall c | c != tx.n ensures RepairShare(flow, later, n, c) == RepairShare(flow, db, n, c) {
      if c in flow.nodes && flow.nodes[c].repair.Some? {
        RoundsNamingSame(db, later, c, flow.nodes[c].repair.value, n);
      }
    }
  }

  lemma RoundOwes(flow: Flow, db: Db, later: Db, tx: Tx, i: nat, n: NodeId)
    requires WellFormed(flow) && tx.TxRepair? && tx.n in flow.nodes && flow.nodes[tx.n].repair.Some?
    requires RepairArguments(flow, db, tx.n, tx, i) && (later, Answer(true)) == Commit(db, tx, 0, 0)
    ensures Load(later, n) + RepairReopenings(flow, db, n) <= Load(db, n) + RepairReopenings(flow, later, n)
  {
    assert tx.n in flow.ids;
    ShareGrows(flow, db, later, tx, i, n);
    SharesMove(flow, db, later, tx, n);
  }

  /** The share of the integration grows at least with what the round reruns of `n`. */
  lemma ShareGrows(flow: Flow, db: Db, later: Db, tx: Tx, i: nat, n: NodeId)
    requires WellFormed(flow) && tx.TxRepair? && tx.n in flow.nodes && flow.nodes[tx.n].repair.Some?
    requires RepairArguments(flow, db, tx.n, tx, i) && (later, Answer(true)) == Commit(db, tx, 0, 0)
    ensures Load(later, n) + RepairSharesOf(flow, db, n)(tx.n) <= Load(db, n) + RepairSharesOf(flow, later, n)(tx.n)
  {
    AttemptBudget.RepairLoads(db, tx);
    RoundsNamingBump(db, later, tx.n, flow.nodes[tx.n].repair.value, i, n);
  }

  /** Only the share of the integration moves. */
  lemma SharesMove(flow: Flow, db: Db, later: Db, tx: Tx, n: NodeId)
    requires WellFormed(flow) && tx.TxRepair? && tx.n in flow.ids && (later, Answer(true)) == Commit(db, tx, 0, 0)
    ensures RepairReopenings(flow, later, n) + RepairSharesOf(flow, db, n)(tx.n)
            == RepairReopenings(flow, db, n) + RepairSharesOf(flow, later, n)(tx.n)
  {
    RepairSharesElsewhere(flow, db, later, tx, n);
    SumDelta(flow.ids, RepairSharesOf(flow, db, n), RepairSharesOf(flow, later, n), tx.n);
  }

  lemma RepairOwes(flow: Flow, db: Db, tx: Tx, n: NodeId)
    requires WellFormed(flow) && tx.TxRepair? && CanRepair(flow, db, tx)
    ensures var later := Commit(db, tx, 0, 0).0;
      && Load(later, n) + RepairReopenings(flow, db, n) <= Load(db, n) + RepairReopenings(flow, later, n)
      && later.control.loops == db.control.loops
  {
    var (later, reply) := Commit(db, tx, 0, 0);
    if reply == Answer(true) {
      var i: nat :| RepairArguments(flow, db, tx.n, tx, i);
      RoundOwes(flow, db, later, tx, i, n);
    }
  }

  /** Some repair round can rerun `n`. */
  ghost predicate Repairable(flow: Flow, n: NodeId) { exists c, i: nat :: RouteNames(flow, c, i, n) }

  predicate RouteNames(flow: Flow, c: NodeId, i: nat, n: NodeId) {
    && c in flow.nodes && flow.nodes[c].repair.Some? && i < |flow.nodes[c].repair.value|
    && (n == c || n in TargetNodes(flow.nodes[c].repair.value[i].targets))
  }

  /** Attempts a node may have made when no loop has reopened it: repair rounds stop at what it declares. */
  ghost function Base(flow: Flow, n: NodeId): nat
    requires n in flow.nodes
  {
    if Repairable(flow, n) then Max(Unaided(flow, n), AttemptLimit(flow.nodes[n])) else Unaided(flow, n)
  }

  /** A round is routed only while everything it reruns has declared attempts left. */
  lemma RepairStaysDeclared(flow: Flow, db: Db, tx: Tx, n: NodeId)
    requires tx.TxRepair? && CanRepair(flow, db, tx) && n in flow.nodes
    ensures Load(Commit(db, tx, 0, 0).0, n) <= Max(Base(flow, n), Load(db, n))
  {
    var i: nat :| RepairArguments(flow, db, tx.n, tx, i);
    if n == tx.n || n in tx.targets {
      assert RouteNames(flow, tx.n, i, n);
    }
  }

  // ---------------------------------------------------------------- whole runs

  /** Attempts allowed so far, counting every repair round that named the node. */
  ghost function Allowance(flow: Flow, db: Db, n: NodeId): nat
    requires n in flow.nodes
  {
    Unaided(flow, n) + LoopReopenings(flow, db, n) + RepairReopenings(flow, db, n)
  }

  /** The same without them: repair rounds never take a node past what it declares. */
  ghost function Declared(flow: Flow, db: Db, n: NodeId): nat
    requires n in flow.nodes
  {
    Base(flow, n) + LoopReopenings(flow, db, n)
  }

  ghost predicate WithinLimits(flow: Flow, s: Sys, n: NodeId, recoveries: nat)
    requires n in flow.nodes
  {
    && Load(s.db, n) + Due(TodoOf(s), n) <= Allowance(flow, s.db, n) + Retries(s, n) + recoveries
    && Load(s.db, n) + Due(TodoOf(s), n) <= Declared(flow, s.db, n) + Retries(s, n) + recoveries
  }

  lemma LoopLimits(flow: Flow, s: Sys, tx: Tx, n: NodeId, recoveries: nat)
    requires WellFormed(flow) && s.session.Some? && n in flow.nodes && WithinLimits(flow, s, n, recoveries)
    requires tx.TxLoop? && Guard(flow, s.db, s.session.value, tx)
    ensures var later := Commit(s.db, tx, s.session.value.lease.generation, s.now).0;
      && Load(later, n) <= Allowance(flow, later, n) + Retries(s, n) + recoveries
      && Load(later, n) <= Declared(flow, later, n) + Retries(s, n) + recoveries
  {
    LoopOwes(flow, s.db, tx, n);
    RepairSharesSame(flow, s.db, Commit(s.db, tx, s.session.value.lease.generation, s.now).0, n);
  }

  lemma RepairLimits(flow: Flow, s: Sys, tx: Tx, n: NodeId, recoveries: nat)
    requires WellFormed(flow) && s.session.Some? && n in flow.nodes && WithinLimits(flow, s, n, recoveries)
    requires tx.TxRepair? && Guard(flow, s.db, s.session.value, tx)
    ensures var later := Commit(s.db, tx, s.session.value.lease.generation, s.now).0;
      && Load(later, n) <= Allowance(flow, later, n) + Retries(s, n) + recoveries
      && Load(later, n) <= Declared(flow, later, n) + Retries(s, n) + recoveries
  {
    RepairOwes(flow, s.db, tx, n);
    RepairStaysDeclared(flow, s.db, tx, n);
    LoopSharesSame(flow, s.db, Commit(s.db, tx, s.session.value.lease.generation, s.now).0, n);
  }

  lemma PlainLimits(flow: Flow, s: Sys, tx: Tx, n: NodeId, recoveries: nat)
    requires Inv(flow, s) && s.session.Some? && n in flow.nodes && WithinLimits(flow, s, n, recoveries)
    requires !tx.TxLoop? && !tx.TxRepair? && Guard(flow, s.db, s.session.value, tx)
    ensures var sess := s.session.value;
      var (later, reply) := Commit(s.db, tx, sess.lease.generation, s.now);
      var load := Load(later, n) + Due(Remember(flow, sess, tx, reply).todo, n);
      && load <= Allowance(flow, later, n) + Retries(s, n) + recoveries + Added(tx, reply, n)
      && load <= Declared(flow, later, n) + Retries(s, n) + recoveries + Added(tx, reply, n)
  {
    var later := Commit(s.db, tx, s.session.value.lease.generation, s.now).0;
    PlainOwes(flow, s, tx, n);
    ControlTablesStay(s.db, tx, s.session.value.lease.generation, s.now);
    LoopSharesSame(flow, s.db, later, n);
    RepairSharesSame(flow, s.db, later, n);
  }

  function Recovers(a: Action): nat { if a.Do? && a.tx.TxRecover? then 1 else 0 }

  lemma NothingDue(flow: Flow, sess: Session, tx: Tx, reply: Reply, n: NodeId)
    requires tx.TxLoop? || tx.TxRepair?
    requires sess.todo.Some? ==> tx.TxStatus?
    ensures Due(Remember(flow, sess, tx, reply).todo, n) == 0
  {
  }

  lemma LimitsControl(flow: Flow, s: Sys, tx: Tx, n: NodeId, recoveries: nat)
    requires WellFormed(flow) && Enabled(flow, s, Do(tx)) && n in flow.nodes && (tx.TxLoop? || tx.TxRepair?)
    requires LeaseLive(s.db.run, s.session.value.lease, s.now) && WithinLimits(flow, s, n, recoveries)
    ensures WithinLimits(flow, DoTx(flow, s, tx), n, recoveries)
  {
    var sess := s.session.value;
    DoCommits(flow, s, tx);
    NothingDue(flow, sess, tx, Commit(s.db, tx, sess.lease.generation, s.now).1, n);
    if tx.TxLoop? {
      LoopLimits(flow, s, tx, n, recoveries);
    } else {
      RepairLimits(flow, s, tx, n, recoveries);
    }
  }

  lemma LimitsPlain(flow: Flow, s: Sys, tx: Tx, n: NodeId, recoveries: nat)
    requires Inv(flow, s) && Enabled(flow, s, Do(tx)) && n in flow.nodes && !tx.TxLoop? && !tx.TxRepair?
    requires LeaseLive(s.db.run, s.session.value.lease, s.now) && WithinLimits(flow, s, n, recoveries)
    ensures WithinLimits(flow, DoTx(flow, s, tx), n, recoveries + Recovers(Do(tx)))
  {
    DoCommits(flow, s, tx);
    PlainLimits(flow, s, tx, n, recoveries);
  }

  /** With the tables unchanged, at most the memory of the owner is lost. */
  lemma LimitsOutside(flow: Flow, s: Sys, t: Sys, n: NodeId, recoveries: nat)
    requires n in flow.nodes && WithinLimits(flow, s, n, recoveries) && SameTables(s, t)
    requires TodoOf(t) == TodoOf(s) || TodoOf(t).None?
    ensures WithinLimits(flow, t, n, recoveries)
  {
    LoopSharesSame(flow, s.db, t.db, n);
    RepairSharesSame(flow, s.db, t.db, n);
  }

  lemma LimitsStep(flow: Flow, s: Sys, a: Action, n: NodeId, recoveries: nat)
    requires WellFormed(flow) && Inv(flow, s) && Enabled(flow, s, a) && n in flow.nodes
    requires WithinLimits(flow, s, n, recoveries)
    ensures WithinLimits(flow, Apply(flow, s, a), n, recoveries + Recovers(a))
  {
    if !a.Do? {
      OutsideFrame(flow, s, a);
      LimitsOutside(flow, s, Apply(flow, s, a), n, recoveries);
    } else if !LeaseLive(s.db.run, s.session.value.lease, s.now) {
      DoFrame(flow, s, a.tx);
      LimitsOutside(flow, s, Apply(flow, s, a), n, recoveries);
    } else if a.tx.TxLoop? || a.tx.TxRepair? {
      LimitsControl(flow, s, a.tx, n, recoveries);
    } else {
      LimitsPlain(flow, s, a.tx, n, recoveries);
    }
  }

  lemma LimitsAtFirst(flow: Flow, n: NodeId)
    requires n in flow.nodes
    ensures WithinLimits(flow, Initial(flow), n, 0)
  {
  }

  /**
   Over every run of every workflow, whatever crashes, loops, repairs and reconciliations it takes: attempts made, plus the
   one still open to a pending node, never exceed what the node gets unaided plus once for each loop-back edge over it, each
   repair round that names it, each recovery and each explicit retry; and for the rounds its declared limit is enough.
   */
  lemma {:induction false} AttemptsAreAccountedFor(flow: Flow, acts: seq<Action>, n: NodeId)
    requires WellFormed(flow) && Run(flow, Initial(flow), acts) && n in flow.nodes
    ensures WithinLimits(flow, After(flow, Initial(flow), acts), n, Recoveries(acts))
    decreases |acts|
  {
    if acts == [] {
      LimitsAtFirst(flow, n);
    } else {
      var before := acts[..|acts| - 1];
      AttemptsAreAccountedFor(flow, before, n);
      InvRun(flow, before);
      LimitsStep(flow, After(flow, Initial(flow), before), acts[|acts| - 1], n, Recoveries(before));
    }
  }

  // ---------------------------------------------------------------- what a workflow declares

  /** The most often that the loops of a workflow can reopen a node. */
  ghost function LoopCeiling(flow: Flow, n: NodeId, c: NodeId): nat {
    if && c in flow.nodes && flow.nodes[c].loop.Some? && flow.nodes[c].loop.value.maxIterations >= 1
       && n in LoopRegion(flow, c, flow.nodes[c].loop.value.target)
    then flow.nodes[c].loop.value.maxIterations - 1 else 0
  }

  ghost function LoopCeilingsOf(flow: Flow, n: NodeId): nat -> nat { c => LoopCeiling(flow, n, c) }

  /** Nobody resumed the run after an interruption or retried the node by hand. */
  predicate LeftAlone(acts: seq<Action>, n: NodeId) {
    forall i :: 0 <= i < |acts| && acts[i].Do? ==> !acts[i].tx.TxRecover? && acts[i].tx != TxReconcile(n, true)
  }

  lemma {:induction false} NoHelpCounted(flow: Flow, acts: seq<Action>, n: NodeId)
    requires LeftAlone(acts, n)
    ensures Recoveries(acts) == 0 && Retries(After(flow, Initial(flow), acts), n) == 0
    decreases |acts|
  {
    if acts != [] {
      NoHelpCounted(flow, acts[..|acts| - 1], n);
    }
  }

  /** From the workflow alone: a node left alone goes beyond its base by at most the iterations after the first. */
  lemma AttemptsWithinDeclared(flow: Flow, acts: seq<Action>, n: NodeId)
    requires WellFormed(flow) && Run(flow, Initial(flow), acts) && n in flow.nodes && LeftAlone(acts, n)
    ensures Attempts(After(flow, Initial(flow), acts).db, n) <= Base(flow, n) + Sum(flow.ids, LoopCeilingsOf(flow, n))
  {
    AttemptsAreAccountedFor(flow, acts, n);
    NoHelpCounted(flow, acts, n);
    LimitsBound(flow, After(flow, Initial(flow), acts), n);
  }

  lemma LimitsBound(flow: Flow, s: Sys, n: NodeId)
    requires n in flow.nodes && WithinLimits(flow, s, n, 0) && Retries(s, n) == 0
    ensures Attempts(s.db, n) <= Base(flow, n) + Sum(flow.ids, LoopCeilingsOf(flow, n))
  {
    SumMono(flow.ids, LoopSharesOf(flow, s.db, n), LoopCeilingsOf(flow, n));
  }

  /** What a node declares covers its base. */
  lemma BaseIsDeclared(flow: Flow, n: NodeId)
    requires n in flow.nodes && flow.nodes[n].retry.maxAttempts.Some?
    ensures Base(flow, n) <= Max(1, flow.nodes[n].retry.maxAttempts.value)
  {
  }

  /** Only a loop that may iterate over a node left alone takes it past what it declares. */
  lemma OnlyLoopsExceed(flow: Flow, acts: seq<Action>, n: NodeId)
    requires WellFormed(flow) && Run(flow, Initial(flow), acts) && n in flow.nodes && LeftAlone(acts, n)
    requires flow.nodes[n].retry.maxAttempts.Some?
    requires Attempts(After(flow, Initial(flow), acts).db, n) > Max(1, flow.nodes[n].retry.maxAttempts.value)
    ensures exists c :: c in flow.ids && LoopCeiling(flow, n, c) > 0
  {
    AttemptsWithinDeclared(flow, acts, n);
    BaseIsDeclared(flow, n);
    if forall c :: c in flow.ids ==> LoopCeiling(flow, n, c) == 0 {
      SumBound(flow.ids, LoopCeilingsOf(flow, n), 0);
    }
  }
}
