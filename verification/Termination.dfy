/**
 The scheduler's loop makes only finitely many changes, whoever owns the run and whatever fails, retries, loops
 or is repaired: a lexicographic rank drops with every change, and flattening it bounds their number.
 */
module Termination {
  import opened Prelude
  import opened Workflow
  import opened Store
  import opened Joins
  import opened Invariants
  import opened Runs
  import opened RunInvariants

  /** Transactions of the loop itself; recovery, invalidation and completion frame it and do not repeat. */
  predicate LoopTx(tx: Tx) { !tx.TxRecover? && !tx.TxReconcile? && !tx.TxInvalidate? && !tx.TxFinishRun? }

  function RoundsOpen(db: Db, n: NodeId, routes: seq<RepairRoute>): nat {
    if routes == [] then 0
    else
      var last := routes[|routes| - 1];
      RoundsOpen(db, n, routes[..|routes| - 1]) + Max(0, last.maxRounds - RepairRounds(db, n, last.id))
  }

  function RoundsIn(routes: seq<RepairRoute>): nat {
    if routes == [] then 0 else RoundsIn(routes[..|routes| - 1]) + routes[|routes| - 1].maxRounds
  }

  /** Repair rounds still open at `n`, and all it ever had. */
  function OpenAt(flow: Flow, db: Db, n: NodeId): nat {
    if n in flow.nodes && flow.nodes[n].repair.Some? then RoundsOpen(db, n, flow.nodes[n].repair.value) else 0
  }
  function RoundsAt(flow: Flow, n: NodeId): nat {
    if n in flow.nodes && flow.nodes[n].repair.Some? then RoundsIn(flow.nodes[n].repair.value) else 0
  }

  /** What a node still owes the loop: a result, then a loop decision, then nothing. */
  function Unrest(flow: Flow, db: Db, n: NodeId): nat {
    if IsStatus(db, n, Running) then 3
    else if IsStatus(db, n, Succeeded) && n in flow.nodes && flow.nodes[n].loop.Some? then
      if n in db.control.loops && db.control.loops[n].lastAttempt == db.nodes[n].attemptCount then 1 else 2
    else 0
  }

  /**
   A pending node has still to be settled, and before that its route to be decided; a failed one may still
   be blocked by a pass that has read it as pending.
   */
  function Backlog(flow: Flow, db: Db, n: NodeId): nat {
    if IsStatus(db, n, Failed) then 1
    else if !IsStatus(db, n, Pending) then 0
    else if n in flow.nodes && flow.nodes[n].route.Some? && n !in db.control.routes then 3 else 2
  }

  /** A join whose decision is not frozen yet. */
  function Undecided(flow: Flow, db: Db, n: NodeId): nat {
    if n in flow.nodes && flow.nodes[n].join.Some? && n !in Frozen(db) then 1 else 0
  }

  function Frozen(db: Db): map<NodeId, JoinRow> {
    map n | n in db.control.joins && db.control.joins[n].decision != Waiting :: db.control.joins[n]
  }

  function OpenOf(flow: Flow, db: Db): nat -> nat { n => OpenAt(flow, db, n) }
  function RoundsOf(flow: Flow): nat -> nat { n => RoundsAt(flow, n) }
  function UnrestOf(flow: Flow, db: Db): nat -> nat { n => Unrest(flow, db, n) }
  function BacklogOf(flow: Flow, db: Db): nat -> nat { n => Backlog(flow, db, n) }
  function UndecidedOf(flow: Flow, db: Db): nat -> nat { n => Undecided(flow, db, n) }

  datatype Rank = Rank(attempts: nat, rounds: nat, unrest: nat, waiting: nat, undecided: nat)

  function Owed(session: Option<Session>): nat { if session.Some? && session.value.todo.Some? then 2 else 0 }

  function RankOf(flow: Flow, db: Db, owed: nat): Rank {
    Rank(Max(0, flow.budgets.maxTotalAttempts - AttemptTotal(flow, db)),
         Sum(flow.ids, OpenOf(flow, db)),
         Sum(flow.ids, UnrestOf(flow, db)) + owed,
         Sum(flow.ids, BacklogOf(flow, db)),
         Sum(flow.ids, UndecidedOf(flow, db)))
  }

  predicate Below(r: Rank, q: Rank) {
    || r.attempts < q.attempts
    || (r.attempts == q.attempts && r.rounds < q.rounds)
    || (r.attempts == q.attempts && r.rounds == q.rounds && r.unrest < q.unrest)
    || (r.attempts == q.attempts && r.rounds == q.rounds && r.unrest == q.unrest && r.waiting < q.waiting)
    || (r.attempts == q.attempts && r.rounds == q.rounds && r.unrest == q.unrest && r.waiting == q.waiting && r.undecided < q.undecided)
  }

  lemma {:induction false} SumLess(ids: seq<nat>, f: nat -> nat, g: nat -> nat, n: nat)
    requires n in ids && g(n) < f(n) && forall x :: x in ids ==> g(x) <= f(x)
    ensures Sum(ids, g) < Sum(ids, f)
  {
    if ids[0] == n {
      SumMono(ids[1..], g, f);
    } else {
      SumLess(ids[1..], f, g, n);
    }
  }

  // ---------------------------------------------------------------- what each kind of step lowers

  lemma SameRounds(flow: Flow, db: Db, later: Db)
    requires later.attached.repairs == db.attached.repairs
    ensures Sum(flow.ids, OpenOf(flow, later)) == Sum(flow.ids, OpenOf(flow, db))
  {
    forall n: nat | n in flow.ids ensures OpenAt(flow, later, n) == OpenAt(flow, db, n) {
      if n in flow.nodes && flow.nodes[n].repair.Some? {
        OpenSame(db, later, n, flow.nodes[n].repair.value);
      }
    }
    SumSame(flow.ids, OpenOf(flow, db), OpenOf(flow, later));
  }

  lemma {:induction false} OpenSame(db: Db, later: Db, n: NodeId, routes: seq<RepairRoute>)
    requires forall i :: 0 <= i < |routes| ==> RepairRounds(later, n, routes[i].id) == RepairRounds(db, n, routes[i].id)
    ensures RoundsOpen(later, n, routes) == RoundsOpen(db, n, routes)
  {
    if routes != [] {
      OpenSame(db, later, n, routes[..|routes| - 1]);
    }
  }

  /** Starting an attempt uses up one of the attempts left. */
  lemma StartDrops(flow: Flow, db: Db, n: NodeId, generation: nat, now: Time, owed: nat)
    requires Increasing(flow.ids) && n in flow.ids && AttemptTotal(flow, db) < flow.budgets.maxTotalAttempts
    requires StartAttempt(db, n, generation, now).1.Started?
    ensures Below(RankOf(flow, StartAttempt(db, n, generation, now).0, owed), RankOf(flow, db, owed))
  {
    TotalAfterStart(flow, db, n, generation, now);
  }

  /** A pending node fails, is blocked, is skipped, or has its route decided; nothing else moves. */
  lemma SettleDrops(flow: Flow, db: Db, later: Db, n: NodeId, owed: nat)
    requires n in flow.ids && (IsStatus(db, n, Pending) || IsStatus(db, n, Failed))
    requires later.attached.repairs == db.attached.repairs && later.control.loops == db.control.loops
    requires forall x :: Attempts(later, x) == Attempts(db, x)
    requires forall x :: x != n ==> (x in later.nodes <==> x in db.nodes) && (x in db.nodes ==> later.nodes[x] == db.nodes[x])
    requires !IsStatus(later, n, Running) && !IsStatus(later, n, Succeeded)
    requires forall x :: Backlog(flow, later, x) <= Backlog(flow, db, x)
    requires Backlog(flow, later, n) < Backlog(flow, db, n)
    ensures Below(RankOf(flow, later, owed), RankOf(flow, db, owed))
  {
    TotalSame(flow, db, later);
    SameRounds(flow, db, later);
    SumSame(flow.ids, UnrestOf(flow, db), UnrestOf(flow, later));
    SumLess(flow.ids, BacklogOf(flow, db), BacklogOf(flow, later), n);
  }

  /** A result, a loop decision or a failed controller leaves less unrest. */
  lemma CalmDrops(flow: Flow, db: Db, later: Db, n: NodeId, owed: nat, owedLater: nat)
    requires later.attached.repairs == db.attached.repairs
    requires forall x :: Attempts(later, x) == Attempts(db, x)
    requires forall x :: x in flow.ids ==> Unrest(flow, later, x) <= Unrest(flow, db, x)
    requires n in flow.ids && Unrest(flow, later, n) + owedLater < Unrest(flow, db, n) + owed
    ensures Below(RankOf(flow, later, owedLater), RankOf(flow, db, owed))
  {
    TotalSame(flow, db, later);
    SameRounds(flow, db, later);
    SumGap(flow.ids, UnrestOf(flow, db), UnrestOf(flow, later), n);
  }

  lemma {:induction false} SumGap(ids: seq<nat>, f: nat -> nat, g: nat -> nat, n: nat)
    requires n in ids && forall x :: x in ids ==> g(x) <= f(x)
    ensures Sum(ids, g) + f(n) <= Sum(ids, f) + g(n)
  {
    if ids[0] == n {
      SumMono(ids[1..], g, f);
    } else {
      SumGap(ids[1..], f, g, n);
    }
  }

  // ---------------------------------------------------------------- the transactions of the loop

  /** Something other than the progress bookkeeping and the evidence of undecided joins has changed. */
  predicate Moved(db: Db, later: Db) {
    || later.nodes != db.nodes || later.attempts != db.attempts || later.artifacts != db.artifacts
    || later.control.routes != db.control.routes || later.control.loops != db.control.loops
    || Frozen(later) != Frozen(db) || later.attached != db.attached
  }

  lemma AdmitMoves(db: Db, n: NodeId, now: Time)
    requires Moved(db, AdmitAttempt(db, n, now).0)
    ensures var later := AdmitAttempt(db, n, now).0;
      && IsStatus(db, n, Pending) && later.control == db.control && later.attached == db.attached
      && later.nodes == db.nodes[n := db.nodes[n].(status := Failed)]
  {
  }

  /** A refused launch: the pending node fails. */
  lemma AdmitDrops(flow: Flow, db: Db, n: NodeId, now: Time)
    requires WellFormed(flow) && n in flow.nodes
    requires Moved(db, AdmitAttempt(db, n, now).0)
    ensures Below(RankOf(flow, AdmitAttempt(db, n, now).0, 0), RankOf(flow, db, 0))
  {
    assert n in flow.ids;
    AdmitMoves(db, n, now);
    SettleDrops(flow, db, AdmitAttempt(db, n, now).0, n, 0);
  }

  /** A launch refused at the last moment. */
  lemma ExpiryDrops(flow: Flow, db: Db, n: NodeId, generation: nat, now: Time)
    requires n in flow.ids && StartAttempt(db, n, generation, now).1.Expired?
    ensures Below(RankOf(flow, StartAttempt(db, n, generation, now).0, 0), RankOf(flow, db, 0))
  {
    SettleDrops(flow, db, StartAttempt(db, n, generation, now).0, n, 0);
  }

  lemma StartAnswers(db: Db, n: NodeId, generation: nat, now: Time)
    ensures var (later, reply) := StartAttempt(db, n, generation, now); reply.Started? || reply.Expired? || later == db
  {
  }

  /** A launch: an attempt is used up, or the budget expired at the last moment and the node fails. */
  lemma LaunchDrops(flow: Flow, db: Db, n: NodeId, generation: nat, now: Time)
    requires WellFormed(flow) && n in flow.nodes && AttemptTotal(flow, db) < flow.budgets.maxTotalAttempts
    requires StartAttempt(db, n, generation, now).0 != db
    ensures Below(RankOf(flow, StartAttempt(db, n, generation, now).0, 0), RankOf(flow, db, 0))
  {
    assert n in flow.ids;
    StartAnswers(db, n, generation, now);
    if StartAttempt(db, n, generation, now).1.Started? {
      StartDrops(flow, db, n, generation, now, 0);
    } else {
      ExpiryDrops(flow, db, n, generation, now);
    }
  }

  /** A result settles its node; the status still to be written is worth less than the result was. */
  lemma ResultDrops(flow: Flow, db: Db, sess: Session, tx: Tx, now: Time, owed: nat)
    requires WellFormed(flow) && db.nodes.Keys == flow.nodes.Keys
    requires (tx.TxFinish? && owed <= 2) || (tx.TxSucceed? && owed == 0)
    requires Commit(db, tx, sess.lease.generation, now).0 != db
    ensures Below(RankOf(flow, Commit(db, tx, sess.lease.generation, now).0, owed), RankOf(flow, db, 0))
  {
    assert tx.n in flow.ids;
    CommitCounts(db, tx, sess.lease.generation, now);
    if tx.TxFinish? {
      FaultCalms(flow, db, tx, sess.lease.generation, now);
    } else {
      SuccessCalms(flow, db, tx, sess.lease.generation, now);
    }
    CalmDrops(flow, db, Commit(db, tx, sess.lease.generation, now).0, tx.n, 0, owed);
  }

  /** A node that has failed owes nothing. */
  lemma FaultCalms(flow: Flow, db: Db, tx: Tx, generation: nat, now: Time)
    requires tx.TxFinish? && Commit(db, tx, generation, now).0 != db
    ensures var later := Commit(db, tx, generation, now).0;
      && later.attached == db.attached && (forall x :: Unrest(flow, later, x) <= Unrest(flow, db, x))
      && Unrest(flow, later, tx.n) == 0 && Unrest(flow, db, tx.n) == 3 && tx.n in db.nodes
  {
  }

  /** One that has succeeded owes at most a loop decision. */
  lemma SuccessCalms(flow: Flow, db: Db, tx: Tx, generation: nat, now: Time)
    requires tx.TxSucceed? && Commit(db, tx, generation, now).0 != db
    ensures var later := Commit(db, tx, generation, now).0;
      && later.attached == db.attached && (forall x :: Unrest(flow, later, x) <= Unrest(flow, db, x))
      && Unrest(flow, later, tx.n) <= 2 && Unrest(flow, db, tx.n) == 3 && tx.n in db.nodes
  {
  }

  lemma RouteDrops(flow: Flow, db: Db, sess: Session, tx: Tx, now: Time)
    requires WellFormed(flow) && Guard(flow, db, sess, tx) && tx.TxRoute?
    requires Commit(db, tx, sess.lease.generation, now).0 != db
    ensures Below(RankOf(flow, Commit(db, tx, sess.lease.generation, now).0, 0), RankOf(flow, db, 0))
  {
    assert tx.n in flow.ids;
    CommitCounts(db, tx, sess.lease.generation, now);
    RouteSettles(flow, db, tx, sess.lease.generation, now);
    SettleDrops(flow, db, Commit(db, tx, sess.lease.generation, now).0, tx.n, 0);
  }

  /** A route decided leaves the node to be settled, or settles it. */
  lemma RouteSettles(flow: Flow, db: Db, tx: Tx, generation: nat, now: Time)
    requires tx.TxRoute? && RouteOpen(flow, db, tx.n) && Commit(db, tx, generation, now).0 != db
    ensures var later := Commit(db, tx, generation, now).0;
      && later.attached == db.attached && later.control.loops == db.control.loops
      && (forall x :: x != tx.n ==> (x in later.nodes <==> x in db.nodes) && (x in db.nodes ==> later.nodes[x] == db.nodes[x]))
      && !IsStatus(later, tx.n, Running) && !IsStatus(later, tx.n, Succeeded) && IsStatus(db, tx.n, Pending)
      && (forall x :: Backlog(flow, later, x) <= Backlog(flow, db, x)) && Backlog(flow, later, tx.n) < Backlog(flow, db, tx.n)
  {
  }

  lemma LoopCalms(flow: Flow, db: Db, tx: Tx)
    requires tx.TxLoop? && CanDecideLoop(flow, db, tx)
    ensures var later := ApplyLoop(db, tx.n, tx.number, tx.matched, tx.maxIterations, tx.region).0;
      later != db ==>
        && later.attached == db.attached
        && (forall x :: Unrest(flow, later, x) <= Unrest(flow, db, x))
        && Unrest(flow, later, tx.n) < Unrest(flow, db, tx.n)
  {
    assert tx.n in tx.region;
  }

  lemma LoopDrops(flow: Flow, db: Db, sess: Session, tx: Tx, now: Time)
    requires WellFormed(flow) && tx.TxLoop? && CanDecideLoop(flow, db, tx)
    requires Commit(db, tx, sess.lease.generation, now).0 != db
    ensures Below(RankOf(flow, Commit(db, tx, sess.lease.generation, now).0, 0), RankOf(flow, db, 0))
  {
    assert tx.n in flow.ids;
    LoopCalms(flow, db, tx);
    CommitCounts(db, tx, sess.lease.generation, now);
    CalmDrops(flow, db, Commit(db, tx, sess.lease.generation, now).0, tx.n, 0, 0);
  }

  /** What the status writes of the loop do to the row they change. */
  lemma StatusSettles(flow: Flow, db: Db, n: NodeId, status: Status)
    requires n in db.nodes && !status.Running? && !status.Succeeded?
    ensures var later := SetNodeStatus(db, n, status).0;
      && later.attached == db.attached && later.control == db.control
      && (forall x :: Attempts(later, x) == Attempts(db, x))
      && (forall x :: Unrest(flow, later, x) == if x == n then 0 else Unrest(flow, db, x))
      && (!status.Pending? ==> forall x ::
            Backlog(flow, later, x) == if x != n then Backlog(flow, db, x) else if status.Failed? then 1 else 0)
  {
  }

  /** What was owed is paid. */
  lemma OwedStatusDrops(flow: Flow, db: Db, n: NodeId, status: Status)
    requires n in flow.ids && n in db.nodes && !status.Running? && !status.Succeeded?
    ensures Below(RankOf(flow, SetNodeStatus(db, n, status).0, 0), RankOf(flow, db, 2))
  {
    StatusSettles(flow, db, n, status);
    CalmDrops(flow, db, SetNodeStatus(db, n, status).0, n, 2, 0);
  }

  /** A succeeded controller fails. */
  lemma ControllerDrops(flow: Flow, db: Db, n: NodeId, status: Status)
    requires n in flow.ids && IsStatus(db, n, Succeeded) && n in flow.nodes && flow.nodes[n].loop.Some?
    requires !status.Running? && !status.Succeeded?
    ensures Below(RankOf(flow, SetNodeStatus(db, n, status).0, 0), RankOf(flow, db, 0))
  {
    StatusSettles(flow, db, n, status);
    CalmDrops(flow, db, SetNodeStatus(db, n, status).0, n, 0, 0);
  }

  /** A pending node settles, or a failed one is blocked or skipped after all. */
  lemma BacklogDrops(flow: Flow, db: Db, n: NodeId, status: Status)
    requires n in flow.ids && (IsStatus(db, n, Pending) || (IsStatus(db, n, Failed) && !status.Failed?))
    requires !status.Running? && !status.Succeeded? && !status.Pending?
    ensures Below(RankOf(flow, SetNodeStatus(db, n, status).0, 0), RankOf(flow, db, 0))
  {
    StatusSettles(flow, db, n, status);
    SettleDrops(flow, db, SetNodeStatus(db, n, status).0, n, 0);
  }

  /** A status written by hand. */
  lemma StatusDrops(flow: Flow, db: Db, sess: Session, n: NodeId, status: Status)
    requires WellFormed(flow) && db.nodes.Keys == flow.nodes.Keys && SessionInv(flow, db, sess)
    requires StatusAllowed(flow, db, sess, n, status)
    ensures Below(RankOf(flow, SetNodeStatus(db, n, status).0, 0), RankOf(flow, db, Owed(Some(sess))))
  {
    AllowedStatus(flow, db, sess, n, status);
    assert n in flow.ids;
    if sess.todo.Some? {
      OwedStatusDrops(flow, db, n, status);
    } else {
      StatusFrom(flow, db, sess, n, status);
      if IsStatus(db, n, Succeeded) {
        ControllerDrops(flow, db, n, status);
      } else {
        BacklogDrops(flow, db, n, status);
      }
    }
  }

  lemma StatusFrom(flow: Flow, db: Db, sess: Session, n: NodeId, status: Status)
    requires sess.todo.None? && StatusAllowed(flow, db, sess, n, status)
    ensures !status.Pending?
    ensures || IsStatus(db, n, Pending) || (IsStatus(db, n, Failed) && !status.Failed?)
            || (IsStatus(db, n, Succeeded) && n in flow.nodes && flow.nodes[n].loop.Some?)
  {
  }

  lemma EvidenceOnly(db: Db, n: NodeId, snapshot: JoinRow)
    requires snapshot.decision == Waiting || n in Frozen(db)
    ensures Frozen(RecordJoin(db, n, snapshot).0) == Frozen(db)
  {
  }

  lemma FreezingDecides(flow: Flow, db: Db, n: NodeId, snapshot: JoinRow)
    requires n in flow.nodes && flow.nodes[n].join.Some? && snapshot.decision != Waiting && n !in Frozen(db)
    ensures var later := RecordJoin(db, n, snapshot).0;
      && Undecided(flow, later, n) < Undecided(flow, db, n)
      && forall x :: x != n ==> Undecided(flow, later, x) == Undecided(flow, db, x)
  {
  }

  /** Recording a join moves neither unrest nor backlog. */
  lemma JoinStill(flow: Flow, db: Db, n: NodeId, snapshot: JoinRow)
    ensures var later := RecordJoin(db, n, snapshot).0;
      && Sum(flow.ids, UnrestOf(flow, later)) == Sum(flow.ids, UnrestOf(flow, db))
      && Sum(flow.ids, BacklogOf(flow, later)) == Sum(flow.ids, BacklogOf(flow, db))
      && AttemptTotal(flow, later) == AttemptTotal(flow, db)
      && Sum(flow.ids, OpenOf(flow, later)) == Sum(flow.ids, OpenOf(flow, db))
  {
    var later := RecordJoin(db, n, snapshot).0;
    TotalSame(flow, db, later);
    SameRounds(flow, db, later);
    SumSame(flow.ids, UnrestOf(flow, db), UnrestOf(flow, later));
    SumSame(flow.ids, BacklogOf(flow, db), BacklogOf(flow, later));
  }

  lemma JoinDrops(flow: Flow, db: Db, n: NodeId, snapshot: JoinRow)
    requires n in flow.ids && n in flow.nodes && flow.nodes[n].join.Some?
    requires snapshot.decision != Waiting && n !in Frozen(db)
    ensures Below(RankOf(flow, RecordJoin(db, n, snapshot).0, 0), RankOf(flow, db, 0))
  {
    JoinStill(flow, db, n, snapshot);
    FreezingDecides(flow, db, n, snapshot);
    SumLess(flow.ids, UndecidedOf(flow, db), UndecidedOf(flow, RecordJoin(db, n, snapshot).0), n);
  }

  lemma {:induction false} OpenDrops(db: Db, later: Db, n: NodeId, routes: seq<RepairRoute>, i: nat)
    requires i < |routes|
    requires forall j :: 0 <= j < |routes| && j != i ==> RepairRounds(later, n, routes[j].id) == RepairRounds(db, n, routes[j].id)
    requires RepairRounds(db, n, routes[i].id) < RepairRounds(later, n, routes[i].id) && RepairRounds(db, n, routes[i].id) < routes[i].maxRounds
    ensures RoundsOpen(later, n, routes) < RoundsOpen(db, n, routes)
  {
    var init := routes[..|routes| - 1];
    if i == |routes| - 1 {
      OpenSame(db, later, n, init);
    } else {
      OpenDrops(db, later, n, init, i);
    }
  }

  lemma RepairDrops(flow: Flow, db: Db, sess: Session, tx: Tx, now: Time)
    requires WellFormed(flow) && Guard(flow, db, sess, tx) && tx.TxRepair?
    requires Commit(db, tx, sess.lease.generation, now).0 != db
    ensures Below(RankOf(flow, Commit(db, tx, sess.lease.generation, now).0, 0), RankOf(flow, db, 0))
  {
    var later := Commit(db, tx, sess.lease.generation, now).0;
    CommitCounts(db, tx, sess.lease.generation, now);
    TotalSame(flow, db, later);
    RepairLowersOpen(flow, db, later, tx);
  }

  lemma RepairLowersOpen(flow: Flow, db: Db, later: Db, tx: Tx)
    requires WellFormed(flow) && tx.TxRepair? && CanRepair(flow, db, tx)
    requires later == Commit(db, tx, 0, 0).0 && later != db
    ensures Sum(flow.ids, OpenOf(flow, later)) < Sum(flow.ids, OpenOf(flow, db))
  {
    RoundIsSpent(flow, db, later, tx);
    forall m: nat | m in flow.ids && m != tx.n ensures OpenAt(flow, later, m) == OpenAt(flow, db, m) {
      if m in flow.nodes && flow.nodes[m].repair.Some? {
        OthersKeepRounds(db, later, tx, m);
        OpenSame(db, later, m, flow.nodes[m].repair.value);
      }
    }
    SumLess(flow.ids, OpenOf(flow, db), OpenOf(flow, later), tx.n);
  }

  lemma OthersKeepRounds(db: Db, later: Db, tx: Tx, m: NodeId)
    requires tx.TxRepair? && m != tx.n && later == Commit(db, tx, 0, 0).0
    ensures forall route :: RepairRounds(later, m, route) == RepairRounds(db, m, route)
  {
  }

  lemma RoundsAfter(db: Db, later: Db, tx: Tx)
    requires tx.TxRepair? && later == Commit(db, tx, 0, 0).0 && later != db
    ensures RepairRounds(db, tx.n, tx.route) < tx.maxRounds
    ensures forall route :: RepairRounds(later, tx.n, route) == RepairRounds(db, tx.n, route) + if route == tx.route then 1 else 0
  {
  }

  lemma RoundIsSpent(flow: Flow, db: Db, later: Db, tx: Tx)
    requires WellFormed(flow) && tx.TxRepair? && CanRepair(flow, db, tx)
    requires later == Commit(db, tx, 0, 0).0 && later != db
    ensures tx.n in flow.ids && OpenAt(flow, later, tx.n) < OpenAt(flow, db, tx.n)
  {
    var i: nat :| RepairArguments(flow, db, tx.n, tx, i);
    var routes := flow.nodes[tx.n].repair.value;
    assert RoutesWellFormed(flow, routes);
    RoundsAfter(db, later, tx);
    OpenDrops(db, later, tx.n, routes, i);
  }

  // ---------------------------------------------------------------- whole leases

  /** Recording join evidence without freezing it is not a change. */
  lemma FreezesOnly(db: Db, n: NodeId, snapshot: JoinRow)
    requires Moved(db, RecordJoin(db, n, snapshot).0)
    ensures snapshot.decision != Waiting && n !in Frozen(db)
  {
    if snapshot.decision == Waiting || n in Frozen(db) {
      EvidenceOnly(db, n, snapshot);
    }
  }

  lemma CommitDrops(flow: Flow, db: Db, sess: Session, tx: Tx, now: Time, owed: nat)
    requires WellFormed(flow) && db.nodes.Keys == flow.nodes.Keys && SessionInv(flow, db, sess)
    requires Guard(flow, db, sess, tx) && LoopTx(tx) && sess.todo.None? && !tx.TxStatus?
    requires Moved(db, Commit(db, tx, sess.lease.generation, now).0)
    requires owed <= if tx.TxFinish? then 2 else 0
    ensures Below(RankOf(flow, Commit(db, tx, sess.lease.generation, now).0, owed), RankOf(flow, db, 0))
  {
    match tx
    case TxAdmit(n) => AdmitDrops(flow, db, n, now);
    case TxStart(n) => LaunchDrops(flow, db, n, sess.lease.generation, now);
    case TxFinish(_, _, _, _, _, _) => ResultDrops(flow, db, sess, tx, now, owed);
    case TxSucceed(_, _, _, _, _) => ResultDrops(flow, db, sess, tx, now, owed);
    case TxRoute(_, _, _) => RouteDrops(flow, db, sess, tx, now);
    case TxLoop(_, _, _, _, _) => LoopDrops(flow, db, sess, tx, now);
    case TxRepair(_, _, _, _, _, _, _) => RepairDrops(flow, db, sess, tx, now);
    case TxJoin(n, snapshot) =>
      FreezesOnly(db, n, snapshot);
      assert n in flow.ids;
      JoinDrops(flow, db, n, snapshot);
  }

  lemma OwedAfter(flow: Flow, sess: Session, tx: Tx, reply: Reply)
    requires sess.todo.None? || tx.TxStatus?
    ensures Owed(Some(Remember(flow, sess, tx, reply))) <= if tx.TxFinish? then 2 else 0
  {
  }

  /** Every change the loop makes lowers the rank. */
  lemma ChangeDrops(flow: Flow, s: Sys, tx: Tx)
    requires WellFormed(flow) && Inv(flow, s) && Enabled(flow, s, Do(tx)) && LoopTx(tx)
    requires LeaseLive(s.db.run, s.session.value.lease, s.now)
    requires Moved(s.db, DoTx(flow, s, tx).db)
    ensures Below(RankOf(flow, DoTx(flow, s, tx).db, Owed(DoTx(flow, s, tx).session)), RankOf(flow, s.db, Owed(s.session)))
  {
    var sess := s.session.value;
    DoCommits(flow, s, tx);
    OwedAfter(flow, sess, tx, Commit(s.db, tx, sess.lease.generation, s.now).1);
    if tx.TxStatus? {
      StatusDrops(flow, s.db, sess, tx.n, tx.status);
    } else {
      CommitDrops(flow, s.db, sess, tx, s.now, Owed(DoTx(flow, s, tx).session));
    }
  }

  /** Whoever owns the run issues the loop's own transactions only. */
  predicate OfTheLoop(a: Action) { a.Do? ==> LoopTx(a.tx) }

  /** Whether an action was a transaction of the owner that changed the tables. */
  predicate Changes(flow: Flow, s: Sys, a: Action) { a.Do? && Moved(s.db, Apply(flow, s, a).db) }

  /** How many actions of a run changed the tables. */
  function Changed(flow: Flow, s: Sys, acts: seq<Action>): nat
    decreases |acts|
  {
    if acts == [] then 0
    else
      var before := acts[..|acts| - 1];
      Changed(flow, s, before) + if Changes(flow, After(flow, s, before), acts[|acts| - 1]) then 1 else 0
  }

  /** Two digits of a number system in which the low digit is at most `max`. */
  function Digits(high: nat, low: nat, max: nat): nat { high * (max + 1) + low }

  lemma DigitsDrop(high: nat, low: nat, high2: nat, low2: nat, max: nat)
    requires low2 <= max && (high2 < high || (high2 == high && low2 < low))
    ensures Digits(high2, low2, max) < Digits(high, low, max)
  {
    if high2 < high {
      assert (high2 + 1) * (max + 1) <= high * (max + 1) by { MulMono(high2 + 1, high, max + 1); }
    }
  }

  lemma MulMono(a: nat, b: nat, c: nat)
    requires a <= b
    ensures a * c <= b * c
  {
  }

  /** The rank as one number, for a workflow with that many nodes and repair rounds. */
  function Flat(flow: Flow, r: Rank): nat {
    var n := |flow.ids|;
    Digits(Digits(Digits(Digits(r.attempts, r.rounds, Sum(flow.ids, RoundsOf(flow))), r.unrest, 3 * n + 2),
                  r.waiting, 3 * n), r.undecided, n)
  }

  predicate Sized(flow: Flow, r: Rank) {
    && r.rounds <= Sum(flow.ids, RoundsOf(flow)) && r.unrest <= 3 * |flow.ids| + 2
    && r.waiting <= 3 * |flow.ids| && r.undecided <= |flow.ids|
  }

  lemma FlatDrops(flow: Flow, r: Rank, q: Rank)
    requires Sized(flow, r) && Below(r, q)
    ensures Flat(flow, r) < Flat(flow, q)
  {
    var n, rounds := |flow.ids|, Sum(flow.ids, RoundsOf(flow));
    var r1, q1 := Digits(r.attempts, r.rounds, rounds), Digits(q.attempts, q.rounds, rounds);
    var r2, q2 := Digits(r1, r.unrest, 3 * n + 2), Digits(q1, q.unrest, 3 * n + 2);
    var r3, q3 := Digits(r2, r.waiting, 3 * n), Digits(q2, q.waiting, 3 * n);
    if r.attempts < q.attempts || (r.attempts == q.attempts && r.rounds < q.rounds) {
      DigitsDrop(q.attempts, q.rounds, r.attempts, r.rounds, rounds);
    }
    if r1 < q1 || (r1 == q1 && r.unrest < q.unrest) {
      DigitsDrop(q1, q.unrest, r1, r.unrest, 3 * n + 2);
    }
    if r2 < q2 || (r2 == q2 && r.waiting < q.waiting) {
      DigitsDrop(q2, q.waiting, r2, r.waiting, 3 * n);
    }
    DigitsDrop(q3, q.undecided, r3, r.undecided, n);
  }

  lemma {:induction false} OpenBounded(db: Db, n: NodeId, routes: seq<RepairRoute>)
    ensures RoundsOpen(db, n, routes) <= RoundsIn(routes)
  {
    if routes != [] {
      OpenBounded(db, n, routes[..|routes| - 1]);
    }
  }

  lemma RankIsSized(flow: Flow, db: Db, owed: nat)
    requires owed <= 2
    ensures Sized(flow, RankOf(flow, db, owed))
  {
    forall n: nat | n in flow.ids ensures OpenOf(flow, db)(n) <= RoundsOf(flow)(n) {
      if n in flow.nodes && flow.nodes[n].repair.Some? {
        OpenBounded(db, n, flow.nodes[n].repair.value);
      }
    }
    SumMono(flow.ids, OpenOf(flow, db), RoundsOf(flow));
    SumBound(flow.ids, UnrestOf(flow, db), 3);
    SumBound(flow.ids, BacklogOf(flow, db), 3);
    SumBound(flow.ids, UndecidedOf(flow, db), 1);
  }

  function FlatOf(flow: Flow, s: Sys): nat { Flat(flow, RankOf(flow, s.db, Owed(s.session))) }

  lemma FlatFalls(flow: Flow, r: Rank, q: Rank)
    requires r == q.(unrest := r.unrest) && r.unrest <= q.unrest && Sized(flow, r)
    ensures Flat(flow, r) <= Flat(flow, q)
  {
    if r.unrest < q.unrest {
      FlatDrops(flow, r, q);
    }
  }

  lemma RankSame(flow: Flow, s: Sys, t: Sys)
    requires SameTables(s, t) && Owed(t.session) <= Owed(s.session)
    ensures FlatOf(flow, t) <= FlatOf(flow, s)
  {
    TotalSame(flow, s.db, t.db);
    SameRounds(flow, s.db, t.db);
    SumSame(flow.ids, UnrestOf(flow, s.db), UnrestOf(flow, t.db));
    SumSame(flow.ids, BacklogOf(flow, s.db), BacklogOf(flow, t.db));
    SumSame(flow.ids, UndecidedOf(flow, s.db), UndecidedOf(flow, t.db));
    RankIsSized(flow, t.db, Owed(t.session));
    FlatFalls(flow, RankOf(flow, t.db, Owed(t.session)), RankOf(flow, s.db, Owed(s.session)));
  }

  lemma RankStill(flow: Flow, db: Db, later: Db, owed: nat)
    requires !Moved(db, later)
    ensures RankOf(flow, later, owed) == RankOf(flow, db, owed)
  {
    TotalSame(flow, db, later);
    SameRounds(flow, db, later);
    SumSame(flow.ids, UnrestOf(flow, db), UnrestOf(flow, later));
    SumSame(flow.ids, BacklogOf(flow, db), BacklogOf(flow, later));
    SumSame(flow.ids, UndecidedOf(flow, db), UndecidedOf(flow, later));
  }

  /** A transaction that changes no table never leaves more to be written. */
  lemma UnchangedOwes(flow: Flow, s: Sys, tx: Tx)
    requires s.session.Some? && LeaseLive(s.db.run, s.session.value.lease, s.now)
    requires Guard(flow, s.db, s.session.value, tx) && LoopTx(tx) && !Moved(s.db, DoTx(flow, s, tx).db)
    requires Inv(flow, s)
    ensures Owed(DoTx(flow, s, tx).session) <= Owed(s.session)
  {
    var sess := s.session.value;
    DoCommits(flow, s, tx);
    if tx.TxFinish? {
      FinishSettles(s.db, tx, sess.lease.generation, s.now);
    }
  }

  lemma FinishSettles(db: Db, tx: Tx, generation: nat, now: Time)
    requires tx.TxFinish?
    ensures var (later, reply) := Commit(db, tx, generation, now);
            reply.Settled? ==> IsStatus(db, tx.n, Running) && IsStatus(later, tx.n, Failed)
  {
  }

  lemma ActionFalls(flow: Flow, s: Sys, a: Action)
    requires WellFormed(flow) && Inv(flow, s) && Enabled(flow, s, a) && OfTheLoop(a)
    ensures FlatOf(flow, Apply(flow, s, a)) + (if Changes(flow, s, a) then 1 else 0) <= FlatOf(flow, s)
  {
    var t := Apply(flow, s, a);
    if !a.Do? {
      OutsideFrame(flow, s, a);
      RankSame(flow, s, t);
    } else if !LeaseLive(s.db.run, s.session.value.lease, s.now) {
      DoFrame(flow, s, a.tx);
      RankSame(flow, s, t);
    } else if !Moved(s.db, t.db) {
      UnchangedOwes(flow, s, a.tx);
      RankStill(flow, s.db, t.db, Owed(t.session));
      RankIsSized(flow, t.db, Owed(t.session));
      FlatFalls(flow, RankOf(flow, t.db, Owed(t.session)), RankOf(flow, s.db, Owed(s.session)));
    } else {
      ChangeDrops(flow, s, a.tx);
      RankIsSized(flow, t.db, Owed(t.session));
      FlatDrops(flow, RankOf(flow, t.db, Owed(t.session)), RankOf(flow, s.db, Owed(s.session)));
    }
  }

  /** Without recovery and reconciliation, any number of owners change the tables at most as often as the flattened rank allows. */
  lemma {:induction false} FinitelyManyChanges(flow: Flow, s: Sys, acts: seq<Action>)
    requires WellFormed(flow) && Inv(flow, s) && Run(flow, s, acts)
    requires forall i :: 0 <= i < |acts| ==> OfTheLoop(acts[i])
    ensures Changed(flow, s, acts) + FlatOf(flow, After(flow, s, acts)) <= FlatOf(flow, s)
    decreases |acts|
  {
    if acts != [] {
      var before := acts[..|acts| - 1];
      FinitelyManyChanges(flow, s, before);
      InvFrom(flow, s, before);
      ActionFalls(flow, After(flow, s, before), acts[|acts| - 1]);
    }
  }

  // ---------------------------------------------------------------- the loop itself

  /** Every change costs more than a worker more to wait for, so settling any worker, a replaced one included, costs too. */
  function Fuel(flow: Flow, s: Sys): nat {
    2 * FlatOf(flow, s) + if s.session.Some? then |s.session.value.active| else 0
  }

  /** An attempt is settled, or a pending node fails. */
  predicate Progresses(db: Db, tx: Tx) {
    tx.TxFinish? || tx.TxSucceed? || (tx.TxStatus? && IsStatus(db, tx.n, Pending) && tx.status.Failed?)
  }

  /** What the owner waits for grows by an attempt it starts, and shrinks by one it settles. */
  lemma WorkersAfter(flow: Flow, db: Db, sess: Session, tx: Tx, reply: Reply)
    requires Guard(flow, db, sess, tx) && LoopTx(tx)
    ensures var later := Remember(flow, sess, tx, reply).active;
      && |later| <= |sess.active| + (if tx.TxStart? && reply.Started? then 1 else 0)
      && (tx.TxFinish? || tx.TxSucceed? ==> |later| + 1 <= |sess.active|)
  {
    var later := Remember(flow, sess, tx, reply).active;
    if tx.TxStart? && reply.Started? {
      assert later.Keys == sess.active.Keys + {tx.n};
      assert |later| == |later.Keys| && |sess.active| == |sess.active.Keys|;
    } else if tx.TxFinish? || tx.TxSucceed? {
      assert later.Keys == sess.active.Keys - {tx.n} && tx.n in sess.active.Keys;
      assert |later| == |later.Keys| && |sess.active| == |sess.active.Keys|;
    }
  }

  lemma StartsAndFailuresMove(db: Db, tx: Tx, generation: nat, now: Time)
    requires var (later, reply) := Commit(db, tx, generation, now);
      || (tx.TxStart? && reply.Started?)
      || (tx.TxStatus? && IsStatus(db, tx.n, Pending) && tx.status.Failed?)
    ensures Moved(db, Commit(db, tx, generation, now).0)
  {
    var later := Commit(db, tx, generation, now).0;
    assert tx.n in db.nodes && later.nodes[tx.n] != db.nodes[tx.n];
  }

  /** No transaction of the loop adds fuel, and those that make progress use some up. */
  lemma TransactionBurns(flow: Flow, s: Sys, tx: Tx)
    requires WellFormed(flow) && Inv(flow, s) && Enabled(flow, s, Do(tx)) && LoopTx(tx)
    requires LeaseLive(s.db.run, s.session.value.lease, s.now)
    ensures Fuel(flow, DoTx(flow, s, tx)) + (if Progresses(s.db, tx) then 1 else 0) <= Fuel(flow, s)
  {
    var sess := s.session.value;
    var reply := Commit(s.db, tx, sess.lease.generation, s.now).1;
    ActionFalls(flow, s, Do(tx));
    DoCommits(flow, s, tx);
    WorkersAfter(flow, s.db, sess, tx, reply);
    ProgressChanges(flow, s, tx);
  }

  lemma ProgressChanges(flow: Flow, s: Sys, tx: Tx)
    requires s.session.Some? && LeaseLive(s.db.run, s.session.value.lease, s.now)
    ensures var reply := Commit(s.db, tx, s.session.value.lease.generation, s.now).1;
      (tx.TxStart? && reply.Started?) || (tx.TxStatus? && Progresses(s.db, tx)) ==> Changes(flow, s, Do(tx))
  {
    var generation := s.session.value.lease.generation;
    DoCommits(flow, s, tx);
    if (tx.TxStart? && Commit(s.db, tx, generation, s.now).1.Started?) || (tx.TxStatus? && Progresses(s.db, tx)) {
      StartsAndFailuresMove(s.db, tx, generation, s.now);
    }
  }

  /** Neither does anything else; a new owner starts with nothing to wait for. */
  lemma OutsideBurns(flow: Flow, s: Sys, a: Action)
    requires WellFormed(flow) && Inv(flow, s) && Enabled(flow, s, a) && !a.Do?
    ensures Fuel(flow, Apply(flow, s, a)) <= Fuel(flow, s)
  {
    ActionFalls(flow, s, a);
    OutsideFrame(flow, s, a);
  }

  /** All the loop of one owner may do, by the size of the workflow. */
  function Horizon(flow: Flow): nat {
    2 * Flat(flow, Rank(flow.budgets.maxTotalAttempts, Sum(flow.ids, RoundsOf(flow)), 3 * |flow.ids| + 2,
                        3 * |flow.ids|, |flow.ids|))
  }

  lemma DigitsMono(high: nat, low: nat, high2: nat, low2: nat, max: nat)
    requires high <= high2 && low <= low2
    ensures Digits(high, low, max) <= Digits(high2, low2, max)
  {
    MulMono(high, high2, max + 1);
  }

  lemma FlatMono(flow: Flow, r: Rank, q: Rank)
    requires r.attempts <= q.attempts && r.rounds <= q.rounds && r.unrest <= q.unrest
    requires r.waiting <= q.waiting && r.undecided <= q.undecided
    ensures Flat(flow, r) <= Flat(flow, q)
  {
    var n, rounds := |flow.ids|, Sum(flow.ids, RoundsOf(flow));
    var r1, q1 := Digits(r.attempts, r.rounds, rounds), Digits(q.attempts, q.rounds, rounds);
    var r2, q2 := Digits(r1, r.unrest, 3 * n + 2), Digits(q1, q.unrest, 3 * n + 2);
    var r3, q3 := Digits(r2, r.waiting, 3 * n), Digits(q2, q.waiting, 3 * n);
    DigitsMono(r.attempts, r.rounds, q.attempts, q.rounds, rounds);
    DigitsMono(r1, r.unrest, q1, q.unrest, 3 * n + 2);
    DigitsMono(r2, r.waiting, q2, q.waiting, 3 * n);
    DigitsMono(r3, r.undecided, q3, q.undecided, n);
  }

  lemma FuelBounded(flow: Flow, s: Sys)
    requires s.session.Some? && s.session.value.active == map[]
    ensures Fuel(flow, s) <= Horizon(flow)
  {
    var r := RankOf(flow, s.db, Owed(s.session));
    RankIsSized(flow, s.db, Owed(s.session));
    FlatMono(flow, r, Rank(flow.budgets.maxTotalAttempts, Sum(flow.ids, RoundsOf(flow)), 3 * |flow.ids| + 2,
                           3 * |flow.ids|, |flow.ids|));
  }
}
