/**
 The invariant of every reachable state of every run: the store invariant, the attempt budget, and
 what the owner's memory has to do with the rows.
 */
module RunInvariants {
  import opened Prelude
  import opened Workflow
  import opened Store
  import opened Invariants
  import opened Runs

  /** If a node the owner waits for is running, it is running the attempt the owner waits for. */
  predicate ActiveInv(db: Db, sess: Session, n: NodeId) {
    IsStatus(db, n, Running) && n in sess.active ==>
      db.nodes[n].activeAttempt == Some(sess.active[n]) && db.nodes[n].activeGeneration == Some(sess.lease.generation)
  }

  /** The only statuses `_finalize_attempt` writes, for the node it has just recorded as failed. */
  predicate TodoInv(flow: Flow, db: Db, n: NodeId, status: Status) {
    && IsStatus(db, n, Failed) && db.nodes[n].attemptCount >= 1 && Accepted(db, n) == map[]
    && n in flow.nodes && flow.nodes[n].repair.None?
    && ((status.Pending? && ReplaySafe(flow.nodes[n])) || (status.Uncertain? && !ReplaySafe(flow.nodes[n]))
        || status.OptionalFailed?)
  }

  ghost predicate SessionInv(flow: Flow, db: Db, sess: Session) {
    && sess.lease.generation == db.run.generation
    && |sess.active| <= flow.budgets.maxConcurrency
    && (forall n :: n in sess.active ==> ActiveInv(db, sess, n))
    && (sess.todo.Some? ==> TodoInv(flow, db, sess.todo.value.0, sess.todo.value.1))
  }

  ghost predicate Inv(flow: Flow, s: Sys) {
    && s.db.nodes.Keys == flow.nodes.Keys
    && StoreInv(s.db, s.published)
    && AttemptTotal(flow, s.db) <= flow.budgets.maxTotalAttempts
    && (s.session.Some? ==> SessionInv(flow, s.db, s.session.value))
  }

  // ---------------------------------------------------------------- the attempt total

  lemma TotalSame(flow: Flow, db: Db, later: Db)
    requires forall n :: n in flow.ids ==> Attempts(db, n) == Attempts(later, n)
    ensures AttemptTotal(flow, later) == AttemptTotal(flow, db)
  {
    SumSame(flow.ids, AttemptsOf(db), AttemptsOf(later));
  }

  lemma TotalAfterStart(flow: Flow, db: Db, n: NodeId, generation: nat, now: Time)
    requires Increasing(flow.ids) && n in flow.ids
    requires StartAttempt(db, n, generation, now).1.Started?
    ensures AttemptTotal(flow, StartAttempt(db, n, generation, now).0) == AttemptTotal(flow, db) + 1
  {
    SumDelta(flow.ids, AttemptsOf(db), AttemptsOf(StartAttempt(db, n, generation, now).0), n);
  }

  /** No transaction adds or drops a node or touches the lease. */
  lemma CommitFrame(db: Db, tx: Tx, generation: nat, now: Time)
    ensures var later := Commit(db, tx, generation, now).0;
      && later.nodes.Keys == db.nodes.Keys
      && later.run.generation == db.run.generation
  {
  }

  /** Only starting an attempt changes an attempt count. */
  lemma CommitCounts(db: Db, tx: Tx, generation: nat, now: Time)
    ensures var (later, reply) := Commit(db, tx, generation, now);
      forall n :: Attempts(later, n) == Attempts(db, n) + (if tx == TxStart(n) && reply.Started? then 1 else 0)
  {
    if tx.TxFinishRun? || tx.TxRecover? {
      BulkCounts(db, tx, generation, now);
    }
  }

  lemma BulkCounts(db: Db, tx: Tx, generation: nat, now: Time)
    requires tx.TxFinishRun? || tx.TxRecover?
    ensures var later := Commit(db, tx, generation, now).0;
      forall n :: Attempts(later, n) == Attempts(db, n)
  {
  }

  // ---------------------------------------------------------------- the owner's memory

  /** Rows that the owner waits for change only by leaving the running status. */
  lemma SessionFrame(flow: Flow, db: Db, later: Db, sess: Session)
    requires SessionInv(flow, db, sess) && later.run.generation == db.run.generation
    requires sess.todo.None?
    requires forall n :: IsStatus(later, n, Running) ==> n in db.nodes && later.nodes[n] == db.nodes[n]
    ensures SessionInv(flow, later, sess)
  {
    forall n | n in sess.active ensures ActiveInv(later, sess, n) {
      assert ActiveInv(db, sess, n);
    }
  }

  lemma SmallerActive(active: map<NodeId, nat>, n: NodeId)
    ensures |active - {n}| <= |active|
  {
    var smaller := active - {n};
    assert smaller.Keys <= active.Keys;
    Within(smaller.Keys, active.Keys);
    assert |smaller| == |smaller.Keys| && |active| == |active.Keys|;
  }

  lemma GrownActive(active: map<NodeId, nat>, n: NodeId, number: nat)
    requires n !in active
    ensures |active[n := number]| == |active| + 1
  {
    assert active[n := number].Keys == active.Keys + {n};
    assert |active| == |active.Keys| && |active[n := number]| == |active[n := number].Keys|;
  }

  lemma SessionStart(flow: Flow, db: Db, sess: Session, n: NodeId, now: Time)
    requires SessionInv(flow, db, sess) && sess.todo.None?
    requires n !in sess.active && |sess.active| < flow.budgets.maxConcurrency
    ensures var (later, reply) := StartAttempt(db, n, sess.lease.generation, now);
            SessionInv(flow, later, Remember(flow, sess, TxStart(n), reply))
  {
    var (later, reply) := StartAttempt(db, n, sess.lease.generation, now);
    var next := Remember(flow, sess, TxStart(n), reply);
    if reply.Started? {
      GrownActive(sess.active, n, reply.number);
    }
    forall m | m in next.active ensures ActiveInv(later, next, m) {
      assert ActiveInv(db, sess, m);
    }
  }

  lemma SessionSucceed(flow: Flow, db: Db, sess: Session, tx: Tx, now: Time)
    requires SessionInv(flow, db, sess) && sess.todo.None? && tx.TxSucceed?
    ensures var (later, reply) := Commit(db, tx, sess.lease.generation, now);
            SessionInv(flow, later, Remember(flow, sess, tx, reply))
  {
    var (later, reply) := Commit(db, tx, sess.lease.generation, now);
    var next := Remember(flow, sess, tx, reply);
    SmallerActive(sess.active, tx.n);
    forall m | m in next.active ensures ActiveInv(later, next, m) {
      assert ActiveInv(db, sess, m);
    }
  }

  lemma SessionFinish(flow: Flow, db: Db, sess: Session, tx: Tx, now: Time)
    requires SessionInv(flow, db, sess) && sess.todo.None? && tx.TxFinish?
    requires tx.n in db.nodes && IsStatus(db, tx.n, Running) ==>
               Accepted(db, tx.n) == map[] && db.nodes[tx.n].attemptCount >= 1
    ensures var (later, reply) := Commit(db, tx, sess.lease.generation, now);
            SessionInv(flow, later, Remember(flow, sess, tx, reply))
  {
    var (later, reply) := Commit(db, tx, sess.lease.generation, now);
    var next := Remember(flow, sess, tx, reply);
    SmallerActive(sess.active, tx.n);
    forall m | m in next.active ensures ActiveInv(later, next, m) {
      assert ActiveInv(db, sess, m);
    }
  }

  lemma SessionStatus(flow: Flow, db: Db, sess: Session, n: NodeId, status: Status)
    requires SessionInv(flow, db, sess) && n in db.nodes && !status.Running?
    ensures var (later, reply) := SetNodeStatus(db, n, status);
            SessionInv(flow, later, Remember(flow, sess, TxStatus(n, status), reply))
  {
    var later := SetNodeStatus(db, n, status).0;
    forall m | m in sess.active ensures ActiveInv(later, sess, m) {
      assert ActiveInv(db, sess, m);
    }
  }

  /** Every other transaction leaves running rows alone or stops them. */
  lemma SessionOther(flow: Flow, db: Db, sess: Session, tx: Tx, now: Time)
    requires SessionInv(flow, db, sess) && sess.todo.None?
    requires !tx.TxStart? && !tx.TxSucceed? && !tx.TxFinish? && !tx.TxStatus?
    ensures var (later, reply) := Commit(db, tx, sess.lease.generation, now);
            SessionInv(flow, later, Remember(flow, sess, tx, reply))
  {
    var (later, reply) := Commit(db, tx, sess.lease.generation, now);
    CommitFrame(db, tx, sess.lease.generation, now);
    RunningRowsStay(db, tx, sess.lease.generation, now);
    SessionFrame(flow, db, later, sess);
  }

  lemma RunningRowsStay(db: Db, tx: Tx, generation: nat, now: Time)
    requires !tx.TxStart? && !tx.TxSucceed? && !tx.TxFinish? && !tx.TxStatus?
    ensures var later := Commit(db, tx, generation, now).0;
            forall n :: IsStatus(later, n, Running) ==> n in db.nodes && later.nodes[n] == db.nodes[n]
  {
  }

  // ---------------------------------------------------------------- every step of every run

  /** The statuses the scheduler writes by hand, with what makes them harmless. */
  lemma AllowedStatus(flow: Flow, db: Db, sess: Session, n: NodeId, status: Status)
    requires SessionInv(flow, db, sess) && StatusAllowed(flow, db, sess, n, status)
    ensures n in db.nodes && !status.Running? && !status.Succeeded?
    ensures Bare(status) ==> IsStatus(db, n, Pending) || (IsStatus(db, n, Failed) && Accepted(db, n) == map[])
    ensures Tried(status) ==> db.nodes[n].attemptCount >= 1
  {
  }

  lemma KeepCommit(flow: Flow, s: Sys, tx: Tx)
    requires Inv(flow, s) && s.session.Some? && Guard(flow, s.db, s.session.value, tx)
    ensures var (later, reply) := Commit(s.db, tx, s.session.value.lease.generation, s.now);
            StoreInv(later, PublishedAfter(s.published, tx, reply))
  {
    var sess := s.session.value;
    var db, published, generation, now := s.db, s.published, sess.lease.generation, s.now;
    match tx
    case TxAdmit(n) => KeepAdmit(db, published, n, now);
    case TxStart(n) => KeepStart(db, published, n, generation, now);
    case TxFinish(n, number, digest, failure, outputs, checks) =>
      KeepFinish(db, published, n, number, digest, failure, outputs, checks, generation, now);
    case TxSucceed(n, number, digest, outputs, checks) =>
      KeepSucceed(db, published, n, number, digest, outputs, checks, generation, now);
    case TxStatus(n, status) =>
      AllowedStatus(flow, db, sess, n, status);
      assert NodeInv(db, published, n);
      KeepStatus(db, published, n, status);
    case TxRoute(n, source, matched) => KeepRoute(db, published, n, source, matched);
    case TxLoop(n, number, matched, maxIterations, region) =>
      KeepLoop(db, published, n, number, matched, maxIterations, region);
    case TxRepair(n, route, digest, maxRounds, noProgressLimit, targets, attemptLimit) =>
      KeepRepair(db, published, n, route, digest, maxRounds, noProgressLimit, targets, attemptLimit);
    case TxJoin(n, snapshot) => KeepJoin(db, published, n, snapshot);
    case TxRecover(safe) => KeepRecover(db, published, safe, now);
    case TxReconcile(n, retry) => KeepReconcile(db, published, n, retry);
    case TxInvalidate(n) => KeepInvalidate(db, published, n);
    case TxFinishRun(status) => KeepFinishRun(db, published, status, now);
  }

  lemma KeepSession(flow: Flow, s: Sys, tx: Tx)
    requires Inv(flow, s) && s.session.Some? && Guard(flow, s.db, s.session.value, tx)
    ensures var sess := s.session.value;
            var (later, reply) := Commit(s.db, tx, sess.lease.generation, s.now);
            SessionInv(flow, later, Remember(flow, sess, tx, reply))
  {
    var sess := s.session.value;
    if tx.TxStart? {
      SessionStart(flow, s.db, sess, tx.n, s.now);
    } else if tx.TxSucceed? {
      SessionSucceed(flow, s.db, sess, tx, s.now);
    } else if tx.TxFinish? {
      assert tx.n in s.db.nodes ==> NodeInv(s.db, s.published, tx.n);
      SessionFinish(flow, s.db, sess, tx, s.now);
    } else if tx.TxStatus? {
      AllowedStatus(flow, s.db, sess, tx.n, tx.status);
      SessionStatus(flow, s.db, sess, tx.n, tx.status);
    } else {
      SessionOther(flow, s.db, sess, tx, s.now);
    }
  }

  lemma KeepTotal(flow: Flow, db: Db, sess: Session, tx: Tx, now: Time)
    requires WellFormed(flow) && Guard(flow, db, sess, tx)
    requires AttemptTotal(flow, db) <= flow.budgets.maxTotalAttempts
    ensures AttemptTotal(flow, Commit(db, tx, sess.lease.generation, now).0) <= flow.budgets.maxTotalAttempts
  {
    var (later, reply) := Commit(db, tx, sess.lease.generation, now);
    CommitCounts(db, tx, sess.lease.generation, now);
    if tx.TxStart? && reply.Started? {
      assert tx.n in flow.ids;
      TotalAfterStart(flow, db, tx.n, sess.lease.generation, now);
    } else {
      TotalSame(flow, db, later);
    }
  }

  lemma CommitAnswers(db: Db, tx: Tx, generation: nat, now: Time)
    ensures !Commit(db, tx, generation, now).1.LeaseLost?
  {
  }

  lemma InvDo(flow: Flow, s: Sys, tx: Tx)
    requires WellFormed(flow) && Inv(flow, s) && Enabled(flow, s, Do(tx))
    ensures Inv(flow, DoTx(flow, s, tx))
  {
    var sess := s.session.value;
    if LeaseLive(s.db.run, sess.lease, s.now) {
      CommitAnswers(s.db, tx, sess.lease.generation, s.now);
      CommitFrame(s.db, tx, sess.lease.generation, s.now);
      KeepCommit(flow, s, tx);
      KeepSession(flow, s, tx);
      KeepTotal(flow, s.db, sess, tx, s.now);
    }
  }

  /** Leases, cancellation requests and bindings leave every node and attempt row alone. */
  lemma TablesOutside(db: Db, published: Published, later: Db)
    requires StoreInv(db, published)
    requires later == db.(run := later.run) || exists n, row :: later == BindRemote(db, n, row).0
    ensures StoreInv(later, published) && later.nodes == db.nodes && later.attempts == db.attempts
  {
    if later == db.(run := later.run) {
      KeepRunRow(db, published, later.run);
    } else {
      var n, row :| later == BindRemote(db, n, row).0;
      KeepBind(db, published, n, row);
    }
  }

  lemma InvOutside(flow: Flow, s: Sys, later: Db)
    requires Inv(flow, s)
    requires later == s.db.(run := later.run) || exists n, row :: later == BindRemote(s.db, n, row).0
    ensures Inv(flow, s.(db := later, session := None))
    ensures s.session.Some? && later.run.generation == s.db.run.generation ==> Inv(flow, s.(db := later))
  {
    TablesOutside(s.db, s.published, later);
    TotalSame(flow, s.db, later);
    if s.session.Some? {
      forall m | m in s.session.value.active ensures ActiveInv(later, s.session.value, m) {
        assert ActiveInv(s.db, s.session.value, m);
      }
    }
  }

  lemma InvAcquire(flow: Flow, s: Sys, token: Token, ttl: Time, phase: Phase)
    requires Inv(flow, s)
    ensures Inv(flow, Apply(flow, s, Acquire(token, ttl, phase)))
  {
    InvOutside(flow, s, s.db.(run := AcquireLease(s.db.run, token, ttl, s.now).0));
  }

  lemma InvRenew(flow: Flow, s: Sys)
    requires Inv(flow, s) && s.session.Some?
    ensures Inv(flow, Apply(flow, s, Renew))
  {
    InvOutside(flow, s, s.db.(run := RenewLease(s.db.run, s.session.value.lease, s.now).0));
  }

  lemma InvStep(flow: Flow, s: Sys, a: Action)
    requires WellFormed(flow) && Inv(flow, s) && Enabled(flow, s, a)
    ensures Inv(flow, Apply(flow, s, a))
  {
    match a
    case Tick(_) =>
    case Acquire(token, ttl, phase) => InvAcquire(flow, s, token, ttl, phase);
    case Renew => InvRenew(flow, s);
    case Release => InvOutside(flow, s, s.db.(run := ReleaseLease(s.db.run, s.session.value.lease)));
    case Crash =>
    case RequestCancel => InvOutside(flow, s, s.db.(run := s.db.run.(cancelRequested := true)));
    case Bind(n, row) => InvOutside(flow, s, BindRemote(s.db, n, row).0);
    case Do(tx) => InvDo(flow, s, tx);
    case Zombie(lease, tx) => ZombieIsHarmless(flow, s, lease, tx);
  }

  lemma InvInitial(flow: Flow)
    ensures Inv(flow, Initial(flow))
  {
    var s := Initial(flow);
    assert StoreInv(s.db, s.published);
    forall n | n in flow.ids ensures AttemptsOf(s.db)(n) == 0 {}
    SumBound(flow.ids, AttemptsOf(s.db), 0);
  }

  /** The invariant holds throughout every run that starts where it holds. */
  lemma {:induction false} InvFrom(flow: Flow, s: Sys, acts: seq<Action>)
    requires WellFormed(flow) && Inv(flow, s) && Run(flow, s, acts)
    ensures Inv(flow, After(flow, s, acts))
    decreases |acts|
  {
    if acts != [] {
      var before := acts[..|acts| - 1];
      InvFrom(flow, s, before);
      InvStep(flow, After(flow, s, before), acts[|acts| - 1]);
    }
  }

  /** Every state of every run of a created workflow satisfies the invariant. */
  lemma InvRun(flow: Flow, acts: seq<Action>)
    requires WellFormed(flow) && Run(flow, Initial(flow), acts)
    ensures Inv(flow, After(flow, Initial(flow), acts))
  {
    InvInitial(flow);
    InvFrom(flow, Initial(flow), acts);
  }
}
