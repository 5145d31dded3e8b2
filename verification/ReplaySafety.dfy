/**
 A node whose effect may not be repeated runs at most once, plus once for every explicit `retry`
 reconciliation, over every run with any number of crashes, takeovers, failures and resumes.
 */
module ReplaySafety {
  import opened Prelude
  import opened Workflow
  import opened Store
  import opened Invariants
  import opened Runs
  import opened RunInvariants
  import opened Validator

  /** Nothing in the contract reruns `n`: it is not replay-safe, owns no repair route, lies in no loop region. */
  ghost predicate RunsOnce(flow: Flow, n: NodeId) {
    && n in flow.nodes && !ReplaySafe(flow.nodes[n]) && flow.nodes[n].repair.None?
    && forall c :: c in flow.nodes && flow.nodes[c].loop.Some? ==> n !in LoopRegion(flow, c, flow.nodes[c].loop.value.target)
  }

  /** The node's own declaration forbids repeating it: a write that is not idempotent, or only with a key it lacks. */
  predicate DeclaresOnce(node: NodeSpec) {
    || node.effect == Some(NonIdempotentWrite)
    || (node.effect == Some(IdempotentWrite) && !node.idempotencyKey)
    || (node.effect.None? && (node.permission.External? || node.permission.Destructive?))
  }

  /** In an accepted workflow nothing reruns such a node, unless it owns repair routes itself. */
  lemma AcceptedRunsOnce(flow: Flow, n: NodeId)
    requires Readable(flow) && ControlAccepted(flow) && n in flow.nodes && flow.nodes[n].repair.None?
    requires DeclaresOnce(flow.nodes[n])
    ensures RunsOnce(flow, n)
  {
    forall c | c in flow.nodes && flow.nodes[c].loop.Some?
      ensures n !in LoopRegion(flow, c, flow.nodes[c].loop.value.target)
    {
      if n in LoopRegion(flow, c, flow.nodes[c].loop.value.target) {
        LoopsRepeatNoWrites(flow, c, n);
      }
    }
  }

  /** Outside these five, no transaction makes a node pending, and starting one uses its pending status up. */
  lemma NothingReopened(db: Db, tx: Tx, generation: nat, now: Time, n: NodeId)
    requires !tx.TxLoop? && !tx.TxRepair? && !tx.TxRecover? && !tx.TxReconcile? && !tx.TxStatus?
    ensures Load(Commit(db, tx, generation, now).0, n) <= Load(db, n)
  {
  }

  /** The five reopen only the nodes they name. */
  lemma ReopenedOnlyIfNamed(db: Db, tx: Tx, generation: nat, now: Time, n: NodeId)
    requires tx.TxLoop? || tx.TxRepair? || tx.TxRecover? || tx.TxReconcile? || tx.TxStatus?
    requires tx.TxLoop? ==> n !in tx.region
    requires tx.TxRepair? ==> n != tx.n && n !in tx.targets
    requires tx.TxRecover? ==> n !in tx.replaySafe
    requires tx.TxStatus? && tx.n == n ==> !tx.status.Pending?
    ensures var (later, reply) := Commit(db, tx, generation, now);
            Load(later, n) <= Load(db, n) + (if tx == TxReconcile(n, true) && reply.Done? then 1 else 0)
  {
  }

  lemma SpentCommit(flow: Flow, s: Sys, tx: Tx, n: NodeId)
    requires Inv(flow, s) && s.session.Some? && Guard(flow, s.db, s.session.value, tx) && RunsOnce(flow, n)
    ensures var (later, reply) := Commit(s.db, tx, s.session.value.lease.generation, s.now);
            Load(later, n) <= Load(s.db, n) + (if tx == TxReconcile(n, true) && reply.Done? then 1 else 0)
  {
    var generation := s.session.value.lease.generation;
    if tx.TxLoop? || tx.TxRepair? || tx.TxRecover? || tx.TxReconcile? || tx.TxStatus? {
      ReopenedOnlyIfNamed(s.db, tx, generation, s.now, n);
    } else {
      NothingReopened(s.db, tx, generation, s.now, n);
    }
  }

  lemma SpentStep(flow: Flow, s: Sys, a: Action, n: NodeId)
    requires Inv(flow, s) && Enabled(flow, s, a) && RunsOnce(flow, n)
    requires Load(s.db, n) <= 1 + Retries(s, n)
    ensures Load(Apply(flow, s, a).db, n) <= 1 + Retries(Apply(flow, s, a), n)
  {
    if !a.Do? {
      OutsideFrame(flow, s, a);
    } else if LeaseLive(s.db.run, s.session.value.lease, s.now) {
      SpentCommit(flow, s, a.tx, n);
      DoCommits(flow, s, a.tx);
    } else {
      DoFrame(flow, s, a.tx);
    }
  }

  lemma {:induction false} AtMostOncePerReconciliation(flow: Flow, acts: seq<Action>, n: NodeId)
    requires WellFormed(flow) && Run(flow, Initial(flow), acts) && RunsOnce(flow, n)
    ensures Load(After(flow, Initial(flow), acts).db, n) <= 1 + Retries(After(flow, Initial(flow), acts), n)
    decreases |acts|
  {
    if acts != [] {
      var before := acts[..|acts| - 1];
      AtMostOncePerReconciliation(flow, before, n);
      InvRun(flow, before);
      SpentStep(flow, After(flow, Initial(flow), before), acts[|acts| - 1], n);
    }
  }

  /**
   Over every run of a workflow that the control checks accept: a node whose declaration forbids repeating it, and that
   owns no repair route, is started at most once plus once for every explicit `retry`.
   */
  lemma AcceptedWritesOnce(flow: Flow, acts: seq<Action>, n: NodeId)
    requires Readable(flow) && ControlAccepted(flow) && Run(flow, Initial(flow), acts)
    requires n in flow.nodes && flow.nodes[n].repair.None? && DeclaresOnce(flow.nodes[n])
    ensures Attempts(After(flow, Initial(flow), acts).db, n) <= 1 + Retries(After(flow, Initial(flow), acts), n)
  {
    AcceptedIsWellFormed(flow);
    AcceptedRunsOnce(flow, n);
    AtMostOncePerReconciliation(flow, acts, n);
  }
}
