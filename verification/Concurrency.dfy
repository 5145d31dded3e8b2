/**
 Under one owner, once its memory covers the running rows (after recovery, or when nothing was
 running), no more rows run than `max_concurrency` allows.
 */
module Concurrency {
  import opened Prelude
  import opened Workflow
  import opened Store
  import opened Invariants
  import opened Runs
  import opened RunInvariants

  function RunningNodes(db: Db): set<NodeId> { set n | n in db.nodes && db.nodes[n].status.Running? }

  /** The owner waits for every running row. */
  predicate Covered(db: Db, sess: Session) { RunningNodes(db) <= sess.active.Keys }

  lemma RunningIsBounded(flow: Flow, s: Sys)
    requires Inv(flow, s) && s.session.Some? && Covered(s.db, s.session.value)
    ensures |RunningNodes(s.db)| <= |s.session.value.active| <= flow.budgets.maxConcurrency
  {
    Within(RunningNodes(s.db), s.session.value.active.Keys);
    assert |s.session.value.active| == |s.session.value.active.Keys|;
  }

  /** Recovery leaves nothing running. */
  lemma RecoveryCovers(flow: Flow, s: Sys, tx: Tx)
    requires s.session.Some? && tx.TxRecover? && LeaseLive(s.db.run, s.session.value.lease, s.now)
    ensures var t := DoTx(flow, s, tx); t.session.Some? && RunningNodes(t.db) == {} && Covered(t.db, t.session.value)
  {
  }

  /** An answered result leaves its node not running: it is settled, or it was stale. */
  lemma ResultLeaves(flow: Flow, s: Sys, tx: Tx)
    requires Inv(flow, s) && s.session.Some? && (tx.TxFinish? || tx.TxSucceed?)
    requires Guard(flow, s.db, s.session.value, tx)
    ensures var later := Commit(s.db, tx, s.session.value.lease.generation, s.now).0;
            RunningNodes(later) <= RunningNodes(s.db) - {tx.n}
  {
    assert ActiveInv(s.db, s.session.value, tx.n);
    assert tx.n in s.db.nodes ==> NodeInv(s.db, s.published, tx.n);
  }

  lemma CoveredCommit(flow: Flow, s: Sys, tx: Tx)
    requires Inv(flow, s) && s.session.Some? && Guard(flow, s.db, s.session.value, tx)
    requires Covered(s.db, s.session.value)
    ensures var sess := s.session.value;
            var (later, reply) := Commit(s.db, tx, sess.lease.generation, s.now);
            Covered(later, Remember(flow, sess, tx, reply))
  {
    var sess := s.session.value;
    if tx.TxFinish? || tx.TxSucceed? {
      ResultLeaves(flow, s, tx);
    } else if tx.TxStatus? {
      AllowedStatus(flow, s.db, sess, tx.n, tx.status);
      StatusCovers(s.db, sess, tx, Remember(flow, sess, tx, Done));
    } else if tx.TxStart? {
      StartCovers(flow, s.db, sess, tx, sess.lease.generation, s.now);
    } else {
      RunningRowsStay(s.db, tx, sess.lease.generation, s.now);
    }
  }

  lemma StatusCovers(db: Db, sess: Session, tx: Tx, after: Session)
    requires Covered(db, sess) && tx.TxStatus? && !tx.status.Running? && after.active == sess.active
    ensures Covered(SetNodeStatus(db, tx.n, tx.status).0, after)
  {
  }

  lemma StartCovers(flow: Flow, db: Db, sess: Session, tx: Tx, generation: nat, now: Time)
    requires Covered(db, sess) && tx.TxStart?
    ensures var (later, reply) := Commit(db, tx, generation, now); Covered(later, Remember(flow, sess, tx, reply))
  {
  }

  lemma CoveredStep(flow: Flow, s: Sys, a: Action)
    requires Inv(flow, s) && Enabled(flow, s, a) && !TakesOver(s, a)
    requires s.session.Some? ==> Covered(s.db, s.session.value)
    ensures var t := Apply(flow, s, a); t.session.Some? ==> Covered(t.db, t.session.value)
  {
    if !a.Do? {
      OutsideFrame(flow, s, a);
    } else if LeaseLive(s.db.run, s.session.value.lease, s.now) {
      CoveredCommit(flow, s, a.tx);
      DoCommits(flow, s, a.tx);
    } else {
      DoFrame(flow, s, a.tx);
    }
  }

  predicate OwnerCovers(s: Sys) { s.session.Some? ==> Covered(s.db, s.session.value) }

  /** An owner that covers the running rows covers them as long as it owns the run. */
  lemma {:induction false} StaysCovered(flow: Flow, acts: seq<Action>, i: nat)
    requires WellFormed(flow) && Run(flow, Initial(flow), acts) && i <= |acts|
    requires OwnerCovers(After(flow, Initial(flow), acts[..i]))
    requires OneOwnerFrom(flow, Initial(flow), acts, i)
    ensures OwnerCovers(After(flow, Initial(flow), acts))
    decreases |acts|
  {
    if i == |acts| {
      assert acts[..i] == acts;
    } else {
      var before := acts[..|acts| - 1];
      assert before[..i] == acts[..i];
      StaysCovered(flow, before, i);
      InvRun(flow, before);
      CoveredStep(flow, After(flow, Initial(flow), before), acts[|acts| - 1]);
    }
  }

  /** From the moment an owner covers the running rows, its rows stay within the budget while it owns the run. */
  lemma ConcurrencyIsBounded(flow: Flow, acts: seq<Action>, i: nat)
    requires WellFormed(flow) && Run(flow, Initial(flow), acts) && i <= |acts|
    requires OwnerCovers(After(flow, Initial(flow), acts[..i]))
    requires OneOwnerFrom(flow, Initial(flow), acts, i)
    ensures var s := After(flow, Initial(flow), acts);
            s.session.Some? ==> |RunningNodes(s.db)| <= flow.budgets.maxConcurrency
  {
    StaysCovered(flow, acts, i);
    InvRun(flow, acts);
    var s := After(flow, Initial(flow), acts);
    if s.session.Some? {
      RunningIsBounded(flow, s);
    }
  }
}
