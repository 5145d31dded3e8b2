/**
 Attempts that may have done something which must not be done twice: their nodes stay uncertain until somebody decides,
 and nothing that needs them starts before.
 */
module Doubt {
  import opened Prelude
  import opened Graph
  import opened Workflow
  import opened Store
  import opened Joins
  import opened Invariants
  import opened Runs
  import opened RunInvariants
  import opened StartOrder

  /** The transactions that settle the doubt about `n`: a decision, a loop back over it, the end of it or of the run. */
  predicate Resolves(tx: Tx, n: NodeId) {
    || (tx.TxReconcile? && tx.n == n)
    || (tx.TxLoop? && n in tx.region)
    || (tx.TxInvalidate? && tx.n == n)
    || (tx.TxFinishRun? && tx.runStatus.RunCancelled?)
  }

  ghost predicate UnresolvedFrom(acts: seq<Action>, i: nat, n: NodeId) {
    forall k :: i <= k < |acts| && acts[k].Do? ==> !Resolves(acts[k].tx, n)
  }

  /** No status is written over an uncertain one. */
  lemma NoStatusForDoubt(flow: Flow, db: Db, sess: Session, n: NodeId, status: Status)
    requires SessionInv(flow, db, sess) && StatusAllowed(flow, db, sess, n, status)
    ensures !IsStatus(db, n, Uncertain)
  {
  }

  /** A transaction about one node leaves an uncertain one as it is. */
  lemma DoubtOutlasts(db: Db, tx: Tx, generation: nat, now: Time, n: NodeId)
    requires IsStatus(db, n, Uncertain) && !Resolves(tx, n) && !tx.TxRepair? && (tx.TxStatus? ==> tx.n != n)
    ensures IsStatus(Commit(db, tx, generation, now).0, n, Uncertain)
  {
  }

  lemma DoubtOutlastsRepair(db: Db, tx: Tx, generation: nat, now: Time, n: NodeId)
    requires IsStatus(db, n, Uncertain) && tx.TxRepair?
    ensures IsStatus(Commit(db, tx, generation, now).0, n, Uncertain)
  {
  }

  lemma DoubtStays(flow: Flow, s: Sys, tx: Tx, n: NodeId)
    requires Inv(flow, s) && Enabled(flow, s, Do(tx)) && IsStatus(s.db, n, Uncertain) && !Resolves(tx, n)
    ensures IsStatus(Commit(s.db, tx, s.session.value.lease.generation, s.now).0, n, Uncertain)
  {
    if tx.TxStatus? {
      NoStatusForDoubt(flow, s.db, s.session.value, tx.n, tx.status);
    }
    if tx.TxRepair? {
      DoubtOutlastsRepair(s.db, tx, s.session.value.lease.generation, s.now, n);
    } else {
      DoubtOutlasts(s.db, tx, s.session.value.lease.generation, s.now, n);
    }
  }

  /** `m` needs `n` and waits for it. */
  ghost predicate WaitsFor(flow: Flow, m: NodeId, n: NodeId) { Waits(flow, m) && n in flow.nodes[m].needs }

  /** From the first `k` starts on, neither `n` nor anything that waits for it has started. */
  ghost predicate NotStarted(flow: Flow, s: Sys, k: nat, n: NodeId) {
    k <= |s.starts| && forall j :: k <= j < |s.starts| ==> s.starts[j] != n && !WaitsFor(flow, s.starts[j], n)
  }

  lemma UnresolvedBefore(acts: seq<Action>, i: nat, n: NodeId)
    requires acts != [] && UnresolvedFrom(acts, i, n)
    ensures UnresolvedFrom(acts[..|acts| - 1], i, n)
  {
  }

  lemma DoubtStep(flow: Flow, s: Sys, a: Action, k: nat, n: NodeId)
    requires Inv(flow, s) && Enabled(flow, s, a) && IsStatus(s.db, n, Uncertain) && NotStarted(flow, s, k, n)
    requires a.Do? ==> !Resolves(a.tx, n)
    ensures IsStatus(Apply(flow, s, a).db, n, Uncertain) && NotStarted(flow, Apply(flow, s, a), k, n)
  {
    if !a.Do? {
      OutsideFrame(flow, s, a);
    } else if LeaseLive(s.db.run, s.session.value.lease, s.now) {
      DoubtStays(flow, s, a.tx, n);
      DoCommits(flow, s, a.tx);
      if a.tx.TxStart? && Waits(flow, a.tx.n) {
        StartAsksForNeeds(flow, s, a.tx.n);
      }
    } else {
      DoFrame(flow, s, a.tx);
    }
  }

  /**
   Over every run: a node that is uncertain at some moment stays so, is not started, and keeps what waits for it from
   starting, until it is reconciled, looped over, invalidated, or the run is cancelled.
   */
  lemma {:induction false} DoubtHoldsBack(flow: Flow, acts: seq<Action>, i: nat, n: NodeId)
    requires WellFormed(flow) && Run(flow, Initial(flow), acts) && i <= |acts|
    requires IsStatus(After(flow, Initial(flow), acts[..i]).db, n, Uncertain) && UnresolvedFrom(acts, i, n)
    ensures var s, t := After(flow, Initial(flow), acts[..i]), After(flow, Initial(flow), acts);
      IsStatus(t.db, n, Uncertain) && NotStarted(flow, t, |s.starts|, n)
    decreases |acts|
  {
    if i == |acts| {
      assert acts[..i] == acts;
    } else {
      var before := acts[..|acts| - 1];
      assert before[..i] == acts[..i];
      UnresolvedBefore(acts, i, n);
      DoubtHoldsBack(flow, before, i, n);
      InvRun(flow, before);
      DoubtStep(flow, After(flow, Initial(flow), before), acts[|acts| - 1],
                |After(flow, Initial(flow), acts[..i]).starts|, n);
    }
  }
}
