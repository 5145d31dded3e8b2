/**
 What becomes of a terminal join decision when dependencies that have settled are reopened again, or fail
 after all: it is still the decision of the rows exactly when enough evidence for it is left.
 */
module JoinReopening {
  import opened Prelude
  import opened Workflow
  import opened Store
  import opened Joins

  /** The dependencies in `reopened` are pending again, the others are as they were. */
  ghost predicate Reopens(needs: set<NodeId>, rows: Rows, later: Rows, reopened: set<NodeId>) {
    && needs <= rows.Keys && needs <= later.Keys
    && forall d :: d in needs ==>
         later[d].required == rows[d].required && later[d].status == if d in reopened then Pending else rows[d].status
  }

  /** The dependency `c` has failed after all, the others are as they were. */
  ghost predicate Fails(needs: set<NodeId>, rows: Rows, later: Rows, c: NodeId) {
    && needs <= rows.Keys && needs <= later.Keys
    && forall d :: d in needs ==>
         later[d].required == rows[d].required && later[d].status == if d == c then Failed else rows[d].status
  }

  /** A dependency that alone makes a join over `all` fail. */
  predicate Sinks(row: NodeRow) { Bad(row.status) || (row.status.OptionalFailed? && row.required) }

  /** Whether a terminal decision outlives the reopening: the evidence left still forces it. */
  predicate OutlivesReopening(policy: Policy, needs: set<NodeId>, rows: Rows, reopened: set<NodeId>)
    requires needs <= rows.Keys
  {
    var join := Snapshot(policy, needs, rows);
    match policy
    case All =>
      if join.decision == JoinFailed then exists e :: e in needs && e !in reopened && Sinks(rows[e])
      else needs !! reopened
    case AllSettled => needs !! reopened
    case _ =>
      var lost := |With(needs * reopened, rows, Succeeded)|;
      var unsettled := |SettledIn(needs * reopened, rows)|;
      if join.passed >= join.threshold then join.passed - lost >= join.threshold
      else join.passed - lost + join.missing + unsettled < join.threshold
  }

  /** Whether a terminal decision outlives the failure of `c`. */
  predicate OutlivesFailure(policy: Policy, needs: set<NodeId>, rows: Rows, c: NodeId)
    requires needs <= rows.Keys
  {
    var join := Snapshot(policy, needs, rows);
    c in needs && join.decision == JoinSucceeded ==>
      match policy
      case All => false
      case AllSettled => true
      case _ => join.passed - (if rows[c].status.Succeeded? then 1 else 0) >= join.threshold
  }

  lemma ReopenedCounts(needs: set<NodeId>, rows: Rows, later: Rows, reopened: set<NodeId>)
    requires Reopens(needs, rows, later, reopened)
    ensures |With(needs, later, Succeeded)| == |With(needs, rows, Succeeded)| - |With(needs * reopened, rows, Succeeded)|
    ensures |SettledIn(needs, later)| == |SettledIn(needs, rows)| - |SettledIn(needs * reopened, rows)|
  {
    assert With(needs, rows, Succeeded) == With(needs, later, Succeeded) + With(needs * reopened, rows, Succeeded);
    assert With(needs, later, Succeeded) !! With(needs * reopened, rows, Succeeded);
    assert SettledIn(needs, rows) == SettledIn(needs, later) + SettledIn(needs * reopened, rows);
    assert SettledIn(needs, later) !! SettledIn(needs * reopened, rows);
  }

  lemma LostAreSettled(needs: set<NodeId>, rows: Rows, reopened: set<NodeId>)
    requires needs <= rows.Keys
    ensures |With(needs * reopened, rows, Succeeded)| <= |SettledIn(needs * reopened, rows)| <= |needs|
  {
    Within(With(needs * reopened, rows, Succeeded), SettledIn(needs * reopened, rows));
    Within(SettledIn(needs * reopened, rows), needs);
  }

  /** The decision over `all` after a reopening. */
  lemma AllAfterReopening(needs: set<NodeId>, rows: Rows, later: Rows, reopened: set<NodeId>)
    requires Reopens(needs, rows, later, reopened) && Snapshot(All, needs, rows).decision != Waiting
    ensures Snapshot(All, needs, later).decision == Snapshot(All, needs, rows).decision
            <==> OutlivesReopening(All, needs, rows, reopened)
  {
    if Snapshot(All, needs, rows).decision == JoinFailed {
      if e :| e in needs && e !in reopened && Sinks(rows[e]) {
        assert Sinks(later[e]);
      } else {
        assert forall d :: d in needs ==> !Sinks(later[d]);
      }
    } else if d :| d in needs && d in reopened {
      assert !Good(later[d].status);
    }
  }

  lemma AllSettledAfterReopening(needs: set<NodeId>, rows: Rows, later: Rows, reopened: set<NodeId>)
    requires Reopens(needs, rows, later, reopened) && Snapshot(AllSettled, needs, rows).decision != Waiting
    ensures Snapshot(AllSettled, needs, later).decision == Snapshot(AllSettled, needs, rows).decision
            <==> OutlivesReopening(AllSettled, needs, rows, reopened)
  {
    UnsettledIsRest(needs, later);
    if d :| d in needs && d in reopened {
      assert d in Unsettled(needs, later);
    } else {
      assert SettledIn(needs, later) == SettledIn(needs, rows);
    }
  }

  /** A terminal decision is still the decision after a reopening if and only if it outlives it. */
  lemma ReopeningIsExact(policy: Policy, needs: set<NodeId>, rows: Rows, later: Rows, reopened: set<NodeId>)
    requires Reopens(needs, rows, later, reopened) && Snapshot(policy, needs, rows).decision != Waiting
    ensures Snapshot(policy, needs, later).decision == Snapshot(policy, needs, rows).decision
            <==> OutlivesReopening(policy, needs, rows, reopened)
  {
    if policy.All? {
      AllAfterReopening(needs, rows, later, reopened);
    } else if policy.AllSettled? {
      AllSettledAfterReopening(needs, rows, later, reopened);
    } else {
      ReopenedCounts(needs, rows, later, reopened);
      LostAreSettled(needs, rows, reopened);
    }
  }

  lemma FailedWith(needs: set<NodeId>, rows: Rows, later: Rows, c: NodeId)
    requires Fails(needs, rows, later, c)
    ensures |With(needs, later, Succeeded)|
            == |With(needs, rows, Succeeded)| - (if c in needs && rows[c].status.Succeeded? then 1 else 0)
  {
    if c in needs && rows[c].status.Succeeded? {
      assert With(needs, rows, Succeeded) == With(needs, later, Succeeded) + {c};
    } else {
      assert With(needs, rows, Succeeded) == With(needs, later, Succeeded);
    }
  }

  lemma FailedCounts(needs: set<NodeId>, rows: Rows, later: Rows, c: NodeId)
    requires Fails(needs, rows, later, c)
    ensures |With(needs, later, Succeeded)|
            == |With(needs, rows, Succeeded)| - (if c in needs && rows[c].status.Succeeded? then 1 else 0)
    ensures |SettledIn(needs, later)|
            == |SettledIn(needs, rows)| + (if c in needs && !Terminal(rows[c].status) then 1 else 0)
  {
    FailedWith(needs, rows, later, c);
    if c in needs && !Terminal(rows[c].status) {
      assert SettledIn(needs, later) == SettledIn(needs, rows) + {c};
    } else {
      assert SettledIn(needs, later) == SettledIn(needs, rows);
    }
  }

  lemma SinksStill(row: NodeRow, later: NodeRow, fails: bool)
    requires Sinks(row) && later.required == row.required && later.status == if fails then Failed else row.status
    ensures Sinks(later)
  {
  }

  lemma AllAfterFailure(needs: set<NodeId>, rows: Rows, later: Rows, c: NodeId)
    requires Fails(needs, rows, later, c) && Snapshot(All, needs, rows).decision != Waiting
    ensures Snapshot(All, needs, later).decision == Snapshot(All, needs, rows).decision
            <==> OutlivesFailure(All, needs, rows, c)
  {
    if Snapshot(All, needs, rows).decision == JoinFailed {
      var e :| e in needs && Sinks(rows[e]);
      SinksStill(rows[e], later[e], e == c);
    } else if c in needs {
      assert Sinks(later[c]);
    }
  }

  /** The same for a dependency that fails after all. */
  lemma FailureIsExact(policy: Policy, needs: set<NodeId>, rows: Rows, later: Rows, c: NodeId)
    requires Fails(needs, rows, later, c) && Snapshot(policy, needs, rows).decision != Waiting
    ensures Snapshot(policy, needs, later).decision == Snapshot(policy, needs, rows).decision
            <==> OutlivesFailure(policy, needs, rows, c)
  {
    if policy.All? {
      AllAfterFailure(needs, rows, later, c);
    } else {
      FailedCounts(needs, rows, later, c);
      CountsFit(needs, later);
      CountsFit(needs, rows);
    }
  }
}
