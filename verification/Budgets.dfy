/** The progress budget of a node over whole runs: what was declared, counted from the first start. */
module Budgets {
  import opened Prelude
  import opened Workflow
  import opened Store
  import opened Runs

  /** The time a node has: what it declares; else what its attempts may take, but no more than the workflow may. */
  predicate IsSpan(flow: Flow, node: NodeSpec, span: nat) {
    match node.progress.maxElapsed
    case Some(declared) => span == declared
    case None =>
      match node.timeout
      case None => span == flow.budgets.timeout
      case Some(each) =>
        var attempts := if node.retry.maxAttempts.Some? then node.retry.maxAttempts.value else 1;
        && span <= flow.budgets.timeout && span <= each * attempts
        && (span == flow.budgets.timeout || span == each * attempts)
  }

  predicate RowDeclared(flow: Flow, n: NodeId, row: ProgressRow)
    requires n in flow.nodes
  {
    var node := flow.nodes[n];
    && IsSpan(flow, node, row.maxElapsed) && row.maxChecks == node.progress.maxChecks
    && row.noProgressLimit == (match node.retry.noProgressLimit case Some(limit) => limit case None => 1)
    && (match row.startedAt
        case None => row.deadlineAt.None?
        case Some(start) => row.deadlineAt == Some(start + row.maxElapsed))
  }

  ghost predicate BudgetsDeclared(flow: Flow, db: Db) {
    forall n :: n in flow.nodes ==>
      n in db.progress && RowDeclared(flow, n, db.progress[n]) && n in db.nodes && db.nodes[n].required == flow.nodes[n].required
  }

  /** Whether a node is required is settled when the run is created. */
  lemma CommitKeepsRequired(db: Db, tx: Tx, generation: nat, now: Time)
    ensures var later := Commit(db, tx, generation, now).0;
      forall n :: n in db.nodes ==> n in later.nodes && later.nodes[n].required == db.nodes[n].required
  {
  }

  /** What no transaction changes in a progress row, but for the first start. */
  predicate SameBudget(row: ProgressRow, later: ProgressRow) {
    && later.maxElapsed == row.maxElapsed && later.maxChecks == row.maxChecks && later.noProgressLimit == row.noProgressLimit
    && ((later.startedAt == row.startedAt && later.deadlineAt == row.deadlineAt)
        || (row.startedAt.None? && later.startedAt.Some? && later.deadlineAt == Some(later.startedAt.value + row.maxElapsed)))
  }

  lemma CommitKeepsBudgets(db: Db, tx: Tx, generation: nat, now: Time)
    ensures var later := Commit(db, tx, generation, now).0;
      forall n :: n in db.progress ==> n in later.progress && SameBudget(db.progress[n], later.progress[n])
  {
  }

  lemma SameBudgetDeclared(flow: Flow, db: Db, later: Db)
    requires BudgetsDeclared(flow, db)
    requires forall n :: n in db.progress ==> n in later.progress && SameBudget(db.progress[n], later.progress[n])
    requires forall n :: n in db.nodes ==> n in later.nodes && later.nodes[n].required == db.nodes[n].required
    ensures BudgetsDeclared(flow, later)
  {
    forall n | n in flow.nodes
      ensures n in later.progress && RowDeclared(flow, n, later.progress[n])
      ensures n in later.nodes && later.nodes[n].required == flow.nodes[n].required
    {
      assert RowDeclared(flow, n, db.progress[n]) && SameBudget(db.progress[n], later.progress[n]);
    }
  }

  lemma DoStep(flow: Flow, s: Sys, tx: Tx)
    requires BudgetsDeclared(flow, s.db) && s.session.Some? && LeaseLive(s.db.run, s.session.value.lease, s.now)
    ensures BudgetsDeclared(flow, DoTx(flow, s, tx).db)
  {
    var generation := s.session.value.lease.generation;
    CommitKeepsBudgets(s.db, tx, generation, s.now);
    CommitKeepsRequired(s.db, tx, generation, s.now);
    SameBudgetDeclared(flow, s.db, Commit(s.db, tx, generation, s.now).0);
    DoCommits(flow, s, tx);
  }

  lemma BudgetsStep(flow: Flow, s: Sys, a: Action)
    requires BudgetsDeclared(flow, s.db) && Enabled(flow, s, a)
    ensures BudgetsDeclared(flow, Apply(flow, s, a).db)
  {
    if !a.Do? {
      OutsideFrame(flow, s, a);
    } else if LeaseLive(s.db.run, s.session.value.lease, s.now) {
      DoStep(flow, s, a.tx);
    } else {
      DoFrame(flow, s, a.tx);
    }
  }

  lemma CreatedDeclared(flow: Flow)
    ensures BudgetsDeclared(flow, CreateRun(flow))
  {
    forall n | n in flow.nodes ensures RowDeclared(flow, n, CreateRun(flow).progress[n]) {}
  }

  /**
   Over every run, resumed and recovered any number of times, every node has the budget it declares, is required if it is
   declared to be, and has its deadline at its first start plus its span.
   */
  lemma {:induction false} BudgetsAreDeclared(flow: Flow, acts: seq<Action>)
    requires Run(flow, Initial(flow), acts)
    ensures BudgetsDeclared(flow, After(flow, Initial(flow), acts).db)
    decreases |acts|
  {
    if acts == [] {
      CreatedDeclared(flow);
    } else {
      BudgetsAreDeclared(flow, acts[..|acts| - 1]);
      BudgetsStep(flow, After(flow, Initial(flow), acts[..|acts| - 1]), acts[|acts| - 1]);
    }
  }

  /** An attempt starts only while the budget of its node runs: at its first start, or before the span has passed since. */
  lemma StartsInTime(flow: Flow, acts: seq<Action>, n: NodeId)
    requires Run(flow, Initial(flow), acts) && n in flow.nodes
    requires var s := After(flow, Initial(flow), acts);
      Enabled(flow, s, Do(TxStart(n))) && |DoTx(flow, s, TxStart(n)).starts| > |s.starts|
    ensures var s := After(flow, Initial(flow), acts);
      var row, later := s.db.progress[n], DoTx(flow, s, TxStart(n)).db.progress[n];
      && later.startedAt == Some(if row.startedAt.Some? then row.startedAt.value else s.now)
      && (row.startedAt.Some? ==> s.now < row.startedAt.value + row.maxElapsed)
  {
    BudgetsAreDeclared(flow, acts);
  }
}
