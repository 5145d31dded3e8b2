/**
 What a run never takes back, however often it crashes, is taken over, loops or repairs: a settled
 attempt, a deadline, a terminal join decision, a remote binding.
 */
module History {
  import opened Prelude
  import opened Workflow
  import opened Store
  import opened Invariants
  import opened Runs
  import opened RunInvariants

  /** Attempts settled before are settled the same way after. */
  ghost predicate AttemptsKept(db: Db, later: Db) {
    forall k :: k in db.attempts ==>
      k in later.attempts && (!db.attempts[k].status.AttemptRunning? ==> later.attempts[k] == db.attempts[k])
  }

  /** A progress budget starts once: its deadline is never moved, not even by a resume. */
  ghost predicate DeadlinesKept(db: Db, later: Db) {
    forall n :: n in db.progress ==>
      n in later.progress
      && (db.progress[n].deadlineAt.Some? && db.progress[n].startedAt.Some? ==>
            && later.progress[n].deadlineAt == db.progress[n].deadlineAt
            && later.progress[n].startedAt == db.progress[n].startedAt)
  }

  ghost predicate JoinsKept(db: Db, later: Db) {
    forall n :: n in db.control.joins && db.control.joins[n].decision != Waiting ==>
      n in later.control.joins && later.control.joins[n] == db.control.joins[n]
  }

  ghost predicate BindingsKept(db: Db, later: Db) {
    forall n :: n in db.attached.remote ==>
      n in later.attached.remote && later.attached.remote[n] == db.attached.remote[n]
  }

  ghost predicate Kept(s: Sys, later: Sys) {
    && AttemptsKept(s.db, later.db)
    && DeadlinesKept(s.db, later.db)
    && JoinsKept(s.db, later.db)
    && BindingsKept(s.db, later.db)
    && s.starts <= later.starts
    && s.db.run.generation <= later.db.run.generation
  }

  lemma CommitKeepsAttempts(db: Db, tx: Tx, generation: nat, now: Time)
    requires Numbered(db)
    ensures AttemptsKept(db, Commit(db, tx, generation, now).0)
  {
  }

  lemma CommitKeepsDeadlines(db: Db, tx: Tx, generation: nat, now: Time)
    ensures DeadlinesKept(db, Commit(db, tx, generation, now).0)
  {
  }

  lemma CommitKeepsJoins(db: Db, tx: Tx, generation: nat, now: Time)
    ensures JoinsKept(db, Commit(db, tx, generation, now).0)
  {
  }

  lemma CommitKeepsBindings(db: Db, tx: Tx, generation: nat, now: Time)
    ensures BindingsKept(db, Commit(db, tx, generation, now).0)
  {
  }

  lemma DoKeeps(flow: Flow, s: Sys, tx: Tx)
    requires Inv(flow, s) && Enabled(flow, s, Do(tx))
    ensures Kept(s, DoTx(flow, s, tx))
  {
    var generation := s.session.value.lease.generation;
    CommitKeepsAttempts(s.db, tx, generation, s.now);
    CommitKeepsDeadlines(s.db, tx, generation, s.now);
    CommitKeepsJoins(s.db, tx, generation, s.now);
    CommitKeepsBindings(s.db, tx, generation, s.now);
    CommitFrame(s.db, tx, generation, s.now);
  }

  /** Leases and cancellation requests touch none of it. */
  lemma RunRowKeeps(s: Sys, later: Sys)
    requires later.db == s.db.(run := later.db.run) && later.starts == s.starts
    requires later.db.run.generation >= s.db.run.generation
    ensures Kept(s, later)
  {
  }

  lemma BindKeeps(s: Sys, n: NodeId, row: RemoteRow)
    ensures Kept(s, s.(db := BindRemote(s.db, n, row).0))
  {
  }

  lemma OthersMoveRunRow(flow: Flow, s: Sys, a: Action)
    requires !a.Do? && !a.Zombie? && !a.Bind?
    ensures var t := Apply(flow, s, a);
      t.db == s.db.(run := t.db.run) && t.starts == s.starts && t.db.run.generation >= s.db.run.generation
  {
    match a
    case Acquire(token, ttl, phase) => AcquireMovesRunRow(flow, s, token, ttl, phase);
    case _ =>
  }

  lemma AcquireMovesRunRow(flow: Flow, s: Sys, token: Token, ttl: Time, phase: Phase)
    ensures var t := Apply(flow, s, Acquire(token, ttl, phase));
      t.db == s.db.(run := t.db.run) && t.starts == s.starts && t.db.run.generation >= s.db.run.generation
  {
  }

  lemma StepKeeps(flow: Flow, s: Sys, a: Action)
    requires Inv(flow, s) && Enabled(flow, s, a)
    ensures Kept(s, Apply(flow, s, a))
  {
    match a
    case Do(tx) => DoKeeps(flow, s, tx);
    case Zombie(lease, tx) => ZombieIsHarmless(flow, s, lease, tx); RunRowKeeps(s, s);
    case Bind(n, row) => BindKeeps(s, n, row);
    case _ => OthersMoveRunRow(flow, s, a); RunRowKeeps(s, Apply(flow, s, a));
  }

  lemma KeptTransitive(s: Sys, t: Sys, u: Sys)
    requires Kept(s, t) && Kept(t, u)
    ensures Kept(s, u)
  {
  }

  /** Everything above, between any two moments of any run. */
  lemma {:induction false} RunKeeps(flow: Flow, acts: seq<Action>, i: nat)
    requires WellFormed(flow) && Run(flow, Initial(flow), acts) && i <= |acts|
    ensures Kept(After(flow, Initial(flow), acts[..i]), After(flow, Initial(flow), acts))
    decreases |acts|
  {
    if i == |acts| {
      assert acts[..i] == acts;
    } else {
      var before := acts[..|acts| - 1];
      assert before[..i] == acts[..i];
      RunKeeps(flow, before, i);
      var s, t := After(flow, Initial(flow), acts[..i]), After(flow, Initial(flow), before);
      InvRun(flow, before);
      StepKeeps(flow, t, acts[|acts| - 1]);
      KeptTransitive(s, t, After(flow, Initial(flow), acts));
    }
  }
}
