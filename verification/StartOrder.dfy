/**
 Dependency safety.  Every attempt of a node that waits for its needs starts when they have succeeded or
 optionally failed; without joins, loops and repairs the start order of the whole run linearizes the graph.
 */
module StartOrder {
  import opened Prelude
  import opened Graph
  import opened Workflow
  import opened Store
  import opened Joins
  import opened Invariants
  import opened Runs
  import opened RunInvariants

  ghost predicate JoinFree(flow: Flow) { forall n :: n in flow.nodes ==> flow.nodes[n].join.None? }

  /** Control never flows backwards: no joins, no loop-back edges, no repair rounds. */
  ghost predicate Forward(flow: Flow) {
    && JoinFree(flow)
    && forall n :: n in flow.nodes ==> flow.nodes[n].loop.None? && flow.nodes[n].repair.None?
  }

  /** A node that waits for its needs: it has no join, and it is no voter whom a decided quorum launches regardless. */
  ghost predicate Waits(flow: Flow, n: NodeId) {
    && n in flow.nodes && flow.nodes[n].join.None?
    && forall c :: c in flow.nodes && flow.nodes[c].join.Some? && IsQuorum(flow.nodes[c].join.value) ==> n !in flow.nodes[c].needs
  }

  /** What the guard of a start asks of such a node. */
  lemma StartAsksForNeeds(flow: Flow, s: Sys, n: NodeId)
    requires Waits(flow, n) && Enabled(flow, s, Do(TxStart(n)))
    ensures forall d :: d in flow.nodes[n].needs ==> d in s.db.nodes && Good(s.db.nodes[d].status)
  {
    assert forall c :: c in flow.nodes ==> !ReserveOf(flow, s.db, c, n);
  }

  /** The `i`-th attempt of the run found all needs of its node met. */
  predicate FoundMet(flow: Flow, s: Sys, i: nat)
    requires i < |s.starts| && i < |s.found|
  {
    && s.starts[i] in flow.nodes && s.found[i].Keys == flow.nodes[s.starts[i]].needs
    && forall d :: d in s.found[i] ==> Good(s.found[i][d])
  }

  ghost predicate NeedsWereMet(flow: Flow, s: Sys) {
    |s.found| == |s.starts| && forall i :: 0 <= i < |s.starts| && Waits(flow, s.starts[i]) ==> FoundMet(flow, s, i)
  }

  lemma StartFindsNeedsMet(flow: Flow, s: Sys, tx: Tx)
    requires NeedsWereMet(flow, s) && Enabled(flow, s, Do(tx)) && LeaseLive(s.db.run, s.session.value.lease, s.now)
    ensures NeedsWereMet(flow, DoTx(flow, s, tx))
  {
    var t := DoTx(flow, s, tx);
    DoCommits(flow, s, tx);
    if tx.TxStart? && |t.starts| > |s.starts| && Waits(flow, tx.n) {
      StartAsksForNeeds(flow, s, tx.n);
      assert t.found[|s.starts|] == NeedStatuses(flow, s.db, tx.n);
      assert FoundMet(flow, t, |s.starts|);
    }
    forall i | 0 <= i < |s.starts| && Waits(flow, s.starts[i]) ensures FoundMet(flow, t, i) {
      assert FoundMet(flow, s, i) && t.starts[i] == s.starts[i] && t.found[i] == s.found[i];
    }
  }

  lemma NeedsMetStep(flow: Flow, s: Sys, a: Action)
    requires NeedsWereMet(flow, s) && Enabled(flow, s, a)
    ensures NeedsWereMet(flow, Apply(flow, s, a))
  {
    var t := Apply(flow, s, a);
    if a.Do? && LeaseLive(s.db.run, s.session.value.lease, s.now) {
      StartFindsNeedsMet(flow, s, a.tx);
    } else {
      if a.Do? { DoFrame(flow, s, a.tx); } else { OutsideFrame(flow, s, a); }
      forall i | 0 <= i < |s.starts| && Waits(flow, s.starts[i]) ensures FoundMet(flow, t, i) {
        assert FoundMet(flow, s, i);
      }
    }
  }

  /**
   Over every run of any workflow, with joins elsewhere, loops, repairs, crashes and takeovers: every attempt of a node
   that waits for its needs started when all of them had succeeded or optionally failed.
   */
  lemma {:induction false} StartsWhenNeedsAreMet(flow: Flow, acts: seq<Action>)
    requires Run(flow, Initial(flow), acts)
    ensures NeedsWereMet(flow, After(flow, Initial(flow), acts))
    decreases |acts|
  {
    if acts != [] {
      StartsWhenNeedsAreMet(flow, acts[..|acts| - 1]);
      NeedsMetStep(flow, After(flow, Initial(flow), acts[..|acts| - 1]), acts[|acts| - 1]);
    }
  }

  /** In a workflow without joins that is every attempt. */
  lemma JoinFreeNodesWait(flow: Flow, n: NodeId)
    requires JoinFree(flow) && n in flow.nodes
    ensures Waits(flow, n)
  {
  }

  /** `d` has run and can never become pending again. */
  predicate Over(s: Sys, d: NodeId) {
    && d in s.db.nodes && s.db.nodes[d].attemptCount >= 1
    && !s.db.nodes[d].status.Pending? && !s.db.nodes[d].status.Running? && !s.db.nodes[d].status.Uncertain?
    && (s.session.Some? && s.session.value.todo.Some? ==> s.session.value.todo.value.0 != d)
  }

  ghost predicate NeedsOver(flow: Flow, s: Sys, a: NodeId) {
    a in flow.nodes && Attempts(s.db, a) >= 1 ==> forall d :: d in flow.nodes[a].needs ==> Over(s, d)
  }

  /** Statuses a pass can still write over the failure of a node it has read as pending. */
  predicate Closing(s: Status) { s.Blocked? || s.Skipped? }

  /** What the guards of a forward workflow rule out. */
  lemma ForwardGuard(flow: Flow, s: Sys, tx: Tx, d: NodeId)
    requires Forward(flow) && s.session.Some? && Guard(flow, s.db, s.session.value, tx) && Over(s, d)
    ensures !tx.TxLoop? && !tx.TxRepair? && (tx.TxStatus? && tx.n == d ==> Closing(tx.status))
  {
  }

  /** What is left to write always concerns the node whose failure was just recorded. */
  lemma TodoNames(flow: Flow, db: Db, sess: Session, tx: Tx, now: Time)
    requires sess.todo.Some? ==> tx.TxStatus?
    ensures var (later, reply) := Commit(db, tx, sess.lease.generation, now);
            var todo := Remember(flow, sess, tx, reply).todo;
            todo.Some? ==> tx.TxFinish? && todo.value.0 == tx.n && IsStatus(db, tx.n, Running)
  {
  }

  /** A finished node stays finished through every transaction of a forward workflow. */
  lemma OverStays(flow: Flow, s: Sys, tx: Tx, d: NodeId)
    requires Forward(flow) && s.session.Some? && Guard(flow, s.db, s.session.value, tx) && Over(s, d)
    requires LeaseLive(s.db.run, s.session.value.lease, s.now)
    ensures Over(DoTx(flow, s, tx), d)
  {
    var sess := s.session.value;
    ForwardGuard(flow, s, tx, d);
    CommitCounts(s.db, tx, sess.lease.generation, s.now);
    OverRow(s.db, tx, sess.lease.generation, s.now, d);
    TodoNames(flow, s.db, sess, tx, s.now);
    DoCommits(flow, s, tx);
  }

  /** The row behind it: only loops, repairs and a status written by hand reopen a settled row. */
  lemma OverRow(db: Db, tx: Tx, generation: nat, now: Time, d: NodeId)
    requires d in db.nodes && !tx.TxLoop? && !tx.TxRepair?
    requires var st := db.nodes[d].status; !st.Pending? && !st.Running? && !st.Uncertain?
    requires tx.TxStatus? && tx.n == d ==> Closing(tx.status)
    ensures var later := Commit(db, tx, generation, now).0;
            d in later.nodes && (var st := later.nodes[d].status; !st.Pending? && !st.Running? && !st.Uncertain?)
  {
  }

  /** Every started node has its needs behind it, and every entry of the start log is a started node. */
  ghost predicate InOrder(flow: Flow, s: Sys) {
    && (forall a :: a in flow.nodes ==> NeedsOver(flow, s, a))
    && (forall i :: 0 <= i < |s.starts| ==> s.starts[i] in flow.nodes && Attempts(s.db, s.starts[i]) >= 1)
    && (forall i, j :: 0 <= i < j < |s.starts| ==> !Ancestor(NeedsOf(flow), s.starts[j], s.starts[i]))
  }

  /** Whatever a started node transitively needs is over. */
  lemma {:induction false} AncestorsOver(flow: Flow, s: Sys, p: seq<NodeId>, d: NodeId, a: NodeId)
    requires WellFormed(flow) && forall x :: x in flow.nodes ==> NeedsOver(flow, s, x)
    requires Connects(NeedsOf(flow), p, d, a) && Attempts(s.db, a) >= 1
    ensures Over(s, d)
    decreases |p|
  {
    var m := p[|p| - 2];
    assert p[|p| - 1] == a && m in NeedsOf(flow)[a] && NeedsOver(flow, s, a);
    if |p| > 2 {
      assert Connects(NeedsOf(flow), p[..|p| - 1], d, m);
      AncestorsOver(flow, s, p[..|p| - 1], d, m);
    }
  }

  lemma GoodIsOver(flow: Flow, s: Sys, d: NodeId)
    requires Inv(flow, s) && d in s.db.nodes && Good(s.db.nodes[d].status)
    requires s.session.Some? && s.session.value.todo.None?
    ensures Over(s, d)
  {
    assert NodeInv(s.db, s.published, d);
  }

  lemma StartNeedsOver(flow: Flow, s: Sys, n: NodeId)
    requires WellFormed(flow) && Inv(flow, s) && Forward(flow) && Enabled(flow, s, Do(TxStart(n)))
    ensures n in flow.nodes && forall d :: d in flow.nodes[n].needs ==> Over(s, d)
  {
    JoinFreeNodesWait(flow, n);
    StartAsksForNeeds(flow, s, n);
    forall d | d in flow.nodes[n].needs ensures Over(s, d) {
      GoodIsOver(flow, s, d);
    }
  }

  lemma StartKeepsOrder(flow: Flow, s: Sys, n: NodeId, i: nat)
    requires WellFormed(flow) && InOrder(flow, s) && i < |s.starts| && IsStatus(s.db, n, Pending)
    ensures !Ancestor(NeedsOf(flow), n, s.starts[i])
  {
    if p :| Connects(NeedsOf(flow), p, n, s.starts[i]) {
      AncestorsOver(flow, s, p, n, s.starts[i]);
    }
  }

  lemma NeedsStep(flow: Flow, s: Sys, tx: Tx, a: NodeId)
    requires WellFormed(flow) && Inv(flow, s) && Forward(flow) && NeedsOver(flow, s, a) && Enabled(flow, s, Do(tx))
    requires LeaseLive(s.db.run, s.session.value.lease, s.now)
    ensures NeedsOver(flow, DoTx(flow, s, tx), a)
  {
    var t := DoTx(flow, s, tx);
    if a in flow.nodes && Attempts(t.db, a) >= 1 {
      CommitCounts(s.db, tx, s.session.value.lease.generation, s.now);
      DoCommits(flow, s, tx);
      if tx == TxStart(a) {
        StartNeedsOver(flow, s, a);
      }
      forall d | d in flow.nodes[a].needs ensures Over(t, d) {
        OverStays(flow, s, tx, d);
      }
    }
  }

  /** The log grows by the attempts that are started, and no attempt is taken back. */
  lemma StartsGrow(flow: Flow, s: Sys, tx: Tx)
    requires Enabled(flow, s, Do(tx)) && LeaseLive(s.db.run, s.session.value.lease, s.now)
    ensures var t := DoTx(flow, s, tx);
      && (forall n :: Attempts(t.db, n) >= Attempts(s.db, n))
      && (t.starts == s.starts
          || (tx.TxStart? && t.starts == s.starts + [tx.n] && IsStatus(s.db, tx.n, Pending) && Attempts(t.db, tx.n) >= 1))
  {
    DoCommits(flow, s, tx);
    CommitCounts(s.db, tx, s.session.value.lease.generation, s.now);
  }

  lemma StartLogStep(flow: Flow, s: Sys, tx: Tx)
    requires WellFormed(flow) && InOrder(flow, s) && Enabled(flow, s, Do(tx))
    requires LeaseLive(s.db.run, s.session.value.lease, s.now)
    ensures var t := DoTx(flow, s, tx);
      && (forall i :: 0 <= i < |t.starts| ==> t.starts[i] in flow.nodes && Attempts(t.db, t.starts[i]) >= 1)
      && (forall i, j :: 0 <= i < j < |t.starts| ==> !Ancestor(NeedsOf(flow), t.starts[j], t.starts[i]))
  {
    StartsGrow(flow, s, tx);
    if DoTx(flow, s, tx).starts != s.starts {
      forall i | 0 <= i < |s.starts| ensures !Ancestor(NeedsOf(flow), tx.n, s.starts[i]) {
        StartKeepsOrder(flow, s, tx.n, i);
      }
    }
  }

  lemma DoKeepsOrder(flow: Flow, s: Sys, tx: Tx)
    requires WellFormed(flow) && Inv(flow, s) && Forward(flow) && InOrder(flow, s) && Enabled(flow, s, Do(tx))
    requires LeaseLive(s.db.run, s.session.value.lease, s.now)
    ensures InOrder(flow, DoTx(flow, s, tx))
  {
    StartLogStep(flow, s, tx);
    forall a | a in flow.nodes ensures NeedsOver(flow, DoTx(flow, s, tx), a) {
      NeedsStep(flow, s, tx, a);
    }
  }

  lemma OrderStep(flow: Flow, s: Sys, a: Action)
    requires WellFormed(flow) && Inv(flow, s) && Forward(flow) && InOrder(flow, s) && Enabled(flow, s, a)
    ensures InOrder(flow, Apply(flow, s, a))
  {
    var t := Apply(flow, s, a);
    if a.Do? && LeaseLive(s.db.run, s.session.value.lease, s.now) {
      DoKeepsOrder(flow, s, a.tx);
    } else {
      if a.Do? { DoFrame(flow, s, a.tx); } else { OutsideFrame(flow, s, a); }
      assert a.Acquire? ==> t.session == s.session || t.session.value.todo.None?;
      forall x | x in flow.nodes ensures NeedsOver(flow, t, x) {
        assert NeedsOver(flow, s, x);
      }
    }
  }

  /** Over the whole run, with any crashes, takeovers and retries, no node starts after one that needs it. */
  lemma {:induction false} StartsLinearizeTheGraph(flow: Flow, acts: seq<Action>)
    requires WellFormed(flow) && Forward(flow) && Run(flow, Initial(flow), acts)
    ensures InOrder(flow, After(flow, Initial(flow), acts))
    decreases |acts|
  {
    if acts != [] {
      var before := acts[..|acts| - 1];
      StartsLinearizeTheGraph(flow, before);
      InvRun(flow, before);
      OrderStep(flow, After(flow, Initial(flow), before), acts[|acts| - 1]);
    }
  }
}
