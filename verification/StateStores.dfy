/**
 The store as the object the scheduler drives: tables that its methods rewrite in place, one method per
 transaction.  Each method is proved to do to the tables exactly what the transaction of the same name
 in `Store` says, and to leave them alone when it answers with an error.
 */
module StateStores {
  import opened Prelude
  import opened Graph
  import opened Workflow
  import opened Store

  /** A loop over a set: what has been visited and what has not. */
  ghost predicate Partition(all: set<NodeId>, done: set<NodeId>, rest: set<NodeId>) {
    forall x :: (x in all <==> x in done || x in rest) && !(x in done && x in rest)
  }

  lemma MoveOne(all: set<NodeId>, done: set<NodeId>, rest: set<NodeId>, x: NodeId)
    requires Partition(all, done, rest) && x in rest
    ensures Partition(all, done + {x}, rest - {x}) && x in all && x !in done && |rest - {x}| < |rest|
  {
    assert rest == (rest - {x}) + {x};
  }

  lemma AllDone(all: set<NodeId>, done: set<NodeId>)
    requires Partition(all, done, {})
    ensures done == all
  {
  }

  /** Rows after the repair statements have reached the nodes of `done`. */
  function Repend(nodes: map<NodeId, NodeRow>, done: set<NodeId>): map<NodeId, NodeRow> {
    map m | m in nodes :: if m in done then nodes[m].(status := Pending) else nodes[m]
  }

  function Attach(inputs: map<NodeId, RepairInput>, targets: map<NodeId, RepairOrder>, done: set<NodeId>)
    : map<NodeId, RepairInput>
  {
    inputs + map t | t in targets && t in done :: RepairInput(targets[t].input, targets[t].digest)
  }

  lemma NothingDone(nodes: map<NodeId, NodeRow>, artifacts: map<NodeId, Outputs>, inputs: map<NodeId, RepairInput>,
                    targets: map<NodeId, RepairOrder>)
    ensures Repend(nodes, {}) == nodes && artifacts - {} == artifacts && Attach(inputs, targets, {}) == inputs
  {
  }

  lemma ReopenOne(nodes: map<NodeId, NodeRow>, artifacts: map<NodeId, Outputs>, inputs: map<NodeId, RepairInput>,
                  targets: map<NodeId, RepairOrder>, done: set<NodeId>, t: NodeId)
    requires t in nodes && t in targets && t !in done
    ensures Repend(nodes, done + {t}) == Repend(nodes, done)[t := Repend(nodes, done)[t].(status := Pending)]
    ensures artifacts - (done + {t}) == artifacts - done - {t}
    ensures Attach(inputs, targets, done + {t})
            == (Attach(inputs, targets, done) - {t})[t := RepairInput(targets[t].input, targets[t].digest)]
  {
  }

  lemma RepairedRows(nodes: map<NodeId, NodeRow>, artifacts: map<NodeId, Outputs>, inputs: map<NodeId, RepairInput>,
                     targets: map<NodeId, RepairOrder>, n: NodeId)
    requires n in nodes
    ensures Repend(nodes, targets.Keys)[n := Repend(nodes, targets.Keys)[n].(status := Pending)]
            == map m | m in nodes :: if m in targets || m == n then nodes[m].(status := Pending) else nodes[m]
    ensures Attach(inputs, targets, targets.Keys)
            == inputs + map t | t in targets :: RepairInput(targets[t].input, targets[t].digest)
  {
  }

  /** Rows after the recovery loop has reached the running nodes of `done`. */
  function InterruptedRows(nodes: map<NodeId, NodeRow>, replaySafe: set<NodeId>, done: set<NodeId>): map<NodeId, NodeRow> {
    map n | n in nodes ::
      if n in done then Reopened(nodes[n]).(status := if n in replaySafe then Pending else Uncertain) else nodes[n]
  }

  lemma InterruptOne(nodes: map<NodeId, NodeRow>, replaySafe: set<NodeId>, done: set<NodeId>, n: NodeId)
    requires n in nodes && n !in done
    ensures var rows := InterruptedRows(nodes, replaySafe, done);
      InterruptedRows(nodes, replaySafe, done + {n}) == rows[n := rows[n].(
        status := if n in replaySafe then Pending else Uncertain, activeAttempt := None, activeGeneration := None)]
  {
  }

  class StateStore {
    var run: RunRow
    var nodes: map<NodeId, NodeRow>
    var attempts: map<AttemptKey, AttemptRow>
    var artifacts: map<NodeId, Outputs>
    var progress: map<NodeId, ProgressRow>
    var joins: map<NodeId, JoinRow>
    var routes: map<NodeId, RouteRow>
    var loops: map<NodeId, LoopRow>
    var repairs: map<RouteKey, RepairRow>
    var repairInputs: map<NodeId, RepairInput>
    var remote: map<NodeId, RemoteRow>

    function Tables(): Db
      reads this
    {
      Db(run, nodes, attempts, artifacts, progress, Control(joins, routes, loops), Attached(repairs, repairInputs, remote))
    }

    /** `create_run` */
    constructor (flow: Flow)
      ensures Tables() == CreateRun(flow)
    {
      run := RunRow(RunRunning, false, None, 0, None);
      nodes := map n | n in flow.nodes :: NodeRow(Pending, flow.nodes[n].required, 0, None, 0, None, None);
      progress := map n | n in flow.nodes ::
        ProgressRow(ElapsedBudget(flow, flow.nodes[n]), flow.nodes[n].progress.maxChecks,
                    NoProgressLimit(flow.nodes[n]), None, None, 0, None, None, false, None, false, 0,
                    None, None, 0, Continue);
      attempts, artifacts := map[], map[];
      joins, routes, loops := map[], map[], map[];
      repairs, repairInputs, remote := map[], map[], map[];
    }

    method Acquire(token: Token, ttl: Time, now: Time) returns (reply: Reply)
      modifies this
      ensures (run, reply) == AcquireLease(old(run), token, ttl, now)
      ensures Tables() == old(Tables()).(run := run)
    {
      if ttl <= 0 { return Rejected; }
      var live := Expiry(run) > now;
      if run.ownerToken.Some? && run.ownerToken.value != token && live { return LeaseHeld; }
      var generation := if run.ownerToken == Some(token) && live then run.generation else run.generation + 1;
      run := run.(ownerToken := Some(token), generation := generation, expiresAt := Some(now + ttl));
      return Leased(RunLease(token, generation, ttl));
    }

    method Renew(lease: RunLease, now: Time) returns (reply: Reply)
      modifies this
      ensures (run, reply) == RenewLease(old(run), lease, now)
      ensures Tables() == old(Tables()).(run := run)
    {
      if && run.ownerToken == Some(lease.token) && run.generation == lease.generation
         && run.expiresAt.Some? && run.expiresAt.value > now
      {
        run := run.(expiresAt := Some(now + lease.ttl));
        return Done;
      }
      return LeaseLost;
    }

    method Release(lease: RunLease)
      modifies this
      ensures Tables() == old(Tables()).(run := ReleaseLease(old(run), lease))
    {
      if run.ownerToken == Some(lease.token) && run.generation == lease.generation {
        run := run.(ownerToken := None, expiresAt := None);
      }
    }

    method AdmitAttempt(n: NodeId, lease: RunLease, now: Time) returns (reply: Reply)
      modifies this
      ensures (Tables(), reply) == Exec(old(Tables()), TxAdmit(n), lease, now)
    {
      if !LeaseLive(run, lease, now) { return LeaseLost; }
      if n !in progress { return Rejected; }
      var row := progress[n];
      if !Overdue(row, now) && row.verdict != Stop { return Answer(true); }
      progress := progress[n := Halted(row, now)];
      if n in nodes && nodes[n].status.Pending? {
        nodes := nodes[n := nodes[n].(status := Failed)];
      }
      return Answer(false);
    }

    method StartAttempt(n: NodeId, lease: RunLease, now: Time) returns (reply: Reply)
      modifies this
      ensures (Tables(), reply) == Exec(old(Tables()), TxStart(n), lease, now)
    {
      if !LeaseLive(run, lease, now) { return LeaseLost; }
      if n !in nodes || !nodes[n].status.Pending? { return Stale; }
      if n !in progress { return Rejected; }
      var row, budget := nodes[n], progress[n];
      if Overdue(budget, now) {
        progress := progress[n := Halted(budget, now)];
        nodes := nodes[n := row.(status := Failed)];
        return Expired;
      }
      if budget.startedAt.None? {
        progress := progress[n := budget.(
          startedAt := Some(now), deadlineAt := Some(now + budget.maxElapsed), lastProgressAt := Some(now))];
      }
      var number := row.attemptCount + 1;
      nodes := nodes[n := row.(
        status := Running, attemptCount := number, activeAttempt := Some(number), activeGeneration := Some(lease.generation))];
      attempts := attempts[AttemptKey(n, number) := AttemptRow(AttemptRunning, lease.generation, now, None, None, None)];
      return Started(number);
    }

    /** `UPDATE attempts ... WHERE number=? AND status='running' AND owner_generation=?` */
    method Settle(n: NodeId, number: nat, generation: nat, status: AttemptStatus, digest: Digest,
                  failure: Option<Failure>, now: Time)
      modifies this`attempts
      ensures attempts == SettleRow(old(attempts), AttemptKey(n, number), generation, status, digest, failure, now)
    {
      var key := AttemptKey(n, number);
      if key in attempts && attempts[key].status.AttemptRunning? && attempts[key].generation == generation {
        attempts := attempts[key := attempts[key].(
          status := status, digest := Some(digest), failure := failure, finishedAt := Some(now))];
      }
    }

    method FinishAttempt(n: NodeId, number: nat, digest: Digest, failure: Option<Failure>, outputs: Outputs,
                         checks: Option<nat>, lease: RunLease, now: Time) returns (reply: Reply)
      modifies this
      ensures (Tables(), reply) == Exec(old(Tables()), TxFinish(n, number, digest, failure, outputs, checks), lease, now)
    {
      if !LeaseLive(run, lease, now) { return LeaseLost; }
      if !ActiveAttempt(Tables(), n, number, lease.generation) { return Stale; }
      if n !in progress || progress[n].startedAt.None? { return Rejected; }
      var row := nodes[n];
      var stalled := if row.lastDigest == Some(digest) then row.noProgress + 1 else 0;
      Settle(n, number, lease.generation, AttemptFailed, digest, failure, now);
      nodes := nodes[n := SettledNode(row, Failed, digest, stalled)];
      progress := progress[n := Observe(progress[n], outputs, Some(digest), checks, false, now)];
      return Settled(stalled, progress[n].verdict);
    }

    method SucceedAttempt(n: NodeId, number: nat, digest: Digest, outputs: Outputs, checks: Option<nat>,
                          lease: RunLease, now: Time) returns (reply: Reply)
      modifies this
      ensures (Tables(), reply) == Exec(old(Tables()), TxSucceed(n, number, digest, outputs, checks), lease, now)
    {
      if !LeaseLive(run, lease, now) { return LeaseLost; }
      if !ActiveAttempt(Tables(), n, number, lease.generation) { return Stale; }
      if n !in progress || progress[n].startedAt.None? { return Rejected; }
      ghost var before := artifacts;
      artifacts := artifacts - {n};
      artifacts := artifacts[n := outputs];
      assert artifacts == before[n := outputs];
      Settle(n, number, lease.generation, AttemptSucceeded, digest, None, now);
      nodes := nodes[n := SettledNode(nodes[n], Succeeded, digest, 0)];
      progress := progress[n := Observe(progress[n], outputs, None, checks, true, now)];
      return Done;
    }

    method SetNodeStatus(n: NodeId, status: Status, lease: RunLease, now: Time) returns (reply: Reply)
      modifies this
      ensures (Tables(), reply) == Exec(old(Tables()), TxStatus(n, status), lease, now)
    {
      if !LeaseLive(run, lease, now) { return LeaseLost; }
      if n !in nodes { return Rejected; }
      nodes := nodes[n := nodes[n].(status := status)];
      return Done;
    }

    method RecordRouteDecision(n: NodeId, source: Digest, matched: bool, lease: RunLease, now: Time)
      returns (reply: Reply)
      modifies this
      ensures (Tables(), reply) == Exec(old(Tables()), TxRoute(n, source, matched), lease, now)
    {
      if !LeaseLive(run, lease, now) { return LeaseLost; }
      if n in routes {
        if routes[n].source != source || routes[n].matched != matched { return Rejected; }
        return Answer(routes[n].matched);
      }
      if n !in nodes || !nodes[n].status.Pending? { return Rejected; }
      routes := routes[n := RouteRow(source, matched)];
      if !matched {
        nodes := nodes[n := nodes[n].(status := Skipped)];
      }
      return Answer(matched);
    }

    /** The statements of an exhausted loop. */
    method Exhaust(c: NodeId)
      modifies this`artifacts, this`nodes
      ensures Tables() == ExhaustLoop(old(Tables()), c)
    {
      artifacts := artifacts - {c};
      if c in nodes && nodes[c].status.Succeeded? {
        nodes := nodes[c := nodes[c].(status := Failed)];
      }
    }

    /** The statements of a continued loop, each over `node_id IN (region)`. */
    method Reopen(region: set<NodeId>)
      modifies this`artifacts, this`routes, this`nodes, this`progress
      ensures Tables() == ReopenRegion(old(Tables()), region)
    {
      artifacts := artifacts - region;
      routes := routes - region;
      nodes := map n | n in nodes :: if n in region then Reopened(nodes[n]) else nodes[n];
      progress := map n | n in progress ::
        if n in region then progress[n].(verdict := Continue) else progress[n];
    }

    method ApplyLoopDecision(c: NodeId, attempt: nat, matched: bool, maxIterations: nat, region: set<NodeId>,
                             lease: RunLease, now: Time) returns (reply: Reply)
      modifies this
      ensures (Tables(), reply) == Exec(old(Tables()), TxLoop(c, attempt, matched, maxIterations, region), lease, now)
    {
      if !LeaseLive(run, lease, now) { return LeaseLost; }
      if c in loops && loops[c].lastAttempt == attempt {
        if !loops[c].matched { return Looped(LoopComplete); }
        return Looped(if loops[c].iterations < maxIterations then LoopContinued else LoopExhausted);
      }
      if c in loops && loops[c].lastAttempt > attempt { return Rejected; }
      var iterations := if c in loops then loops[c].iterations + 1 else 1;
      loops := loops[c := LoopRow(iterations, attempt, matched)];
      assert Tables() == Checkpoint(old(Tables()), c, attempt, matched);
      if matched && iterations >= maxIterations {
        Exhaust(c);
        return Looped(LoopExhausted);
      } else if matched {
        Reopen(region);
        return Looped(LoopContinued);
      }
      return Looped(LoopComplete);
    }

    /** Every repair target must have succeeded and still have an attempt left. */
    method TargetsReady(targets: map<NodeId, RepairOrder>) returns (ready: bool)
      ensures ready <==> forall t :: t in targets ==>
        IsStatus(Tables(), t, Succeeded) && nodes[t].attemptCount < targets[t].attemptLimit
    {
      var rest := targets.Keys;
      while rest != {}
        invariant rest <= targets.Keys
        invariant forall t :: t in targets && t !in rest ==>
          IsStatus(Tables(), t, Succeeded) && nodes[t].attemptCount < targets[t].attemptLimit
        decreases |rest|
      {
        var t :| t in rest;
        rest := rest - {t};
        if t !in nodes || !nodes[t].status.Succeeded? || nodes[t].attemptCount >= targets[t].attemptLimit {
          return false;
        }
      }
      return true;
    }

    /** The per-target statements of a repair round: artifacts dropped, one repair input attached, pending again. */
    method ReopenTargets(targets: map<NodeId, RepairOrder>)
      requires targets.Keys <= nodes.Keys
      modifies this`artifacts, this`repairInputs, this`nodes
      ensures artifacts == old(artifacts) - targets.Keys
      ensures repairInputs == Attach(old(repairInputs), targets, targets.Keys)
      ensures nodes == Repend(old(nodes), targets.Keys)
    {
      var rest := targets.Keys;
      ghost var done: set<NodeId> := {};
      NothingDone(nodes, artifacts, repairInputs, targets);
      while rest != {}
        invariant Partition(targets.Keys, done, rest)
        invariant artifacts == old(artifacts) - done
        invariant repairInputs == Attach(old(repairInputs), targets, done)
        invariant nodes == Repend(old(nodes), done)
        decreases |rest|
      {
        var t :| t in rest;
        MoveOne(targets.Keys, done, rest, t);
        ReopenOne(old(nodes), old(artifacts), old(repairInputs), targets, done, t);
        rest, done := rest - {t}, done + {t};
        artifacts := artifacts - {t};
        repairInputs := repairInputs - {t};
        repairInputs := repairInputs[t := RepairInput(targets[t].input, targets[t].digest)];
        nodes := nodes[t := nodes[t].(status := Pending)];
      }
      AllDone(targets.Keys, done);
    }

    /** The statements of an accepted repair round over the targets and the integration. */
    method ReopenForRepair(n: NodeId, targets: map<NodeId, RepairOrder>)
      requires targets.Keys + {n} <= nodes.Keys
      modifies this`artifacts, this`repairInputs, this`nodes
      ensures artifacts == old(artifacts) - targets.Keys - {n}
      ensures repairInputs == old(repairInputs) + map t | t in targets :: RepairInput(targets[t].input, targets[t].digest)
      ensures nodes == map m | m in old(nodes) ::
        if m in targets || m == n then old(nodes)[m].(status := Pending) else old(nodes)[m]
    {
      RepairedRows(nodes, artifacts, repairInputs, targets, n);
      ReopenTargets(targets);
      artifacts := artifacts - {n};
      nodes := nodes[n := nodes[n].(status := Pending)];
    }

    /** The refusals of a repair round, in the order they are tried. */
    method RepairReady(n: NodeId, route: Name, digest: Digest, maxRounds: nat, noProgressLimit: nat,
                       targets: map<NodeId, RepairOrder>, attemptLimit: nat) returns (ready: bool)
      ensures ready <==> RepairAllowed(Tables(), n, route, digest, maxRounds, noProgressLimit, targets, attemptLimit)
    {
      if n !in nodes || !nodes[n].status.Failed? { return false; }
      if nodes[n].attemptCount >= attemptLimit { return false; }
      if RepairRounds(Tables(), n, route) >= maxRounds { return false; }
      if RepairStall(Tables(), n, route, digest) >= noProgressLimit { return false; }
      ready := TargetsReady(targets);
    }

    /** The statements of an accepted round. */
    method RepairRound(n: NodeId, route: Name, digest: Digest, targets: map<NodeId, RepairOrder>)
      requires targets.Keys + {n} <= nodes.Keys
      modifies this
      ensures Tables() == RepairTables(old(Tables()), n, route, digest, targets)
    {
      var row := RepairRow(RepairRounds(Tables(), n, route) + 1, digest, RepairStall(Tables(), n, route, digest));
      repairs := repairs[RouteKey(n, route) := row];
      ReopenForRepair(n, targets);
      run := run.(status := RunRunning);
    }

    /** The transaction after its lease assertion. */
    method RepairUnderLease(n: NodeId, route: Name, digest: Digest, maxRounds: nat, noProgressLimit: nat,
                            targets: map<NodeId, RepairOrder>, attemptLimit: nat) returns (reply: Reply)
      modifies this
      ensures Tables() ==
        if RepairAllowed(old(Tables()), n, route, digest, maxRounds, noProgressLimit, targets, attemptLimit)
        then RepairTables(old(Tables()), n, route, digest, targets) else old(Tables())
      ensures reply ==
        Answer(RepairAllowed(old(Tables()), n, route, digest, maxRounds, noProgressLimit, targets, attemptLimit))
    {
      var allowed := RepairReady(n, route, digest, maxRounds, noProgressLimit, targets, attemptLimit);
      if allowed {
        RepairRound(n, route, digest, targets);
      }
      reply := Answer(allowed);
    }

    method RouteRepair(n: NodeId, route: Name, digest: Digest, maxRounds: nat, noProgressLimit: nat,
                       targets: map<NodeId, RepairOrder>, attemptLimit: nat, lease: RunLease, now: Time)
      returns (reply: Reply)
      modifies this
      ensures (Tables(), reply) ==
        Exec(old(Tables()), TxRepair(n, route, digest, maxRounds, noProgressLimit, targets, attemptLimit), lease, now)
    {
      if !LeaseLive(run, lease, now) { return LeaseLost; }
      reply := RepairUnderLease(n, route, digest, maxRounds, noProgressLimit, targets, attemptLimit);
    }

    /** The loop over the running rows: replay-safe nodes are pending again, the others are uncertain. */
    method InterruptNodes(replaySafe: set<NodeId>) returns (uncertain: set<NodeId>)
      modifies this`nodes
      ensures nodes == map n | n in old(nodes) ::
        if old(nodes)[n].status.Running?
        then Reopened(old(nodes)[n]).(status := if n in replaySafe then Pending else Uncertain)
        else old(nodes)[n]
      ensures uncertain == set n | n in old(nodes) && old(nodes)[n].status.Running? && n !in replaySafe
    {
      var running := set n | n in nodes && nodes[n].status.Running?;
      var rest := running;
      ghost var done: set<NodeId> := {};
      uncertain := {};
      assert nodes == InterruptedRows(nodes, replaySafe, {});
      while rest != {}
        invariant Partition(running, done, rest)
        invariant forall x :: x in uncertain <==> x in done && x !in replaySafe
        invariant nodes == InterruptedRows(old(nodes), replaySafe, done)
        decreases |rest|
      {
        var n :| n in rest;
        MoveOne(running, done, rest, n);
        InterruptOne(old(nodes), replaySafe, done, n);
        rest, done := rest - {n}, done + {n};
        var status := if n in replaySafe then Pending else Uncertain;
        if status.Uncertain? {
          uncertain := uncertain + {n};
        }
        nodes := nodes[n := nodes[n].(status := status, activeAttempt := None, activeGeneration := None)];
      }
      AllDone(running, done);
      assert nodes == InterruptedRows(old(nodes), replaySafe, running);
    }

    method RecoverInterrupted(replaySafe: set<NodeId>, lease: RunLease, now: Time) returns (reply: Reply)
      modifies this
      ensures (Tables(), reply) == Exec(old(Tables()), TxRecover(replaySafe), lease, now)
    {
      if !LeaseLive(run, lease, now) { return LeaseLost; }
      attempts := map k | k in attempts :: Interrupted(attempts[k], AttemptInterrupted, now);
      var uncertain := InterruptNodes(replaySafe);
      run := run.(status := RunRunning);
      assert nodes == Commit(old(Tables()), TxRecover(replaySafe), lease.generation, now).0.nodes;
      assert uncertain == Commit(old(Tables()), TxRecover(replaySafe), lease.generation, now).1.uncertain;
      return Recovered(uncertain);
    }

    method RecordJoinState(n: NodeId, snapshot: JoinRow, lease: RunLease, now: Time) returns (reply: Reply)
      modifies this
      ensures (Tables(), reply) == Exec(old(Tables()), TxJoin(n, snapshot), lease, now)
    {
      if !LeaseLive(run, lease, now) { return LeaseLost; }
      if n !in joins || joins[n].decision == Waiting {
        joins := joins[n := snapshot];
      }
      return Joined(joins[n]);
    }

    method ReconcileNode(n: NodeId, retry: bool, lease: RunLease, now: Time) returns (reply: Reply)
      modifies this
      ensures (Tables(), reply) == Exec(old(Tables()), TxReconcile(n, retry), lease, now)
    {
      if !LeaseLive(run, lease, now) { return LeaseLost; }
      if n !in nodes || !nodes[n].status.Uncertain? { return Rejected; }
      nodes := nodes[n := nodes[n].(status := if retry then Pending else Failed)];
      run := run.(status := RunRunning);
      return Done;
    }

    method InvalidateNode(n: NodeId, lease: RunLease, now: Time) returns (reply: Reply)
      modifies this
      ensures (Tables(), reply) == Exec(old(Tables()), TxInvalidate(n), lease, now)
    {
      if !LeaseLive(run, lease, now) { return LeaseLost; }
      if n in nodes {
        nodes := nodes[n := nodes[n].(status := Failed)];
      }
      return Done;
    }

    method FinishRun(status: RunStatus, lease: RunLease, now: Time) returns (reply: Reply)
      modifies this
      ensures (Tables(), reply) == Exec(old(Tables()), TxFinishRun(status), lease, now)
    {
      if !LeaseLive(run, lease, now) { return LeaseLost; }
      if status == RunCancelled {
        CloseRows(now);
      }
      run := run.(status := status);
      return Done;
    }

    method CloseRows(now: Time)
      modifies this`nodes, this`attempts
      ensures nodes == CancelledRows(old(nodes)) && attempts == CancelledAttempts(old(attempts), now)
    {
      nodes := map n | n in nodes ::
        if nodes[n].status.Succeeded? || nodes[n].status.OptionalFailed? then nodes[n]
        else Reopened(nodes[n]).(status := Cancelled);
      attempts := map k | k in attempts :: Interrupted(attempts[k], AttemptCancelled, now);
    }

    method BindRemoteTask(n: NodeId, row: RemoteRow) returns (reply: Reply)
      modifies this
      ensures (Tables(), reply) == BindRemote(old(Tables()), n, row)
    {
      if n !in nodes || !nodes[n].status.Running? || nodes[n].activeAttempt != Some(row.attempt) { return Stale; }
      if n in remote { return if remote[n] == row then Done else Stale; }
      remote := remote[n := row];
      return Done;
    }
  }
}
