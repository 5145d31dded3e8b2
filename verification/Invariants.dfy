/**
 What every state of the store satisfies: numbered attempts, fenced running rows, and the provenance
 of accepted artifacts.  One lemma per transaction shows that it is kept.
 */
module Invariants {
  import opened Prelude
  import opened Workflow
  import opened Store

  /** What each accepted attempt published. */
  type Published = map<AttemptKey, Outputs>

  /** Statuses in which a node holds no accepted artifact. */
  predicate Bare(s: Status) {
    s.Pending? || s.Running? || s.Uncertain? || s.Skipped? || s.Blocked? || s.OptionalFailed?
  }

  /** Statuses only an attempt can lead to. */
  predicate Tried(s: Status) { s.Running? || s.Succeeded? || s.OptionalFailed? || s.Uncertain? }

  /** A running node waits for its newest attempt, which is still open and carries its generation. */
  predicate RunningRow(db: Db, n: NodeId, row: NodeRow) {
    && row.activeAttempt == Some(row.attemptCount)
    && row.activeGeneration.Some?
    && AttemptKey(n, row.attemptCount) in db.attempts
    && db.attempts[AttemptKey(n, row.attemptCount)].status.AttemptRunning?
    && db.attempts[AttemptKey(n, row.attemptCount)].generation == row.activeGeneration.value
  }

  /** The artifacts of a succeeded node are exactly those its newest attempt published. */
  predicate Provenance(db: Db, published: Published, n: NodeId, row: NodeRow) {
    && (Bare(row.status) ==> Accepted(db, n) == map[])
    && (row.status.Succeeded? ==>
          AttemptKey(n, row.attemptCount) in published && Accepted(db, n) == published[AttemptKey(n, row.attemptCount)])
  }

  predicate NodeInv(db: Db, published: Published, n: NodeId)
    requires n in db.nodes && n in db.progress
  {
    var row := db.nodes[n];
    && (row.status.Running? ==> RunningRow(db, n, row))
    && Provenance(db, published, n, row)
    && (Tried(row.status) ==> row.attemptCount >= 1)
    && (row.attemptCount >= 1 ==> db.progress[n].startedAt.Some?)
  }

  /** Attempt numbers of every node run from 1 to its attempt count without gaps. */
  ghost predicate Numbered(db: Db) {
    forall n: NodeId, k: nat :: AttemptKey(n, k) in db.attempts <==> n in db.nodes && 1 <= k <= db.nodes[n].attemptCount
  }

  /** Something was published under exactly the attempts that were accepted. */
  ghost predicate Publications(db: Db, published: Published) {
    forall k :: k in published <==> k in db.attempts && db.attempts[k].status.AttemptSucceeded?
  }

  ghost predicate StoreInv(db: Db, published: Published) {
    && db.progress.Keys == db.nodes.Keys
    && Numbered(db)
    && Publications(db, published)
    && forall n :: n in db.nodes ==> NodeInv(db, published, n)
  }

  lemma KeepAdmit(db: Db, published: Published, n: NodeId, now: Time)
    requires StoreInv(db, published)
    ensures StoreInv(AdmitAttempt(db, n, now).0, published)
  {
    var later := AdmitAttempt(db, n, now).0;
    forall m | m in later.nodes ensures NodeInv(later, published, m) {
      assert NodeInv(db, published, m);
    }
  }

  lemma StartKeepsNumbers(db: Db, n: NodeId, generation: nat, now: Time)
    requires Numbered(db)
    ensures Numbered(StartAttempt(db, n, generation, now).0)
  {
  }

  lemma StartKeepsNode(db: Db, published: Published, n: NodeId, generation: nat, now: Time, m: NodeId)
    requires StoreInv(db, published) && m in db.nodes
    ensures var later := StartAttempt(db, n, generation, now).0;
            m in later.nodes && m in later.progress && NodeInv(later, published, m)
  {
    assert NodeInv(db, published, m);
  }

  lemma KeepStart(db: Db, published: Published, n: NodeId, generation: nat, now: Time)
    requires StoreInv(db, published)
    ensures StoreInv(StartAttempt(db, n, generation, now).0, published)
  {
    var later := StartAttempt(db, n, generation, now).0;
    StartKeepsNumbers(db, n, generation, now);
    forall m | m in later.nodes ensures NodeInv(later, published, m) {
      StartKeepsNode(db, published, n, generation, now, m);
    }
  }

  lemma KeepFinish(db: Db, published: Published, n: NodeId, number: nat, digest: Digest, failure: Option<Failure>,
                   outputs: Outputs, checks: Option<nat>, generation: nat, now: Time)
    requires StoreInv(db, published)
    ensures StoreInv(FinishAttempt(db, n, number, digest, failure, outputs, checks, generation, now).0, published)
  {
  }

  lemma KeepSucceed(db: Db, published: Published, n: NodeId, number: nat, digest: Digest, outputs: Outputs,
                    checks: Option<nat>, generation: nat, now: Time)
    requires StoreInv(db, published)
    ensures var (later, reply) := SucceedAttempt(db, n, number, digest, outputs, checks, generation, now);
            StoreInv(later, if reply.Done? then published[AttemptKey(n, number) := outputs] else published)
  {
  }

  lemma KeepStatus(db: Db, published: Published, n: NodeId, status: Status)
    requires StoreInv(db, published) && n in db.nodes
    requires !status.Running? && !status.Succeeded?
    requires Bare(status) ==> Accepted(db, n) == map[]
    requires Tried(status) ==> db.nodes[n].attemptCount >= 1
    ensures StoreInv(SetNodeStatus(db, n, status).0, published)
  {
  }

  lemma KeepRoute(db: Db, published: Published, n: NodeId, source: Digest, matched: bool)
    requires StoreInv(db, published)
    ensures StoreInv(RecordRoute(db, n, source, matched).0, published)
  {
  }

  lemma KeepCheckpoint(db: Db, published: Published, c: NodeId, attempt: nat, matched: bool)
    requires StoreInv(db, published)
    ensures StoreInv(Checkpoint(db, c, attempt, matched), published)
  {
    var later := Checkpoint(db, c, attempt, matched);
    forall m | m in later.nodes ensures NodeInv(later, published, m) {
      assert NodeInv(db, published, m);
    }
  }

  lemma KeepExhaust(db: Db, published: Published, c: NodeId)
    requires StoreInv(db, published) && IsStatus(db, c, Succeeded)
    ensures StoreInv(ExhaustLoop(db, c), published)
  {
  }

  lemma KeepReopen(db: Db, published: Published, region: set<NodeId>)
    requires StoreInv(db, published)
    ensures StoreInv(ReopenRegion(db, region), published)
  {
    var later := ReopenRegion(db, region);
    forall m | m in later.nodes ensures NodeInv(later, published, m) {
      assert NodeInv(db, published, m);
    }
  }

  lemma KeepLoop(db: Db, published: Published, c: NodeId, attempt: nat, matched: bool, maxIterations: nat,
                 region: set<NodeId>)
    requires StoreInv(db, published) && IsStatus(db, c, Succeeded)
    ensures StoreInv(ApplyLoop(db, c, attempt, matched, maxIterations, region).0, published)
  {
    KeepCheckpoint(db, published, c, attempt, matched);
    KeepExhaust(Checkpoint(db, c, attempt, matched), published, c);
    KeepReopen(Checkpoint(db, c, attempt, matched), published, region);
  }

  lemma KeepRepairTables(db: Db, published: Published, n: NodeId, route: Name, digest: Digest,
                         targets: map<NodeId, RepairOrder>)
    requires StoreInv(db, published)
    requires n in db.nodes
    requires forall t :: t in targets ==> t in db.nodes
    ensures StoreInv(RepairTables(db, n, route, digest, targets), published)
  {
    var later := RepairTables(db, n, route, digest, targets);
    forall m | m in later.nodes ensures NodeInv(later, published, m) {
      assert NodeInv(db, published, m);
    }
  }

  lemma KeepRepair(db: Db, published: Published, n: NodeId, route: Name, digest: Digest, maxRounds: nat,
                   noProgressLimit: nat, targets: map<NodeId, RepairOrder>, attemptLimit: nat)
    requires StoreInv(db, published)
    ensures StoreInv(RouteRepair(db, n, route, digest, maxRounds, noProgressLimit, targets, attemptLimit).0, published)
  {
    if RepairAllowed(db, n, route, digest, maxRounds, noProgressLimit, targets, attemptLimit) {
      KeepRepairTables(db, published, n, route, digest, targets);
    }
  }

  lemma KeepRecover(db: Db, published: Published, replaySafe: set<NodeId>, now: Time)
    requires StoreInv(db, published)
    ensures StoreInv(RecoverInterrupted(db, replaySafe, now).0, published)
  {
  }

  lemma KeepReconcile(db: Db, published: Published, n: NodeId, retry: bool)
    requires StoreInv(db, published)
    ensures StoreInv(ReconcileNode(db, n, retry).0, published)
  {
  }

  lemma KeepFinishRun(db: Db, published: Published, status: RunStatus, now: Time)
    requires StoreInv(db, published)
    ensures StoreInv(FinishRun(db, status, now).0, published)
  {
    var later := FinishRun(db, status, now).0;
    forall m | m in later.nodes ensures NodeInv(later, published, m) {
      assert NodeInv(db, published, m);
    }
  }

  lemma KeepJoin(db: Db, published: Published, n: NodeId, snapshot: JoinRow)
    requires StoreInv(db, published)
    ensures StoreInv(RecordJoin(db, n, snapshot).0, published)
  {
    var later := RecordJoin(db, n, snapshot).0;
    forall m | m in later.nodes ensures NodeInv(later, published, m) {
      assert NodeInv(db, published, m);
    }
  }

  lemma KeepInvalidate(db: Db, published: Published, n: NodeId)
    requires StoreInv(db, published)
    ensures StoreInv(InvalidateNode(db, n).0, published)
  {
    var later := InvalidateNode(db, n).0;
    forall m | m in later.nodes ensures NodeInv(later, published, m) {
      assert NodeInv(db, published, m);
    }
  }

  lemma KeepBind(db: Db, published: Published, n: NodeId, row: RemoteRow)
    requires StoreInv(db, published)
    ensures StoreInv(BindRemote(db, n, row).0, published)
  {
    var later := BindRemote(db, n, row).0;
    forall m | m in later.nodes ensures NodeInv(later, published, m) {
      assert NodeInv(db, published, m);
    }
  }

  /** The lease columns and the run status are not part of the store invariant. */
  lemma KeepRunRow(db: Db, published: Published, run: RunRow)
    requires StoreInv(db, published)
    ensures StoreInv(db.(run := run), published)
  {
    var later := db.(run := run);
    forall m | m in later.nodes ensures NodeInv(later, published, m) {
      assert NodeInv(db, published, m);
    }
  }
}
