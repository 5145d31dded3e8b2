/**
 Join decisions (`_join_snapshot`) and the rule that keeps reserve voters idle
 (`_quorum_member_dispatchable`).
 */
module Joins {
  import opened Prelude
  import opened Workflow
  import opened Store

  type Rows = map<NodeId, NodeRow>
  type JoinTable = map<NodeId, JoinRow>

  /** The recorded decision of `n` is terminal. */
  predicate IsFrozen(joins: JoinTable, n: NodeId) { n in joins && joins[n].decision != Waiting }

  function With(needs: set<NodeId>, rows: Rows, s: Status): set<NodeId>
    requires needs <= rows.Keys
  {
    set d | d in needs && rows[d].status == s
  }

  function SettledIn(needs: set<NodeId>, rows: Rows): set<NodeId>
    requires needs <= rows.Keys
  {
    set d | d in needs && Terminal(rows[d].status)
  }

  /** Settled neither by success nor by cancellation. */
  function Faulted(needs: set<NodeId>, rows: Rows): set<NodeId>
    requires needs <= rows.Keys
  {
    set d | d in needs && Terminal(rows[d].status) && rows[d].status != Succeeded && rows[d].status != Cancelled
  }

  function Unsettled(needs: set<NodeId>, rows: Rows): set<NodeId>
    requires needs <= rows.Keys
  {
    set d | d in needs && !Terminal(rows[d].status)
  }

  function Threshold(policy: Policy, expected: nat): nat {
    match policy
    case NOfM(n) => n
    case Majority => expected / 2 + 1
    case AnyOf => 1
    case All => expected
    case AllSettled => expected
  }

  /** Statuses that make a join over `all` fail. */
  predicate Bad(s: Status) { s.Failed? || s.Blocked? || s.Cancelled? || s.Uncertain? || s.Skipped? }

  predicate Good(s: Status) { s.Succeeded? || s.OptionalFailed? }

  function Decide(policy: Policy, needs: set<NodeId>, rows: Rows, passed: nat, missing: nat): Decision
    requires needs <= rows.Keys
  {
    var threshold := Threshold(policy, |needs|);
    if policy.All? then
      if exists d :: d in needs &&
           (Bad(rows[d].status) || (rows[d].status.OptionalFailed? && rows[d].required)) then JoinFailed
      else if forall d :: d in needs ==> Good(rows[d].status) then JoinSucceeded
      else Waiting
    else if policy.AllSettled? then if missing == 0 then JoinSucceeded else Waiting
    else if passed >= threshold then JoinSucceeded
    else if passed + missing < threshold then JoinFailed
    else Waiting
  }

  lemma CountsFit(needs: set<NodeId>, rows: Rows)
    requires needs <= rows.Keys
    ensures |With(needs, rows, Succeeded)| + |With(needs, rows, Cancelled)| <= |SettledIn(needs, rows)| <= |needs|
  {
    var passed, cancelled, settled := With(needs, rows, Succeeded), With(needs, rows, Cancelled), SettledIn(needs, rows);
    assert passed !! cancelled;
    assert |passed + cancelled| == |passed| + |cancelled|;
    Within(passed + cancelled, settled);
    Within(settled, needs);
  }

  /** `_join_snapshot` */
  function Snapshot(policy: Policy, needs: set<NodeId>, rows: Rows): JoinRow
    requires needs <= rows.Keys
  {
    CountsFit(needs, rows);
    var passed := |With(needs, rows, Succeeded)|;
    var cancelled := |With(needs, rows, Cancelled)|;
    var received := |SettledIn(needs, rows)|;
    var missing := |needs| - received;
    JoinRow(Threshold(policy, |needs|), |needs|, received, passed, received - passed - cancelled, cancelled, missing,
            Decide(policy, needs, rows, passed, missing), map d | d in needs :: rows[d].status)
  }

  /** The four counts partition the dependencies, each counting what its name says. */
  lemma CountsPartition(policy: Policy, needs: set<NodeId>, rows: Rows)
    requires needs <= rows.Keys
    ensures var j := Snapshot(policy, needs, rows);
      && j.expected == j.passed + j.failed + j.cancelled + j.missing
      && j.failed == |Faulted(needs, rows)|
      && j.missing == |Unsettled(needs, rows)|
  {
    var passed, cancelled, settled := With(needs, rows, Succeeded), With(needs, rows, Cancelled), SettledIn(needs, rows);
    assert settled == passed + cancelled + Faulted(needs, rows);
    assert passed !! cancelled && (passed + cancelled) !! Faulted(needs, rows);
    UnsettledIsRest(needs, rows);
  }

  lemma UnsettledIsRest(needs: set<NodeId>, rows: Rows)
    requires needs <= rows.Keys
    ensures |needs| == |SettledIn(needs, rows)| + |Unsettled(needs, rows)|
  {
    assert needs == SettledIn(needs, rows) + Unsettled(needs, rows);
    assert SettledIn(needs, rows) !! Unsettled(needs, rows);
  }

  /** A way for the unsettled dependencies to settle. */
  ghost predicate Completes(needs: set<NodeId>, rows: Rows, done: Rows) {
    && needs <= rows.Keys && needs <= done.Keys
    && forall d :: d in needs ==>
         Terminal(done[d].status) && done[d].required == rows[d].required
         && (Terminal(rows[d].status) ==> done[d].status == rows[d].status)
  }

  /** Every unsettled dependency settles with status `s`. */
  function CompleteWith(rows: Rows, s: Status): Rows {
    map d | d in rows :: if Terminal(rows[d].status) then rows[d] else rows[d].(status := s)
  }

  /** What an optional dependency may be when all are asked for. */
  predicate Satisfies(row: NodeRow) { row.status.Succeeded? || (row.status.OptionalFailed? && !row.required) }

  /** What a policy asks for, in votes. */
  ghost predicate Wins(policy: Policy, needs: set<NodeId>, rows: Rows)
    requires needs <= rows.Keys
  {
    match policy
    case All => forall d :: d in needs ==> Satisfies(rows[d])
    case AllSettled => forall d :: d in needs ==> !rows[d].status.Pending? && !rows[d].status.Running?
    case AnyOf => exists d :: d in needs && rows[d].status.Succeeded?
    case NOfM(n) => |With(needs, rows, Succeeded)| >= n
    case Majority => 2 * |With(needs, rows, Succeeded)| > |needs|
  }

  /** That can no longer be reached, whatever the unsettled dependencies do. */
  ghost predicate Loses(policy: Policy, needs: set<NodeId>, rows: Rows)
    requires needs <= rows.Keys
  {
    match policy
    case All => exists d :: d in needs && !rows[d].status.Pending? && !rows[d].status.Running? && !Satisfies(rows[d])
    case AllSettled => false
    case AnyOf => forall d :: d in needs ==> !rows[d].status.Pending? && !rows[d].status.Running? && !rows[d].status.Succeeded?
    case NOfM(n) => |With(needs, rows, Succeeded)| + |Unsettled(needs, rows)| < n
    case Majority => 2 * (|With(needs, rows, Succeeded)| + |Unsettled(needs, rows)|) <= |needs|
  }

  /** The decision in votes, for every policy. */
  lemma DecisionByVotes(policy: Policy, needs: set<NodeId>, rows: Rows)
    requires needs <= rows.Keys
    ensures Snapshot(policy, needs, rows).decision == JoinSucceeded <==> Wins(policy, needs, rows)
    ensures Snapshot(policy, needs, rows).decision == JoinFailed <==> Loses(policy, needs, rows)
  {
    UnsettledIsRest(needs, rows);
    match policy
    case AnyOf => AnyByVotes(needs, rows);
    case AllSettled => AllSettledByVotes(needs, rows);
    case _ =>
  }

  lemma AnyByVotes(needs: set<NodeId>, rows: Rows)
    requires needs <= rows.Keys
    ensures |With(needs, rows, Succeeded)| >= 1 <==> Wins(AnyOf, needs, rows)
    ensures |With(needs, rows, Succeeded)| + |Unsettled(needs, rows)| < 1 <==> Loses(AnyOf, needs, rows)
  {
    if d :| d in needs && rows[d].status.Succeeded? {
      assert d in With(needs, rows, Succeeded);
    } else {
      assert With(needs, rows, Succeeded) == {};
    }
    if d :| d in needs && !Terminal(rows[d].status) {
      assert d in Unsettled(needs, rows);
    } else {
      assert Unsettled(needs, rows) == {};
    }
  }

  lemma AllSettledByVotes(needs: set<NodeId>, rows: Rows)
    requires needs <= rows.Keys
    ensures |Unsettled(needs, rows)| == 0 <==> Wins(AllSettled, needs, rows)
  {
    if d :| d in needs && !Terminal(rows[d].status) {
      assert d in Unsettled(needs, rows);
    } else {
      assert Unsettled(needs, rows) == {};
    }
  }

  /** Every completion of the unsettled dependencies has that outcome. */
  ghost predicate Forced(policy: Policy, needs: set<NodeId>, rows: Rows, outcome: Decision)
    requires needs <= rows.Keys && outcome != Waiting
  {
    forall done :: Completes(needs, rows, done) ==>
      if outcome.JoinSucceeded? then Wins(policy, needs, done) else Loses(policy, needs, done)
  }

  /** Rows that only settle further: good stays good of the same kind, bad stays bad. */
  ghost predicate SettlesTo(needs: set<NodeId>, rows: Rows, later: Rows) {
    && needs <= rows.Keys && needs <= later.Keys
    && forall d :: d in needs ==>
         && later[d].required == rows[d].required
         && (rows[d].status.Succeeded? ==> later[d].status.Succeeded?)
         && (rows[d].status.OptionalFailed? ==> later[d].status.OptionalFailed?)
         && (Bad(rows[d].status) ==> Bad(later[d].status))
  }

  lemma PassedBounds(needs: set<NodeId>, rows: Rows, later: Rows)
    requires SettlesTo(needs, rows, later)
    ensures |With(needs, rows, Succeeded)| <= |With(needs, later, Succeeded)|
    ensures |SettledIn(needs, rows)| <= |SettledIn(needs, later)|
    ensures |With(needs, later, Succeeded)| + |needs| - |SettledIn(needs, later)|
            <= |With(needs, rows, Succeeded)| + |needs| - |SettledIn(needs, rows)|
  {
    Within(With(needs, rows, Succeeded), With(needs, later, Succeeded));
    Within(SettledIn(needs, rows), SettledIn(needs, later));
    var gained := SettledIn(needs, later) - SettledIn(needs, rows);
    assert SettledIn(needs, later) == SettledIn(needs, rows) + gained;
    assert With(needs, later, Succeeded) <= With(needs, rows, Succeeded) + gained;
    Within(With(needs, later, Succeeded), With(needs, rows, Succeeded) + gained);
  }

  /** A decision, once terminal, is the decision of every later settlement of the same dependencies. */
  lemma DecisionIsStable(policy: Policy, needs: set<NodeId>, rows: Rows, later: Rows)
    requires SettlesTo(needs, rows, later)
    requires Snapshot(policy, needs, rows).decision != Waiting
    ensures Snapshot(policy, needs, later).decision == Snapshot(policy, needs, rows).decision
  {
    PassedBounds(needs, rows, later);
    CountsFit(needs, rows);
    CountsFit(needs, later);
  }

  lemma DecidedWhenComplete(policy: Policy, needs: set<NodeId>, rows: Rows)
    requires needs <= rows.Keys && forall d :: d in needs ==> Terminal(rows[d].status)
    ensures Snapshot(policy, needs, rows).decision != Waiting
  {
    assert SettledIn(needs, rows) == needs;
  }

  /**
   The decision over `all`, `any`, `n_of_m` and `majority` is terminal exactly when every completion
   of the unsettled dependencies forces that outcome.
   */
  lemma DecisionIsExact(policy: Policy, needs: set<NodeId>, rows: Rows, outcome: Decision)
    requires needs <= rows.Keys && !policy.AllSettled? && outcome != Waiting
    ensures Snapshot(policy, needs, rows).decision == outcome <==> Forced(policy, needs, rows, outcome)
  {
    if Snapshot(policy, needs, rows).decision == outcome {
      DecidedIsForced(policy, needs, rows);
    } else {
      OtherwiseIsPossible(policy, needs, rows, outcome);
    }
  }

  lemma DecidedIsForced(policy: Policy, needs: set<NodeId>, rows: Rows)
    requires needs <= rows.Keys && Snapshot(policy, needs, rows).decision != Waiting
    ensures Forced(policy, needs, rows, Snapshot(policy, needs, rows).decision)
  {
    var now := Snapshot(policy, needs, rows).decision;
    forall done | Completes(needs, rows, done)
      ensures if now.JoinSucceeded? then Wins(policy, needs, done) else Loses(policy, needs, done)
    {
      DecisionIsStable(policy, needs, rows, done);
      DecisionByVotes(policy, needs, done);
    }
  }

  /** A completion with another outcome: all succeed, or all fail. */
  lemma OtherwiseIsPossible(policy: Policy, needs: set<NodeId>, rows: Rows, outcome: Decision)
    requires needs <= rows.Keys && !policy.AllSettled? && outcome != Waiting
    requires Snapshot(policy, needs, rows).decision != outcome
    ensures !Forced(policy, needs, rows, outcome)
  {
    var done := CompleteWith(rows, if outcome.JoinSucceeded? then Failed else Succeeded);
    assert Completes(needs, rows, done);
    DecisionByVotes(policy, needs, done);
    if Snapshot(policy, needs, rows).decision == Waiting {
      OpenDecisionCanGoBothWays(policy, needs, rows);
    } else {
      DecisionIsStable(policy, needs, rows, done);
    }
  }

  lemma OpenDecisionCanGoBothWays(policy: Policy, needs: set<NodeId>, rows: Rows)
    requires needs <= rows.Keys && !policy.AllSettled?
    requires Snapshot(policy, needs, rows).decision == Waiting
    ensures Snapshot(policy, needs, CompleteWith(rows, Succeeded)).decision == JoinSucceeded
    ensures Snapshot(policy, needs, CompleteWith(rows, Failed)).decision == JoinFailed
  {
    var up, down := CompleteWith(rows, Succeeded), CompleteWith(rows, Failed);
    CompletionCounts(needs, rows);
    UnsettledIsRest(needs, rows);
    if policy.All? {
      var d :| d in needs && !Good(rows[d].status);
      assert down[d].status.Failed?;
    }
  }

  lemma CompletionCounts(needs: set<NodeId>, rows: Rows)
    requires needs <= rows.Keys
    ensures |SettledIn(needs, CompleteWith(rows, Succeeded))| == |SettledIn(needs, CompleteWith(rows, Failed))| == |needs|
    ensures |With(needs, CompleteWith(rows, Failed), Succeeded)| == |With(needs, rows, Succeeded)|
    ensures |With(needs, CompleteWith(rows, Succeeded), Succeeded)| == |With(needs, rows, Succeeded)| + |Unsettled(needs, rows)|
  {
    var up, down := CompleteWith(rows, Succeeded), CompleteWith(rows, Failed);
    assert SettledIn(needs, up) == needs && SettledIn(needs, down) == needs;
    assert With(needs, down, Succeeded) == With(needs, rows, Succeeded);
    assert With(needs, up, Succeeded) == With(needs, rows, Succeeded) + Unsettled(needs, rows);
    assert With(needs, rows, Succeeded) !! Unsettled(needs, rows);
  }

  /** `all_settled` waits for the last dependency even though every completion succeeds. */
  lemma AllSettledDecidesLast(needs: set<NodeId>, rows: Rows)
    requires needs <= rows.Keys
    ensures Forced(AllSettled, needs, rows, JoinSucceeded)
    ensures Snapshot(AllSettled, needs, rows).decision == JoinSucceeded
            <==> forall d :: d in needs ==> Terminal(rows[d].status)
  {
    DecisionByVotes(AllSettled, needs, rows);
  }

  // ---------------------------------------------------------------- reserve voters

  /** Dependencies counted as holding a slot of the quorum slice. */
  function InFlight(needs: set<NodeId>, rows: Rows, active: set<NodeId>): set<NodeId>
    requires needs <= rows.Keys
  {
    set d | d in needs && (d in active || rows[d].status.Running?)
  }

  function Candidates(needs: set<NodeId>, rows: Rows, active: set<NodeId>): set<NodeId>
    requires needs <= rows.Keys
  {
    set d | d in needs && rows[d].status.Pending? && d !in active
  }

  function DecisionOf(decisions: map<NodeId, Decision>, c: NodeId): Decision {
    if c in decisions then decisions[c] else Waiting
  }

  /** The consumers that hold `n` back unless it falls in their slice. */
  predicate Holds(flow: Flow, c: NodeId, n: NodeId, rows: Rows)
    requires c in flow.nodes && c in rows
  {
    && flow.nodes[c].join.Some? && IsQuorum(flow.nodes[c].join.value)
    && n in flow.nodes[c].needs
    && (rows[c].status.Pending? || rows[c].status.Running?)
  }

  /** `n` is among the first `capacity` candidates of consumer `c`, in id order. */
  predicate InSlice(flow: Flow, c: NodeId, n: NodeId, rows: Rows, active: set<NodeId>)
    requires c in flow.nodes && flow.nodes[c].join.Some? && flow.nodes[c].needs <= rows.Keys
  {
    var needs := flow.nodes[c].needs;
    var threshold := Threshold(flow.nodes[c].join.value, |needs|);
    var capacity := Max(0, threshold - |With(needs, rows, Succeeded)| - |InFlight(needs, rows, active)|);
    var candidates := Candidates(needs, rows, active);
    n in candidates && |Below(candidates, n)| < capacity
  }

  function Below(candidates: set<nat>, n: nat): set<nat> { set d | d in candidates && d < n }

  /** `_quorum_member_dispatchable` */
  predicate Dispatchable(flow: Flow, n: NodeId, rows: Rows, active: set<NodeId>, decisions: map<NodeId, Decision>)
    requires flow.nodes.Keys <= rows.Keys && forall c :: c in flow.nodes ==> flow.nodes[c].needs <= rows.Keys
  {
    forall c :: c in flow.nodes && Holds(flow, c, n, rows) ==>
      DecisionOf(decisions, c) == Waiting && InSlice(flow, c, n, rows, active)
  }

  /** So many votes do not decide a quorum of `expected` voters. */
  predicate Lacks(policy: Policy, expected: nat, votes: nat) {
    match policy
    case AnyOf => votes == 0
    case NOfM(n) => votes < n
    case Majority => 2 * votes <= expected
    case _ => false
  }

  /** Votes given, and votes that may still come from what is running. */
  function Votes(needs: set<NodeId>, rows: Rows, active: set<NodeId>): nat
    requires needs <= rows.Keys
  {
    |With(needs, rows, Succeeded)| + |InFlight(needs, rows, active)|
  }

  /** Room for one more voter in every quorum `n` belongs to whose consumer is pending or running. */
  ghost predicate QuorumRoom(flow: Flow, n: NodeId, rows: Rows, active: set<NodeId>)
    requires flow.nodes.Keys <= rows.Keys && forall c :: c in flow.nodes ==> flow.nodes[c].needs <= rows.Keys
  {
    forall c :: c in flow.nodes && n in flow.nodes[c].needs && (rows[c].status.Pending? || rows[c].status.Running?) ==>
      match flow.nodes[c].join
      case None => true
      case Some(policy) =>
        policy.All? || policy.AllSettled? || Lacks(policy, |flow.nodes[c].needs|, Votes(flow.nodes[c].needs, rows, active))
  }

  /** The voters that an open quorum lets through. */
  function Slice(flow: Flow, c: NodeId, rows: Rows, active: set<NodeId>): set<NodeId>
    requires c in flow.nodes && flow.nodes[c].join.Some? && flow.nodes[c].needs <= rows.Keys
  {
    set n | n in flow.nodes[c].needs && InSlice(flow, c, n, rows, active)
  }

  /**
   A quorum lets through just enough voters: with all but one of them the votes would not decide it, with all of them they
   would, unless it has let through every voter there is.  It keeps the order of the ids.
   */
  lemma SliceIsExact(flow: Flow, c: NodeId, rows: Rows, active: set<NodeId>)
    requires c in flow.nodes && flow.nodes[c].join.Some? && IsQuorum(flow.nodes[c].join.value)
    requires flow.nodes[c].needs <= rows.Keys
    ensures var needs, policy, slice := flow.nodes[c].needs, flow.nodes[c].join.value, Slice(flow, c, rows, active);
      var votes := Votes(needs, rows, active);
      && (forall d :: d in slice ==> rows[d].status.Pending? && d !in active)
      && (slice != {} ==> Lacks(policy, |needs|, votes + |slice| - 1))
      && (Lacks(policy, |needs|, votes + |slice|) ==> forall d :: d in needs && rows[d].status.Pending? && d !in active ==> d in slice)
      && forall d, e :: d in slice && e in needs && rows[e].status.Pending? && e !in active && e < d ==> e in slice
  {
    var needs := flow.nodes[c].needs;
    var candidates := Candidates(needs, rows, active);
    var capacity := Max(0, Threshold(flow.nodes[c].join.value, |needs|) - Votes(needs, rows, active));
    FirstOf(candidates, capacity);
    assert Slice(flow, c, rows, active) == First(candidates, capacity);
    if |First(candidates, capacity)| == |candidates| {
      SameSize(First(candidates, capacity), candidates);
    }
    forall d, e | d in First(candidates, capacity) && e in candidates && e < d ensures e in First(candidates, capacity) {
      Within(Below(candidates, e), Below(candidates, d));
    }
  }

  /** The least `k` numbers of a set. */
  function First(candidates: set<nat>, k: nat): set<nat> {
    set n | n in candidates && |Below(candidates, n)| < k
  }

  lemma {:induction false} FirstOf(candidates: set<nat>, k: nat)
    ensures |First(candidates, k)| == Min(|candidates|, k)
    decreases |candidates|
  {
    if candidates != {} {
      var last := Last(candidates);
      var rest := candidates - {last};
      FirstOf(rest, k);
      assert Below(candidates, last) == rest;
      forall n ensures n in First(candidates, k) <==> n in First(rest, k) || (n == last && |rest| < k) {
        if n in rest {
          assert Below(candidates, n) == Below(rest, n);
        }
      }
      assert First(candidates, k) == First(rest, k) + if |rest| < k then {last} else {};
    }
  }

  lemma {:induction false} Last(s: set<nat>) returns (last: nat)
    requires s != {}
    ensures last in s && forall x :: x in s ==> x <= last
    decreases |s|
  {
    var some :| some in s;
    last := some;
    if s != {some} {
      var other := Last(s - {some});
      assert forall x :: x in s && x != some ==> x in s - {some};
      if some < other { last := other; }
    }
  }

  lemma SameSize<T>(a: set<T>, b: set<T>)
    requires a <= b && |a| == |b|
    ensures a == b
  {
    if x :| x in b && x !in a {
      Within(a, b - {x});
    }
  }

  /**
   The dispatch pass decides on a snapshot while its own launches change the rows: launched nodes run,
   refused ones fail.  A member dispatchable on the snapshot still has room on the current rows.
   */
  lemma RoomSurvivesLaunches(flow: Flow, n: NodeId, rows: Rows, current: Rows, active: set<NodeId>,
                             decisions: map<NodeId, Decision>)
    requires flow.nodes.Keys <= rows.Keys && rows.Keys == current.Keys
    requires forall c :: c in flow.nodes ==> flow.nodes[c].needs <= rows.Keys
    requires Dispatchable(flow, n, rows, active, decisions)
    requires forall d :: d in rows ==>
      current[d].status == rows[d].status ||
      (rows[d].status.Pending? && if d in active then current[d].status.Running? else current[d].status.Failed?)
    ensures QuorumRoom(flow, n, current, active)
  {
    forall c | c in flow.nodes && n in flow.nodes[c].needs && (current[c].status.Pending? || current[c].status.Running?)
      ensures flow.nodes[c].join.Some? && IsQuorum(flow.nodes[c].join.value) ==>
        Lacks(flow.nodes[c].join.value, |flow.nodes[c].needs|, Votes(flow.nodes[c].needs, current, active))
    {
      var needs := flow.nodes[c].needs;
      assert flow.nodes[c].join.Some? && IsQuorum(flow.nodes[c].join.value) ==> Holds(flow, c, n, rows);
      assert With(needs, current, Succeeded) == With(needs, rows, Succeeded);
      assert InFlight(needs, current, active) == InFlight(needs, rows, active);
    }
  }
}
