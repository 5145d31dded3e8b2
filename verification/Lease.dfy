/**
 Lease fencing over every interleaving of acquisitions, renewals, releases and guarded writes by any
 number of owners, under a clock that never runs backwards.
 */
module Lease {
  import opened Prelude
  import opened Workflow
  import opened Store

  datatype Op =
    | Acquire(token: Token, ttl: Time, now: Time)
    | Renew(lease: RunLease, now: Time)
    | Release(lease: RunLease)
    | Write(lease: RunLease, now: Time)             // any transaction that opens with the lease assertion

  /** The run row, the clock, who was ever given which generation, and the generations that committed. */
  datatype State = State(run: RunRow, clock: Time, issued: map<nat, Token>, commits: seq<nat>)

  predicate Timely(s: State, op: Op) { op.Release? || op.now >= s.clock }

  function Step(s: State, op: Op): State {
    match op
    case Acquire(token, ttl, now) =>
      var (run, reply) := AcquireLease(s.run, token, ttl, now);
      State(run, now, if reply.Leased? then s.issued[reply.lease.generation := token] else s.issued, s.commits)
    case Renew(lease, now) => State(RenewLease(s.run, lease, now).0, now, s.issued, s.commits)
    case Release(lease) => s.(run := ReleaseLease(s.run, lease))
    case Write(lease, now) =>
      State(s.run, now, s.issued, if LeaseLive(s.run, lease, now) then s.commits + [lease.generation] else s.commits)
  }

  ghost predicate Run(s: State, ops: seq<Op>)
    decreases |ops|
  {
    ops == [] || (Timely(s, ops[0]) && Run(Step(s, ops[0]), ops[1..]))
  }

  function After(s: State, ops: seq<Op>): State
    decreases |ops|
  {
    if ops == [] then s else After(Step(s, ops[0]), ops[1..])
  }

  /** What every reachable lease state satisfies. */
  ghost predicate Inv(s: State) {
    && (forall g :: g in s.issued <==> 1 <= g <= s.run.generation)
    && (s.run.ownerToken.Some? ==>
          s.run.generation in s.issued && s.issued[s.run.generation] == s.run.ownerToken.value)
    && (s.run.ownerToken.Some? <==> s.run.expiresAt.Some?)
    && (forall i, j :: 0 <= i < j < |s.commits| ==> s.commits[i] <= s.commits[j])
    && (forall i :: 0 <= i < |s.commits| ==> s.commits[i] <= s.run.generation)
  }

  /** A lease that some acquisition returned. */
  ghost predicate Issued(s: State, lease: RunLease) {
    lease.generation in s.issued && s.issued[lease.generation] == lease.token
  }

  ghost predicate Extends(s: State, t: State) {
    && s.run.generation <= t.run.generation
    && (forall g :: g in s.issued ==> g in t.issued && t.issued[g] == s.issued[g])
    && s.commits <= t.commits
    && s.clock <= t.clock
  }

  lemma InvStep(s: State, op: Op)
    requires Inv(s) && Timely(s, op)
    ensures Inv(Step(s, op)) && Extends(s, Step(s, op))
  {
  }

  lemma {:induction false} InvRun(s: State, ops: seq<Op>)
    requires Inv(s) && Run(s, ops)
    ensures Inv(After(s, ops)) && Extends(s, After(s, ops))
    decreases |ops|
  {
    if ops != [] {
      InvStep(s, ops[0]);
      InvRun(Step(s, ops[0]), ops[1..]);
    }
  }

  lemma DeadStep(s: State, op: Op, lease: RunLease)
    requires Inv(s) && Timely(s, op) && Issued(s, lease) && !LeaseLive(s.run, lease, s.clock)
    ensures !LeaseLive(Step(s, op).run, lease, Step(s, op).clock)
  {
  }

  /** Every lease the store hands out was issued under its own generation, to its own token, for good. */
  lemma GenerationBelongsToOneToken(s: State, token: Token, ttl: Time, now: Time, ops: seq<Op>)
    requires Inv(s) && Run(s, [Acquire(token, ttl, now)] + ops)
    requires AcquireLease(s.run, token, ttl, now).1.Leased?
    ensures Issued(After(s, [Acquire(token, ttl, now)] + ops), AcquireLease(s.run, token, ttl, now).1.lease)
  {
    var op := Acquire(token, ttl, now);
    InvStep(s, op);
    assert ([op] + ops)[1..] == ops;
    InvRun(Step(s, op), ops);
  }

  /** A lease that once fails its assertion fails at every later moment of every continuation. */
  lemma {:induction false} DeadForever(s: State, ops: seq<Op>, lease: RunLease, now: Time)
    requires Inv(s) && Run(s, ops) && Issued(s, lease) && !LeaseLive(s.run, lease, s.clock)
    requires now >= After(s, ops).clock
    ensures !LeaseLive(After(s, ops).run, lease, now)
    decreases |ops|
  {
    if ops != [] {
      InvStep(s, ops[0]);
      DeadStep(s, ops[0], lease);
      DeadForever(Step(s, ops[0]), ops[1..], lease, now);
    }
  }

  /** No guarded write of an older generation commits after one of a newer generation. */
  lemma CommitsAreFenced(flow: Flow, ops: seq<Op>, i: nat, j: nat)
    requires var s := State(CreateRun(flow).run, 0, map[], []); Run(s, ops)
    requires var s := State(CreateRun(flow).run, 0, map[], []); i < j < |After(s, ops).commits|
    ensures var s := State(CreateRun(flow).run, 0, map[], []);
            After(s, ops).commits[i] <= After(s, ops).commits[j]
  {
    InvRun(State(CreateRun(flow).run, 0, map[], []), ops);
  }

  /** Taking the lease over kills the lease it replaces, although nobody told its holder. */
  lemma TakeoverFences(s: State, old_: RunLease, token: Token, ttl: Time, now: Time, ops: seq<Op>, later: Time)
    requires Inv(s) && Issued(s, old_) && token != old_.token
    requires AcquireLease(s.run, token, ttl, now).1.Leased?
    requires Run(s, [Acquire(token, ttl, now)] + ops) && later >= After(s, [Acquire(token, ttl, now)] + ops).clock
    ensures !LeaseLive(After(s, [Acquire(token, ttl, now)] + ops).run, old_, later)
  {
    var op := Acquire(token, ttl, now);
    assert ([op] + ops)[1..] == ops;
    InvStep(s, op);
    DeadForever(Step(s, op), ops, old_, later);
  }

  /**
   An acquisition is refused exactly while somebody else is live (or when the ttl is not positive).  One that is granted
   brings a generation nobody ever had, except that a live owner who asks again keeps its own.
   */
  lemma GenerationsAreFresh(s: State, token: Token, ttl: Time, now: Time)
    requires Inv(s) && now >= s.clock && ttl > 0
    ensures var held := s.run.ownerToken.Some? && s.run.expiresAt.value > now;
      var reply := AcquireLease(s.run, token, ttl, now).1;
      && (reply.Leased? <==> !held || s.run.ownerToken.value == token)
      && (reply.Leased? ==> (reply.lease.generation in s.issued <==> held))
      && (reply.Leased? && held ==> reply.lease.generation == s.run.generation)
  {
  }

  /** An operation in which the holder of `token` has no part. */
  predicate Elsewhere(op: Op, token: Token) {
    match op
    case Acquire(other, _, _) => other != token
    case Renew(lease, _) => lease.token != token
    case Release(lease) => lease.token != token
    case Write(_, _) => true
  }

  /** The lease is the one on record and runs until `until`; or that moment has passed and it is dead. */
  ghost predicate RunsUntil(s: State, lease: RunLease, until: Time) {
    || (s.run.ownerToken == Some(lease.token) && s.run.generation == lease.generation && s.run.expiresAt == Some(until))
    || (s.clock >= until && !LeaseLive(s.run, lease, s.clock))
  }

  lemma {:induction false} NobodyShortensIt(s: State, ops: seq<Op>, lease: RunLease, until: Time)
    requires Inv(s) && Run(s, ops) && Issued(s, lease) && RunsUntil(s, lease, until)
    requires forall i :: 0 <= i < |ops| ==> Elsewhere(ops[i], lease.token)
    ensures RunsUntil(After(s, ops), lease, until)
    decreases |ops|
  {
    if ops != [] {
      InvStep(s, ops[0]);
      if !LeaseLive(s.run, lease, s.clock) {
        DeadStep(s, ops[0], lease);
      }
      NobodyShortensIt(Step(s, ops[0]), ops[1..], lease, until);
    }
  }

  /** The operation grants `lease`, or extends it. */
  ghost predicate Grants(s: State, op: Op, lease: RunLease) {
    match op
    case Acquire(token, ttl, now) => AcquireLease(s.run, token, ttl, now).1 == Leased(lease)
    case Renew(held, now) => held == lease && Issued(s, lease) && RenewLease(s.run, lease, now).1.Done?
    case _ => false
  }

  lemma GrantRuns(s: State, op: Op, lease: RunLease)
    requires Inv(s) && Timely(s, op) && Grants(s, op, lease)
    ensures Issued(Step(s, op), lease) && RunsUntil(Step(s, op), lease, op.now + lease.ttl)
  {
  }

  lemma LiveUntil(s: State, lease: RunLease, until: Time, later: Time)
    requires RunsUntil(s, lease, until) && later >= s.clock
    ensures LeaseLive(s.run, lease, later) <==> later < until
  {
  }

  lemma GoodUntil(s: State, ops: seq<Op>, lease: RunLease, until: Time, later: Time)
    requires Inv(s) && Run(s, ops) && Issued(s, lease) && RunsUntil(s, lease, until)
    requires forall i :: 0 <= i < |ops| ==> Elsewhere(ops[i], lease.token)
    requires later >= After(s, ops).clock
    ensures LeaseLive(After(s, ops).run, lease, later) <==> later < until
  {
    NobodyShortensIt(s, ops, lease, until);
    LiveUntil(After(s, ops), lease, until, later);
  }

  /**
   A lease that was acquired or renewed is good for its ttl: whatever everybody else does, it is live at a later moment
   if and only if that comes before the moment of the grant plus the ttl.
   */
  lemma GoodForItsTtl(s: State, op: Op, granted: State, lease: RunLease, ops: seq<Op>, later: Time)
    requires Inv(s) && Timely(s, op) && Grants(s, op, lease) && granted == Step(s, op) && Run(granted, ops)
    requires forall i :: 0 <= i < |ops| ==> Elsewhere(ops[i], lease.token)
    requires later >= After(granted, ops).clock
    ensures LeaseLive(After(granted, ops).run, lease, later) <==> later < op.now + lease.ttl
  {
    InvStep(s, op);
    GrantRuns(s, op, lease);
    GoodUntil(granted, ops, lease, op.now + lease.ttl, later);
  }
}
