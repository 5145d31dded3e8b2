/**
 Explicit runs of small workflows.  A scene says what one owner remembers and what the rows of the nodes show; each lemma
 here adds one step to a run that shows a scene, and says which scene it shows then.
 */
module Scenes {
  import opened Prelude
  import opened Graph
  import opened Workflow
  import opened Store
  import opened Joins
  import opened Runs

  datatype Scene = Scene(
    now: Time,
    status: map<NodeId, Status>,
    made: map<NodeId, nat>,                         // attempts so far
    active: map<NodeId, nat>,                       // the attempts the owner waits for
    outputs: map<NodeId, Outputs>,
    decisions: map<NodeId, Decision>,               // of the joins recorded so far
    loops: map<NodeId, LoopRow>,
    clean: set<NodeId>)                             // nodes of which no attempt has been settled

  /** Every node has a minute from its first start, no limit on checks, and must not fail twice the same way. */
  ghost predicate Plain(flow: Flow) {
    && WellFormed(flow) && flow.budgets.timeout == 60
    && forall n :: n in flow.nodes ==>
         flow.nodes[n].progress == Progress(None, None) && flow.nodes[n].timeout.None? && flow.nodes[n].retry.noProgressLimit.None?
  }

  predicate Budgeted(row: ProgressRow) {
    && row.maxElapsed == 60 && row.maxChecks.None? && row.noProgressLimit == 1 && row.noProgress == 0
    && if row.startedAt.None? then row.deadlineAt.None? else row.startedAt == Some(0) && row.deadlineAt == Some(60)
  }

  predicate RowShows(db: Db, generation: nat, v: Scene, n: NodeId) {
    && n in db.nodes && n in db.progress && n in v.status && n in v.made
    && db.nodes[n].status == v.status[n] && db.nodes[n].attemptCount == v.made[n] && Budgeted(db.progress[n])
    && (v.status[n].Running? ==> ActiveAttempt(db, n, v.made[n], generation)) && (v.made[n] > 0 ==> db.progress[n].startedAt.Some?)
    && (v.status[n].Running? ==> v.made[n] > 0)
    && (n in v.clean ==> db.nodes[n].lastDigest.None? && db.progress[n].failure.None?)
  }

  predicate DecisionsShow(joins: JoinTable, decisions: map<NodeId, Decision>) {
    joins.Keys == decisions.Keys && forall c :: c in joins ==> joins[c].decision == decisions[c]
  }

  ghost predicate TablesShow(flow: Flow, db: Db, generation: nat, v: Scene) {
    && db.nodes.Keys == flow.nodes.Keys && (forall n :: n in flow.nodes ==> RowShows(db, generation, v, n))
    && v.status.Keys == flow.nodes.Keys && v.made.Keys == flow.nodes.Keys
    && db.artifacts == v.outputs && db.control.loops == v.loops && DecisionsShow(db.control.joins, v.decisions)
    && db.control.routes == map[] && db.run.status.RunRunning? && db.run.expiresAt == Some(1000)
  }

  ghost predicate Shows(flow: Flow, s: Sys, v: Scene) {
    && s.now == v.now && 0 <= v.now < 1000 && s.session.Some? && s.retries == map[]
    && var sess := s.session.value;
       && LeaseLive(s.db.run, sess.lease, s.now) && InLoopPhase(sess) && sess.active == v.active && sess.todo.None?
       && TablesShow(flow, s.db, sess.lease.generation, v)
  }

  function End(flow: Flow, acts: seq<Action>): Sys { After(flow, Initial(flow), acts) }

  /**
   A run that shows the scene at its end.  The quantifier hides the run from the solver: it means what `Look` says, and
   is unfolded only there.
   */
  ghost predicate Plays(flow: Flow, acts: seq<Action>, v: Scene) {
    v.status.Keys == flow.nodes.Keys && v.made.Keys == flow.nodes.Keys &&
    forall k {:trigger Opened(k, acts)} :: Opened(k, acts) ==> Run(flow, Initial(flow), acts) && Shows(flow, End(flow, acts), v)
  }

  datatype Seal = Seal
  predicate Opened(k: Seal, acts: seq<Action>) { k.Seal? }

  lemma Look(flow: Flow, acts: seq<Action>, v: Scene)
    ensures Plays(flow, acts, v) <==> Run(flow, Initial(flow), acts) && Shows(flow, End(flow, acts), v)
  {
    assert Opened(Seal, acts);
  }

  /** The owner may issue the transaction now. */
  ghost predicate May(flow: Flow, acts: seq<Action>, tx: Tx) {
    var s := End(flow, acts); s.session.Some? && Guard(flow, s.db, s.session.value, tx)
  }

  function Generation(s: Sys): nat { if s.session.Some? then s.session.value.lease.generation else 0 }

  /** The statuses of the rows of a scene. */
  predicate Statuses(rows: Rows, v: Scene) {
    rows.Keys == v.status.Keys && forall n :: n in rows ==> rows[n].status == v.status[n]
  }

  lemma StatusesShow(flow: Flow, acts: seq<Action>, v: Scene)
    requires Plays(flow, acts, v)
    ensures Statuses(End(flow, acts).db.nodes, v)
  {
    Look(flow, acts, v);
    var s := End(flow, acts);
    forall n | n in s.db.nodes ensures s.db.nodes[n].status == v.status[n] {
      assert RowShows(s.db, Generation(s), v, n);
    }
  }

  lemma Stands(flow: Flow, acts: seq<Action>, v: Scene)
    requires Plays(flow, acts, v)
    ensures Run(flow, Initial(flow), acts) && forall n :: n in v.status ==> IsStatus(End(flow, acts).db, n, v.status[n])
    ensures forall n :: n in v.made ==> Attempts(End(flow, acts).db, n) == v.made[n] && Retries(End(flow, acts), n) == 0
  {
    Look(flow, acts, v);
    var s := End(flow, acts);
    forall n | n in v.made ensures Attempts(s.db, n) == v.made[n] { assert RowShows(s.db, Generation(s), v, n); }
    StatusesShow(flow, acts, v);
  }

  lemma KeepsOutputs(flow: Flow, acts: seq<Action>, v: Scene)
    requires Plays(flow, acts, v)
    ensures End(flow, acts).db.artifacts == v.outputs && End(flow, acts).db.nodes.Keys == flow.nodes.Keys
  {
    Look(flow, acts, v);
  }

  lemma DecisionsAre(flow: Flow, acts: seq<Action>, v: Scene)
    requires Plays(flow, acts, v)
    ensures DecisionsShow(End(flow, acts).db.control.joins, v.decisions)
  {
    Look(flow, acts, v);
  }

  lemma SumOfThree(f: nat -> nat)
    ensures Sum([0, 1, 2], f) == f(0) + f(1) + f(2)
  {
    var ids := [0, 1, 2];
    assert ids[1..] == [1, 2] && [1, 2][1..] == [2] && [2][1..] == [];
  }

  lemma SumOfFive(f: nat -> nat)
    ensures Sum([0, 1, 2, 3, 4], f) == f(0) + f(1) + f(2) + f(3) + f(4)
  {
    var ids := [0, 1, 2, 3, 4];
    assert ids[1..] == [1, 2, 3, 4] && [1, 2, 3, 4][1..] == [2, 3, 4] && [2, 3, 4][1..] == [3, 4];
    assert [3, 4][1..] == [4] && [4][1..] == [];
  }

  function MadeOf(v: Scene): nat -> nat { n => if n in v.made then v.made[n] else 0 }

  lemma TotalShows(flow: Flow, acts: seq<Action>, v: Scene)
    requires Plays(flow, acts, v)
    ensures AttemptTotal(flow, End(flow, acts).db) == Sum(flow.ids, MadeOf(v))
  {
    Look(flow, acts, v);
    var s := End(flow, acts);
    forall n: nat ensures AttemptsOf(s.db)(n) == MadeOf(v)(n) {
      if n in flow.nodes { assert RowShows(s.db, Generation(s), v, n); }
    }
    SumSame(flow.ids, MadeOf(v), AttemptsOf(s.db));
  }

  // ---------------------------------------------------------------- the first scene

  function Curtain(flow: Flow): Scene {
    Scene(0, map n | n in flow.nodes :: Pending, map n | n in flow.nodes :: 0, map[], map[], map[], map[], flow.nodes.Keys)
  }

  lemma CreatedRow(flow: Flow, run: RunRow, generation: nat, n: NodeId)
    requires Plain(flow) && n in flow.nodes
    ensures RowShows(CreateRun(flow).(run := run), generation, Curtain(flow), n)
  {
  }

  lemma CreatedShows(flow: Flow, run: RunRow, generation: nat)
    requires Plain(flow) && run.status.RunRunning? && run.expiresAt == Some(1000)
    ensures TablesShow(flow, CreateRun(flow).(run := run), generation, Curtain(flow))
  {
    forall n | n in flow.nodes ensures RowShows(CreateRun(flow).(run := run), generation, Curtain(flow), n) {
      CreatedRow(flow, run, generation, n);
    }
  }

  const Take := Acquire("a", 1000, Opening(false))
  const Taken := RunRow(RunRunning, false, Some("a"), 1, Some(1000))

  lemma TakesRun(flow: Flow)
    ensures var s := Apply(flow, Initial(flow), Take);
      && s.db == CreateRun(flow).(run := Taken) && s.now == 0
      && s.session == Some(Session(RunLease("a", 1, 1000), Opening(false), map[], None))
  {
  }

  /** An owner takes the run. */
  lemma Opens(flow: Flow) returns (acts: seq<Action>)
    requires Plain(flow)
    ensures Plays(flow, acts, Curtain(flow))
  {
    RunExtends(flow, Initial(flow), [], Take);
    acts := [] + [Take];
    TakesRun(flow);
    CreatedShows(flow, Taken, 1);
    assert End(flow, acts) == Apply(flow, Initial(flow), Take);
    Look(flow, acts, Curtain(flow));
  }

  // ---------------------------------------------------------------- one transaction

  /** A transaction takes the owner and the tables to the next scene. */
  ghost predicate Fits(flow: Flow, s: Sys, tx: Tx, w: Scene)
    requires s.session.Some?
  {
    Shows(flow, DoTx(flow, s, tx), w)
  }

  /** Such a transaction is added to a run. */
  lemma Adds(flow: Flow, acts: seq<Action>, v: Scene, tx: Tx, w: Scene) returns (more: seq<Action>)
    requires Plays(flow, acts, v)
    requires May(flow, acts, tx) && Fits(flow, End(flow, acts), tx, w)
    ensures more == acts + [Do(tx)] && Plays(flow, more, w) && End(flow, more) == DoTx(flow, End(flow, acts), tx)
  {
    Look(flow, acts, v);
    RunExtends(flow, Initial(flow), acts, Do(tx));
    more := acts + [Do(tx)];
    Look(flow, more, w);
  }

  /** Only the rows of `n` differ, and what is recorded beside them. */
  predicate Touches(db: Db, later: Db, n: NodeId) {
    && n in later.nodes && n in later.progress
    && later.nodes == db.nodes[n := later.nodes[n]] && later.progress == db.progress[n := later.progress[n]]
    && later.control.routes == db.control.routes && later.run == db.run
  }

  predicate Retouches(v: Scene, w: Scene, n: NodeId) {
    && n in w.status && n in w.made && w.clean <= v.clean
    && w.status == v.status[n := w.status[n]] && w.made == v.made[n := w.made[n]]
  }

  /** Every row but that of `n` shows the same. */
  lemma OthersShow(flow: Flow, db: Db, later: Db, generation: nat, v: Scene, w: Scene, n: NodeId)
    requires TablesShow(flow, db, generation, v) && n in flow.nodes && Touches(db, later, n) && Retouches(v, w, n)
    requires RowShows(later, generation, w, n)
    requires later.artifacts == w.outputs && later.control.loops == w.loops && DecisionsShow(later.control.joins, w.decisions)
    ensures TablesShow(flow, later, generation, w)
  {
    forall d | d in flow.nodes ensures RowShows(later, generation, w, d) {
      assert RowShows(db, generation, v, d);
    }
  }

  function Starting(v: Scene, n: NodeId): Scene
    requires n in v.made
  {
    v.(status := v.status[n := Running], made := v.made[n := v.made[n] + 1], active := v.active[n := v.made[n] + 1])
  }

  lemma StartRow(db: Db, generation: nat, v: Scene, n: NodeId, now: Time)
    requires RowShows(db, generation, v, n) && v.status[n].Pending? && now == 0
    ensures var (later, reply) := StartAttempt(db, n, generation, now);
      && reply == Started(v.made[n] + 1) && Touches(db, later, n) && later.control == db.control && later.artifacts == db.artifacts
      && RowShows(later, generation, Starting(v, n), n)
  {
  }

  lemma StartShows(flow: Flow, db: Db, generation: nat, v: Scene, n: NodeId, now: Time)
    requires TablesShow(flow, db, generation, v) && n in flow.nodes && v.status[n].Pending? && now == 0
    ensures var (later, reply) := Commit(db, TxStart(n), generation, now);
      reply == Started(v.made[n] + 1) && later.run == db.run && TablesShow(flow, later, generation, Starting(v, n))
  {
    assert RowShows(db, generation, v, n);
    StartRow(db, generation, v, n, now);
    OthersShow(flow, db, StartAttempt(db, n, generation, now).0, generation, v, Starting(v, n), n);
  }

  lemma MayStart(flow: Flow, s: Sys, v: Scene, n: NodeId)
    requires Shows(flow, s, v) && CanLaunch(flow, s.db, v.active, n)
    ensures Guard(flow, s.db, s.session.value, TxStart(n))
  {
  }

  lemma StartFits(flow: Flow, s: Sys, v: Scene, n: NodeId)
    requires Shows(flow, s, v) && n in flow.nodes && v.status[n].Pending? && v.now == 0
    ensures Fits(flow, s, TxStart(n), Starting(v, n))
  {
    StartShows(flow, s.db, Generation(s), v, n, s.now);
    DoCommits(flow, s, TxStart(n));
  }

  /** A node is launched. */
  lemma Starts(flow: Flow, acts: seq<Action>, v: Scene, n: NodeId) returns (more: seq<Action>)
    requires Plays(flow, acts, v) && n in flow.nodes && v.status[n].Pending? && v.now == 0
    requires May(flow, acts, TxStart(n))
    ensures Plays(flow, more, Starting(v, n))
  {
    Look(flow, acts, v);
    var s := End(flow, acts);
    StartFits(flow, s, v, n);
    more := Adds(flow, acts, v, TxStart(n), Starting(v, n));
  }

  function Succeeding(v: Scene, n: NodeId, outputs: Outputs): Scene {
    v.(status := v.status[n := Succeeded], active := v.active - {n}, outputs := v.outputs[n := outputs], clean := v.clean - {n})
  }

  lemma SuccessRow(db: Db, generation: nat, v: Scene, n: NodeId, outputs: Outputs, now: Time)
    requires RowShows(db, generation, v, n) && v.status[n].Running?
    ensures var (later, reply) := Commit(db, TxSucceed(n, v.made[n], "", outputs, None), generation, now);
      && reply.Done? && Touches(db, later, n) && later.control == db.control && later.artifacts == db.artifacts[n := outputs]
      && RowShows(later, generation, Succeeding(v, n, outputs), n)
  {
  }

  lemma SuccessShows(flow: Flow, db: Db, generation: nat, v: Scene, n: NodeId, outputs: Outputs, now: Time)
    requires TablesShow(flow, db, generation, v) && n in flow.nodes && v.status[n].Running?
    ensures var (later, reply) := Commit(db, TxSucceed(n, v.made[n], "", outputs, None), generation, now);
      reply.Done? && later.run == db.run && TablesShow(flow, later, generation, Succeeding(v, n, outputs))
  {
    assert RowShows(db, generation, v, n);
    var w := Succeeding(v, n, outputs);
    SuccessRow(db, generation, v, n, outputs, now);
    assert Retouches(v, w, n);
    OthersShow(flow, db, Commit(db, TxSucceed(n, v.made[n], "", outputs, None), generation, now).0, generation, v, w, n);
  }

  lemma SuccessFits(flow: Flow, s: Sys, v: Scene, n: NodeId, outputs: Outputs)
    requires Shows(flow, s, v) && n in flow.nodes && v.status[n].Running? && n in v.active && v.active[n] == v.made[n]
    ensures Fits(flow, s, TxSucceed(n, v.made[n], "", outputs, None), Succeeding(v, n, outputs))
  {
    SuccessShows(flow, s.db, Generation(s), v, n, outputs, s.now);
    DoCommits(flow, s, TxSucceed(n, v.made[n], "", outputs, None));
  }

  /** A worker that is waited for has succeeded. */
  lemma Succeeds(flow: Flow, acts: seq<Action>, v: Scene, n: NodeId, outputs: Outputs) returns (more: seq<Action>)
    requires Plays(flow, acts, v) && n in flow.nodes && v.status[n].Running? && n in v.active && v.active[n] == v.made[n]
    ensures Plays(flow, more, Succeeding(v, n, outputs))
  {
    Look(flow, acts, v);
    SuccessFits(flow, End(flow, acts), v, n, outputs);
    more := Adds(flow, acts, v, TxSucceed(n, v.made[n], "", outputs, None), Succeeding(v, n, outputs));
  }

  function Losing(v: Scene, n: NodeId, status: Status): Scene {
    v.(status := v.status[n := status], active := v.active - {n}, clean := v.clean - {n})
  }

  lemma FaultRow(db: Db, generation: nat, v: Scene, n: NodeId, now: Time)
    requires RowShows(db, generation, v, n) && v.status[n].Running? && n in v.clean && now == 0
    ensures var (later, reply) := Commit(db, TxFinish(n, v.made[n], "x", None, map[], None), generation, now);
      && reply == Settled(0, Continue) && Touches(db, later, n) && later.control == db.control && later.artifacts == db.artifacts
      && RowShows(later, generation, Losing(v, n, Failed), n)
  {
  }

  lemma FaultShows(flow: Flow, db: Db, generation: nat, v: Scene, n: NodeId, now: Time)
    requires TablesShow(flow, db, generation, v) && n in flow.nodes && v.status[n].Running? && n in v.clean && now == 0
    ensures var (later, reply) := Commit(db, TxFinish(n, v.made[n], "x", None, map[], None), generation, now);
      reply == Settled(0, Continue) && later.run == db.run && TablesShow(flow, later, generation, Losing(v, n, Failed))
  {
    assert RowShows(db, generation, v, n);
    FaultRow(db, generation, v, n, now);
    OthersShow(flow, db, Commit(db, TxFinish(n, v.made[n], "x", None, map[], None), generation, now).0, generation,
               v, Losing(v, n, Failed), n);
  }

  lemma FaultFits(flow: Flow, s: Sys, v: Scene, n: NodeId)
    requires Shows(flow, s, v) && n in flow.nodes && v.status[n].Running? && n in v.active && v.active[n] == v.made[n]
    requires n in v.clean && v.now == 0 && Todo(flow, n, v.made[n], 0, Continue) == None
    ensures Fits(flow, s, TxFinish(n, v.made[n], "x", None, map[], None), Losing(v, n, Failed))
  {
    FaultShows(flow, s.db, Generation(s), v, n, s.now);
    DoCommits(flow, s, TxFinish(n, v.made[n], "x", None, map[], None));
  }

  /** A worker that is waited for has failed for good. */
  lemma Fails(flow: Flow, acts: seq<Action>, v: Scene, n: NodeId) returns (more: seq<Action>)
    requires Plays(flow, acts, v) && n in flow.nodes && v.status[n].Running? && n in v.active && v.active[n] == v.made[n]
    requires n in v.clean && v.now == 0 && Todo(flow, n, v.made[n], 0, Continue) == None
    ensures Plays(flow, more, Losing(v, n, Failed))
  {
    Look(flow, acts, v);
    FaultFits(flow, End(flow, acts), v, n);
    more := Adds(flow, acts, v, TxFinish(n, v.made[n], "x", None, map[], None), Losing(v, n, Failed));
  }

  /** The status still owed for a failure, or decided by a pass, is written. */
  function Writing(v: Scene, n: NodeId, status: Status): Scene { v.(status := v.status[n := status]) }

  lemma StatusShows(flow: Flow, db: Db, generation: nat, v: Scene, n: NodeId, status: Status, now: Time)
    requires TablesShow(flow, db, generation, v) && n in flow.nodes && !status.Running?
    ensures var (later, reply) := Commit(db, TxStatus(n, status), generation, now);
      reply.Done? && later.run == db.run && TablesShow(flow, later, generation, Writing(v, n, status))
  {
    var later := SetNodeStatus(db, n, status).0;
    assert RowShows(db, generation, v, n);
    assert later.progress == db.progress[n := db.progress[n]];
    OthersShow(flow, db, later, generation, v, Writing(v, n, status), n);
  }

  lemma StatusFits(flow: Flow, s: Sys, v: Scene, n: NodeId, status: Status)
    requires Shows(flow, s, v) && n in flow.nodes && !status.Running?
    ensures Fits(flow, s, TxStatus(n, status), Writing(v, n, status))
  {
    StatusShows(flow, s.db, Generation(s), v, n, status, s.now);
    DoCommits(flow, s, TxStatus(n, status));
  }

  lemma Writes(flow: Flow, acts: seq<Action>, v: Scene, n: NodeId, status: Status) returns (more: seq<Action>)
    requires Plays(flow, acts, v) && n in flow.nodes && !status.Running?
    requires May(flow, acts, TxStatus(n, status))
    ensures more == acts + [Do(TxStatus(n, status))] && Plays(flow, more, Writing(v, n, status))
  {
    Look(flow, acts, v);
    StatusFits(flow, End(flow, acts), v, n, status);
    more := Adds(flow, acts, v, TxStatus(n, status), Writing(v, n, status));
  }

  /** Like a scene, but a status is still owed. */
  ghost predicate Owes(flow: Flow, s: Sys, v: Scene, n: NodeId, status: Status) {
    && s.now == v.now && s.session.Some? && s.retries == map[]
    && var sess := s.session.value;
       && LeaseLive(s.db.run, sess.lease, s.now) && InLoopPhase(sess) && sess.active == v.active && sess.todo == Some((n, status))
       && TablesShow(flow, s.db, sess.lease.generation, v)
  }

  /** A worker that is waited for has failed, with a retry left. */
  lemma FaultOwes(flow: Flow, acts: seq<Action>, v: Scene, n: NodeId) returns (more: seq<Action>)
    requires Plays(flow, acts, v) && n in flow.nodes && v.status[n].Running? && n in v.active && v.active[n] == v.made[n]
    requires n in v.clean && v.now == 0 && Todo(flow, n, v.made[n], 0, Continue) == Some((n, Pending))
    ensures Run(flow, Initial(flow), more) && Owes(flow, End(flow, more), Losing(v, n, Failed), n, Pending)
  {
    Look(flow, acts, v);
    var fault := TxFinish(n, v.made[n], "x", None, map[], None);
    FaultLeavesDebt(flow, End(flow, acts), v, n);
    RunExtends(flow, Initial(flow), acts, Do(fault));
    more := acts + [Do(fault)];
  }

  lemma FaultLeavesDebt(flow: Flow, s: Sys, v: Scene, n: NodeId)
    requires Shows(flow, s, v) && n in flow.nodes && v.status[n].Running? && n in v.active && v.active[n] == v.made[n]
    requires n in v.clean && v.now == 0 && Todo(flow, n, v.made[n], 0, Continue) == Some((n, Pending))
    ensures Owes(flow, DoTx(flow, s, TxFinish(n, v.made[n], "x", None, map[], None)), Losing(v, n, Failed), n, Pending)
  {
    FaultShows(flow, s.db, Generation(s), v, n, s.now);
    DoCommits(flow, s, TxFinish(n, v.made[n], "x", None, map[], None));
  }

  /** And now it is written. */
  lemma Pays(flow: Flow, acts: seq<Action>, v: Scene, n: NodeId, status: Status) returns (more: seq<Action>)
    requires Run(flow, Initial(flow), acts) && Owes(flow, End(flow, acts), v, n, status) && n in flow.nodes && !status.Running?
    requires v.now == 0 && v.status.Keys == flow.nodes.Keys && v.made.Keys == flow.nodes.Keys
    ensures Plays(flow, more, Writing(v, n, status))
  {
    DebtIsPaid(flow, End(flow, acts), v, n, status);
    RunExtends(flow, Initial(flow), acts, Do(TxStatus(n, status)));
    more := acts + [Do(TxStatus(n, status))];
    Look(flow, more, Writing(v, n, status));
  }

  lemma DebtIsPaid(flow: Flow, s: Sys, v: Scene, n: NodeId, status: Status)
    requires Owes(flow, s, v, n, status) && n in flow.nodes && !status.Running? && v.now == 0
    ensures Shows(flow, DoTx(flow, s, TxStatus(n, status)), Writing(v, n, status))
  {
    StatusShows(flow, s.db, Generation(s), v, n, status, s.now);
    DoCommits(flow, s, TxStatus(n, status));
  }

  function Deciding(v: Scene, c: NodeId, decision: Decision): Scene { v.(decisions := v.decisions[c := decision]) }

  lemma DecisionShows(flow: Flow, db: Db, generation: nat, v: Scene, c: NodeId, snapshot: JoinRow, now: Time)
    requires TablesShow(flow, db, generation, v) && !IsFrozen(db.control.joins, c)
    ensures var (later, reply) := Commit(db, TxJoin(c, snapshot), generation, now);
      reply == Joined(snapshot) && later.run == db.run && TablesShow(flow, later, generation, Deciding(v, c, snapshot.decision))
  {
    var later := RecordJoin(db, c, snapshot).0;
    forall n | n in flow.nodes ensures RowShows(later, generation, Deciding(v, c, snapshot.decision), n) {
      assert RowShows(db, generation, v, n);
    }
  }

  lemma JoinFits(flow: Flow, s: Sys, v: Scene, c: NodeId, snapshot: JoinRow)
    requires Shows(flow, s, v) && (c in v.decisions ==> v.decisions[c] == Waiting)
    ensures Fits(flow, s, TxJoin(c, snapshot), Deciding(v, c, snapshot.decision))
  {
    DecisionShows(flow, s.db, Generation(s), v, c, snapshot, s.now);
    DoCommits(flow, s, TxJoin(c, snapshot));
  }

  /** What the rows decide for a join. */
  predicate Decides(flow: Flow, rows: Rows, c: NodeId, decision: Decision) {
    && c in flow.nodes && flow.nodes[c].join.Some? && flow.nodes[c].needs <= rows.Keys
    && Snapshot(flow.nodes[c].join.value, flow.nodes[c].needs, rows).decision == decision
  }

  lemma MayRecord(flow: Flow, s: Sys, v: Scene, c: NodeId)
    requires Shows(flow, s, v) && c in flow.nodes && flow.nodes[c].join.Some? && flow.nodes[c].needs <= flow.nodes.Keys
    ensures Guard(flow, s.db, s.session.value, TxJoin(c, Snapshot(flow.nodes[c].join.value, flow.nodes[c].needs, s.db.nodes)))
  {
    var snapshot := Snapshot(flow.nodes[c].join.value, flow.nodes[c].needs, s.db.nodes);
    assert Lags(s.db.nodes, s.db.nodes) && JoinOf(flow, s.db.nodes, c, snapshot);
  }

  /** The evidence of a join is recorded. */
  lemma Records(flow: Flow, acts: seq<Action>, v: Scene, c: NodeId, decision: Decision) returns (more: seq<Action>)
    requires Plays(flow, acts, v) && c in flow.nodes && flow.nodes[c].join.Some? && flow.nodes[c].needs <= flow.nodes.Keys
    requires c in v.decisions ==> v.decisions[c] == Waiting
    requires Decides(flow, End(flow, acts).db.nodes, c, decision)
    ensures Plays(flow, more, Deciding(v, c, decision))
  {
    Look(flow, acts, v);
    var s := End(flow, acts);
    var snapshot := Snapshot(flow.nodes[c].join.value, flow.nodes[c].needs, s.db.nodes);
    MayRecord(flow, s, v, c);
    JoinFits(flow, s, v, c, snapshot);
    more := Adds(flow, acts, v, TxJoin(c, snapshot), Deciding(v, c, decision));
  }

  function Iterations(v: Scene, c: NodeId): nat { if c in v.loops then v.loops[c].iterations else 0 }

  /** The controller's loop is decided for its newest attempt: done, or once more over the region. */
  function Decided(v: Scene, c: NodeId, region: set<NodeId>, matched: bool): Scene
    requires c in v.made
  {
    var w := v.(loops := v.loops[c := LoopRow(Iterations(v, c) + 1, v.made[c], matched)]);
    if !matched then w
    else
      w.(status := map n | n in v.status :: if n in region then Pending else v.status[n],
         outputs := v.outputs - region)
  }

  lemma LoopRowShows(db: Db, generation: nat, v: Scene, c: NodeId, maxIterations: nat, region: set<NodeId>, matched: bool, n: NodeId)
    requires RowShows(db, generation, v, n) && c in v.made && db.control.loops == v.loops && Iterations(v, c) + 1 < maxIterations
    requires c in v.loops ==> v.loops[c].lastAttempt < v.made[c]
    ensures var later := ApplyLoop(db, c, v.made[c], matched, maxIterations, region).0;
      RowShows(later, generation, Decided(v, c, region, matched), n)
  {
  }

  lemma LoopLeaves(db: Db, v: Scene, c: NodeId, maxIterations: nat, region: set<NodeId>, matched: bool)
    requires c in v.made && db.control.loops == v.loops && db.artifacts == v.outputs && Iterations(v, c) + 1 < maxIterations
    requires c in v.loops ==> v.loops[c].lastAttempt < v.made[c]
    ensures var (later, reply) := ApplyLoop(db, c, v.made[c], matched, maxIterations, region);
      var w := Decided(v, c, region, matched);
      && reply.Looped? && later.run == db.run && later.nodes.Keys == db.nodes.Keys && later.control.joins == db.control.joins
      && later.artifacts == w.outputs && later.control.loops == w.loops && (db.control.routes == map[] ==> later.control.routes == map[])
      && w.status.Keys == v.status.Keys && w.made == v.made && w.decisions == v.decisions
  {
  }

  lemma LoopShows(flow: Flow, db: Db, generation: nat, v: Scene, c: NodeId, maxIterations: nat, region: set<NodeId>, matched: bool,
                  now: Time)
    requires TablesShow(flow, db, generation, v) && c in flow.nodes && Iterations(v, c) + 1 < maxIterations
    requires c in v.loops ==> v.loops[c].lastAttempt < v.made[c]
    ensures var (later, reply) := Commit(db, TxLoop(c, v.made[c], matched, maxIterations, region), generation, now);
      reply.Looped? && later.run == db.run && TablesShow(flow, later, generation, Decided(v, c, region, matched))
  {
    var later := ApplyLoop(db, c, v.made[c], matched, maxIterations, region).0;
    LoopLeaves(db, v, c, maxIterations, region, matched);
    forall n | n in flow.nodes ensures RowShows(later, generation, Decided(v, c, region, matched), n) {
      LoopRowShows(db, generation, v, c, maxIterations, region, matched, n);
    }
  }

  /** A transaction that leaves the owner's memory as it is. */
  lemma StillFits(flow: Flow, s: Sys, tx: Tx, v: Scene, w: Scene)
    requires Shows(flow, s, v) && w.now == v.now && w.active == v.active && (tx.TxLoop? || tx.TxAdmit? || tx.TxStatus?)
    requires var (later, reply) := Commit(s.db, tx, Generation(s), s.now);
      !reply.LeaseLost? && later.run == s.db.run && TablesShow(flow, later, Generation(s), w)
    ensures Fits(flow, s, tx, w)
  {
    DoCommits(flow, s, tx);
  }

  lemma LoopFits(flow: Flow, s: Sys, v: Scene, c: NodeId, maxIterations: nat, region: set<NodeId>, matched: bool)
    requires Shows(flow, s, v) && c in flow.nodes && Iterations(v, c) + 1 < maxIterations
    requires c in v.loops ==> v.loops[c].lastAttempt < v.made[c]
    ensures Fits(flow, s, TxLoop(c, v.made[c], matched, maxIterations, region), Decided(v, c, region, matched))
  {
    var tx, w := TxLoop(c, v.made[c], matched, maxIterations, region), Decided(v, c, region, matched);
    LoopShows(flow, s.db, Generation(s), v, c, maxIterations, region, matched, s.now);
    assert w.now == v.now && w.active == v.active;
    StillFits(flow, s, tx, v, w);
  }

  lemma MayLoop(flow: Flow, s: Sys, v: Scene, c: NodeId, matched: bool)
    requires Shows(flow, s, v) && c in flow.nodes && flow.nodes[c].loop.Some? && v.status[c].Succeeded?
    ensures var loop := flow.nodes[c].loop.value;
      Guard(flow, s.db, s.session.value, TxLoop(c, v.made[c], matched, loop.maxIterations, LoopRegion(flow, c, loop.target)))
  {
    assert RowShows(s.db, Generation(s), v, c);
  }

  /** A loop is decided. */
  lemma Loops(flow: Flow, acts: seq<Action>, v: Scene, c: NodeId, region: set<NodeId>, matched: bool) returns (more: seq<Action>)
    requires Plays(flow, acts, v) && c in flow.nodes && flow.nodes[c].loop.Some? && v.status[c].Succeeded?
    requires region == LoopRegion(flow, c, flow.nodes[c].loop.value.target)
    requires Iterations(v, c) + 1 < flow.nodes[c].loop.value.maxIterations && (c in v.loops ==> v.loops[c].lastAttempt < v.made[c])
    ensures Plays(flow, more, Decided(v, c, region, matched))
  {
    Look(flow, acts, v);
    var loop := flow.nodes[c].loop.value;
    MayLoop(flow, End(flow, acts), v, c, matched);
    LoopFits(flow, End(flow, acts), v, c, loop.maxIterations, region, matched);
    more := Adds(flow, acts, v, TxLoop(c, v.made[c], matched, loop.maxIterations, region), Decided(v, c, region, matched));
  }

  /** Time passes. */
  lemma Waits(flow: Flow, acts: seq<Action>, v: Scene, dt: nat) returns (more: seq<Action>)
    requires Plays(flow, acts, v) && v.now + dt < 1000
    ensures Plays(flow, more, v.(now := v.now + dt))
  {
    Look(flow, acts, v);
    var s := End(flow, acts);
    RunExtends(flow, Initial(flow), acts, Action.Tick(dt));
    more := acts + [Action.Tick(dt)];
    var w := v.(now := v.now + dt);
    forall n | n in flow.nodes ensures RowShows(s.db, Generation(s), w, n) {
      assert RowShows(s.db, Generation(s), v, n);
    }
    Look(flow, more, w);
  }

  lemma RefusalRow(db: Db, generation: nat, v: Scene, n: NodeId, now: Time)
    requires RowShows(db, generation, v, n) && (v.status[n].Pending? || v.status[n].Failed?) && v.made[n] > 0 && now >= 60
    ensures var (later, reply) := AdmitAttempt(db, n, now);
      && reply == Answer(false) && Touches(db, later, n) && later.control == db.control && later.artifacts == db.artifacts
      && later.progress[n].verdict == Stop && RowShows(later, generation, Writing(v, n, Failed), n)
  {
    assert db.nodes == db.nodes[n := db.nodes[n]];
  }

  lemma RefusalShows(flow: Flow, db: Db, generation: nat, v: Scene, n: NodeId, now: Time)
    requires TablesShow(flow, db, generation, v) && n in flow.nodes && (v.status[n].Pending? || v.status[n].Failed?)
    requires v.made[n] > 0 && now >= 60
    ensures var (later, reply) := Commit(db, TxAdmit(n), generation, now);
      && reply == Answer(false) && later.run == db.run && TablesShow(flow, later, generation, Writing(v, n, Failed))
      && n in later.progress && later.progress[n].verdict == Stop
  {
    assert RowShows(db, generation, v, n);
    RefusalRow(db, generation, v, n, now);
    OthersShow(flow, db, AdmitAttempt(db, n, now).0, generation, v, Writing(v, n, Failed), n);
  }

  lemma RefusalFits(flow: Flow, s: Sys, v: Scene, n: NodeId)
    requires Shows(flow, s, v) && n in flow.nodes && (v.status[n].Pending? || v.status[n].Failed?)
    requires v.made[n] > 0 && v.now >= 60
    ensures Fits(flow, s, TxAdmit(n), Writing(v, n, Failed))
    ensures var db := DoTx(flow, s, TxAdmit(n)).db; n in db.progress && db.progress[n].verdict == Stop
  {
    RefusalShows(flow, s.db, Generation(s), v, n, s.now);
    DoCommits(flow, s, TxAdmit(n));
  }

  /** After the time of a node is up, its launch is refused. */
  lemma Refuses(flow: Flow, acts: seq<Action>, v: Scene, n: NodeId) returns (more: seq<Action>)
    requires Plays(flow, acts, v) && n in flow.nodes && (v.status[n].Pending? || v.status[n].Failed?)
    requires v.made[n] > 0 && v.now >= 60 && May(flow, acts, TxAdmit(n))
    ensures more == acts + [Do(TxAdmit(n))] && Plays(flow, more, Writing(v, n, Failed))
    ensures var db := End(flow, more).db; n in db.progress && db.progress[n].verdict == Stop
  {
    Look(flow, acts, v);
    RefusalFits(flow, End(flow, acts), v, n);
    more := Adds(flow, acts, v, TxAdmit(n), Writing(v, n, Failed));
  }
}
