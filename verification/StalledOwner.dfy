/** What the owner of a stalled chain does next. */
module StalledOwner {
  import opened Prelude
  import opened Workflow
  import opened Store
  import opened Passes
  import opened Stalls
  import opened Endings
  import opened Schedulers
  import opened StalledChain

  /**
   From a state in which the first node of the chain has failed and nothing runs, every iteration that keeps its lease
   and is not cancelled ends without progress, with the last node still pending.
   */
  method NextIteration(scheduler: Scheduler, order: seq<NodeId>) returns (turn: Turn)
    requires scheduler.Idle() && scheduler.active == map[] && FirstFailed(scheduler.flow, scheduler.store.Tables())
    requires Declares(scheduler.flow, order)
    modifies scheduler`now, scheduler`here, scheduler`fuel, scheduler`phase, scheduler`todo, scheduler`active, scheduler.store
    ensures turn.Gone? || turn == Ended(RunCancelled) || turn.Stuck?
  {
    ghost var db := scheduler.store.Tables();
    NothingToJudge(scheduler.flow, scheduler.judge, db);
    ghost var front, rest;
    turn, front, rest := scheduler.Iterate(order);
    if front.Some? {
      NothingToJudge(scheduler.flow, scheduler.judge, db.(run := front.value.db.run));
      SameRowsFail(scheduler.flow, db, front.value.db);
      NoneIsDue(scheduler.flow, front.value.db, order);
      ChainStalls(scheduler.flow, front.value.db, order, front.value.skipped);
    }
  }

  lemma SameRowsFail(flow: Flow, db: Db, later: Db)
    requires FirstFailed(flow, db) && later.nodes == db.nodes
    ensures FirstFailed(flow, later)
  {
    StatusCounts(flow, db, later);
  }
}
