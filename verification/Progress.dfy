/** What the progress observations of a node lead to when nothing new comes out of it. */
module Progress {
  import opened Prelude
  import opened Workflow
  import opened Store

  /** The same failure with the same artifacts, observed at each of these times. */
  function Repeatedly(row: ProgressRow, outputs: Outputs, failure: Digest, times: seq<Time>): (last: ProgressRow)
    requires row.startedAt.Some?
    ensures last.startedAt == row.startedAt
    decreases |times|
  {
    if times == [] then row
    else Observe(Repeatedly(row, outputs, failure, times[..|times| - 1]), outputs, Some(failure), None, false, times[|times| - 1])
  }

  /** Each repetition counts, so the node is stopped no later than at its limit. */
  lemma {:induction false} StallIsStopped(row: ProgressRow, outputs: Outputs, failure: Digest, times: seq<Time>)
    requires row.startedAt.Some? && row.failure == Some(failure) && (outputs == map[] || row.artifacts == Some(outputs))
    ensures var last := Repeatedly(row, outputs, failure, times);
      && last.noProgress == row.noProgress + |times| && last.failure == row.failure && last.artifacts == row.artifacts
      && last.noProgressLimit == row.noProgressLimit
      && (times != [] && row.noProgress + |times| >= row.noProgressLimit ==> last.verdict == Stop)
    decreases |times|
  {
    if times != [] {
      StallIsStopped(row, outputs, failure, times[..|times| - 1]);
    }
  }

  /** A budget of time or of checks, once used up, stays used up: only success gets past it. */
  predicate UsedUp(row: ProgressRow, now: Time) {
    row.startedAt.Some?
    && (now - row.startedAt.value >= row.maxElapsed
        || (row.maxChecks.Some? && row.checkCount.Some? && row.checkCount.value >= row.maxChecks.value))
  }

  lemma UsedUpStays(row: ProgressRow, outputs: Outputs, failure: Option<Digest>, checks: Option<nat>, succeeded: bool,
                    now: Time, later: Time)
    requires UsedUp(row, now) && now <= later
    ensures var next := Observe(row, outputs, failure, checks, succeeded, later);
      UsedUp(next, later) && next.verdict == if succeeded then Complete else Stop
  {
  }

  // ---------------------------------------------------------------- a whole history

  /** What one settled attempt reports. */
  datatype Report = Report(outputs: Outputs, failure: Option<Digest>, checks: Option<nat>, succeeded: bool, at: Time)

  /** The progress row after some reports. */
  function Observed(row: ProgressRow, reports: seq<Report>): (last: ProgressRow)
    requires row.startedAt.Some?
    ensures last.startedAt == row.startedAt
    decreases |reports|
  {
    if reports == [] then row
    else
      var r := reports[|reports| - 1];
      Observe(Observed(row, reports[..|reports| - 1]), r.outputs, r.failure, r.checks, r.succeeded, r.at)
  }

  /** A budget that has just started. */
  predicate JustStarted(row: ProgressRow) {
    && row.startedAt.Some? && row.observations == 0 && row.checkCount.None? && row.artifacts.None?
    && row.failure.None? && row.noProgress == 0
  }

  function ChecksIn(reports: seq<Report>): nat
    decreases |reports|
  {
    if reports == [] then 0 else ChecksIn(reports[..|reports| - 1]) + Count(reports[|reports| - 1].checks)
  }

  /** `k` is the last report before `i` that brought artifacts. */
  predicate LastBefore(reports: seq<Report>, i: nat, k: nat) {
    k < i <= |reports| && reports[k].outputs != map[] && forall j :: k < j < i ==> reports[j].outputs == map[]
  }

  /** Report `i` brought artifacts that differ from the last ones before. */
  predicate IsNews(reports: seq<Report>, i: nat)
    requires i < |reports|
  {
    && reports[i].outputs != map[]
    && forall k :: 0 <= k < i && LastBefore(reports, i, k) ==> reports[k].outputs != reports[i].outputs
  }

  /** Report `i` failed in the same way as the one before. */
  predicate IsRepeat(reports: seq<Report>, i: nat)
    requires i < |reports|
  {
    i > 0 && reports[i].failure.Some? && reports[i].failure == reports[i - 1].failure
  }

  /** The repetitions since the last news. */
  function Stalling(reports: seq<Report>): set<nat> {
    set i | 0 <= i < |reports| && IsRepeat(reports, i) && forall j :: i <= j < |reports| ==> !IsNews(reports, j)
  }

  /** What a row must say after some reports. */
  ghost predicate Tells(row: ProgressRow, reports: seq<Report>, last: ProgressRow) {
    && last.observations == |reports|
    && (last.checkCount.Some? <==> exists i :: 0 <= i < |reports| && reports[i].checks.Some?)
    && Count(last.checkCount) == ChecksIn(reports)
    && last.noProgress == |Stalling(reports)|
    && last.failure == (if reports == [] then None else reports[|reports| - 1].failure)
    && (last.artifacts.None? <==> forall k :: 0 <= k < |reports| ==> reports[k].outputs == map[])
    && (forall k :: 0 <= k < |reports| && LastBefore(reports, |reports|, k) ==> last.artifacts == Some(reports[k].outputs))
    && last.maxElapsed == row.maxElapsed && last.maxChecks == row.maxChecks && last.noProgressLimit == row.noProgressLimit
  }

  lemma NewsNext(reports: seq<Report>, r: Report)
    ensures forall i :: 0 <= i < |reports| ==> (IsNews(reports + [r], i) <==> IsNews(reports, i))
    ensures forall i :: 0 <= i < |reports| ==> (IsRepeat(reports + [r], i) <==> IsRepeat(reports, i))
  {
    var more := reports + [r];
    forall i, k | 0 <= k < i < |reports| ensures LastBefore(more, i, k) <==> LastBefore(reports, i, k) {
      assert forall j :: 0 <= j < |reports| ==> more[j] == reports[j];
    }
  }

  lemma StallingNext(reports: seq<Report>, r: Report)
    ensures var more, i := reports + [r], |reports|;
      Stalling(more) == if IsNews(more, i) then {} else Stalling(reports) + if IsRepeat(more, i) then {i} else {}
  {
    NewsNext(reports, r);
  }

  /** The last artifacts known are those of the last report that brought any. */
  lemma LastKnown(row: ProgressRow, reports: seq<Report>, last: ProgressRow, r: Report)
    requires Tells(row, reports, last)
    ensures IsNews(reports + [r], |reports|) <==> r.outputs != map[] && Some(r.outputs) != last.artifacts
  {
    var more := reports + [r];
    forall k | 0 <= k < |reports| ensures LastBefore(more, |reports|, k) <==> LastBefore(reports, |reports|, k) {
      assert forall j :: 0 <= j < |reports| ==> more[j] == reports[j];
    }
    if last.artifacts.Some? {
      var k := LastWithOutputs(reports);
      assert LastBefore(more, |reports|, k);
    }
  }

  lemma {:induction false} LastWithOutputs(reports: seq<Report>) returns (k: nat)
    requires exists i :: 0 <= i < |reports| && reports[i].outputs != map[]
    ensures LastBefore(reports, |reports|, k)
    decreases |reports|
  {
    k := |reports| - 1;
    if reports[k].outputs == map[] {
      var fewer := reports[..k];
      var i :| 0 <= i < |reports| && reports[i].outputs != map[];
      assert fewer[i].outputs != map[];
      k := LastWithOutputs(fewer);
    }
  }

  lemma ArtifactsNext(row: ProgressRow, reports: seq<Report>, last: ProgressRow, r: Report, now: ProgressRow)
    requires Tells(row, reports, last) && now.artifacts == if r.outputs == map[] then last.artifacts else Some(r.outputs)
    ensures var more := reports + [r];
      && (now.artifacts.None? <==> forall k :: 0 <= k < |more| ==> more[k].outputs == map[])
      && forall k :: 0 <= k < |more| && LastBefore(more, |more|, k) ==> now.artifacts == Some(more[k].outputs)
  {
    var more := reports + [r];
    assert more[|reports|] == r && forall j :: 0 <= j < |reports| ==> more[j] == reports[j];
    forall k | 0 <= k < |more| && LastBefore(more, |more|, k) ensures now.artifacts == Some(more[k].outputs) {
      if k < |reports| {
        assert LastBefore(reports, |reports|, k);
      }
    }
  }

  /** Over every history of reports the row counts them, the checks they report, and the repetitions since the last news. */
  lemma {:induction false} HistoryIsTold(row: ProgressRow, reports: seq<Report>)
    requires JustStarted(row)
    ensures Tells(row, reports, Observed(row, reports))
    decreases |reports|
  {
    if reports != [] {
      var fewer, r := reports[..|reports| - 1], reports[|reports| - 1];
      assert reports == fewer + [r];
      HistoryIsTold(row, fewer);
      StallingNext(fewer, r);
      LastKnown(row, fewer, Observed(row, fewer), r);
      ArtifactsNext(row, fewer, Observed(row, fewer), r, Observed(row, reports));
    }
  }

  /** Time, checks, or repetitions have reached their limit. */
  predicate Exceeds(row: ProgressRow, reports: seq<Report>, now: Time)
    requires row.startedAt.Some?
  {
    || Max(0, now - row.startedAt.value) >= row.maxElapsed
    || (row.maxChecks.Some? && ChecksIn(reports) >= row.maxChecks.value
        && exists i :: 0 <= i < |reports| && reports[i].checks.Some?)
    || |Stalling(reports)| >= row.noProgressLimit
  }

  /**
   The verdict on the last report of a history: complete if it succeeded; otherwise stop if and only if the time is up, all
   reported checks together reach their limit, or the repetitions since the last news reach theirs.
   */
  lemma VerdictOfHistory(row: ProgressRow, reports: seq<Report>)
    requires JustStarted(row) && reports != []
    ensures var r, verdict := reports[|reports| - 1], Observed(row, reports).verdict;
      && (verdict == Complete <==> r.succeeded)
      && (verdict == Stop <==> !r.succeeded && Exceeds(row, reports, r.at))
  {
    HistoryIsTold(row, reports);
    HistoryIsTold(row, reports[..|reports| - 1]);
  }

  /** What a settled attempt reports to the budget of its node: a failure its digest, a success none. */
  lemma SettlementReports(db: Db, n: NodeId, number: nat, digest: Digest, failure: Option<Failure>, outputs: Outputs,
                          checks: Option<nat>, generation: nat, now: Time)
    requires n in db.progress && db.progress[n].startedAt.Some?
    ensures var (later, reply) := FinishAttempt(db, n, number, digest, failure, outputs, checks, generation, now);
      var row := Observed(db.progress[n], [Report(outputs, Some(digest), checks, false, now)]);
      reply.Settled? ==> later.progress == db.progress[n := row] && reply.verdict == row.verdict
    ensures var (later, reply) := SucceedAttempt(db, n, number, digest, outputs, checks, generation, now);
      reply.Done? ==> later.progress == db.progress[n := Observed(db.progress[n], [Report(outputs, None, checks, true, now)])]
  {
    var failed, passed := Report(outputs, Some(digest), checks, false, now), Report(outputs, None, checks, true, now);
    assert [failed][..0] == [] && [passed][..0] == [];
  }
}
