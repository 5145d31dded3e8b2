/**
 The hash-chained lifecycle ledger and its reconnectable stream.  The digest of an event body is a function
 `hash`; only tamper evidence needs it to be injective.
 */
module Ledger {
  import opened Prelude

  type Digest = string

  const EventVersion := "graph-engineering.lifecycle/v1"
  const StreamVersion := "graph-engineering.event-stream/v1"
  const Genesis: Digest := "0000000000000000000000000000000000000000000000000000000000000000"
  const MaxStreamLimit: nat := 256

  const EventTypes: set<string> := {
    "run.started", "run.forked", "run.legacy_bootstrapped", "run.resumed", "run.succeeded", "run.failed",
    "run.cancelled", "run.needs_reconciliation", "node.pending", "node.running", "node.succeeded", "node.failed",
    "node.optional_failed", "node.cancelled", "node.uncertain", "node.blocked", "attempt.started",
    "attempt.succeeded", "attempt.failed", "attempt.interrupted", "attempt.cancelled", "artifact.accepted",
    "check.completed", "retry.scheduled", "progress.observed", "repair.routed", "reconciliation.decided",
    "integration.completed", "join.decided", "cancel.requested" }

  /** What a caller appends; `payload` has been bounded and redacted. */
  datatype Entry = Entry(key: string, eventType: string, node: Option<string>, attempt: Option<int>, payload: string)

  datatype Body = Body(version: string, runId: string, sequence: int, entry: Entry, previous: Digest, createdAt: int)
  datatype Row = Row(body: Body, digest: Digest)
  datatype Head = Head(count: int, digest: Digest)
  datatype Log = Log(rows: seq<Row>, head: Option<Head>)

  type Hash = Body -> Digest

  ghost predicate Injective(hash: Hash) { forall a, b :: hash(a) == hash(b) ==> a == b }

  datatype LedgerError =
    | Incomplete | NotActive | Deleted | ContextCorrupt | Corrupt | TypeInvalid | Conflict
    | LimitInvalid | CursorInvalid | CursorStale

  datatype Result<T> = Ok(value: T) | Err(error: LedgerError)

  // ---------------------------------------------------------------- the chain

  /** The digest a row at position `k` must name as its predecessor. */
  function DigestAt(rows: seq<Row>, k: nat): Digest
    requires k <= |rows|
  {
    if k == 0 then Genesis else rows[k - 1].digest
  }

  predicate LinkOk(hash: Hash, rows: seq<Row>, i: nat)
    requires i < |rows|
  {
    var body := rows[i].body;
    && body.version == EventVersion && body.sequence == i + 1 && body.previous == DigestAt(rows, i)
    && body.entry.eventType in EventTypes && rows[i].digest == hash(body)
  }

  predicate Chained(hash: Hash, rows: seq<Row>) { forall i :: 0 <= i < |rows| ==> LinkOk(hash, rows, i) }

  /** What `_verify_rows` accepts. */
  predicate Verified(hash: Hash, log: Log) {
    && Chained(hash, log.rows)
    && match log.head
       case None => log.rows == []
       case Some(head) => head == Head(|log.rows|, DigestAt(log.rows, |log.rows|))
  }

  /** `_verify_rows` */
  method VerifyRows(hash: Hash, log: Log) returns (accepted: bool)
    ensures accepted <==> Verified(hash, log)
  {
    var previous := Genesis;
    for i := 0 to |log.rows|
      invariant previous == DigestAt(log.rows, i)
      invariant forall j :: 0 <= j < i ==> LinkOk(hash, log.rows, j)
    {
      var row := log.rows[i];
      if || row.body.version != EventVersion || row.body.sequence != i + 1 || row.body.previous != previous
         || row.body.entry.eventType !in EventTypes || hash(row.body) != row.digest
      {
        assert !LinkOk(hash, log.rows, i);
        return false;
      }
      previous := row.digest;
    }
    if log.head.None? { return log.rows == []; }
    return log.head.value.count == |log.rows| && log.head.value.digest == previous;
  }

  /** Two verified histories that agree in one digest agree in everything up to it. */
  lemma {:induction false} DigestPinsPrefix(hash: Hash, a: seq<Row>, b: seq<Row>, k: nat)
    requires Injective(hash) && Chained(hash, a) && Chained(hash, b)
    requires k <= |a| && k <= |b| && DigestAt(a, k) == DigestAt(b, k)
    ensures a[..k] == b[..k]
  {
    if k > 0 {
      assert LinkOk(hash, a, k - 1) && LinkOk(hash, b, k - 1);
      assert a[k - 1] == b[k - 1];
      DigestPinsPrefix(hash, a, b, k - 1);
      assert a[..k] == a[..k - 1] + [a[k - 1]] && b[..k] == b[..k - 1] + [b[k - 1]];
    }
  }

  lemma OneHistory(hash: Hash, a: seq<Row>, b: seq<Row>, head: Option<Head>)
    requires Injective(hash) && Verified(hash, Log(a, head)) && Verified(hash, Log(b, head))
    ensures a == b
  {
    if head.Some? {
      DigestPinsPrefix(hash, a, b, |a|);
      assert a[..|a|] == a && b[..|b|] == b;
    }
  }

  /** Against the same head there is only one list of rows: any edit, drop, reordering or truncation is rejected. */
  lemma TamperEvident(hash: Hash, rows: seq<Row>, altered: seq<Row>, head: Option<Head>)
    requires Injective(hash) && Verified(hash, Log(rows, head)) && altered != rows
    ensures !Verified(hash, Log(altered, head))
  {
    if Verified(hash, Log(altered, head)) {
      OneHistory(hash, rows, altered, head);
    }
  }

  // ---------------------------------------------------------------- appending

  function FindKey(rows: seq<Row>, key: string): (found: Option<nat>)
    ensures found.Some? ==> found.value < |rows| && rows[found.value].body.entry.key == key
    ensures found.None? ==> forall i :: 0 <= i < |rows| ==> rows[i].body.entry.key != key
  {
    if rows == [] then None
    else if rows[0].body.entry.key == key then Some(0)
    else match FindKey(rows[1..], key)
      case None => None
      case Some(i) => Some(i + 1)
  }

  /** The row that extends the chain. */
  function NextRow(hash: Hash, runId: string, rows: seq<Row>, entry: Entry, now: int): Row {
    var body := Body(EventVersion, runId, |rows| + 1, entry, DigestAt(rows, |rows|), now);
    Row(body, hash(body))
  }

  /** `append_event_connection` on an active run. */
  function Append(hash: Hash, runId: string, log: Log, entry: Entry, now: int): (Log, Result<Row>) {
    if log.head.None? then (log, Err(Deleted))
    else if !Verified(hash, log) then (log, Err(Corrupt))
    else if entry.eventType !in EventTypes then (log, Err(TypeInvalid))
    else
      match FindKey(log.rows, entry.key)
      case Some(i) =>
        if log.rows[i].body.entry == entry then (log, Ok(log.rows[i])) else (log, Err(Conflict))
      case None =>
        var row := NextRow(hash, runId, log.rows, entry, now);
        (Log(log.rows + [row], Some(Head(|log.rows| + 1, row.digest))), Ok(row))
  }

  predicate DistinctKeys(rows: seq<Row>) {
    forall i, j :: 0 <= i < j < |rows| ==> rows[i].body.entry.key != rows[j].body.entry.key
  }

  /** Whatever is recorded under the key of `entry` is `entry`. */
  predicate NoConflict(rows: seq<Row>, entry: Entry) {
    forall i :: 0 <= i < |rows| && rows[i].body.entry.key == entry.key ==> rows[i].body.entry == entry
  }

  /** An intact ledger. */
  predicate Intact(hash: Hash, log: Log) { log.head.Some? && Verified(hash, log) && DistinctKeys(log.rows) }

  /** Every append leaves an intact ledger intact, and only ever adds at the end. */
  lemma AppendKeepsIntact(hash: Hash, runId: string, log: Log, entry: Entry, now: int)
    requires Intact(hash, log)
    ensures var (later, reply) := Append(hash, runId, log, entry, now);
      && Intact(hash, later) && log.rows <= later.rows && |later.rows| <= |log.rows| + 1
      && (reply.Ok? <==> entry.eventType in EventTypes && NoConflict(log.rows, entry))
  {
    var (later, reply) := Append(hash, runId, log, entry, now);
    forall i | 0 <= i < |later.rows| ensures LinkOk(hash, later.rows, i) {
      if i < |log.rows| { assert LinkOk(hash, log.rows, i); }
    }
  }

  lemma {:induction false} FoundLast(rows: seq<Row>, row: Row, key: string)
    requires FindKey(rows, key).None? && row.body.entry.key == key
    ensures FindKey(rows + [row], key) == Some(|rows|)
  {
    if rows != [] {
      FoundLast(rows[1..], row, key);
      assert (rows + [row])[1..] == rows[1..] + [row];
    }
  }

  /** Appending again under the same key: the same entry changes nothing, another one is refused. */
  lemma AppendIsIdempotent(hash: Hash, runId: string, log: Log, entry: Entry, now: int, again: Entry, later: int)
    requires Intact(hash, log) && Append(hash, runId, log, entry, now).1.Ok?
    requires again.key == entry.key && again.eventType in EventTypes
    ensures var (grown, first) := Append(hash, runId, log, entry, now);
      Append(hash, runId, grown, again, later) == (grown, if again == entry then first else Err(Conflict))
  {
    var (grown, first) := Append(hash, runId, log, entry, now);
    AppendKeepsIntact(hash, runId, log, entry, now);
    if FindKey(log.rows, entry.key).None? {
      FoundLast(log.rows, first.value, entry.key);
    }
  }

  /** The events of route and loop decisions and of skipped nodes, as the state store names them. */
  const ControlEvents: set<string> := { "route.decided", "loop.decided", "node.skipped" }

  /**
   None of them is a known event type, so on an active run no such event is ever recorded, and the transaction it
   belongs to is rolled back.  Conditional routes and loops therefore take effect on legacy runs only.
   */
  lemma ControlEventsAreRefused(hash: Hash, runId: string, log: Log, entry: Entry, now: int)
    requires Intact(hash, log) && entry.eventType in ControlEvents
    ensures Append(hash, runId, log, entry, now) == (log, Err(TypeInvalid))
  {
  }

  // ---------------------------------------------------------------- streaming

  /** A cursor as a client hands it back. */
  datatype Wire = Malformed | Wire(version: string, runId: string, sequence: int, digest: Digest)
  datatype Cursor = Cursor(sequence: nat, digest: Digest)

  function EncodeCursor(runId: string, sequence: int, digest: Digest): Wire { Wire(StreamVersion, runId, sequence, digest) }

  function DecodeCursor(wire: Wire, runId: string): Result<Cursor> {
    if wire.Malformed? || wire.version != StreamVersion || wire.runId != runId || wire.sequence < 0
    then Err(CursorInvalid) else Ok(Cursor(wire.sequence, wire.digest))
  }

  datatype Batch = Batch(events: seq<Row>, next: Wire, hasMore: bool)

  /** The batch that one snapshot of the ledger yields. */
  function Fetch(runId: string, rows: seq<Row>, wire: Option<Wire>, limit: nat): Result<Batch> {
    if !(1 <= limit <= MaxStreamLimit) then Err(LimitInvalid)
    else
      var cursor := if wire.Some? then DecodeCursor(wire.value, runId) else Ok(Cursor(0, Genesis));
      if cursor.Err? then Err(cursor.error)
      else if cursor.value.sequence > |rows| then Err(CursorInvalid)
      else if cursor.value.digest != DigestAt(rows, cursor.value.sequence) then Err(CursorStale)
      else
        var start := cursor.value.sequence;
        var end := Min(start + limit, |rows|);
        Ok(Batch(rows[start..end], EncodeCursor(runId, end, DigestAt(rows, end)), end < |rows|))
  }

  /** A consumer of the stream, next to the ledger it reads. */
  datatype Client = Client(log: Log, delivered: seq<Row>, cursor: Option<Wire>)

  datatype Step = Appends(entry: Entry, now: int) | Fetches(limit: nat)

  function Next(hash: Hash, runId: string, c: Client, step: Step): Client {
    match step
    case Appends(entry, now) => c.(log := Append(hash, runId, c.log, entry, now).0)
    case Fetches(limit) =>
      match Fetch(runId, c.log.rows, c.cursor, limit)
      case Err(_) => c
      case Ok(batch) => c.(delivered := c.delivered + batch.events, cursor := Some(batch.next))
  }

  function Steps(hash: Hash, runId: string, c: Client, steps: seq<Step>): Client
    decreases |steps|
  {
    if steps == [] then c else Next(hash, runId, Steps(hash, runId, c, steps[..|steps| - 1]), steps[|steps| - 1])
  }

  /** The consumer has seen exactly a prefix of the ledger, and its cursor says where it ends. */
  predicate InStep(hash: Hash, runId: string, c: Client) {
    && Intact(hash, c.log) && c.delivered <= c.log.rows
    && if c.cursor.None? then c.delivered == []
       else c.cursor == Some(EncodeCursor(runId, |c.delivered|, DigestAt(c.log.rows, |c.delivered|)))
  }

  lemma StaysInStep(hash: Hash, runId: string, c: Client, step: Step)
    requires InStep(hash, runId, c)
    ensures InStep(hash, runId, Next(hash, runId, c, step))
  {
    match step
    case Appends(entry, now) =>
      AppendKeepsIntact(hash, runId, c.log, entry, now);
      assert DigestAt(Append(hash, runId, c.log, entry, now).0.rows, |c.delivered|) == DigestAt(c.log.rows, |c.delivered|);
    case Fetches(limit) =>
      FetchContinues(hash, runId, c, limit);
  }

  /** With a limit in range a fetch always succeeds, and continues where the last one ended. */
  lemma FetchContinues(hash: Hash, runId: string, c: Client, limit: nat)
    requires InStep(hash, runId, c)
    ensures var start, end := |c.delivered|, Min(|c.delivered| + limit, |c.log.rows|);
      Fetch(runId, c.log.rows, c.cursor, limit) ==
        if 1 <= limit <= MaxStreamLimit
        then Ok(Batch(c.log.rows[start..end], EncodeCursor(runId, end, DigestAt(c.log.rows, end)), end < |c.log.rows|))
        else Err(LimitInvalid)
    ensures var end := Min(|c.delivered| + limit, |c.log.rows|);
      c.delivered + c.log.rows[|c.delivered|..end] == c.log.rows[..end]
  {
    assert c.log.rows[..|c.delivered|] == c.delivered;
  }

  /**
   Whatever is appended in between and whatever limits are used, the batches together are exactly a prefix of
   the ledger: no gap, no duplicate, no change.
   */
  lemma {:induction false} StreamIsPrefix(hash: Hash, runId: string, log: Log, steps: seq<Step>)
    requires Intact(hash, log)
    ensures InStep(hash, runId, Steps(hash, runId, Client(log, [], None), steps))
    decreases |steps|
  {
    if steps != [] {
      var before := steps[..|steps| - 1];
      StreamIsPrefix(hash, runId, log, before);
      StaysInStep(hash, runId, Steps(hash, runId, Client(log, [], None), before), steps[|steps| - 1]);
    }
  }

  /** A fetch that reports no more has delivered everything; any other fetch brings the consumer closer. */
  lemma FetchCompletes(hash: Hash, runId: string, c: Client, limit: nat)
    requires InStep(hash, runId, c) && 1 <= limit <= MaxStreamLimit
    ensures var later, batch := Next(hash, runId, c, Fetches(limit)), Fetch(runId, c.log.rows, c.cursor, limit).value;
      && (!batch.hasMore <==> later.delivered == c.log.rows)
      && (batch.hasMore ==> |later.delivered| == |c.delivered| + limit)
  {
    FetchContinues(hash, runId, c, limit);
  }

  /** A cursor is good for any verified ledger of the run that still has the history it was issued for, and for no other. */
  lemma CursorPinsHistory(hash: Hash, runId: string, issued: seq<Row>, k: nat, rows: seq<Row>, limit: nat)
    requires Injective(hash) && Chained(hash, issued) && Chained(hash, rows) && k <= |issued| && 1 <= limit <= MaxStreamLimit
    ensures Fetch(runId, rows, Some(EncodeCursor(runId, k, DigestAt(issued, k))), limit).Ok?
            <==> k <= |rows| && rows[..k] == issued[..k]
  {
    if k <= |rows| && DigestAt(rows, k) == DigestAt(issued, k) {
      DigestPinsPrefix(hash, issued, rows, k);
    }
    if k <= |rows| && rows[..k] == issued[..k] && k > 0 {
      assert rows[k - 1] == rows[..k][k - 1] == issued[..k][k - 1] == issued[k - 1];
    }
  }

  // ---------------------------------------------------------------- the store

  datatype LifecycleState = Legacy | PendingBootstrap | Active
  datatype ContextRow = Missing | Damaged | Whole
  datatype Streamed = Streamed(batch: Batch, terminal: bool, timedOut: bool)

  class LifecycleStore {
    const hash: Hash
    const runId: string
    var state: LifecycleState
    var context: ContextRow
    var rows: seq<Row>
    var head: Option<Head>
    var runEnded: bool

    /** The context an active run is bootstrapped with, and an empty ledger. */
    constructor (hash: Hash, runId: string)
      ensures Valid() && this.hash == hash && this.runId == runId && rows == []
    {
      this.hash, this.runId := hash, runId;
      state, context, rows, head, runEnded := Active, Whole, [], Some(Head(0, Genesis)), false;
    }

    function Contents(): Log
      reads this
    {
      Log(rows, head)
    }

    predicate Valid()
      reads this
    {
      state.Active? && context.Whole? && Intact(hash, Contents())
    }

    /** `_read_active_snapshot` */
    method Snapshot() returns (reply: Result<seq<Row>>)
      ensures Valid() ==> reply == Ok(rows)
      ensures reply.Ok? ==> state.Active? && context.Whole? && Verified(hash, Contents()) && reply.value == rows
    {
      if !state.Active? { return Err(NotActive); }
      if context.Missing? || head.None? { return Err(Deleted); }
      if context.Damaged? { return Err(ContextCorrupt); }
      var accepted := VerifyRows(hash, Contents());
      return if accepted then Ok(rows) else Err(Corrupt);
    }

    /** `append_event_connection`: on a legacy run nothing is recorded. */
    method Record(entry: Entry, now: int) returns (reply: Result<Option<Row>>)
      modifies this
      ensures state == old(state) && context == old(context) && runEnded == old(runEnded)
      ensures old(state.Legacy?) ==> Contents() == old(Contents()) && reply == Ok(None)
      ensures old(state.PendingBootstrap?) ==> Contents() == old(Contents()) && reply == Err(Incomplete)
      ensures old(Valid()) ==>
        var (later, answer) := Append(hash, runId, old(Contents()), entry, now);
        && Contents() == later
        && reply == match answer case Ok(row) => Ok(Some(row)) case Err(error) => Err(error)
      ensures old(Valid()) ==> Valid() && old(rows) <= rows
      ensures reply.Err? ==> Contents() == old(Contents())
    {
      if state.Legacy? { return Ok(None); }
      if !state.Active? { return Err(Incomplete); }
      if Valid() { AppendKeepsIntact(hash, runId, Contents(), entry, now); }
      var snapshot := Snapshot();
      if snapshot.Err? { return Err(snapshot.error); }
      if entry.eventType !in EventTypes { return Err(TypeInvalid); }
      var existing := FindKey(rows, entry.key);
      if existing.Some? {
        if rows[existing.value].body.entry != entry { return Err(Conflict); }
        return Ok(Some(rows[existing.value]));
      }
      var row := NextRow(hash, runId, rows, entry, now);
      rows, head := rows + [row], Some(Head(|rows| + 1, row.digest));
      return Ok(Some(row));
    }

    /** Whatever other connections do in the meantime. */
    method Elsewhere()
      requires Valid()
      modifies this
      ensures Valid() && old(rows) <= rows
    {
      var times: nat :| times >= 0;
      for k := 0 to times
        invariant Valid() && old(rows) <= rows
      {
        var entry: Entry, now: int := *, *;
        var reply := Record(entry, now);
      }
      runEnded := *;
    }

    /**
     `stream`, polling at most `polls` more times before the wait is over.  The batch is what one snapshot yields,
     taken at some moment of the call.
     */
    method Stream(wire: Option<Wire>, limit: nat, polls: nat) returns (reply: Result<Streamed>, ghost seen: seq<Row>)
      requires Valid()
      modifies this
      ensures Valid() && old(rows) <= seen <= rows
      ensures match Fetch(runId, seen, wire, limit)
              case Err(error) => reply == Err(error)
              case Ok(batch) => reply.Ok? && reply.value.batch == batch
      ensures reply.Ok? && reply.value.terminal ==> !reply.value.batch.hasMore
      ensures reply.Ok? && reply.value.timedOut ==> reply.value.batch.events == [] && polls > 0
    {
      seen := rows;
      if !(1 <= limit <= MaxStreamLimit) { return Err(LimitInvalid), seen; }
      var cursor := if wire.Some? then DecodeCursor(wire.value, runId) else Ok(Cursor(0, Genesis));
      if cursor.Err? { return Err(cursor.error), seen; }
      var start, left := cursor.value.sequence, polls;
      while true
        invariant Valid() && old(rows) <= seen <= rows
        decreases left
      {
        var snapshot := Snapshot();
        var events := snapshot.value;
        seen := events;
        if start > |events| { return Err(CursorInvalid), seen; }
        if cursor.value.digest != DigestAt(events, start) { return Err(CursorStale), seen; }
        Elsewhere();
        var ended := runEnded;
        if start < |events| || ended || left == 0 {
          var end := Min(start + limit, |events|);
          var batch := Batch(events[start..end], EncodeCursor(runId, end, DigestAt(events, end)), end < |events|);
          return Ok(Streamed(batch, ended && !batch.hasMore, start == |events| && !ended && polls > 0)), seen;
        }
        left := left - 1;
        Elsewhere();
      }
    }
  }
}
