/**
 * `insertTracksInBatches`: executes the insert statement once per record, in
 * order, committing after every `size`-th record and once more at the end,
 * and stops at the first failing sink call.
 */
module Loader {
  import opened Wrappers
  import opened Streaming
  import opened InsertSql
  import opened Batching
  import opened Db

  /** Which sink call produced the error the loader returns. */
  datatype SinkError = BeginError | PrepareError | ExecError | CommitError | CloseError

  /**
   * Where a run ended. `count` is the number of records whose Exec had
   * succeeded at that point (the loader's `count` variable).
   */
  datatype Stop =
    | Finished                                  // the final commit succeeded
    | StartFailed(error: SinkError)             // the first Begin or Prepare failed
    | ExecFailed(count: nat)                    // the Exec of record number `count` failed
    | BatchFailed(error: SinkError, count: nat) // a call ending the batch that ends at record `count` failed
    | FinalCommitFailed                         // the commit after the last record failed

  /** The stops a run over `n` records with batch size `size` can reach. */
  predicate Reachable(stop: Stop, n: nat, size: nat)
    requires size > 0
  {
    match stop
    case Finished => true
    case StartFailed(e) => e == BeginError || e == PrepareError
    case ExecFailed(c) => c < n
    case BatchFailed(e, c) => e != ExecError && 0 < c <= n && Boundary(c, size) == c
    case FinalCommitFailed => true
  }

  /** The error the loader returns when the run ends at `stop`. */
  function ErrorOf(stop: Stop): Option<SinkError> {
    match stop
    case Finished => None
    case StartFailed(e) => Some(e)
    case ExecFailed(_) => Some(ExecError)
    case BatchFailed(e, _) => Some(e)
    case FinalCommitFailed => Some(CommitError)
  }

  /** How many of the `n` records are durable when the run ends at `stop`. */
  function Durable(stop: Stop, n: nat, size: nat): nat
    requires size > 0 && Reachable(stop, n, size)
  {
    match stop
    case Finished => n
    case StartFailed(_) => 0
    case ExecFailed(c) => Boundary(c, size)
    case BatchFailed(e, c) => if e == CommitError then c - size else c
    case FinalCommitFailed => Boundary(n, size)
  }

  /** How many of the `n` records were handed to Exec when the run ends at `stop`. */
  function Attempted(stop: Stop, n: nat): nat {
    match stop
    case Finished => n
    case StartFailed(_) => 0
    case ExecFailed(c) => c + 1
    case BatchFailed(_, c) => c
    case FinalCommitFailed => n
  }

  /** The number of Rollback calls the loader makes on its way out from `stop`. */
  function RollbacksAt(stop: Stop): nat {
    match stop
    case Finished => 0
    case StartFailed(e) => if e == PrepareError then 1 else 0
    case ExecFailed(_) => 1
    case BatchFailed(e, _) => if e == CommitError || e == PrepareError then 1 else 0
    case FinalCommitFailed => 1
  }

  /** Whether the loader returns with a transaction still open: only when closing a statement failed after a new Begin. */
  predicate LeavesOpen(stop: Stop) {
    stop.BatchFailed? && stop.error == CloseError
  }

  /** The rows the records become, in order. */
  function Rows(records: seq<SongStreaming>): seq<Row> {
    seq(|records|, i requires 0 <= i < |records| => RowOf(records[i]))
  }

  /** The Exec argument lists of the records, in order. */
  function ArgLists(records: seq<SongStreaming>): seq<seq<SqlValue>> {
    seq(|records|, i requires 0 <= i < |records| => ExecArgs(records[i]))
  }

  /** The batches committed on the way to `stop`. */
  function CommittedBatches(stop: Stop, rows: seq<Row>, size: nat): seq<seq<Row>>
    requires size > 0 && Reachable(stop, |rows|, size)
  {
    if stop == Finished then CommitPlan(rows, size)
    else FullBatches(rows[..Durable(stop, |rows|, size)], size)
  }

  /**
   * What a run over `tracks` that ended at `stop` leaves in the sink, given
   * what it held before: the durable prefix of the records, the batches
   * committed, the records handed to Exec and the rollbacks attempted.
   */
  ghost predicate Reported(stop: Stop, tracks: seq<SongStreaming>, size: nat, before: Log, after: Log)
    requires size > 0 && Reachable(stop, |tracks|, size)
  {
    && after.committed == before.committed + Rows(tracks)[..Durable(stop, |tracks|, size)]
    && after.commits == before.commits + CommittedBatches(stop, Rows(tracks), size)
    && after.execs == before.execs + ArgLists(tracks)[..Attempted(stop, |tracks|)]
    && after.rollbacks == before.rollbacks + RollbacksAt(stop)
  }

  /**
   * The sink in the middle of the loop: `count` records executed, the batch
   * that started at record `start` open and holding the rows since then, and
   * every batch before it committed.
   */
  ghost predicate InBatch(tracks: seq<SongStreaming>, size: nat, start: nat, count: nat, before: Log, now: Log, pending: seq<Row>)
    requires size > 0
  {
    && Boundary(start, size) == start && start <= count <= start + size && count <= |tracks|
    && now.committed == before.committed + Rows(tracks)[..start]
    && pending == Rows(tracks)[start..count]
    && now.commits == before.commits + FullBatches(Rows(tracks)[..start], size)
    && now.execs == before.execs + ArgLists(tracks)[..count]
    && now.rollbacks == before.rollbacks
  }

  /** A failure before the loop: nothing is durable and nothing was executed. */
  lemma StartFailedReported(e: SinkError, tracks: seq<SongStreaming>, size: nat, before: Log, after: Log)
    requires size > 0 && (e == BeginError || e == PrepareError)
    requires after == before.(rollbacks := before.rollbacks + if e == PrepareError then 1 else 0)
    ensures Reachable(StartFailed(e), |tracks|, size) && Reported(StartFailed(e), tracks, size, before, after)
  {
    assert Rows(tracks)[..0] == [] && ArgLists(tracks)[..0] == [];
    assert FullBatches(Rows(tracks)[..0], size) == [];
  }

  /** A successful Exec of record `count` adds its row to the open batch. */
  lemma ExecSucceeded(tracks: seq<SongStreaming>, size: nat, start: nat, count: nat, before: Log, now: Log, pending: seq<Row>,
                      after: Log, pending': seq<Row>)
    requires size > 0 && count < |tracks| && count < start + size
    requires InBatch(tracks, size, start, count, before, now, pending)
    requires after == now.(execs := now.execs + [ExecArgs(tracks[count])]) && pending' == pending + [RowOf(tracks[count])]
    ensures InBatch(tracks, size, start, count + 1, before, after, pending')
  {
    var rows, args := Rows(tracks), ArgLists(tracks);
    assert rows[start..count + 1] == rows[start..count] + [rows[count]];
    assert args[..count + 1] == args[..count] + [args[count]];
  }

  /** A failed Exec of record `count`, followed by a rollback: the open batch is lost, earlier ones stay. */
  lemma ExecFailedReported(tracks: seq<SongStreaming>, size: nat, start: nat, count: nat, before: Log, now: Log, pending: seq<Row>, after: Log)
    requires size > 0 && count < |tracks| && count < start + size
    requires InBatch(tracks, size, start, count, before, now, pending)
    requires after == now.(execs := now.execs + [ExecArgs(tracks[count])], rollbacks := now.rollbacks + 1)
    ensures Reachable(ExecFailed(count), |tracks|, size) && Reported(ExecFailed(count), tracks, size, before, after)
  {
    BoundaryOf(start, count - start, size);
    var args := ArgLists(tracks);
    assert args[..count + 1] == args[..count] + [args[count]];
  }

  /** Committing a full batch makes its rows durable and records it as one more full batch. */
  lemma BatchCommitted(tracks: seq<SongStreaming>, size: nat, start: nat, count: nat, before: Log, now: Log, pending: seq<Row>, after: Log)
    requires size > 0 && count == start + size
    requires InBatch(tracks, size, start, count, before, now, pending)
    requires after == now.(committed := now.committed + pending, commits := now.commits + [pending])
    ensures Boundary(count, size) == count
    ensures InBatch(tracks, size, count, count, before, after, [])
  {
    var rows := Rows(tracks);
    var done, batch := rows[..start], rows[start..count];
    BatchEnds(start, size, size);
    assert |done| == start && |batch| == size;
    assert done + batch == rows[..count];
    FullBatchesSnoc(done, batch, size);
    calc {
      after.committed;
      (before.committed + done) + batch;
      before.committed + (done + batch);
    }
  }

  /** A failure among the calls that end the full batch ending at record `count`. */
  lemma BatchFailedReported(e: SinkError, tracks: seq<SongStreaming>, size: nat, start: nat, count: nat,
                            before: Log, now: Log, pending: seq<Row>, after: Log)
    requires size > 0 && count == start + size && e != ExecError
    requires InBatch(tracks, size, start, count, before, now, pending)
    requires e == CommitError ==> after == now.(rollbacks := now.rollbacks + 1)
    requires e != CommitError ==>
      after == now.(committed := now.committed + pending, commits := now.commits + [pending],
                    rollbacks := now.rollbacks + if e == PrepareError then 1 else 0)
    ensures Reachable(BatchFailed(e, count), |tracks|, size) && Reported(BatchFailed(e, count), tracks, size, before, after)
  {
    BatchCommitted(tracks, size, start, count, before, now, pending,
                   now.(committed := now.committed + pending, commits := now.commits + [pending]));
  }

  /** A successful last commit makes the remainder durable: all records are committed, batch by batch. */
  lemma FinalCommitSucceeded(tracks: seq<SongStreaming>, size: nat, start: nat, before: Log, now: Log, pending: seq<Row>, after: Log)
    requires size > 0 && |tracks| < start + size
    requires InBatch(tracks, size, start, |tracks|, before, now, pending)
    requires after == now.(committed := now.committed + pending, commits := now.commits + [pending])
    ensures Reported(Finished, tracks, size, before, after)
  {
    var rows := Rows(tracks);
    assert pending == rows[start..];
    LastBatchCompletesPlan(rows, size, start, before, now, pending);
    assert rows[..|tracks|] == rows;
    assert ArgLists(tracks)[..|tracks|] == ArgLists(tracks);
  }

  /** Committing the last, partial batch completes the commit plan of all rows. */
  lemma LastBatchCompletesPlan(rows: seq<Row>, size: nat, start: nat, before: Log, now: Log, pending: seq<Row>)
    requires size > 0 && Boundary(start, size) == start && start <= |rows| < start + size
    requires now.committed == before.committed + rows[..start] && pending == rows[start..]
    requires now.commits == before.commits + FullBatches(rows[..start], size)
    ensures now.committed + pending == before.committed + rows
    ensures now.commits + [pending] == before.commits + CommitPlan(rows, size)
  {
    BoundaryOf(start, |rows| - start, size);
    CommitPlanSplit(rows, size);
    assert rows[..start] + rows[start..] == rows;
  }

  /** A failed last commit, followed by a rollback, loses only the remainder. */
  lemma FinalCommitFailedReported(tracks: seq<SongStreaming>, size: nat, start: nat, before: Log, now: Log, pending: seq<Row>, after: Log)
    requires size > 0 && |tracks| < start + size
    requires InBatch(tracks, size, start, |tracks|, before, now, pending)
    requires after == now.(rollbacks := now.rollbacks + 1)
    ensures Reported(FinalCommitFailed, tracks, size, before, after)
  {
    BoundaryOf(start, |tracks| - start, size);
    assert ArgLists(tracks)[..|tracks|] == ArgLists(tracks);
  }

  /**
   * A run loses at most the batch in flight: only a successful run returns no
   * error, every other stop leaves a durable prefix that ends on a batch
   * boundary, and at most `size` records were handed to Exec beyond it.
   */
  lemma LossBounded(stop: Stop, n: nat, size: nat)
    requires size > 0 && Reachable(stop, n, size)
    ensures ErrorOf(stop).None? <==> stop == Finished
    ensures Durable(stop, n, size) <= Attempted(stop, n) <= n
    ensures stop != Finished ==> Boundary(Durable(stop, n, size), size) == Durable(stop, n, size)
    ensures stop != Finished ==> Attempted(stop, n) - Durable(stop, n, size) <= size
  {
    match stop
    case Finished =>
    case StartFailed(_) =>
    case ExecFailed(c) =>
      BoundaryBounds(c, size);
    case BatchFailed(e, c) =>
      if e == CommitError {
        BoundaryBounds(c, size);
        assert c >= size;
        assert Boundary(c, size) == size + Boundary(c - size, size);
        BoundaryBounds(c - size, size);
      }
    case FinalCommitFailed =>
      BoundaryBounds(n, size);
  }

  /** The committed batches hold exactly the durable records, in order. */
  lemma CommittedBatchesFlatten(stop: Stop, rows: seq<Row>, size: nat)
    requires size > 0 && Reachable(stop, |rows|, size)
    ensures Flatten(CommittedBatches(stop, rows, size)) == rows[..Durable(stop, |rows|, size)]
    ensures stop != Finished ==> forall i :: 0 <= i < |CommittedBatches(stop, rows, size)| ==> |CommittedBatches(stop, rows, size)[i]| == size
  {
    if stop == Finished {
      CommitPlanShape(rows, size);
      assert rows[..|rows|] == rows;
    } else {
      LossBounded(stop, |rows|, size);
      var durable := rows[..Durable(stop, |rows|, size)];
      FullBatchesShape(durable, size);
      assert durable[..Boundary(|durable|, size)] == durable;
    }
  }

  /**
   * The whole load: a non-positive batch size becomes 50, a first
   * transaction is begun and the insert prepared on it, the records are
   * executed batch by batch, and a last commit covers what remains.
   */
  method InsertTracksInBatches(db: Sink, tracks: seq<SongStreaming>, batchSize: int)
    returns (err: Option<SinkError>, ghost stop: Stop)
    requires db.Valid() && !db.open
    modifies db
    ensures db.Valid() && db.pending == []
    ensures Reachable(stop, |tracks|, EffectiveBatchSize(batchSize))
    ensures err == ErrorOf(stop)
    ensures Reported(stop, tracks, EffectiveBatchSize(batchSize), old(db.Snapshot()), db.Snapshot())
    ensures db.open <==> LeavesOpen(stop)
  {
    var size := EffectiveBatchSize(batchSize);
    ghost var before := db.Snapshot();

    var ok := db.Begin();
    if !ok {
      StartFailedReported(BeginError, tracks, size, before, db.Snapshot());
      return Some(BeginError), StartFailed(BeginError);
    }
    ok := db.Prepare(InsertSQL);
    if !ok {
      ok := db.Rollback();
      StartFailedReported(PrepareError, tracks, size, before, db.Snapshot());
      return Some(PrepareError), StartFailed(PrepareError);
    }

    var failed := ExecInBatches(db, tracks, size);
    if failed.Some? {
      return ErrorOf(failed.value), failed.value;
    }

    ghost var start := Boundary(|tracks|, size);
    ghost var now, pending := db.Snapshot(), db.pending;
    ok := db.Commit();
    if !ok {
      ok := db.Rollback();
      FinalCommitFailedReported(tracks, size, start, before, now, pending, db.Snapshot());
      return Some(CommitError), FinalCommitFailed;
    }
    FinalCommitSucceeded(tracks, size, start, before, now, pending, db.Snapshot());
    return None, Finished;
  }

  /**
   * The loop over the records: one Exec per record, in order, and at every
   * `size`-th success the batch is committed and the next one started. It
   * returns the stop when a sink call fails; otherwise every record has been
   * executed and the last, partial batch is still open.
   */
  method ExecInBatches(db: Sink, tracks: seq<SongStreaming>, size: nat) returns (failed: Option<Stop>)
    requires size > 0
    requires db.Valid() && db.Ready() && db.stmt.value.query == InsertSQL && db.pending == []
    modifies db
    ensures db.Valid()
    ensures failed.Some? ==> && (failed.value.ExecFailed? || failed.value.BatchFailed?)
                             && Reachable(failed.value, |tracks|, size)
                             && Reported(failed.value, tracks, size, old(db.Snapshot()), db.Snapshot())
                             && db.pending == [] && (db.open <==> LeavesOpen(failed.value))
    ensures failed.None? ==> && db.Ready()
                             && InBatch(tracks, size, Boundary(|tracks|, size), |tracks|, old(db.Snapshot()), db.Snapshot(), db.pending)
  {
    ghost var before := db.Snapshot();
    var count := 0;
    ghost var start := 0;
    assert Rows(tracks)[..0] == [] && Rows(tracks)[0..0] == [] && ArgLists(tracks)[..0] == [];
    for i := 0 to |tracks|
      invariant count == i && i < start + size
      invariant db.Valid() && db.Ready() && db.stmt.value.query == InsertSQL
      invariant InBatch(tracks, size, start, i, before, db.Snapshot(), db.pending)
    {
      failed := ExecRecord(db, tracks, size, start, count, before);
      if failed.Some? {
        return;
      }
      count := count + 1;
      BatchEnds(start, count - start, size);
      if count % size == 0 {
        failed := EndBatch(db, tracks, size, start, count, before);
        if failed.Some? {
          return;
        }
        start := count;
      }
    }
    BoundaryOf(start, count - start, size);
    return None;
  }

  /**
   * One record of the loop: its Exec on the open statement. A failure rolls
   * the transaction back and ends the run.
   */
  method ExecRecord(db: Sink, tracks: seq<SongStreaming>, size: nat, ghost start: nat, count: nat, ghost before: Log)
    returns (failed: Option<Stop>)
    requires size > 0 && count < |tracks| && count < start + size
    requires db.Valid() && db.Ready() && db.stmt.value.query == InsertSQL
    requires InBatch(tracks, size, start, count, before, db.Snapshot(), db.pending)
    modifies db
    ensures db.Valid()
    ensures failed.Some? ==> && failed.value == ExecFailed(count)
                             && Reachable(failed.value, |tracks|, size)
                             && Reported(failed.value, tracks, size, before, db.Snapshot())
                             && db.pending == [] && !db.open
    ensures failed.None? ==> && db.Ready() && db.stmt.value.query == InsertSQL
                             && InBatch(tracks, size, start, count + 1, before, db.Snapshot(), db.pending)
  {
    var track := tracks[count];
    ghost var now, pending := db.Snapshot(), db.pending;
    ExecArgsFit(track);
    var ok := db.Exec(ExecArgs(track));
    if !ok {
      ok := db.Rollback();
      ExecFailedReported(tracks, size, start, count, before, now, pending, db.Snapshot());
      return Some(ExecFailed(count));
    }
    ExecSucceeded(tracks, size, start, count, before, now, pending, db.Snapshot(), db.pending);
    return None;
  }

  /**
   * The end of a full batch: commit it and start the next transaction and
   * statement. A failure ends the run with the batch's stop.
   */
  method EndBatch(db: Sink, tracks: seq<SongStreaming>, size: nat, ghost start: nat, count: nat, ghost before: Log)
    returns (failed: Option<Stop>)
    requires size > 0 && count == start + size
    requires db.Valid() && db.Ready() && db.stmt.value.query == InsertSQL
    requires InBatch(tracks, size, start, count, before, db.Snapshot(), db.pending)
    modifies db
    ensures db.Valid()
    ensures failed.Some? ==> && failed.value.BatchFailed?
                             && Reachable(failed.value, |tracks|, size)
                             && Reported(failed.value, tracks, size, before, db.Snapshot())
                             && db.pending == [] && (db.open <==> LeavesOpen(failed.value))
    ensures failed.None? ==> && db.Ready() && db.stmt.value.query == InsertSQL
                             && Boundary(count, size) == count
                             && InBatch(tracks, size, count, count, before, db.Snapshot(), db.pending)
  {
    ghost var now, pending := db.Snapshot(), db.pending;
    var err := CommitAndStartNextBatch(db);
    if err.Some? {
      BatchFailedReported(err.value, tracks, size, start, count, before, now, pending, db.Snapshot());
      return Some(BatchFailed(err.value, count));
    }
    BatchCommitted(tracks, size, start, count, before, now, pending, db.Snapshot());
    return None;
  }

  /**
   * The end of a full batch: commit it, begin the next transaction, close the
   * previous statement and prepare the insert on the new transaction. A
   * failed commit or prepare is followed by a rollback; a failed close leaves
   * the new transaction open.
   */
  method CommitAndStartNextBatch(db: Sink) returns (err: Option<SinkError>)
    requires db.Valid() && db.Ready() && db.stmt.value.query == InsertSQL
    modifies db
    ensures db.Valid()
    ensures err.None? || err.value != ExecError
    ensures db.pending == []
    ensures db.open <==> err.None? || err == Some(CloseError)
    ensures db.txn == old(db.txn) + if err.None? || err == Some(CloseError) || err == Some(PrepareError) then 1 else 0
    ensures err.None? ==> db.Ready() && db.stmt.value.query == InsertSQL
    ensures db.Snapshot() ==
      if err == Some(CommitError) then old(db.Snapshot()).(rollbacks := old(db.rollbacks) + 1)
      else old(db.Snapshot()).(committed := old(db.committed) + old(db.pending), commits := old(db.commits) + [old(db.pending)],
                               rollbacks := old(db.rollbacks) + if err == Some(PrepareError) then 1 else 0)
  {
    var ok := db.Commit();
    if !ok {
      ok := db.Rollback();
      return Some(CommitError);
    }
    ok := db.Begin();
    if !ok {
      return Some(BeginError);
    }
    ok := db.CloseStmt();
    if !ok {
      return Some(CloseError);
    }
    ok := db.Prepare(InsertSQL);
    if !ok {
      ok := db.Rollback();
      return Some(PrepareError);
    }
    return None;
  }
}
