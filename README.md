# spotify-to-postgresql: batch loader and export decoding

A model of the two pieces of logic in the Spotify streaming-history importer:

- **The batch loader** (`insertTracksInBatches`). It walks the records of an
  export in order and executes the `song_streaming` insert statement once per
  record. After every `batchSize`-th record it commits the transaction, begins
  a new one and prepares the statement again, and at the end it commits once
  more. It stops at the first failing database call. The database is a
  transactional sink (`Db.Sink`) whose calls may each fail. The proofs are
  about what a run leaves in that sink:
  - the durable rows (always whole batches, in record order);
  - the commits made;
  - the Exec calls attempted;
  - the rollbacks issued;
  - whether a transaction is left open.
- **The insert statement** (`insertSQL` and the Exec argument list). The i-th
  argument binds `$i`, which is the i-th listed column. So every column of the
  row receives the record field of the same name, and a nil pointer becomes
  NULL.
- **Export decoding** (`Tracks.UnmarshalJSON`). The first byte alone picks the
  decoder. A non-empty input starting with `[` is a bare array of records.
  Anything else, the empty input included, is an object whose `tracks` member
  holds the array. On error the receiver keeps its old records. The JSON
  library stays abstract (`TracksJson.JsonLib`).

Files:
- `wrappers.dfy`: `Option` and `Result`.
- `streaming.dfy`: the `SongStreaming` record.
- `insert_sql.dfy`: the statement and the argument order.
- `batching.dfy`: the batch arithmetic and the commit plan.
- `db.dfy`: the sink.
- `loader.dfy`: the loop.
- `tracks_json.dfy`: the decoder dispatch.

Where the code and its description disagree, the model follows the code:

- A successful run over `n` records commits `n / size + 1` times. When `size`
  divides `n` (including `n == 0`), the last commit is empty (main.go:151-155,
  173-178; `Batching.CommitPlanExamples`).
- The loop at main.go:122 ranges over `export.Track`, but the field is named
  `Tracks` (model/Tracks.go:6), so the file as written does not compile. The
  model ranges over the records of the export.
- When closing the old statement fails after a new transaction was begun, the
  loader returns without rolling that transaction back (main.go:161-164). The
  model keeps this: `Loader.LeavesOpen` holds exactly for that stop, and
  `InsertTracksInBatches` ensures the sink is left open then and only then.
  This assumes the deferred Close of main.go:114-119 succeeds (see
  "## Left out").

## Model

| member | source | states |
|---|---|---|
| Batching.EffectiveBatchSize | main.go:93-95 | The batch size is always positive; a positive request is used unchanged, a zero or negative one becomes 50. |
| Batching.BoundaryBounds | main.go:149-151 | The last batch boundary at or below a record count is `(n / size) * size`, within one batch of the count. |
| Batching.BatchEnds | main.go:149-151 | After a batch that began on a boundary, `count % size == 0` holds exactly when the batch has `size` records, and the count is then the next boundary. |
| Batching.FullBatchesShape | main.go:151-155 | The batches committed inside the loop have exactly `size` records each; there are `n / size` of them; together they are the records up to the last boundary, in order. |
| Batching.FullBatchesSnoc | main.go:151-155 | Committing one more full batch after a boundary appends exactly that batch to the committed batches. |
| Batching.CommitPlanShape | main.go:151-155 | A successful run commits `n / size + 1` times: all but the last commit hold `size` records, the last holds the `n % size` left over, and together they hold every record once, in order. |
| Batching.CommitPlanExamples | main.go:173-178 | 120 records at size 50 are committed as 50, 50, 20; 100 records as 50, 50 and an empty final commit. |
| InsertSql.Bind | main.go:123-145 | Executing a statement binds exactly when the argument count equals the placeholder count and every placeholder names an argument. For a statement with distinct columns, the bound row has exactly the listed columns, and the i-th listed column holds the argument of its placeholder `$params[i]`. |
| InsertSql.BindColumnsAt | main.go:16-22 | With distinct columns, the inserted row has exactly the listed columns, and column i holds the argument named by placeholder i. |
| InsertSql.InsertSqlWellFormed | main.go:16-22 | The insert statement lists 21 distinct columns and numbers its placeholders `$1` to `$21` in order. |
| InsertSql.InsertColumnNames | main.go:16-21 | The listed columns carry the SQL names of the statement's column list, in the statement's order, from `ts` to `incognito_mode`. |
| InsertSql.ExecArgsFollowColumns | main.go:123-144 | The Exec argument at each column's position is the record field of that column. |
| InsertSql.InsertBindsEveryColumn | main.go:16-144 | Executing the insert with a record's argument list always binds; the row has a value for every column, equal to the field of the same name, with nil pointers as NULL. |
| InsertSql.SkippedAbsentIsNull | main.go:141 | An absent `skipped` flag is stored as NULL, not as false. |
| Db.Sink.Begin | main.go:97-100 | Begin fails or opens a new transaction with no pending rows; nothing durable changes. |
| Db.Sink.Prepare | main.go:88-90 | Prepare fails or makes the statement live on the open transaction. |
| Db.Sink.Exec | main.go:123-148 | Every Exec call is logged; on success the bound row joins the open transaction's pending rows, and an argument list that does not bind fails. |
| Db.Sink.Commit | main.go:152-155 | Commit ends the transaction either way; on success the pending rows become durable as one commit, on failure they are lost. |
| Db.Sink.Rollback | main.go:111 | Rollback discards the pending rows and closes any open transaction; nothing durable changes. |
| Db.Sink.CloseStmt | main.go:161-164 | Closing the statement leaves no live statement and changes nothing else, whatever it reports. |
| Loader.CommitAndStartNextBatch | main.go:151-170 | Ending a batch commits it, then begins a transaction, closes the old statement and prepares a new one. Each failure is reported with its effects: a failed commit is rolled back and not durable, a failed Begin leaves no transaction, a failed Close leaves the new transaction open, a failed Prepare is rolled back. On success the statement is ready on a new transaction, one past the committed one. |
| Loader.ExecRecord | main.go:123-149 | A record's Exec either adds its row to the open batch, or fails; a failure rolls the transaction back and ends the run with every earlier full batch durable. |
| Loader.EndBatch | main.go:151-170 | At a full batch the batch becomes durable and the next one starts empty, or the run ends with the stop that names the failing call. |
| Loader.ExecInBatches | main.go:121-171 | The loop executes the records in order and commits after every `size`-th one. It returns the stop at the first failure, or, having executed every record, leaves the last partial batch pending on a ready statement. |
| Loader.InsertTracksInBatches | main.go:92-179 | The whole load. The returned error names the call that failed. The durable rows are exactly the records of the committed batches, in order. The Exec log is the argument lists of the records tried, in order. The rollbacks are those the exit path issues. A transaction is left open only after a failed Close. |
| Loader.StartFailedReported | main.go:97-113 | A failed first Begin or Prepare makes nothing durable and executes nothing; a failed Prepare is rolled back. |
| Loader.ExecSucceeded | main.go:123-149 | A successful Exec of record k in the open batch adds its row to the pending rows and its argument list to the Exec log; nothing durable changes. |
| Loader.ExecFailedReported | main.go:145-148 | A failed Exec of record k keeps the full batches before k, loses the partial batch, and is rolled back once. |
| Loader.BatchCommitted | main.go:151-155 | Committing a full batch extends the durable prefix to the new boundary and records that batch as one commit. |
| Loader.BatchFailedReported | main.go:151-170 | A failure while ending the batch at record c leaves records up to c durable, except for a failed commit, which leaves only the previous boundary. |
| Loader.FinalCommitSucceeded | main.go:173-178 | A successful final commit makes every record durable, and the commits follow the commit plan. |
| Loader.LastBatchCompletesPlan | main.go:173-178 | The final commit of the partial batch completes both the durable rows and the commit plan of all records. |
| Loader.FinalCommitFailedReported | main.go:174-177 | A failed final commit loses only the records after the last boundary and is rolled back once. |
| Loader.LossBounded | main.go:145-177 | Only a complete run returns no error. Otherwise the durable prefix ends on a batch boundary, and no more than one batch of executed records is lost. |
| Loader.CommittedBatchesFlatten | main.go:151-178 | The commits hold exactly the durable records, in order, and each commit made before a failure is a full batch. |
| TracksJson.FoldAscii | model/Tracks.go:22-23 | Each upper-case ASCII letter folds to its own lower-case letter; every other character is left alone. |
| TracksJson.FoldString | model/Tracks.go:22-23 | Folding a string folds each of its characters and keeps its length. |
| TracksJson.IsTracksKey | model/Tracks.go:22-23 | A key selects the `tracks` field exactly when it folds to `tracks`. |
| TracksJson.FieldFrom | model/Tracks.go:22-28 | Filling the field from an object's members fails only with the error of a `tracks` member whose value does not decode. On success every `tracks` member decoded, and the field holds either its starting value or the records of one `tracks` member. |
| TracksJson.DecodeEnvelope | model/Tracks.go:21-29 | The object branch fails when the input is not an object. The literal `null` gives no records. Any records it yields come from a `tracks` member of the object. |
| TracksJson.Unmarshal | model/Tracks.go:10-30 | Input that starts with `[` gets the array decoder's answer, error included. Any other input fails when it is not an object, and any records it yields come from a `tracks` member. |
| TracksJson.TracksKeyMatches | model/Tracks.go:22-23 | The keys `tracks`, `Tracks` and `TRACKS` select the field; `track` and `tracks ` do not. |
| TracksJson.Tracks.UnmarshalJSON | model/Tracks.go:10-30 | On success the receiver holds the decoded records and no error is returned; on error the error is returned and the receiver keeps its old records. |
| TracksJson.ArrayBranchOnly | model/Tracks.go:11-19 | Non-empty input starting with `[` is decoded by the array decoder alone; the object decoder is never consulted. |
| TracksJson.EnvelopeBranchOnly | model/Tracks.go:21-29 | Any other input is decoded as an object. The array decoder sees only member values, never the input itself, so there is no fallback. |
| TracksJson.FieldFromAgrees | model/Tracks.go:22-25 | The envelope's result depends only on how its member values decode. |
| TracksJson.MissingTracksKey | model/Tracks.go:25-28 | An object without a `tracks` member decodes to no records, without error. |
| TracksJson.FieldFromAppend | model/Tracks.go:22-28 | The members are decoded in order: the field after `xs + ys` is the field after `xs` carried on through `ys`, or the error `xs` already gave. |
| TracksJson.LastTracksMemberWins | model/Tracks.go:25-28 | When no earlier member failed, the last `tracks` member decides the records, whatever members with other keys follow it (as in `{"tracks": [...], "version": 1}`). |
| TracksJson.SingleMemberEnvelope | model/Tracks.go:17-28 | An envelope whose only member is `tracks` fails exactly when its value fails bare, and otherwise yields the same records. |
| TracksJson.BareAndWrappedAgree | model/Tracks.go:9-30 | The same encoded record array yields the same records bare and wrapped as `{"tracks": ...}`. |
| TracksJson.EmptyInputFails | model/Tracks.go:12-27 | Empty input is not taken as an array; the object decoder rejects it, so an error is returned. |
| TracksJson.Wrap | model/Tracks.go:22-23 | The envelope text starts with `{` and is the array text plus eleven bytes. |

## Left out

- `parseFileArg`, `openPostgres`, `loadTracksFromFile` and `main` are left out. They read flags and environment variables, open files and the database, and log. These are I/O.
- The panic handler at main.go:101-107 is left out: the model has no panics.
- The deferred function at main.go:114-119 is left out. At every exit after main.go:114 it closes the first statement (its argument is evaluated when the defer statement at main.go:114 executes, not when the deferred call runs); the returns at main.go:99 and 112 come before it is registered. Only when that Close returns an error does it roll back the transaction `tx` holds at exit. After a failed Begin at main.go:157 that transaction is nil. The Close error goes to a local variable and is never returned. The model describes runs in which this deferred Close succeeds, so it adds no rollback. In particular, `Loader.LeavesOpen` and the open transaction after a failed Close at main.go:161-164 hold for those runs.
- The sink has no real database/sql or PostgreSQL behaviour: no connection pool, no statement re-preparation, no constraint violations beyond a failed Exec.
- A transaction's durability depends only on whether Commit reports success. A commit that reaches the server but reports an error is modelled as not durable.
- Which sink call fails is left open: each call may fail or succeed.
- Db.Sink.Begin: requires that no transaction is open, because the loader never begins one while another is open.
- Go's `int` for `MsPlayed` is taken as 64 bits.
- The JSON library itself is left out: its tokenizer, decoding into struct fields, and how it treats unknown keys inside records. `TracksJson.JsonLib` keeps only what the dispatch uses.
- TracksJson.IsTracksKey: folds ASCII letters only. Go also matches the few non-ASCII characters that fold to ASCII letters, such as the Kelvin sign.
- TracksJson.FieldFrom: a later `tracks` member replaces the field with its own records. The JSON library instead decodes a repeated key into the slice and the elements the earlier member already filled. Record fields that the later array omits would then keep the earlier member's values. `TracksJson.LastTracksMemberWins` gives the last array alone.
- TracksJson.SingleMemberEnvelope: the model takes a `tracks` member's decode error to be the error of decoding its value alone, so the wrapped and bare errors are equal. Go's error for the wrapped input also names the field path (`tracks.<field>`) and an offset shifted by the `{"tracks":` prefix. Only failure itself, and the records on success, agree in the source.
- A nil slice and an empty slice are both the empty sequence.
- When `UnmarshalJSON` is called directly, input starting with whitespace before `[` goes to the object branch, as in the code; the object decoder then rejects it, and that rejection belongs to the library and is not modelled. On the program's own path through `json.Unmarshal` (main.go:82) the library strips leading whitespace first, so such a file takes the array branch.
