# MT_ProcessAudio in Dafny

MT_ProcessAudio loads one experiment into QuestDB. It derives an experiment
name, then provisions two tables for it: `audio_<name>` and
`transcript_<name>`. It does this by dropping and recreating them through
the store's HTTP query endpoint. It then reads an event log. For each event,
in log order, it loads the event's audio-level file, aligns its records to
the event's anchor instant, tags them with the event's name and submits one
row per record through the line-sender client (unless audio is skipped). It
then does the same for the event's transcript file.
The run stops at the first failure. The code calls the client's `Flush` once, at the end.

The model has seven modules:

- `Options` (options.dfy): the `Option` type.
- `GoPath` (go_path.dfy): `filepath.Base`, `filepath.Ext` and `strings.TrimSuffix` on `/`-separated paths.
- `Records` (records.dfy): the three record types, the float-to-microsecond conversion, and the alignment as specification functions, with their lemmas.
- `Align` (align.dfy): `processAudioData` and `processTranscriptData` as methods. Each overwrites an array of records in place, proved against the `Records` functions.
- `LineSender` (line_sender.dfy): the client as a class. It holds a buffer of pending rows, the flushed rows and a flush counter. A fixed oracle decides which rows it refuses.
- `QuestDB` (questdb.dfy): the table names, the two table layouts and the statement texts. It models the store as a class holding a map from table name to table, with a log of the statements it received. A fixed oracle gives the HTTP status for each statement. `DeleteTable`, `CreateTable` and `InitQuestDB` are methods. `DeleteTable` and `CreateTable` are specified through the effect function `Apply`; `InitQuestDB` is proved against the pure `Provision`.
- `Driver` (driver.dfy): the experiment name, the rows, the event loop and the whole run. The methods `ProcessEvent`, `ProcessEvents` and `RunExperiment` are proved against the pure `ProcessedEvent`, `Ingest` and `Experiment`.

Conventions:

- Instants and durations are whole microseconds. A `float64` is a `real`.
- `time.Duration(x)` is truncation toward zero.
- A statement takes effect in the store exactly when its status is at most 299.
- Each `log.Fatal` exit is a `Fatal` value that ends the run.

## Model

| member | source | states |
|---|---|---|
| Driver.ExperimentName | cmd/MT_ProcessAudio/main.go:55-59 | A non-empty name flag is the name. Otherwise the name followed by `Ext(Base(path))` is `Base(path)`. The name contains '/' exactly when the path is all slashes. An empty path gives the empty name. |
| GoPath.Base | cmd/MT_ProcessAudio/main.go:57 | `filepath.Base` is "." for the empty path and "/" for a path of slashes only; it contains '/' only then. Otherwise it is the last element once trailing slashes are removed: a '/'-free piece of the path, preceded by '/' or the path's start, and followed only by '/'. |
| GoPath.TrimTrailingSlashes | cmd/MT_ProcessAudio/main.go:57 | Gives a prefix of the path that does not end in '/'. Every character removed is '/'. |
| GoPath.LastElement | cmd/MT_ProcessAudio/main.go:57 | Gives the longest suffix without '/'. The character before it is '/'. |
| GoPath.Ext | cmd/MT_ProcessAudio/main.go:58 | `filepath.Ext` is a suffix without '/'. It is empty, or starts at a '.' and holds no other '.'. |
| GoPath.ExtOfLastElement | cmd/MT_ProcessAudio/main.go:58 | The extension lies within the last path element. It is empty exactly when that element has no '.'. |
| GoPath.TrimSuffix | cmd/MT_ProcessAudio/main.go:58 | Gives a prefix of s. When s ends with the suffix, the result followed by the suffix is s. Otherwise the result is s unchanged. |
| QuestDB.AudioTableName | internal/questdb/questdb.go:48-50 | The audio table name is `audio_` followed by the experiment name, character for character. |
| QuestDB.TranscriptTableName | internal/questdb/questdb.go:79-81 | The transcript table name is `transcript_` followed by the experiment name, character for character. |
| QuestDB.TableNamesInjective | internal/questdb/questdb.go:48-50 | Two experiments with the same audio table name, or with the same transcript table name, are the same experiment. |
| QuestDB.AudioNeverTranscript | internal/questdb/questdb.go:48-81 | No audio table name equals any transcript table name. |
| QuestDB.Sprintf | internal/questdb/questdb.go:53 | Filling a one-`%s` template gives the template's head, then the argument, then its tail, and nothing else. |
| QuestDB.SprintfRoundTrip | internal/questdb/questdb.go:53 | The table name substituted into a statement template can be read back from the statement text. |
| QuestDB.StatementTextNamesTable | internal/questdb/questdb.go:52-67 | The SQL text of a drop is `DROP TABLE IF EXISTS <table>;`. The table a drop or create statement names can be read back from its SQL text. |
| QuestDB.DropThenCreate | internal/questdb/questdb.go:22-27 | A drop followed by a create leaves the table empty with the created layout, whatever it held before. |
| QuestDB.Database.Exec | internal/questdb/questdb.go:55-56 | One request to the query endpoint. The statement is logged and the status is returned. The statement's effect is applied exactly when the status is at most 299. |
| QuestDB.DeleteTable | internal/questdb/questdb.go:64-77 | Sends `DROP TABLE IF EXISTS <table>;`. A status above 299 gives an error naming the table, with the store unchanged. Otherwise there is no error and the table is gone. |
| QuestDB.CreateTable | internal/questdb/questdb.go:52-62 | Sends the create statement for the table. A status above 299 gives an error naming the table, with the store unchanged. Otherwise there is no error and the create takes effect. |
| QuestDB.InitQuestDB | internal/questdb/questdb.go:10-46 | Ends the store as `Provision` says, has issued exactly `Provision`'s statements in order, and returns its error. |
| QuestDB.RunStatementsAccepts | internal/questdb/questdb.go:22-45 | A run whose first statement is accepted applies that statement and goes on with the rest. |
| QuestDB.RunStatementsStops | internal/questdb/questdb.go:10-46 | A run issues a prefix of its statements. It succeeds exactly when every status is at most 299, and has then issued all of them. On failure, the last statement issued is the first refused one, its error is returned, and every earlier statement was accepted. |
| QuestDB.RunStatementsPrefix | internal/questdb/questdb.go:10-46 | A run issues a prefix of its statements, and all of them when it succeeds. |
| QuestDB.RunStatementsSucceeds | internal/questdb/questdb.go:10-46 | A run succeeds exactly when every statement's status is at most 299. |
| QuestDB.RunStatementsFails | internal/questdb/questdb.go:10-46 | A failed run ends with the first refused statement and returns that statement's error. Every earlier statement was accepted. |
| QuestDB.RunStatementsFrame | internal/questdb/questdb.go:22-45 | A table that no statement names keeps its presence and contents, whether or not the run fails. |
| QuestDB.ProvisionSucceeds | internal/questdb/questdb.go:10-46 | InitQuestDB succeeds exactly when all five statuses are at most 299. It has then issued ping, drop audio, create audio, drop transcript and create transcript, in that order. The store then equals `Reset`, whatever it held before. |
| QuestDB.ProvisionAllAccepted | internal/questdb/questdb.go:10-46 | When all five statements are accepted, InitQuestDB issues all of them in order, returns no error and leaves the store equal to `Reset`. |
| QuestDB.ResetTables | internal/questdb/questdb.go:22-42 | After a successful InitQuestDB, `audio_<e>` and `transcript_<e>` exist and are empty, each with its layout. Every other table is as it was. |
| QuestDB.ProvisionPingRefused | internal/questdb/questdb.go:11-13 | A refused ping returns the ping error. Nothing else is issued and the store is unchanged. |
| QuestDB.ProvisionAudioDropRefused | internal/questdb/questdb.go:22-24 | A refused drop of the audio table returns that drop's error after ping and drop only. The store is unchanged. |
| QuestDB.ProvisionAudioCreateRefused | internal/questdb/questdb.go:25-27 | A refused create of the audio table returns that create's error after three statements. The old audio table is gone and no other table changed. |
| QuestDB.ProvisionTranscriptDropRefused | internal/questdb/questdb.go:38-40 | A refused drop of the transcript table returns that drop's error after four statements. The audio table is reset and the transcript table is untouched. |
| QuestDB.ProvisionTranscriptCreateRefused | internal/questdb/questdb.go:41-43 | A refused create of the transcript table returns that create's error after all five statements. The audio table is reset and the old transcript table is gone. |
| QuestDB.ProvisionLeavesOtherTables | internal/questdb/questdb.go:22-42 | No table other than the experiment's two is created, removed or changed, whether or not the run fails. |
| QuestDB.ResetIdempotent | internal/questdb/questdb.go:22-42 | Resetting the experiment's tables twice gives the same store as resetting once. |
| QuestDB.ProvisionIdempotent | internal/questdb/questdb.go:15-42 | After a successful run, a second run with the same statuses succeeds. It issues the same statements and leaves the store as the first run left it. |
| Records.Truncate | cmd/MT_ProcessAudio/main.go:191 | `time.Duration` of a float truncates toward zero: the result is within one unit of the value, on the zero side. |
| Records.TruncateMonotone | cmd/MT_ProcessAudio/main.go:191 | Truncation is monotone. |
| Records.MicrosOf | cmd/MT_ProcessAudio/main.go:166-167 | Seconds become the whole microseconds truncated toward zero: at most the exact count and less than one above it for non-negative input, the mirror image for negative input. |
| Records.Interval | cmd/MT_ProcessAudio/main.go:188 | The interval between frames times the sample rate is one million microseconds. It is positive for a positive rate. |
| Records.AudioOffset | cmd/MT_ProcessAudio/main.go:191 | Frame 0 has offset 0. For a non-negative frame and a positive rate, the offset is `frame * interval` truncated to whole microseconds. |
| Records.AudioOffsetExact | cmd/MT_ProcessAudio/main.go:188-191 | For a non-negative frame and a positive rate, the offset is `frame * 1000000 / rate` microseconds, rounded down. |
| Records.AudioOffsetMonotone | cmd/MT_ProcessAudio/main.go:188-191 | For a positive rate, a later frame never gets an earlier offset. |
| Records.AlignedAudio | cmd/MT_ProcessAudio/main.go:188-193 | The records keep their count, order, frames and levels. Each gets the event name and the instant anchor + offset(frame). |
| Records.AlignedAudioFrameZero | cmd/MT_ProcessAudio/main.go:191 | Frame 0 is placed exactly at the anchor. |
| Records.AlignedAudioOrdered | cmd/MT_ProcessAudio/main.go:191 | For a positive rate, records in frame order come out in time order. |
| Records.AlignedAudioExact | cmd/MT_ProcessAudio/main.go:188-191 | A record is placed `frame / rate` seconds after the anchor, rounded down to the microsecond. |
| Records.AlignedTranscript | cmd/MT_ProcessAudio/main.go:165-169 | The records keep their count, order, start, duration and word, and each gets the event name. Start is anchor + µs(start seconds). End minus start is µs(duration). |
| Records.EndTimeFromStartTime | cmd/MT_ProcessAudio/main.go:166-167 | The end is derived from the truncated start, not from the anchor. With a start of 0.0000005 s and a duration of 0.0000005 s, the record ends at the anchor, although their sum is one microsecond. |
| Records.NegativeDurationEndsEarly | cmd/MT_ProcessAudio/main.go:167 | A negative duration is not rejected: the record ends no later than it starts. |
| Records.AudioScenario | cmd/MT_ProcessAudio/main.go:188-191 | At 100 samples per second, frame 50 lands 500000 µs after the anchor. |
| Records.TranscriptScenario | cmd/MT_ProcessAudio/main.go:165-167 | A word at 2.5 s lasting 1.25 s spans anchor + 2500000 µs to anchor + 3750000 µs. |
| Align.AlignAudio | cmd/MT_ProcessAudio/main.go:188-193 | The in-place loop leaves the array equal to `AlignedAudio` of its old contents. |
| Align.ProcessAudioData | cmd/MT_ProcessAudio/main.go:182-196 | A load failure is returned as a failure. Otherwise the result is the loaded records aligned. |
| Align.AlignTranscript | cmd/MT_ProcessAudio/main.go:165-169 | The in-place loop leaves the array equal to `AlignedTranscript` of its old contents. |
| Align.ProcessTranscriptData | cmd/MT_ProcessAudio/main.go:159-173 | A load failure is returned as a failure. Otherwise the result is the loaded records aligned. |
| LineSender.Sender.At | cmd/MT_ProcessAudio/main.go:90-111 | A row is buffered exactly when the client does not refuse it. The explicit flush record is unchanged. |
| LineSender.Sender.Flush | cmd/MT_ProcessAudio/main.go:127 | Every buffered row is delivered in order, the buffer empties, and the flush counter increases by one. |
| Driver.AudioRow | cmd/MT_ProcessAudio/main.go:90-93 | An audio row targets the given table, is stamped at the record's time, has the single tag `name` set to the record's name and the single field `audio_level` set to its level. |
| Driver.TranscriptRow | cmd/MT_ProcessAudio/main.go:106-111 | A transcript row targets the given table, is stamped at the record's start, has the single tag `name`, and the fields `duration`, `ts_end` and `word` in that order with the record's values. |
| Driver.AudioRows | cmd/MT_ProcessAudio/main.go:89-97 | One row per audio record, in order. |
| Driver.TranscriptRows | cmd/MT_ProcessAudio/main.go:105-115 | One row per transcript record, in order. |
| Driver.AudioRowFits | cmd/MT_ProcessAudio/main.go:90-93 | An audio row has the tag `name`, the DOUBLE field `audio_level` and the designated timestamp. Together these give every column of the audio table. |
| Driver.TranscriptRowFits | cmd/MT_ProcessAudio/main.go:106-111 | A transcript row has the tag `name`, the fields `duration` (DOUBLE), `ts_end` (TIMESTAMP) and `word` (VARCHAR), and the designated timestamp. Together these give every column of the transcript table. |
| Driver.AudioRowsFit | cmd/MT_ProcessAudio/main.go:89-97 | Every audio row of a stage targets the audio table and fits its layout. |
| Driver.TranscriptRowsFit | cmd/MT_ProcessAudio/main.go:105-115 | Every transcript row of a stage targets the transcript table and fits its layout. |
| Driver.FirstRefused | cmd/MT_ProcessAudio/main.go:89-115 | Gives the index of the first row the client refuses, or the number of rows if it refuses none. |
| Driver.SubmitRows | cmd/MT_ProcessAudio/main.go:89-115 | The submit loop buffers the rows before the first refused one. That refusal is the run's failure. |
| Driver.SubmitAccepts | cmd/MT_ProcessAudio/main.go:89-115 | Submitting fails exactly when some row is refused. Otherwise every row is buffered and counted. |
| Driver.ProcessEvent | cmd/MT_ProcessAudio/main.go:82-125 | One iteration buffers exactly the rows of `ProcessedEvent` and returns its failure and record counts. Nothing is flushed. |
| Driver.ProcessedEventSucceeds | cmd/MT_ProcessAudio/main.go:83-115 | An event succeeds exactly when its files load and every row is taken. It then emits its audio rows (none when skipped) followed by its transcript rows, and counts its records. |
| Driver.ProcessedEventRowsFit | cmd/MT_ProcessAudio/main.go:83-115 | Each row one event buffers fits its table. It goes to the transcript table, or to the audio table when audio is not skipped. |
| Driver.ProcessEvents | cmd/MT_ProcessAudio/main.go:78-127 | The loop ends with the failure and counters of `Ingest`. When there is no failure, every row is flushed once. After a failure the rows stay buffered and nothing is flushed. |
| Driver.IngestStopsAt | cmd/MT_ProcessAudio/main.go:85-114 | After an event fails, no later event adds rows, counts or failures. |
| Driver.IngestStep | cmd/MT_ProcessAudio/main.go:80-126 | Extending the log by one event runs the loop once more on that event. |
| Driver.IngestSucceeds | cmd/MT_ProcessAudio/main.go:80-126 | The loop finishes exactly when every file loads and every row is taken. It has then buffered every event's rows in log order. The counters equal the summed audio and transcript record counts. |
| Driver.AllRowsCount | cmd/MT_ProcessAudio/main.go:89-125 | A complete run emits exactly countAudio + countTranscript rows: one per record. |
| Driver.EventRowsPerTable | cmd/MT_ProcessAudio/main.go:83-115 | One event writes exactly its audio record count to the audio table and its transcript record count to the transcript table. |
| Driver.AllRowsPerTable | cmd/MT_ProcessAudio/main.go:80-126 | A complete run writes exactly countAudio rows to the audio table and countTranscript rows to the transcript table. |
| Driver.SkipCountsNoAudio | cmd/MT_ProcessAudio/main.go:83-121 | With audio skipped, countAudio is 0. |
| Driver.EventRowsTagged | cmd/MT_ProcessAudio/main.go:91-107 | Every row of an event carries the event's name as its only tag. |
| Driver.TableRows | cmd/MT_ProcessAudio/main.go:90-106 | Gives the rows of one table, each taken from the given rows. |
| Driver.TableRowsAppend | cmd/MT_ProcessAudio/main.go:90-106 | Selecting one table's rows distributes over concatenation. |
| Driver.TableRowsAll | cmd/MT_ProcessAudio/main.go:90-106 | Rows that all target the table are kept whole. |
| Driver.TableRowsNone | cmd/MT_ProcessAudio/main.go:90-106 | Rows that never target the table are all dropped. |
| Driver.EventTranscriptRows | cmd/MT_ProcessAudio/main.go:83-115 | An event's transcript-table rows are the same whether or not audio is skipped. |
| Driver.SkipKeepsTranscriptRows | cmd/MT_ProcessAudio/main.go:83-115 | A complete run writes the same transcript rows, in the same order, whether or not audio is skipped. |
| Driver.IngestRowsFit | cmd/MT_ProcessAudio/main.go:80-126 | Every buffered row fits its table. It goes to the transcript table, or to the audio table only when audio is not skipped. |
| Driver.IngestRowsFitReset | cmd/MT_ProcessAudio/main.go:78-115 | Every row the loop buffers for an experiment targets a table that exists after the reset, and fits that table's layout. |
| Driver.RunExperiment | cmd/MT_ProcessAudio/main.go:55-127 | The whole run leaves the store and the client as `Experiment` says and returns its failure. The explicit `Flush` runs only on success; otherwise the rows stay buffered. |
| Driver.ExperimentSucceeds | cmd/MT_ProcessAudio/main.go:55-127 | A run finishes exactly when the five provisioning statements are accepted, the event log parses, every file loads and every row is taken. It then flushes. Then the experiment's tables are reset, and the rows are every event's rows in log order. |
| Driver.ExperimentPingRefused | cmd/MT_ProcessAudio/main.go:61-63 | A refused ping ends the run. Only the ping was issued, the store is unchanged, and no row was built. |
| Driver.ExperimentBadLogStillResets | cmd/MT_ProcessAudio/main.go:61-76 | An unreadable event log ends the run after the experiment's tables have already been dropped and recreated empty. |
| Driver.ExperimentRowsFit | cmd/MT_ProcessAudio/main.go:78-115 | Every row a run buffers targets a table the run provisioned, and fits that table's layout. |

Behaviour worth knowing (the model follows the code):

- **Transcript end time.** The end instant comes from the already-truncated start, not from the anchor (`EndTimeFromStartTime`).
- **Event-log parsing.** The tables are dropped and recreated before the event log is parsed. A bad log therefore still wipes the experiment's data (`ExperimentBadLogStillResets`).
- **Flush.** The code ignores `Flush`'s result; the model's `Flush` always delivers (see Left out).
- **Fatal exits.** `log.Fatal` exits without running the deferred `Close`.
- **Rows after a failure.** When a run fails, the explicit `Flush` is not called. Rows the client has already sent by itself are not covered by the model.
- **Sample rate.** The code has no guard against a zero sample rate.
- **Path edge cases.** An empty log path gives the experiment name "". A path made of slashes only gives "/".

## Left out

- Floating point: float64 rounding, NaN, infinities and int64 overflow of `time.Duration` are not modelled. Values are exact reals and integers are unbounded.
- Records.AlignedAudio: a zero sample rate is excluded by a precondition. The code divides by it and produces infinities and NaN (frame 0 gives `0 * +Inf`), which are not modelled.
- Instants with sub-microsecond parts: anchors are whole microseconds.
- Time zones and `time.Time` formatting are not modelled.
- CSV loading (`getDataFromCSV`, gocsv, the `O_CREATE` open) is left out. Its outcome for each file is a parameter. The directory join is folded into that parameter.
- Flag parsing and logging are left out. The flags are fields of `Inputs`, and log lines carry no behaviour.
- The line-sender client's connection setup, its wire encoding, network delivery and `Close` are not modelled. Rows the client refuses are given by an oracle.
- A failing client creation (main.go:67-71) is not modelled: the client is a parameter of `RunExperiment`.
- `Flush` errors are ignored by the code and not modelled.
- LineSender.Sender.At: the client's automatic flushing is not modelled. The client is created without `auto_flush=off`, so by default it sends from inside `At` every 75,000 rows or every second. The model's `flushed` holds only rows sent by the explicit `Flush`. A failed run may already have delivered rows to the store, which `ProcessEvents` and `RunExperiment` do not say.
- Records.AudioOffsetExact: exactness holds for exact reals only. In float64 the interval `1/rate * 1e6` is rounded, and `time.Duration` then truncates, so a record can land one microsecond early. At 48000 Hz, frame 390 gives 8124.999999999999, truncated to 8124; the lemma gives 8125. At 7 Hz, frame 7 gives 999999 against 1000000.
- Records.AlignedAudioExact: the same as `AudioOffsetExact`; in float64 a record can be placed one microsecond before `frame / rate` seconds.
- QuestDB.ProvisionLeavesOtherTables: the modelled store matches table names exactly and applies the structured statement, not the SQL text that is sent. QuestDB's table names are case-insensitive, so `-name Exp` drops and recreates `audio_exp` of experiment `exp`, which this lemma says is untouched. The name is also pasted into the SQL unquoted, so a name holding SQL syntax (`x -- c`) makes the text name a different table than the one the model changes. Neither case is covered.
- QuestDB.ProvisionIdempotent: the store's status for a statement depends only on the statement, never on the store's contents. A refusal caused by the store's state, such as an existing table, cannot be expressed, and the "second run succeeds" half relies on this.
- HTTP transport errors are left out. The code dereferences a nil response and panics, so only status codes are modelled.
- The error message texts and the response body included in them are left out. Errors are values naming the statement and the status.
- Windows path separators are left out. Paths are `/`-separated.
- Aliasing is not modelled. The loaded slice of references to records is an array of record values, updated in place.
- The fluent row builder is not modelled step by step. `AudioRow` and `TranscriptRow` give the finished row.
- Rows flushed by the client do not enter the modelled tables. Ingestion on the store's side is a separate process that is not modelled.
- The counters `countAudio` and `countTranscript` are only relevant once the loop finishes. After a failure the process exits, so the model leaves them unspecified.
