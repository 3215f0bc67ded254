/**
 * The driver in cmd/MT_ProcessAudio/main.go: derive the experiment name,
 * provision its tables, then, event by event in log order, align and submit
 * the event's audio rows (unless audio is skipped) and its transcript rows,
 * stopping the run at the first failure, and flush once at the end.
 *
 * Flag parsing, logging and the CSV reader are not modelled: the parsed
 * event log and the outcome of loading each per-event file are inputs.
 */
module Driver {
  import opened Options
  import opened GoPath
  import opened Records
  import opened Align
  import opened LineSender
  import opened QuestDB

  /**
   * The experiment name: the -name flag when it is set, otherwise the base
   * name of the event-log path without its extension.
   */
  function ExperimentName(nameFlag: string, logEventFile: string): (name: string)
    ensures nameFlag != [] ==> name == nameFlag
    ensures nameFlag == [] ==> name + Ext(Base(logEventFile)) == Base(logEventFile)
    ensures nameFlag == [] ==> ('/' in name <==> AllSlashes(logEventFile))
    ensures nameFlag == [] && logEventFile == [] ==> name == []
  {
    if |nameFlag| > 0 then nameFlag
    else
      var base := Base(logEventFile);
      assert HasSuffix(base, Ext(base));
      TrimSuffix(base, Ext(base))
  }

  /** The row written for one aligned audio record (`Table(audio).Symbol("name").Float64Column("audio_level").At(Time)`). */
  function AudioRow(table: string, a: AudioData): (r: Row)
    ensures r.table == table && r.at == a.Time
    ensures r.symbols == [("name", a.Name)]
    ensures r.columns == [("audio_level", Float64(a.AudioLevel))]
  {
    Row(table, [("name", a.Name)], [("audio_level", Float64(a.AudioLevel))], a.Time)
  }

  /** The row written for one aligned transcript record, at its StartTime. */
  function TranscriptRow(table: string, t: TranscriptData): (r: Row)
    ensures r.table == table && r.at == t.StartTime
    ensures r.symbols == [("name", t.Name)]
    ensures r.columns == [("duration", Float64(t.Duration)), ("ts_end", Timestamp(t.EndTime)), ("word", Str(t.Word))]
  {
    Row(table, [("name", t.Name)],
        [("duration", Float64(t.Duration)), ("ts_end", Timestamp(t.EndTime)), ("word", Str(t.Word))],
        t.StartTime)
  }

  function AudioRows(table: string, s: seq<AudioData>): (rows: seq<Row>)
    ensures |rows| == |s| && forall i :: 0 <= i < |s| ==> rows[i] == AudioRow(table, s[i])
  {
    seq(|s|, i requires 0 <= i < |s| => AudioRow(table, s[i]))
  }

  function TranscriptRows(table: string, s: seq<TranscriptData>): (rows: seq<Row>)
    ensures |rows| == |s| && forall i :: 0 <= i < |s| ==> rows[i] == TranscriptRow(table, s[i])
  {
    seq(|s|, i requires 0 <= i < |s| => TranscriptRow(table, s[i]))
  }

  function KindOf(v: Value): ColumnType
  {
    match v
    case Float64(_) => DoubleType
    case Timestamp(_) => TimestampType
    case Str(_) => VarcharType
  }

  /**
   * A row matches a table layout: each tag is a SYMBOL column, each field a
   * column of its value's type, the designated timestamp is a TIMESTAMP
   * column, and every column of the layout gets a value.
   */
  predicate Fits(row: Row, layout: Layout)
  {
    && (forall i :: 0 <= i < |row.symbols| ==> Column(row.symbols[i].0, SymbolType) in layout.columns)
    && (forall i :: 0 <= i < |row.columns| ==> Column(row.columns[i].0, KindOf(row.columns[i].1)) in layout.columns)
    && Column(layout.designated, TimestampType) in layout.columns
    && forall c :: c in layout.columns ==>
         c.name == layout.designated
         || (exists i :: 0 <= i < |row.symbols| && row.symbols[i].0 == c.name)
         || (exists i :: 0 <= i < |row.columns| && row.columns[i].0 == c.name)
  }

  /** An audio row matches the audio table InitQuestDB creates. */
  lemma AudioRowFits(table: string, a: AudioData)
    ensures Fits(AudioRow(table, a), AudioLayout)
  {
    var row := AudioRow(table, a);
    assert row.symbols[0].0 == "name" && row.columns[0].0 == "audio_level";
  }

  /** A transcript row matches the transcript table InitQuestDB creates. */
  lemma TranscriptRowFits(table: string, t: TranscriptData)
    ensures Fits(TranscriptRow(table, t), TranscriptLayout)
  {
    var row := TranscriptRow(table, t);
    assert row.symbols[0].0 == "name";
    assert row.columns[0].0 == "duration" && row.columns[1].0 == "ts_end" && row.columns[2].0 == "word";
  }

  /** The run's fixed parameters: the skip flag, the two tables, and what loading each per-event file yields. */
  datatype Config = Config(
    skip: bool,
    audioTable: string,
    transcriptTable: string,
    audioCsv: string -> Option<seq<AudioData>>,
    transcriptCsv: string -> Option<seq<TranscriptData>>)

  /** Every event whose audio is processed has a non-zero sample rate. */
  predicate RatesValid(events: seq<LogEvent>, skip: bool)
  {
    skip || forall i :: 0 <= i < |events| ==> events[i].SampleRate != 0
  }

  /** Why a run stopped (every one of these ends the process in the source). */
  datatype Fatal =
    | InitFailed(err: ProvisionError)
    | EventLogUnreadable
    | AudioDataFailed(file: string)
    | TranscriptDataFailed(file: string)
    | RowRefused(row: Row)

  /** The index of the first row the client refuses, or |rows| if it refuses none. */
  function FirstRefused(rows: seq<Row>, rejects: Row -> bool): (k: nat)
    ensures k <= |rows|
    ensures forall i :: 0 <= i < k ==> !rejects(rows[i])
    ensures k < |rows| ==> rejects(rows[k])
  {
    if rows == [] then 0
    else if rejects(rows[0]) then 0
    else 1 + FirstRefused(rows[1..], rejects)
  }

  /** The rows a stage buffered, how many records it counted, and its failure. */
  datatype Stage = Stage(rows: seq<Row>, count: nat, fatal: Option<Fatal>)

  /** Submitting rows one at a time: the rows before the first refused one are buffered, and that refusal ends the run. */
  function Submit(rows: seq<Row>, rejects: Row -> bool): Stage
  {
    var k := FirstRefused(rows, rejects);
    if k < |rows| then Stage(rows[..k], 0, Some(RowRefused(rows[k]))) else Stage(rows, |rows|, None)
  }

  /** The audio half of one event (main.go 83-98). */
  function AudioStage(e: LogEvent, cfg: Config, rejects: Row -> bool): Stage
    requires cfg.skip || e.SampleRate != 0
  {
    if cfg.skip then Stage([], 0, None)
    else
      match cfg.audioCsv(e.AudioDataFile)
      case None => Stage([], 0, Some(AudioDataFailed(e.AudioDataFile)))
      case Some(recs) => Submit(AudioRows(cfg.audioTable, AlignedAudio(recs, e.Time, e.SampleRate, e.Name)), rejects)
  }

  /** The transcript half of one event (main.go 100-115). */
  function TranscriptStage(e: LogEvent, cfg: Config, rejects: Row -> bool): Stage
  {
    match cfg.transcriptCsv(e.TranscriptDataFile)
    case None => Stage([], 0, Some(TranscriptDataFailed(e.TranscriptDataFile)))
    case Some(recs) => Submit(TranscriptRows(cfg.transcriptTable, AlignedTranscript(recs, e.Time, e.Name)), rejects)
  }

  /** What one event adds: its rows, its audio and transcript record counts, and its failure. */
  datatype EventOutcome = EventOutcome(rows: seq<Row>, audioCount: nat, transcriptCount: nat, fatal: Option<Fatal>)

  function ProcessedEvent(e: LogEvent, cfg: Config, rejects: Row -> bool): EventOutcome
    requires cfg.skip || e.SampleRate != 0
  {
    var a := AudioStage(e, cfg, rejects);
    if a.fatal.Some? then EventOutcome(a.rows, 0, 0, a.fatal)
    else
      var t := TranscriptStage(e, cfg, rejects);
      EventOutcome(a.rows + t.rows, a.count, t.count, t.fatal)
  }

  /** The buffered rows, the two counters and the failure after the event loop has run over some events. */
  datatype Progress = Progress(rows: seq<Row>, countAudio: nat, countTranscript: nat, fatal: Option<Fatal>)

  /** The event loop (main.go 80-126) over events, in order, stopping at the first failure. */
  function Ingest(events: seq<LogEvent>, cfg: Config, rejects: Row -> bool): Progress
    requires RatesValid(events, cfg.skip)
    decreases |events|
  {
    if events == [] then Progress([], 0, 0, None)
    else
      var p := Ingest(events[..|events| - 1], cfg, rejects);
      if p.fatal.Some? then p
      else
        var o := ProcessedEvent(events[|events| - 1], cfg, rejects);
        if o.fatal.Some? then Progress(p.rows + o.rows, p.countAudio, p.countTranscript, o.fatal)
        else Progress(p.rows + o.rows, p.countAudio + o.audioCount, p.countTranscript + o.transcriptCount, None)
  }

  /** Once an event has failed, no later event adds anything. */
  lemma {:induction false} IngestStopsAt(events: seq<LogEvent>, k: nat, cfg: Config, rejects: Row -> bool)
    requires k <= |events| && RatesValid(events, cfg.skip)
    requires k < |events| ==> Ingest(events[..k], cfg, rejects).fatal.Some?
    ensures Ingest(events, cfg, rejects) == Ingest(events[..k], cfg, rejects)
    decreases |events|
  {
    if k < |events| {
      var init := events[..|events| - 1];
      assert init[..k] == events[..k];
      IngestStopsAt(init, k, cfg, rejects);
    } else {
      assert events[..k] == events;
    }
  }

  /** Extending the events by one runs the loop once more over the new event. */
  lemma IngestStep(events: seq<LogEvent>, i: nat, cfg: Config, rejects: Row -> bool)
    requires i < |events| && RatesValid(events, cfg.skip)
    ensures RatesValid(events[..i], cfg.skip) && RatesValid(events[..i + 1], cfg.skip)
    ensures cfg.skip || events[i].SampleRate != 0
    ensures var p := Ingest(events[..i], cfg, rejects);
      var o := ProcessedEvent(events[i], cfg, rejects);
      Ingest(events[..i + 1], cfg, rejects) ==
        if p.fatal.Some? then p
        else if o.fatal.Some? then Progress(p.rows + o.rows, p.countAudio, p.countTranscript, o.fatal)
        else Progress(p.rows + o.rows, p.countAudio + o.audioCount, p.countTranscript + o.transcriptCount, None)
  {
    assert events[..i + 1][..i] == events[..i];
  }


  /**
   * Regrouping a concatenation. Stated as a lemma so that the loop proofs
   * use this one instance instead of searching for it.
   */
  lemma AppendAssoc<T>(a: seq<T>, b: seq<T>, c: seq<T>)
    ensures a + (b + c) == (a + b) + c
  {
  }

  /** The loop submitting one stage's rows (main.go 89-97 and 105-115). */
  method SubmitRows(rows: seq<Row>, sender: Sender) returns (fatal: Option<Fatal>)
    modifies sender
    ensures var s := Submit(rows, sender.rejects);
      fatal == s.fatal && sender.pending == old(sender.pending) + s.rows
    ensures sender.flushed == old(sender.flushed) && sender.flushCount == old(sender.flushCount)
  {
    for j := 0 to |rows|
      invariant forall k :: 0 <= k < j ==> !sender.rejects(rows[k])
      invariant sender.pending == old(sender.pending) + rows[..j]
      invariant sender.flushed == old(sender.flushed) && sender.flushCount == old(sender.flushCount)
    {
      var ok := sender.At(rows[j]);
      if !ok {
        return Some(RowRefused(rows[j]));
      }
    }
    assert rows[..|rows|] == rows;
    return None;
  }

  /** One iteration of the event loop (main.go 82-125). */
  method ProcessEvent(e: LogEvent, cfg: Config, sender: Sender)
    returns (audioCount: nat, transcriptCount: nat, fatal: Option<Fatal>)
    requires cfg.skip || e.SampleRate != 0
    modifies sender
    ensures var o := ProcessedEvent(e, cfg, sender.rejects);
      && fatal == o.fatal
      && sender.pending == old(sender.pending) + o.rows
      && (fatal.None? ==> audioCount == o.audioCount && transcriptCount == o.transcriptCount)
    ensures sender.flushed == old(sender.flushed) && sender.flushCount == old(sender.flushCount)
  {
    ghost var audio := AudioStage(e, cfg, sender.rejects);
    ghost var transcript := TranscriptStage(e, cfg, sender.rejects);
    var audioData: seq<AudioData> := [];
    if !cfg.skip {
      var processed := ProcessAudioData(cfg.audioCsv(e.AudioDataFile), e.Time, e.SampleRate, e.Name);
      if processed.None? {
        assert audio == Stage([], 0, Some(AudioDataFailed(e.AudioDataFile)));
        assert old(sender.pending) + [] == old(sender.pending);
        return 0, 0, Some(AudioDataFailed(e.AudioDataFile));
      }
      audioData := processed.value;
      fatal := SubmitRows(AudioRows(cfg.audioTable, audioData), sender);
      assert audio == Submit(AudioRows(cfg.audioTable, audioData), sender.rejects);
      if fatal.Some? {
        return 0, 0, fatal;
      }
    } else {
      assert audio == Stage([], 0, None);
      assert old(sender.pending) + [] == old(sender.pending);
    }
    assert audio.fatal.None? && sender.pending == old(sender.pending) + audio.rows && audio.count == |audioData|;
    var transcriptData := ProcessTranscriptData(cfg.transcriptCsv(e.TranscriptDataFile), e.Time, e.Name);
    if transcriptData.None? {
      assert transcript == Stage([], 0, Some(TranscriptDataFailed(e.TranscriptDataFile)));
      assert audio.rows + [] == audio.rows;
      return 0, 0, Some(TranscriptDataFailed(e.TranscriptDataFile));
    }
    fatal := SubmitRows(TranscriptRows(cfg.transcriptTable, transcriptData.value), sender);
    assert transcript == Submit(TranscriptRows(cfg.transcriptTable, transcriptData.value), sender.rejects);
    AppendAssoc(old(sender.pending), audio.rows, transcript.rows);
    audioCount, transcriptCount := |audioData|, |transcriptData.value|;
  }


  /** The event loop and the final flush (main.go 78-127): flushed once after every event succeeded, never after a failure. */
  method ProcessEvents(events: seq<LogEvent>, cfg: Config, sender: Sender)
    returns (countAudio: nat, countTranscript: nat, fatal: Option<Fatal>)
    requires RatesValid(events, cfg.skip)
    modifies sender
    ensures var p := Ingest(events, cfg, sender.rejects);
      && fatal == p.fatal
      && (fatal.None? ==> countAudio == p.countAudio && countTranscript == p.countTranscript)
      && (fatal.None? ==>
            && sender.flushed == old(sender.flushed) + old(sender.pending) + p.rows
            && sender.pending == []
            && sender.flushCount == old(sender.flushCount) + 1)
      && (fatal.Some? ==>
            && sender.pending == old(sender.pending) + p.rows
            && sender.flushed == old(sender.flushed)
            && sender.flushCount == old(sender.flushCount))
  {
    countAudio, countTranscript, fatal := 0, 0, None;
    ghost var rejects := sender.rejects;
    ghost var pending0 := sender.pending;
    var i := 0;
    while i < |events| && fatal.None?
      invariant i <= |events| && RatesValid(events[..i], cfg.skip)
      invariant fatal == Ingest(events[..i], cfg, rejects).fatal
      invariant fatal.None? ==> countAudio == Ingest(events[..i], cfg, rejects).countAudio
      invariant fatal.None? ==> countTranscript == Ingest(events[..i], cfg, rejects).countTranscript
      invariant sender.pending == pending0 + Ingest(events[..i], cfg, rejects).rows
      invariant sender.flushed == old(sender.flushed) && sender.flushCount == old(sender.flushCount)
    {
      IngestStep(events, i, cfg, rejects);
      var audioCount, transcriptCount;
      audioCount, transcriptCount, fatal := ProcessEvent(events[i], cfg, sender);
      AppendAssoc(pending0, Ingest(events[..i], cfg, rejects).rows, ProcessedEvent(events[i], cfg, rejects).rows);
      if fatal.None? {
        if !cfg.skip {
          countAudio := countAudio + audioCount;
        }
        countTranscript := countTranscript + transcriptCount;
      }
      i := i + 1;
    }
    IngestStopsAt(events, i, cfg, rejects);
    if fatal.None? {
      sender.Flush();
    }
  }

  /** The per-event files load: the audio file unless audio is skipped, and the transcript file. */
  predicate Loads(e: LogEvent, cfg: Config)
  {
    (cfg.skip || cfg.audioCsv(e.AudioDataFile).Some?) && cfg.transcriptCsv(e.TranscriptDataFile).Some?
  }

  /** The rows one event emits when its files load: its audio rows (none when skipped), then its transcript rows. */
  function EventRows(e: LogEvent, cfg: Config): seq<Row>
    requires cfg.skip || e.SampleRate != 0
    requires Loads(e, cfg)
  {
    (if cfg.skip then [] else AudioRows(cfg.audioTable, AlignedAudio(cfg.audioCsv(e.AudioDataFile).value, e.Time, e.SampleRate, e.Name)))
    + TranscriptRows(cfg.transcriptTable, AlignedTranscript(cfg.transcriptCsv(e.TranscriptDataFile).value, e.Time, e.Name))
  }

  predicate AllLoad(events: seq<LogEvent>, cfg: Config)
  {
    forall i :: 0 <= i < |events| ==> Loads(events[i], cfg)
  }

  /** Every event's rows, event after event in log order. */
  function AllRows(events: seq<LogEvent>, cfg: Config): seq<Row>
    requires RatesValid(events, cfg.skip) && AllLoad(events, cfg)
    decreases |events|
  {
    if events == [] then []
    else
      assert RatesValid(events[..|events| - 1], cfg.skip);
      AllRows(events[..|events| - 1], cfg) + EventRows(events[|events| - 1], cfg)
  }

  /** The number of audio records an event contributes to countAudio. */
  function AudioRecords(e: LogEvent, cfg: Config): nat
  {
    if cfg.skip then 0
    else match cfg.audioCsv(e.AudioDataFile)
      case None => 0
      case Some(recs) => |recs|
  }

  /** The number of transcript records an event contributes to countTranscript. */
  function TranscriptRecords(e: LogEvent, cfg: Config): nat
  {
    match cfg.transcriptCsv(e.TranscriptDataFile)
    case None => 0
    case Some(recs) => |recs|
  }

  function SumAudio(events: seq<LogEvent>, cfg: Config): nat
    decreases |events|
  {
    if events == [] then 0 else SumAudio(events[..|events| - 1], cfg) + AudioRecords(events[|events| - 1], cfg)
  }

  function SumTranscript(events: seq<LogEvent>, cfg: Config): nat
    decreases |events|
  {
    if events == [] then 0 else SumTranscript(events[..|events| - 1], cfg) + TranscriptRecords(events[|events| - 1], cfg)
  }

  /** Submitting rows fails exactly when the client refuses one of them, and otherwise buffers all of them. */
  lemma SubmitAccepts(rows: seq<Row>, rejects: Row -> bool)
    ensures Submit(rows, rejects).fatal.None? <==> forall r :: r in rows ==> !rejects(r)
    ensures Submit(rows, rejects).fatal.None? ==> Submit(rows, rejects) == Stage(rows, |rows|, None)
    ensures forall r :: r in Submit(rows, rejects).rows ==> r in rows
  {
    var k := FirstRefused(rows, rejects);
    if k < |rows| {
      assert rows[k] in rows;
    } else {
      assert forall r :: r in rows ==> exists i :: 0 <= i < |rows| && r == rows[i];
    }
  }

  /** One event succeeds exactly when its files load and the client takes every one of its rows; it then emits EventRows. */
  lemma ProcessedEventSucceeds(e: LogEvent, cfg: Config, rejects: Row -> bool)
    requires cfg.skip || e.SampleRate != 0
    ensures var o := ProcessedEvent(e, cfg, rejects);
      && (o.fatal.None? <==> Loads(e, cfg) && forall r :: r in EventRows(e, cfg) ==> !rejects(r))
      && (o.fatal.None? ==>
            o.rows == EventRows(e, cfg) && o.audioCount == AudioRecords(e, cfg) && o.transcriptCount == TranscriptRecords(e, cfg))
  {
    if !cfg.skip && cfg.audioCsv(e.AudioDataFile).Some? {
      SubmitAccepts(AudioRows(cfg.audioTable, AlignedAudio(cfg.audioCsv(e.AudioDataFile).value, e.Time, e.SampleRate, e.Name)), rejects);
    }
    if cfg.transcriptCsv(e.TranscriptDataFile).Some? {
      SubmitAccepts(TranscriptRows(cfg.transcriptTable, AlignedTranscript(cfg.transcriptCsv(e.TranscriptDataFile).value, e.Time, e.Name)), rejects);
    }
  }

  /**
   * The event loop finishes exactly when every file loads and the client
   * takes every row; it has then buffered every event's rows in log order,
   * each event's audio rows before its transcript rows, and the counters
   * hold the numbers of audio and transcript records.
   */
  lemma {:induction false} IngestSucceeds(events: seq<LogEvent>, cfg: Config, rejects: Row -> bool)
    requires RatesValid(events, cfg.skip)
    ensures var p := Ingest(events, cfg, rejects);
      && (p.fatal.None? <==> AllLoad(events, cfg) && forall r :: r in AllRows(events, cfg) ==> !rejects(r))
      && (p.fatal.None? ==>
            && p.rows == AllRows(events, cfg)
            && p.countAudio == SumAudio(events, cfg)
            && p.countTranscript == SumTranscript(events, cfg))
    decreases |events|
  {
    if events != [] {
      var init, e := events[..|events| - 1], events[|events| - 1];
      assert RatesValid(init, cfg.skip);
      IngestSucceeds(init, cfg, rejects);
      ProcessedEventSucceeds(e, cfg, rejects);
      AllLoadSnoc(events, cfg);
      if AllLoad(events, cfg) {
        assert AllRows(events, cfg) == AllRows(init, cfg) + EventRows(e, cfg);
      }
    }
  }

  lemma AllLoadSnoc(events: seq<LogEvent>, cfg: Config)
    requires events != []
    ensures AllLoad(events, cfg) <==> AllLoad(events[..|events| - 1], cfg) && Loads(events[|events| - 1], cfg)
  {
    assert forall i :: 0 <= i < |events| - 1 ==> events[..|events| - 1][i] == events[i];
  }

  /** Exactly one row per record: the rows of a complete run number countAudio + countTranscript. */
  lemma {:induction false} AllRowsCount(events: seq<LogEvent>, cfg: Config)
    requires RatesValid(events, cfg.skip) && AllLoad(events, cfg)
    ensures |AllRows(events, cfg)| == SumAudio(events, cfg) + SumTranscript(events, cfg)
    decreases |events|
  {
    if events != [] {
      var init := events[..|events| - 1];
      assert RatesValid(init, cfg.skip) && AllLoad(init, cfg);
      AllRowsCount(init, cfg);
    }
  }

  /** With audio skipped, countAudio stays 0. */
  lemma {:induction false} SkipCountsNoAudio(events: seq<LogEvent>, cfg: Config)
    requires cfg.skip
    ensures SumAudio(events, cfg) == 0
    decreases |events|
  {
    if events != [] {
      SkipCountsNoAudio(events[..|events| - 1], cfg);
    }
  }

  /** Every row of an event carries the event's name as its one tag. */
  lemma EventRowsTagged(e: LogEvent, cfg: Config)
    requires cfg.skip || e.SampleRate != 0
    requires Loads(e, cfg)
    ensures forall r :: r in EventRows(e, cfg) ==> r.symbols == [("name", e.Name)]
  {
  }

  /** The rows of a table among rows, in order. */
  function TableRows(rows: seq<Row>, table: string): (r: seq<Row>)
    ensures forall i :: 0 <= i < |r| ==> r[i] in rows && r[i].table == table
  {
    if rows == [] then []
    else TableRows(rows[..|rows| - 1], table) + (if rows[|rows| - 1].table == table then [rows[|rows| - 1]] else [])
  }

  lemma {:induction false} TableRowsAppend(a: seq<Row>, b: seq<Row>, table: string)
    ensures TableRows(a + b, table) == TableRows(a, table) + TableRows(b, table)
    decreases |b|
  {
    if b != [] {
      var init, last := b[..|b| - 1], b[|b| - 1];
      assert (a + b)[..|a + b| - 1] == a + init;
      assert (a + b)[|a + b| - 1] == last;
      var tail := if last.table == table then [last] else [];
      TableRowsAppend(a, init, table);
      assert TableRows(a + b, table) == TableRows(a + init, table) + tail;
      assert TableRows(b, table) == TableRows(init, table) + tail;
      AppendAssoc(TableRows(a, table), TableRows(init, table), tail);
    } else {
      assert a + b == a;
    }
  }

  lemma {:induction false} TableRowsAll(rows: seq<Row>, table: string)
    requires forall i :: 0 <= i < |rows| ==> rows[i].table == table
    ensures TableRows(rows, table) == rows
    decreases |rows|
  {
    if rows != [] {
      var init, last := rows[..|rows| - 1], rows[|rows| - 1];
      assert forall i :: 0 <= i < |init| ==> init[i] == rows[i];
      TableRowsAll(init, table);
      assert TableRows(rows, table) == init + [last];
      assert init + [last] == rows;
    }
  }

  lemma {:induction false} TableRowsNone(rows: seq<Row>, table: string)
    requires forall i :: 0 <= i < |rows| ==> rows[i].table != table
    ensures TableRows(rows, table) == []
    decreases |rows|
  {
    if rows != [] {
      TableRowsNone(rows[..|rows| - 1], table);
    }
  }

  /** An event's transcript-table rows do not depend on whether audio is skipped. */
  lemma EventTranscriptRows(e: LogEvent, cfg: Config)
    requires !cfg.skip && e.SampleRate != 0 && Loads(e, cfg)
    requires cfg.audioTable != cfg.transcriptTable
    ensures TableRows(EventRows(e, cfg), cfg.transcriptTable) == EventRows(e, cfg.(skip := true))
  {
    var audio := AudioRows(cfg.audioTable, AlignedAudio(cfg.audioCsv(e.AudioDataFile).value, e.Time, e.SampleRate, e.Name));
    var transcript := TranscriptRows(cfg.transcriptTable, AlignedTranscript(cfg.transcriptCsv(e.TranscriptDataFile).value, e.Time, e.Name));
    TableRowsAppend(audio, transcript, cfg.transcriptTable);
    TableRowsNone(audio, cfg.transcriptTable);
    TableRowsAll(transcript, cfg.transcriptTable);
  }

  /**
   * Skipping audio leaves the transcript rows as they were: a complete run
   * with audio writes, to the transcript table, exactly the rows the
   * skipping run writes.
   */
  lemma {:induction false} SkipKeepsTranscriptRows(events: seq<LogEvent>, cfg: Config)
    requires !cfg.skip && RatesValid(events, cfg.skip) && AllLoad(events, cfg)
    requires cfg.audioTable != cfg.transcriptTable
    ensures AllLoad(events, cfg.(skip := true))
    ensures TableRows(AllRows(events, cfg), cfg.transcriptTable) == AllRows(events, cfg.(skip := true))
    decreases |events|
  {
    var skipped := cfg.(skip := true);
    if events != [] {
      var init, e := events[..|events| - 1], events[|events| - 1];
      assert RatesValid(init, cfg.skip) && AllLoad(init, cfg);
      SkipKeepsTranscriptRows(init, cfg);
      EventTranscriptRows(e, cfg);
      TableRowsAppend(AllRows(init, cfg), EventRows(e, cfg), cfg.transcriptTable);
    }
  }

  lemma AudioRowsFit(table: string, s: seq<AudioData>)
    ensures forall r :: r in AudioRows(table, s) ==> r.table == table && Fits(r, AudioLayout)
  {
    forall r | r in AudioRows(table, s)
      ensures r.table == table && Fits(r, AudioLayout)
    {
      var i :| 0 <= i < |s| && r == AudioRows(table, s)[i];
      AudioRowFits(table, s[i]);
    }
  }

  lemma TranscriptRowsFit(table: string, s: seq<TranscriptData>)
    ensures forall r :: r in TranscriptRows(table, s) ==> r.table == table && Fits(r, TranscriptLayout)
  {
    forall r | r in TranscriptRows(table, s)
      ensures r.table == table && Fits(r, TranscriptLayout)
    {
      var i :| 0 <= i < |s| && r == TranscriptRows(table, s)[i];
      TranscriptRowFits(table, s[i]);
    }
  }

  /** The row belongs to the audio table and fits it (only when audio is processed), or to the transcript table and fits it. */
  predicate RowFitsRun(r: Row, cfg: Config)
  {
    || (!cfg.skip && r.table == cfg.audioTable && Fits(r, AudioLayout))
    || (r.table == cfg.transcriptTable && Fits(r, TranscriptLayout))
  }

  lemma ProcessedEventRowsFit(e: LogEvent, cfg: Config, rejects: Row -> bool)
    requires cfg.skip || e.SampleRate != 0
    ensures forall r :: r in ProcessedEvent(e, cfg, rejects).rows ==> RowFitsRun(r, cfg)
  {
    if !cfg.skip && cfg.audioCsv(e.AudioDataFile).Some? {
      var rows := AudioRows(cfg.audioTable, AlignedAudio(cfg.audioCsv(e.AudioDataFile).value, e.Time, e.SampleRate, e.Name));
      SubmitAccepts(rows, rejects);
      AudioRowsFit(cfg.audioTable, AlignedAudio(cfg.audioCsv(e.AudioDataFile).value, e.Time, e.SampleRate, e.Name));
    }
    if cfg.transcriptCsv(e.TranscriptDataFile).Some? {
      var rows := TranscriptRows(cfg.transcriptTable, AlignedTranscript(cfg.transcriptCsv(e.TranscriptDataFile).value, e.Time, e.Name));
      SubmitAccepts(rows, rejects);
      TranscriptRowsFit(cfg.transcriptTable, AlignedTranscript(cfg.transcriptCsv(e.TranscriptDataFile).value, e.Time, e.Name));
    }
  }

  /**
   * Every row the loop buffers, whether or not the run fails, goes to the
   * audio table and fits the audio layout (never when audio is skipped), or
   * goes to the transcript table and fits the transcript layout.
   */
  lemma {:induction false} IngestRowsFit(events: seq<LogEvent>, cfg: Config, rejects: Row -> bool)
    requires RatesValid(events, cfg.skip)
    ensures forall r :: r in Ingest(events, cfg, rejects).rows ==> RowFitsRun(r, cfg)
    decreases |events|
  {
    if events != [] {
      var init, e := events[..|events| - 1], events[|events| - 1];
      assert RatesValid(init, cfg.skip);
      IngestRowsFit(init, cfg, rejects);
      ProcessedEventRowsFit(e, cfg, rejects);
    }
  }

  /** What the process is started with: its flags, what parsing the event log yields, and what loading each per-event file yields. */
  datatype Inputs = Inputs(
    nameFlag: string,
    logEventFile: string,
    skip: bool,
    eventLog: Option<seq<LogEvent>>,
    audioCsv: string -> Option<seq<AudioData>>,
    transcriptCsv: string -> Option<seq<TranscriptData>>)

  /** The sample rates of a parsed event log are usable. */
  predicate InputsValid(inputs: Inputs)
  {
    inputs.eventLog.Some? ==> RatesValid(inputs.eventLog.value, inputs.skip)
  }

  /** The loop's parameters for an experiment (main.go 78-79). */
  function ConfigFor(inputs: Inputs, experiment: string): Config
  {
    Config(inputs.skip, AudioTableName(experiment), TranscriptTableName(experiment), inputs.audioCsv, inputs.transcriptCsv)
  }

  /**
   * The end of a run: the store's tables, the statements sent to it, the
   * rows buffered by the client, whether they were flushed, and the failure
   * that ended the process early.
   */
  datatype RunResult = RunResult(
    tables: map<string, Table>,
    issued: seq<Statement>,
    rows: seq<Row>,
    flushed: bool,
    fatal: Option<Fatal>)

  /** The whole run (main.go 55-127): provision, then parse the event log, then the event loop and the flush. */
  function Experiment(inputs: Inputs, tables: map<string, Table>, status: Statement -> int, rejects: Row -> bool): RunResult
    requires InputsValid(inputs)
  {
    var name := ExperimentName(inputs.nameFlag, inputs.logEventFile);
    var p := Provision(tables, name, status);
    if p.err.Some? then RunResult(p.tables, p.issued, [], false, Some(InitFailed(p.err.value)))
    else if inputs.eventLog.None? then RunResult(p.tables, p.issued, [], false, Some(EventLogUnreadable))
    else
      var g := Ingest(inputs.eventLog.value, ConfigFor(inputs, name), rejects);
      RunResult(p.tables, p.issued, g.rows, g.fatal.None?, g.fatal)
  }

  /**
   * main: the store ends as Experiment says, every statement reaches it in
   * order, and the explicit Flush runs if and only if the run did not fail;
   * otherwise it never runs and the run's rows stay buffered.
   */
  method RunExperiment(inputs: Inputs, db: Database, sender: Sender) returns (fatal: Option<Fatal>)
    requires InputsValid(inputs)
    modifies db, sender
    ensures var r := Experiment(inputs, old(db.tables), db.status, sender.rejects);
      && fatal == r.fatal
      && db.tables == r.tables
      && db.requests == old(db.requests) + r.issued
      && (r.flushed ==>
            && sender.flushed == old(sender.flushed) + old(sender.pending) + r.rows
            && sender.pending == []
            && sender.flushCount == old(sender.flushCount) + 1)
      && (!r.flushed ==>
            && sender.pending == old(sender.pending) + r.rows
            && sender.flushed == old(sender.flushed)
            && sender.flushCount == old(sender.flushCount))
  {
    var experimentName := inputs.nameFlag;
    if |experimentName| == 0 {
      experimentName := Base(inputs.logEventFile);
      experimentName := TrimSuffix(experimentName, Ext(experimentName));
    }
    var err := InitQuestDB(db, experimentName);
    if err.Some? {
      return Some(InitFailed(err.value));
    }
    if inputs.eventLog.None? {
      return Some(EventLogUnreadable);
    }
    var cfg := Config(inputs.skip, AudioTableName(experimentName), TranscriptTableName(experimentName),
                      inputs.audioCsv, inputs.transcriptCsv);
    var countAudio, countTranscript;
    countAudio, countTranscript, fatal := ProcessEvents(inputs.eventLog.value, cfg, sender);
  }

  /**
   * A run finishes exactly when the store accepts the five provisioning
   * statements, the event log parses, every per-event file loads and the
   * client takes every row. It has then reset the experiment's two tables
   * and flushed every event's rows in log order; a failed run flushes nothing.
   */
  lemma ExperimentSucceeds(inputs: Inputs, tables: map<string, Table>, status: Statement -> int, rejects: Row -> bool)
    requires InputsValid(inputs)
    ensures var name := ExperimentName(inputs.nameFlag, inputs.logEventFile);
      var cfg := ConfigFor(inputs, name);
      var r := Experiment(inputs, tables, status, rejects);
      && (r.flushed <==> r.fatal.None?)
      && (r.fatal.None? <==>
            && (forall i :: 0 <= i < |Steps(name)| ==> status(Steps(name)[i]) <= 299)
            && inputs.eventLog.Some?
            && AllLoad(inputs.eventLog.value, cfg)
            && forall row :: row in AllRows(inputs.eventLog.value, cfg) ==> !rejects(row))
      && (r.fatal.None? ==>
            && r.tables == Reset(tables, name)
            && r.issued == Steps(name)
            && r.rows == AllRows(inputs.eventLog.value, cfg))
  {
    var name := ExperimentName(inputs.nameFlag, inputs.logEventFile);
    ProvisionSucceeds(tables, name, status);
    if inputs.eventLog.Some? {
      IngestSucceeds(inputs.eventLog.value, ConfigFor(inputs, name), rejects);
    }
  }

  /** A refused ping ends the run before any table is touched or any row is built. */
  lemma ExperimentPingRefused(inputs: Inputs, tables: map<string, Table>, status: Statement -> int, rejects: Row -> bool)
    requires InputsValid(inputs) && status(Ping) > 299
    ensures Experiment(inputs, tables, status, rejects) ==
      RunResult(tables, [Ping], [], false, Some(InitFailed(PingFailed(status(Ping)))))
  {
    ProvisionPingRefused(tables, ExperimentName(inputs.nameFlag, inputs.logEventFile), status);
  }

  /**
   * The tables are reset before the event log is read: an unreadable log
   * still leaves the experiment's two tables dropped and recreated empty.
   */
  lemma ExperimentBadLogStillResets(inputs: Inputs, tables: map<string, Table>, status: Statement -> int, rejects: Row -> bool)
    requires inputs.eventLog.None?
    requires var steps := Steps(ExperimentName(inputs.nameFlag, inputs.logEventFile));
      forall i :: 0 <= i < |steps| ==> status(steps[i]) <= 299
    ensures var r := Experiment(inputs, tables, status, rejects);
      && r.fatal == Some(EventLogUnreadable)
      && r.tables == Reset(tables, ExperimentName(inputs.nameFlag, inputs.logEventFile))
      && r.rows == [] && !r.flushed
  {
    ProvisionSucceeds(tables, ExperimentName(inputs.nameFlag, inputs.logEventFile), status);
  }

  /**
   * Every row a run buffers, when provisioning succeeded, targets one of the
   * experiment's two tables as provisioned, and fits that table's layout.
   */
  lemma ExperimentRowsFit(inputs: Inputs, tables: map<string, Table>, status: Statement -> int, rejects: Row -> bool)
    requires InputsValid(inputs)
    ensures var r := Experiment(inputs, tables, status, rejects);
      forall row :: row in r.rows ==> row.table in r.tables && Fits(row, r.tables[row.table].layout)
  {
    var name := ExperimentName(inputs.nameFlag, inputs.logEventFile);
    if Provision(tables, name, status).err.None? && inputs.eventLog.Some? {
      ProvisionSucceeds(tables, name, status);
      IngestRowsFitReset(inputs.eventLog.value, ConfigFor(inputs, name), rejects, tables, name);
    }
  }

  /** The rows the loop buffers for an experiment fit the tables its reset left. */
  lemma IngestRowsFitReset(events: seq<LogEvent>, cfg: Config, rejects: Row -> bool, tables: map<string, Table>, experiment: string)
    requires RatesValid(events, cfg.skip)
    requires cfg.audioTable == AudioTableName(experiment) && cfg.transcriptTable == TranscriptTableName(experiment)
    ensures var reset := Reset(tables, experiment);
      forall row :: row in Ingest(events, cfg, rejects).rows ==> row.table in reset && Fits(row, reset[row.table].layout)
  {
    ResetTables(tables, experiment);
    IngestRowsFit(events, cfg, rejects);
  }



  /** One event's rows for each table: its audio records in the audio table, its transcript records in the transcript table. */
  lemma EventRowsPerTable(e: LogEvent, cfg: Config)
    requires cfg.skip || e.SampleRate != 0
    requires Loads(e, cfg) && cfg.audioTable != cfg.transcriptTable
    ensures |TableRows(EventRows(e, cfg), cfg.audioTable)| == AudioRecords(e, cfg)
    ensures |TableRows(EventRows(e, cfg), cfg.transcriptTable)| == TranscriptRecords(e, cfg)
  {
    var audio := if cfg.skip then [] else AudioRows(cfg.audioTable, AlignedAudio(cfg.audioCsv(e.AudioDataFile).value, e.Time, e.SampleRate, e.Name));
    var transcript := TranscriptRows(cfg.transcriptTable, AlignedTranscript(cfg.transcriptCsv(e.TranscriptDataFile).value, e.Time, e.Name));
    assert EventRows(e, cfg) == audio + transcript;
    TableRowsAppend(audio, transcript, cfg.audioTable);
    TableRowsAppend(audio, transcript, cfg.transcriptTable);
    TableRowsAll(audio, cfg.audioTable);
    TableRowsNone(audio, cfg.transcriptTable);
    TableRowsNone(transcript, cfg.audioTable);
    TableRowsAll(transcript, cfg.transcriptTable);
  }

  /**
   * A complete run writes countAudio rows to the audio table and
   * countTranscript rows to the transcript table.
   */
  lemma {:induction false} AllRowsPerTable(events: seq<LogEvent>, cfg: Config)
    requires RatesValid(events, cfg.skip) && AllLoad(events, cfg)
    requires cfg.audioTable != cfg.transcriptTable
    ensures |TableRows(AllRows(events, cfg), cfg.audioTable)| == SumAudio(events, cfg)
    ensures |TableRows(AllRows(events, cfg), cfg.transcriptTable)| == SumTranscript(events, cfg)
    decreases |events|
  {
    if events != [] {
      var init, e := events[..|events| - 1], events[|events| - 1];
      assert RatesValid(init, cfg.skip) && AllLoad(init, cfg);
      AllRowsPerTable(init, cfg);
      EventRowsPerTable(e, cfg);
      TableRowsAppend(AllRows(init, cfg), EventRows(e, cfg), cfg.audioTable);
      TableRowsAppend(AllRows(init, cfg), EventRows(e, cfg), cfg.transcriptTable);
    }
  }
}
