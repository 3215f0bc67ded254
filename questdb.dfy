/**
 * internal/questdb/questdb.go: the per-experiment table names and the
 * provisioning sequence InitQuestDB runs against the store's HTTP query
 * endpoint (ping, then drop-if-exists and create-if-not-exists for the
 * audio table, then the same for the transcript table).
 *
 * The store is a map from table name to table; the HTTP status it answers
 * for each statement is an oracle fixed for the store, and a statement
 * takes effect exactly when that status is at most 299.
 */
module QuestDB {
  import opened Options
  import opened LineSender

  function AudioTableName(experiment: string): (name: string)
    ensures |name| == |experiment| + 6 && name[..6] == "audio_" && name[6..] == experiment
  {
    "audio_" + experiment
  }

  function TranscriptTableName(experiment: string): (name: string)
    ensures |name| == |experiment| + 11 && name[..11] == "transcript_" && name[11..] == experiment
  {
    "transcript_" + experiment
  }

  /** Different experiment names give different table names. */
  lemma TableNamesInjective(e1: string, e2: string)
    ensures AudioTableName(e1) == AudioTableName(e2) ==> e1 == e2
    ensures TranscriptTableName(e1) == TranscriptTableName(e2) ==> e1 == e2
  {
    if AudioTableName(e1) == AudioTableName(e2) {
      assert e1 == AudioTableName(e1)[6..];
    }
    if TranscriptTableName(e1) == TranscriptTableName(e2) {
      assert e1 == TranscriptTableName(e1)[11..];
    }
  }

  /** An audio table name is never a transcript table name, whatever the two experiments. */
  lemma AudioNeverTranscript(e1: string, e2: string)
    ensures AudioTableName(e1) != TranscriptTableName(e2)
  {
    assert AudioTableName(e1)[0] != TranscriptTableName(e2)[0];
  }

  datatype ColumnType = TimestampType | DoubleType | SymbolType | VarcharType

  datatype Column = Column(name: string, kind: ColumnType)

  /** A table's columns, its designated timestamp column, and its storage options. */
  datatype Layout = Layout(columns: seq<Column>, designated: string, partitionByDay: bool, wal: bool)

  const AudioLayout: Layout := Layout(
    [Column("ts", TimestampType), Column("audio_level", DoubleType), Column("name", SymbolType)],
    "ts", true, true)

  const TranscriptLayout: Layout := Layout(
    [Column("ts_start", TimestampType), Column("duration", DoubleType), Column("ts_end", TimestampType),
     Column("word", VarcharType), Column("name", SymbolType)],
    "ts_start", true, true)

  /** A statement text whose only formatting verb is one "%s": head + "%s" + tail, no other '%'. */
  datatype Template = Template(head: string, tail: string)

  /** fmt.Sprintf on such a template and one string argument: the argument replaces the verb. */
  function Sprintf(t: Template, arg: string): (text: string)
    ensures |text| == |t.head| + |arg| + |t.tail|
    ensures text[..|t.head|] == t.head
    ensures text[|t.head|..|t.head| + |arg|] == arg
    ensures text[|t.head| + |arg|..] == t.tail
  {
    t.head + arg + t.tail
  }

  /** The argument Sprintf placed into a template's text, read back from that text. */
  function Argument(t: Template, text: string): string
    requires |t.head| + |t.tail| <= |text|
  {
    text[|t.head|..|text| - |t.tail|]
  }

  /** The table named in a statement's text can be read back from it. */
  lemma {:induction false} SprintfRoundTrip(t: Template, arg: string)
    ensures |t.head| + |t.tail| <= |Sprintf(t, arg)|
    ensures Argument(t, Sprintf(t, arg)) == arg
  {
    var text := Sprintf(t, arg);
    assert text[|t.head|..|text| - |t.tail|] == arg;
  }

  const DropTemplate: Template := Template("DROP TABLE IF EXISTS ", ";")

  /** The two create-if-not-exists statements InitQuestDB sends. */
  datatype CreateQuery = CreateAudioQuery | CreateTranscriptQuery

  /** The statement text, with "%s" where the table name goes. */
  function QueryText(q: CreateQuery): Template
  {
    match q
    case CreateAudioQuery =>
      Template("\n\t\tCREATE TABLE IF NOT EXISTS ",
               " (\n\t\t\tts TIMESTAMP,\n\t\t\taudio_level DOUBLE,\n\t\t\tname SYMBOL   \n\t\t) TIMESTAMP(ts) PARTITION BY DAY WAL;")
    case CreateTranscriptQuery =>
      Template("\n\t\tCREATE TABLE IF NOT EXISTS ",
               " (\n\t\t\tts_start TIMESTAMP,\n\t\t\tduration DOUBLE,\n\t\t\tts_end TIMESTAMP,\n\t\t\tword VARCHAR,\n\t\t\tname SYMBOL\n\t\t) TIMESTAMP(ts_start) PARTITION BY DAY WAL;")
  }

  /** The layout the statement text declares. */
  function QueryLayout(q: CreateQuery): Layout
  {
    match q
    case CreateAudioQuery => AudioLayout
    case CreateTranscriptQuery => TranscriptLayout
  }

  datatype Statement = Ping | Drop(table: string) | Create(table: string, query: CreateQuery)

  /** The SQL text sent to the query endpoint for a statement. */
  function Sql(s: Statement): string
  {
    match s
    case Ping => "SELECT NOW();"
    case Drop(t) => Sprintf(DropTemplate, t)
    case Create(t, q) => Sprintf(QueryText(q), t)
  }

  /** The table a drop or create statement names is the one its SQL text names. */
  lemma StatementTextNamesTable(s: Statement)
    requires !s.Ping?
    ensures s.Drop? ==> Sql(s) == "DROP TABLE IF EXISTS " + s.table + ";" && Argument(DropTemplate, Sql(s)) == s.table
    ensures s.Create? ==> |QueryText(s.query).head| + |QueryText(s.query).tail| <= |Sql(s)| && Argument(QueryText(s.query), Sql(s)) == s.table
  {
    match s
    case Drop(t) => SprintfRoundTrip(DropTemplate, t);
    case Create(t, q) => SprintfRoundTrip(QueryText(q), t);
  }

  datatype Table = Table(layout: Layout, rows: seq<Row>)

  /** The effect of a statement the store accepted. */
  function Apply(tables: map<string, Table>, s: Statement): map<string, Table>
  {
    match s
    case Ping => tables
    case Drop(t) => tables - {t}
    case Create(t, q) => if t in tables then tables else tables[t := Table(QueryLayout(q), [])]
  }

  /** Dropping a table and then creating it leaves it empty with the created layout, whatever was there. */
  lemma DropThenCreate(tables: map<string, Table>, t: string, q: CreateQuery)
    ensures Apply(Apply(tables, Drop(t)), Create(t, q)) == (tables - {t})[t := Table(QueryLayout(q), [])]
  {
  }

  /** The store behind the query endpoint. */
  class Database {
    var tables: map<string, Table>
    /** Every statement received, in order. */
    var requests: seq<Statement>
    /** The HTTP status the endpoint answers for a statement. */
    const status: Statement -> int

    constructor (tables: map<string, Table>, status: Statement -> int)
      ensures this.tables == tables && requests == [] && this.status == status
    {
      this.tables := tables;
      requests := [];
      this.status := status;
    }

    /** `GET /exec?query=<Sql(s)>`: the status code, and the statement's effect when that code is a success. */
    method Exec(s: Statement) returns (code: int)
      modifies this
      ensures code == status(s)
      ensures requests == old(requests) + [s]
      ensures tables == if code <= 299 then Apply(old(tables), s) else old(tables)
    {
      code := status(s);
      requests := requests + [s];
      if code <= 299 {
        tables := Apply(tables, s);
      }
    }
  }

  datatype ProvisionError =
    | PingFailed(status: int)
    | DropFailed(table: string, status: int)
    | CreateFailed(table: string, status: int)

  /** The error InitQuestDB returns when a statement gets a failure status. */
  function ErrorOf(s: Statement, code: int): ProvisionError
  {
    match s
    case Ping => PingFailed(code)
    case Drop(t) => DropFailed(t, code)
    case Create(t, _) => CreateFailed(t, code)
  }

  /** DeleteTable: `DROP TABLE IF EXISTS <table>;`, an error naming the table when the status exceeds 299. */
  method DeleteTable(db: Database, table: string) returns (err: Option<ProvisionError>)
    modifies db
    ensures db.requests == old(db.requests) + [Drop(table)]
    ensures err == if db.status(Drop(table)) > 299 then Some(DropFailed(table, db.status(Drop(table)))) else None
    ensures db.tables == if err.None? then old(db.tables) - {table} else old(db.tables)
  {
    var code := db.Exec(Drop(table));
    if code > 299 {
      return Some(DropFailed(table, code));
    }
    return None;
  }

  /** CreateTable: the template with the table name substituted, an error naming the table when the status exceeds 299. */
  method CreateTable(db: Database, table: string, query: CreateQuery) returns (err: Option<ProvisionError>)
    modifies db
    ensures db.requests == old(db.requests) + [Create(table, query)]
    ensures err == if db.status(Create(table, query)) > 299 then Some(CreateFailed(table, db.status(Create(table, query)))) else None
    ensures db.tables == if err.None? then Apply(old(db.tables), Create(table, query)) else old(db.tables)
  {
    var code := db.Exec(Create(table, query));
    if code > 299 {
      return Some(CreateFailed(table, code));
    }
    return None;
  }

  /** The statements InitQuestDB issues, in order, when none fails. */
  function Steps(experiment: string): seq<Statement>
  {
    [ Ping,
      Drop(AudioTableName(experiment)), Create(AudioTableName(experiment), CreateAudioQuery),
      Drop(TranscriptTableName(experiment)), Create(TranscriptTableName(experiment), CreateTranscriptQuery) ]
  }

  /** The store after a run of statements, the statements issued, and the error that stopped the run. */
  datatype Provisioned = Provisioned(tables: map<string, Table>, issued: seq<Statement>, err: Option<ProvisionError>)

  /** Runs statements in order and stops at the first one whose status exceeds 299. */
  function RunStatements(tables: map<string, Table>, stmts: seq<Statement>, status: Statement -> int): Provisioned
    decreases |stmts|
  {
    if stmts == [] then Provisioned(tables, [], None)
    else if status(stmts[0]) > 299 then Provisioned(tables, [stmts[0]], Some(ErrorOf(stmts[0], status(stmts[0]))))
    else
      var rest := RunStatements(Apply(tables, stmts[0]), stmts[1..], status);
      rest.(issued := [stmts[0]] + rest.issued)
  }

  /** A run whose first statement is accepted: that statement's effect, then the rest of the run. */
  lemma RunStatementsAccepts(tables: map<string, Table>, stmts: seq<Statement>, status: Statement -> int)
    requires stmts != [] && status(stmts[0]) <= 299
    ensures var rest := RunStatements(Apply(tables, stmts[0]), stmts[1..], status);
      RunStatements(tables, stmts, status) == rest.(issued := [stmts[0]] + rest.issued)
  {
  }

  /** What InitQuestDB does to the store. */
  function Provision(tables: map<string, Table>, experiment: string, status: Statement -> int): Provisioned
  {
    RunStatements(tables, Steps(experiment), status)
  }

  /** InitQuestDB: ping, then drop and create the audio table, then drop and create the transcript table; the first failure is returned. */
  method InitQuestDB(db: Database, experiment: string) returns (err: Option<ProvisionError>)
    modifies db
    ensures var p := Provision(old(db.tables), experiment, db.status);
      db.tables == p.tables && db.requests == old(db.requests) + p.issued && err == p.err
  {
    var audio, transcript := AudioTableName(experiment), TranscriptTableName(experiment);
    ghost var t0, r0 := db.tables, db.requests;
    var code := db.Exec(Ping);
    if code > 299 {
      ProvisionPingRefused(t0, experiment, db.status);
      return Some(PingFailed(code));
    }
    err := DeleteTable(db, audio);
    assert db.requests == r0 + [Ping, Drop(audio)];
    if err.Some? {
      ProvisionAudioDropRefused(t0, experiment, db.status);
      return;
    }
    err := CreateTable(db, audio, CreateAudioQuery);
    assert db.requests == r0 + [Ping, Drop(audio), Create(audio, CreateAudioQuery)];
    if err.Some? {
      ProvisionAudioCreateRefused(t0, experiment, db.status);
      return;
    }
    ghost var audioReset := (t0 - {audio})[audio := Table(AudioLayout, [])];
    assert db.tables == audioReset;
    err := DeleteTable(db, transcript);
    assert db.requests == r0 + [Ping, Drop(audio), Create(audio, CreateAudioQuery), Drop(transcript)];
    if err.Some? {
      ProvisionTranscriptDropRefused(t0, experiment, db.status);
      return;
    }
    err := CreateTable(db, transcript, CreateTranscriptQuery);
    assert db.requests == r0 + Steps(experiment);
    if err.Some? {
      ProvisionTranscriptCreateRefused(t0, experiment, db.status);
      return;
    }
    AudioNeverTranscript(experiment, experiment);
    assert db.tables == (audioReset - {transcript})[transcript := Table(TranscriptLayout, [])];
    ProvisionAllAccepted(t0, experiment, db.status);
    ResetInTwoSteps(t0, audio, transcript, Table(AudioLayout, []), Table(TranscriptLayout, []));
  }

  /** Whether a statement can change the table named k. */
  predicate Touches(s: Statement, k: string)
  {
    match s
    case Ping => false
    case Drop(t) => t == k
    case Create(t, _) => t == k
  }

  /** A run of statements leaves alone every table that none of them names, whether or not it fails. */
  lemma {:induction false} RunStatementsFrame(tables: map<string, Table>, stmts: seq<Statement>, status: Statement -> int, k: string)
    requires forall i :: 0 <= i < |stmts| ==> !Touches(stmts[i], k)
    ensures var p := RunStatements(tables, stmts, status);
      && (k in p.tables <==> k in tables)
      && (k in tables ==> p.tables[k] == tables[k])
    decreases |stmts|
  {
    if stmts != [] && status(stmts[0]) <= 299 {
      RunStatementsFrame(Apply(tables, stmts[0]), stmts[1..], status, k);
    }
  }

  /** A run issues a prefix of its statements, all of them when it succeeds. */
  lemma {:induction false} RunStatementsPrefix(tables: map<string, Table>, stmts: seq<Statement>, status: Statement -> int)
    ensures var p := RunStatements(tables, stmts, status);
      && |p.issued| <= |stmts| && p.issued == stmts[..|p.issued|]
      && (p.err.None? ==> p.issued == stmts)
    decreases |stmts|
  {
    if stmts != [] && status(stmts[0]) <= 299 {
      var rest := RunStatements(Apply(tables, stmts[0]), stmts[1..], status);
      RunStatementsPrefix(Apply(tables, stmts[0]), stmts[1..], status);
      var n := |rest.issued|;
      assert RunStatements(tables, stmts, status).issued == [stmts[0]] + rest.issued;
      assert stmts[1..][..n] == stmts[1..n + 1];
      assert stmts[..n + 1] == [stmts[0]] + stmts[1..n + 1];
    }
  }

  /** A run succeeds exactly when no statement is refused. */
  lemma {:induction false} RunStatementsSucceeds(tables: map<string, Table>, stmts: seq<Statement>, status: Statement -> int)
    ensures RunStatements(tables, stmts, status).err.None? <==> forall i :: 0 <= i < |stmts| ==> status(stmts[i]) <= 299
    decreases |stmts|
  {
    if stmts != [] && status(stmts[0]) <= 299 {
      RunStatementsSucceeds(Apply(tables, stmts[0]), stmts[1..], status);
      assert forall i :: 1 <= i < |stmts| ==> stmts[i] == stmts[1..][i - 1];
    }
  }

  /** A failed run ends with the first refused statement, whose error it returns. */
  lemma {:induction false} RunStatementsFails(tables: map<string, Table>, stmts: seq<Statement>, status: Statement -> int)
    ensures var p := RunStatements(tables, stmts, status);
      p.err.Some? ==>
        && p.issued != []
        && status(p.issued[|p.issued| - 1]) > 299
        && p.err == Some(ErrorOf(p.issued[|p.issued| - 1], status(p.issued[|p.issued| - 1])))
        && forall i :: 0 <= i < |p.issued| - 1 ==> status(p.issued[i]) <= 299
    decreases |stmts|
  {
    if stmts != [] && status(stmts[0]) <= 299 {
      var rest := RunStatements(Apply(tables, stmts[0]), stmts[1..], status);
      RunStatementsFails(Apply(tables, stmts[0]), stmts[1..], status);
      if rest.err.Some? {
        var issued := [stmts[0]] + rest.issued;
        assert RunStatements(tables, stmts, status) == Provisioned(rest.tables, issued, rest.err);
        assert issued[|issued| - 1] == rest.issued[|rest.issued| - 1];
        assert forall i :: 1 <= i < |issued| ==> issued[i] == rest.issued[i - 1];
      }
    }
  }

  /**
   * Where a run stops: it issues its statements in order up to and including
   * the first refused one, returns that statement's error, and succeeds
   * exactly when no statement is refused.
   */
  lemma RunStatementsStops(tables: map<string, Table>, stmts: seq<Statement>, status: Statement -> int)
    ensures var p := RunStatements(tables, stmts, status);
      && |p.issued| <= |stmts| && p.issued == stmts[..|p.issued|]
      && (p.err.None? <==> forall i :: 0 <= i < |stmts| ==> status(stmts[i]) <= 299)
      && (p.err.None? ==> p.issued == stmts)
      && (p.err.Some? ==>
            && p.issued != []
            && status(p.issued[|p.issued| - 1]) > 299
            && p.err == Some(ErrorOf(p.issued[|p.issued| - 1], status(p.issued[|p.issued| - 1])))
            && forall i :: 0 <= i < |p.issued| - 1 ==> status(p.issued[i]) <= 299)
  {
    RunStatementsPrefix(tables, stmts, status);
    RunStatementsSucceeds(tables, stmts, status);
    RunStatementsFails(tables, stmts, status);
  }

  /** The store after a successful InitQuestDB: both tables empty with their layouts, every other table as it was. */
  function Reset(tables: map<string, Table>, experiment: string): map<string, Table>
  {
    var audio, transcript := AudioTableName(experiment), TranscriptTableName(experiment);
    (tables - {audio, transcript})[audio := Table(AudioLayout, [])][transcript := Table(TranscriptLayout, [])]
  }

  /** After a reset both of the experiment's tables exist, empty, with their layouts; every other table is as it was. */
  lemma ResetTables(tables: map<string, Table>, experiment: string)
    ensures var r := Reset(tables, experiment);
      && AudioTableName(experiment) in r && r[AudioTableName(experiment)] == Table(AudioLayout, [])
      && TranscriptTableName(experiment) in r && r[TranscriptTableName(experiment)] == Table(TranscriptLayout, [])
      && forall k :: k != AudioTableName(experiment) && k != TranscriptTableName(experiment) ==>
           (k in r <==> k in tables) && (k in tables ==> r[k] == tables[k])
  {
    AudioNeverTranscript(experiment, experiment);
  }

  /**
   * InitQuestDB succeeds exactly when the store accepts all five statements;
   * it has then issued all of them in order and reset the experiment's
   * two tables, whatever the store held before.
   */
  lemma ProvisionSucceeds(tables: map<string, Table>, experiment: string, status: Statement -> int)
    ensures var p := Provision(tables, experiment, status);
      && (p.err.None? <==> forall i :: 0 <= i < |Steps(experiment)| ==> status(Steps(experiment)[i]) <= 299)
      && (p.err.None? ==> p.issued == Steps(experiment) && p.tables == Reset(tables, experiment))
  {
    RunStatementsStops(tables, Steps(experiment), status);
    if Provision(tables, experiment, status).err.None? {
      ProvisionAllAccepted(tables, experiment, status);
    }
  }

  /** A run whose first statement is accepted and whose remainder issues everything also issues everything. */
  lemma AcceptedStep(tables: map<string, Table>, stmts: seq<Statement>, status: Statement -> int, final: map<string, Table>)
    requires stmts != [] && status(stmts[0]) <= 299
    requires RunStatements(Apply(tables, stmts[0]), stmts[1..], status) == Provisioned(final, stmts[1..], None)
    ensures RunStatements(tables, stmts, status) == Provisioned(final, stmts, None)
  {
    RunStatementsAccepts(tables, stmts, status);
    assert [stmts[0]] + stmts[1..] == stmts;
  }

  /** When the store accepts all five statements, InitQuestDB issues them all and resets the two tables. */
  lemma ProvisionAllAccepted(tables: map<string, Table>, experiment: string, status: Statement -> int)
    requires forall i :: 0 <= i < |Steps(experiment)| ==> status(Steps(experiment)[i]) <= 299
    ensures Provision(tables, experiment, status) == Provisioned(Reset(tables, experiment), Steps(experiment), None)
  {
    var steps := Steps(experiment);
    var audio, transcript := AudioTableName(experiment), TranscriptTableName(experiment);
    AudioNeverTranscript(experiment, experiment);
    var t2 := tables - {audio};
    var t3 := t2[audio := Table(AudioLayout, [])];
    var t4 := t3 - {transcript};
    var t5 := t4[transcript := Table(TranscriptLayout, [])];
    assert RunStatements(t5, steps[5..], status) == Provisioned(t5, steps[5..], None) by {
      assert steps[5..] == [];
    }
    assert RunStatements(t4, steps[4..], status) == Provisioned(t5, steps[4..], None) by {
      assert steps[4..][0] == steps[4] && steps[4..][1..] == steps[5..];
      assert status(steps[4]) <= 299 && Apply(t4, steps[4]) == t5;
      AcceptedStep(t4, steps[4..], status, t5);
    }
    assert RunStatements(t3, steps[3..], status) == Provisioned(t5, steps[3..], None) by {
      assert steps[3..][0] == steps[3] && steps[3..][1..] == steps[4..];
      assert status(steps[3]) <= 299 && Apply(t3, steps[3]) == t4;
      AcceptedStep(t3, steps[3..], status, t5);
    }
    assert RunStatements(t2, steps[2..], status) == Provisioned(t5, steps[2..], None) by {
      assert steps[2..][0] == steps[2] && steps[2..][1..] == steps[3..];
      assert status(steps[2]) <= 299 && Apply(t2, steps[2]) == t3;
      AcceptedStep(t2, steps[2..], status, t5);
    }
    assert RunStatements(tables, steps[1..], status) == Provisioned(t5, steps[1..], None) by {
      assert steps[1..][0] == steps[1] && steps[1..][1..] == steps[2..];
      assert status(steps[1]) <= 299 && Apply(tables, steps[1]) == t2;
      AcceptedStep(tables, steps[1..], status, t5);
    }
    assert status(steps[0]) <= 299 && Apply(tables, steps[0]) == tables;
    AcceptedStep(tables, steps, status, t5);
    ResetInTwoSteps(tables, audio, transcript, Table(AudioLayout, []), Table(TranscriptLayout, []));
  }

  /** Replacing one table and then another, distinct one is the same as replacing both at once. */
  lemma ResetInTwoSteps(tables: map<string, Table>, a: string, b: string, ta: Table, tb: Table)
    requires a != b
    ensures ((tables - {a})[a := ta] - {b})[b := tb] == (tables - {a, b})[a := ta][b := tb]
  {
    var lhs, rhs := ((tables - {a})[a := ta] - {b})[b := tb], (tables - {a, b})[a := ta][b := tb];
    assert forall k :: k in lhs <==> k in rhs;
    assert forall k :: k in lhs ==> lhs[k] == rhs[k];
  }

  /** A refused ping stops InitQuestDB before any table is dropped or created. */
  lemma ProvisionPingRefused(tables: map<string, Table>, experiment: string, status: Statement -> int)
    requires status(Ping) > 299
    ensures Provision(tables, experiment, status) == Provisioned(tables, [Ping], Some(PingFailed(status(Ping))))
  {
  }

  /** A refused drop of the audio table stops InitQuestDB with the store unchanged. */
  lemma ProvisionAudioDropRefused(tables: map<string, Table>, experiment: string, status: Statement -> int)
    requires status(Ping) <= 299
    requires status(Drop(AudioTableName(experiment))) > 299
    ensures var audio := AudioTableName(experiment);
      Provision(tables, experiment, status)
      == Provisioned(tables, [Ping, Drop(audio)], Some(DropFailed(audio, status(Drop(audio)))))
  {
    var steps := Steps(experiment);
    assert steps[0..][0] == steps[0] && steps[0..][1..] == steps[1..];
    RunStatementsAccepts(tables, steps[0..], status);
  }

  /** A refused create of the audio table stops InitQuestDB with the old audio table dropped and nothing else changed. */
  lemma ProvisionAudioCreateRefused(tables: map<string, Table>, experiment: string, status: Statement -> int)
    requires status(Ping) <= 299 && status(Drop(AudioTableName(experiment))) <= 299
    requires status(Create(AudioTableName(experiment), CreateAudioQuery)) > 299
    ensures var audio := AudioTableName(experiment);
      var create := Create(audio, CreateAudioQuery);
      Provision(tables, experiment, status)
      == Provisioned(tables - {audio}, [Ping, Drop(audio), create], Some(CreateFailed(audio, status(create))))
  {
    var steps := Steps(experiment);
    assert steps[0..][0] == steps[0] && steps[0..][1..] == steps[1..];
    RunStatementsAccepts(tables, steps[0..], status);
    assert steps[1..][0] == steps[1] && steps[1..][1..] == steps[2..];
    RunStatementsAccepts(tables, steps[1..], status);
  }

  /** A refused drop of the transcript table stops InitQuestDB with only the audio table reset. */
  lemma ProvisionTranscriptDropRefused(tables: map<string, Table>, experiment: string, status: Statement -> int)
    requires status(Ping) <= 299 && status(Drop(AudioTableName(experiment))) <= 299
    requires status(Create(AudioTableName(experiment), CreateAudioQuery)) <= 299
    requires status(Drop(TranscriptTableName(experiment))) > 299
    ensures var audio, transcript := AudioTableName(experiment), TranscriptTableName(experiment);
      Provision(tables, experiment, status)
      == Provisioned((tables - {audio})[audio := Table(AudioLayout, [])],
                     [Ping, Drop(audio), Create(audio, CreateAudioQuery), Drop(transcript)],
                     Some(DropFailed(transcript, status(Drop(transcript)))))
  {
    var steps := Steps(experiment);
    AudioNeverTranscript(experiment, experiment);
    assert steps[0..][0] == steps[0] && steps[0..][1..] == steps[1..];
    RunStatementsAccepts(tables, steps[0..], status);
    assert steps[1..][0] == steps[1] && steps[1..][1..] == steps[2..];
    RunStatementsAccepts(tables, steps[1..], status);
    assert steps[2..][0] == steps[2] && steps[2..][1..] == steps[3..];
    RunStatementsAccepts(tables - {AudioTableName(experiment)}, steps[2..], status);
  }

  /** A refused create of the transcript table stops InitQuestDB with the audio table reset and the old transcript table dropped. */
  lemma ProvisionTranscriptCreateRefused(tables: map<string, Table>, experiment: string, status: Statement -> int)
    requires status(Ping) <= 299 && status(Drop(AudioTableName(experiment))) <= 299
    requires status(Create(AudioTableName(experiment), CreateAudioQuery)) <= 299
    requires status(Drop(TranscriptTableName(experiment))) <= 299
    requires status(Create(TranscriptTableName(experiment), CreateTranscriptQuery)) > 299
    ensures var audio, transcript := AudioTableName(experiment), TranscriptTableName(experiment);
      var create := Create(transcript, CreateTranscriptQuery);
      Provision(tables, experiment, status)
      == Provisioned((tables - {audio})[audio := Table(AudioLayout, [])] - {transcript},
                     Steps(experiment), Some(CreateFailed(transcript, status(create))))
  {
    var steps := Steps(experiment);
    AudioNeverTranscript(experiment, experiment);
    assert steps[0..][0] == steps[0] && steps[0..][1..] == steps[1..];
    RunStatementsAccepts(tables, steps[0..], status);
    assert steps[1..][0] == steps[1] && steps[1..][1..] == steps[2..];
    RunStatementsAccepts(tables, steps[1..], status);
    assert steps[2..][0] == steps[2] && steps[2..][1..] == steps[3..];
    RunStatementsAccepts(tables - {AudioTableName(experiment)}, steps[2..], status);
    assert steps[3..][0] == steps[3] && steps[3..][1..] == steps[4..];
    RunStatementsAccepts((tables - {AudioTableName(experiment)})[AudioTableName(experiment) := Table(AudioLayout, [])], steps[3..], status);
  }

  /** InitQuestDB never changes a table other than the experiment's two, whether or not it fails. */
  lemma ProvisionLeavesOtherTables(tables: map<string, Table>, experiment: string, status: Statement -> int, k: string)
    requires k != AudioTableName(experiment) && k != TranscriptTableName(experiment)
    ensures var p := Provision(tables, experiment, status);
      && (k in p.tables <==> k in tables)
      && (k in tables ==> p.tables[k] == tables[k])
  {
    var steps := Steps(experiment);
    assert forall i :: 0 <= i < |steps| ==> !Touches(steps[i], k);
    RunStatementsFrame(tables, steps, status, k);
  }

  /** Resetting twice is resetting once. */
  lemma ResetIdempotent(tables: map<string, Table>, experiment: string)
    ensures Reset(Reset(tables, experiment), experiment) == Reset(tables, experiment)
  {
    var once := Reset(tables, experiment);
    var twice := Reset(once, experiment);
    assert twice.Keys == once.Keys;
    assert forall k :: k in once ==> twice[k] == once[k];
  }

  /** Running InitQuestDB again after a success issues the same statements and leaves the store as one run left it. */
  lemma ProvisionIdempotent(tables: map<string, Table>, experiment: string, status: Statement -> int)
    requires Provision(tables, experiment, status).err.None?
    ensures var once := Provision(tables, experiment, status);
      var twice := Provision(once.tables, experiment, status);
      twice.err.None? && twice.issued == once.issued && twice.tables == once.tables
  {
    var once := Provision(tables, experiment, status);
    ProvisionSucceeds(tables, experiment, status);
    ProvisionSucceeds(once.tables, experiment, status);
    ResetIdempotent(tables, experiment);
  }
}
