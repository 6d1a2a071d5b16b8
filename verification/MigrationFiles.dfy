/** The seven migrations, and the schema that a clean installation ends with. */
module MigrationFiles {
  import opened Sequences
  import opened Migrations
  import opened MigrationBatches
  import opened MigrationExecutions

  const TEXT := "String"
  const CODED := "LowCardinality(String)"
  const TEXTS := "Array(String)"
  const TIME := "DateTime64(3)"

  const EVENTS := "audit_events"
  const UNPROCESSED := "unprocessed_events"

  const CREATED_COLUMNS := [
    Column("session_id", TEXT), Column("turn_id", TEXT), Column("ts", TIME), Column("agent", CODED),
    Column("project", TEXT), Column("branch", CODED), Column("direction", CODED), Column("thinking", TEXTS),
    Column("assistant_text", TEXTS), Column("tool_name", TEXT), Column("tool_input", TEXT),
    Column("model", CODED), Column("raw", TEXT)]

  const UNPROCESSED_COLUMNS := [
    Column("session_id", TEXT), Column("turn_id", TEXT), Column("ts", TIME), Column("agent", CODED),
    Column("project", TEXT), Column("branch", CODED), Column("user", CODED), Column("team", CODED),
    Column("direction", CODED), Column("method", CODED), Column("path", TEXT),
    Column("status_code", "UInt16"), Column("content_type", CODED), Column("raw", TEXT), Column("error", TEXT)]

  function Add(name: string, kind: string): Statement {
    AddColumn(EVENTS, Column(name, kind), None)
  }

  const INITIAL := File("001_initial", [CreateDatabase, CreateTable(EVENTS, CREATED_COLUMNS)])
  const BRANCH := File("002_add_branch", [AddColumn(EVENTS, Column("branch", CODED), Some("project"))])
  const CAPTURE := File("003_request_capture", [Add("request_captured", "UInt8"), Add("user_messages", TEXTS)])
  const SAP := File("004_sapaicore", [Add("resource_group", CODED)])
  const USERS := File("005_add_user_team", [Add("user", CODED), Add("team", CODED)])
  const SEPARATE := File("006_unprocessed_events", [CreateTable(UNPROCESSED, UNPROCESSED_COLUMNS)])
  const TOKENS := File("007_add_token_usage",
    [Add("input_tokens", "UInt32"), Add("output_tokens", "UInt32"),
     Add("cache_read_tokens", "UInt32"), Add("cache_write_tokens", "UInt32")])

  const FILES := [INITIAL, BRANCH, CAPTURE, SAP, USERS, SEPARATE, TOKENS]

  const NEW_DATABASE := Database(map[], {})

  const ADDED_COLUMNS := [
    Column("request_captured", "UInt8"), Column("user_messages", TEXTS), Column("resource_group", CODED),
    Column("user", CODED), Column("team", CODED), Column("input_tokens", "UInt32"),
    Column("output_tokens", "UInt32"), Column("cache_read_tokens", "UInt32"), Column("cache_write_tokens", "UInt32")]

  const FINAL_COLUMNS := CREATED_COLUMNS + ADDED_COLUMNS

  const FINAL: Tables := map[EVENTS := FINAL_COLUMNS, UNPROCESSED := UNPROCESSED_COLUMNS]

  // ---------- a new installation ----------

  lemma CreatedDiffer()
    ensures DistinctNames(CREATED_COLUMNS)
  {
  }

  lemma AddedDiffer()
    ensures DistinctNames(ADDED_COLUMNS)
  {
  }

  ghost predicate NewAmong(name: string, cols: seq<Column>) {
    forall i | 0 <= i < |cols| :: cols[i].name != name
  }

  lemma AddedAreNew(j: nat)
    requires j < |ADDED_COLUMNS|
    ensures NewAmong(ADDED_COLUMNS[j].name, CREATED_COLUMNS)
  {
  }

  lemma NamesDiffer()
    ensures DistinctNames(FINAL_COLUMNS)
  {
    hide CREATED_COLUMNS, ADDED_COLUMNS;
    CreatedDiffer();
    AddedDiffer();
    forall i, j | 0 <= i < j < |FINAL_COLUMNS| ensures FINAL_COLUMNS[i].name != FINAL_COLUMNS[j].name {
      if i < |CREATED_COLUMNS| <= j {
        AddedAreNew(j - |CREATED_COLUMNS|);
      }
    }
  }

  lemma FilesDiffer()
    ensures DistinctVersions(FILES)
  {
  }

  /** Before the columns are added: the table is there, and 002 finds the branch column in it. */
  lemma CreatesEvents()
    ensures Execute(map[], INITIAL.statements + BRANCH.statements) == Batch(map[EVENTS := CREATED_COLUMNS], Done, 0)
  {
    var branch := BRANCH.statements[0];
    var created := map[EVENTS := CREATED_COLUMNS];
    HasByIndex(CREATED_COLUMNS, 5);
    assert Exec(created, branch) == Some(created);
    ExecuteCons(created, branch, []);
    ExecuteCons(map[], CreateTable(EVENTS, CREATED_COLUMNS), [branch]);
    ExecuteCons(map[], CreateDatabase, [CreateTable(EVENTS, CREATED_COLUMNS), branch]);
    assert [branch] + [] == [branch];
    assert [CreateTable(EVENTS, CREATED_COLUMNS)] + [branch] == [CreateTable(EVENTS, CREATED_COLUMNS), branch];
    assert INITIAL.statements + BRANCH.statements
        == [CreateDatabase] + [CreateTable(EVENTS, CREATED_COLUMNS), branch];
  }

  lemma {:induction false} StatementsAppend(a: seq<File>, b: seq<File>)
    ensures Statements(a + b) == Statements(a) + Statements(b)
    decreases |a|
  {
    if a == [] {
      assert a + b == b;
    } else {
      assert (a + b)[1..] == a[1..] + b;
      StatementsAppend(a[1..], b);
    }
  }

  lemma StatementsOfTwo(a: File, b: File)
    ensures Statements([a]) == a.statements && Statements([a, b]) == a.statements + b.statements
  {
    assert [a, b][1..] == [b] && [a][1..] == [] && [b][1..] == [];
    assert Statements([]) == [];
    assert Statements([a]) == a.statements && Statements([b]) == b.statements;
  }

  lemma AllStatements()
    ensures Statements(FILES)
         == INITIAL.statements + BRANCH.statements + AddAll(EVENTS, ADDED_COLUMNS[..5]) + SEPARATE.statements
            + AddAll(EVENTS, ADDED_COLUMNS[5..])
  {
    assert AddAll(EVENTS, ADDED_COLUMNS[..5]) == CAPTURE.statements + SAP.statements + USERS.statements;
    assert AddAll(EVENTS, ADDED_COLUMNS[5..]) == TOKENS.statements;
    hide AddAll, Statements;
    StatementsOfTwo(INITIAL, BRANCH);
    StatementsOfTwo(CAPTURE, SAP);
    StatementsOfTwo(USERS, SEPARATE);
    StatementsOfTwo(TOKENS, TOKENS);
    StatementsAppend([INITIAL, BRANCH], [CAPTURE, SAP]);
    StatementsAppend([INITIAL, BRANCH, CAPTURE, SAP], [USERS, SEPARATE]);
    StatementsAppend([INITIAL, BRANCH, CAPTURE, SAP, USERS, SEPARATE], [TOKENS]);
    assert FILES == [INITIAL, BRANCH, CAPTURE, SAP, USERS, SEPARATE] + [TOKENS];
    assert [INITIAL, BRANCH, CAPTURE, SAP, USERS, SEPARATE] == [INITIAL, BRANCH, CAPTURE, SAP] + [USERS, SEPARATE];
    assert [INITIAL, BRANCH, CAPTURE, SAP] == [INITIAL, BRANCH] + [CAPTURE, SAP];
  }

  lemma SomeDistinct(cols: seq<Column>, i: nat, j: nat)
    requires DistinctNames(cols) && i <= j <= |cols|
    ensures DistinctNames(cols[i..j])
  {
  }

  lemma CreatesUnprocessed(cols: seq<Column>)
    ensures Execute(map[EVENTS := cols], SEPARATE.statements)
         == Batch(map[EVENTS := cols, UNPROCESSED := UNPROCESSED_COLUMNS], Done, 0)
  {
    assert UNPROCESSED !in map[EVENTS := cols];
    ExecuteCons(map[EVENTS := cols], SEPARATE.statements[0], []);
    assert [SEPARATE.statements[0]] + [] == SEPARATE.statements;
  }

  /** From there on, columns are added in two groups, with the second table in between. */
  lemma EventsGrow(t: Tables)
    requires t == map[EVENTS := CREATED_COLUMNS]
    ensures Execute(t, AddAll(EVENTS, ADDED_COLUMNS[..5]) + SEPARATE.statements + AddAll(EVENTS, ADDED_COLUMNS[5..]))
         == Batch(FINAL, Done, 0)
  {
    hide Execute, AddAll, Exec, DistinctNames;
    NamesDiffer();
    var first, last := ADDED_COLUMNS[..5], ADDED_COLUMNS[5..];
    var half := CREATED_COLUMNS + first;
    assert half + last == FINAL_COLUMNS && half == FINAL_COLUMNS[0..18] && FINAL_COLUMNS == FINAL_COLUMNS[0..22];
    SomeDistinct(FINAL_COLUMNS, 0, 18);
    AddedColumnsFollow(t, EVENTS, first);
    var both := map[EVENTS := half, UNPROCESSED := UNPROCESSED_COLUMNS];
    CreatesUnprocessed(half);
    AddedColumnsFollow(both, EVENTS, last);
    ExecuteAppend(t, AddAll(EVENTS, first), SEPARATE.statements);
    ExecuteAppend(t, AddAll(EVENTS, first) + SEPARATE.statements, AddAll(EVENTS, last));
    assert t[EVENTS := t[EVENTS] + first] == map[EVENTS := half];
    assert both[EVENTS] == half;
    assert both[EVENTS := FINAL_COLUMNS] == FINAL;
  }

  /** All seven files apply and are recorded, and the tables end up with these columns in this order. */
  lemma CleanInstall()
    ensures CleanRun(NEW_DATABASE, FILES) == Outcome(Database(FINAL, Versions(FILES)), Done)
  {
    hide Execute, Exec, Versions, Statements, AddAll, DistinctNames, DistinctVersions;
    FilesDiffer();
    AllStatements();
    CreatesEvents();
    var start := INITIAL.statements + BRANCH.statements;
    var rest := AddAll(EVENTS, ADDED_COLUMNS[..5]) + SEPARATE.statements + AddAll(EVENTS, ADDED_COLUMNS[5..]);
    EventsGrow(map[EVENTS := CREATED_COLUMNS]);
    ExecuteAppend(map[], start, rest);
    assert Statements(FILES) == start + rest;
    PendingRun(NEW_DATABASE, FILES);
    assert {} + Versions(FILES) == Versions(FILES);
  }

  /** However often the installation is interrupted, one run to the end completes it. */
  lemma InstallConverges(cuts: seq<nat>)
    ensures CleanRun(AfterRuns(NEW_DATABASE, FILES, cuts), FILES)
         == Outcome(Database(FINAL, Versions(FILES)), Done)
  {
    Convergence(NEW_DATABASE, FILES, cuts);
    CleanInstall();
  }

  /** The writes of a new installation before each file. */
  const STARTS: seq<nat> := [0, 3, 5, 8, 10, 13, 15]

  lemma {:induction false} BeforePending(db: Database, files: seq<File>, i: nat)
    requires i <= |files| && forall j | 0 <= j < i :: files[j].version !in db.versions
    ensures Before(db, files, i) == Total(files[..i])
    decreases i
  {
    if i > 0 {
      assert files[..i][1..] == files[1..][..i - 1];
      BeforePending(db, files[1..], i - 1);
    }
  }

  lemma {:induction false} TotalAppend(files: seq<File>, i: nat)
    requires i < |files|
    ensures Total(files[..i + 1]) == Total(files[..i]) + |files[i].statements| + 1
    decreases i
  {
    assert files[..i + 1][1..] == files[1..][..i];
    if i > 0 {
      assert files[..i][1..] == files[1..][..i - 1];
      TotalAppend(files[1..], i - 1);
    }
  }

  lemma {:induction false} Starts(i: nat)
    requires i < |FILES|
    ensures Total(FILES[..i]) == STARTS[i]
  {
    if i > 0 {
      Starts(i - 1);
      TotalAppend(FILES, i - 1);
    }
  }

  /** Two runs of an installation both execute a file if and only if the first is cut after one of
      these writes: 1 or 2 for 001, 16 to 19 for 007. */
  lemma InstallExecutesTwiceIff(k: nat, m: nat, i: nat)
    requires i < |FILES|
    ensures Executed(NEW_DATABASE, FILES, k, i) > 0
            && Executed(RunAll(NEW_DATABASE, FILES, k).db, FILES, m, i) > 0
            <==> STARTS[i] < k <= STARTS[i] + |FILES[i].statements| && m > 0
  {
    hide RunAll, Executed;
    CleanInstall();
    FilesDiffer();
    ExecutedTwiceIffCut(NEW_DATABASE, FILES, k, m, i);
    BeforePending(NEW_DATABASE, FILES, i);
    Starts(i);
  }

  /** On an older database, whose table was made without it, 002 puts the branch right behind the
      project and moves no other column. */
  lemma BranchFollowsProject(before: seq<Column>, after: seq<Column>)
    requires forall i | 0 <= i < |before| :: before[i].name != "project" && before[i].name != "branch"
    requires forall i | 0 <= i < |after| :: after[i].name != "branch"
    ensures var project, branch := Column("project", "String"), Column("branch", "LowCardinality(String)");
            var wider := map["audit_events" := before + [project, branch] + after];
            Execute(map["audit_events" := before + [project] + after], BRANCH.statements) == Batch(wider, Done, 0)
  {
    var project, branch := Column("project", "String"), Column("branch", "LowCardinality(String)");
    var cols := before + [project] + after;
    var t := map["audit_events" := cols];
    assert !Has(cols, "branch") by {
      assert forall i | 0 <= i < |cols| :: cols[i].name != "branch";
    }
    FindIs(cols, "project", |before|);
    assert cols[..|before| + 1] == before + [project] && cols[|before| + 1..] == after;
    assert before + [project] + [branch] + after == before + [project, branch] + after;
    var st := AddColumn("audit_events", branch, Some("project"));
    assert BRANCH.statements == [st] + [];
    assert Exec(t, st) == Some(t["audit_events" := before + [project, branch] + after]);
    ExecuteCons(t, st, []);
  }

  // ---------- the schema and the writer agree ----------

  const EVENT_INSERT := [
    "session_id", "turn_id", "ts", "agent", "project", "branch", "direction", "thinking", "assistant_text",
    "tool_name", "tool_input", "model", "raw", "request_captured", "user_messages", "resource_group", "user",
    "team", "input_tokens", "output_tokens", "cache_read_tokens", "cache_write_tokens"]

  const UNPROCESSED_INSERT := [
    "session_id", "turn_id", "ts", "agent", "project", "branch", "user", "team", "direction", "method", "path",
    "status_code", "content_type", "raw", "error"]

  /** The writer's insert statements name exactly the columns of the migrated tables, in order. */
  lemma WriterMatchesSchema()
    ensures var t := CleanRun(NEW_DATABASE, FILES).db.tables;
            && EVENTS in t && |t[EVENTS]| == |EVENT_INSERT|
            && (forall i | 0 <= i < |EVENT_INSERT| :: t[EVENTS][i].name == EVENT_INSERT[i])
            && UNPROCESSED in t && |t[UNPROCESSED]| == |UNPROCESSED_INSERT|
            && (forall i | 0 <= i < |UNPROCESSED_INSERT| :: t[UNPROCESSED][i].name == UNPROCESSED_INSERT[i])
  {
    CleanInstall();
    assert EVENTS != UNPROCESSED;
  }
}
