/** The migration runner as a restartable process: files of idempotent statements, executed in order
    and recorded one by one, in a run that may be cut off before any statement or record. */
module Migrations {
  import opened Sequences

  datatype Column = Column(name: string, kind: string)

  type Tables = map<string, seq<Column>>

  /** The statement forms of the migration files; all are IF NOT EXISTS. */
  datatype Statement =
    | CreateDatabase
    | CreateTable(table: string, columns: seq<Column>)
    | AddColumn(table: string, column: Column, after: Option<string>)

  datatype File = File(version: string, statements: seq<Statement>)

  /** The tables, and the versions recorded in schema_migrations. */
  datatype Database = Database(tables: Tables, versions: set<string>)

  /** Position of the column in cols, or |cols|. */
  function Find(cols: seq<Column>, name: string): (i: nat)
    ensures i <= |cols|
    ensures i < |cols| ==> cols[i].name == name
    ensures forall j | 0 <= j < i :: cols[j].name != name
  {
    if cols == [] || cols[0].name == name then 0 else 1 + Find(cols[1..], name)
  }

  predicate Has(cols: seq<Column>, name: string) {
    Find(cols, name) < |cols|
  }

  /** None is an error answer: no such table, or no column to put the new one after. */
  function Exec(t: Tables, st: Statement): Option<Tables> {
    match st
    case CreateDatabase => Some(t)
    case CreateTable(table, columns) => if table in t then Some(t) else Some(t[table := columns])
    case AddColumn(table, column, after) =>
      if table !in t then None
      else
        var cols := t[table];
        if Has(cols, column.name) then Some(t)
        else if after.None? then Some(t[table := cols + [column]])
        else if !Has(cols, after.value) then None
        else
          var i := Find(cols, after.value) + 1;
          Some(t[table := cols[..i] + [column] + cols[i..]])
  }

  // ---------- a run with a budget of database writes ----------

  datatype Ending = Done | Failed | Cut

  /** left is what remains of the budget. */
  datatype Batch = Batch(tables: Tables, ending: Ending, left: nat)

  function ExecAll(t: Tables, sts: seq<Statement>, budget: nat): (b: Batch)
    ensures b.left <= budget
    decreases |sts|
  {
    if sts == [] then Batch(t, Done, budget)
    else if budget == 0 then Batch(t, Cut, 0)
    else
      match Exec(t, sts[0])
      case None => Batch(t, Failed, budget)
      case Some(t') => ExecAll(t', sts[1..], budget - 1)
  }

  datatype Outcome = Outcome(db: Database, ending: Ending)

  function RunAll(db: Database, files: seq<File>, budget: nat): Outcome
    decreases |files|
  {
    if files == [] then Outcome(db, Done)
    else if files[0].version in db.versions then RunAll(db, files[1..], budget)
    else
      var b := ExecAll(db.tables, files[0].statements, budget);
      if b.ending != Done then Outcome(db.(tables := b.tables), b.ending)
      else if b.left == 0 then Outcome(db.(tables := b.tables), Cut)
      else RunAll(Database(b.tables, db.versions + {files[0].version}), files[1..], b.left - 1)
  }

  /** As many writes as a run can possibly make. */
  function Total(files: seq<File>): nat {
    if files == [] then 0 else |files[0].statements| + 1 + Total(files[1..])
  }

  /** One uninterrupted run. */
  function CleanRun(db: Database, files: seq<File>): Outcome {
    RunAll(db, files, Total(files))
  }

  // ---------- idempotence ----------

  /** The statement has had its effect. */
  predicate Settled(t: Tables, st: Statement) {
    match st
    case CreateDatabase => true
    case CreateTable(table, _) => table in t
    case AddColumn(table, column, _) => table in t && Has(t[table], column.name)
  }

  lemma HasByIndex(cols: seq<Column>, i: nat)
    requires i < |cols|
    ensures Has(cols, cols[i].name)
  {
  }

  lemma InsertKeeps(cols: seq<Column>, i: nat, c: Column, name: string)
    requires i <= |cols| && Has(cols, name)
    ensures Has(cols[..i] + [c] + cols[i..], name)
  {
    var j := Find(cols, name);
    var wider := cols[..i] + [c] + cols[i..];
    HasByIndex(wider, if j < i then j else j + 1);
  }

  lemma InsertAdds(cols: seq<Column>, i: nat, c: Column)
    requires i <= |cols|
    ensures Has(cols[..i] + [c] + cols[i..], c.name)
  {
    HasByIndex(cols[..i] + [c] + cols[i..], i);
  }

  lemma AppendIsInsert(cols: seq<Column>, c: Column)
    ensures cols + [c] == cols[..|cols|] + [c] + cols[|cols|..]
  {
  }

  lemma ExecSettles(t: Tables, st: Statement)
    requires Exec(t, st).Some?
    ensures Settled(Exec(t, st).value, st)
  {
    if st.AddColumn? && !Has(t[st.table], st.column.name) {
      var cols := t[st.table];
      AppendIsInsert(cols, st.column);
      InsertAdds(cols, if st.after.None? then |cols| else Find(cols, st.after.value) + 1, st.column);
    }
  }

  lemma ExecKeepsSettled(t: Tables, st: Statement, other: Statement)
    requires Exec(t, st).Some? && Settled(t, other)
    ensures Settled(Exec(t, st).value, other)
  {
    if st.AddColumn? && !Has(t[st.table], st.column.name) && other.AddColumn? && other.table == st.table {
      var cols := t[st.table];
      AppendIsInsert(cols, st.column);
      var i := if st.after.None? then |cols| else Find(cols, st.after.value) + 1;
      InsertKeeps(cols, i, st.column, other.column.name);
    }
  }

  /** A new column goes at the end, or right behind the one named; all others stay as they were, and
      so do the other tables. */
  lemma AddColumnPlaces(t: Tables, st: Statement)
    requires st.AddColumn? && Exec(t, st).Some? && !Has(t[st.table], st.column.name)
    ensures var t' := Exec(t, st).value;
            var cols, cols' := t[st.table], t'[st.table];
            && t'.Keys == t.Keys
            && (forall u | u in t && u != st.table :: t'[u] == t[u])
            && |cols'| == |cols| + 1
            && var i := Find(cols', st.column.name);
               && i < |cols'| && cols'[i] == st.column
               && cols'[..i] + cols'[i + 1..] == cols
               && (if st.after.None? then i == |cols| else i > 0 && cols'[i - 1].name == st.after.value)
  {
    var cols := t[st.table];
    var i := if st.after.None? then |cols| else Find(cols, st.after.value) + 1;
    var cols' := cols[..i] + [st.column] + cols[i..];
    AppendIsInsert(cols, st.column);
    assert Exec(t, st).value[st.table] == cols';
    FindIs(cols', st.column.name, i) by {
      NoneSuch(cols, st.column.name);
    }
  }

  lemma NoneSuch(cols: seq<Column>, name: string)
    requires !Has(cols, name)
    ensures forall j | 0 <= j < |cols| :: cols[j].name != name
  {
  }

  lemma FindIs(cols: seq<Column>, name: string, i: nat)
    requires i < |cols| && cols[i].name == name
    requires forall j | 0 <= j < i :: cols[j].name != name
    ensures Find(cols, name) == i
  {
  }

  lemma SettledIsNoOp(t: Tables, st: Statement)
    requires Settled(t, st)
    ensures Exec(t, st) == Some(t)
  {
  }

  lemma {:induction false} ExecAllKeepsSettled(t: Tables, sts: seq<Statement>, budget: nat, other: Statement)
    requires Settled(t, other)
    ensures Settled(ExecAll(t, sts, budget).tables, other)
    decreases |sts|
  {
    if sts != [] && budget > 0 && Exec(t, sts[0]).Some? {
      ExecKeepsSettled(t, sts[0], other);
      ExecAllKeepsSettled(Exec(t, sts[0]).value, sts[1..], budget - 1, other);
    }
  }

  lemma {:induction false} ExecAllSettles(t: Tables, sts: seq<Statement>, budget: nat, i: nat)
    requires i < |sts| && ExecAll(t, sts, budget).ending == Done
    ensures Settled(ExecAll(t, sts, budget).tables, sts[i])
    decreases |sts|
  {
    var t' := Exec(t, sts[0]).value;
    if i == 0 {
      ExecSettles(t, sts[0]);
      ExecAllKeepsSettled(t', sts[1..], budget - 1, sts[0]);
    } else {
      ExecAllSettles(t', sts[1..], budget - 1, i - 1);
    }
  }

  // ---------- budgets ----------

  lemma {:induction false} MoreBudgetBatch(t: Tables, sts: seq<Statement>, a: nat, b: nat)
    requires a <= b && ExecAll(t, sts, a).ending != Cut
    ensures ExecAll(t, sts, b) == ExecAll(t, sts, a).(left := ExecAll(t, sts, a).left + (b - a))
    decreases |sts|
  {
    if sts != [] && Exec(t, sts[0]).Some? {
      MoreBudgetBatch(Exec(t, sts[0]).value, sts[1..], a - 1, b - 1);
    }
  }

  lemma {:induction false} EnoughBudgetBatch(t: Tables, sts: seq<Statement>, budget: nat)
    requires budget >= |sts|
    ensures ExecAll(t, sts, budget).ending != Cut
    ensures ExecAll(t, sts, budget).ending == Done ==> ExecAll(t, sts, budget).left == budget - |sts|
    decreases |sts|
  {
    if sts != [] && Exec(t, sts[0]).Some? {
      EnoughBudgetBatch(Exec(t, sts[0]).value, sts[1..], budget - 1);
    }
  }

  lemma {:induction false} DoneCosts(t: Tables, sts: seq<Statement>, budget: nat)
    requires ExecAll(t, sts, budget).ending == Done
    ensures budget >= |sts| && ExecAll(t, sts, budget).left == budget - |sts|
    decreases |sts|
  {
    if sts != [] {
      DoneCosts(Exec(t, sts[0]).value, sts[1..], budget - 1);
    }
  }

  /** A run that was not cut ends the same with any larger budget. */
  lemma {:induction false} MoreBudget(db: Database, files: seq<File>, a: nat, b: nat)
    requires a <= b && RunAll(db, files, a).ending != Cut
    ensures RunAll(db, files, b) == RunAll(db, files, a)
    decreases |files|
  {
    if files != [] {
      if files[0].version in db.versions {
        MoreBudget(db, files[1..], a, b);
      } else {
        var r := ExecAll(db.tables, files[0].statements, a);
        MoreBudgetBatch(db.tables, files[0].statements, a, b);
        if r.ending == Done {
          var next := Database(r.tables, db.versions + {files[0].version});
          MoreBudget(next, files[1..], r.left - 1, r.left - 1 + (b - a));
        }
      }
    }
  }

  lemma {:induction false} EnoughBudget(db: Database, files: seq<File>, budget: nat)
    requires budget >= Total(files)
    ensures RunAll(db, files, budget).ending != Cut
    decreases |files|
  {
    if files != [] {
      if files[0].version in db.versions {
        EnoughBudget(db, files[1..], budget);
      } else {
        EnoughBudgetBatch(db.tables, files[0].statements, budget);
        var r := ExecAll(db.tables, files[0].statements, budget);
        if r.ending == Done {
          EnoughBudget(Database(r.tables, db.versions + {files[0].version}), files[1..], r.left - 1);
        }
      }
    }
  }

  // ---------- resuming after a cut ----------

  /** Executing a file again after a part of it amounts to executing it once, further. */
  lemma {:induction false} ResumeFile(t: Tables, sts: seq<Statement>, k: nat, m: nat) returns (k': nat)
    ensures var second, once := ExecAll(ExecAll(t, sts, k).tables, sts, m), ExecAll(t, sts, k');
            && once.tables == second.tables
            && (second.ending != Cut ==> once.ending == second.ending)
    decreases |sts|
  {
    if sts == [] || k == 0 {
      k' := m;
    } else if Exec(t, sts[0]).None? || m == 0 {
      k' := k;
    } else {
      var t' := Exec(t, sts[0]).value;
      ExecSettles(t, sts[0]);
      ExecAllKeepsSettled(t', sts[1..], k - 1, sts[0]);
      SettledIsNoOp(ExecAll(t, sts, k).tables, sts[0]);
      k' := ResumeFile(t', sts[1..], k - 1, m - 1);
      k' := k' + 1;
    }
  }

  lemma {:induction false} VersionsGrow(db: Database, files: seq<File>, budget: nat)
    ensures db.versions <= RunAll(db, files, budget).db.versions
    decreases |files|
  {
    if files != [] {
      if files[0].version in db.versions {
        VersionsGrow(db, files[1..], budget);
      } else {
        var r := ExecAll(db.tables, files[0].statements, budget);
        if r.ending == Done && r.left > 0 {
          VersionsGrow(Database(r.tables, db.versions + {files[0].version}), files[1..], r.left - 1);
        }
      }
    }
  }

  /** The first file of a run is executed to its end within the budget, or the run stops in it. */
  predicate PassesFirst(db: Database, files: seq<File>, budget: nat)
    requires files != []
  {
    var r := ExecAll(db.tables, files[0].statements, budget);
    r.ending == Done && r.left > 0
  }

  lemma ResumeInFirst(db: Database, files: seq<File>, k: nat, m: nat) returns (k': nat)
    requires files != [] && files[0].version !in db.versions && !PassesFirst(db, files, k)
    ensures var second := RunAll(RunAll(db, files, k).db, files, m);
            && RunAll(db, files, k').db == second.db
            && (second.ending != Cut ==> RunAll(db, files, k').ending == second.ending)
  {
    var sts := files[0].statements;
    var first := ExecAll(db.tables, sts, k);
    var second := ExecAll(first.tables, sts, m);
    k' := ResumeFile(db.tables, sts, k, m);
    var once := ExecAll(db.tables, sts, k');
    if once.ending == Done {
      DoneCosts(db.tables, sts, k');
      if second.ending == Done && second.left > 0 {
        k' := |sts| + second.left;
      } else {
        k' := |sts|;
      }
      EnoughBudgetBatch(db.tables, sts, k');
      MoreBudgetBatch(db.tables, sts, |sts|, k') by { EnoughBudgetBatch(db.tables, sts, |sts|); }
      MoreBudgetBatch(db.tables, sts, |sts|, |sts| + once.left) by { EnoughBudgetBatch(db.tables, sts, |sts|); }
    }
  }

  /** Two runs, each cut anywhere, leave the database as one run cut somewhere does; if the second
      is not cut, neither is the one. */
  lemma {:induction false} Resume(db: Database, files: seq<File>, k: nat, m: nat) returns (k': nat)
    ensures var second := RunAll(RunAll(db, files, k).db, files, m);
            && RunAll(db, files, k').db == second.db
            && (second.ending != Cut ==> RunAll(db, files, k').ending == second.ending)
    decreases |files|
  {
    if files == [] {
      k' := 0;
    } else if files[0].version in db.versions {
      VersionsGrow(db, files[1..], k);
      k' := Resume(db, files[1..], k, m);
    } else if !PassesFirst(db, files, k) {
      k' := ResumeInFirst(db, files, k, m);
    } else {
      var sts := files[0].statements;
      var r := ExecAll(db.tables, sts, k);
      var next := Database(r.tables, db.versions + {files[0].version});
      VersionsGrow(next, files[1..], r.left - 1);
      var rest := Resume(next, files[1..], r.left - 1, m);
      DoneCosts(db.tables, sts, k);
      k' := |sts| + 1 + rest;
      EnoughBudgetBatch(db.tables, sts, k');
      EnoughBudgetBatch(db.tables, sts, |sts|);
      MoreBudgetBatch(db.tables, sts, |sts|, k');
      MoreBudgetBatch(db.tables, sts, |sts|, k);
    }
  }

  // ---------- convergence ----------

  /** Run after run, the i-th with a budget of cuts[i] writes. */
  function AfterRuns(db: Database, files: seq<File>, cuts: seq<nat>): Database {
    if cuts == [] then db else RunAll(AfterRuns(db, files, cuts[..|cuts| - 1]), files, cuts[|cuts| - 1]).db
  }

  /** Every state that interrupted runs can reach is the state of a single interrupted run. */
  lemma {:induction false} ReachableIsOneRun(db: Database, files: seq<File>, cuts: seq<nat>) returns (k: nat)
    ensures AfterRuns(db, files, cuts) == RunAll(db, files, k).db
  {
    if cuts == [] {
      k := 0;
      ZeroBudget(db, files);
    } else {
      k := ReachableIsOneRun(db, files, cuts[..|cuts| - 1]);
      k := Resume(db, files, k, cuts[|cuts| - 1]);
    }
  }

  lemma {:induction false} ZeroBudget(db: Database, files: seq<File>)
    ensures RunAll(db, files, 0).db == db
    decreases |files|
  {
    if files != [] && files[0].version in db.versions {
      ZeroBudget(db, files[1..]);
    }
  }

  /** Any number of runs cut off anywhere, followed by one uninterrupted run, end exactly as a single
      clean run does: the same tables with the same columns in the same order, the same recorded
      versions, and the same success or failure. */
  lemma Convergence(db: Database, files: seq<File>, cuts: seq<nat>)
    ensures CleanRun(AfterRuns(db, files, cuts), files) == CleanRun(db, files)
  {
    var k := ReachableIsOneRun(db, files, cuts);
    var total := Total(files);
    var k' := Resume(db, files, k, total);
    EnoughBudget(RunAll(db, files, k).db, files, total);
    EnoughBudget(db, files, total);
    if k' <= total {
      MoreBudget(db, files, k', total);
    } else {
      MoreBudget(db, files, total, k');
    }
  }

  // ---------- what holds throughout ----------

  ghost predicate DistinctVersions(files: seq<File>) {
    forall i, j | 0 <= i < j < |files| :: files[i].version != files[j].version
  }

  /** A recorded version has had all its effects. */
  ghost predicate RecordedIsSettled(db: Database, files: seq<File>) {
    forall i, j | 0 <= i < |files| && files[i].version in db.versions && 0 <= j < |files[i].statements| ::
      Settled(db.tables, files[i].statements[j])
  }

  lemma {:induction false} RunKeepsSettled(db: Database, files: seq<File>, budget: nat, st: Statement)
    requires Settled(db.tables, st)
    ensures Settled(RunAll(db, files, budget).db.tables, st)
    decreases |files|
  {
    if files != [] {
      if files[0].version in db.versions {
        RunKeepsSettled(db, files[1..], budget, st);
      } else {
        ExecAllKeepsSettled(db.tables, files[0].statements, budget, st);
        var r := ExecAll(db.tables, files[0].statements, budget);
        if r.ending == Done && r.left > 0 {
          RunKeepsSettled(Database(r.tables, db.versions + {files[0].version}), files[1..], r.left - 1, st);
        }
      }
    }
  }

  /** At every point of every run, a recorded version implies that its tables and columns exist. */
  lemma {:induction false} RecordedImpliesApplied(db: Database, files: seq<File>, budget: nat, i: nat, j: nat)
    requires DistinctVersions(files) && RecordedIsSettled(db, files)
    requires i < |files| && j < |files[i].statements|
    requires files[i].version in RunAll(db, files, budget).db.versions
    ensures Settled(RunAll(db, files, budget).db.tables, files[i].statements[j])
    decreases |files|
  {
    var st := files[i].statements[j];
    if files[i].version in db.versions {
      RunKeepsSettled(db, files, budget, st);
    } else if files[0].version in db.versions {
      assert files[1..][i - 1] == files[i];
      RecordedImpliesApplied(db, files[1..], budget, i - 1, j);
    } else {
      var r := ExecAll(db.tables, files[0].statements, budget);
      assert r.ending == Done && r.left > 0;
      var next := Database(r.tables, db.versions + {files[0].version});
      if i == 0 {
        ExecAllSettles(db.tables, files[0].statements, budget, j);
        RunKeepsSettled(next, files[1..], r.left - 1, st);
      } else {
        forall p, q | 0 <= p < |files[1..]| && files[1..][p].version in next.versions
                      && 0 <= q < |files[1..][p].statements|
          ensures Settled(next.tables, files[1..][p].statements[q])
        {
          assert files[1..][p] == files[p + 1] && files[p + 1].version != files[0].version;
          ExecAllKeepsSettled(db.tables, files[0].statements, budget, files[p + 1].statements[q]);
        }
        assert files[1..][i - 1] == files[i];
        RecordedImpliesApplied(next, files[1..], r.left - 1, i - 1, j);
      }
    }
  }

  /** A run gets to its end if and only if every file is recorded then. */
  lemma {:induction false} DoneIffAllRecorded(db: Database, files: seq<File>, budget: nat)
    ensures RunAll(db, files, budget).ending == Done <==>
            forall i | 0 <= i < |files| :: files[i].version in RunAll(db, files, budget).db.versions
    decreases |files|
  {
    if files != [] {
      var out := RunAll(db, files, budget);
      var r := ExecAll(db.tables, files[0].statements, budget);
      if files[0].version in db.versions {
        VersionsGrow(db, files[1..], budget);
        DoneIffAllRecorded(db, files[1..], budget);
        AllSplit(files, out.db.versions);
      } else if r.ending == Done && r.left > 0 {
        var next := Database(r.tables, db.versions + {files[0].version});
        VersionsGrow(next, files[1..], r.left - 1);
        DoneIffAllRecorded(next, files[1..], r.left - 1);
        AllSplit(files, out.db.versions);
      } else {
        assert files[0].version !in out.db.versions;
      }
    }
  }

  lemma AllSplit(files: seq<File>, versions: set<string>)
    requires files != []
    ensures (forall i | 0 <= i < |files| :: files[i].version in versions) <==>
            (files[0].version in versions && forall i | 0 <= i < |files[1..]| :: files[1..][i].version in versions)
  {
    if files[0].version in versions && forall i | 0 <= i < |files[1..]| :: files[1..][i].version in versions {
      forall i | 0 <= i < |files| ensures files[i].version in versions {
        if i > 0 {
          assert files[1..][i - 1] == files[i];
        }
      }
    }
  }
}
