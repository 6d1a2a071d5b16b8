/** What whole lists of statements and files do: when they fail, what a list of added columns amounts
    to, and that a run over pending files is one list of statements. */
module MigrationBatches {
  import opened Sequences
  import opened Migrations

  /** A list executed without a cut. */
  function Execute(t: Tables, sts: seq<Statement>): Batch {
    ExecAll(t, sts, |sts|)
  }

  lemma ExecuteCons(t: Tables, st: Statement, sts: seq<Statement>)
    ensures var b := Execute(t, [st] + sts);
            match Exec(t, st)
            case None => b.ending == Failed && b.tables == t
            case Some(t') => b == Execute(t', sts)
  {
    assert ([st] + sts)[1..] == sts;
  }

  lemma {:induction false} ExecuteAppend(t: Tables, a: seq<Statement>, b: seq<Statement>)
    ensures var first := Execute(t, a);
            var both := Execute(t, a + b);
            if first.ending == Done then both == Execute(first.tables, b)
            else both.ending == first.ending && both.tables == first.tables
    decreases |a|
  {
    if a == [] {
      assert a + b == b;
    } else {
      hide Exec, ExecAll;
      assert a == [a[0]] + a[1..] && a + b == [a[0]] + (a[1..] + b);
      ExecuteCons(t, a[0], a[1..]);
      ExecuteCons(t, a[0], a[1..] + b);
      if Exec(t, a[0]).Some? {
        ExecuteAppend(Exec(t, a[0]).value, a[1..], b);
      }
    }
  }

  // ---------- failure ----------

  /** The names that a schema offers, without their order. */
  type Names = map<string, set<string>>

  function NamesOf(cols: seq<Column>): set<string> {
    set c | c in cols :: c.name
  }

  function Abstract(t: Tables): Names {
    map table | table in t :: NamesOf(t[table])
  }

  function Learn(m: Names, st: Statement): Names {
    match st
    case CreateDatabase => m
    case CreateTable(table, columns) => if table in m then m else m[table := NamesOf(columns)]
    case AddColumn(table, column, _) => if table in m then m[table := m[table] + {column.name}] else m
  }

  /** The statement's table, or the column it is to follow, is not there. */
  predicate Misplaced(m: Names, st: Statement) {
    st.AddColumn? &&
    (st.table !in m ||
     (st.column.name !in m[st.table] && st.after.Some? && st.after.value !in m[st.table]))
  }

  /** Some statement comes before what it relies on. */
  predicate OutOfOrder(m: Names, sts: seq<Statement>)
    decreases |sts|
  {
    sts != [] && (Misplaced(m, sts[0]) || OutOfOrder(Learn(m, sts[0]), sts[1..]))
  }

  lemma HasIffNamed(cols: seq<Column>, name: string)
    ensures Has(cols, name) <==> name in NamesOf(cols)
  {
    var i := Find(cols, name);
    if i < |cols| {
      assert cols[i] in cols;
    }
  }

  lemma NamesOfInsert(cols: seq<Column>, i: nat, c: Column)
    requires i <= |cols|
    ensures NamesOf(cols[..i] + [c] + cols[i..]) == NamesOf(cols) + {c.name}
  {
    var wider := cols[..i] + [c] + cols[i..];
    assert cols == cols[..i] + cols[i..];
    forall x ensures x in wider <==> x in cols || x == c {
      assert x in wider <==> x in cols[..i] || x == c || x in cols[i..];
      assert x in cols <==> x in cols[..i] || x in cols[i..];
    }
  }

  lemma AbstractUpdate(t: Tables, table: string, cols: seq<Column>)
    ensures Abstract(t[table := cols]) == Abstract(t)[table := NamesOf(cols)]
  {
    var left, right := Abstract(t[table := cols]), Abstract(t)[table := NamesOf(cols)];
    assert left.Keys == right.Keys;
    assert forall u | u in left :: left[u] == right[u];
  }

  /** Names alone decide whether a statement is an error, and which names there are afterwards. */
  lemma ExecAbstracts(t: Tables, st: Statement)
    ensures Exec(t, st).None? <==> Misplaced(Abstract(t), st)
    ensures Exec(t, st).Some? ==> Abstract(Exec(t, st).value) == Learn(Abstract(t), st)
  {
    hide NamesOf;
    if st.CreateTable? {
      AbstractUpdate(t, st.table, st.columns);
    }
    if st.AddColumn? && st.table in t {
      var cols := t[st.table];
      HasIffNamed(cols, st.column.name);
      if st.after.Some? {
        HasIffNamed(cols, st.after.value);
      }
      if Has(cols, st.column.name) {
        assert NamesOf(cols) + {st.column.name} == NamesOf(cols);
        assert Abstract(t)[st.table := NamesOf(cols)] == Abstract(t);
      } else if Exec(t, st).Some? {
        var i := if st.after.None? then |cols| else Find(cols, st.after.value) + 1;
        AppendIsInsert(cols, st.column);
        NamesOfInsert(cols, i, st.column);
        AbstractUpdate(t, st.table, cols[..i] + [st.column] + cols[i..]);
      }
    }
  }

  /** A list of statements fails if and only if one of them, judged by names alone, comes before what
      it relies on; types, positions and the rest of the schema do not matter. */
  lemma {:induction false} FailsIffOutOfOrder(t: Tables, sts: seq<Statement>)
    ensures Execute(t, sts).ending == (if OutOfOrder(Abstract(t), sts) then Failed else Done)
    decreases |sts|
  {
    if sts != [] {
      hide Abstract, Exec, ExecAll, Misplaced, Learn;
      assert sts == [sts[0]] + sts[1..];
      ExecuteCons(t, sts[0], sts[1..]);
      ExecAbstracts(t, sts[0]);
      if Exec(t, sts[0]).Some? {
        FailsIffOutOfOrder(Exec(t, sts[0]).value, sts[1..]);
      }
    }
  }

  // ---------- pending files are one list ----------

  function Statements(files: seq<File>): seq<Statement> {
    if files == [] then [] else files[0].statements + Statements(files[1..])
  }

  function Versions(files: seq<File>): set<string> {
    set f | f in files :: f.version
  }

  /** A clean run over files that are all pending executes their statements one after another. */
  lemma {:induction false} PendingRun(db: Database, files: seq<File>)
    requires DistinctVersions(files) && forall i | 0 <= i < |files| :: files[i].version !in db.versions
    ensures var out, b := CleanRun(db, files), Execute(db.tables, Statements(files));
            && out.ending == b.ending && out.db.tables == b.tables
            && (b.ending == Done ==> out.db.versions == db.versions + Versions(files))
    decreases |files|
  {
    if files != [] {
      var sts, rest := files[0].statements, files[1..];
      ExecuteAppend(db.tables, sts, Statements(rest));
      EnoughBudgetBatch(db.tables, sts, |sts|);
      MoreBudgetBatch(db.tables, sts, |sts|, Total(files));
      var first := Execute(db.tables, sts);
      if first.ending == Done {
        var next := Database(first.tables, db.versions + {files[0].version});
        forall i | 0 <= i < |rest| ensures rest[i].version !in next.versions {
          assert rest[i] == files[i + 1];
        }
        assert DistinctVersions(rest) by {
          assert forall j | 0 <= j < |rest| :: rest[j] == files[j + 1];
        }
        PendingRun(next, rest);
        VersionsCons(files);
      }
    }
  }

  lemma VersionsCons(files: seq<File>)
    requires files != []
    ensures Versions(files) == {files[0].version} + Versions(files[1..])
  {
    assert files == [files[0]] + files[1..];
  }

  /** Pending files apply if and only if no statement comes before what it relies on. */
  lemma PendingRunSucceedsIff(db: Database, files: seq<File>)
    requires DistinctVersions(files) && forall i | 0 <= i < |files| :: files[i].version !in db.versions
    ensures CleanRun(db, files).ending == Done <==> !OutOfOrder(Abstract(db.tables), Statements(files))
  {
    PendingRun(db, files);
    FailsIffOutOfOrder(db.tables, Statements(files));
  }

  // ---------- lists of new columns ----------

  ghost predicate DistinctNames(cols: seq<Column>) {
    forall i, j | 0 <= i < j < |cols| :: cols[i].name != cols[j].name
  }

  function AddAll(table: string, cols: seq<Column>): seq<Statement> {
    seq(|cols|, i requires 0 <= i < |cols| => AddColumn(table, cols[i], None))
  }

  lemma NotAmong(cols: seq<Column>, name: string)
    requires forall i | 0 <= i < |cols| :: cols[i].name != name
    ensures !Has(cols, name)
  {
  }

  /** New columns with names of their own, added without a place, follow the table's in order. */
  lemma {:induction false} AddedColumnsFollow(t: Tables, table: string, cols: seq<Column>)
    requires table in t && DistinctNames(t[table] + cols)
    ensures Execute(t, AddAll(table, cols)) == Batch(t[table := t[table] + cols], Done, 0)
    decreases |cols|
  {
    if cols == [] {
      assert t[table] + cols == t[table];
    } else {
      var c, rest := cols[0], cols[1..];
      assert forall i | 0 <= i < |t[table]| :: (t[table] + cols)[i] == t[table][i];
      assert (t[table] + cols)[|t[table]|] == c;
      NotAmong(t[table], c.name);
      var next := t[table := t[table] + [c]];
      assert AddAll(table, cols) == [AddColumn(table, c, None)] + AddAll(table, rest);
      assert Exec(t, AddColumn(table, c, None)) == Some(next);
      ExecuteCons(t, AddColumn(table, c, None), AddAll(table, rest));
      assert t[table] + [c] + rest == t[table] + cols;
      AddedColumnsFollow(next, table, rest);
      assert next[table := next[table] + rest] == t[table := t[table] + cols];
    }
  }
}
