/** How often a migration file is executed. A run records a file after executing it, so that an
    interrupted file is executed by more than one run; this says exactly when. */
module MigrationExecutions {
  import opened Sequences
  import opened Migrations

  /** The database and the remaining budget with which a run comes to a file. */
  datatype Arrival = Arrival(db: Database, budget: nat)

  /** None when the run stops in an earlier file. */
  function ArriveAt(db: Database, files: seq<File>, budget: nat, i: nat): (a: Option<Arrival>)
    requires i <= |files|
    ensures a.Some? ==> a.value.budget <= budget
    decreases i
  {
    if i == 0 then Some(Arrival(db, budget))
    else if files[0].version in db.versions then ArriveAt(db, files[1..], budget, i - 1)
    else
      var r := ExecAll(db.tables, files[0].statements, budget);
      if r.ending != Done || r.left == 0 then None
      else ArriveAt(Database(r.tables, db.versions + {files[0].version}), files[1..], r.left - 1, i - 1)
  }

  /** How many statements are executed before the budget or an error ends it. */
  function Steps(t: Tables, sts: seq<Statement>, budget: nat): nat
    decreases |sts|
  {
    if sts == [] || budget == 0 || Exec(t, sts[0]).None? then 0
    else 1 + Steps(Exec(t, sts[0]).value, sts[1..], budget - 1)
  }

  /** How many statements of the i-th file a run executes. */
  function Executed(db: Database, files: seq<File>, budget: nat, i: nat): nat
    requires i < |files|
  {
    match ArriveAt(db, files, budget, i)
    case None => 0
    case Some(a) =>
      if files[i].version in a.db.versions then 0 else Steps(a.db.tables, files[i].statements, a.budget)
  }

  /** The writes that a run from db makes before it comes to the i-th file. */
  function Before(db: Database, files: seq<File>, i: nat): nat
    requires i <= |files|
    decreases i
  {
    if i == 0 then 0
    else (if files[0].version in db.versions then 0 else |files[0].statements| + 1) + Before(db, files[1..], i - 1)
  }

  // ---------- arriving at a file ----------

  lemma {:induction false} ArrivalGoesOn(db: Database, files: seq<File>, budget: nat, i: nat)
    requires i <= |files| && ArriveAt(db, files, budget, i).Some?
    ensures var a := ArriveAt(db, files, budget, i).value;
            && RunAll(db, files, budget) == RunAll(a.db, files[i..], a.budget)
            && db.versions <= a.db.versions
            && (forall j | 0 <= j < i :: files[j].version in a.db.versions)
            && (forall v | v in a.db.versions :: v in db.versions || exists j | 0 <= j < i :: files[j].version == v)
    decreases i
  {
    hide ExecAll;
    if i == 0 {
      assert files[0..] == files;
    } else {
      assert files[1..][i - 1..] == files[i..];
      var a := ArriveAt(db, files, budget, i).value;
      if files[0].version in db.versions {
        ArrivalGoesOn(db, files[1..], budget, i - 1);
      } else {
        var r := ExecAll(db.tables, files[0].statements, budget);
        ArrivalGoesOn(Database(r.tables, db.versions + {files[0].version}), files[1..], r.left - 1, i - 1);
      }
      forall j | 0 <= j < i ensures files[j].version in a.db.versions {
        if j > 0 {
          assert files[j] == files[1..][j - 1];
        }
      }
      forall v | v in a.db.versions && v !in db.versions ensures exists j | 0 <= j < i :: files[j].version == v {
        if v != files[0].version {
          var j :| 0 <= j < i - 1 && files[1..][j].version == v;
          assert files[j + 1].version == v;
        }
      }
    }
  }

  /** From a file to the next. */
  function Next(a: Arrival, file: File): Option<Arrival> {
    if file.version in a.db.versions then Some(a)
    else
      var r := ExecAll(a.db.tables, file.statements, a.budget);
      if r.ending != Done || r.left == 0 then None
      else Some(Arrival(Database(r.tables, a.db.versions + {file.version}), r.left - 1))
  }

  lemma {:induction false} ArriveNext(db: Database, files: seq<File>, budget: nat, i: nat)
    requires i < |files|
    ensures ArriveAt(db, files, budget, i + 1)
         == match ArriveAt(db, files, budget, i) case None => None case Some(a) => Next(a, files[i])
    decreases i
  {
    if i > 0 {
      assert files[1..][i - 1] == files[i];
      var first := Next(Arrival(db, budget), files[0]);
      if first.Some? {
        ArriveNext(first.value.db, files[1..], first.value.budget, i - 1);
      }
    }
  }

  lemma {:induction false} ArriveNoFurther(db: Database, files: seq<File>, budget: nat, i: nat, j: nat)
    requires i <= j <= |files| && ArriveAt(db, files, budget, i).None?
    ensures ArriveAt(db, files, budget, j).None?
    decreases j
  {
    if i < j {
      ArriveNoFurther(db, files, budget, i, j - 1);
      ArriveNext(db, files, budget, j - 1);
    }
  }

  /** What is left on arrival could as well not have been there. */
  lemma {:induction false} ArriveWithLess(db: Database, files: seq<File>, budget: nat, i: nat, less: nat)
    requires i <= |files| && ArriveAt(db, files, budget, i).Some?
    requires less <= ArriveAt(db, files, budget, i).value.budget
    ensures var a := ArriveAt(db, files, budget, i).value;
            ArriveAt(db, files, budget - less, i) == Some(Arrival(a.db, a.budget - less))
    decreases i
  {
    if i > 0 {
      if files[0].version in db.versions {
        ArriveWithLess(db, files[1..], budget, i - 1, less);
      } else {
        var sts := files[0].statements;
        var r := ExecAll(db.tables, sts, budget);
        DoneCosts(db.tables, sts, budget);
        EnoughBudgetBatch(db.tables, sts, budget - less);
        MoreBudgetBatch(db.tables, sts, budget - less, budget);
        ArriveWithLess(Database(r.tables, db.versions + {files[0].version}), files[1..], r.left - 1, i - 1, less);
      }
    }
  }

  lemma {:induction false} BeforeIgnores(db: Database, next: Database, files: seq<File>, i: nat, v: string)
    requires i <= |files| && next.versions == db.versions + {v}
    requires forall j | 0 <= j < |files| :: files[j].version != v
    ensures Before(db, files, i) == Before(next, files, i)
    decreases i
  {
    if i > 0 {
      BeforeIgnores(db, next, files[1..], i - 1, v);
    }
  }

  /** A run comes to the i-th file if and only if the files before it apply without error and its
      budget covers their writes. */
  lemma {:induction false} ArrivesIff(db: Database, files: seq<File>, budget: nat, i: nat)
    requires i <= |files| && DistinctVersions(files)
    ensures var clean := CleanRun(db, files[..i]);
            && (ArriveAt(db, files, budget, i).Some? <==> clean.ending == Done && budget >= Before(db, files, i))
            && (ArriveAt(db, files, budget, i).Some? ==>
                  ArriveAt(db, files, budget, i).value == Arrival(clean.db, budget - Before(db, files, i)))
    decreases i
  {
    if i > 0 {
      var rest := files[1..];
      assert files[..i][1..] == rest[..i - 1];
      assert DistinctVersions(rest) by {
        assert forall j | 0 <= j < |rest| :: rest[j] == files[j + 1];
      }
      if files[0].version in db.versions {
        ArrivesIff(db, rest, budget, i - 1);
        EnoughBudget(db, rest[..i - 1], Total(rest[..i - 1]));
        MoreBudget(db, rest[..i - 1], Total(rest[..i - 1]), Total(files[..i]));
      } else {
        ArrivesPast(db, files, budget, i);
      }
    }
  }

  lemma {:induction false} ArrivesPast(db: Database, files: seq<File>, budget: nat, i: nat)
    requires 0 < i <= |files| && DistinctVersions(files) && files[0].version !in db.versions
    ensures var clean := CleanRun(db, files[..i]);
            && (ArriveAt(db, files, budget, i).Some? <==> clean.ending == Done && budget >= Before(db, files, i))
            && (ArriveAt(db, files, budget, i).Some? ==>
                  ArriveAt(db, files, budget, i).value == Arrival(clean.db, budget - Before(db, files, i)))
    decreases i, 0
  {
    var rest, sts := files[1..], files[0].statements;
    assert files[..i][1..] == rest[..i - 1] && files[..i][0] == files[0];
    assert DistinctVersions(rest) && forall j | 0 <= j < |rest| :: rest[j].version != files[0].version by {
      assert forall j | 0 <= j < |rest| :: rest[j] == files[j + 1];
    }
    var r := ExecAll(db.tables, sts, budget);
    var whole := ExecAll(db.tables, sts, Total(files[..i]));
    EnoughBudgetBatch(db.tables, sts, Total(files[..i]));
    if whole.ending == Done {
      var next := Database(whole.tables, db.versions + {files[0].version});
      BeforeIgnores(db, next, rest, i - 1, files[0].version);
      EnoughBudgetBatch(db.tables, sts, |sts|);
      MoreBudgetBatch(db.tables, sts, |sts|, Total(files[..i])) by {
        assert Total(files[..i]) == |sts| + 1 + Total(rest[..i - 1]);
      }
      if budget > |sts| {
        MoreBudgetBatch(db.tables, sts, |sts|, budget);
        ArrivesIff(next, rest, budget - |sts| - 1, i - 1);
      } else if r.ending == Done {
        DoneCosts(db.tables, sts, budget);
      }
    } else if r.ending == Done {
      DoneCosts(db.tables, sts, budget);
      EnoughBudgetBatch(db.tables, sts, |sts|);
      MoreBudgetBatch(db.tables, sts, |sts|, budget);
      MoreBudgetBatch(db.tables, sts, |sts|, Total(files[..i]));
    }
  }

  lemma {:induction false} ArriveThroughRecorded(db: Database, files: seq<File>, budget: nat, i: nat)
    requires i <= |files| && forall j | 0 <= j < i :: files[j].version in db.versions
    ensures ArriveAt(db, files, budget, i) == Some(Arrival(db, budget))
    decreases i
  {
    if i > 0 {
      ArriveThroughRecorded(db, files[1..], budget, i - 1);
    }
  }

  // ---------- inside a file ----------

  lemma {:induction false} StepsBounded(t: Tables, sts: seq<Statement>, budget: nat)
    ensures Steps(t, sts, budget) <= budget && Steps(t, sts, budget) <= |sts|
    ensures Steps(t, sts, budget) == (var e := Steps(t, sts, |sts|); if budget < e then budget else e)
    ensures ExecAll(t, sts, budget).ending == Done <==> Steps(t, sts, budget) == |sts|
    decreases |sts|
  {
    if sts != [] && Exec(t, sts[0]).Some? {
      if budget > 0 {
        StepsBounded(Exec(t, sts[0]).value, sts[1..], budget - 1);
      } else {
        StepsBounded(Exec(t, sts[0]).value, sts[1..], |sts| - 1);
      }
    }
  }

  /** A first statement that has been executed can be executed again. */
  lemma StepsAgain(t: Tables, sts: seq<Statement>, k: nat, m: nat)
    requires Steps(t, sts, k) > 0
    ensures Steps(ExecAll(t, sts, k).tables, sts, m) > 0 <==> m > 0
  {
    var t' := Exec(t, sts[0]).value;
    ExecSettles(t, sts[0]);
    ExecAllKeepsSettled(t', sts[1..], k - 1, sts[0]);
    SettledIsNoOp(ExecAll(t, sts, k).tables, sts[0]);
  }

  // ---------- how often ----------

  /** A file that any earlier run has recorded is never executed again, not even in part. */
  lemma RecordedIsNotExecuted(db: Database, files: seq<File>, budget: nat, i: nat)
    requires i < |files| && files[i].version in db.versions
    ensures Executed(db, files, budget, i) == 0
  {
    if ArriveAt(db, files, budget, i).Some? {
      ArrivalGoesOn(db, files, budget, i);
    }
  }

  /** The budget ends strictly inside the file's own writes: after its first statement and before its
      record. A file with an error is never recorded, and one whose first statement is an error, or
      that comes after an error, is never executed. */
  ghost predicate EndsInside(db: Database, files: seq<File>, budget: nat, i: nat)
    requires i < |files|
  {
    var start, sts := CleanRun(db, files[..i]), files[i].statements;
    var good := Steps(start.db.tables, sts, |sts|);
    && start.ending == Done && good > 0
    && Before(db, files, i) < budget && (budget <= Before(db, files, i) + |sts| || good < |sts|)
  }

  lemma ExecutedUnrecordedIff(db: Database, files: seq<File>, k: nat, i: nat)
    requires i < |files| && DistinctVersions(files) && files[i].version !in db.versions
    ensures Executed(db, files, k, i) > 0 && files[i].version !in RunAll(db, files, k).db.versions
            <==> EndsInside(db, files, k, i)
  {
    hide ArriveAt, Before, CleanRun, Steps, ExecAll, DistinctVersions;
    ArrivesIff(db, files, k, i);
    if ArriveAt(db, files, k, i).Some? {
      var a := ArriveAt(db, files, k, i).value;
      ArrivalGoesOn(db, files, k, i);
      NotYetRecorded(db, files, k, i);
      StepsBounded(a.db.tables, files[i].statements, a.budget);
      RecordedIffDone(a.db, files[i..], a.budget);
    }
  }

  lemma NotYetRecorded(db: Database, files: seq<File>, k: nat, i: nat)
    requires i < |files| && DistinctVersions(files) && files[i].version !in db.versions
    requires ArriveAt(db, files, k, i).Some?
    ensures files[i].version !in ArriveAt(db, files, k, i).value.db.versions
  {
    ArrivalGoesOn(db, files, k, i);
  }

  lemma RecordedIffDone(db: Database, files: seq<File>, budget: nat)
    requires files != [] && files[0].version !in db.versions
    ensures var r := ExecAll(db.tables, files[0].statements, budget);
            var out := RunAll(db, files, budget);
            && (files[0].version in out.db.versions <==> r.ending == Done && budget > |files[0].statements|)
            && (files[0].version !in out.db.versions ==> out.db == db.(tables := r.tables))
  {
    var r := ExecAll(db.tables, files[0].statements, budget);
    if r.ending == Done {
      DoneCosts(db.tables, files[0].statements, budget);
      if r.left > 0 {
        VersionsGrow(Database(r.tables, db.versions + {files[0].version}), files[1..], r.left - 1);
      }
    }
  }

  /** A pending file is executed by two runs in a row if and only if the first run's budget ends
      strictly inside the file's own writes and the second can write at all: everything before the
      file is recorded by then. */
  lemma ExecutedTwiceIff(db: Database, files: seq<File>, k: nat, m: nat, i: nat)
    requires i < |files| && DistinctVersions(files) && files[i].version !in db.versions
    ensures Executed(db, files, k, i) > 0 && Executed(RunAll(db, files, k).db, files, m, i) > 0
            <==> EndsInside(db, files, k, i) && m > 0
  {
    hide ArriveAt, EndsInside, Steps, ExecAll, DistinctVersions;
    ExecutedUnrecordedIff(db, files, k, i);
    var after := RunAll(db, files, k).db;
    if files[i].version in after.versions {
      RecordedIsNotExecuted(after, files, m, i);
    } else if Executed(db, files, k, i) > 0 {
      var a := ArriveAt(db, files, k, i).value;
      ArrivalGoesOn(db, files, k, i);
      RecordedIffDone(a.db, files[i..], a.budget);
      ArriveThroughRecorded(after, files, m, i);
      StepsAgain(a.db.tables, files[i].statements, a.budget, m);
    }
  }

  /** Without erroneous statements this is a matter of counting. */
  lemma ExecutedTwiceIffCut(db: Database, files: seq<File>, k: nat, m: nat, i: nat)
    requires i < |files| && DistinctVersions(files) && files[i].version !in db.versions
    requires CleanRun(db, files).ending == Done
    ensures Executed(db, files, k, i) > 0 && Executed(RunAll(db, files, k).db, files, m, i) > 0
            <==> Before(db, files, i) < k <= Before(db, files, i) + |files[i].statements| && m > 0
  {
    ExecutedTwiceIff(db, files, k, m, i);
    var total := Total(files);
    DoneArrives(db, files, total, i);
    ArrivesIff(db, files, total, i);
    NotYetRecorded(db, files, total, i);
    var a := ArriveAt(db, files, total, i).value;
    StepsBounded(a.db.tables, files[i].statements, a.budget);
    StepsBounded(a.db.tables, files[i].statements, |files[i].statements|);
  }

  lemma {:induction false} DoneArrives(db: Database, files: seq<File>, budget: nat, i: nat)
    requires i < |files| && RunAll(db, files, budget).ending == Done
    ensures ArriveAt(db, files, budget, i).Some?
    ensures var a := ArriveAt(db, files, budget, i).value;
            files[i].version !in a.db.versions ==> ExecAll(a.db.tables, files[i].statements, a.budget).ending == Done
    decreases i
  {
    if i > 0 {
      assert files[1..][i - 1] == files[i];
      if files[0].version in db.versions {
        DoneArrives(db, files[1..], budget, i - 1);
      } else {
        var r := ExecAll(db.tables, files[0].statements, budget);
        DoneArrives(Database(r.tables, db.versions + {files[0].version}), files[1..], r.left - 1, i - 1);
      }
    }
  }
}
