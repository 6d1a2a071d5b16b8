/** The runner itself: it splits a file into numbered temporary files, executes and deletes them one
    by one, and records the version. Nobody clears the temporary directory. What an interrupted run
    leaves there does no harm, because the next run starts with the same file, unless that file has
    become shorter in between. */
module MigrationRunner {
  import opened Sequences
  import opened Migrations
  import opened MigrationBatches
  import opened MigrationExecutions

  type TempFiles = map<nat, Statement>

  /** The first file that is still to be applied decides which temporary files may be left over. */
  ghost predicate LeftoversFit(tmp: TempFiles, versions: set<string>, files: seq<File>)
    decreases |files|
  {
    if files == [] then tmp == map[]
    else if files[0].version in versions then LeftoversFit(tmp, versions, files[1..])
    else forall i | i in tmp :: 1 <= i <= |files[0].statements|
  }

  /** The statements of tmp numbered i, i + 1 and so on, up to the first number that is missing. */
  function Stale(tmp: TempFiles, i: nat): seq<Statement>
    decreases |tmp|
  {
    if i in tmp then [tmp[i]] + Stale(tmp - {i}, i + 1) else []
  }

  /** after is before with the statements written to the files 1 to |sts|. */
  ghost predicate Overwritten(before: TempFiles, after: TempFiles, sts: seq<Statement>) {
    && (forall n: nat :: n in after <==> n in before || 1 <= n <= |sts|)
    && (forall n: nat | n in after :: after[n] == if 1 <= n <= |sts| then sts[n - 1] else before[n])
  }

  /** The files that are left of written when those numbered below i have been executed. */
  ghost predicate Remaining(written: TempFiles, tmp: TempFiles, i: nat) {
    && (forall n: nat :: n in tmp <==> n in written && !(1 <= n < i))
    && (forall n: nat | n in tmp :: tmp[n] == written[n])
  }

  /** What is executed for the file: its statements, and leftovers that continue their numbers. */
  function Continued(tmp: TempFiles, sts: seq<Statement>): seq<Statement> {
    sts + Stale(tmp, |sts| + 1)
  }

  /** The writes that a run makes when it is also cut off in the middle of splitting the file with
      number splitCut, should it come to that. */
  function WritesMade(db: Database, files: seq<File>, budget: nat, splitCut: nat): nat {
    if splitCut >= |files| then budget
    else
      match ArriveAt(db, files, budget, splitCut)
      case None => budget
      case Some(a) =>
        if files[splitCut].version in a.db.versions then budget else budget - a.budget
  }

  class Runner {
    var db: Database
    var tmp: TempFiles

    constructor (db: Database)
      ensures this.db == db && tmp == map[]
    {
      this.db, tmp := db, map[];
    }

    /** Writes each statement to its numbered file, over what is there. */
    method SplitFile(sts: seq<Statement>)
      modifies this`tmp
      ensures Overwritten(old(tmp), tmp, sts)
    {
      for n := 0 to |sts|
        invariant Overwritten(old(tmp), tmp, sts[..n])
      {
        tmp := tmp[n + 1 := sts[n]];
      }
      assert sts[..|sts|] == sts;
    }

    /** ch_file: split the file, then work through the numbers until one is missing. `budget` writes
        can be made before the run is cut off. */
    method ExecuteFile(file: File, budget: nat) returns (ending: Ending, left: nat)
      modifies this
      ensures var b := ExecAll(old(db.tables), Continued(old(tmp), file.statements), budget);
              && db == old(db).(tables := b.tables) && ending == b.ending && left == b.left
      ensures forall n | n in tmp :: n in old(tmp) || 1 <= n <= |file.statements|
      ensures ending == Done ==>
                forall n | n in tmp :: n in old(tmp) && !(1 <= n <= |Continued(old(tmp), file.statements)|)
    {
      var sts := file.statements;
      ghost var all := Continued(tmp, sts);
      SplitFile(sts);
      ghost var written := tmp;
      var i := 1;
      left := budget;
      assert all[0..] == all;
      while i in tmp
        invariant 1 <= i <= |all| + 1
        invariant Remaining(written, tmp, i)
        invariant db.versions == old(db.versions)
        invariant ExecAll(db.tables, all[i - 1..], left) == ExecAll(old(db.tables), all, budget)
        decreases |all| + 1 - i
      {
        hide Exec, Continued, Overwritten, Remaining;
        TakeNext(old(tmp), written, tmp, sts, i);
        var stmt := tmp[i];
        tmp := tmp - {i};
        if left == 0 {
          return Cut, 0;
        }
        var response := Exec(db.tables, stmt);
        if response.None? {
          return Failed, left;
        }
        assert all[i - 1..][1..] == all[i..];
        db := db.(tables := response.value);
        left := left - 1;
        i := i + 1;
      }
      TakeLast(old(tmp), written, tmp, sts, i);
      assert all[|all|..] == [];
      ending := Done;
    }

    /** The loop over the pending files, cut off after `budget` writes, or before that while it splits
        the file with number splitCut, which leaves anything (`torn`) in that file's first temporary
        files. However many interrupted runs came before, this run does to the database what the run
        without temporary files does. */
    method Run(files: seq<File>, budget: nat, splitCut: nat, torn: seq<Statement>) returns (ending: Ending)
      requires LeftoversFit(tmp, db.versions, files)
      requires splitCut < |files| ==> |torn| <= |files[splitCut].statements|
      modifies this
      ensures Outcome(db, ending) == RunAll(old(db), files, WritesMade(old(db), files, budget, splitCut))
      ensures LeftoversFit(tmp, db.versions, files)
    {
      var left := budget;
      for n := 0 to |files|
        invariant LeftoversFit(tmp, db.versions, files[n..])
        invariant ArriveAt(old(db), files, budget, n) == Some(Arrival(db, left))
        invariant splitCut < n ==> WritesMade(old(db), files, budget, splitCut) == budget
      {
        hide ExecAll, ArriveAt, RunAll;
        ArriveNext(old(db), files, budget, n);
        var file := files[n];
        if file.version !in db.versions {
          if n == splitCut {
            SplitFile(torn);
            CutInSplit(old(db), files, budget, n);
            FitsFrom(tmp, old(db), db.versions, files, budget, n);
            return Cut;
          }
          NothingContinues(tmp, file.statements);
          ghost var before := db;
          var r, l := ExecuteFile(file, left);
          if r != Done || l == 0 {
            StopsInFile(old(db), files, budget, splitCut, n);
            FitsFrom(tmp, old(db), db.versions, files, budget, n);
            return if r != Done then r else Cut;
          }
          db := db.(versions := db.versions + {file.version});
          left := l - 1;
          NothingLeftFits(db.versions, files[n + 1..]);
        }
      }
      ArrivalGoesOn(old(db), files, budget, |files|);
      SkipRecorded(tmp, db.versions, files, |files|);
      ending := Done;
    }
  }

  // ---------- numbers ----------

  lemma {:induction false} StaleInPlace(tmp: TempFiles, i: nat, k: nat)
    requires k <= |Stale(tmp, i)|
    ensures i + k in tmp <==> k < |Stale(tmp, i)|
    ensures k < |Stale(tmp, i)| ==> tmp[i + k] == Stale(tmp, i)[k]
    decreases k
  {
    if k > 0 {
      StaleInPlace(tmp - {i}, i + 1, k - 1);
    }
  }

  /** After the split, statement number i of those executed is in the file with that number. */
  lemma ContinuedInPlace(before: TempFiles, written: TempFiles, sts: seq<Statement>, i: nat)
    requires Overwritten(before, written, sts) && 1 <= i <= |Continued(before, sts)| + 1
    ensures i in written <==> i <= |Continued(before, sts)|
    ensures i in written ==> written[i] == Continued(before, sts)[i - 1]
  {
    if i > |sts| {
      StaleInPlace(before, |sts| + 1, i - 1 - |sts|);
    }
  }

  lemma TakeNext(before: TempFiles, written: TempFiles, tmp: TempFiles, sts: seq<Statement>, i: nat)
    requires Overwritten(before, written, sts) && 1 <= i <= |Continued(before, sts)| + 1
    requires Remaining(written, tmp, i) && i in tmp
    ensures i <= |Continued(before, sts)| && tmp[i] == Continued(before, sts)[i - 1]
    ensures Remaining(written, tmp - {i}, i + 1)
    ensures forall n | n in tmp :: n in before || 1 <= n <= |sts|
  {
    hide Continued;
    ContinuedInPlace(before, written, sts, i);
  }

  lemma TakeLast(before: TempFiles, written: TempFiles, tmp: TempFiles, sts: seq<Statement>, i: nat)
    requires Overwritten(before, written, sts) && 1 <= i <= |Continued(before, sts)| + 1
    requires Remaining(written, tmp, i) && i !in tmp
    ensures i == |Continued(before, sts)| + 1
    ensures forall n | n in tmp :: n in before && !(1 <= n < i)
  {
    ContinuedInPlace(before, written, sts, i);
  }

  lemma NothingContinues(tmp: TempFiles, sts: seq<Statement>)
    requires forall i | i in tmp :: 1 <= i <= |sts|
    ensures Continued(tmp, sts) == sts
  {
  }

  /** What a directory does to a file: nothing if and only if there is no leftover with the number
      after its last statement, or the file fails before that. */
  lemma LeftoversHarmlessIff(t: Tables, tmp: TempFiles, sts: seq<Statement>)
    ensures (forall budget :: ExecAll(t, Continued(tmp, sts), budget) == ExecAll(t, sts, budget))
            <==> |sts| + 1 !in tmp || Execute(t, sts).ending == Failed
  {
    var stale := Stale(tmp, |sts| + 1);
    if |sts| + 1 !in tmp {
      assert Continued(tmp, sts) == sts;
    } else if Execute(t, sts).ending == Failed {
      forall budget ensures ExecAll(t, sts + stale, budget) == ExecAll(t, sts, budget) {
        FailsFirst(t, sts, stale, budget);
      }
    } else {
      DoesMore(t, sts, stale);
    }
  }

  lemma {:induction false} FailsFirst(t: Tables, sts: seq<Statement>, more: seq<Statement>, budget: nat)
    requires Execute(t, sts).ending == Failed
    ensures ExecAll(t, sts + more, budget) == ExecAll(t, sts, budget)
    decreases |sts|
  {
    assert (sts + more)[1..] == sts[1..] + more;
    if budget > 0 && Exec(t, sts[0]).Some? {
      FailsFirst(Exec(t, sts[0]).value, sts[1..], more, budget - 1);
    }
  }

  /** A budget for the file alone is used up before all of a longer list is done. */
  lemma DoesMore(t: Tables, sts: seq<Statement>, more: seq<Statement>)
    requires more != [] && Execute(t, sts).ending != Failed
    ensures ExecAll(t, sts + more, |sts|) != ExecAll(t, sts, |sts|)
  {
    EnoughBudgetBatch(t, sts, |sts|);
    if ExecAll(t, sts + more, |sts|).ending == Done {
      DoneCosts(t, sts + more, |sts|);
    }
  }

  /** A file that is shortened after a run was cut off in it, with the statements from number i on
      left over, still gets its old statements executed behind the new ones, if the cut came before
      or right at the first of them; otherwise it is executed as it is now. */
  lemma ShortenedFile(tmp: TempFiles, was: seq<Statement>, now: seq<Statement>, i: nat)
    requires 1 <= i && |now| < |was|
    requires forall n: nat :: n in tmp <==> i <= n <= |was|
    requires forall n | n in tmp :: tmp[n] == was[n - 1]
    ensures Continued(tmp, now) == if i <= |now| + 1 then now + was[|now|..] else now
  {
    if i <= |now| + 1 {
      StaleIsRest(tmp, was, |now| + 1);
    }
  }

  lemma {:induction false} StaleIsRest(tmp: TempFiles, was: seq<Statement>, i: nat)
    requires 1 <= i <= |was| + 1
    requires forall n: nat | n >= i :: (n in tmp <==> n <= |was|) && (n in tmp ==> tmp[n] == was[n - 1])
    ensures Stale(tmp, i) == was[i - 1..]
    decreases |was| + 1 - i
  {
    if i <= |was| {
      StaleIsRest(tmp - {i}, was, i + 1);
      assert was[i - 1..] == [was[i - 1]] + was[i..];
    }
  }

  // ---------- the loop over the files ----------

  lemma CutInSplit(db: Database, files: seq<File>, budget: nat, n: nat)
    requires n < |files| && ArriveAt(db, files, budget, n).Some?
    requires files[n].version !in ArriveAt(db, files, budget, n).value.db.versions
    ensures RunAll(db, files, WritesMade(db, files, budget, n))
         == Outcome(ArriveAt(db, files, budget, n).value.db, Cut)
  {
    var a := ArriveAt(db, files, budget, n).value;
    ArriveWithLess(db, files, budget, n, a.budget);
    ArrivalGoesOn(db, files, budget - a.budget, n);
  }

  lemma StopsInFile(db: Database, files: seq<File>, budget: nat, splitCut: nat, n: nat)
    requires n < |files| && n != splitCut && ArriveAt(db, files, budget, n).Some?
    requires Next(ArriveAt(db, files, budget, n).value, files[n]).None?
    requires splitCut < n ==> WritesMade(db, files, budget, splitCut) == budget
    ensures var a := ArriveAt(db, files, budget, n).value;
            var r := ExecAll(a.db.tables, files[n].statements, a.budget);
            var out := Outcome(a.db.(tables := r.tables), if r.ending == Done then Cut else r.ending);
            RunAll(db, files, WritesMade(db, files, budget, splitCut)) == out
  {
    if n < splitCut < |files| {
      ArriveNext(db, files, budget, n);
      ArriveNoFurther(db, files, budget, n + 1, splitCut);
    }
    ArrivalGoesOn(db, files, budget, n);
  }

  lemma FitsFrom(tmp: TempFiles, db: Database, versions: set<string>, files: seq<File>, budget: nat, n: nat)
    requires n < |files| && ArriveAt(db, files, budget, n).Some?
    requires ArriveAt(db, files, budget, n).value.db.versions == versions && files[n].version !in versions
    requires forall i | i in tmp :: 1 <= i <= |files[n].statements|
    ensures LeftoversFit(tmp, versions, files)
  {
    ArrivalGoesOn(db, files, budget, n);
    SkipRecorded(tmp, versions, files, n);
  }

  lemma {:induction false} NothingLeftFits(versions: set<string>, files: seq<File>)
    ensures LeftoversFit(map[], versions, files)
    decreases |files|
  {
    if files != [] {
      NothingLeftFits(versions, files[1..]);
    }
  }

  lemma {:induction false} SkipRecorded(tmp: TempFiles, versions: set<string>, files: seq<File>, n: nat)
    requires n <= |files| && forall j | 0 <= j < n :: files[j].version in versions
    requires LeftoversFit(tmp, versions, files[n..])
    ensures LeftoversFit(tmp, versions, files)
    decreases n
  {
    if n > 0 {
      assert files[1..][n - 1..] == files[n..];
      SkipRecorded(tmp, versions, files[1..], n - 1);
    } else {
      assert files[0..] == files;
    }
  }
}
