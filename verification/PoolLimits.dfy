/**
 * Where the pools fall short, by example: a removal cut after the level 0
 * leaves a level 1 backup nothing can be made of, and a run within the same
 * second can write over the backup of a database its globs do not see.
 */
module PoolLimits {
  import opened Wrappers
  import opened Text
  import opened Pools
  import opened PoolSafety

  const WORKS := Attempt([], Works)
  const BREAKS := Attempt([], Breaks)

  function FullRun(db: string): Run {
    Run([db], 1, 0, true, {}, true, [WORKS], 0, {})
  }

  function Level1Run(db: string): Run {
    Run([db], 2, 0, true, {}, true, [WORKS], 0, {})
  }

  function CutRun(db: string): Run {
    Run([db], 3, 2, true, {}, true, [WORKS], 0, {Level0(db)})
  }

  function BrokenRun(db: string): Run {
    Run([db], 2, 0, true, {}, true, [BREAKS], 0, {})
  }

  function Unsaved(db: string): State {
    State([], map[db := []], 0, 0)
  }

  function WithLevel0(db: string): State {
    State([Pool(1, map[Level0(db) := Full(0)])], map[db := [Zero(1, 0)]], 1, 1)
  }

  function WithLevel1(db: string, content: Content): State {
    State([Pool(1, map[Level0(db) := Full(0), Level1(db, 2) := content])], map[db := [Zero(1, 0), One]], 1, 2)
  }

  lemma OneDatabase(s: State, run: Run)
    requires |run.databases| == 1 && |run.attempts| == 1 && run.attempts[0].events == []
    requires Ready(s, run).pools != []
    ensures BackUp(Ready(s, run), run, 1) == BackUpOne(Ready(s, run), run, run.databases[0], run.attempts[0])
    ensures Happened(Ready(s, run).databases, run.attempts[0].events) == s.databases
  {
    assert BackUp(Ready(s, run), run, 0) == (Ready(s, run), true);
  }

  lemma FullRunWorks(db: string)
    ensures Initial(Unsaved(db)) && MayHappen(Unsaved(db), Ran(FullRun(db)))
    ensures Execute(Unsaved(db), FullRun(db)) == (WithLevel0(db), true)
  {
    OneDatabase(Unsaved(db), FullRun(db));
    assert TakeLevel0(Ready(Unsaved(db), FullRun(db)), db, true) == WithLevel0(db);
  }

  /** A second run finds the pool's level 0 to be the latest. */
  lemma Continues(db: string, run: Run)
    requires run.databases == [db] && run.stamp == 2 && run.cutoff == 0 && run.unanswered == {}
    ensures MayHappen(WithLevel0(db), Ran(run)) && Ready(WithLevel0(db), run) == WithLevel0(db).(clock := 2)
    ensures LastZero(WithLevel0(db).databases[db]) == Some(Zero(1, 0))
  {
    var now := WithLevel0(db).(clock := 2);
    assert LastZero([Zero(1, 0)]) == Some(Zero(1, 0));
    assert !Mismatched(now, run, db);
  }

  lemma Level1RunWorks(db: string)
    ensures MayHappen(WithLevel0(db), Ran(Level1Run(db)))
    ensures Execute(WithLevel0(db), Level1Run(db)) == (WithLevel1(db, Since(0, 0)), true)
  {
    var now := WithLevel0(db).(clock := 2);
    Continues(db, Level1Run(db));
    OneDatabase(WithLevel0(db), Level1Run(db));
    assert [Zero(1, 0)] + [One] == [Zero(1, 0), One];
    assert now.pools[0].files[Level1(db, 2) := Since(0, 0)] == WithLevel1(db, Since(0, 0)).pools[0].files;
    assert TakeLevel1(now, db, 2, 0) == WithLevel1(db, Since(0, 0));
  }

  lemma CutRunLeavesTwo(db: string)
    ensures MayHappen(WithLevel1(db, Since(0, 0)), Ran(CutRun(db)))
    ensures var pools := Execute(WithLevel1(db, Since(0, 0)), CutRun(db)).0.pools;
      |pools| == 2 && !Restorable(pools[0])
  {
    var before := WithLevel1(db, Since(0, 0));
    OneDatabase(before, CutRun(db));
    var files := before.pools[0].files - {Level0(db)};
    assert files == map[Level1(db, 2) := Since(0, 0)];
    assert Execute(before, CutRun(db)).0.pools[0].files == files;
    assert Level1(db, 2) in files;
  }

  lemma ThreeSteps(s: State, a: Step, b: Step, c: Step, s1: State, s2: State) returns (steps: seq<Step>)
    requires MayHappen(s, a) && s1 == After(s, a)
    requires MayHappen(s1, b) && s2 == After(s1, b) && MayHappen(s2, c)
    ensures steps == [a, b, c] && MayAllHappen(s, steps)
    ensures AfterAll(s, steps[..0]) == s && AfterAll(s, steps[..1]) == s1 && AfterAll(s, steps[..2]) == s2
    ensures AfterAll(s, steps) == After(s2, c)
  {
    steps := [a, b, c];
    assert steps[..2] == [a, b] && steps[..2][..1] == [a] && steps[..1] == [a] && steps[..1][..0] == [] && steps[..0] == [];
    assert AfterAll(s, steps[..0]) == s && MayAllHappen(s, steps[..0]);
    AfterOneMore(s, steps[..1]);
    AfterOneMore(s, steps[..2]);
    AfterOneMore(s, steps);
    assert AfterAll(s, steps[..1]) == s1 && MayAllHappen(s, steps[..1]);
    assert AfterAll(s, steps[..2]) == s2 && MayAllHappen(s, steps[..2]);
  }

  /** Whatever the database, a removal can be cut so that its level 1 backup is left without a level 0. */
  lemma CutRemovalLeavesAnOrphan(db: string)
    ensures exists s: State, steps: seq<Step> ::
      && Initial(s) && MayAllHappen(s, steps)
      && |AfterAll(s, steps).pools| == 2
      && !Restorable(AfterAll(s, steps).pools[0])
  {
    FullRunWorks(db);
    Level1RunWorks(db);
    CutRunLeavesTwo(db);
    var steps := ThreeSteps(Unsaved(db), Ran(FullRun(db)), Ran(Level1Run(db)), Ran(CutRun(db)),
      WithLevel0(db), WithLevel1(db, Since(0, 0)));
  }

  // ---- A backup the globs do not see ----

  lemma BrokenRunBreaks(db: string)
    requires Hidden(db)
    ensures MayHappen(WithLevel1(db, Since(0, 0)), Ran(BrokenRun(db)))
    ensures Execute(WithLevel1(db, Since(0, 0)), BrokenRun(db)).0 == WithLevel1(db, Broken)
  {
    var before := WithLevel1(db, Since(0, 0));
    LastZeroAfter([Zero(1, 0)], One);
    assert [Zero(1, 0)] + [One] == [Zero(1, 0), One];
    assert LastZero([Zero(1, 0)]) == Some(Zero(1, 0));
    assert !Mismatched(before, BrokenRun(db), db);
    OneDatabase(before, BrokenRun(db));
    assert before.pools[0].files[Level1(db, 2) := Broken] == WithLevel1(db, Broken).pools[0].files;
  }

  /** A database listed since a run that succeeded is left without that run's backup or a later one. */
  ghost predicate LosesBackup(s: State, steps: seq<Step>, success: nat, db: string) {
    && Initial(s) && MayAllHappen(s, steps)
    && success < |steps| && Succeeds(s, steps, success)
    && (forall k | success <= k < |steps| && steps[k].Ran? :: db in steps[k].run.databases)
    && !HasBackupSince(s, steps, success, |steps|, db)
  }

  /** A run that fails within the second of a successful one takes away that one's backup of a hidden database. */
  lemma HiddenBackupIsLost(db: string) returns (s: State, steps: seq<Step>)
    requires Hidden(db)
    ensures LosesBackup(s, steps, 1, db)
  {
    FullRunWorks(db);
    Level1RunWorks(db);
    BrokenRunBreaks(db);
    s := Unsaved(db);
    steps := ThreeSteps(s, Ran(FullRun(db)), Ran(Level1Run(db)), Ran(BrokenRun(db)),
      WithLevel0(db), WithLevel1(db, Since(0, 0)));
    LosesBackupAfter(s, steps, WithLevel0(db), db);
  }

  lemma LosesBackupAfter(s: State, steps: seq<Step>, before: State, db: string)
    requires Initial(s) && MayAllHappen(s, steps)
    requires |steps| == 3 && steps[1].Ran? && steps[2].Ran? && steps[1].run.stamp == steps[2].run.stamp == 2
    requires db in steps[1].run.databases && db in steps[2].run.databases
    requires AfterAll(s, steps[..1]) == before && Execute(before, steps[1].run).1
    requires before.nextId == AfterAll(s, steps[..2]).nextId == 1
    requires AfterAll(s, steps) == WithLevel1(db, Broken)
    ensures LosesBackup(s, steps, 1, db)
  {
    assert steps[..3] == steps;
    NothingSince(s, steps, db);
  }

  lemma NothingSince(s: State, steps: seq<Step>, db: string)
    requires |steps| == 3 && steps[1].Ran? && steps[2].Ran? && steps[1].run.stamp == steps[2].run.stamp == 2
    requires AfterAll(s, steps[..1]).nextId == AfterAll(s, steps[..2]).nextId == 1
    requires AfterAll(s, steps[..3]) == WithLevel1(db, Broken)
    ensures !HasBackupSince(s, steps, 1, 3, db)
  {
    forall k | 1 <= k < 3 ensures !HasBackupOf(s, steps, k, 3, db) {
      BrokenIsNoBackup(db, steps[k].run);
    }
  }

  lemma BrokenIsNoBackup(db: string, run: Run)
    requires run.stamp == 2
    ensures !HasBackup(WithLevel1(db, Broken), run, 1, db)
  {
  }

  /** So exactly the databases the globs see keep their last backup. */
  lemma LosesBackupExactlyWhenHidden(db: string)
    ensures Hidden(db) <==> exists s: State, steps: seq<Step>, success: nat :: LosesBackup(s, steps, success, db)
  {
    if Hidden(db) {
      var s, steps := HiddenBackupIsLost(db);
    }
    forall s: State, steps: seq<Step>, success: nat | LosesBackup(s, steps, success, db) ensures Hidden(db) {
      if !Hidden(db) {
        LastBackupStays(s, steps, success, db);
      }
    }
  }
}
