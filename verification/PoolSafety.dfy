/**
 * What holds over every sequence of incremental runs, each of them good, failed
 * or killed anywhere, with databases begun and dropped in between: chains,
 * availability, and what cutting the backup histories changes.
 */
module PoolSafety {
  import opened Wrappers
  import opened Text
  import opened Sequences
  import opened Pools

  // ---- Sequences of runs ----

  datatype Step = Ran(run: Run) | Happens(event: Event)

  /**
   * The claim gives a run a time that no pool carries and no level 1 backup its
   * globs see: a database whose name begins with a dot they pass over.
   */
  ghost predicate Unused(pools: seq<Pool>, stamp: nat) {
    (forall k | 0 <= k < |pools| :: pools[k].stamp != stamp) && FilesUnused(pools, stamp)
  }

  ghost predicate FilesUnused(pools: seq<Pool>, stamp: nat) {
    forall k | 0 <= k < |pools| ::
      forall file <- pools[k].files :: file.Level1? && !Hidden(file.db) ==> file.stamp != stamp
  }

  /** Clocks do not go back, and cutoffs are past. */
  ghost predicate MayHappen(s: State, step: Step) {
    step.Ran? ==>
      && NoDuplicates(step.run.databases)
      && s.clock <= step.run.stamp && step.run.cutoff <= step.run.stamp
      && Unused(s.pools, step.run.stamp)
  }

  function After(s: State, step: Step): State {
    match step
    case Ran(run) => Execute(s, run).0
    case Happens(event) => s.(databases := Happened(s.databases, [event]))
  }

  function AfterAll(s: State, steps: seq<Step>): State
    decreases |steps|, 1
  {
    if steps == [] then s else AfterLast(s, steps)
  }

  function AfterLast(s: State, steps: seq<Step>): State
    requires steps != []
    decreases |steps|, 0
  {
    After(AfterAll(s, steps[..|steps| - 1]), steps[|steps| - 1])
  }

  lemma AfterOneMore(s: State, steps: seq<Step>)
    requires steps != []
    ensures AfterAll(s, steps) == After(AfterAll(s, steps[..|steps| - 1]), steps[|steps| - 1])
  {
    assert AfterLast(s, steps) == After(AfterAll(s, steps[..|steps| - 1]), steps[|steps| - 1]);
  }

  ghost predicate MayAllHappen(s: State, steps: seq<Step>) {
    steps == [] ||
    (&& MayAllHappen(s, steps[..|steps| - 1])
     && MayHappen(AfterAll(s, steps[..|steps| - 1]), steps[|steps| - 1]))
  }

  /** A backup directory without pools, and databases that were never backed up. */
  ghost predicate Initial(s: State) {
    s.pools == [] && forall db <- s.databases :: s.databases[db] == []
  }

  /** A run of nothing. */
  const NO_RUN := Run([], 0, 0, false, {}, false, [], 0, {})

  // ---- The invariant ----

  ghost predicate Ordered(pools: seq<Pool>, clock: nat) {
    && (forall i, j | 0 <= i < j < |pools| :: pools[i].stamp < pools[j].stamp)
    && (pools != [] ==> pools[|pools| - 1].stamp <= clock)
  }

  /** The history's latest level 0 is not ahead of the newest pool, and in it, is that pool's file. */
  ghost predicate Fits(pools: seq<Pool>, db: string, history: seq<Row>) {
    LastZero(history).Some? ==>
      && pools != []
      && LastZero(history).value.pool <= pools[|pools| - 1].stamp
      && (LastZero(history).value.pool == pools[|pools| - 1].stamp ==>
            Holds(pools[|pools| - 1], db, LastZero(history).value.id))
  }

  /** The pool has the complete level 0 backup id of the database. */
  predicate Holds(pool: Pool, db: string, id: nat) {
    Level0(db) in pool.files && pool.files[Level0(db)] == Full(id)
  }

  ghost predicate HistoriesFit(pools: seq<Pool>, databases: map<string, seq<Row>>) {
    forall db <- databases :: Fits(pools, db, databases[db])
  }

  /** A level 1 backup's pool was within retention, and no other level 0 of its database is in it. */
  ghost predicate Chained(pool: Pool) {
    forall db: string, stamp: nat ::
      Level1(db, stamp) in pool.files && pool.files[Level1(db, stamp)].Since? ==>
        && pool.files[Level1(db, stamp)].cutoff <= pool.stamp
        && (Level0(db) in pool.files ==> Holds(pool, db, pool.files[Level1(db, stamp)].base))
  }

  /** Every usable level 1 backup can be restored with the level 0 next to it. */
  ghost predicate Restorable(pool: Pool) {
    forall db: string, stamp: nat ::
      Level1(db, stamp) in pool.files && pool.files[Level1(db, stamp)].Since? ==>
        && pool.files[Level1(db, stamp)].cutoff <= pool.stamp
        && Holds(pool, db, pool.files[Level1(db, stamp)].base)
  }

  /** Only the oldest of several pools can be one whose removal was cut short. */
  ghost predicate PoolsSound(pools: seq<Pool>) {
    forall k | 0 <= k < |pools| :: Chained(pools[k]) && (k == |pools| - 1 || 0 < k ==> Restorable(pools[k]))
  }

  ghost predicate Inv(s: State) {
    && Ordered(s.pools, s.clock)
    && HistoriesFit(s.pools, s.databases)
    && PoolsSound(s.pools)
  }

  /** What the check before the backups leaves: a database with a level 0 in the pool has that one as its latest. */
  ghost predicate Bound(s: State, db: string) {
    HasLevel0(s, db) && db in s.databases && LastZero(s.databases[db]).Some? ==> LastIsOwn(s, db)
  }

  ghost predicate AllBound(s: State, run: Run) {
    && s.pools != [] && run.cutoff <= s.pools[|s.pools| - 1].stamp
    && forall k | 0 <= k < |run.databases| :: Bound(s, run.databases[k])
  }

  lemma {:induction false} HappenedHistories(databases: map<string, seq<Row>>, events: seq<Event>)
    ensures forall db <- Happened(databases, events) ::
      || Happened(databases, events)[db] == []
      || (db in databases && Happened(databases, events)[db] == databases[db])
  {
    if events != [] {
      HappenedHistories(databases, events[..|events| - 1]);
    }
  }

  lemma EventsKeep(s: State, events: seq<Event>, run: Run)
    requires Inv(s)
    ensures var now := s.(databases := Happened(s.databases, events));
      Inv(now) && (AllBound(s, run) ==> AllBound(now, run))
  {
    HappenedHistories(s.databases, events);
    var now := s.(databases := Happened(s.databases, events));
    forall db <- now.databases ensures Fits(now.pools, db, now.databases[db]) {
    }
    if AllBound(s, run) {
      forall k | 0 <= k < |run.databases| ensures Bound(now, run.databases[k]) {
        assert Bound(s, run.databases[k]);
      }
    }
  }

  /** The run has a complete level 0 of the database in the pool, and took it or a level 1 backup on it. */
  ghost predicate BackedUp(pool: Pool, run: Run, firstId: nat, db: string) {
    || (exists id: nat | firstId <= id :: Holds(pool, db, id))
    || (&& Level1(db, run.stamp) in pool.files
        && pool.files[Level1(db, run.stamp)].Since?
        && Holds(pool, db, pool.files[Level1(db, run.stamp)].base))
  }

  ghost predicate Complete(pool: Pool, db: string) {
    Level0(db) in pool.files && pool.files[Level0(db)].Full?
  }

  /** No complete level 0 goes, in any pool. */
  ghost predicate Level0sStay(before: seq<Pool>, after: seq<Pool>) {
    && |before| == |after|
    && forall k | 0 <= k < |before| :: Level0Stays(before[k], after[k])
  }

  ghost predicate Level0Stays(before: Pool, after: Pool) {
    && before.stamp == after.stamp
    && forall db: string :: Complete(before, db) ==>
         Level0(db) in after.files && after.files[Level0(db)] == before.files[Level0(db)]
  }

  // ---- One call ----

  lemma WriteKeeps(s: State, file: File, content: Content)
    requires Inv(s) && s.pools != []
    requires file.Level0? ==> file !in s.pools[|s.pools| - 1].files
    requires content.Since? ==>
      && file.Level1?
      && content.cutoff <= s.pools[|s.pools| - 1].stamp
      && Holds(s.pools[|s.pools| - 1], file.db, content.base)
    ensures Inv(Write(s, file, content)) && Level0sStay(s.pools, Write(s, file, content).pools)
  {
    var last := |s.pools| - 1;
    var s' := Write(s, file, content);
    assert Restorable(s.pools[last]);
    assert Chained(s'.pools[last]) && Restorable(s'.pools[last]) by {
      forall db: string, stamp: nat | Level1(db, stamp) in s'.pools[last].files && s'.pools[last].files[Level1(db, stamp)].Since?
        ensures s'.pools[last].files[Level1(db, stamp)].cutoff <= s'.pools[last].stamp
        ensures Holds(s'.pools[last], db, s'.pools[last].files[Level1(db, stamp)].base)
      {
        if Level1(db, stamp) != file {
          assert Level1(db, stamp) in s.pools[last].files;
        }
      }
    }
    forall db <- s'.databases ensures Fits(s'.pools, db, s'.databases[db]) {
      assert Fits(s.pools, db, s.databases[db]);
    }
  }

  lemma LastZeroAfter(history: seq<Row>, row: Row)
    ensures LastZero(history + [row]) == if row.Zero? then Some(row) else LastZero(history)
  {
    assert (history + [row])[..|history|] == history;
  }

  lemma HistoryKeeps(s: State, db: string, history: seq<Row>)
    requires Inv(s) && Fits(s.pools, db, history)
    ensures Inv(s.(databases := s.databases[db := history]))
  {
    var s' := s.(databases := s.databases[db := history]);
    forall d <- s'.databases ensures Fits(s'.pools, d, s'.databases[d]) {
      if d != db {
        assert Fits(s.pools, d, s.databases[d]);
      }
    }
  }

  lemma Level0Keeps(s: State, run: Run, db: string)
    requires Inv(s) && AllBound(s, run) && db in s.databases && !HasLevel0(s, db)
    ensures var s' := TakeLevel0(s, db, run.prune);
      && Inv(s') && AllBound(s', run) && Level0sStay(s.pools, s'.pools)
      && BackedUp(s'.pools[|s'.pools| - 1], run, s.nextId, db)
  {
    var written := Write(s, Level0(db), Full(s.nextId));
    WriteKeeps(s, Level0(db), Full(s.nextId));
    var row := Zero(s.pools[|s.pools| - 1].stamp, s.nextId);
    LastZeroAfter(s.databases[db], row);
    assert LastZero([row]) == Some(row);
    HistoryKeeps(written, db, if run.prune then [row] else s.databases[db] + [row]);
    var s' := TakeLevel0(s, db, run.prune);
    assert Holds(s'.pools[|s'.pools| - 1], db, s.nextId);
    forall k | 0 <= k < |run.databases| ensures Bound(s', run.databases[k]) {
      assert Bound(s, run.databases[k]);
    }
  }

  lemma Level1Keeps(s: State, run: Run, db: string)
    requires Inv(s) && AllBound(s, run) && db in run.databases && db in s.databases
    requires HasLevel0(s, db) && LastZero(s.databases[db]).Some?
    ensures var s' := TakeLevel1(s, db, run.stamp, run.cutoff);
      && Inv(s') && AllBound(s', run) && Level0sStay(s.pools, s'.pools)
      && BackedUp(s'.pools[|s'.pools| - 1], run, s.nextId, db)
  {
    assert Bound(s, db);
    assert Fits(s.pools, db, s.databases[db]);
    var content := Since(LastZero(s.databases[db]).value.id, run.cutoff);
    var written := Write(s, Level1(db, run.stamp), content);
    WriteKeeps(s, Level1(db, run.stamp), content);
    LastZeroAfter(s.databases[db], One);
    HistoryKeeps(written, db, s.databases[db] + [One]);
    var s' := TakeLevel1(s, db, run.stamp, run.cutoff);
    forall k | 0 <= k < |run.databases| ensures Bound(s', run.databases[k]) {
      assert Bound(s, run.databases[k]);
    }
  }

  lemma BackUpOneKeeps(s: State, run: Run, db: string, attempt: Attempt)
    requires Inv(s) && AllBound(s, run) && db in run.databases
    ensures var (s', goesOn) := BackUpOne(s, run, db, attempt);
      && Inv(s') && s'.clock == s.clock
      && s.nextId <= s'.nextId
      && Level0sStay(s.pools, s'.pools)
      && (goesOn ==> AllBound(s', run) && BackedUp(s'.pools[|s'.pools| - 1], run, s.nextId, db))
  {
    EventsKeep(s, attempt.events, run);
    var now := s.(databases := Happened(s.databases, attempt.events));
    var level1 := HasLevel0(now, db);
    if attempt.outcome == Breaks {
      WriteKeeps(now, if level1 then Level1(db, run.stamp) else Level0(db), Broken);
    } else if attempt.outcome != Refused && db in now.databases {
      if level1 && LastZero(now.databases[db]).Some? {
        Level1Keeps(now, run, db);
      } else if !level1 {
        Level0Keeps(now, run, db);
      }
    }
  }

  lemma BackedUpStays(pool: Pool, pool': Pool, run: Run, firstId: nat, id: nat, db: string)
    requires BackedUp(pool, run, id, db) && firstId <= id
    requires Level0Stays(pool, pool')
    requires Level1(db, run.stamp) in pool.files ==>
      Level1(db, run.stamp) in pool'.files && pool'.files[Level1(db, run.stamp)] == pool.files[Level1(db, run.stamp)]
    ensures BackedUp(pool', run, firstId, db)
  {
    if id0: nat :| id <= id0 && Holds(pool, db, id0) {
      assert Complete(pool, db);
      assert Holds(pool', db, id0);
    } else {
      assert Complete(pool, db);
    }
  }

  /** An attempt only touches its own database's files. */
  lemma OtherFilesStay(s: State, run: Run, db: string, attempt: Attempt, file: File)
    requires s.pools != [] && file.db != db && file in s.pools[|s.pools| - 1].files
    ensures var pool := BackUpOne(s, run, db, attempt).0.pools[|s.pools| - 1];
      file in pool.files && pool.files[file] == s.pools[|s.pools| - 1].files[file]
  {
  }

  /** What the backup loop keeps, and has done for the first n databases. */
  ghost predicate GoodSoFar(s: State, now: State, goesOn: bool, run: Run, n: nat)
    requires n <= |run.databases|
  {
    && s.pools != []
    && Inv(now) && now.clock == s.clock
    && s.nextId <= now.nextId
    && Level0sStay(s.pools, now.pools)
    && (goesOn ==> AllBound(now, run))
    && (goesOn ==> forall k | 0 <= k < n :: BackedUp(now.pools[|now.pools| - 1], run, s.nextId, run.databases[k]))
  }

  lemma Level0sStayOn(a: seq<Pool>, b: seq<Pool>, c: seq<Pool>)
    requires Level0sStay(a, b) && Level0sStay(b, c)
    ensures Level0sStay(a, c)
  {
    forall k | 0 <= k < |a| ensures Level0Stays(a[k], c[k]) {
      assert Level0Stays(a[k], b[k]) && Level0Stays(b[k], c[k]);
    }
  }

  lemma NextIsGood(s: State, before: State, run: Run, n: nat, attempt: Attempt)
    requires n < |run.databases| && NoDuplicates(run.databases)
    requires GoodSoFar(s, before, true, run, n)
    ensures var (now, goesOn) := BackUpOne(before, run, run.databases[n], attempt);
      GoodSoFar(s, now, goesOn, run, n + 1)
  {
    var db := run.databases[n];
    BackUpOneKeeps(before, run, db, attempt);
    var (now, goesOn) := BackUpOne(before, run, db, attempt);
    Level0sStayOn(s.pools, before.pools, now.pools);
    if goesOn {
      var last := |s.pools| - 1;
      forall k | 0 <= k < n + 1 ensures BackedUp(now.pools[last], run, s.nextId, run.databases[k]) {
        if k < n {
          if Level1(run.databases[k], run.stamp) in before.pools[last].files {
            OtherFilesStay(before, run, db, attempt, Level1(run.databases[k], run.stamp));
          }
          BackedUpStays(before.pools[last], now.pools[last], run, s.nextId, s.nextId, run.databases[k]);
        } else {
          BackedUpStays(now.pools[last], now.pools[last], run, s.nextId, before.nextId, db);
        }
      }
    }
  }

  lemma NothingIsGood(s: State, run: Run)
    requires Inv(s) && AllBound(s, run)
    ensures GoodSoFar(s, s, true, run, 0)
  {
  }

  lemma {:induction false} BackUpKeeps(s: State, run: Run, n: nat)
    requires Inv(s) && AllBound(s, run) && n <= |run.databases| && NoDuplicates(run.databases)
    ensures GoodSoFar(s, BackUp(s, run, n).0, BackUp(s, run, n).1, run, n)
  {
    if n == 0 {
      NothingIsGood(s, run);
    } else {
      BackUpKeeps(s, run, n - 1);
      ContinuedIsGood(s, run, n - 1);
    }
  }

  lemma ContinuedIsGood(s: State, run: Run, n: nat)
    requires n < |run.databases| && NoDuplicates(run.databases) && s.pools != []
    requires GoodSoFar(s, BackUp(s, run, n).0, BackUp(s, run, n).1, run, n)
    ensures GoodSoFar(s, Continue(s, run, n).0, Continue(s, run, n).1, run, n + 1)
  {
    var (before, goesOn) := BackUp(s, run, n);
    if goesOn && n < |run.attempts| {
      NextIsGood(s, before, run, n, run.attempts[n]);
    } else {
      StoppedIsGood(s, before, goesOn, run, n);
    }
  }

  lemma StoppedIsGood(s: State, now: State, goesOn: bool, run: Run, n: nat)
    requires n < |run.databases| && GoodSoFar(s, now, goesOn, run, n)
    ensures GoodSoFar(s, now, false, run, n + 1)
  {
  }

  // ---- A whole run ----

  /** The state in which the backups are taken. */
  function Ready(s: State, run: Run): State {
    var now := s.(clock := run.stamp);
    if NeedsPool(now, run) then StartPool(now, run.stamp) else now
  }

  lemma ReadyKeeps(s: State, run: Run)
    requires Inv(s) && MayHappen(s, Ran(run))
    ensures Inv(Ready(s, run)) && AllBound(Ready(s, run), run)
    ensures Inv(s.(clock := run.stamp))
  {
    var now := s.(clock := run.stamp);
    var s' := Ready(s, run);
    if NeedsPool(now, run) {
      forall db <- s'.databases ensures Fits(s'.pools, db, s'.databases[db]) {
        assert Fits(s.pools, db, s.databases[db]);
      }
      assert PoolsSound(s'.pools);
    } else {
      forall k | 0 <= k < |run.databases| ensures Bound(s', run.databases[k]) {
        assert !Mismatched(now, run, run.databases[k]);
      }
    }
  }

  /** Some pool has a complete level 0 of the database. */
  ghost predicate Covered(s: State, db: string) {
    exists k | 0 <= k < |s.pools| :: Complete(s.pools[k], db)
  }

  lemma SweepKeeps(s: State, swept: nat, removed: set<File>)
    requires Inv(s) && s.pools != []
    ensures Inv(s.(pools := Sweep(s.pools, swept, removed)))
  {
    var s' := s.(pools := Sweep(s.pools, swept, removed));
    forall db <- s'.databases ensures Fits(s'.pools, db, s'.databases[db]) {
      assert Fits(s.pools, db, s.databases[db]);
    }
  }

  lemma RunKeeps(s: State, run: Run)
    requires Inv(s) && MayHappen(s, Ran(run))
    ensures Inv(Execute(s, run).0)
  {
    ReadyKeeps(s, run);
    if !NeedsPool(s.(clock := run.stamp), run) || run.startsPool {
      BackUpKeeps(Ready(s, run), run, |run.databases|);
      SweepKeeps(BackUp(Ready(s, run), run, |run.databases|).0, run.swept, run.removed);
    }
  }

  /**
   * A run that succeeds leaves one pool, within retention, with a complete
   * level 0 of every database and a backup of each taken by this run.
   */
  lemma SuccessLeavesOnePool(s: State, run: Run)
    requires Inv(s) && MayHappen(s, Ran(run)) && Execute(s, run).1
    ensures var s' := Execute(s, run).0;
      && |s'.pools| == 1
      && run.cutoff <= s'.pools[0].stamp
      && Restorable(s'.pools[0])
      && forall db <- run.databases :: Complete(s'.pools[0], db) && BackedUp(s'.pools[0], run, s.nextId, db)
  {
    ReadyKeeps(s, run);
    BackUpKeeps(Ready(s, run), run, |run.databases|);
    RunKeeps(s, run);
  }

  lemma BackUpCovers(s: State, now: State, goesOn: bool, run: Run, db: string)
    requires GoodSoFar(s, now, goesOn, run, |run.databases|)
    requires db in run.databases && Covered(s, db)
    ensures Covered(now, db) && (goesOn ==> Complete(now.pools[|now.pools| - 1], db))
  {
    var k :| 0 <= k < |s.pools| && Complete(s.pools[k], db);
    assert Level0Stays(s.pools[k], now.pools[k]);
    assert Complete(now.pools[k], db);
  }

  lemma SweepCovers(s: State, swept: nat, removed: set<File>, db: string)
    requires s.pools != [] && Complete(s.pools[|s.pools| - 1], db)
    ensures Covered(s.(pools := Sweep(s.pools, swept, removed)), db)
  {
    var pools := Sweep(s.pools, swept, removed);
    assert pools[|pools| - 1] == s.pools[|s.pools| - 1];
  }

  /** However a run goes, what was covered stays covered for the databases it lists. */
  lemma RunKeepsCoverage(s: State, run: Run, db: string)
    requires Inv(s) && MayHappen(s, Ran(run)) && db in run.databases && Covered(s, db)
    ensures Covered(Execute(s, run).0, db)
  {
    if !NeedsPool(s.(clock := run.stamp), run) || run.startsPool {
      ReadyKeeps(s, run);
      ReadyCovers(s, run, db);
      BackUpKeeps(Ready(s, run), run, |run.databases|);
      var (backedUp, goesOn) := BackUp(Ready(s, run), run, |run.databases|);
      BackUpCovers(Ready(s, run), backedUp, goesOn, run, db);
      if goesOn {
        SweepCovers(backedUp, run.swept, run.removed, db);
      }
    }
  }

  lemma ReadyCovers(s: State, run: Run, db: string)
    requires Covered(s, db)
    ensures Covered(Ready(s, run), db)
  {
    var k :| 0 <= k < |s.pools| && Complete(s.pools[k], db);
    assert Complete(Ready(s, run).pools[k], db);
  }

  // ---- Over all sequences ----

  lemma {:induction false} AlwaysSound(s: State, steps: seq<Step>)
    requires Initial(s) && MayAllHappen(s, steps)
    ensures Inv(AfterAll(s, steps))
  {
    if steps != [] {
      var init := steps[..|steps| - 1];
      PrefixMayHappen(s, steps, |steps| - 1);
      AlwaysSound(s, init);
      AfterOneMore(s, steps);
      match steps[|steps| - 1]
      case Ran(run) => RunKeeps(AfterAll(s, init), run);
      case Happens(event) => EventsKeep(AfterAll(s, init), [event], NO_RUN);
    }
  }

  lemma {:induction false} PrefixMayHappen(s: State, steps: seq<Step>, n: nat)
    requires MayAllHappen(s, steps) && n <= |steps|
    ensures MayAllHappen(s, steps[..n])
    ensures n < |steps| ==> MayHappen(AfterAll(s, steps[..n]), steps[n])
    decreases |steps|
  {
    if n == |steps| {
      assert steps[..n] == steps;
    } else if n < |steps| - 1 {
      assert steps[..|steps| - 1][..n] == steps[..n];
      PrefixMayHappen(s, steps[..|steps| - 1], n);
    }
  }

  /**
   * After any sequence of runs, in the newest pool and in every other but the
   * oldest, each usable level 1 backup stands on the complete level 0 next to
   * it, of a pool its run found within retention. In the oldest of several
   * pools a cut removal can have taken the level 0 away, but no other replaces it.
   */
  lemma Level1sAreRestorable(s: State, steps: seq<Step>, k: nat)
    requires Initial(s) && MayAllHappen(s, steps) && k < |AfterAll(s, steps).pools|
    ensures var pools := AfterAll(s, steps).pools;
      && (k == |pools| - 1 || 0 < k ==> Restorable(pools[k]))
      && forall db: string, stamp: nat | Level1(db, stamp) in pools[k].files && pools[k].files[Level1(db, stamp)].Since? ::
           && pools[k].files[Level1(db, stamp)].cutoff <= pools[k].stamp
           && (Holds(pools[k], db, pools[k].files[Level1(db, stamp)].base) <==> Level0(db) in pools[k].files)
  {
    AlwaysSound(s, steps);
  }

  /**
   * Once a run listing the database succeeded, some pool has a complete level 0
   * of it for as long as the runs list it, whether they succeed or not.
   */
  lemma BackupsStayAvailable(s: State, steps: seq<Step>, success: nat, db: string)
    requires Initial(s) && MayAllHappen(s, steps)
    requires success < |steps| && Succeeds(s, steps, success)
    requires forall k | success <= k < |steps| && steps[k].Ran? :: db in steps[k].run.databases
    ensures Covered(AfterAll(s, steps), db)
  {
    FirstCovers(s, steps, success, db);
    for n := success + 1 to |steps|
      invariant Covered(AfterAll(s, steps[..n]), db)
    {
      SoundBefore(s, steps, n);
      StepKeepsCoverage(AfterAll(s, steps[..n]), steps[n], db);
    }
    assert steps[..|steps|] == steps;
  }

  lemma FirstCovers(s: State, steps: seq<Step>, n: nat, db: string)
    requires Initial(s) && MayAllHappen(s, steps) && n < |steps| && Succeeds(s, steps, n) && db in steps[n].run.databases
    ensures Covered(AfterAll(s, steps[..n + 1]), db)
  {
    SoundBefore(s, steps, n);
    SuccessLeavesOnePool(AfterAll(s, steps[..n]), steps[n].run);
    assert Complete(AfterAll(s, steps[..n + 1]).pools[0], db);
  }

  lemma StepKeepsCoverage(s: State, step: Step, db: string)
    requires Inv(s) && MayHappen(s, step) && (step.Ran? ==> db in step.run.databases) && Covered(s, db)
    ensures Covered(After(s, step), db)
  {
    match step
    case Ran(run) => RunKeepsCoverage(s, run, db);
    case Happens(_) =>
      var k :| 0 <= k < |s.pools| && Complete(s.pools[k], db);
      assert Complete(After(s, step).pools[k], db);
  }

  // ---- The backups themselves ----

  /** No level 1 backup of another time goes or changes. */
  ghost predicate Level1sStay(before: seq<Pool>, after: seq<Pool>, stamp: nat) {
    && |before| == |after|
    && forall k | 0 <= k < |before| :: Level1Stays(before[k], after[k], stamp)
  }

  ghost predicate Level1Stays(before: Pool, after: Pool, stamp: nat) {
    forall db: string, t: nat :: t != stamp && Level1(db, t) in before.files ==>
      Level1(db, t) in after.files && after.files[Level1(db, t)] == before.files[Level1(db, t)]
  }

  lemma TakeKeepsLevel1s(s: State, run: Run, db: string, outcome: Outcome)
    requires s.pools != []
    ensures Level1sStay(s.pools, Take(s, run, db, outcome).0.pools, run.stamp)
  {
  }

  lemma Level1sStayOn(a: seq<Pool>, b: seq<Pool>, c: seq<Pool>, stamp: nat)
    requires Level1sStay(a, b, stamp) && Level1sStay(b, c, stamp)
    ensures Level1sStay(a, c, stamp)
  {
    forall k | 0 <= k < |a| ensures Level1Stays(a[k], c[k], stamp) {
      assert Level1Stays(a[k], b[k], stamp) && Level1Stays(b[k], c[k], stamp);
    }
  }

  lemma {:induction false} BackUpKeepsLevel1s(s: State, run: Run, n: nat)
    requires s.pools != [] && n <= |run.databases|
    ensures Level1sStay(s.pools, BackUp(s, run, n).0.pools, run.stamp)
  {
    if n > 0 {
      BackUpKeepsLevel1s(s, run, n - 1);
      ContinuedKeepsLevel1s(s, run, n - 1);
    }
  }

  lemma ContinuedKeepsLevel1s(s: State, run: Run, n: nat)
    requires s.pools != [] && n < |run.databases|
    requires Level1sStay(s.pools, BackUp(s, run, n).0.pools, run.stamp)
    ensures Level1sStay(s.pools, Continue(s, run, n).0.pools, run.stamp)
  {
    var (before, goesOn) := BackUp(s, run, n);
    if goesOn && n < |run.attempts| {
      var attempt := run.attempts[n];
      var now := before.(databases := Happened(before.databases, attempt.events));
      TakeKeepsLevel1s(now, run, run.databases[n], attempt.outcome);
      Level1sStayOn(s.pools, before.pools, Continue(s, run, n).0.pools, run.stamp);
    }
  }

  /** Some pool has the run's backup of the database, and what it is based on. */
  ghost predicate HasBackup(s: State, run: Run, firstId: nat, db: string) {
    exists k | 0 <= k < |s.pools| :: BackedUp(s.pools[k], run, firstId, db)
  }

  lemma BackUpKeepsBackup(s: State, run: Run, now: State, goesOn: bool, earlier: Run, firstId: nat, db: string)
    requires GoodSoFar(s, now, goesOn, run, |run.databases|) && Level1sStay(s.pools, now.pools, run.stamp)
    requires FilesUnused(s.pools, run.stamp)
    requires !Hidden(db) && db in run.databases && HasBackup(s, earlier, firstId, db)
    ensures HasBackup(now, earlier, firstId, db)
    ensures goesOn ==> now.pools != [] && BackedUp(now.pools[|now.pools| - 1], run, s.nextId, db)
  {
    var k :| 0 <= k < |s.pools| && BackedUp(s.pools[k], earlier, firstId, db);
    assert Level0Stays(s.pools[k], now.pools[k]) && Level1Stays(s.pools[k], now.pools[k], run.stamp);
    BackedUpStays(s.pools[k], now.pools[k], earlier, firstId, firstId, db);
  }

  lemma GoodBackUp(s: State, run: Run, now: State, goesOn: bool)
    requires Inv(s) && AllBound(s, run) && NoDuplicates(run.databases)
    requires (now, goesOn) == BackUp(s, run, |run.databases|)
    ensures GoodSoFar(s, now, goesOn, run, |run.databases|) && Level1sStay(s.pools, now.pools, run.stamp)
  {
    BackUpKeeps(s, run, |run.databases|);
    BackUpKeepsLevel1s(s, run, |run.databases|);
  }

  lemma SweepLeavesBackup(s: State, run: Run, swept: nat, removed: set<File>, firstId: nat, db: string)
    requires s.pools != [] && BackedUp(s.pools[|s.pools| - 1], run, firstId, db)
    ensures HasBackup(s.(pools := Sweep(s.pools, swept, removed)), run, firstId, db)
  {
    var pools := Sweep(s.pools, swept, removed);
    assert pools[|pools| - 1] == s.pools[|s.pools| - 1];
  }

  /** A run leaves the earlier run's backup of a database it lists, or its own. */
  lemma RunKeepsBackup(s: State, run: Run, earlier: Run, firstId: nat, db: string)
    requires Inv(s) && MayHappen(s, Ran(run)) && db in run.databases && !Hidden(db)
    requires HasBackup(s, earlier, firstId, db)
    ensures HasBackup(Execute(s, run).0, earlier, firstId, db) || HasBackup(Execute(s, run).0, run, s.nextId, db)
  {
    ReadyKeeps(s, run);
    ReadyKeepsBackup(s, run, earlier, firstId, db);
    var ready := Ready(s, run);
    var (backedUp, goesOn) := BackUp(ready, run, |run.databases|);
    GoodBackUp(ready, run, backedUp, goesOn);
    BackUpKeepsBackup(ready, run, backedUp, goesOn, earlier, firstId, db);
    if goesOn {
      SweepLeavesBackup(backedUp, run, run.swept, run.removed, s.nextId, db);
    }
  }

  lemma ReadyKeepsBackup(s: State, run: Run, earlier: Run, firstId: nat, db: string)
    requires MayHappen(s, Ran(run)) && HasBackup(s, earlier, firstId, db)
    ensures HasBackup(Ready(s, run), earlier, firstId, db)
    ensures FilesUnused(Ready(s, run).pools, run.stamp)
  {
    var k :| 0 <= k < |s.pools| && BackedUp(s.pools[k], earlier, firstId, db);
    assert BackedUp(Ready(s, run).pools[k], earlier, firstId, db);
  }

  /**
   * From a success on, at every moment and wherever the runs in between fail or
   * are killed, some pool has the backup of a database that this run or a later
   * one took, with the level 0 it is based on (see PoolLimits for the hidden).
   */
  lemma LastBackupStays(s: State, steps: seq<Step>, success: nat, db: string)
    requires Initial(s) && MayAllHappen(s, steps) && !Hidden(db)
    requires success < |steps| && Succeeds(s, steps, success)
    requires forall k | success <= k < |steps| && steps[k].Ran? :: db in steps[k].run.databases
    ensures HasBackupSince(s, steps, success, |steps|, db)
  {
    FirstBackup(s, steps, success, db);
    LaterBackups(s, steps, success, |steps|, db);
  }

  /** The last run up to the n-th step whose backup is still to be had, from the first on. */
  ghost function LastBackup(s: State, steps: seq<Step>, first: nat, n: nat, db: string): (k: nat)
    requires first < n <= |steps| && steps[first].Ran?
    ensures first <= k < n && steps[k].Ran?
  {
    if n == first + 1 then first
    else
      var before := LastBackup(s, steps, first, n - 1, db);
      if steps[n - 1].Ran? && !HasBackupOf(s, steps, before, n, db) then n - 1 else before
  }

  lemma {:induction false} LaterBackups(s: State, steps: seq<Step>, first: nat, n: nat, db: string)
    requires Initial(s) && MayAllHappen(s, steps) && first < n <= |steps| && steps[first].Ran? && !Hidden(db)
    requires ListedSince(steps, first, db) && HasBackupOf(s, steps, first, first + 1, db)
    ensures HasBackupOf(s, steps, LastBackup(s, steps, first, n, db), n, db)
  {
    if n > first + 1 {
      LaterBackups(s, steps, first, n - 1, db);
      NextBackup(s, steps, LastBackup(s, steps, first, n - 1, db), n - 1, db);
    }
  }

  ghost predicate ListedSince(steps: seq<Step>, first: nat, db: string) {
    forall k | first <= k < |steps| && steps[k].Ran? :: db in steps[k].run.databases
  }

  /** After n steps, some pool has the backup that the first or a later one of them took. */
  ghost predicate HasBackupSince(s: State, steps: seq<Step>, first: nat, n: nat, db: string)
    requires n <= |steps|
  {
    exists k | first <= k < n && steps[k].Ran? :: HasBackupOf(s, steps, k, n, db)
  }

  /** The n-th step is a run that succeeds. */
  ghost predicate Succeeds(s: State, steps: seq<Step>, n: nat)
    requires n < |steps|
  {
    steps[n].Ran? && Execute(AfterAll(s, steps[..n]), steps[n].run).1
  }

  /** After n steps, some pool has the backup the earlier of them took. */
  ghost predicate HasBackupOf(s: State, steps: seq<Step>, earlier: nat, n: nat, db: string)
    requires earlier < n <= |steps| && steps[earlier].Ran?
  {
    HasBackup(AfterAll(s, steps[..n]), steps[earlier].run, AfterAll(s, steps[..earlier]).nextId, db)
  }

  lemma FirstBackup(s: State, steps: seq<Step>, n: nat, db: string)
    requires Initial(s) && MayAllHappen(s, steps) && n < |steps| && Succeeds(s, steps, n) && db in steps[n].run.databases
    ensures HasBackupOf(s, steps, n, n + 1, db)
  {
    SoundBefore(s, steps, n);
    SuccessHasBackup(AfterAll(s, steps[..n]), steps[n].run, db);
  }

  lemma NextBackup(s: State, steps: seq<Step>, last: nat, n: nat, db: string)
    requires Initial(s) && MayAllHappen(s, steps) && last < n < |steps| && steps[last].Ran? && !Hidden(db)
    requires steps[n].Ran? ==> db in steps[n].run.databases
    requires HasBackupOf(s, steps, last, n, db)
    ensures HasBackupOf(s, steps, last, n + 1, db) || (steps[n].Ran? && HasBackupOf(s, steps, n, n + 1, db))
  {
    SoundBefore(s, steps, n);
    StepKeepsBackup(AfterAll(s, steps[..n]), steps[n], steps[last].run, AfterAll(s, steps[..last]).nextId, db);
  }

  /** The state before the n-th step, and the one after it. */
  lemma SoundBefore(s: State, steps: seq<Step>, n: nat)
    requires Initial(s) && MayAllHappen(s, steps) && n < |steps|
    ensures Inv(AfterAll(s, steps[..n])) && MayHappen(AfterAll(s, steps[..n]), steps[n])
    ensures AfterAll(s, steps[..n + 1]) == After(AfterAll(s, steps[..n]), steps[n])
  {
    PrefixMayHappen(s, steps, n);
    AlwaysSound(s, steps[..n]);
    assert steps[..n + 1][..n] == steps[..n];
    AfterOneMore(s, steps[..n + 1]);
  }

  lemma SuccessHasBackup(s: State, run: Run, db: string)
    requires Inv(s) && MayHappen(s, Ran(run)) && Execute(s, run).1 && db in run.databases
    ensures HasBackup(After(s, Ran(run)), run, s.nextId, db)
  {
    SuccessLeavesOnePool(s, run);
    assert BackedUp(Execute(s, run).0.pools[0], run, s.nextId, db);
  }

  lemma StepKeepsBackup(s: State, step: Step, earlier: Run, firstId: nat, db: string)
    requires Inv(s) && MayHappen(s, step) && (step.Ran? ==> db in step.run.databases) && !Hidden(db)
    requires HasBackup(s, earlier, firstId, db)
    ensures HasBackup(After(s, step), earlier, firstId, db)
      || (step.Ran? && HasBackup(After(s, step), step.run, s.nextId, db))
  {
    match step
    case Ran(run) => RunKeepsBackup(s, run, earlier, firstId, db);
    case Happens(_) =>
  }
}
