/**
 * Which pool a run backs up into, and which level each database gets there:
 * exactly when a new pool is started, and what a run that succeeds has taken.
 */
module PoolChoice {
  import opened Sequences
  import opened Wrappers
  import opened Pools
  import opened PoolSafety

  /** The latest level 0 in the history is the one in the pool of this time. */
  predicate IsLatest(history: seq<Row>, pool: nat) {
    exists k | 0 <= k < |history| ::
      history[k].Zero? && history[k].pool == pool && forall j | k < j < |history| :: history[j] == One
  }

  lemma {:induction false} LatestIsLastZero(history: seq<Row>, pool: nat)
    ensures IsLatest(history, pool) <==> LastZero(history).Some? && LastZero(history).value.pool == pool
  {
    if history != [] {
      var n := |history| - 1;
      if history[n].Zero? {
        if history[n].pool == pool {
          assert IsLatest(history, pool);
        }
      } else {
        var init := history[..n];
        LatestIsLastZero(init, pool);
        if IsLatest(history, pool) {
          var k :| 0 <= k < |history| && history[k].Zero? && history[k].pool == pool
            && forall j | k < j < |history| :: history[j] == One;
          assert init[k] == history[k];
        }
        if IsLatest(init, pool) {
          var k :| 0 <= k < n && init[k].Zero? && init[k].pool == pool && forall j | k < j < n :: init[j] == One;
          assert history[k] == init[k];
          assert forall j | k < j < n :: history[j] == init[j];
        }
      }
    }
  }

  /**
   * The run can go on with the newest pool: it is within retention, and of every
   * listed database that has a level 0 there, the server answers that this is
   * its latest.
   */
  predicate GoesOnWith(s: State, run: Run) {
    && s.pools != []
    && var pool := s.pools[|s.pools| - 1];
       && run.cutoff <= pool.stamp
       && forall k | 0 <= k < |run.databases| && Level0(run.databases[k]) in pool.files ::
            && run.databases[k] !in run.unanswered
            && run.databases[k] in s.databases
            && IsLatest(s.databases[run.databases[k]], pool.stamp)
  }

  lemma GoesOnUnlessNeeded(s: State, run: Run)
    ensures GoesOnWith(s, run) <==> !NeedsPool(s.(clock := run.stamp), run)
  {
    var now := s.(clock := run.stamp);
    if s.pools != [] {
      var stamp := s.pools[|s.pools| - 1].stamp;
      forall k | 0 <= k < |run.databases|
        ensures Mismatched(now, run, run.databases[k]) <==>
          && Level0(run.databases[k]) in s.pools[|s.pools| - 1].files
          && !(&& run.databases[k] !in run.unanswered
               && run.databases[k] in s.databases
               && IsLatest(s.databases[run.databases[k]], stamp))
      {
        if run.databases[k] in s.databases {
          LatestIsLastZero(s.databases[run.databases[k]], stamp);
        }
      }
    }
  }

  function StampsOf(pools: seq<Pool>): set<nat> {
    set pool <- pools :: pool.stamp
  }

  /** The same times, the newest last. */
  predicate SameStamps(pools: seq<Pool>, pools': seq<Pool>) {
    |pools'| == |pools| && forall k | 0 <= k < |pools| :: pools'[k].stamp == pools[k].stamp
  }

  lemma {:induction false} BackUpKeepsStamps(s: State, run: Run, n: nat)
    requires s.pools != [] && n <= |run.databases|
    ensures SameStamps(s.pools, BackUp(s, run, n).0.pools)
  {
    if n > 0 {
      BackUpKeepsStamps(s, run, n - 1);
      ContinuedKeepsStamps(s, run, n - 1);
    }
  }

  lemma ContinuedKeepsStamps(s: State, run: Run, n: nat)
    requires s.pools != [] && n < |run.databases| && SameStamps(s.pools, BackUp(s, run, n).0.pools)
    ensures SameStamps(s.pools, Continue(s, run, n).0.pools)
  {
    var before := BackUp(s, run, n).0;
    if BackUp(s, run, n).1 && n < |run.attempts| {
      BackUpOneKeepsStamps(before, run, run.databases[n], run.attempts[n]);
    }
  }

  lemma SweepKeepsStamps(pools: seq<Pool>, swept: nat, removed: set<File>)
    requires pools != []
    ensures var left := Sweep(pools, swept, removed);
      left != [] && left[|left| - 1].stamp == pools[|pools| - 1].stamp && StampsOf(left) <= StampsOf(pools)
  {
    var left := Sweep(pools, swept, removed);
    forall k | 0 <= k < |left| ensures left[k].stamp in StampsOf(pools) {
      assert left[k].stamp == pools[|pools| - |left| + k].stamp;
    }
  }

  lemma SameStampsSet(pools: seq<Pool>, pools': seq<Pool>)
    requires SameStamps(pools, pools')
    ensures StampsOf(pools') == StampsOf(pools)
  {
    forall k | 0 <= k < |pools| ensures pools[k].stamp in StampsOf(pools') && pools'[k].stamp in StampsOf(pools) {
      assert pools'[k].stamp == pools[k].stamp;
    }
  }

  /** Every pool left has the time of one that was there before the backups, the newest that of the newest. */
  lemma StampsLeft(s: State, run: Run)
    requires Ready(s, run).pools != [] && (NeedsPool(s.(clock := run.stamp), run) ==> run.startsPool)
    ensures var pools, ready := Execute(s, run).0.pools, Ready(s, run).pools;
      pools != [] && pools[|pools| - 1].stamp == ready[|ready| - 1].stamp && StampsOf(pools) <= StampsOf(ready)
  {
    var ready := Ready(s, run);
    BackUpKeepsStamps(ready, run, |run.databases|);
    var (backedUp, goesOn) := BackUp(ready, run, |run.databases|);
    SameStampsSet(ready.pools, backedUp.pools);
    SweepKeepsStamps(backedUp.pools, run.swept, run.removed);
  }

  /**
   * A run goes on with the newest pool exactly when it can; otherwise it starts
   * one of its own time or, where it cannot, fails having done nothing.
   */
  lemma StartsAPoolExactly(s: State, run: Run)
    requires MayHappen(s, Ran(run))
    ensures GoesOnWith(s, run) ==> run.stamp !in StampsOf(Execute(s, run).0.pools)
    ensures GoesOnWith(s, run) ==>
      var pools := Execute(s, run).0.pools; pools != [] && pools[|pools| - 1].stamp == s.pools[|s.pools| - 1].stamp
    ensures !GoesOnWith(s, run) && run.startsPool ==>
      var pools := Execute(s, run).0.pools; pools != [] && pools[|pools| - 1].stamp == run.stamp
    ensures !GoesOnWith(s, run) && !run.startsPool ==> Execute(s, run) == (s.(clock := run.stamp), false)
  {
    GoesOnUnlessNeeded(s, run);
    if GoesOnWith(s, run) || run.startsPool {
      StampsLeft(s, run);
    }
  }

  // ---- Success ----

  /** Nothing stands in the way of backing up the database into the newest pool. */
  predicate CanBackUp(s: State, db: string) {
    db in s.databases && (HasLevel0(s, db) ==> LastZero(s.databases[db]).Some?)
  }

  predicate CanBackUpAll(s: State, run: Run) {
    forall k | 0 <= k < |run.databases| :: CanBackUp(s, run.databases[k])
  }

  lemma LastZeroNext(history: seq<Row>, row: Row)
    ensures LastZero(history + [row]) == if row.Zero? then Some(row) else LastZero(history)
  {
    assert (history + [row])[..|history|] == history;
  }

  lemma BackUpOneWorks(s: State, run: Run, n: nat)
    requires s.pools != [] && n < |run.databases| && CanBackUpAll(s, run)
    ensures var (s', ok) := BackUpOne(s, run, run.databases[n], Attempt([], Works)); ok && CanBackUpAll(s', run)
  {
    var db := run.databases[n];
    assert CanBackUp(s, db);
    LastZeroNext(s.databases[db], Zero(s.pools[|s.pools| - 1].stamp, s.nextId));
    LastZeroNext([], Zero(s.pools[|s.pools| - 1].stamp, s.nextId));
    LastZeroNext(s.databases[db], One);
    var s' := BackUpOne(s, run, db, Attempt([], Works)).0;
    forall k | 0 <= k < |run.databases| ensures CanBackUp(s', run.databases[k]) {
      assert CanBackUp(s, run.databases[k]);
    }
  }

  lemma {:induction false} BackUpWorks(s: State, run: Run, n: nat)
    requires s.pools != [] && n <= |run.databases| <= |run.attempts| && CanBackUpAll(s, run)
    requires forall k | 0 <= k < n :: run.attempts[k] == Attempt([], Works)
    ensures var (s', ok) := BackUp(s, run, n); ok && CanBackUpAll(s', run)
  {
    if n > 0 {
      BackUpWorks(s, run, n - 1);
      ContinuedWorks(s, run, n - 1);
    }
  }

  lemma ContinuedWorks(s: State, run: Run, n: nat)
    requires s.pools != [] && n < |run.databases| <= |run.attempts| && run.attempts[n] == Attempt([], Works)
    requires BackUp(s, run, n).1 && CanBackUpAll(BackUp(s, run, n).0, run)
    ensures var (s', ok) := Continue(s, run, n); ok && CanBackUpAll(s', run)
  {
    BackUpOneWorks(BackUp(s, run, n).0, run, n);
  }

  /** A run over databases that are all there succeeds if every one of its commands works. */
  lemma UndisturbedRunSucceeds(s: State, run: Run)
    requires forall k | 0 <= k < |run.databases| :: run.databases[k] in s.databases
    requires run.startsPool && |run.databases| <= |run.attempts| && |s.pools| <= run.swept
    requires forall k | 0 <= k < |run.databases| :: run.attempts[k] == Attempt([], Works)
    ensures Execute(s, run).1
  {
    var now := s.(clock := run.stamp);
    var ready := Ready(s, run);
    GoesOnUnlessNeeded(s, run);
    forall k | 0 <= k < |run.databases| ensures CanBackUp(ready, run.databases[k]) {
      if !NeedsPool(now, run) && HasLevel0(now, run.databases[k]) {
        assert !Mismatched(now, run, run.databases[k]);
      }
    }
    BackUpWorks(ready, run, |run.databases|);
    BackUpKeepsStamps(ready, run, |run.databases|);
  }

  // ---- Levels ----

  /** What the run has taken of a database into a pool that held these files: a level 1, or the level 0 it lacked. */
  predicate Took(before: map<File, Content>, after: map<File, Content>, run: Run, firstId: nat, db: string) {
    if Level0(db) in before then
      && Level0(db) in after && after[Level0(db)] == before[Level0(db)]
      && Level1(db, run.stamp) in after && after[Level1(db, run.stamp)].Since?
    else
      && Level0(db) in after && after[Level0(db)].Full? && firstId <= after[Level0(db)].id
      && SameFile(before, after, Level1(db, run.stamp))
  }

  predicate SameFile(before: map<File, Content>, after: map<File, Content>, file: File) {
    (file in before <==> file in after) && (file in before ==> after[file] == before[file])
  }

  predicate Untouched(before: map<File, Content>, after: map<File, Content>, run: Run, db: string) {
    SameFile(before, after, Level0(db)) && SameFile(before, after, Level1(db, run.stamp))
  }

  function NewestFiles(s: State): map<File, Content>
    requires s.pools != []
  {
    s.pools[|s.pools| - 1].files
  }

  lemma TakesALevel(s: State, run: Run, db: string, attempt: Attempt)
    requires s.pools != []
    ensures var (s', goesOn) := BackUpOne(s, run, db, attempt);
      && s.nextId <= s'.nextId
      && (goesOn ==> Took(NewestFiles(s), NewestFiles(s'), run, s.nextId, db))
      && forall other: string | other != db :: Untouched(NewestFiles(s), NewestFiles(s'), run, other)
  {
  }

  /** The first n databases have their backups, the others are as they were. */
  predicate TookSoFar(before: map<File, Content>, after: map<File, Content>, run: Run, firstId: nat, n: nat) {
    forall k | 0 <= k < |run.databases| ::
      if k < n then Took(before, after, run, firstId, run.databases[k]) else Untouched(before, after, run, run.databases[k])
  }

  lemma {:induction false} BackUpTakes(s: State, run: Run, n: nat)
    requires s.pools != [] && n <= |run.databases| && NoDuplicates(run.databases)
    ensures s.nextId <= BackUp(s, run, n).0.nextId
    ensures BackUp(s, run, n).1 ==> TookSoFar(NewestFiles(s), NewestFiles(BackUp(s, run, n).0), run, s.nextId, n)
  {
    if n > 0 {
      BackUpTakes(s, run, n - 1);
      ContinuedTakes(s, run, n - 1);
    }
  }

  lemma ContinuedTakes(s: State, run: Run, n: nat)
    requires s.pools != [] && n < |run.databases| && NoDuplicates(run.databases)
    requires s.nextId <= BackUp(s, run, n).0.nextId
    requires BackUp(s, run, n).1 ==> TookSoFar(NewestFiles(s), NewestFiles(BackUp(s, run, n).0), run, s.nextId, n)
    ensures s.nextId <= Continue(s, run, n).0.nextId
    ensures Continue(s, run, n).1 ==>
      TookSoFar(NewestFiles(s), NewestFiles(Continue(s, run, n).0), run, s.nextId, n + 1)
  {
    var (before, goesOn) := BackUp(s, run, n);
    if goesOn && n < |run.attempts| {
      TakesALevel(before, run, run.databases[n], run.attempts[n]);
      var (after, goesOn') := BackUpOne(before, run, run.databases[n], run.attempts[n]);
      if goesOn' {
        TookOneMore(NewestFiles(s), NewestFiles(before), NewestFiles(after), run, s.nextId, before.nextId, n);
      }
    }
  }

  lemma TookOneMore(f0: map<File, Content>, f1: map<File, Content>, f2: map<File, Content>, run: Run, firstId: nat, id: nat, n: nat)
    requires n < |run.databases| && NoDuplicates(run.databases) && firstId <= id
    requires TookSoFar(f0, f1, run, firstId, n)
    requires Took(f1, f2, run, id, run.databases[n])
    requires forall other: string | other != run.databases[n] :: Untouched(f1, f2, run, other)
    ensures TookSoFar(f0, f2, run, firstId, n + 1)
  {
    forall k | 0 <= k < |run.databases|
      ensures if k < n + 1 then Took(f0, f2, run, firstId, run.databases[k]) else Untouched(f0, f2, run, run.databases[k])
    {
      if k != n {
        assert Untouched(f1, f2, run, run.databases[k]);
      } else {
        assert Untouched(f0, f1, run, run.databases[k]);
      }
    }
  }

  /**
   * A run that succeeds and goes on with the newest pool leaves it alone, with a
   * level 1 of every database that had a level 0 there, and a level 0 of every
   * other; one that starts a pool leaves that, with a level 0 of each.
   */
  lemma LevelsTaken(s: State, run: Run)
    requires MayHappen(s, Ran(run)) && Execute(s, run).1
    ensures var pools := Execute(s, run).0.pools;
      && |pools| == 1
      && pools[0].stamp == (if GoesOnWith(s, run) then s.pools[|s.pools| - 1].stamp else run.stamp)
      && forall k | 0 <= k < |run.databases| ::
           Took(if GoesOnWith(s, run) then s.pools[|s.pools| - 1].files else map[], pools[0].files, run, s.nextId, run.databases[k])
  {
    GoesOnUnlessNeeded(s, run);
    StartsAPoolExactly(s, run);
    BackUpTakes(Ready(s, run), run, |run.databases|);
  }
}
