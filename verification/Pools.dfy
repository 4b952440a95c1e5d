/**
 * incrementalBackupScript: pools of one level 0 and any number of level 1
 * nbackup files per database. The server bases a level 1 backup on the latest
 * level 0 in the database's own backup history, whatever file the script has
 * in mind. A run may fail or be killed at any command; every state in the
 * middle of a run is the end of the same run killed there.
 */
module Pools {
  import opened Wrappers
  import opened Sequences

  // ---- State ----

  /** A backup file in a pool: "<db>-level0.nbk" or "<db>-level1-<stamp>.nbk", compressed or not. */
  datatype File = Level0(db: string) | Level1(db: string, stamp: nat)

  /**
   * What is in it: nothing usable, the level 0 backup numbered id, or a level 1
   * backup based on one, taken by a run whose retention reached back to cutoff.
   */
  datatype Content = Broken | Full(id: nat) | Since(base: nat, cutoff: nat)

  /** "pool-<stamp>"; stamps are points in time, which is what their fixed-width names compare as. */
  datatype Pool = Pool(stamp: nat, files: map<File, Content>)

  /** A row of RDB$BACKUP_HISTORY: a level 0 with the pool of its file, or a level 1. */
  datatype Row = Zero(pool: nat, id: nat) | One

  /** The pools in the order a glob lists them, and the history of every database, oldest row first. */
  datatype State = State(pools: seq<Pool>, databases: map<string, seq<Row>>, nextId: nat, clock: nat)

  function LastZero(history: seq<Row>): (last: Option<Row>)
    ensures last.Some? ==> last.value.Zero?
  {
    if history == [] then None
    else if history[|history| - 1].Zero? then Some(history[|history| - 1])
    else LastZero(history[..|history| - 1])
  }

  /** Created, recreated or restored by gbak, a database starts without history. */
  datatype Event = Begins(db: string) | Dropped(db: string)

  function Happened(databases: map<string, seq<Row>>, events: seq<Event>): map<string, seq<Row>> {
    if events == [] then databases
    else
      var before := Happened(databases, events[..|events| - 1]);
      match events[|events| - 1]
      case Begins(db) => before[db := []]
      case Dropped(db) => before - {db}
  }

  // ---- One nbackup call ----

  /**
   * How a call goes: done, refused, stopped leaving a broken file, or done by
   * the server although the run is no longer there to see it.
   */
  datatype Outcome = Works | Refused | Breaks | WorksUnseen

  /** A call, and what happens to databases just before it. */
  datatype Attempt = Attempt(events: seq<Event>, outcome: Outcome)

  function Write(s: State, file: File, content: Content): State
    requires s.pools != []
  {
    var last := |s.pools| - 1;
    s.(pools := s.pools[last := s.pools[last].(files := s.pools[last].files[file := content])])
  }

  /** Every call writes into the newest pool. prune is -nbk_clean_history -nbk_keep_rows 1. */
  function TakeLevel0(s: State, db: string, prune: bool): State
    requires s.pools != [] && db in s.databases
  {
    var row := Zero(s.pools[|s.pools| - 1].stamp, s.nextId);
    var history := if prune then [row] else s.databases[db] + [row];
    Write(s, Level0(db), Full(s.nextId)).(databases := s.databases[db := history], nextId := s.nextId + 1)
  }

  function TakeLevel1(s: State, db: string, stamp: nat, cutoff: nat): State
    requires s.pools != [] && db in s.databases && LastZero(s.databases[db]).Some?
  {
    Write(s, Level1(db, stamp), Since(LastZero(s.databases[db]).value.id, cutoff))
      .(databases := s.databases[db := s.databases[db] + [One]])
  }

  datatype Run = Run(
    databases: seq<string>,
    stamp: nat,
    cutoff: nat,
    prune: bool,
    unanswered: set<string>, // the databases whose history isql fails to query, leaving $LAST empty
    startsPool: bool,        // whether mkdir works, should a pool be started
    attempts: seq<Attempt>,  // one for each database reached
    swept: nat,              // how many old pools are removed whole
    removed: set<File>)      // and which files of the next one are

  /** Whether the script finds the database's level 0 in the newest pool. */
  predicate HasLevel0(s: State, db: string) {
    s.pools != [] && Level0(db) in s.pools[|s.pools| - 1].files
  }

  /** $LAST is the level 0 path of the newest pool. */
  predicate LastIsOwn(s: State, db: string) {
    && s.pools != [] && db in s.databases
    && LastZero(s.databases[db]).Some?
    && LastZero(s.databases[db]).value.pool == s.pools[|s.pools| - 1].stamp
  }

  /** The database makes the run start a new pool. */
  predicate Mismatched(s: State, run: Run, db: string) {
    HasLevel0(s, db) && (db in run.unanswered || !LastIsOwn(s, db))
  }

  /** $NEW: no pool yet, an expired one, or a level 0 that is not, as far as isql tells, the database's latest. */
  predicate NeedsPool(s: State, run: Run) {
    || s.pools == []
    || s.pools[|s.pools| - 1].stamp < run.cutoff
    || exists k :: 0 <= k < |run.databases| && Mismatched(s, run, run.databases[k])
  }

  /** A level 1 backup where the newest pool has a level 0, a level 0 otherwise. */
  function Take(s: State, run: Run, db: string, outcome: Outcome): (State, bool)
    requires s.pools != []
  {
    var level1 := HasLevel0(s, db);
    var possible := db in s.databases && (level1 ==> LastZero(s.databases[db]).Some?);
    if outcome == Breaks then
      (Write(s, if level1 then Level1(db, run.stamp) else Level0(db), Broken), false)
    else if outcome == Refused || !possible then (s, false)
    else
      (if level1 then TakeLevel1(s, db, run.stamp, run.cutoff) else TakeLevel0(s, db, run.prune), outcome == Works)
  }

  /** One round of the backup loop: the state it leaves and whether the run goes on. */
  function BackUpOne(s: State, run: Run, db: string, attempt: Attempt): (State, bool)
    requires s.pools != []
  {
    Take(s.(databases := Happened(s.databases, attempt.events)), run, db, attempt.outcome)
  }

  lemma BackUpOneKeepsStamps(s: State, run: Run, db: string, attempt: Attempt)
    requires s.pools != []
    ensures var s' := BackUpOne(s, run, db, attempt).0;
      && |s'.pools| == |s.pools|
      && (forall k :: 0 <= k < |s.pools| ==> s'.pools[k].stamp == s.pools[k].stamp)
      && (forall k :: 0 <= k < |s.pools| - 1 ==> s'.pools[k] == s.pools[k])
  {
  }

  /** The backup loop over the first n databases. */
  function BackUp(s: State, run: Run, n: nat): (r: (State, bool))
    requires s.pools != [] && n <= |run.databases|
    ensures |r.0.pools| == |s.pools|
    decreases n, 0
  {
    if n == 0 then (s, true) else Continue(s, run, n - 1)
  }

  /** The round after the first n, if there is one. */
  function Continue(s: State, run: Run, n: nat): (r: (State, bool))
    requires s.pools != [] && n < |run.databases|
    ensures |r.0.pools| == |s.pools|
    decreases n, 1
  {
    var (before, goesOn) := BackUp(s, run, n);
    if !goesOn || n >= |run.attempts| then (before, false)
    else BackUpOne(before, run, run.databases[n], run.attempts[n])
  }

  /** The last loop, cut after removing some pools whole and the next in part. */
  function Sweep(pools: seq<Pool>, swept: nat, removed: set<File>): seq<Pool>
    requires pools != []
  {
    if swept >= |pools| - 1 then pools[|pools| - 1..]
    else [pools[swept].(files := pools[swept].files - removed)] + pools[swept + 1..]
  }

  function StartPool(s: State, stamp: nat): State {
    s.(pools := s.pools + [Pool(stamp, map[])])
  }

  /** The whole script: the state it leaves and whether it succeeded. */
  function Execute(s: State, run: Run): (State, bool) {
    var now := s.(clock := run.stamp);
    if NeedsPool(now, run) && !run.startsPool then (now, false)
    else
      var ready := if NeedsPool(now, run) then StartPool(now, run.stamp) else now;
      var (backedUp, goesOn) := BackUp(ready, run, |run.databases|);
      if !goesOn then (backedUp, false)
      else (backedUp.(pools := Sweep(backedUp.pools, run.swept, run.removed)), run.swept >= |backedUp.pools| - 1)
  }

  // ---- The script itself ----

  class BackupVolume {
    var pools: seq<Pool>
    var databases: map<string, seq<Row>>
    var nextId: nat
    var clock: nat

    function Value(): State
      reads this
    {
      State(pools, databases, nextId, clock)
    }

    /** The two loops that settle $NEW. */
    method SettleNew(run: Run) returns (startsNewPool: bool)
      requires NoDuplicates(run.databases)
      ensures startsNewPool == NeedsPool(Value(), run)
    {
      var pool: Option<Pool> := None;
      for k := 0 to |pools|
        invariant pool == if k == 0 then None else Some(pools[k - 1])
      {
        pool := Some(pools[k]);
      }
      startsNewPool := pool.None? || pool.value.stamp < run.cutoff;
      for k := 0 to |run.databases|
        invariant startsNewPool ==
          (|| pools == [] || pools[|pools| - 1].stamp < run.cutoff
           || exists j :: 0 <= j < k && Mismatched(Value(), run, run.databases[j]))
      {
        var db := run.databases[k];
        if !startsNewPool && HasLevel0(Value(), db) && (db in run.unanswered || !LastIsOwn(Value(), db)) {
          startsNewPool := true;
        }
      }
    }

    method Become(s: State)
      modifies this
      ensures Value() == s
    {
      pools, databases, nextId, clock := s.pools, s.databases, s.nextId, s.clock;
    }

    /** The loop taking the backups; under set -e the first call that fails ends it. */
    method BackUpAll(run: Run) returns (goesOn: bool)
      requires pools != []
      modifies this
      ensures (Value(), goesOn) == BackUp(old(Value()), run, |run.databases|)
    {
      goesOn := true;
      var n := 0;
      while n < |run.databases|
        invariant n <= |run.databases| && pools != []
        invariant (Value(), goesOn) == BackUp(old(Value()), run, n)
      {
        if goesOn && n >= |run.attempts| {
          goesOn := false;
        } else if goesOn {
          var (s, works) := BackUpOne(Value(), run, run.databases[n], run.attempts[n]);
          BackUpOneKeepsStamps(Value(), run, run.databases[n], run.attempts[n]);
          Become(s);
          goesOn := works;
        }
        n := n + 1;
      }
    }

    /** The loop deleting every other pool, oldest first. */
    method DeleteOldPools(run: Run) returns (finished: bool)
      requires pools != []
      modifies this
      ensures Value() == old(Value()).(pools := Sweep(old(pools), run.swept, run.removed))
      ensures finished == (run.swept >= |old(pools)| - 1)
    {
      var n := 0;
      while n < run.swept && 1 < |pools|
        invariant pools != [] && n <= run.swept && n <= |old(pools)| - 1
        invariant Value() == old(Value()).(pools := old(pools)[n..])
      {
        pools := pools[1..];
        n := n + 1;
      }
      finished := |pools| == 1;
      if !finished {
        pools := [pools[0].(files := pools[0].files - run.removed)] + pools[1..];
      }
    }

    method IncrementalBackup(run: Run) returns (ok: bool)
      requires NoDuplicates(run.databases)
      modifies this
      ensures (Value(), ok) == Execute(old(Value()), run)
    {
      clock := run.stamp;
      var startsNewPool := SettleNew(run);
      if startsNewPool {
        if !run.startsPool {
          return false;
        }
        pools := pools + [Pool(run.stamp, map[])];
      }
      ok := BackUpAll(run);
      if ok {
        ok := DeleteOldPools(run);
      }
    }
  }
}
