/**
 * Cutting the backup history at every level 0 changes nothing a run decides or
 * writes: runs that cut it and runs that do not stay in step for ever.
 */
module PoolHistory {
  import opened Pools
  import opened PoolSafety

  /** The history from its latest level 0 on: one row and the level 1 rows since. */
  function Cut(history: seq<Row>): seq<Row> {
    if history == [] then []
    else if history[|history| - 1].Zero? then [history[|history| - 1]]
    else Cut(history[..|history| - 1]) + [history[|history| - 1]]
  }

  lemma CutAppend(history: seq<Row>, row: Row)
    ensures Cut(history + [row]) == if row.Zero? then [row] else Cut(history) + [row]
  {
    assert (history + [row])[..|history|] == history;
  }

  lemma {:induction false} CutOnce(history: seq<Row>)
    ensures Cut(Cut(history)) == Cut(history)
    ensures forall k | 0 < k < |Cut(history)| :: Cut(history)[k] == One
  {
    if history != [] && !history[|history| - 1].Zero? {
      var init := history[..|history| - 1];
      CutOnce(init);
      CutAppend(Cut(init), history[|history| - 1]);
    }
  }

  lemma {:induction false} CutKeepsTheLatest(history: seq<Row>)
    ensures LastZero(Cut(history)) == LastZero(history)
  {
    if history != [] && !history[|history| - 1].Zero? {
      var init := history[..|history| - 1];
      CutKeepsTheLatest(init);
      LastZeroAfter(Cut(init), history[|history| - 1]);
    }
  }

  /** Equal but for rows before the latest level 0 of each database. */
  ghost predicate InStep(s: State, t: State) {
    && s.pools == t.pools && s.nextId == t.nextId && s.clock == t.clock
    && SameCuts(s.databases, t.databases)
  }

  ghost predicate SameCuts(a: map<string, seq<Row>>, b: map<string, seq<Row>>) {
    && a.Keys == b.Keys
    && forall db <- a :: Cut(a[db]) == Cut(b[db])
  }

  lemma InStepLatest(s: State, t: State, db: string)
    requires InStep(s, t)
    ensures db in s.databases <==> db in t.databases
    ensures db in s.databases ==> LastZero(s.databases[db]) == LastZero(t.databases[db])
    ensures LastIsOwn(s, db) == LastIsOwn(t, db)
  {
    if db in s.databases {
      CutKeepsTheLatest(s.databases[db]);
      CutKeepsTheLatest(t.databases[db]);
    }
  }

  lemma {:induction false} EventsKeepStep(a: map<string, seq<Row>>, b: map<string, seq<Row>>, events: seq<Event>)
    requires SameCuts(a, b)
    ensures SameCuts(Happened(a, events), Happened(b, events))
  {
    if events != [] {
      EventsKeepStep(a, b, events[..|events| - 1]);
    }
  }

  /** Two runs that differ at most in whether they cut the history. */
  predicate SameButPruning(a: Run, b: Run) {
    a == b.(prune := a.prune)
  }

  lemma BackUpOneInStep(s: State, t: State, a: Run, b: Run, db: string, attempt: Attempt)
    requires InStep(s, t) && SameButPruning(a, b) && s.pools != []
    ensures InStep(BackUpOne(s, a, db, attempt).0, BackUpOne(t, b, db, attempt).0)
    ensures BackUpOne(s, a, db, attempt).1 == BackUpOne(t, b, db, attempt).1
  {
    EventsKeepStep(s.databases, t.databases, attempt.events);
    var s1 := s.(databases := Happened(s.databases, attempt.events));
    var t1 := t.(databases := Happened(t.databases, attempt.events));
    TakeInStep(s1, t1, a, b, db, attempt.outcome);
  }

  lemma TakeInStep(s: State, t: State, a: Run, b: Run, db: string, outcome: Outcome)
    requires InStep(s, t) && SameButPruning(a, b) && s.pools != []
    ensures InStep(Take(s, a, db, outcome).0, Take(t, b, db, outcome).0)
    ensures Take(s, a, db, outcome).1 == Take(t, b, db, outcome).1
  {
    InStepLatest(s, t, db);
    if db in s.databases {
      Level0InStep(s, t, db, a.prune, b.prune);
      if LastZero(s.databases[db]).Some? {
        Level1InStep(s, t, db, a.stamp, a.cutoff);
      }
    }
  }

  lemma Level0InStep(s: State, t: State, db: string, p: bool, q: bool)
    requires InStep(s, t) && db in s.databases && s.pools != []
    ensures InStep(TakeLevel0(s, db, p), TakeLevel0(t, db, q))
  {
    var row := Zero(s.pools[|s.pools| - 1].stamp, s.nextId);
    CutAppend(s.databases[db], row);
    CutAppend(t.databases[db], row);
    assert Cut([row]) == [row];
  }

  lemma Level1InStep(s: State, t: State, db: string, stamp: nat, cutoff: nat)
    requires InStep(s, t) && db in s.databases && s.pools != [] && LastZero(s.databases[db]).Some?
    ensures LastZero(t.databases[db]) == LastZero(s.databases[db])
    ensures InStep(TakeLevel1(s, db, stamp, cutoff), TakeLevel1(t, db, stamp, cutoff))
  {
    InStepLatest(s, t, db);
    var base := LastZero(s.databases[db]).value.id;
    WriteInStep(s, t, Level1(db, stamp), Since(base, cutoff));
    RowInStep(s.databases, t.databases, db);
  }

  lemma WriteInStep(s: State, t: State, file: File, content: Content)
    requires InStep(s, t) && s.pools != []
    ensures InStep(Write(s, file, content), Write(t, file, content))
  {
  }

  lemma RowInStep(a: map<string, seq<Row>>, b: map<string, seq<Row>>, db: string)
    requires SameCuts(a, b) && db in a
    ensures SameCuts(a[db := a[db] + [One]], b[db := b[db] + [One]])
  {
    CutAppend(a[db], One);
    CutAppend(b[db], One);
  }

  lemma {:induction false} BackUpInStep(s: State, t: State, a: Run, b: Run, n: nat)
    requires InStep(s, t) && SameButPruning(a, b) && s.pools != [] && n <= |a.databases|
    ensures InStep(BackUp(s, a, n).0, BackUp(t, b, n).0)
    ensures BackUp(s, a, n).1 == BackUp(t, b, n).1
  {
    if n > 0 {
      BackUpInStep(s, t, a, b, n - 1);
      if BackUp(s, a, n - 1).1 && n - 1 < |a.attempts| {
        BackUpOneInStep(BackUp(s, a, n - 1).0, BackUp(t, b, n - 1).0, a, b, a.databases[n - 1], a.attempts[n - 1]);
      }
    }
  }

  lemma NeedsPoolInStep(s: State, t: State, a: Run, b: Run)
    requires InStep(s, t) && SameButPruning(a, b)
    ensures NeedsPool(s, a) == NeedsPool(t, b)
  {
    forall k | 0 <= k < |a.databases| ensures Mismatched(s, a, a.databases[k]) == Mismatched(t, b, b.databases[k]) {
      InStepLatest(s, t, a.databases[k]);
    }
  }

  lemma RunInStep(s: State, t: State, a: Run, b: Run)
    requires InStep(s, t) && SameButPruning(a, b)
    ensures InStep(Execute(s, a).0, Execute(t, b).0)
    ensures Execute(s, a).1 == Execute(t, b).1
  {
    NeedsPoolInStep(s.(clock := a.stamp), t.(clock := a.stamp), a, b);
    if !NeedsPool(s.(clock := a.stamp), a) || a.startsPool {
      BackUpInStep(Ready(s, a), Ready(t, b), a, b, |a.databases|);
    }
  }

  predicate SameStep(a: Step, b: Step) {
    match (a, b)
    case (Ran(r), Ran(q)) => SameButPruning(r, q)
    case (_, _) => a == b
  }

  /**
   * Whichever runs cut the history, the pools, the files in them, the decision
   * to start a pool and the success of the next run are the same, and so is the
   * history from its latest level 0 on.
   */
  lemma {:induction false} CuttingChangesNothing(s: State, steps: seq<Step>, others: seq<Step>, a: Run, b: Run)
    requires |steps| == |others| && SameButPruning(a, b)
    requires forall k | 0 <= k < |steps| :: SameStep(steps[k], others[k])
    ensures InStep(AfterAll(s, steps), AfterAll(s, others))
    ensures NeedsPool(AfterAll(s, steps), a) == NeedsPool(AfterAll(s, others), b)
    ensures Execute(AfterAll(s, steps), a).1 == Execute(AfterAll(s, others), b).1
    decreases |steps|
  {
    if steps != [] {
      var last := |steps| - 1;
      CuttingChangesNothing(s, steps[..last], others[..last], a, b);
      AfterOneMore(s, steps);
      AfterOneMore(s, others);
      var t, u := AfterAll(s, steps[..last]), AfterAll(s, others[..last]);
      assert SameStep(steps[last], others[last]);
      match steps[last]
      case Ran(run) => RunInStep(t, u, run, others[last].run);
      case Happens(event) => EventsKeepStep(t.databases, u.databases, [event]);
    }
    NeedsPoolInStep(AfterAll(s, steps), AfterAll(s, others), a, b);
    RunInStep(AfterAll(s, steps), AfterAll(s, others), a, b);
  }

  // ---- The histories that are cut stay short ----

  ghost predicate AllCut(databases: map<string, seq<Row>>) {
    forall db <- databases :: Cut(databases[db]) == databases[db]
  }

  lemma BackUpOneKeepsCut(s: State, run: Run, db: string, attempt: Attempt)
    requires s.pools != [] && run.prune && AllCut(s.databases)
    ensures AllCut(BackUpOne(s, run, db, attempt).0.databases)
  {
    HappenedHistories(s.databases, attempt.events);
    TakeKeepsCut(s.(databases := Happened(s.databases, attempt.events)), run, db, attempt.outcome);
  }

  lemma TakeKeepsCut(s: State, run: Run, db: string, outcome: Outcome)
    requires s.pools != [] && run.prune && AllCut(s.databases)
    ensures AllCut(Take(s, run, db, outcome).0.databases)
  {
    if db in s.databases {
      CutAppend(s.databases[db], One);
    }
  }

  lemma {:induction false} BackUpKeepsCut(s: State, run: Run, n: nat)
    requires s.pools != [] && run.prune && AllCut(s.databases) && n <= |run.databases|
    ensures AllCut(BackUp(s, run, n).0.databases)
  {
    if n > 0 {
      BackUpKeepsCut(s, run, n - 1);
      if BackUp(s, run, n - 1).1 && n - 1 < |run.attempts| {
        BackUpOneKeepsCut(BackUp(s, run, n - 1).0, run, run.databases[n - 1], run.attempts[n - 1]);
      }
    }
  }

  /** With every run cutting it, a history is exactly what uncut runs would have from their latest level 0 on. */
  lemma {:induction false} CutHistoriesStayShort(s: State, steps: seq<Step>, others: seq<Step>, db: string)
    requires Initial(s) && |steps| == |others|
    requires forall k | 0 <= k < |steps| :: SameStep(steps[k], others[k])
    requires forall k | 0 <= k < |steps| && steps[k].Ran? :: steps[k].run.prune
    requires db in AfterAll(s, steps).databases
    ensures db in AfterAll(s, others).databases
    ensures AfterAll(s, steps).databases[db] == Cut(AfterAll(s, others).databases[db])
    ensures forall k | 0 < k < |AfterAll(s, steps).databases[db]| :: AfterAll(s, steps).databases[db][k] == One
  {
    AlwaysCut(s, steps);
    CuttingChangesNothing(s, steps, others, NO_RUN, NO_RUN);
    CutOnce(AfterAll(s, steps).databases[db]);
  }

  lemma {:induction false} AlwaysCut(s: State, steps: seq<Step>)
    requires Initial(s)
    requires forall k | 0 <= k < |steps| && steps[k].Ran? :: steps[k].run.prune
    ensures AllCut(AfterAll(s, steps).databases)
  {
    if steps != [] {
      var last := |steps| - 1;
      AlwaysCut(s, steps[..last]);
      AfterOneMore(s, steps);
      var before := AfterAll(s, steps[..last]);
      match steps[last]
      case Ran(run) =>
        if !NeedsPool(before.(clock := run.stamp), run) || run.startsPool {
          BackUpKeepsCut(Ready(before, run), run, |run.databases|);
        }
      case Happens(event) => HappenedHistories(before.databases, [event]);
    }
  }
}
