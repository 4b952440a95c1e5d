/**
 * scheduledBackupUniqueTimestampScript: any number of runs of one frequency
 * taking a timestamp each. A run claims the time it read with an atomic mkdir,
 * then looks whether a file already carries it, and gives the claim back when it
 * ends. The look is not atomic, and its globs pass over names with a leading
 * dot. A killed run leaves its claim, and the server may still be writing for
 * it. Other runs prune files and claims all the while.
 */
module Claims {
  import opened Text

  datatype Name = Name(stem: string, stamp: nat)

  /** What the look's globs can match. */
  predicate Visible(name: Name) {
    !Hidden(name.stem)
  }

  datatype Phase =
    | Idle
    | Timed(stamp: nat)                             // has read the clock
    | Looking(stamp: nat, throughout: set<Name>)    // has the claim; names there ever since it took it
    | Working(stamp: nat, written: set<string>)     // backs up and prunes
    | Orphaned(stamp: nat, written: set<string>)    // killed, the server still busy with its backup
    | Ended

  /** The directory, with the run each file comes from, the cutoffs runs prune by, and the claims of killed runs. */
  datatype State = State(
    clock: nat,
    claims: set<nat>,
    files: map<Name, nat>,
    runs: map<nat, Phase>,
    cutoffs: set<nat>,
    killed: set<nat>)

  datatype Step =
    | Tick
    | Begin(run: nat)
    | ReadClock(run: nat)
    | MakeClaim(run: nat)
    | FindUnused(run: nat)
    | FindUsed(run: nat)
    | Write(run: nat, stem: string)
    | Finish(run: nat)
    | Kill(run: nat)
    | ServerStops(run: nat)
    | ComputeCutoff(cutoff: nat)
    | RemoveFile(name: Name)      // pruning, gzip once it has written its own file, or rm -rf of a pool
    | RemoveClaim(stamp: nat)

  predicate Live(phase: Phase) {
    phase.Timed? || Holding(phase)
  }

  predicate Holding(phase: Phase) {
    phase.Looking? || phase.Working? || phase.Orphaned?
  }

  predicate Writing(phase: Phase) {
    phase.Working? || phase.Orphaned?
  }

  /**
   * A look through the directory can overlook whatever was missing at some
   * moment of it, so it finds nothing exactly when all that was there throughout
   * is hidden from its globs.
   */
  ghost predicate CanTake(s: State, step: Step) {
    match step
    case Tick => true
    case Begin(r) => r !in s.runs
    case ReadClock(r) => r in s.runs && s.runs[r].Idle?
    case MakeClaim(r) => r in s.runs && s.runs[r].Timed?
    case FindUnused(r) => r in s.runs && s.runs[r].Looking? && forall name <- s.runs[r].throughout :: !Visible(name)
    case FindUsed(r) => r in s.runs && s.runs[r].Looking?
    case Write(r, stem) => r in s.runs && Writing(s.runs[r]) && stem !in s.runs[r].written
    case Finish(r) => r in s.runs && s.runs[r].Working?
    case Kill(r) => r in s.runs && (s.runs[r].Timed? || s.runs[r].Looking? || s.runs[r].Working?)
    case ServerStops(r) => r in s.runs && s.runs[r].Orphaned?
    case ComputeCutoff(c) => c <= s.clock
    case RemoveFile(_) => true
    case RemoveClaim(t) => exists c <- s.cutoffs :: t < c
  }

  /** Retention is longer than a run: a cutoff is not past the time of a run that lives when it is computed. */
  ghost predicate RetentionOutlastsRuns(s: State, step: Step) {
    step.ComputeCutoff? ==> forall r <- s.runs :: Live(s.runs[r]) ==> step.cutoff <= s.runs[r].stamp
  }

  function Gone(runs: map<nat, Phase>, name: Name): map<nat, Phase> {
    map r <- runs ::
      if runs[r].Looking? then Looking(runs[r].stamp, runs[r].throughout - {name}) else runs[r]
  }

  ghost function Take(s: State, step: Step): State
    requires CanTake(s, step)
  {
    match step
    case Tick => s.(clock := s.clock + 1)
    case Begin(r) => s.(runs := s.runs[r := Idle])
    case ReadClock(r) => s.(runs := s.runs[r := Timed(s.clock)])
    case MakeClaim(r) =>
      var t := s.runs[r].stamp;
      if t in s.claims then s.(runs := s.runs[r := Idle])
      else s.(claims := s.claims + {t},
              runs := s.runs[r := Looking(t, set name <- s.files | name.stamp == t)])
    case FindUnused(r) => s.(runs := s.runs[r := Working(s.runs[r].stamp, {})])
    case FindUsed(r) => s.(claims := s.claims - {s.runs[r].stamp}, runs := s.runs[r := Idle])
    case Write(r, stem) =>
      s.(files := s.files[Name(stem, s.runs[r].stamp) := r],
         runs := s.runs[r := s.runs[r].(written := s.runs[r].written + {stem})])
    case Finish(r) => s.(claims := s.claims - {s.runs[r].stamp}, runs := s.runs[r := Ended])
    case Kill(r) =>
      s.(runs := s.runs[r := if s.runs[r].Working? then Orphaned(s.runs[r].stamp, s.runs[r].written) else Ended],
         killed := if Holding(s.runs[r]) then s.killed + {s.runs[r].stamp} else s.killed)
    case ServerStops(r) => s.(runs := s.runs[r := Ended])
    case ComputeCutoff(c) => s.(cutoffs := s.cutoffs + {c})
    case RemoveFile(name) => s.(files := s.files - {name}, runs := Gone(s.runs, name))
    case RemoveClaim(t) => s.(claims := s.claims - {t})
  }

  // ---- The invariant ----

  /** No run's time is past the clock, and no live run's before a cutoff. */
  ghost predicate TimesOk(clock: nat, runs: map<nat, Phase>, cutoffs: set<nat>) {
    && (forall c <- cutoffs :: c <= clock)
    && (forall r <- runs :: Live(runs[r]) ==> runs[r].stamp <= clock)
    && (forall r <- runs, c <- cutoffs :: Live(runs[r]) ==> c <= runs[r].stamp)
  }

  /** Every holder's claim stands, and holds for it alone. */
  ghost predicate ClaimsOk(claims: set<nat>, runs: map<nat, Phase>) {
    && (forall r <- runs :: Holding(runs[r]) ==> runs[r].stamp in claims)
    && (forall r <- runs, q <- runs ::
          Holding(runs[r]) && Holding(runs[q]) && runs[r].stamp == runs[q].stamp ==> r == q)
  }

  /**
   * The visible files with a held time: for a run that looks, only ones there
   * throughout; for one that writes, its own.
   */
  ghost predicate FilesOk(files: map<Name, nat>, runs: map<nat, Phase>) {
    forall r <- runs, name <- files :: Visible(name) && name.stamp == StampOf(runs[r]) ==>
      && (runs[r].Looking? ==> name in runs[r].throughout)
      && (Writing(runs[r]) ==> files[name] == r && name.stem in runs[r].written)
  }

  function StampOf(phase: Phase): int {
    if Live(phase) then phase.stamp else -1
  }

  /** All visible files with one time come from one run. */
  ghost predicate OneRunEach(files: map<Name, nat>) {
    forall a <- files, b <- files :: Visible(a) && Visible(b) && a.stamp == b.stamp ==> files[a] == files[b]
  }

  ghost predicate Inv(s: State) {
    && TimesOk(s.clock, s.runs, s.cutoffs)
    && ClaimsOk(s.claims, s.runs)
    && FilesOk(s.files, s.runs)
    && OneRunEach(s.files)
    && Accounted(s.claims, s.runs, s.killed)
  }

  /** Under a claim, files with its time only disappear, unless its holder writes them. */
  lemma OnlyTheHolderAdds(s: State, step: Step, r: nat, name: Name)
    requires Inv(s) && CanTake(s, step)
    requires r in s.runs && Holding(s.runs[r]) && name.stamp == s.runs[r].stamp
    requires name in Take(s, step).files && name !in s.files
    ensures step.Write? && step.run == r && Writing(s.runs[r]) && Take(s, step).files[name] == r
  {
  }

  lemma TimesStayOk(s: State, step: Step)
    requires TimesOk(s.clock, s.runs, s.cutoffs) && CanTake(s, step) && RetentionOutlastsRuns(s, step)
    ensures var s' := Take(s, step); TimesOk(s'.clock, s'.runs, s'.cutoffs)
  {
  }

  lemma ClaimsStayOk(s: State, step: Step)
    requires TimesOk(s.clock, s.runs, s.cutoffs) && ClaimsOk(s.claims, s.runs) && CanTake(s, step)
    ensures var s' := Take(s, step); ClaimsOk(s'.claims, s'.runs)
  {
  }

  lemma FilesStayOk(s: State, step: Step)
    requires ClaimsOk(s.claims, s.runs) && FilesOk(s.files, s.runs) && CanTake(s, step)
    ensures var s' := Take(s, step); FilesOk(s'.files, s'.runs)
  {
  }

  lemma OneRunStaysEach(s: State, step: Step)
    requires FilesOk(s.files, s.runs) && OneRunEach(s.files) && CanTake(s, step)
    ensures OneRunEach(Take(s, step).files)
  {
  }

  /** No claim stands without a run that holds it or one that was killed. */
  ghost predicate Accounted(claims: set<nat>, runs: map<nat, Phase>, killed: set<nat>) {
    && (forall t <- claims :: t in killed || IsHeld(runs, t))
    && (forall r <- runs :: runs[r].Orphaned? ==> runs[r].stamp in killed)
  }

  ghost predicate IsHeld(runs: map<nat, Phase>, t: nat) {
    exists r <- runs :: Holding(runs[r]) && runs[r].stamp == t
  }

  lemma StaysAccounted(s: State, step: Step)
    requires ClaimsOk(s.claims, s.runs) && Accounted(s.claims, s.runs, s.killed) && CanTake(s, step)
    ensures var s' := Take(s, step); Accounted(s'.claims, s'.runs, s'.killed)
  {
    var s' := Take(s, step);
    forall t <- s'.claims | t !in s'.killed
      ensures IsHeld(s'.runs, t)
    {
      if step.MakeClaim? && t !in s.claims {
        assert Holding(s'.runs[step.run]) && s'.runs[step.run].stamp == t;
      } else {
        var r :| r in s.runs && Holding(s.runs[r]) && s.runs[r].stamp == t;
        assert Holding(s'.runs[r]) && s'.runs[r].stamp == t;
      }
    }
  }

  lemma StepKeeps(s: State, step: Step)
    requires Inv(s) && CanTake(s, step) && RetentionOutlastsRuns(s, step)
    ensures Inv(Take(s, step))
  {
    StaysAccounted(s, step);
    TimesStayOk(s, step);
    ClaimsStayOk(s, step);
    FilesStayOk(s, step);
    OneRunStaysEach(s, step);
  }

  // ---- Over all interleavings ----

  ghost predicate Initial(s: State) {
    s.claims == {} && s.files == map[] && s.runs == map[] && s.cutoffs == {} && s.killed == {}
  }

  ghost predicate Connects(states: seq<State>, steps: seq<Step>) {
    && |states| == |steps| + 1
    && forall k | 0 <= k < |steps| ::
         CanTake(states[k], steps[k]) && states[k + 1] == Take(states[k], steps[k])
  }

  ghost predicate Follows(states: seq<State>, steps: seq<Step>) {
    Connects(states, steps) && Initial(states[0])
  }

  /** The n-th step writes stem to a name that is there already. */
  ghost predicate Collides(states: seq<State>, steps: seq<Step>, n: nat, stem: string)
    requires Follows(states, steps) && n < |steps|
  {
    && steps[n].Write? && steps[n].stem == stem
    && Name(stem, states[n].runs[steps[n].run].stamp) in states[n].files
  }

  ghost predicate RetentionSuffices(states: seq<State>, steps: seq<Step>)
    requires |states| == |steps| + 1
  {
    forall k | 0 <= k < |steps| :: RetentionOutlastsRuns(states[k], steps[k])
  }

  lemma {:induction false} AlwaysInv(states: seq<State>, steps: seq<Step>, n: nat)
    requires Follows(states, steps) && n <= |steps| && RetentionSuffices(states, steps)
    ensures Inv(states[n])
  {
    if n > 0 {
      AlwaysInv(states, steps, n - 1);
      StepKeeps(states[n - 1], steps[n - 1]);
    }
  }

  /**
   * However runs interleave, are killed and prune: at every moment all visible
   * files with one time come from one run, no two runs work under one time, and
   * a run only ever writes to a name that exists where that is hidden.
   */
  lemma NoSharedNames(states: seq<State>, steps: seq<Step>, n: nat)
    requires Follows(states, steps) && n <= |steps| && RetentionSuffices(states, steps)
    ensures OneRunEach(states[n].files)
    ensures forall r <- states[n].runs, q <- states[n].runs ::
      Writing(states[n].runs[r]) && Writing(states[n].runs[q]) && states[n].runs[r].stamp == states[n].runs[q].stamp ==> r == q
    ensures n < |steps| ==> forall stem :: Collides(states, steps, n, stem) ==> Hidden(stem)
  {
    AlwaysInv(states, steps, n);
  }

  /**
   * At every moment each claim is that of a run that holds it or of one that was
   * killed. Without a kill none is left once all runs have ended.
   */
  lemma NoClaimIsForgotten(states: seq<State>, steps: seq<Step>, n: nat)
    requires Follows(states, steps) && n <= |steps| && RetentionSuffices(states, steps)
    ensures forall t <- states[n].claims :: t in states[n].killed || IsHeld(states[n].runs, t)
    ensures (forall k | 0 <= k < n :: !steps[k].Kill?) && (forall r <- states[n].runs :: states[n].runs[r].Ended?) ==>
      states[n].claims == {}
  {
    AlwaysInv(states, steps, n);
    if forall k | 0 <= k < n :: !steps[k].Kill? {
      NobodyKilled(states, steps, n);
    }
  }

  /** And a claim counts as a killed run's only where a run that held it was killed. */
  lemma {:induction false} KilledByAStep(states: seq<State>, steps: seq<Step>, n: nat, t: nat) returns (k: nat)
    requires Follows(states, steps) && n <= |steps| && t in states[n].killed
    ensures k < n && steps[k].Kill? && steps[k].run in states[k].runs
    ensures Holding(states[k].runs[steps[k].run]) && states[k].runs[steps[k].run].stamp == t
    decreases n
  {
    assert n > 0;
    assert states[n - 1 + 1] == Take(states[n - 1], steps[n - 1]);
    if t in states[n - 1].killed {
      k := KilledByAStep(states, steps, n - 1, t);
    } else {
      k := n - 1;
    }
  }

  lemma {:induction false} NobodyKilled(states: seq<State>, steps: seq<Step>, n: nat)
    requires Follows(states, steps) && n <= |steps| && forall k | 0 <= k < n :: !steps[k].Kill?
    ensures states[n].killed == {}
  {
    if n > 0 {
      NobodyKilled(states, steps, n - 1);
      assert states[n - 1 + 1] == Take(states[n - 1], steps[n - 1]);
    }
  }

  // ---- Hidden names do collide ----

  lemma Joined(states: seq<State>, steps: seq<Step>, more: seq<State>, moreSteps: seq<Step>)
    requires Connects(states, steps) && Connects(more, moreSteps) && states[|states| - 1] == more[0]
    ensures Connects(states + more[1..], steps + moreSteps)
  {
    var all, allSteps := states + more[1..], steps + moreSteps;
    forall k | 0 <= k < |allSteps|
      ensures CanTake(all[k], allSteps[k]) && all[k + 1] == Take(all[k], allSteps[k])
    {
      if k >= |steps| {
        assert all[k] == more[k - |steps|] && all[k + 1] == more[k - |steps| + 1];
        assert allSteps[k] == moreSteps[k - |steps|];
      }
    }
  }

  /** A run no other meets gets as far as writing, past any hidden file. */
  lemma Arrives(s: State, r: nat) returns (states: seq<State>)
    requires r !in s.runs && s.claims == {} && forall name <- s.files :: !Visible(name)
    ensures Connects(states, [Begin(r), ReadClock(r), MakeClaim(r), FindUnused(r)])
    ensures states[0] == s
    ensures states[4] == s.(claims := {s.clock}, runs := states[4].runs)
    ensures r in states[4].runs && states[4].runs[r] == Working(s.clock, {}) && states[4].runs.Keys == s.runs.Keys + {r}
  {
    var s1 := Take(s, Begin(r));
    var s2 := Take(s1, ReadClock(r));
    var s3 := Take(s2, MakeClaim(r));
    assert CanTake(s3, FindUnused(r));
    states := [s, s1, s2, s3, Take(s3, FindUnused(r))];
  }

  /** The first run writes its file and ends. */
  lemma Leaves(s: State, r: nat, stem: string) returns (states: seq<State>)
    requires r in s.runs && s.runs[r] == Working(s.clock, {}) && s.claims == {s.clock}
    ensures Connects(states, [Write(r, stem), Finish(r)])
    ensures states[0] == s
    ensures states[2] == s.(claims := {}, files := s.files[Name(stem, s.clock) := r], runs := s.runs[r := Ended])
  {
    var s1 := Take(s, Write(r, stem));
    var s2 := Take(s1, Finish(r));
    assert s2.runs == s.runs[r := Ended];
    states := [s, s1, s2];
  }

  const EMPTY_DIRECTORY := State(0, {}, map[], map[], {}, {})

  /** Two runs within one second, neither killed nor pruning, write the same hidden name. */
  lemma HiddenNamesCollide(stem: string) returns (states: seq<State>, steps: seq<Step>)
    requires Hidden(stem)
    ensures Follows(states, steps) && RetentionSuffices(states, steps)
    ensures |steps| == 11 && Collides(states, steps, 10, stem)
  {
    var first := Arrives(EMPTY_DIRECTORY, 0);
    var left := Leaves(first[4], 0, stem);
    var second := Arrives(left[2], 1);
    var last := second[4];
    var write := [last, Take(last, Write(1, stem))];
    var arrive0, leave := [Begin(0), ReadClock(0), MakeClaim(0), FindUnused(0)], [Write(0, stem), Finish(0)];
    var arrive1 := [Begin(1), ReadClock(1), MakeClaim(1), FindUnused(1)];
    Joined(first, arrive0, left, leave);
    Joined(first + left[1..], arrive0 + leave, second, arrive1);
    states, steps := first + left[1..] + second[1..], arrive0 + leave + arrive1;
    Joined(states, steps, write, [Write(1, stem)]);
    states, steps := states + write[1..], steps + [Write(1, stem)];
    assert states[10] == last && steps[10] == Write(1, stem);
  }

  /** So a name can be written although it exists exactly where the look's globs pass over it. */
  lemma CollidesExactlyWhenHidden(stem: string)
    ensures Hidden(stem) <==>
      exists states: seq<State>, steps: seq<Step>, n: nat ::
        && Follows(states, steps) && RetentionSuffices(states, steps)
        && n < |steps| && Collides(states, steps, n, stem)
  {
    if Hidden(stem) {
      var states, steps := HiddenNamesCollide(stem);
    }
    forall states: seq<State>, steps: seq<Step>, n: nat
      | Follows(states, steps) && RetentionSuffices(states, steps) && n < |steps| && Collides(states, steps, n, stem)
      ensures Hidden(stem)
    {
      NoSharedNames(states, steps, n);
    }
  }
}
