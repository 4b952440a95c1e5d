/**
 * spec.backup.retention: how its values are read, which ones the API admits,
 * and the CronJobs kept for them.
 */
module Retention {
  import opened Wrappers
  import opened Text

  /** amount units of h, d, w, m or y. */
  datatype Duration = Duration(amount: int, unit: char)

  const UNITS := "hdwmy"

  /** parseRetention. */
  function ParseRetention(value: string): Result<Duration> {
    if value == "" then Ok(Duration(0, '\0'))
    else
      var unit := value[|value| - 1];
      if unit !in UNITS then Err("unit must be one of h, d, w, m, y")
      else
        match Atoi(value[..|value| - 1])
        case None => Err("expected <n><unit>, e.g. 3d")
        case Some(amount) => if amount < 0 then Err("expected <n><unit>, e.g. 3d") else Ok(Duration(amount, unit))
  }

  /** frequencyRetention(...).enabled(): an unreadable value counts as disabled. */
  predicate Enabled(value: string) {
    ParseRetention(value).Ok? && ParseRetention(value).value.amount > 0
  }

  /** ^([0-9]+[hdwmy])?$ with at most 16 characters. */
  predicate Admitted(value: string) {
    && |value| <= 16
    && (value == "" || (|value| >= 2 && AllDigits(value[..|value| - 1]) && value[|value| - 1] in UNITS))
  }

  /** matches('[1-9]'), by which the API rule tells enabled frequencies. */
  predicate HasNonzeroDigit(value: string) {
    exists i :: 0 <= i < |value| && '1' <= value[i] <= '9'
  }

  /** The API rule and the operator agree on every admitted value, and none overflows or fails to parse. */
  lemma RuleAgreesWithScheduler(value: string)
    requires Admitted(value)
    ensures ParseRetention(value).Ok?
    ensures HasNonzeroDigit(value) <==> Enabled(value)
    ensures value != "" ==> ParseRetention(value).value == Duration(Value(value[..|value| - 1]), value[|value| - 1])
  {
    if value != "" {
      var digits := value[..|value| - 1];
      assert IsDigit(digits[0]);
      ShortDigitsFit(digits);
      ValuePositive(digits);
      if HasNonzeroDigit(value) {
        var i :| 0 <= i < |value| && '1' <= value[i] <= '9';
        assert i < |digits| && digits[i] != '0';
      }
    }
  }

  // ---- The CronJobs ----

  /** Whether a create, update or delete works, fails, or takes effect although it reports a failure. */
  datatype Answer = Works | Fails | WorksUnseen

  /** hour, day, week, month and year. */
  const FREQUENCIES := 5

  datatype Spec = Spec(hasVolume: bool, incremental: bool, retention: seq<string>)

  predicate Wanted(spec: Spec, k: nat)
    requires k < |spec.retention|
  {
    spec.hasVolume && Enabled(spec.retention[k])
  }

  /** The jobs among the first n frequencies that spec asks for, and the others as they are. */
  function Reconciled(jobs: set<nat>, spec: Spec, n: nat): set<nat>
    requires n <= |spec.retention|
  {
    (set k: nat | k < n && Wanted(spec, k)) + (set k <- jobs | n <= k)
  }

  class Scheduler {
    var jobs: set<nat>

    /** One API call that creates or updates a job, or deletes it (none there is no failure). */
    method Apply(k: nat, wanted: bool, answer: Answer) returns (ok: bool)
      modifies this
      ensures ok <==> answer.Works?
      ensures jobs == if answer.Fails? then old(jobs) else if wanted then old(jobs) + {k} else old(jobs) - {k}
    {
      if answer.Fails? {
        return false;
      }
      jobs := if wanted then jobs + {k} else jobs - {k};
      ok := answer.Works?;
    }

    /** reconcileScheduledBackups: stops at the first failure, with everything before it in place. */
    method Reconcile(spec: Spec, answers: seq<Answer>) returns (ok: bool, done: nat)
      requires |spec.retention| == FREQUENCIES == |answers|
      modifies this
      ensures done <= FREQUENCIES && (ok <==> done == FREQUENCIES)
      ensures ok <==> forall k :: 0 <= k < FREQUENCIES ==> answers[k].Works?
      ensures ok ==> jobs == Reconciled(old(jobs), spec, FREQUENCIES)
      ensures !ok ==> jobs == Reconciled(old(jobs), spec, if answers[done].Fails? then done else done + 1)
    {
      done := 0;
      assert jobs == Reconciled(jobs, spec, 0);
      while done < FREQUENCIES
        invariant done <= FREQUENCIES
        invariant forall k :: 0 <= k < done ==> answers[k].Works?
        invariant jobs == Reconciled(old(jobs), spec, done)
      {
        ok := Apply(done, Wanted(spec, done), answers[done]);
        NextReconciled(old(jobs), spec, done);
        if !ok {
          return;
        }
        done := done + 1;
      }
      ok := true;
    }
  }

  lemma NextReconciled(jobs: set<nat>, spec: Spec, n: nat)
    requires n < |spec.retention|
    ensures Reconciled(jobs, spec, n + 1) ==
      if Wanted(spec, n) then Reconciled(jobs, spec, n) + {n} else Reconciled(jobs, spec, n) - {n}
  {
  }

  /** The rule on BackupSpec: with incremental mode, at most one value has a digit that is not zero. */
  predicate OneFrequencyRule(spec: Spec) {
    spec.incremental ==>
      forall i, j | 0 <= i < j < |spec.retention| :: !(HasNonzeroDigit(spec.retention[i]) && HasNonzeroDigit(spec.retention[j]))
  }

  /**
   * A successful pass over a spec the API admits leaves exactly the jobs of the
   * frequencies whose value has a digit other than zero; with incremental mode
   * that is at most one, so its runs never meet those of another frequency.
   */
  lemma JobsFollowTheRule(jobs: set<nat>, spec: Spec)
    requires |spec.retention| == FREQUENCIES && (forall k <- jobs :: k < FREQUENCIES)
    requires forall k | 0 <= k < FREQUENCIES :: Admitted(spec.retention[k])
    requires OneFrequencyRule(spec)
    ensures var after := Reconciled(jobs, spec, FREQUENCIES);
      && (forall k: nat :: k in after <==> k < FREQUENCIES && spec.hasVolume && HasNonzeroDigit(spec.retention[k]))
      && (spec.incremental ==> |after| <= 1)
  {
    forall k | 0 <= k < FREQUENCIES ensures HasNonzeroDigit(spec.retention[k]) <==> Enabled(spec.retention[k]) {
      RuleAgreesWithScheduler(spec.retention[k]);
    }
    var after := Reconciled(jobs, spec, FREQUENCIES);
    if spec.incremental && after != {} {
      var k :| k in after;
      assert forall j <- after :: j == k;
      assert after == {k};
    }
  }
}
