/**
 * scheduledBackupScript without incremental mode: a backup of every database
 * into the frequency's directory, then pruneScheduledBackupsScript and
 * pruneExpiredPoolsScript.
 */
module ScheduledBackups {
  import opened Wrappers
  import opened Text
  import opened Timestamps

  /** How one database's backup goes; a failed one may leave a partial file. */
  datatype Outcome = Works | BackupFails(partial: bool) | CompressionFails

  /** What a run is rendered with and meets; stamp and cutoff come from date. */
  datatype Run = Run(stems: seq<string>, stamp: string, cutoff: string, kind: Kind, compress: bool, outcomes: seq<Outcome>)

  /** *.fbk *.fbk.gz *.nbk *.nbk.gz */
  predicate Listed(name: string) {
    !Hidden(name) && (HasSuffix(name, ".fbk") || HasSuffix(name, ".fbk.gz") || HasSuffix(name, ".nbk") || HasSuffix(name, ".nbk.gz"))
  }

  predicate Expired(name: string, cutoff: string) {
    Listed(name) && Extract(name).Some? && Less(Extract(name).value, cutoff)
  }

  function Survivors(files: set<string>, cutoff: string): set<string> {
    set name <- files | !Expired(name, cutoff)
  }

  /** "<prefix><timestamp>" with a timestamp before the cutoff. */
  predicate ExpiredDirectory(name: string, prefix: string, cutoff: string) {
    prefix <= name && IsStamp(name[|prefix|..]) && Less(name[|prefix|..], cutoff)
  }

  const CLAIM_PREFIX := ".claim-"
  const POOL_PREFIX := "pool-"

  function SurvivingDirectories(directories: set<string>, cutoff: string): set<string> {
    set name <- directories | !ExpiredDirectory(name, CLAIM_PREFIX, cutoff) && !ExpiredDirectory(name, POOL_PREFIX, cutoff)
  }

  /** The file of each of the first n databases. */
  function Made(run: Run, n: nat): set<string>
    requires n <= |run.stems|
  {
    set k | 0 <= k < n :: FileName(run.stems[k], run.stamp, run.kind, run.compress)
  }

  /** What gzip takes away again: the plain file of each of the first n databases. */
  function Replaced(run: Run, n: nat): set<string>
    requires n <= |run.stems|
  {
    set k | 0 <= k < n && run.compress :: FileName(run.stems[k], run.stamp, run.kind, false)
  }

  /** The run's claim on its timestamp (see Claims): no file the globs see carries it yet. */
  predicate Claimed(files: set<string>, run: Run) {
    IsStamp(run.stamp) && forall name <- files :: Extract(name) == Some(run.stamp) ==> Hidden(name)
  }

  /** All that can go while backing up is a hidden file the run's own name replaces. */
  predicate OnlyHiddenGo(before: set<string>, after: set<string>, run: Run) {
    forall name <- before - after :: Hidden(name) && Extract(name) == Some(run.stamp)
  }

  /** The backup of the n-th database is made, and compressed if it is to be. */
  predicate Succeeds(run: Run, n: nat) {
    n < |run.outcomes| && (run.outcomes[n] == Works || (run.outcomes[n] == CompressionFails && !run.compress))
  }

  predicate SucceedUpTo(run: Run, n: nat) {
    forall k :: 0 <= k < n ==> Succeeds(run, k)
  }

  class BackupDirectory {
    var files: set<string>
    var directories: set<string>

    /** One database's backup command, and gzip after it. */
    method BackUpOne(run: Run, n: nat) returns (ok: bool)
      requires n < |run.stems| && IsStamp(run.stamp)
      modifies this`files
      ensures ok <==> Succeeds(run, n)
      ensures ok ==>
        files == old(files) - (if run.compress then {FileName(run.stems[n], run.stamp, run.kind, false)} else {})
          + {FileName(run.stems[n], run.stamp, run.kind, run.compress)}
      ensures !ok ==> old(files) <= files <= old(files) + {FileName(run.stems[n], run.stamp, run.kind, false)}
    {
      var plain := FileName(run.stems[n], run.stamp, run.kind, false);
      if n >= |run.outcomes| || run.outcomes[n].BackupFails? {
        if n < |run.outcomes| && run.outcomes[n].partial {
          files := files + {plain};
        }
        return false;
      }
      files := files + {plain};
      ok := true;
      if run.compress {
        ok := run.outcomes[n].Works?;
        if ok {
          files := files - {plain} + {FileName(run.stems[n], run.stamp, run.kind, true)};
        }
      }
    }

    /** The backup commands; under set -e the first failure ends the run. */
    method BackUpAll(run: Run) returns (ok: bool)
      requires Claimed(files, run)
      modifies this`files
      ensures ok <==> SucceedUpTo(run, |run.stems|)
      ensures ok ==> files == old(files) - Replaced(run, |run.stems|) + Made(run, |run.stems|)
      ensures OnlyHiddenGo(old(files), files, run)
      ensures forall name <- files - old(files) :: Extract(name) == Some(run.stamp)
    {
      for n := 0 to |run.stems|
        invariant files == old(files) - Replaced(run, n) + Made(run, n)
        invariant SucceedUpTo(run, n)
      {
        CompressedApart(run, n, FileName(run.stems[n], run.stamp, run.kind, false));
        MadeNext(run, n);
        ok := BackUpOne(run, n);
        if !ok {
          OnlyOwnTouched(old(files), files, run, n);
          return;
        }
      }
      OnlyOwnTouched(old(files), files, run, |run.stems|);
      return true;
    }

    method PruneFiles(cutoff: string)
      modifies this`files
      ensures files == Survivors(old(files), cutoff)
    {
      var rest := set name <- files | Listed(name);
      while rest != {}
        invariant rest <= files <= old(files)
        invariant forall name <- rest :: Listed(name)
        invariant forall name <- old(files) - rest :: name in files <==> !Expired(name, cutoff)
        decreases rest
      {
        var name :| name in rest;
        rest := rest - {name};
        var stamp := Extract(name);
        if stamp.Some? && Less(stamp.value, cutoff) {
          files := files - {name};
        }
      }
    }

    method PruneDirectories(prefix: string, cutoff: string)
      modifies this`directories
      ensures directories == set name <- old(directories) | !ExpiredDirectory(name, prefix, cutoff)
    {
      var rest := set name <- directories | prefix <= name;
      while rest != {}
        invariant rest <= directories <= old(directories)
        invariant forall name <- rest :: prefix <= name
        invariant forall name <- old(directories) - rest :: name in directories <==> !ExpiredDirectory(name, prefix, cutoff)
        decreases rest
      {
        var name :| name in rest;
        rest := rest - {name};
        if IsStamp(name[|prefix|..]) && Less(name[|prefix|..], cutoff) {
          directories := directories - {name};
        }
      }
    }

    /**
     * A run whose backup fails deletes nothing its globs see; any other keeps its
     * backups and all that have not expired.
     */
    method ScheduledBackup(run: Run) returns (ok: bool)
      requires Claimed(files, run)
      modifies this
      ensures ok <==> SucceedUpTo(run, |run.stems|)
      ensures !ok ==> OnlyHiddenGo(old(files), files, run) && directories == old(directories)
      ensures ok ==>
        files == Survivors(old(files) - Replaced(run, |run.stems|) + Made(run, |run.stems|), run.cutoff)
      ensures ok ==> directories == SurvivingDirectories(old(directories), run.cutoff)
    {
      ok := BackUpAll(run);
      if ok {
        PruneFiles(run.cutoff);
        PruneDirectories(CLAIM_PREFIX, run.cutoff);
        PruneDirectories(POOL_PREFIX, run.cutoff);
      }
    }
  }

  lemma MadeNext(run: Run, n: nat)
    requires n < |run.stems|
    ensures Made(run, n + 1) == Made(run, n) + {FileName(run.stems[n], run.stamp, run.kind, run.compress)}
    ensures Replaced(run, n + 1) ==
      Replaced(run, n) + if run.compress then {FileName(run.stems[n], run.stamp, run.kind, false)} else {}
  {
  }

  /** What a run has left after n backups, and possibly a part of the next. */
  ghost predicate After(before: set<string>, after: set<string>, run: Run, n: nat)
    requires n <= |run.stems|
  {
    && before - Replaced(run, n) + Made(run, n) <= after
    && after <= before - Replaced(run, n) + Made(run, n)
         + if n < |run.stems| then {FileName(run.stems[n], run.stamp, run.kind, false)} else {}
  }

  lemma OnlyOwnTouched(before: set<string>, after: set<string>, run: Run, n: nat)
    requires Claimed(before, run) && n <= |run.stems| && After(before, after, run, n)
    ensures OnlyHiddenGo(before, after, run)
    ensures forall name <- after - before :: Extract(name) == Some(run.stamp)
  {
    forall k, compressed | 0 <= k < |run.stems|
      ensures Extract(FileName(run.stems[k], run.stamp, run.kind, compressed)) == Some(run.stamp)
    {
      ExtractFromPrinted(run.stems[k], run.stamp, run.kind, compressed);
    }
  }

  /** The uncompressed name of the backup at hand is none of the finished, compressed ones. */
  lemma CompressedApart(run: Run, n: nat, plain: string)
    requires n < |run.stems| && plain == FileName(run.stems[n], run.stamp, run.kind, false)
    ensures run.compress ==> plain !in Made(run, n)
  {
    assert plain[|plain| - 1] == 'k';
    forall k | 0 <= k < n ensures FileName(run.stems[k], run.stamp, run.kind, true) != plain {
      var other := FileName(run.stems[k], run.stamp, run.kind, true);
      assert other[|other| - 1] == 'z';
    }
  }

  /** No two databases, times, modes or compressions share a file name, whatever '-' a stem has. */
  lemma FileNamesAreDistinct(
    stem: string, stamp: string, kind: Kind, compressed: bool,
    stem': string, stamp': string, kind': Kind, compressed': bool)
    requires IsStamp(stamp) && IsStamp(stamp')
    requires FileName(stem, stamp, kind, compressed) == FileName(stem', stamp', kind', compressed')
    ensures stem == stem' && stamp == stamp' && kind == kind' && compressed == compressed'
  {
    ExtractFromPrinted(stem, stamp, kind, compressed);
    ExtractFromPrinted(stem', stamp', kind', compressed');
    var name := FileName(stem, stamp, kind, compressed);
    assert name[|name| - 1] == if compressed then 'z' else 'k';
    assert name[|name| - 1] == if compressed' then 'z' else 'k';
    assert name[..|stem|] == stem;
    assert name[|stem| + 18] == if kind.Gbak? then 'f' else 'n';
    assert |name| == |stem| + 21 + if compressed then 3 else 0;
    assert |name| == |stem'| + 21 + if compressed' then 3 else 0;
    assert name[..|stem'|] == stem';
    assert name[|stem'| + 18] == if kind'.Gbak? then 'f' else 'n';
  }

  /**
   * Pruning removes exactly the scheduled backups of a time before the cutoff,
   * save those of databases whose name begins with a dot, which it never sees.
   */
  lemma PruningIsExact(files: set<string>, name: string, cutoff: Time)
    requires name in files && Fits(cutoff)
    ensures name !in Survivors(files, Render(cutoff)) <==>
      exists stem: string, t: Time, kind: Kind, compressed: bool ::
        && Fits(t) && name == FileName(stem, Render(t), kind, compressed)
        && Earlier(t, cutoff)
        && !Hidden(stem)
  {
    if Expired(name, Render(cutoff)) {
      var stamp := Extract(name).value;
      ExtractsExactly(name, stamp);
      StampsAreRendered(stamp);
      var t :| Fits(t) && stamp == Render(t);
      StampsOrderAsTimes(t, cutoff);
      var stem, kind, compressed :| name == FileName(stem, stamp, kind, compressed);
      HiddenByStem(stem, stamp, kind, compressed);
      assert Fits(t) && name == FileName(stem, Render(t), kind, compressed) && Earlier(t, cutoff) && !Hidden(stem);
    }
    forall stem: string, t: Time, kind: Kind, compressed: bool
      | Fits(t) && name == FileName(stem, Render(t), kind, compressed) && Earlier(t, cutoff) && !Hidden(stem)
      ensures Expired(name, Render(cutoff))
    {
      StampsAreRendered(Render(t));
      ExtractFromPrinted(stem, Render(t), kind, compressed);
      StampsOrderAsTimes(t, cutoff);
      HiddenByStem(stem, Render(t), kind, compressed);
    }
  }

  /**
   * The same for directories: pruning removes exactly the claims and pools of a
   * time before the cutoff, ".claim-<timestamp>" and "pool-<timestamp>".
   */
  lemma DirectoryPruningIsExact(directories: set<string>, name: string, cutoff: Time)
    requires name in directories && Fits(cutoff)
    ensures name !in SurvivingDirectories(directories, Render(cutoff)) <==>
      exists t: Time :: Fits(t) && Earlier(t, cutoff) && (name == ".claim-" + Render(t) || name == "pool-" + Render(t))
  {
    ExpiresExactly(name, CLAIM_PREFIX, cutoff);
    ExpiresExactly(name, POOL_PREFIX, cutoff);
  }

  lemma ExpiresExactly(name: string, prefix: string, cutoff: Time)
    requires Fits(cutoff)
    ensures ExpiredDirectory(name, prefix, Render(cutoff)) <==>
      exists t: Time :: Fits(t) && Earlier(t, cutoff) && name == prefix + Render(t)
  {
    if ExpiredDirectory(name, prefix, Render(cutoff)) {
      var stamp := name[|prefix|..];
      StampsAreRendered(stamp);
      var t :| Fits(t) && stamp == Render(t);
      StampsOrderAsTimes(t, cutoff);
      assert name == prefix + Render(t);
    }
    forall t: Time | Fits(t) && Earlier(t, cutoff) && name == prefix + Render(t)
      ensures ExpiredDirectory(name, prefix, Render(cutoff))
    {
      assert name[|prefix|..] == Render(t);
      StampsAreRendered(Render(t));
      StampsOrderAsTimes(t, cutoff);
    }
  }

  /** A claim or pool of a time that is not before the cutoff stays: a run's own, and any within retention. */
  lemma RecentDirectoriesStay(directories: set<string>, t: Time, cutoff: Time)
    requires Fits(t) && Fits(cutoff) && !Earlier(t, cutoff)
    ensures ".claim-" + Render(t) in directories ==> ".claim-" + Render(t) in SurvivingDirectories(directories, Render(cutoff))
    ensures "pool-" + Render(t) in directories ==> "pool-" + Render(t) in SurvivingDirectories(directories, Render(cutoff))
  {
    forall prefix: string | prefix == ".claim-" || prefix == "pool-"
      ensures prefix + Render(t) in directories ==> prefix + Render(t) in SurvivingDirectories(directories, Render(cutoff))
    {
      var name := prefix + Render(t);
      if name in directories && name !in SurvivingDirectories(directories, Render(cutoff)) {
        DirectoryPruningIsExact(directories, name, cutoff);
        var u :| Fits(u) && Earlier(u, cutoff) && (name == ".claim-" + Render(u) || name == "pool-" + Render(u));
        assert name[0] == prefix[0];
        assert name[|prefix|..] == Render(t) && name[|prefix|..] == Render(u);
        StampsOrderAsTimes(t, u);
      }
    }
  }

  lemma HiddenByStem(stem: string, stamp: string, kind: Kind, compressed: bool)
    requires |stamp| == 16
    ensures Listed(FileName(stem, stamp, kind, compressed)) <==> !Hidden(stem)
  {
    var front, ext := stem + "-" + stamp, if kind.Gbak? then ".fbk" else ".nbk";
    assert FileName(stem, stamp, kind, compressed)[0] == if stem == "" then '-' else stem[0];
    if compressed {
      assert FileName(stem, stamp, kind, true) == front + (ext + ".gz");
      EndsWith(front, ext + ".gz");
    } else {
      assert FileName(stem, stamp, kind, false) == front + ext;
      EndsWith(front, ext);
    }
  }

  lemma EndsWith(front: string, suffix: string)
    ensures HasSuffix(front + suffix, suffix)
  {
  }

  /** Where no hidden file carries the run's time, nothing at all goes. */
  lemma NothingReplacedUnlessHidden(files: set<string>, run: Run)
    requires Claimed(files, run)
    ensures forall name <- files * Replaced(run, |run.stems|) :: Hidden(name)
  {
    forall k | 0 <= k < |run.stems|
      ensures Extract(FileName(run.stems[k], run.stamp, run.kind, false)) == Some(run.stamp)
    {
      ExtractFromPrinted(run.stems[k], run.stamp, run.kind, false);
    }
  }

  /** A successful run's own backup of a database survives it exactly when the run did not outlast its retention. */
  lemma OwnBackupsSurvive(files: set<string>, run: Run, k: nat, stamp: Time, cutoff: Time)
    requires k < |run.stems| && Fits(stamp) && Fits(cutoff)
    requires run.stamp == Render(stamp) && run.cutoff == Render(cutoff)
    ensures FileName(run.stems[k], run.stamp, run.kind, run.compress) in
              Survivors(files - Replaced(run, |run.stems|) + Made(run, |run.stems|), run.cutoff)
            <==> !Earlier(stamp, cutoff) || Hidden(run.stems[k])
  {
    var name := FileName(run.stems[k], run.stamp, run.kind, run.compress);
    assert name in Made(run, |run.stems|);
    StampsAreRendered(run.stamp);
    ExtractFromPrinted(run.stems[k], run.stamp, run.kind, run.compress);
    HiddenByStem(run.stems[k], run.stamp, run.kind, run.compress);
    StampsOrderAsTimes(stamp, cutoff);
  }
}
