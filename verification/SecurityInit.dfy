/**
 * securityDatabaseInitScript, the init container seeding the security database
 * on fresh storage, command by command. Each of its commands may fail, or stop
 * halfway when the pod is killed; the container then starts over.
 */
module SecurityInit {
  import opened Wrappers
  import opened Text
  import opened Names
  import opened Cluster

  /** The security database and the two temporary files next to it. */
  datatype Path = Final | Migrated | Source

  /** Anything unusable, or a security database with these users besides SYSDBA. */
  datatype Database = Broken | Holds(users: Users)

  type Files = map<Path, Database>

  /** An entry of "ls -t base/security*.fbk"; users is None for an archive gbak cannot restore. */
  datatype Listed = Listed(name: string, users: Option<Users>)

  /** The archives the loop over the listing considers, newest first. */
  function Considered(listing: seq<Listed>): seq<SecurityArchive> {
    if listing == [] then []
    else if IsSecurityBackup(listing[0].name) then
      [SecurityArchive(MajorOf(listing[0].name), listing[0].users)] + Considered(listing[1..])
    else Considered(listing[1..])
  }

  function MajorOf(name: string): nat
    requires IsSecurityBackup(name)
  {
    Value(name[8..|name| - 4])
  }

  /** Writing security<n>.fbk, whether it was there or not, puts it first and leaves the others in their order. */
  lemma {:induction false} WritingPutsItFirst(before: seq<SecurityArchive>, was: SecurityArchive, after: seq<SecurityArchive>, now: SecurityArchive)
    requires forall a <- before + after :: a.major != now.major
    requires was.major == now.major
    ensures Newest(before + after, now) == [now] + before + after
    ensures Newest(before + [was] + after, now) == [now] + before + after
  {
    OthersStay(before + after, now.major);
    OthersStay(after, now.major);
    WithoutIt(before, was, after);
  }

  lemma {:induction false} OthersStay(archives: seq<SecurityArchive>, n: int)
    requires forall a <- archives :: a.major != n
    ensures WithoutMajor(archives, n) == archives
  {
    if archives != [] {
      OthersStay(archives[1..], n);
    }
  }

  lemma {:induction false} WithoutIt(before: seq<SecurityArchive>, was: SecurityArchive, after: seq<SecurityArchive>)
    requires forall a <- before + after :: a.major != was.major
    ensures WithoutMajor(before + [was] + after, was.major) == before + after
  {
    var archives := before + [was] + after;
    if before == [] {
      assert archives[1..] == after;
      OthersStay(after, was.major);
    } else {
      assert archives[1..] == before[1..] + [was] + after;
      assert before + after == [before[0]] + (before[1..] + after);
      WithoutIt(before[1..], was, after);
    }
  }

  // ---- The commands ----

  datatype Command =
    | CopyDefault(to: Path)
    | Restore(users: Option<Users>, to: Path)
    | RemoveTemporaries
    | Migrate
    | RemoveSource
    | Rename

  datatype Outcome = Works | Fails | StopsHalfway

  function CommandsFor(archive: Option<SecurityArchive>, n: int): seq<Command> {
    match archive
    case None => [CopyDefault(Final)]
    case Some(a) =>
      if a.major == 3 && n > 3 then
        Migration(a.users)
      else [Restore(a.users, Final)]
  }

  function Migration(users: Option<Users>): seq<Command> {
    [RemoveTemporaries, CopyDefault(Migrated), Restore(users, Source), Migrate, RemoveSource, Rename]
  }

  /**
   * What a command leaves, and whether it exits with 0. gbak -create refuses an
   * existing file and, onto the final name, leaves none when it does not finish.
   */
  function Do(files: Files, c: Command, outcome: Outcome): (Files, bool) {
    match c
    case CopyDefault(to) =>
      if outcome.Works? then (files[to := Holds(map[])], true)
      else if outcome.StopsHalfway? then (files[to := Broken], false)
      else (files, false)
    case Restore(users, to) =>
      if to in files || users.None? || outcome.Fails? then (files, false)
      else if outcome.Works? then (files[to := Holds(users.value)], true)
      else if to == Final then (files, false)
      else (files[to := Broken], false)
    case RemoveTemporaries =>
      if outcome.Works? then (files - {Migrated, Source}, true)
      else if outcome.StopsHalfway? then (files - {Migrated}, false)
      else (files, false)
    case Migrate =>
      if Source !in files || files[Source].Broken? || Migrated !in files || files[Migrated].Broken? || outcome.Fails? then
        (files, false)
      else if outcome.Works? then (files[Migrated := Holds(files[Migrated].users + files[Source].users)], true)
      else (files[Migrated := Broken], false)
    case RemoveSource =>
      if outcome.Works? then (files - {Source}, true) else (files, false)
    case Rename =>
      if Migrated in files && outcome.Works? then ((files - {Migrated})[Final := files[Migrated]], true)
      else (files, false)
  }

  /** The first n commands, under set -e, stopped where the outcomes end. */
  function DoFirst(files: Files, commands: seq<Command>, outcomes: seq<Outcome>, n: nat): (Files, bool)
    requires n <= |commands|
  {
    if n == 0 then (files, true)
    else
      var (before, ok) := DoFirst(files, commands, outcomes, n - 1);
      if !ok || n - 1 >= |outcomes| then (before, false) else Do(before, commands[n - 1], outcomes[n - 1])
  }

  function DoAll(files: Files, commands: seq<Command>, outcomes: seq<Outcome>): (Files, bool) {
    DoFirst(files, commands, outcomes, |commands|)
  }

  lemma DoOne(files: Files, c: Command, outcomes: seq<Outcome>)
    ensures DoAll(files, [c], outcomes) == if outcomes == [] then (files, false) else Do(files, c, outcomes[0])
  {
    assert DoFirst(files, [c], outcomes, 0) == (files, true);
  }

  /** Everything that decides which commands run. */
  datatype Setting = Setting(backupVolume: bool, listing: seq<Listed>, n: int)

  function Archive(s: Setting): Option<SecurityArchive> {
    if s.backupVolume then PickArchive(Considered(s.listing), s.n) else None
  }

  /** One start of the container. */
  function Start(files: Files, s: Setting, outcomes: seq<Outcome>): (Files, bool) {
    if Final in files then (files, true) else DoAll(files, CommandsFor(Archive(s), s.n), outcomes)
  }

  // ---- The script itself ----

  class InitContainer {
    var files: Files

    method Run(c: Command, outcomes: seq<Outcome>, k: nat) returns (ok: bool)
      modifies this
      ensures (files, ok) == if k >= |outcomes| then (old(files), false) else Do(old(files), c, outcomes[k])
    {
      if k >= |outcomes| {
        return false;
      }
      var (next, done) := Do(files, c, outcomes[k]);
      files, ok := next, done;
    }

    /** The loop settling $SRC and $SRC_MAJOR. */
    method FindSource(s: Setting) returns (source: Option<SecurityArchive>)
      ensures source == PickArchive(Considered(s.listing), s.n)
    {
      var k := 0;
      while k < |s.listing|
        invariant k <= |s.listing|
        invariant PickArchive(Considered(s.listing), s.n) == PickArchive(Considered(s.listing[k..]), s.n)
      {
        var f := s.listing[k];
        assert s.listing[k..][1..] == s.listing[k + 1..];
        if IsSecurityBackup(f.name) {
          assert Considered(s.listing[k..])[1..] == Considered(s.listing[k + 1..]);
          if MajorOf(f.name) <= s.n {
            return Some(SecurityArchive(MajorOf(f.name), f.users));
          }
        }
        k := k + 1;
      }
      return None;
    }

    method Initialize(s: Setting, outcomes: seq<Outcome>) returns (ok: bool)
      modifies this
      ensures (files, ok) == Start(old(files), s, outcomes)
    {
      if Final in files {
        return true;
      }
      var source := None;
      if s.backupVolume {
        source := FindSource(s);
      }
      if source.None? {
        DoOne(files, CopyDefault(Final), outcomes);
        ok := Run(CopyDefault(Final), outcomes, 0);
      } else if source.value.major == 3 && s.n > 3 {
        ok := MigrateUsers(source.value.users, outcomes);
      } else {
        DoOne(files, Restore(source.value.users, Final), outcomes);
        ok := Run(Restore(source.value.users, Final), outcomes, 0);
      }
    }

    method MigrateUsers(users: Option<Users>, outcomes: seq<Outcome>) returns (ok: bool)
      modifies this
      ensures (files, ok) == DoAll(old(files), Migration(users), outcomes)
    {
      ghost var was, commands := files, Migration(users);
      assert DoFirst(was, commands, outcomes, 0) == (was, true);
      ok := Run(RemoveTemporaries, outcomes, 0);
      assert (files, ok) == DoFirst(was, commands, outcomes, 1);
      if ok { ok := Run(CopyDefault(Migrated), outcomes, 1); }
      assert (files, ok) == DoFirst(was, commands, outcomes, 2);
      if ok { ok := Run(Restore(users, Source), outcomes, 2); }
      assert (files, ok) == DoFirst(was, commands, outcomes, 3);
      if ok { ok := Run(Migrate, outcomes, 3); }
      assert (files, ok) == DoFirst(was, commands, outcomes, 4);
      if ok { ok := Run(RemoveSource, outcomes, 4); }
      assert (files, ok) == DoFirst(was, commands, outcomes, 5);
      if ok { ok := Run(Rename, outcomes, 5); }
    }
  }

  // ---- All or nothing ----

  /** The container starts again and again, each time stopped somewhere or not. */
  function StartAll(files: Files, s: Setting, attempts: seq<seq<Outcome>>): (Files, bool) {
    if attempts == [] then (files, false)
    else Start(StartAll(files, s, attempts[..|attempts| - 1]).0, s, attempts[|attempts| - 1])
  }

  /** No security database yet, or exactly the one with the seeded users and nothing temporary next to it. */
  predicate AllOrNothing(files: Files, s: Setting) {
    Final in files ==>
      && SeedUsers(s.backupVolume, Considered(s.listing), s.n).Some?
      && files[Final] == Holds(SeedUsers(s.backupVolume, Considered(s.listing), s.n).value)
      && (Migrates(s) ==> Migrated !in files && Source !in files)
  }

  predicate Migrates(s: Setting) {
    Archive(s).Some? && Archive(s).value.major == 3 && s.n > 3
  }

  /** Where the first n commands of a migration, if all worked, have got. */
  predicate Reached(files: Files, users: Option<Users>, n: nat) {
    && Final !in files
    && (n >= 1 ==> Source in files ==> 3 <= n < 5)
    && (n == 1 ==> Migrated !in files)
    && (2 <= n ==> Migrated in files)
    && (2 <= n < 4 ==> files[Migrated] == Holds(map[]))
    && (3 <= n ==> users.Some?)
    && (3 <= n < 5 ==> Source in files && files[Source] == Holds(users.value))
    && (4 <= n ==> files[Migrated] == Holds(users.value))
  }

  lemma {:induction false} MigrationReaches(files: Files, users: Option<Users>, outcomes: seq<Outcome>, n: nat)
    requires Final !in files && n <= 5
    ensures var (after, ok) := DoFirst(files, Migration(users), outcomes, n);
      && Final !in after
      && (ok ==> Reached(after, users, n) && |outcomes| >= n)
      && (ok <==> (n >= 3 ==> users.Some?) && |outcomes| >= n && forall k | 0 <= k < n :: outcomes[k] == Works)
  {
    if n > 0 {
      MigrationReaches(files, users, outcomes, n - 1);
    }
  }

  lemma MigrationCut(files: Files, users: Option<Users>, n: int, outcomes: seq<Outcome>)
    requires Final !in files && n > 3
    ensures var (after, ok) := DoAll(files, CommandsFor(Some(SecurityArchive(3, users)), n), outcomes);
      && (Final in after ==>
            users.Some? && after[Final] == Holds(users.value) && Migrated !in after && Source !in after)
      && (ok <==> Final in after)
      && (ok <==> users.Some? && |outcomes| >= 6 && forall k | 0 <= k < 6 :: outcomes[k] == Works)
  {
    MigrationReaches(files, users, outcomes, 5);
  }

  lemma StartIsAllOrNothing(files: Files, s: Setting, outcomes: seq<Outcome>)
    requires AllOrNothing(files, s)
    ensures AllOrNothing(Start(files, s, outcomes).0, s) <==> !(Final !in files && HalfCopied(s, outcomes))
    ensures Final !in files && HalfCopied(s, outcomes) ==>
      Final in Start(files, s, outcomes).0 && Start(files, s, outcomes).0[Final] == Broken
    ensures AllOrNothing(Start(files, s, outcomes).0, s) ==>
      (Start(files, s, outcomes).1 <==> Final in Start(files, s, outcomes).0)
  {
    if Final !in files && !Migrates(s) {
      DoOne(files, CommandsFor(Archive(s), s.n)[0], outcomes);
    } else if Final !in files {
      assert Archive(s).value == SecurityArchive(3, Archive(s).value.users);
      MigrationCut(files, Archive(s).value.users, s.n, outcomes);
    }
  }

  /** A start that copies the default, and stops halfway. */
  predicate HalfCopied(s: Setting, outcomes: seq<Outcome>) {
    Archive(s).None? && outcomes != [] && outcomes[0] == StopsHalfway
  }

  /** One of the starts copies half the default, and none before it gets the copy done. */
  predicate CopyBreaks(s: Setting, attempts: seq<seq<Outcome>>) {
    exists k | 0 <= k < |attempts| ::
      HalfCopied(s, attempts[k]) && forall j | 0 <= j < k :: attempts[j] == [] || attempts[j][0] == Fails
  }

  lemma {:induction false} UntilCopied(files: Files, s: Setting, attempts: seq<seq<Outcome>>)
    requires Final !in files && Archive(s).None?
    ensures Final !in StartAll(files, s, attempts).0 <==>
      forall j | 0 <= j < |attempts| :: attempts[j] == [] || attempts[j][0] == Fails
  {
    if attempts != [] {
      var init := attempts[..|attempts| - 1];
      UntilCopied(files, s, init);
      DoOne(StartAll(files, s, init).0, CopyDefault(Final), attempts[|attempts| - 1]);
      assert forall j | 0 <= j < |init| :: init[j] == attempts[j];
    }
  }

  lemma CopyBreaksNext(s: Setting, attempts: seq<seq<Outcome>>)
    requires attempts != []
    ensures var init, last := attempts[..|attempts| - 1], attempts[|attempts| - 1];
      CopyBreaks(s, attempts) <==>
        || CopyBreaks(s, init)
        || (HalfCopied(s, last) && forall j | 0 <= j < |init| :: init[j] == [] || init[j][0] == Fails)
  {
    var init := attempts[..|attempts| - 1];
    assert forall j | 0 <= j < |init| :: init[j] == attempts[j];
    if CopyBreaks(s, attempts) {
      var k :| 0 <= k < |attempts| && HalfCopied(s, attempts[k])
        && forall j | 0 <= j < k :: attempts[j] == [] || attempts[j][0] == Fails;
      assert k < |init| ==> HalfCopied(s, init[k]);
    }
    if CopyBreaks(s, init) {
      var k :| 0 <= k < |init| && HalfCopied(s, init[k])
        && forall j | 0 <= j < k :: init[j] == [] || init[j][0] == Fails;
      assert HalfCopied(s, attempts[k]);
    }
  }

  /**
   * Stopped anywhere, even in the middle of a command, and started over any
   * number of times, the container leaves no security database or the one with
   * all seeded users, and succeeds when that one is there; a migration then
   * leaves no temporary file. This holds exactly unless a start that copies the
   * image's default stops halfway before any got it done: then half a copy is left.
   */
  lemma {:induction false} InitIsAllOrNothing(files: Files, s: Setting, attempts: seq<seq<Outcome>>)
    requires Final !in files
    ensures AllOrNothing(StartAll(files, s, attempts).0, s) <==> !CopyBreaks(s, attempts)
    ensures !CopyBreaks(s, attempts) ==>
      (StartAll(files, s, attempts).1 <==> Final in StartAll(files, s, attempts).0)
    ensures CopyBreaks(s, attempts) ==>
      Final in StartAll(files, s, attempts).0 && StartAll(files, s, attempts).0[Final] == Broken
  {
    if attempts != [] {
      var init, last := attempts[..|attempts| - 1], attempts[|attempts| - 1];
      InitIsAllOrNothing(files, s, init);
      CopyBreaksNext(s, attempts);
      if Archive(s).None? {
        UntilCopied(files, s, init);
      }
      if !CopyBreaks(s, init) {
        StartIsAllOrNothing(StartAll(files, s, init).0, s, last);
      }
    }
  }

  /**
   * Whatever earlier starts left, one that is not disturbed seeds the users
   * exactly if the archive can be restored and no half copy lies there.
   */
  lemma UndisturbedStartSeeds(files: Files, s: Setting, attempts: seq<seq<Outcome>>, outcomes: seq<Outcome>)
    requires Final !in files
    requires |outcomes| >= 6 && forall k | 0 <= k < 6 :: outcomes[k] == Works
    ensures var users := SeedUsers(s.backupVolume, Considered(s.listing), s.n);
      var (after, ok) := Start(StartAll(files, s, attempts).0, s, outcomes);
      && (ok <==> users.Some?)
      && (Final in after && after[Final].Holds? <==> users.Some? && !CopyBreaks(s, attempts))
      && (Final in after && after[Final].Holds? ==> after[Final] == Holds(users.value))
  {
    InitIsAllOrNothing(files, s, attempts);
    var before := StartAll(files, s, attempts).0;
    if Final !in before {
      SeedsWhereNothingIs(before, s, outcomes);
    }
  }

  lemma SeedsWhereNothingIs(files: Files, s: Setting, outcomes: seq<Outcome>)
    requires Final !in files
    requires |outcomes| >= 6 && forall k | 0 <= k < 6 :: outcomes[k] == Works
    ensures var users := SeedUsers(s.backupVolume, Considered(s.listing), s.n);
      var (after, ok) := Start(files, s, outcomes);
      && (ok <==> users.Some?) && (ok <==> Final in after)
      && (ok ==> after[Final] == Holds(users.value))
  {
    if !Migrates(s) {
      DoOne(files, CommandsFor(Archive(s), s.n)[0], outcomes);
    } else {
      assert Archive(s).value == SecurityArchive(3, Archive(s).value.users);
      MigrationCut(files, Archive(s).value.users, s.n, outcomes);
    }
  }

  // ---- Which archive ----

  /** "security<digits>.fbk" */
  predicate Named(name: string, digits: string) {
    digits != "" && AllDigits(digits) && name == "security" + digits + ".fbk"
  }

  lemma NamedIsConsidered(name: string, digits: string)
    requires Named(name, digits)
    ensures IsSecurityBackup(name) && MajorOf(name) == Value(digits)
  {
    SecurityBackupNames(name);
    assert name[8..|name| - 4] == digits;
  }

  lemma {:induction false} FirstFittingIsPicked(listing: seq<Listed>, n: int, k: nat, digits: string)
    requires k < |listing| && Named(listing[k].name, digits) && Value(digits) <= n
    requires forall j, d | 0 <= j < k && Named(listing[j].name, d) :: Value(d) > n
    ensures PickArchive(Considered(listing), n) == Some(SecurityArchive(Value(digits), listing[k].users))
  {
    NamedIsConsidered(listing[k].name, digits);
    if k > 0 {
      SkipsTheFirst(listing, n);
      assert forall j | 0 <= j < k - 1 :: listing[1..][j] == listing[j + 1];
      FirstFittingIsPicked(listing[1..], n, k - 1, digits);
    }
  }

  lemma SkipsTheFirst(listing: seq<Listed>, n: int)
    requires listing != [] && forall d | Named(listing[0].name, d) :: Value(d) > n
    ensures PickArchive(Considered(listing), n) == PickArchive(Considered(listing[1..]), n)
  {
    if IsSecurityBackup(listing[0].name) {
      SecurityBackupNames(listing[0].name);
      var d :| d != "" && AllDigits(d) && listing[0].name == "security" + d + ".fbk";
      assert Named(listing[0].name, d);
      NamedIsConsidered(listing[0].name, d);
    }
  }

  lemma {:induction false} NoneFittingIsPicked(listing: seq<Listed>, n: int)
    requires forall j, d | 0 <= j < |listing| && Named(listing[j].name, d) :: Value(d) > n
    ensures PickArchive(Considered(listing), n) == None
  {
    if listing != [] {
      SkipsTheFirst(listing, n);
      assert forall j | 0 <= j < |listing| - 1 :: listing[1..][j] == listing[j + 1];
      NoneFittingIsPicked(listing[1..], n);
    }
  }

  /** How many commands a start from an archive of this major version takes. */
  function CommandCount(major: nat, n: int): nat {
    if major == 3 && n > 3 then 6 else 1
  }

  /**
   * On fresh storage the first listed security backup of a major version not
   * above the server's own, its own included, is what seeds it: an undisturbed
   * start leaves exactly that archive's users, or nothing where it cannot be
   * restored. One command does it, but for a migration from 3.
   */
  lemma NewestFittingIsSeeded(files: Files, s: Setting, k: nat, digits: string, outcomes: seq<Outcome>)
    requires Final !in files && s.backupVolume
    requires k < |s.listing| && Named(s.listing[k].name, digits) && Value(digits) <= s.n
    requires forall j, d | 0 <= j < k && Named(s.listing[j].name, d) :: Value(d) > s.n
    requires |outcomes| >= CommandCount(Value(digits), s.n)
    requires forall j | 0 <= j < CommandCount(Value(digits), s.n) :: outcomes[j] == Works
    ensures var (after, ok) := Start(files, s, outcomes);
      && (ok <==> s.listing[k].users.Some?)
      && (ok <==> Final in after)
      && (ok ==> after[Final] == Holds(s.listing[k].users.value))
  {
    FirstFittingIsPicked(s.listing, s.n, k, digits);
    if Value(digits) == 3 && s.n > 3 {
      MigrationCut(files, s.listing[k].users, s.n, outcomes);
    } else {
      DoOne(files, Restore(s.listing[k].users, Final), outcomes);
    }
  }

  /** Without any, or without a backup volume, it leaves the image's default. */
  lemma NoneFittingSeedsTheDefault(files: Files, s: Setting, outcomes: seq<Outcome>)
    requires Final !in files && outcomes != [] && outcomes[0] == Works
    requires s.backupVolume ==> forall j, d | 0 <= j < |s.listing| && Named(s.listing[j].name, d) :: Value(d) > s.n
    ensures Start(files, s, outcomes) == (files[Final := Holds(map[])], true)
  {
    if s.backupVolume {
      NoneFittingIsPicked(s.listing, s.n);
    }
    DoOne(files, CopyDefault(Final), outcomes);
  }

  /** A security database that is there stays as it is, through any number of restarts. */
  lemma {:induction false} ExistingIsLeftAlone(files: Files, s: Setting, attempts: seq<seq<Outcome>>)
    requires Final in files
    ensures StartAll(files, s, attempts).0 == files
  {
    if attempts != [] {
      ExistingIsLeftAlone(files, s, attempts[..|attempts| - 1]);
    }
  }

  /**
   * Where there is no archive, the default is copied straight to the final
   * name: it is broken exactly when the copy stops halfway, and then for good.
   */
  lemma {:induction false} HalfACopyStays(files: Files, s: Setting, outcomes: seq<Outcome>, attempts: seq<seq<Outcome>>)
    requires Final !in files && Archive(s).None?
    ensures var after := Start(files, s, outcomes).0;
      && (Final in after && after[Final] == Broken <==> outcomes != [] && outcomes[0] == StopsHalfway)
      && (Final in after ==> StartAll(after, s, attempts).0 == after)
  {
    DoOne(files, CopyDefault(Final), outcomes);
    if Final in Start(files, s, outcomes).0 && attempts != [] {
      HalfACopyStays(files, s, outcomes, attempts[..|attempts| - 1]);
    }
  }
}
