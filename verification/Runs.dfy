/**
 * What the invariant and the permitted steps mean for whole runs: sequences of
 * cluster states in which the operator, the user, the clients and Kubernetes
 * took turns in any order, with the operator killed anywhere.
 */
module Runs {
  import opened Wrappers
  import opened Cluster
  import opened Sequences
  import Databases
  import opened Safety

  /** A run: every state is one the invariant allows, every step one that may be taken. */
  ghost predicate Run(trace: seq<World>) {
    trace != [] && RunUpTo(trace, |trace| - 1)
  }

  ghost predicate RunUpTo(trace: seq<World>, n: nat)
    requires n < |trace|
  {
    Inv(trace[n]) && (n > 0 ==> Forward(trace[n - 1], trace[n]) && RunUpTo(trace, n - 1))
  }

  lemma {:induction false} RunHolds(trace: seq<World>, n: nat, k: nat)
    requires k <= n < |trace| && RunUpTo(trace, n)
    ensures Inv(trace[k])
    ensures k < n ==> Inv(trace[k + 1]) && Forward(trace[k], trace[k + 1])
    decreases n
  {
    if k < n {
      RunHolds(trace, n - 1, k);
    }
  }

  /** What a run says of its k-th state and the step after it. */
  lemma AtState(trace: seq<World>, k: nat)
    requires Run(trace) && k < |trace|
    ensures Inv(trace[k])
    ensures k < |trace| - 1 ==> Inv(trace[k + 1]) && Forward(trace[k], trace[k + 1])
  {
    RunHolds(trace, |trace| - 1, k);
  }

  predicate SameSpec(w: World, w': World) {
    w'.instance.spec == w.instance.spec && w'.instance.deleting == w.instance.deleting
  }

  /** From state a on, the user has neither edited nor deleted the Instance. */
  ghost predicate Unedited(trace: seq<World>, a: nat) {
    a < |trace| && forall k :: a <= k < |trace| ==> SameSpec(trace[a], trace[k])
  }

  /** The run recorded in trace up to its n-th state, unedited since state a. */
  ghost predicate Reached(trace: seq<World>, a: nat, n: nat)
    requires n < |trace|
    decreases n, 1
  {
    if n == 0 then Inv(trace[0]) else Came(trace, a, n)
  }

  ghost predicate Came(trace: seq<World>, a: nat, n: nat)
    requires 0 < n < |trace|
    decreases n, 0
  {
    && Inv(trace[n]) && Forward(trace[n - 1], trace[n])
    && (a < n ==> SameSpec(trace[n - 1], trace[n]))
    && Reached(trace, a, n - 1)
  }

  ghost predicate Recorded(trace: seq<World>, a: nat, w: World) {
    trace != [] && trace[|trace| - 1] == w && a < |trace| && Reached(trace, a, |trace| - 1)
  }

  lemma {:induction false} ReachedOnwards(trace: seq<World>, a: nat, n: nat, w: World, a': nat)
    requires n < |trace| && Reached(trace, a, n) && a <= a'
    ensures Reached(trace + [w], a', n)
  {
    if n > 0 {
      ReachedOnwards(trace, a, n - 1, w, a');
      assert Came(trace, a, n);
    }
  }

  /** From where on it is unedited once w follows. */
  function Since(trace: seq<World>, a: nat, before: World, w: World): nat {
    if SameSpec(before, w) then a else |trace|
  }

  /** The recorded run with w in front satisfies the invariant. */
  lemma RecordedState(trace: seq<World>, a: nat, w: World)
    requires Recorded(trace, a, w)
    ensures Inv(w)
  {
    if |trace| > 1 {
      assert Came(trace, a, |trace| - 1);
    }
  }

  lemma RecordedOnwards(trace: seq<World>, a: nat, before: World, w: World)
    requires Recorded(trace, a, before) && Inv(w) && Forward(before, w)
    ensures Recorded(trace + [w], Since(trace, a, before, w), w)
  {
    var a' := Since(trace, a, before, w);
    ReachedOnwards(trace, a, |trace| - 1, w, a');
    assert Came(trace + [w], a', |trace|);
  }

  /** What the operator records is a run. */
  lemma RecordedIsARun(trace: seq<World>, a: nat, w: World)
    requires Recorded(trace, a, w)
    ensures Run(trace) && Unedited(trace, a)
  {
    ReachedIsARun(trace, a, |trace| - 1);
    UneditedUpTo(trace, a, |trace| - 1);
  }

  lemma {:induction false} ReachedIsARun(trace: seq<World>, a: nat, n: nat)
    requires n < |trace| && Reached(trace, a, n)
    ensures RunUpTo(trace, n)
  {
    if n > 0 {
      assert Came(trace, a, n);
      ReachedIsARun(trace, a, n - 1);
    }
  }

  lemma {:induction false} UneditedUpTo(trace: seq<World>, a: nat, n: nat)
    requires a <= n < |trace| && Reached(trace, a, n)
    ensures forall k :: a <= k <= n ==> SameSpec(trace[a], trace[k])
  {
    if a < n {
      assert Came(trace, a, n);
      UneditedUpTo(trace, a, n - 1);
    }
  }

  /** A new Instance, whatever archives an earlier one of its name left behind. */
  predicate Fresh(w: World) {
    && ValidSpec(w.instance.spec)
    && w.instance.status == Status([], 0, Unset, None, Report("", "", "", false))
    && !w.instance.deleting && !w.instance.finalizer && !w.gone
    && w.sts.None? && w.pod.None? && w.backupPod.None? && w.primary.Absent? && w.shadow.NoShadow?
    && w.history.users.None? && w.history.kept == {}
    && (!w.backupClaim ==> w.backups == Backups(map[], []))
  }

  lemma FreshInstancesAreSafe(w: World)
    requires Fresh(w)
    ensures Inv(w) && Run([w])
  {
  }

  // ---- Data ----

  /**
   * What clients last committed to db is on primary storage or, when primary
   * storage lacks the file, in its archive, which the version being upgraded
   * to can restore. Only an upgrade past BackingUp makes it lack the file.
   */
  predicate Preserved(w: World, db: string) {
    && db in w.history.committed
    && (if OnPrimary(w.primary, db) && !AtStage(w.instance.status, Releasing)
        then w.primary.files[db].content == w.history.committed[db]
        else
          && PastBackingUp(w.instance.status)
          && db in w.backups.base
          && w.backups.base[db] ==
               Complete(w.history.committed[db], w.instance.status.upgrade.value.fromVersion.major)
          && w.instance.status.upgrade.value.fromVersion.major < w.instance.status.upgrade.value.toVersion.major)
  }

  lemma KeptIsPreserved(w: World, db: string)
    requires Inv(w) && db in w.history.kept
    ensures Preserved(w, db)
    ensures !PastBackingUp(w.instance.status) ==> OnPrimary(w.primary, db) && db in w.instance.status.databases
  {
    if InBackup(w.history, db) {
      var k :| 0 <= k < |w.history.listed| && w.history.listed[k] == db;
    }
  }

  /** In spec, of an Instance nobody has asked to delete, in every state from a to b. */
  ghost predicate Wanted(trace: seq<World>, a: nat, b: nat, db: string) {
    forall k :: a <= k <= b && k < |trace| ==>
      db in trace[k].instance.spec.databases && !trace[k].instance.deleting
  }

  lemma {:induction false} KeptWhileWanted(trace: seq<World>, a: nat, b: nat, db: string)
    requires Run(trace) && a <= b < |trace| && Wanted(trace, a, b, db)
    requires db in trace[a].history.kept
    ensures db in trace[b].history.kept
    decreases b - a
  {
    if a < b {
      AtState(trace, a);
      KeptWhileWanted(trace, a + 1, b, db);
    }
  }

  /**
   * What puts a database under protection: status lists it for the first time,
   * or an upgrade begins that lists it while it is there.
   */
  predicate BecomesListed(w: World, w': World, db: string) {
    && db in w'.instance.status.databases
    && (|| db !in w.instance.status.databases
        || (w.instance.status.upgrade.None? && w'.instance.status.upgrade.Some? && OnPrimary(w.primary, db)))
  }

  lemma KeptOnceListed(trace: seq<World>, a: nat, b: nat, db: string)
    requires Run(trace) && 0 < a <= b < |trace| && Wanted(trace, a, b, db)
    requires BecomesListed(trace[a - 1], trace[a], db)
    ensures db in trace[b].history.kept
  {
    AtState(trace, a - 1);
    KeptWhileWanted(trace, a, b, db);
  }

  lemma KeptIsPreservedAt(trace: seq<World>, k: nat, db: string)
    requires Run(trace) && k < |trace| && db in trace[k].history.kept
    ensures Preserved(trace[k], db)
    ensures !PastBackingUp(trace[k].instance.status) ==>
      OnPrimary(trace[k].primary, db) && db in trace[k].instance.status.databases
  {
    AtState(trace, k);
    KeptIsPreserved(trace[k], db);
  }

  lemma OnlyServersCommit(trace: seq<World>, k: nat, db: string)
    requires Run(trace) && k < |trace| - 1 && db in trace[k].history.kept && db in trace[k + 1].history.kept
    requires db in trace[k + 1].history.committed
    ensures trace[k + 1].history.committed[db] == CommittedContent(trace[k], db)
      || (ServerUp(trace[k]) && OnPrimary(trace[k].primary, db))
  {
    AtState(trace, k);
    KeptIsPreserved(trace[k], db);
  }

  /**
   * No committed data is lost: from the moment a database is recorded in status,
   * or an upgrade begins that lists it, and for as long as the user keeps it in
   * spec and the Instance alive, its last committed content is preserved in every
   * state of every run, through any number of upgrades; without one past
   * BackingUp it is on primary storage, and nothing but a running server changes
   * what counts as committed.
   */
  lemma NoCommittedDataIsLost(trace: seq<World>, a: nat, b: nat, db: string)
    requires Run(trace) && 0 < a <= b < |trace| && Wanted(trace, a, b, db)
    requires BecomesListed(trace[a - 1], trace[a], db)
    ensures Preserved(trace[b], db)
    ensures !PastBackingUp(trace[b].instance.status) ==>
      OnPrimary(trace[b].primary, db) && db in trace[b].instance.status.databases
    ensures a < b ==>
      || trace[b].history.committed[db] == CommittedContent(trace[b - 1], db)
      || (ServerUp(trace[b - 1]) && OnPrimary(trace[b - 1].primary, db))
  {
    KeptOnceListed(trace, a, b, db);
    KeptIsPreservedAt(trace, b, db);
    if a < b {
      KeptOnceListed(trace, a, b - 1, db);
      OnlyServersCommit(trace, b - 1, db);
    }
  }

  /** An upgrade runs on from its beginning at a to its b-th state. */
  ghost predicate UpgradeRuns(trace: seq<World>, a: nat, b: nat) {
    && 0 < a <= b < |trace| && trace[a - 1].instance.status.upgrade.None?
    && forall k :: a <= k <= b ==> trace[k].instance.status.upgrade.Some?
  }

  lemma {:induction false} UnlistedIsNotArchived(trace: seq<World>, a: nat, b: nat, db: string)
    requires Run(trace) && UpgradeRuns(trace, a, b) && db !in trace[a].instance.status.databases
    ensures db !in trace[b].history.listed
    ensures SameArchive(trace[a].backups, trace[b].backups, db)
    decreases b
  {
    if a < b {
      UnlistedIsNotArchived(trace, a, b - 1, db);
      assert trace[b - 1].instance.status.upgrade.Some?;
      AtState(trace, b - 1);
    } else {
      AtState(trace, a - 1);
    }
  }

  predicate SameArchive(b: Backups, b': Backups, db: string) {
    (db in b.base <==> db in b'.base) && (db in b.base ==> b'.base[db] == b.base[db])
  }

  /**
   * Being listed when the upgrade begins is what it takes: whatever file there is
   * of any other database, a pass killed before recording it has left it, it is
   * gone once the upgrade gets to Restoring, in every run, and all there is of it
   * is the archive there was before the upgrade, if any.
   */
  lemma UnlistedIsLost(trace: seq<World>, a: nat, b: nat, db: string)
    requires Run(trace) && UpgradeRuns(trace, a, b) && a < b
    requires AtStage(trace[b].instance.status, Restoring) && !AtStage(trace[b - 1].instance.status, Restoring)
    requires db !in trace[a].instance.status.databases
    ensures !OnPrimary(trace[b].primary, db) && SameArchive(trace[a].backups, trace[b].backups, db)
  {
    UnlistedIsNotArchived(trace, a, b, db);
    assert trace[b - 1].instance.status.upgrade.Some?;
    AtState(trace, b - 1);
  }

  function CommittedContent(w: World, db: string): nat {
    if db in w.history.committed then w.history.committed[db] else 0
  }

  /**
   * databaseFileExists takes any exit code of "test" for an answer. Where one
   * that was killed says a missing database has no archive, an empty database is
   * created in its place: that loses it exactly unless it was empty.
   */
  lemma UntrueAnswerLosesTheDatabase(w: World, db: string)
    requires Inv(w) && db in w.history.kept && ServerUp(w) && !OnPrimary(w.primary, db)
    ensures db in w.history.committed && db in w.backups.base
    ensures w.backups.base[db].Complete? && w.backups.base[db].content == w.history.committed[db]
    ensures Preserved(FileAdded(w, db, Databases.EMPTY), db) <==> w.history.committed[db] == Databases.EMPTY
  {
    KeptIsPreserved(w, db);
  }

  // ---- Stages and versions ----

  predicate Upgrade(w: World) {
    w.instance.status.upgrade.Some?
  }

  predicate SameUpgradeOnwards(upgrade: Option<UpgradeStatus>, upgrade': Option<UpgradeStatus>) {
    && upgrade.Some? && upgrade'.Some?
    && upgrade.value.fromVersion == upgrade'.value.fromVersion
    && upgrade.value.toVersion == upgrade'.value.toVersion
    && Rank(upgrade.value.stage) <= Rank(upgrade'.value.stage)
  }

  /** While an upgrade is recorded, its versions are fixed and its stage only moves forward. */
  lemma {:induction false} StagesOnlyMoveForward(trace: seq<World>, a: nat, b: nat)
    requires Run(trace) && a <= b < |trace|
    requires forall k :: a <= k <= b ==> Upgrade(trace[k])
    ensures SameUpgradeOnwards(trace[a].instance.status.upgrade, trace[b].instance.status.upgrade)
    decreases b - a
  {
    assert Upgrade(trace[a]);
    if a < b {
      assert Upgrade(trace[a + 1]);
      AtState(trace, a);
      StagesOnlyMoveForward(trace, a + 1, b);
    }
  }

  /** The StatefulSet's major version never goes down. */
  lemma {:induction false} MajorNeverGoesDown(trace: seq<World>, a: nat, b: nat)
    requires Run(trace) && a <= b < |trace| && trace[a].sts.Some?
    ensures trace[b].sts.Some? && trace[a].sts.value.version.major <= trace[b].sts.value.version.major
    decreases b - a
  {
    if a < b {
      AtState(trace, a);
      MajorNeverGoesDown(trace, a + 1, b);
    }
  }

  /** It only changes in stage Restoring, once the old storage is gone and no server runs. */
  lemma MajorOnlyMovesOntoEmptyStorage(trace: seq<World>, k: nat)
    requires Run(trace) && k < |trace| - 1 && trace[k].sts.Some?
    requires trace[k + 1].sts.Some? ==> trace[k].sts.value.version.major != trace[k + 1].sts.value.version.major
    ensures AtStage(trace[k].instance.status, Restoring) && trace[k].pod.None? && Empty(trace[k].primary)
  {
    AtState(trace, k);
  }

  /** Every engine that is started only meets files its own major version wrote, and archives it can restore. */
  lemma EnginesOpenTheirOwnFiles(trace: seq<World>, k: nat)
    requires Run(trace) && k < |trace|
    ensures var w := trace[k];
      && (w.pod.Some? && w.primary.Bound? ==>
            && (forall db :: db in w.primary.files ==> w.primary.files[db].major == w.pod.value.version.major)
            && (forall m :: m in w.primary.security ==> m == w.pod.value.version.major))
      && (w.backupPod.Some? && !w.instance.deleting && w.primary.Bound? ==>
            forall db :: db in w.primary.files ==> w.primary.files[db].major == w.backupPod.value.image.major)
      && (w.pod.Some? && AtStage(w.instance.status, Restoring) ==>
            forall db :: db in w.history.listed ==>
              && db in w.backups.base && w.backups.base[db].Complete?
              && w.backups.base[db].major < w.pod.value.version.major)
  {
    var w := trace[k];
    AtState(trace, k);
    if w.pod.Some? && AtStage(w.instance.status, Restoring) {
      forall db | db in w.history.listed
        ensures db in w.backups.base && w.backups.base[db].Complete?
        ensures w.backups.base[db].major < w.pod.value.version.major
      {
        var j :| 0 <= j < |w.history.listed| && w.history.listed[j] == db;
      }
    }
  }

  /** Storage an upgrade has restored anything onto is not released by it. */
  lemma RestoredStorageIsNotReleased(trace: seq<World>, k: nat)
    requires Run(trace) && k < |trace| - 1
    requires Upgrade(trace[k]) && !trace[k].instance.deleting && !Empty(trace[k].primary)
    requires trace[k].sts.Some? && trace[k].sts.value.version != trace[k].instance.status.upgrade.value.fromVersion
    ensures trace[k].primary.Bound? && !trace[k].primary.terminating
    ensures trace[k + 1].primary.Bound? && !trace[k + 1].primary.terminating
  {
    AtState(trace, k);
  }

  /** Nor is any storage at all without an upgrade past BackingUp or a deletion. */
  lemma StorageIsNotReleasedOtherwise(trace: seq<World>, k: nat)
    requires Run(trace) && k < |trace| - 1
    requires !PastBackingUp(trace[k].instance.status) && !trace[k].instance.deleting && trace[k].primary.Bound?
    ensures trace[k + 1].primary.Bound? && !trace[k + 1].primary.terminating
  {
    AtState(trace, k);
  }

  /** Phase Ready is never stored next to an upgrade record. */
  lemma ReadyMeansNoUpgrade(trace: seq<World>, k: nat)
    requires Run(trace) && k < |trace|
    ensures trace[k].instance.status.phase == Ready ==> !Upgrade(trace[k])
    ensures NoDuplicates(trace[k].instance.status.databases)
    ensures trace[k].instance.status.databaseCount == |Elements(trace[k].instance.status.databases)|
  {
    AtState(trace, k);
    CountsElements(trace[k].instance.status.databases);
  }

  // ---- Deletion ----

  /**
   * Once the finalizer is off an Instance that has a backup volume and wants a
   * backup, every database it listed (when the upgrade began, if one was past
   * BackingUp) and the security database are completely in the backup, with what
   * had been committed when the server was stopped for it (SavedAtTheStop). That
   * is what was last committed, unless an upgrade has moved the StatefulSet to
   * the new version already (see Losses).
   */
  lemma DeletionLeavesABackup(trace: seq<World>, k: nat, db: string)
    requires Run(trace) && k < |trace|
    requires var w := trace[k];
      w.gone && w.instance.spec.backupVolume && w.instance.spec.backupOnDelete && w.sts.Some?
    ensures var w := trace[k];
      && (db in Owed(w) ==>
            db in w.history.saved && db in w.backups.base && w.backups.base[db].Complete?
            && w.backups.base[db].content == w.history.saved[db])
      && w.history.savedUsers.Some? && w.backups.securityBase != []
      && w.backups.securityBase[0].users == w.history.savedUsers
      && (!NewVersionStarted(w) ==>
            && w.backups.securityBase[0].users == w.history.users
            && (db in Owed(w) ==>
                  db in w.history.committed && w.backups.base[db].content == w.history.committed[db]))
  {
    var w := trace[k];
    AtState(trace, k);
    if db in Owed(w) {
      var j :| 0 <= j < |Owed(w)| && Owed(w)[j] == db;
    }
  }

  /** The databases whose backup a deletion owes. */
  function Owed(w: World): seq<string> {
    if PastBackingUp(w.instance.status) then w.history.listed else w.instance.status.databases
  }

  /** An upgrade past BackingUp has moved the StatefulSet on from the version it backed up. */
  predicate NewVersionStarted(w: World) {
    PastBackingUp(w.instance.status) && w.sts.Some? && w.sts.value.version != w.instance.status.upgrade.value.fromVersion
  }

  /** What was saved is what had been committed when the server stopped, and changes at no other time. */
  lemma SavedAtTheStop(trace: seq<World>, k: nat)
    requires Run(trace) && k < |trace| - 1
    ensures var w, w' := trace[k], trace[k + 1];
      || (w'.history.saved == w.history.saved && w'.history.savedUsers == w.history.savedUsers)
      || (&& Stopped(w'.sts, w'.pod)
          && w'.history.saved == w'.history.committed && w'.history.savedUsers == w'.history.users)
  {
    AtState(trace, k);
  }

  // ---- Users ----

  /** The users in force can be had again: from the security database in place, or by seeding a fresh one. */
  predicate UsersPreserved(w: World) {
    w.history.users.Some? ==>
      && w.sts.Some?
      && if Secured(w.sts, w.primary) && !AtStage(w.instance.status, Releasing)
         then w.primary.security[w.sts.value.version.major] == w.history.users.value
         else
           && PastBackingUp(w.instance.status)
           && SeedUsers(true, w.backups.securityBase, w.instance.status.upgrade.value.toVersion.major)
                == w.history.users
  }

  /**
   * Users survive any chain of upgrades and restarts: in every state of every
   * run without deletion they are preserved, and only a running server changes
   * them.
   */
  lemma UsersSurvive(trace: seq<World>, k: nat)
    requires Run(trace) && k < |trace| && !trace[k].instance.deleting
    ensures UsersPreserved(trace[k])
    ensures 0 < k && trace[k - 1].history.users.Some? && trace[k].history.users != trace[k - 1].history.users ==>
      ServerUp(trace[k - 1])
  {
    var w := trace[k];
    AtState(trace, k);
    if 0 < k {
      AtState(trace, k - 1);
    }
    if w.history.users.Some? && PastBackingUp(w.instance.status) {
      var archive := w.backups.securityBase[0];
      assert PickArchive(w.backups.securityBase, w.instance.status.upgrade.value.toVersion.major) == Some(archive);
    }
  }
}
