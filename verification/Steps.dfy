/**
 * The operator's own steps: when each API call or exec keeps the invariant,
 * and what a reconcile may rely on of the copy of the Instance it holds.
 */
module Steps {
  import opened Wrappers
  import opened Names
  import opened Cluster
  import opened Sequences
  import opened Safety

  // ---- Status updates ----

  /** A status update that leaves the upgrade and the database list alone. */
  predicate SameCourse(status: Status, status': Status) {
    status'.upgrade == status.upgrade && status'.databases == status.databases
  }

  function WithStage(u: UpgradeStatus, stage: Stage): Option<UpgradeStatus> {
    Some(u.(stage := stage))
  }

  /** startMajorUpgrade's update. */
  predicate UpgradeBegins(w: World, status': Status) {
    var i := w.instance;
    && i.status.upgrade.None? && !i.deleting && w.sts.Some? && i.spec.backupVolume
    && status'.databases == i.status.databases
    && status'.upgrade == Some(UpgradeStatus(w.sts.value.version, i.spec.version, BackingUp))
  }

  /** The backup has succeeded and its Pod is out of the way. */
  predicate BackedUp(w: World) {
    && w.sts.Some? && Stopped(w.sts, w.pod)
    && (w.backupPod.Some? ==> w.backupPod.value.phase == Succeeded)
    && FullyArchived(w.backups, w.history, w.instance.status.databases, w.sts.value.version.major)
  }

  /** The update from BackingUp to Releasing. */
  predicate BackupEnds(w: World, status': Status) {
    var i := w.instance;
    && AtStage(i.status, BackingUp) && !i.deleting && BackedUp(w) && w.backupPod.None?
    && status'.databases == [] && status'.upgrade == WithStage(i.status.upgrade.value, Releasing)
  }

  /** The update from Releasing to Restoring. */
  predicate ReleaseEnds(w: World, status': Status) {
    var i := w.instance;
    && AtStage(i.status, Releasing) && w.primary.Absent?
    && status'.databases == i.status.databases
    && status'.upgrade == WithStage(i.status.upgrade.value, Restoring)
  }

  /** No upgrade, or one that is restoring: the operator provisions databases. */
  predicate Provisions(status: Status) {
    status.upgrade.None? || AtStage(status, Restoring)
  }

  /** reconcileDatabases' update. */
  predicate DatabasesSettle(w: World, status': Status) {
    var i := w.instance;
    && Provisions(i.status) && !i.deleting && w.sts.Some?
    && status'.upgrade == i.status.upgrade
    && Elements(status'.databases) == Elements(i.spec.databases)
    && (forall db :: db in status'.databases && db !in i.status.databases ==> OnPrimary(w.primary, db))
  }

  /** finishMajorUpgrade's update. */
  predicate UpgradeEnds(w: World, status': Status) {
    var i := w.instance;
    && AtStage(i.status, Restoring) && !i.deleting
    && w.sts.Some? && w.sts.value.version == i.status.upgrade.value.toVersion
    && Secured(w.sts, w.primary)
    && status'.upgrade.None? && status'.databases == i.status.databases
    && Elements(i.status.databases) == Elements(i.spec.databases)
  }

  /** The status updates the operator may make. */
  predicate Allowed(w: World, status': Status) {
    && StatusOk(status')
    && (SameCourse(w.instance.status, status') || UpgradeBegins(w, status') || BackupEnds(w, status')
        || ReleaseEnds(w, status') || DatabasesSettle(w, status') || UpgradeEnds(w, status'))
  }

  lemma SameCourseKeeps(w: World, status': Status)
    requires Inv(w) && !w.gone && StatusOk(status') && SameCourse(w.instance.status, status')
    ensures Inv(StatusWritten(w, status')) && Forward(w, StatusWritten(w, status'))
  {
    assert NewlyListed(w.instance, status') == {};
  }

  lemma UpgradeBeginsKeeps(w: World, status': Status)
    requires Inv(w) && !w.gone && StatusOk(status') && UpgradeBegins(w, status')
    ensures Inv(StatusWritten(w, status')) && Forward(w, StatusWritten(w, status'))
  {
    assert NewlyListed(w.instance, status') == {};
  }

  lemma BackupEndsKeeps(w: World, status': Status)
    requires Inv(w) && !w.gone && StatusOk(status') && BackupEnds(w, status')
    ensures Inv(StatusWritten(w, status')) && Forward(w, StatusWritten(w, status'))
  {
    assert NewlyListed(w.instance, status') == {};
  }

  lemma ReleaseEndsKeeps(w: World, status': Status)
    requires Inv(w) && !w.gone && StatusOk(status') && ReleaseEnds(w, status')
    ensures Inv(StatusWritten(w, status')) && Forward(w, StatusWritten(w, status'))
  {
    assert NewlyListed(w.instance, status') == {};
  }

  lemma DatabasesSettleKeeps(w: World, status': Status)
    requires Inv(w) && !w.gone && StatusOk(status') && DatabasesSettle(w, status')
    ensures Inv(StatusWritten(w, status')) && Forward(w, StatusWritten(w, status'))
  {
  }

  lemma UpgradeEndsKeeps(w: World, status': Status)
    requires Inv(w) && !w.gone && StatusOk(status') && UpgradeEnds(w, status')
    ensures Inv(StatusWritten(w, status')) && Forward(w, StatusWritten(w, status'))
  {
    assert NewlyListed(w.instance, status') == {};
  }

  lemma StatusWrittenKeeps(w: World, status': Status)
    requires Inv(w) && !w.gone && Allowed(w, status')
    ensures Inv(StatusWritten(w, status')) && Forward(w, StatusWritten(w, status'))
  {
    if SameCourse(w.instance.status, status') {
      SameCourseKeeps(w, status');
    } else if UpgradeBegins(w, status') {
      UpgradeBeginsKeeps(w, status');
    } else if BackupEnds(w, status') {
      BackupEndsKeeps(w, status');
    } else if ReleaseEnds(w, status') {
      ReleaseEndsKeeps(w, status');
    } else if DatabasesSettle(w, status') {
      DatabasesSettleKeeps(w, status');
    } else {
      UpgradeEndsKeeps(w, status');
    }
  }

  // ---- The other calls ----

  lemma FinalizerAddedKeeps(w: World)
    requires Inv(w) && !w.gone
    ensures Inv(FinalizerAdded(w)) && Forward(w, FinalizerAdded(w))
  {
  }

  lemma FinalizerRemovedKeeps(w: World)
    requires Inv(w) && !w.gone && w.instance.deleting
    requires w.instance.spec.backupVolume && w.instance.spec.backupOnDelete ==>
      SafeToDelete(w.instance, w.sts, w.backups, w.history)
    ensures Inv(FinalizerRemoved(w)) && Forward(w, FinalizerRemoved(w))
  {
  }

  lemma ScaledToZeroKeeps(w: World)
    requires Inv(w) && !w.gone && w.sts.Some? && w.sts.value.replicas != 0
    requires !PastBackingUp(w.instance.status)
    ensures Inv(ScaledToZero(w)) && Forward(w, ScaledToZero(w))
  {
  }

  /** The StatefulSet may be moved to spec: the first time, within a major version, or while restoring. */
  predicate MayRun(w: World, spec: Spec) {
    && spec.version.major > 0 && w.instance.finalizer && w.backupPod.None?
    && (w.sts.Some? ==>
          match w.instance.status.upgrade
          case None => spec.version.major == w.sts.value.version.major
          case Some(u) => u.stage == Restoring && spec.version == u.toVersion && spec.backupVolume)
  }

  lemma StatefulSetAppliedKeeps(w: World, spec: Spec)
    requires Inv(w) && !w.gone && MayRun(w, spec)
    ensures Inv(StatefulSetApplied(w, spec)) && Forward(w, StatefulSetApplied(w, spec))
  {
  }

  lemma BackupClaimCreatedKeeps(w: World)
    requires Inv(w) && !w.gone && Provisions(w.instance.status)
    ensures Inv(BackupClaimCreated(w)) && Forward(w, BackupClaimCreated(w))
  {
  }

  lemma PrimaryCreatedGoesForward(w: World)
    requires Inv(w) && !w.gone && UsersSafe(w.instance.status, w.sts, w.primary, w.history)
    ensures Forward(w, PrimaryCreated(w))
  {
  }

  lemma PrimaryCreatedKeeps(w: World)
    requires Inv(w) && !w.gone && UsersSafe(w.instance.status, w.sts, w.primary, w.history)
    ensures Inv(PrimaryCreated(w)) && Forward(w, PrimaryCreated(w))
  {
    PrimaryCreatedGoesForward(w);
  }

  /** An upgrade may release primary storage until the new version has been started on it. */
  predicate MayRelease(w: World) {
    || AtStage(w.instance.status, Releasing)
    || (AtStage(w.instance.status, Restoring)
        && w.sts.Some? && w.sts.value.version != w.instance.status.upgrade.value.toVersion)
  }

  lemma PrimaryDeletedKeeps(w: World)
    requires Inv(w) && !w.gone && (w.instance.deleting || MayRelease(w))
    ensures Inv(PrimaryDeleted(w)) && Forward(w, PrimaryDeleted(w))
    ensures MayRelease(w) && NotBegun(w) ==> NotBegun(PrimaryDeleted(w))
  {
  }

  lemma ShadowStepKeeps(w: World, shadow: Shadow)
    requires Inv(w)
    ensures Inv(w.(shadow := shadow)) && Forward(w, w.(shadow := shadow))
  {
  }

  predicate MayBackUp(w: World, spec: Spec, version: Version, databases: seq<string>) {
    && w.backupPod.None? && Stopped(w.sts, w.pod) && databases == w.instance.status.databases
    && (w.instance.deleting || AtStage(w.instance.status, BackingUp))
    && (!w.instance.deleting ==>
          version == w.sts.value.version && DatabaseBackupImage(spec, version) == version)
  }

  lemma BackupPodCreatedKeeps(w: World, spec: Spec, version: Version, databases: seq<string>)
    requires Inv(w) && !w.gone && !PastBackingUp(w.instance.status) && MayBackUp(w, spec, version, databases)
    ensures Inv(BackupPodCreated(w, spec, version, databases))
    ensures Forward(w, BackupPodCreated(w, spec, version, databases))
  {
  }

  lemma BackupPodDeletedKeeps(w: World)
    requires Inv(w) && !w.gone
    ensures Inv(BackupPodDeleted(w)) && Forward(w, BackupPodDeleted(w))
  {
  }

  lemma DatabaseDroppedKeeps(w: World, db: string)
    requires Inv(w) && !w.gone && ServerUp(w) && db !in w.history.kept && Provisions(w.instance.status)
    ensures Inv(DatabaseDropped(w, db)) && Forward(w, DatabaseDropped(w, db))
  {
  }

  lemma FileAddedGoesForward(w: World, db: string, content: nat)
    requires Inv(w) && !w.gone && ServerUp(w) && db !in w.primary.files
    requires db in w.history.kept ==> db in w.history.committed && w.history.committed[db] == content
    ensures Forward(w, FileAdded(w, db, content))
  {
  }

  lemma FileAddedKeeps(w: World, db: string, content: nat)
    requires Inv(w) && !w.gone && ServerUp(w) && db !in w.primary.files
    requires db in w.history.kept ==> db in w.history.committed && w.history.committed[db] == content
    ensures Inv(FileAdded(w, db, content)) && Forward(w, FileAdded(w, db, content))
  {
    FileAddedGoesForward(w, db, content);
  }

  /** A database that must not be lost and is not on primary storage has a usable backup, ... */
  lemma MissingIsInBackup(w: World, db: string)
    requires Inv(w) && ServerUp(w) && db in w.history.kept && db !in w.primary.files
    ensures w.instance.spec.backupVolume && db in w.backups.base && db in w.history.committed
    ensures Restorable(w, db)
    ensures w.backups.base[db] ==
      Complete(w.history.committed[db], w.instance.status.upgrade.value.fromVersion.major)
  {
    var k :| 0 <= k < |w.history.listed| && w.history.listed[k] == db;
  }

  // ---- The copy of the Instance a reconcile works on ----

  predicate Linked(w: World, i: Instance) {
    && i.rv <= w.instance.rv
    && ValidSpec(i.spec) && StatusOk(i.status)
    && w.history.kept <= Elements(i.spec.databases)
    && (w.instance.status.upgrade.Some? ==>
          i.spec.backupVolume == w.instance.spec.backupVolume && i.spec.shadow == w.instance.spec.shadow)
    && (i.rv == w.instance.rv ==>
          && i.spec == w.instance.spec && i.deleting == w.instance.deleting && Allowed(w, i.status))
    && (i.deleting ==> w.instance.deleting)
    && i.finalizer && w.instance.finalizer && !w.gone
    && (!i.deleting ==> NotBegun(w))
  }

  /** What no deletion has touched yet. */
  predicate NotBegun(w: World) {
    && (w.backupPod.Some? ==> AtStage(w.instance.status, BackingUp))
    && UsersSafe(w.instance.status, w.sts, w.primary, w.history)
    && (w.primary.Bound? && w.primary.terminating ==>
          AtStage(w.instance.status, Releasing)
          || (AtStage(w.instance.status, Restoring) && Empty(w.primary) && w.pod.None?))
  }

  lemma AllowedSurvivesDrift(w: World, w': World, status': Status)
    requires Inv(w) && Inv(w') && Drift(w, w') && w.instance.rv == w'.instance.rv
    requires Allowed(w, status')
    ensures Allowed(w', status')
  {
  }

  lemma NotBegunSurvivesDrift(w: World, w': World)
    requires Inv(w) && Inv(w') && Drift(w, w') && NotBegun(w)
    ensures NotBegun(w')
  {
  }

  lemma LinkedSurvivesDrift(w: World, w': World, i: Instance)
    requires Inv(w) && Inv(w') && Drift(w, w') && Linked(w, i)
    ensures Linked(w', i)
  {
    if i.rv == w'.instance.rv {
      AllowedSurvivesDrift(w, w', i.status);
    }
    if !i.deleting {
      NotBegunSurvivesDrift(w, w');
    }
  }

  /** What a status update, made against the current resourceVersion, leaves of the link. */
  lemma LinkedAfterUpdate(w: World, i: Instance)
    requires Inv(w) && Linked(w, i) && i.rv == w.instance.rv
    ensures Linked(StatusWritten(w, i.status), i.(rv := i.rv + 1))
    ensures Linked(StatusWritten(w, i.status), i)
  {
  }

  lemma LinkedAfterStep(w: World, w': World, i: Instance)
    requires Linked(w, i)
    requires w'.instance == w.instance && w'.gone == w.gone && w'.history.kept == w.history.kept
    requires SameCourse(w.instance.status, i.status) || i.rv < w.instance.rv
    requires !i.deleting ==> NotBegun(w')
    ensures Linked(w', i)
  {
  }

  /** The copy's upgrade and database list are the stored ones. */
  predicate Matches(w: World, i: Instance) {
    SameCourse(w.instance.status, i.status)
  }

  /** An out-of-date copy still says Releasing while the upgrade is already Restoring. */
  predicate Lags(w: World, i: Instance) {
    && AtStage(w.instance.status, Restoring) && i.rv < w.instance.rv && !i.deleting
    && i.status.upgrade == WithStage(w.instance.status.upgrade.value, Releasing)
    && i.status.databases == []
  }

  /** Changing what the copy reports, or its phase, keeps the link. */
  lemma ReportKeepsLink(w: World, i: Instance, status': Status)
    requires Linked(w, i) && (Matches(w, i) || Lags(w, i))
    requires SameCourse(i.status, status') && status'.databaseCount == i.status.databaseCount
    requires status'.phase == Ready ==> i.status.phase == Ready || i.status.upgrade.None?
    ensures Linked(w, i.(status := status'))
    ensures Matches(w, i) ==> Matches(w, i.(status := status'))
    ensures Lags(w, i) ==> Lags(w, i.(status := status'))
  {
  }

  /** The outcome of such an update. */
  lemma ReportIsFollowed(w: World, before: World, after: World, i: Instance, i': Instance)
    requires Drift(w, before) && Drift(before, before)
    requires Matches(w, i) || Lags(w, i)
    requires i' == i.(rv := i'.rv) && i'.rv >= i.rv
    requires after == before || (after == StatusWritten(before, i.status) && !(i.rv < w.instance.rv))
    requires i'.rv == i.rv || after == StatusWritten(before, i.status)
    ensures Steady(w, after)
    ensures Matches(w, i) ==> Matches(after, i')
    ensures Lags(w, i) ==> Lags(after, i')
  {
    if after != before {
      assert NewlyListed(before.instance, i.status) == {};
      assert Steady(before, after);
      SteadyIsTransitive(w, before, after);
    }
  }

  // ---- What a reconcile has found out stays true while it waits ----

  /** A backup Pod that has succeeded has backed everything up. */
  lemma SucceededMeansBackedUp(w: World)
    requires Inv(w) && w.backupPod.Some? && w.backupPod.value.phase == Succeeded
    ensures BackedUp(w) && BackedUp(BackupPodDeleted(w))
  {
  }

  /** What releasing storage leaves alone. */
  predicate ReleaseSteady(w: World, w': World) {
    && InstanceSteady(w, w') && w'.sts == w.sts && (w.backupPod.None? ==> w'.backupPod.None?)
    && (BackedUp(w) && w.backupPod.None? ==> BackedUp(w') && w'.backupPod.None?)
  }

  lemma SteadyReleases(w: World, w': World)
    requires Steady(w, w')
    ensures ReleaseSteady(w, w')
    ensures ReleaseSteady(w, PrimaryDeleted(w')) && ReleaseSteady(w, ShadowDeleted(w'))
  {
  }

  lemma ReleaseSteadyIsTransitive(w0: World, w1: World, w2: World)
    requires ReleaseSteady(w0, w1) && ReleaseSteady(w1, w2)
    ensures ReleaseSteady(w0, w2)
  {
  }

  /** A decision in the copy that has not been written yet. */
  lemma DecisionKeepsLink(w: World, i: Instance, status': Status)
    requires Linked(w, i) && StatusOk(status')
    requires i.rv == w.instance.rv ==> Allowed(w, status')
    ensures Linked(w, i.(status := status'))
  {
  }

  /** Past reconcileMajorUpgrade: nothing to hand over, or restoring onto fresh storage. */
  predicate Cleared(w: World, i: Instance) {
    && Provisions(w.instance.status) && w.backupPod.None?
    && (w.sts.Some? ==>
          match w.instance.status.upgrade
          case None => i.spec.version.major == w.sts.value.version.major
          case Some(u) => i.spec.version == u.toVersion)
  }

  predicate SameVersion(sts: Option<StatefulSet>, sts': Option<StatefulSet>) {
    sts.Some? == sts'.Some? && (sts.Some? ==> sts'.value.version == sts.value.version)
  }

  /** Storage that is being provisioned keeps its files, and its security database, while the operator waits. */
  lemma StorageIsSteady(w: World, w': World)
    requires Steady(w, w') && NotBegun(w) && Provisions(w.instance.status)
    ensures forall db :: OnPrimary(w.primary, db) ==> OnPrimary(w'.primary, db)
    ensures Secured(w.sts, w.primary) ==> Secured(w'.sts, w'.primary)
  {
  }

  /** A database that must not be lost is only missing while its backup is there to restore. */
  lemma CreatedIsNotKept(w: World, i: Instance, db: string)
    requires Inv(w) && Linked(w, i) && ServerUp(w) && db !in w.primary.files
    requires i.spec.backupVolume ==> db !in w.backups.base
    ensures db !in w.history.kept
  {
    if db in w.history.kept {
      MissingIsInBackup(w, db);
    }
  }

  lemma RestoredIsCommitted(w: World, db: string)
    requires Inv(w) && Restorable(w, db) && db in w.history.kept
    ensures db in w.history.committed && w.history.committed[db] == w.backups.base[db].content
  {
    MissingIsInBackup(w, db);
  }

  /** A reconcile starts from the stored Instance. */
  lemma FreshCopyIsLinked(w: World)
    requires Inv(w) && !w.gone && w.instance.finalizer
    ensures Linked(w, w.instance) && Matches(w, w.instance)
  {
  }

  lemma ReportIsFree(w: World, i: Instance, report: Report)
    requires Linked(w, i)
    ensures Linked(w, i.(status := i.status.(report := report)))
  {
  }

  /** A deletion whose spec asks for a backup may go on to release storage and finish. */
  predicate DeletionMayFinish(w: World) {
    PastBackingUp(w.instance.status) || w.sts.None? || (BackedUp(w) && w.backupPod.None?)
  }

  lemma DeletionMayFinishIsSteady(w: World, w': World)
    requires ReleaseSteady(w, w') && DeletionMayFinish(w)
    ensures DeletionMayFinish(w')
  {
  }

  lemma FinishedDeletionIsSafe(w: World)
    requires Inv(w) && DeletionMayFinish(w)
    ensures SafeToDelete(w.instance, w.sts, w.backups, w.history)
  {
  }
}
