/**
 * The steps of a run as the operator records them: each of its calls, and
 * everything that happens in between, extends the recorded run and leaves what
 * a reconcile relies on of its copy of the Instance.
 */
module Records {
  import opened Names
  import opened Sequences
  import opened Cluster
  import opened Safety
  import opened Steps
  import opened Runs
  import opened Prospects
  import Databases

  // ---- Between calls ----

  lemma EventIsRecorded(trace: seq<World>, a: nat, w: World, e: Event, i: Instance)
    requires Recorded(trace, a, w)
    ensures var w' := Happens(w, e);
      && Recorded(trace + [w'], Since(trace, a, w, w'), w')
      && Drift(w, w')
      && (Linked(w, i) ==> Linked(w', i))
      && (!e.UserEdits? && !e.UserDeletes? ==> SameSpec(w, w'))
  {
    RecordedState(trace, a, w);
    HappensKeeps(w, e);
    HappensDrifts(w, e);
    OnlyUsersChangeSpec(w, e);
    RecordedOnwards(trace, a, w, Happens(w, e));
    if Linked(w, i) {
      LinkedSurvivesDrift(w, Happens(w, e), i);
    }
  }

  lemma RecordedDrifts(trace: seq<World>, a: nat, w: World)
    requires Recorded(trace, a, w)
    ensures Drift(w, w)
  {
    RecordedState(trace, a, w);
    DriftIsReflexive(w);
  }

  /** A step that leaves the Instance alone. */
  lemma StepIsRecorded(trace: seq<World>, a: nat, w: World, w': World, i: Instance)
    requires Recorded(trace, a, w) && Linked(w, i) && (Matches(w, i) || Lags(w, i))
    requires Inv(w') && Forward(w, w')
    requires w'.instance == w.instance && w'.gone == w.gone && w'.history.kept == w.history.kept
    requires !i.deleting ==> NotBegun(w')
    ensures Recorded(trace + [w'], a, w') && Linked(w', i)
  {
    RecordedOnwards(trace, a, w, w');
    LinkedAfterStep(w, w', i);
  }

  // ---- The Instance ----

  lemma StatusIsRecorded(trace: seq<World>, a: nat, w: World, i: Instance)
    requires Recorded(trace, a, w) && Linked(w, i) && i.rv == w.instance.rv
    ensures var w' := StatusWritten(w, i.status);
      && Recorded(trace + [w'], a, w')
      && Linked(w', i) && Linked(w', i.(rv := i.rv + 1))
      && (MayBegin(w) ==> Prospers(w') && (i.status.upgrade.Some? ==> Sound(w')))
  {
    RecordedState(trace, a, w);
    if MayBegin(w) {
      StatusProspers(trace, a, w, i.status);
    }
    StatusWrittenKeeps(w, i.status);
    LinkedAfterUpdate(w, i);
    RecordedOnwards(trace, a, w, StatusWritten(w, i.status));
  }

  /** A reconcile starts from the stored Instance. */
  lemma FreshCopyIsRecorded(trace: seq<World>, a: nat, w: World)
    requires Recorded(trace, a, w) && !w.gone && w.instance.finalizer
    ensures Linked(w, w.instance) && Matches(w, w.instance)
  {
    RecordedState(trace, a, w);
    FreshCopyIsLinked(w);
  }

  lemma FinalizerAddedIsRecorded(trace: seq<World>, a: nat, w: World)
    requires Recorded(trace, a, w) && !w.gone
    ensures var w' := FinalizerAdded(w);
      && Recorded(trace + [w'], a, w') && Linked(w', w'.instance) && Matches(w', w'.instance)
  {
    RecordedState(trace, a, w);
    FinalizerAddedKeeps(w);
    FreshCopyIsLinked(FinalizerAdded(w));
    RecordedOnwards(trace, a, w, FinalizerAdded(w));
  }

  lemma FinalizerRemovedIsRecorded(trace: seq<World>, a: nat, w: World, i: Instance)
    requires Recorded(trace, a, w) && Linked(w, i) && i.deleting && i.rv == w.instance.rv
    requires i.spec.backupVolume && i.spec.backupOnDelete ==> DeletionMayFinish(w)
    ensures Recorded(trace + [FinalizerRemoved(w)], a, FinalizerRemoved(w))
  {
    RecordedState(trace, a, w);
    if i.spec.backupVolume && i.spec.backupOnDelete {
      FinishedDeletionIsSafe(w);
    }
    FinalizerRemovedKeeps(w);
    RecordedOnwards(trace, a, w, FinalizerRemoved(w));
  }

  // ---- Backing up ----

  /** Whose databases are due for a backup, and with whose engine. */
  predicate BackupDue(w: World, i: Instance, version: Version) {
    && Matches(w, i) && !PastBackingUp(w.instance.status)
    && (w.sts.Some? ==>
          || i.deleting
          || (AtStage(w.instance.status, BackingUp) && version == w.sts.value.version
              && DatabaseBackupImage(i.spec, version) == version))
  }

  lemma BackupPodCreatedIsRecorded(trace: seq<World>, a: nat, w: World, i: Instance, version: Version)
    requires Recorded(trace, a, w) && Linked(w, i)
    requires BackupDue(w, i, version) && Stopped(w.sts, w.pod) && w.backupPod.None?
    ensures var w' := BackupPodCreated(w, i.spec, version, i.status.databases);
      Recorded(trace + [w'], a, w') && Linked(w', i)
  {
    RecordedState(trace, a, w);
    BackupPodCreatedKeeps(w, i.spec, version, i.status.databases);
    StepIsRecorded(trace, a, w, BackupPodCreated(w, i.spec, version, i.status.databases), i);
  }

  lemma BackupPodDeletedIsRecorded(trace: seq<World>, a: nat, w: World, i: Instance)
    requires Recorded(trace, a, w) && Linked(w, i) && Matches(w, i)
    ensures var w' := BackupPodDeleted(w);
      && Recorded(trace + [w'], a, w') && Linked(w', i)
      && (w.backupPod.Some? && w.backupPod.value.phase == Succeeded ==> BackedUp(w'))
  {
    RecordedState(trace, a, w);
    if w.backupPod.Some? && w.backupPod.value.phase == Succeeded {
      SucceededMeansBackedUp(w);
    }
    BackupPodDeletedKeeps(w);
    StepIsRecorded(trace, a, w, BackupPodDeleted(w), i);
  }

  lemma ScaledToZeroIsRecorded(trace: seq<World>, a: nat, w: World, i: Instance)
    requires Recorded(trace, a, w) && Linked(w, i) && Matches(w, i) && !PastBackingUp(w.instance.status)
    requires w.sts.Some? && w.sts.value.replicas != 0
    ensures Recorded(trace + [ScaledToZero(w)], a, ScaledToZero(w)) && Linked(ScaledToZero(w), i)
  {
    RecordedState(trace, a, w);
    ScaledToZeroKeeps(w);
    StepIsRecorded(trace, a, w, ScaledToZero(w), i);
  }

  // ---- Releasing storage ----

  predicate ReleaseDue(w: World, i: Instance) {
    (Matches(w, i) || Lags(w, i)) && (i.deleting || MayRelease(w))
  }

  lemma PrimaryDeletedIsRecorded(trace: seq<World>, a: nat, w: World, i: Instance)
    requires Recorded(trace, a, w) && Linked(w, i) && ReleaseDue(w, i)
    ensures Recorded(trace + [PrimaryDeleted(w)], a, PrimaryDeleted(w)) && Linked(PrimaryDeleted(w), i)
  {
    RecordedState(trace, a, w);
    PrimaryDeletedKeeps(w);
    StepIsRecorded(trace, a, w, PrimaryDeleted(w), i);
  }

  lemma ShadowStepIsRecorded(trace: seq<World>, a: nat, w: World, i: Instance, shadow: Shadow)
    requires Recorded(trace, a, w) && Linked(w, i) && (Matches(w, i) || Lags(w, i))
    ensures Recorded(trace + [w.(shadow := shadow)], a, w.(shadow := shadow)) && Linked(w.(shadow := shadow), i)
  {
    RecordedState(trace, a, w);
    ShadowStepKeeps(w, shadow);
    StepIsRecorded(trace, a, w, w.(shadow := shadow), i);
  }

  // ---- Provisioning ----

  /** What a reconcile past reconcileMajorUpgrade relies on. */
  predicate ProvisionsFor(w: World, i: Instance) {
    Linked(w, i) && Matches(w, i) && !i.deleting && Cleared(w, i)
  }

  lemma PrimaryCreatedIsRecorded(trace: seq<World>, a: nat, w: World, i: Instance)
    requires Recorded(trace, a, w) && ProvisionsFor(w, i)
    ensures Recorded(trace + [PrimaryCreated(w)], a, PrimaryCreated(w)) && ProvisionsFor(PrimaryCreated(w), i)
  {
    RecordedState(trace, a, w);
    PrimaryCreatedKeeps(w);
    StepIsRecorded(trace, a, w, PrimaryCreated(w), i);
  }

  lemma BackupClaimCreatedIsRecorded(trace: seq<World>, a: nat, w: World, i: Instance)
    requires Recorded(trace, a, w) && ProvisionsFor(w, i)
    ensures Recorded(trace + [BackupClaimCreated(w)], a, BackupClaimCreated(w)) && ProvisionsFor(BackupClaimCreated(w), i)
  {
    RecordedState(trace, a, w);
    BackupClaimCreatedKeeps(w);
    StepIsRecorded(trace, a, w, BackupClaimCreated(w), i);
  }

  lemma StatefulSetAppliedIsRecorded(trace: seq<World>, a: nat, w: World, i: Instance)
    requires Recorded(trace, a, w) && ProvisionsFor(w, i)
    ensures var w' := StatefulSetApplied(w, i.spec);
      && Recorded(trace + [w'], a, w') && ProvisionsFor(w', i)
      && (w'.pod.Some? && w'.pod.value.phase != Initializing ==> Secured(w'.sts, w'.primary))
  {
    RecordedState(trace, a, w);
    StatefulSetAppliedKeeps(w, i.spec);
    StepIsRecorded(trace, a, w, StatefulSetApplied(w, i.spec), i);
  }

  /** The StatefulSet runs what the copy's spec asks for, with its security database in place. */
  predicate Serves(w: World, i: Instance) {
    ProvisionsFor(w, i) && w.sts.Some? && w.sts.value.version == i.spec.version && Secured(w.sts, w.primary)
  }

  /** Serving goes on while the operator waits, and no file goes. */
  lemma ServingIsSteady(w: World, w': World, i: Instance, i': Instance)
    requires Serves(w, i) && Steady(w, w') && Linked(w', i') && Matches(w', i')
    requires i' == i.(status := i'.status, rv := i'.rv)
    ensures Serves(w', i') && FilesStay(w, w') && w'.backups == w.backups
  {
    StorageIsSteady(w, w');
  }

  ghost predicate FilesStay(w: World, w': World) {
    forall db :: OnPrimary(w.primary, db) ==> OnPrimary(w'.primary, db)
  }

  lemma DatabaseDroppedIsRecorded(trace: seq<World>, a: nat, w: World, i: Instance, db: string)
    requires Recorded(trace, a, w) && Serves(w, i) && ServerUp(w) && db !in i.spec.databases
    ensures Recorded(trace + [DatabaseDropped(w, db)], a, DatabaseDropped(w, db)) && Serves(DatabaseDropped(w, db), i)
  {
    RecordedState(trace, a, w);
    DatabaseDroppedKeeps(w, db);
    StepIsRecorded(trace, a, w, DatabaseDropped(w, db), i);
  }

  lemma FileAddedIsRecorded(trace: seq<World>, a: nat, w: World, i: Instance, db: string, content: nat)
    requires Recorded(trace, a, w) && Serves(w, i) && ServerUp(w) && db !in w.primary.files
    requires db in w.history.kept ==> db in w.history.committed && w.history.committed[db] == content
    ensures var w' := FileAdded(w, db, content);
      Recorded(trace + [w'], a, w') && Serves(w', i) && FilesStay(w, w') && OnPrimary(w'.primary, db)
  {
    RecordedState(trace, a, w);
    FileAddedKeeps(w, db, content);
    StepIsRecorded(trace, a, w, FileAdded(w, db, content), i);
  }

  lemma DatabaseCreatedIsRecorded(trace: seq<World>, a: nat, w: World, i: Instance, db: string, content: nat)
    requires Recorded(trace, a, w) && Serves(w, i) && ServerUp(w) && db !in w.primary.files
    requires i.spec.backupVolume ==> db !in w.backups.base
    ensures var w' := FileAdded(w, db, content);
      Recorded(trace + [w'], a, w') && Serves(w', i) && FilesStay(w, w') && OnPrimary(w'.primary, db)
  {
    RecordedState(trace, a, w);
    CreatedIsNotKept(w, i, db);
    FileAddedIsRecorded(trace, a, w, i, db, content);
  }

  lemma DatabaseRestoredIsRecorded(trace: seq<World>, a: nat, w: World, i: Instance, db: string)
    requires Recorded(trace, a, w) && Serves(w, i) && Restorable(w, db)
    ensures var w' := FileAdded(w, db, w.backups.base[db].content);
      Recorded(trace + [w'], a, w') && Serves(w', i) && FilesStay(w, w') && OnPrimary(w'.primary, db)
  {
    RecordedState(trace, a, w);
    if db in w.history.kept {
      RestoredIsCommitted(w, db);
    }
    FileAddedIsRecorded(trace, a, w, i, db, w.backups.base[db].content);
  }

  // ---- The major upgrade ----

  /** The version the StatefulSet runs, as the recorded upgrade has it. */
  lemma RecordedUpgrade(trace: seq<World>, a: nat, w: World)
    requires Recorded(trace, a, w)
    ensures w.sts.Some? ==> w.sts.value.version.major > 0
    ensures w.instance.status.upgrade.Some? ==>
      && w.sts.Some? && w.instance.spec.backupVolume
      && w.instance.status.upgrade.value.fromVersion.major < w.instance.status.upgrade.value.toVersion.major
      && (!AtStage(w.instance.status, Restoring) ==>
            w.sts.value.version == w.instance.status.upgrade.value.fromVersion)
      && (PastBackingUp(w.instance.status) ==> w.backupPod.None?)
      && (AtStage(w.instance.status, Restoring) && w.sts.value.version != w.instance.status.upgrade.value.toVersion ==>
            Empty(w.primary) && Stopped(w.sts, w.pod))
  {
    RecordedState(trace, a, w);
  }

  /** Before there is a StatefulSet there is nothing an upgrade could be about. */
  lemma RecordedBeforeUse(trace: seq<World>, a: nat, w: World, i: Instance)
    requires Recorded(trace, a, w) && w.sts.None? && (Matches(w, i) || Lags(w, i))
    ensures Matches(w, i) && Cleared(w, i)
  {
    RecordedState(trace, a, w);
  }

  lemma RecordedPod(trace: seq<World>, a: nat, w: World)
    requires Recorded(trace, a, w)
    ensures w.pod.Some? ==> w.primary.Bound?
  {
    RecordedState(trace, a, w);
  }

  lemma RecordedFinalizer(trace: seq<World>, a: nat, w: World)
    requires Recorded(trace, a, w) && !w.gone
    ensures w.sts.Some? ==> w.instance.finalizer
  {
    RecordedState(trace, a, w);
  }

  /** A copy from before the update to Restoring. */
  lemma LaggingStatusOk(trace: seq<World>, a: nat, w: World)
    requires Recorded(trace, a, w) && AtStage(w.instance.status, Restoring)
    ensures StatusOk(w.instance.status.(
      databases := [], databaseCount := 0, upgrade := WithStage(w.instance.status.upgrade.value, Releasing)))
  {
    RecordedState(trace, a, w);
  }

  // ---- What a reconcile relies on goes on holding ----

  lemma ProvisioningIsSteady(w: World, w': World, i: Instance)
    requires ProvisionsFor(w, i) && Steady(w, w') && Linked(w', i) && SameCourse(w.instance.status, w'.instance.status)
    ensures ProvisionsFor(w', i)
    ensures w.primary.Bound? && !w.primary.terminating ==> !Released(w'.primary)
  {
  }

  lemma ReleaseStaysDue(w: World, w': World, i: Instance)
    requires ReleaseSteady(w, w') && (i.deleting || MayRelease(w)) && (Matches(w', i) || Lags(w', i))
    ensures ReleaseDue(w', i)
  {
  }

  predicate StorageReleased(w: World, spec: Spec) {
    Released(w.primary) && (spec.shadow ==> !w.shadow.ShadowBound?)
  }

  /** What reconcileDatabases records is permitted. */
  lemma SettlingIsAllowed(w: World, i: Instance, databases: seq<string>)
    requires Serves(w, i)
    requires databases == Databases.Settled(i.spec.databases, i.status.databases)
    requires forall db :: db in Databases.Pending(i.spec.databases, i.status.databases) ==> OnPrimary(w.primary, db)
    ensures var status := i.status.(databases := databases, databaseCount := |databases|);
      && StatusOk(status)
      && (i.rv == w.instance.rv ==> Allowed(w, status))
    ensures Elements(databases) == Elements(i.spec.databases)
  {
    Databases.SettledIsSpec(i.spec.databases, i.status.databases);
    Databases.OutsideElements(i.status.databases, Databases.Removed(i.spec.databases, i.status.databases));
  }

  /** A status update that settles the databases or ends the upgrade leaves the server serving. */
  lemma ServingAfterUpdate(w: World, before: World, i: Instance, i': Instance)
    requires Serves(w, i) && Drift(w, before) && i' == i.(status := i'.status, rv := i'.rv)
    requires before.instance.status.upgrade == w.instance.status.upgrade
    requires i'.status.upgrade == i.status.upgrade || i'.status.upgrade.None?
    requires Linked(StatusWritten(before, i'.status), i')
    ensures Serves(StatusWritten(before, i'.status), i')
  {
    StorageIsSteady(w, before);
  }
}
