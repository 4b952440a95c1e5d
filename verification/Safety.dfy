/**
 * What holds in every state of the cluster, whatever the user, the clients,
 * Kubernetes and crashes of the operator do: the inductive invariant, and the
 * steps a run may take. Operator.dfy proves the operator keeps to it.
 */
module Safety {
  import opened Wrappers
  import opened Cluster
  import opened Sequences

  // ---- The invariant ----

  predicate Empty(primary: Primary) {
    primary.Bound? ==> primary.files == map[] && primary.security == map[]
  }

  /** Its claim has been deleted, or was never there. */
  predicate Released(primary: Primary) {
    primary.Bound? ==> primary.terminating
  }

  predicate PastBackingUp(status: Status) {
    AtStage(status, Releasing) || AtStage(status, Restoring)
  }

  predicate StatusOk(status: Status) {
    && status.databaseCount == |status.databases|
    && NoDuplicates(status.databases)
    && (status.phase == Ready ==> status.upgrade.None?)
    && (status.upgrade.Some? ==>
          0 < status.upgrade.value.fromVersion.major < status.upgrade.value.toVersion.major)
    && (AtStage(status, Releasing) ==> status.databases == [])
  }

  predicate InstanceOk(i: Instance) {
    ValidSpec(i.spec) && StatusOk(i.status) && (i.status.upgrade.Some? ==> i.spec.backupVolume)
  }

  /** Nothing of the Instance exists before its StatefulSet does, nor that before its finalizer. */
  predicate ProvisionedOk(i: Instance, gone: bool, sts: Option<StatefulSet>, pod: Option<Pod>,
      backupPod: Option<BackupPod>, primary: Primary, h: History) {
    && (!i.finalizer && !gone ==> sts.None?)
    && (gone ==> i.deleting)
    && (sts.None? ==>
          && pod.None? && backupPod.None? && Empty(primary)
          && i.status.databases == [] && i.status.upgrade.None? && h.users.None? && h.kept == {})
  }

  /** Versions: every file was written by the major version the StatefulSet runs. */
  predicate VersionsOk(sts: Option<StatefulSet>, pod: Option<Pod>, primary: Primary) {
    && (sts.Some? ==> sts.value.version.major > 0)
    && (pod.Some? ==> sts.Some? && primary.Bound? && pod.value.version.major == sts.value.version.major)
    && (sts.Some? && primary.Bound? ==>
          && (forall db :: db in primary.files ==> primary.files[db].major == sts.value.version.major)
          && (forall m :: m in primary.security ==> m == sts.value.version.major))
  }

  /** Stages: which version runs, and whether anything runs, at each stage. */
  predicate StageOk(u: UpgradeStatus, status: Status, sts: Option<StatefulSet>, pod: Option<Pod>,
      backupPod: Option<BackupPod>, primary: Primary, listed: seq<string>) {
    && sts.Some?
    && match u.stage
       case BackingUp => sts.value.version == u.fromVersion && listed == status.databases
       case Releasing => sts.value.version == u.fromVersion && Stopped(sts, pod) && backupPod.None?
       case Restoring =>
         && backupPod.None?
         && ((sts.value.version == u.toVersion && sts.value.replicas > 0 && sts.value.backupVolume
              && (pod.Some? ==> pod.value.backupVolume))
             || (sts.value.version == u.fromVersion && Stopped(sts, pod) && Empty(primary)))
  }

  predicate StagesOk(i: Instance, sts: Option<StatefulSet>, pod: Option<Pod>,
      backupPod: Option<BackupPod>, primary: Primary, h: History) {
    && (i.status.upgrade.Some? ==>
          StageOk(i.status.upgrade.value, i.status, sts, pod, backupPod, primary, h.listed))
    && (primary.Bound? && primary.terminating ==>
          i.deleting || AtStage(i.status, Releasing)
          || (AtStage(i.status, Restoring) && Empty(primary) && pod.None?))
    && (backupPod.Some? ==> Stopped(sts, pod) && (i.deleting || AtStage(i.status, BackingUp)))
  }

  /** While the server is stopped for a backup, what was saved is what there is. */
  predicate SnapshotOk(sts: Option<StatefulSet>, pod: Option<Pod>, h: History) {
    Stopped(sts, pod) ==> h.saved == h.committed && h.savedUsers == h.users
  }

  /** The archives of the first n databases hold what was saved of them. */
  predicate Archived(b: Backups, h: History, databases: seq<string>, n: nat, major: int) {
    forall k :: 0 <= k < n && k < |databases| ==>
      && databases[k] in h.saved && databases[k] in b.base
      && b.base[databases[k]] == Complete(h.saved[databases[k]], major)
  }

  /** A complete backup: every database and, most recent of its kind, the security database. */
  predicate FullyArchived(b: Backups, h: History, databases: seq<string>, major: int) {
    && Archived(b, h, databases, |databases|, major)
    && h.savedUsers.Some?
    && b.securityBase != [] && b.securityBase[0] == SecurityArchive(major, h.savedUsers)
  }

  /** The backup Pod: the archives it has finished are complete. */
  predicate BackupPodOk(i: Instance, sts: Option<StatefulSet>, backupPod: Option<BackupPod>, b: Backups, h: History) {
    backupPod.Some? && sts.Some? ==>
      var p, major := backupPod.value, sts.value.version.major;
      && p.databases == i.status.databases
      && (!i.deleting ==> p.version == sts.value.version && p.image == p.version)
      && Archived(b, h, p.databases, p.done, major)
      && match p.phase
         case Pending => p.done == 0
         case Succeeded => FullyArchived(b, h, p.databases, major)
         case _ => p.done <= |p.databases|
  }

  predicate UpgradeBackupOk(status: Status, b: Backups, h: History) {
    PastBackingUp(status) ==> FullyArchived(b, h, h.listed, status.upgrade.value.fromVersion.major)
  }

  predicate InBackup(h: History, db: string) {
    db in h.listed && db in h.committed && db in h.saved && h.saved[db] == h.committed[db]
  }

  /** Data: what clients committed is on primary storage or, once that was released, in the backup. */
  predicate DataOk(i: Instance, primary: Primary, h: History) {
    && (primary.Bound? ==> forall db :: db in primary.files ==>
          db in h.committed && h.committed[db] == primary.files[db].content)
    && h.kept <= Elements(i.spec.databases)
    && (i.deleting ==> h.kept == {})
    && (forall db :: db in h.kept ==>
          if AtStage(i.status, Releasing) then InBackup(h, db)
          else if AtStage(i.status, Restoring) then
            OnPrimary(primary, db) || (InBackup(h, db) && db !in i.status.databases)
          else OnPrimary(primary, db) && db in i.status.databases)
  }

  /** The security database of the major version that runs is in place. */
  predicate Secured(sts: Option<StatefulSet>, primary: Primary) {
    sts.Some? && primary.Bound? && sts.value.version.major in primary.security
  }

  /** What the users of the Instance can be recovered from. */
  predicate UsersSafe(status: Status, sts: Option<StatefulSet>, primary: Primary, h: History) {
    if AtStage(status, Releasing) then h.savedUsers == h.users
    else if AtStage(status, Restoring) then Secured(sts, primary) || h.savedUsers == h.users
    else h.users.Some? ==> Secured(sts, primary)
  }

  /** Users: the same for the users of the security database. */
  predicate UsersOk(i: Instance, sts: Option<StatefulSet>, pod: Option<Pod>, primary: Primary, h: History) {
    && (primary.Bound? ==> forall m :: m in primary.security ==> h.users == Some(primary.security[m]))
    && (UsersSafe(i.status, sts, primary, h) || (i.deleting && primary.Absent?))
    && (pod.Some? && pod.value.phase != Initializing ==> Secured(sts, primary))
  }

  /** Without its claim the backup volume holds nothing, and no Pod has worked on it. */
  predicate BackupClaimOk(backupClaim: bool, b: Backups, backupPod: Option<BackupPod>) {
    !backupClaim ==>
      && b.base == map[] && b.securityBase == []
      && (backupPod.Some? ==> backupPod.value.phase in {Pending, Failed})
  }

  /** What was saved is what there is, unless an upgrade past BackingUp has saved it before. */
  predicate SavedIsCurrent(status: Status, h: History) {
    PastBackingUp(status) || (h.saved == h.committed && h.savedUsers == h.users)
  }

  /** Everything deletion must keep is in the backup. */
  predicate SafeToDelete(i: Instance, sts: Option<StatefulSet>, b: Backups, h: History) {
    sts.Some? ==>
      && SavedIsCurrent(i.status, h)
      && if PastBackingUp(i.status)
         then FullyArchived(b, h, h.listed, i.status.upgrade.value.fromVersion.major)
         else FullyArchived(b, h, i.status.databases, sts.value.version.major)
  }

  /** Deletion: the finalizer only goes once that holds, if the spec asks for it. */
  predicate DeletionOk(i: Instance, gone: bool, sts: Option<StatefulSet>, b: Backups, h: History) {
    gone && i.spec.backupVolume && i.spec.backupOnDelete ==> SafeToDelete(i, sts, b, h)
  }

  predicate Inv(w: World) {
    && InstanceOk(w.instance)
    && ProvisionedOk(w.instance, w.gone, w.sts, w.pod, w.backupPod, w.primary, w.history)
    && VersionsOk(w.sts, w.pod, w.primary)
    && StagesOk(w.instance, w.sts, w.pod, w.backupPod, w.primary, w.history)
    && SnapshotOk(w.sts, w.pod, w.history)
    && BackupPodOk(w.instance, w.sts, w.backupPod, w.backups, w.history)
    && BackupClaimOk(w.backupClaim, w.backups, w.backupPod)
    && UpgradeBackupOk(w.instance.status, w.backups, w.history)
    && DataOk(w.instance, w.primary, w.history)
    && UsersOk(w.instance, w.sts, w.pod, w.primary, w.history)
    && DeletionOk(w.instance, w.gone, w.sts, w.backups, w.history)
  }

  // ---- What one step of a run may change ----

  function Rank(stage: Stage): nat {
    match stage case BackingUp => 1 case Releasing => 2 case Restoring => 3
  }

  /** The upgrade record only appears at BackingUp, moves forward, and disappears at Restoring. */
  predicate StageForward(i: Instance, sts: Option<StatefulSet>, i': Instance) {
    match (i.status.upgrade, i'.status.upgrade)
    case (None, None) => true
    case (None, Some(u')) =>
      && sts.Some? && u'.stage == BackingUp && u'.fromVersion == sts.value.version
      && u'.toVersion == i.spec.version && u'.fromVersion.major < u'.toVersion.major
    case (Some(u), Some(u')) =>
      && u.fromVersion == u'.fromVersion && u.toVersion == u'.toVersion
      && Rank(u.stage) <= Rank(u'.stage) <= Rank(u.stage) + 1
    case (Some(u), None) => u.stage == Restoring && sts.Some? && sts.value.version == u.toVersion
  }

  /** The StatefulSet's major version never goes down, and only up while restoring onto empty storage. */
  predicate MajorForward(w: World, sts': Option<StatefulSet>) {
    w.sts.Some? ==>
      && sts'.Some?
      && w.sts.value.version.major <= sts'.value.version.major
      && (w.sts.value.version.major < sts'.value.version.major ==>
            && AtStage(w.instance.status, Restoring) && Empty(w.primary) && w.pod.None?
            && sts'.value.version == w.instance.status.upgrade.value.toVersion)
  }

  /** Primary storage is only given up by a deletion, or by an upgrade before anything is restored on it. */
  predicate ReleaseAllowed(w: World, primary': Primary) {
    w.primary.Bound? && !w.primary.terminating && (primary'.Bound? ==> primary'.terminating) ==>
      || w.instance.deleting
      || (AtStage(w.instance.status, Releasing) && Stopped(w.sts, w.pod))
      || (AtStage(w.instance.status, Restoring) && Empty(w.primary))
  }

  /**
   * A database stays among those that must not be lost until the user takes it
   * out of spec or deletes the Instance. It joins them once it is recorded, and
   * again when an upgrade begins that lists it.
   */
  predicate KeptForward(i: Instance, primary: Primary, h: History, i': Instance, h': History) {
    i'.deleting
    || (&& (forall db :: db in h.kept && db in i'.spec.databases ==> db in h'.kept)
        && (forall db :: db in i'.status.databases && db !in i.status.databases && db in i'.spec.databases ==>
              db in h'.kept)
        && (i.status.upgrade.None? && i'.status.upgrade.Some? ==>
              forall db :: db in i'.status.databases && db in i'.spec.databases && OnPrimary(primary, db) ==>
                db in h'.kept))
  }

  /**
   * What was committed under such a name, and the users, only change on a
   * server that is up, and what was saved of them only as the server stops.
   */
  predicate DataForward(w: World, w': World) {
    && (forall db :: db in w'.history.kept && db in w.history.kept && db in w.history.committed ==>
          || (db in w'.history.committed && w'.history.committed[db] == w.history.committed[db])
          || (ServerUp(w) && OnPrimary(w.primary, db)))
    && (w.history.users.Some? ==> w'.history.users == w.history.users || ServerUp(w))
    && ((w'.history.saved == w.history.saved && w'.history.savedUsers == w.history.savedUsers)
        || Stopped(w'.sts, w'.pod))
  }

  /** An archive is only written by the backup Pod, and only one of a database on its list. */
  ghost predicate ArchivesForward(b: Backups, b': Backups, backupPod: Option<BackupPod>) {
    forall db :: (backupPod.None? || db !in backupPod.value.databases) ==>
      && (db in b'.base <==> db in b.base)
      && (db in b.base ==> b'.base[db] == b.base[db])
  }

  /** What an upgrade backs up stays there until it has, and what it restores from stays as it is. */
  ghost predicate StorageForward(w: World, w': World) {
    && (w.instance.deleting ==> w'.instance.deleting)
    && (w.instance.status.upgrade.Some? ==> w'.history.listed == w.history.listed)
    && (w.history.users.Some? ==> w'.history.users.Some?)
    && ArchivesForward(w.backups, w'.backups, w.backupPod)
    && (w.backupClaim ==> w'.backupClaim)
    && (w'.backupClaim ==> w.backupClaim || w.instance.status.upgrade.None? || AtStage(w.instance.status, Restoring))
    && (AtStage(w.instance.status, BackingUp) && !w'.instance.deleting ==>
          forall db :: OnPrimary(w.primary, db) ==> OnPrimary(w'.primary, db))
  }

  ghost predicate Forward(w: World, w': World) {
    && StageForward(w.instance, w.sts, w'.instance)
    && MajorForward(w, w'.sts)
    && ReleaseAllowed(w, w'.primary)
    && KeptForward(w.instance, w.primary, w.history, w'.instance, w'.history)
    && DataForward(w, w')
    && StorageForward(w, w')
  }

  // ---- Events keep the invariant ----

  lemma EditedGoesForward(w: World, spec: Spec)
    requires Inv(w) && !w.gone
    ensures Forward(w, Edited(w, spec))
  {
  }

  lemma EditedKeeps(w: World, spec: Spec)
    requires Inv(w) && !w.gone
    ensures Inv(Happens(w, UserEdits(spec))) && Forward(w, Happens(w, UserEdits(spec)))
  {
    EditedGoesForward(w, spec);
  }

  lemma DeletedKeeps(w: World)
    requires Inv(w) && !w.gone
    ensures Inv(Happens(w, UserDeletes)) && Forward(w, Happens(w, UserDeletes))
  {
  }

  lemma StartedKeeps(w: World)
    requires Inv(w) && !w.gone
    ensures Inv(Happens(w, ServerStarts)) && Forward(w, Happens(w, ServerStarts))
  {
  }

  /**
   * Storage that an upgrade made fresh is seeded with the users its own backup
   * saved: that archive is the most recent, and of an older major version.
   */
  lemma UpgradeSeedsTheUsers(w: World)
    requires Inv(w) && AtStage(w.instance.status, Restoring) && w.pod.Some?
    requires !Secured(w.sts, w.primary) && !w.instance.deleting
    ensures w.history.users.Some?
    ensures SeedUsers(w.pod.value.backupVolume, w.backups.securityBase, w.pod.value.version.major) == w.history.users
  {
  }

  lemma SeededKeeps(w: World, users: Users)
    requires Inv(w) && !w.gone && w.pod.Some? && w.primary.Bound? && w.pod.value.version.major !in w.primary.security
    requires w.history.users.Some? ==> w.instance.deleting || Some(users) == w.history.users
    requires w.pod.value.phase == Initializing
    requires SeedUsers(w.pod.value.backupVolume, w.backups.securityBase, w.pod.value.version.major) == Some(users)
    ensures Inv(Seeded(w, users)) && Forward(w, Seeded(w, users))
  {
    var w' := Seeded(w, users);
    assert w'.primary.files == w.primary.files;
  }

  lemma RunningKeeps(w: World)
    requires Inv(w) && !w.gone && w.pod.Some? && w.primary.Bound? && w.pod.value.version.major in w.primary.security
    ensures var w' := w.(pod := Some(w.pod.value.(phase := Running))); Inv(w') && Forward(w, w')
  {
  }

  lemma InitializedKeeps(w: World)
    requires Inv(w) && !w.gone
    ensures Inv(Happens(w, ServerInitializes)) && Forward(w, Happens(w, ServerInitializes))
  {
    NothingKeeps(w);
    if w.pod.Some? && w.pod.value.phase == Initializing && w.primary.Bound? {
      var n := w.pod.value.version.major;
      if n in w.primary.security {
        RunningKeeps(w);
      } else if SeedUsers(w.pod.value.backupVolume, w.backups.securityBase, n).Some? {
        SeedsTheUsersInForce(w);
        SeededKeeps(w, SeedUsers(w.pod.value.backupVolume, w.backups.securityBase, n).value);
      }
    }
  }

  lemma SeedsTheUsersInForce(w: World)
    requires Inv(w) && w.pod.Some? && w.primary.Bound? && w.pod.value.version.major !in w.primary.security
    ensures w.history.users.Some? && !w.instance.deleting ==>
      SeedUsers(w.pod.value.backupVolume, w.backups.securityBase, w.pod.value.version.major) == w.history.users
  {
    if w.history.users.Some? && !w.instance.deleting {
      UpgradeSeedsTheUsers(w);
    }
  }

  lemma ReadyGoesForward(w: World)
    requires Inv(w) && !w.gone
    ensures Forward(w, Happens(w, ServerBecomesReady))
  {
  }

  lemma ReadyKeeps(w: World)
    requires Inv(w) && !w.gone
    ensures Inv(Happens(w, ServerBecomesReady)) && Forward(w, Happens(w, ServerBecomesReady))
  {
    ReadyGoesForward(w);
  }

  lemma StoppedKeeps(w: World)
    requires Inv(w) && !w.gone
    ensures Inv(Happens(w, ServerStops)) && Forward(w, Happens(w, ServerStops))
  {
  }

  lemma CommittedGoesForward(w: World, db: string, content: nat)
    requires Inv(w) && !w.gone
    ensures Forward(w, Committed(w, db, content))
  {
  }

  lemma CommittedKeeps(w: World, db: string, content: nat)
    requires Inv(w) && !w.gone
    ensures Inv(Happens(w, ClientCommits(db, content))) && Forward(w, Happens(w, ClientCommits(db, content)))
  {
    CommittedGoesForward(w, db, content);
  }

  lemma UsersGoesForward(w: World, users: Users)
    requires Inv(w) && !w.gone
    ensures Forward(w, Happens(w, ClientChangesUsers(users)))
  {
  }

  lemma UsersKeeps(w: World, users: Users)
    requires Inv(w) && !w.gone
    ensures Inv(Happens(w, ClientChangesUsers(users))) && Forward(w, Happens(w, ClientChangesUsers(users)))
  {
    UsersGoesForward(w, users);
  }

  lemma PrimaryRemovedGoesForward(w: World)
    requires Inv(w) && !w.gone
    ensures Forward(w, Happens(w, PrimaryIsRemoved))
  {
  }

  lemma PrimaryRemovedKeeps(w: World)
    requires Inv(w) && !w.gone
    ensures Inv(Happens(w, PrimaryIsRemoved)) && Forward(w, Happens(w, PrimaryIsRemoved))
  {
    PrimaryRemovedGoesForward(w);
  }

  lemma ShadowRemovedGoesForward(w: World)
    requires Inv(w) && !w.gone
    ensures Forward(w, Happens(w, ShadowIsRemoved))
  {
  }

  lemma ShadowRemovedKeeps(w: World)
    requires Inv(w) && !w.gone
    ensures Inv(Happens(w, ShadowIsRemoved)) && Forward(w, Happens(w, ShadowIsRemoved))
  {
    ShadowRemovedGoesForward(w);
  }

  lemma PodStartedKeeps(w: World)
    requires Inv(w) && !w.gone
    ensures Inv(Happens(w, BackupPodStarts)) && Forward(w, Happens(w, BackupPodStarts))
  {
  }

  lemma DatabaseOpenedKeeps(w: World)
    requires Inv(w) && !w.gone && NextIsReadable(w) && w.backupPod.value.done < |w.backupPod.value.databases|
    ensures var w' := DatabaseArchiveOpened(w, w.backupPod.value.databases[w.backupPod.value.done]);
      Inv(w') && Forward(w, w')
  {
  }

  lemma SecurityOpenedKeeps(w: World)
    requires Inv(w) && !w.gone && NextIsReadable(w) && w.backupPod.value.done >= |w.backupPod.value.databases|
    ensures var w' := SecurityArchiveOpened(w, w.backupPod.value.version.major); Inv(w') && Forward(w, w')
  {
  }

  lemma OpenedKeeps(w: World)
    requires Inv(w) && !w.gone
    ensures Inv(Happens(w, BackupPodOpensArchive)) && Forward(w, Happens(w, BackupPodOpensArchive))
  {
    if !NextIsReadable(w) {
      NothingKeeps(w);
    } else if w.backupPod.value.done < |w.backupPod.value.databases| {
      DatabaseOpenedKeeps(w);
    } else {
      SecurityOpenedKeeps(w);
    }
  }

  lemma DatabaseArchivedKeeps(w: World)
    requires Inv(w) && !w.gone && NextIsReadable(w) && w.backupPod.value.done < |w.backupPod.value.databases|
    ensures Inv(DatabaseArchived(w)) && Forward(w, DatabaseArchived(w))
  {
  }

  lemma SecurityArchivedKeeps(w: World)
    requires Inv(w) && !w.gone && NextIsReadable(w) && w.backupPod.value.done >= |w.backupPod.value.databases|
    ensures Inv(SecurityArchived(w)) && Forward(w, SecurityArchived(w))
  {
  }

  lemma NothingKeeps(w: World)
    requires Inv(w)
    ensures Forward(w, w)
  {
  }

  lemma ClosedKeeps(w: World)
    requires Inv(w) && !w.gone
    ensures Inv(Happens(w, BackupPodClosesArchive)) && Forward(w, Happens(w, BackupPodClosesArchive))
  {
    if !NextIsReadable(w) {
      NothingKeeps(w);
    } else if w.backupPod.value.done < |w.backupPod.value.databases| {
      DatabaseArchivedKeeps(w);
    } else {
      SecurityArchivedKeeps(w);
    }
  }

  lemma PodFailsKeeps(w: World)
    requires Inv(w) && !w.gone
    ensures Inv(Happens(w, BackupPodFails)) && Forward(w, Happens(w, BackupPodFails))
  {
  }

  lemma HappensKeeps(w: World, e: Event)
    requires Inv(w)
    ensures Inv(Happens(w, e)) && Forward(w, Happens(w, e))
  {
    if !w.gone {
      match e
      case UserEdits(spec) => EditedKeeps(w, spec);
      case UserDeletes => DeletedKeeps(w);
      case ServerStarts => StartedKeeps(w);
      case ServerInitializes => InitializedKeeps(w);
      case ServerBecomesReady => ReadyKeeps(w);
      case ServerStops => StoppedKeeps(w);
      case ClientCommits(db, content) => CommittedKeeps(w, db, content);
      case ClientChangesUsers(users) => UsersKeeps(w, users);
      case PrimaryIsRemoved => PrimaryRemovedKeeps(w);
      case ShadowIsRemoved => ShadowRemovedKeeps(w);
      case BackupPodStarts => PodStartedKeeps(w);
      case BackupPodOpensArchive => OpenedKeeps(w);
      case BackupPodClosesArchive => ClosedKeeps(w);
      case BackupPodFails => PodFailsKeeps(w);
    }
  }

  // ---- What events leave alone ----

  predicate SameData(h: History, h': History) {
    h'.committed == h.committed && h'.users == h.users && h'.saved == h.saved && h'.savedUsers == h.savedUsers
  }

  /** Where w can drift to while the operator does nothing. */
  predicate Drift(w: World, w': World) {
    InstanceDrift(w, w') && RestDrift(w, w')
  }

  predicate InstanceDrift(w: World, w': World) {
    var i, i' := w.instance, w'.instance;
    && i'.status == i.status
    && (i.rv == i'.rv ==> i' == i && w'.gone == w.gone && w'.history.kept == w.history.kept)
    && InstanceSteady(w, w')
  }

  predicate InstanceSteady(w: World, w': World) {
    var i, i' := w.instance, w'.instance;
    && i'.status.upgrade == i.status.upgrade && i'.status.databases == i.status.databases
    && i.rv <= i'.rv
    && (i.deleting ==> i'.deleting)
    && (i.finalizer ==> i'.finalizer && w'.gone == w.gone)
    && (i.status.upgrade.Some? ==> i'.spec.backupVolume == i.spec.backupVolume && i'.spec.shadow == i.spec.shadow)
  }

  predicate RestDrift(w: World, w': World) {
    BackupDrift(w, w') && StorageDrift(w, w')
  }

  /** Of the backup and of what is remembered; nothing but the operator starts or forgets a backup Pod. */
  predicate BackupDrift(w: World, w': World) {
    && w'.sts == w.sts && w'.backupClaim == w.backupClaim
    && w'.history.listed == w.history.listed && w'.history.kept <= w.history.kept
    && (w.history.users.Some? ==> w'.history.users.Some?)
    && (w.backupPod.None? ==> w'.backupPod.None? && w'.backups == w.backups)
    && (w.backupPod.Some? && w.backupPod.value.phase == Succeeded ==>
          w'.backupPod == w.backupPod && w'.backups == w.backups)
  }

  /** Of the server and its storage. */
  predicate StorageDrift(w: World, w': World) {
    && (Stopped(w.sts, w.pod) ==> w'.pod.None? && SameData(w.history, w'.history))
    && (w.shadow.ShadowBound? <==> w'.shadow.ShadowBound?) && (w.shadow.NoShadow? ==> w'.shadow.NoShadow?)
    && (Released(w.primary) ==> Released(w'.primary))
    && match w.primary
       case Absent => w'.primary.Absent? && w'.pod.None? && SameData(w.history, w'.history)
       case Bound(terminating, files, security) =>
         if !terminating then
           w'.primary.Bound? && !w'.primary.terminating
           && w'.primary.files.Keys == files.Keys && security.Keys <= w'.primary.security.Keys
         else if w.pod.None? then
           w'.pod.None? && SameData(w.history, w'.history)
           && (w'.primary.Absent? || w'.primary == w.primary)
         else true
  }

  /** Drift together with status updates that only report. */
  predicate Steady(w: World, w': World) {
    InstanceSteady(w, w') && RestDrift(w, w')
  }

  lemma SteadyIsTransitive(w0: World, w1: World, w2: World)
    requires Steady(w0, w1) && Steady(w1, w2)
    ensures Steady(w0, w2)
  {
  }

  lemma InstanceDrifts(w: World, e: Event)
    requires Inv(w)
    ensures InstanceDrift(w, Happens(w, e))
  {
  }

  lemma BackupDrifts(w: World, e: Event)
    requires Inv(w)
    ensures BackupDrift(w, Happens(w, e))
  {
  }

  lemma StorageDrifts(w: World, e: Event)
    requires Inv(w)
    ensures StorageDrift(w, Happens(w, e))
  {
  }

  lemma HappensDrifts(w: World, e: Event)
    requires Inv(w)
    ensures Drift(w, Happens(w, e))
  {
    InstanceDrifts(w, e);
    BackupDrifts(w, e);
    StorageDrifts(w, e);
  }

  lemma DriftIsTransitive(w0: World, w1: World, w2: World)
    requires Drift(w0, w1) && Drift(w1, w2)
    ensures Drift(w0, w2)
  {
  }

  lemma DriftIsReflexive(w: World)
    requires Inv(w)
    ensures Drift(w, w)
  {
  }

  lemma OnlyUsersChangeSpec(w: World, e: Event)
    ensures !e.UserEdits? && !e.UserDeletes? ==> Happens(w, e).instance == w.instance
  {
  }
}
