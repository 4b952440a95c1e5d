/**
 * What the operator sees and changes through the API server, what lies on the
 * volumes behind it, and everything that moves without the operator: the user,
 * the clients of the databases, and Kubernetes itself.
 */
module Cluster {
  import opened Wrappers
  import opened Names
  import opened Sequences

  // ---- The Instance ----

  datatype Stage = BackingUp | Releasing | Restoring

  datatype UpgradeStatus = UpgradeStatus(fromVersion: Version, toVersion: Version, stage: Stage)

  datatype Phase = Unset | Provisioning | Upgrading | Ready | Deleting

  /** status.message, status.error, status.firebirdVersion and the Available condition: they decide nothing here. */
  datatype Report = Report(message: string, error: string, firebirdVersion: string, available: bool)

  datatype Status = Status(
    databases: seq<string>,
    databaseCount: nat,
    phase: Phase,
    upgrade: Option<UpgradeStatus>,
    report: Report)

  datatype Spec = Spec(
    version: Version,
    databases: seq<string>,
    backupVolume: bool,           // backupVolumeSpec(instance) != nil
    backupOnDelete: bool,
    backupImage: Option<Version>, // spec.backup.image
    shadow: bool)                 // spec.storage.shadow != nil

  /** One version of the Instance object, rv being its resourceVersion. */
  datatype Instance = Instance(spec: Spec, status: Status, deleting: bool, finalizer: bool, rv: nat)

  // ---- The objects it owns, and the volumes ----

  datatype StatefulSet = StatefulSet(version: Version, replicas: nat, backupVolume: bool, shadow: bool)

  datatype PodPhase = Initializing | Running | Available

  /** The server pod; backupVolume is whether its init container mounts the backup volume. */
  datatype Pod = Pod(version: Version, backupVolume: bool, phase: PodPhase)

  datatype JobPhase = Pending | Working | Succeeded | Failed

  /** The backup Pod: done counts the archives it has completed, the security database's being the last. */
  datatype BackupPod = BackupPod(image: Version, version: Version, databases: seq<string>, phase: JobPhase, done: nat)

  datatype DbFile = DbFile(content: nat, major: int)

  /** The users of a security database other than SYSDBA, with their credentials. */
  type Users = map<string, string>

  /** The primary PVC with the databases on it; security is keyed by the N of securityN.fdb. */
  datatype Primary =
    | Absent
    | Bound(terminating: bool, files: map<string, DbFile>, security: map<int, Users>)

  datatype Shadow = NoShadow | ShadowBound | ShadowTerminating

  /** A gbak archive; one being written over is Partial. */
  datatype Archive = Partial | Complete(content: nat, major: int)

  datatype SecurityArchive = SecurityArchive(major: int, users: Option<Users>)

  /** The backup volume's base directory. securityBase lists what "ls -t" does, newest first. */
  datatype Backups = Backups(base: map<string, Archive>, securityBase: seq<SecurityArchive>)

  /**
   * What the claims are about and no object stores: what clients last
   * committed, the users last in force, the databases that must not be lost
   * (recorded in status and left in spec since), the databases listed when the
   * last upgrade began, and what was there when the server was last stopped
   * for a backup.
   */
  datatype History = History(
    committed: map<string, nat>,
    users: Option<Users>,
    kept: set<string>,
    listed: seq<string>,
    saved: map<string, nat>,
    savedUsers: Option<Users>)

  /**
   * The whole cluster. Archives are keyed by database (BackupNamesAreDistinct
   * says why that loses nothing).
   */
  datatype World = World(
    instance: Instance,
    gone: bool,
    sts: Option<StatefulSet>,
    pod: Option<Pod>,
    backupPod: Option<BackupPod>,
    primary: Primary,
    shadow: Shadow,
    backupClaim: bool,            // whether the backup PVC is there
    backups: Backups,
    history: History)

  predicate Stopped(sts: Option<StatefulSet>, pod: Option<Pod>) {
    sts.Some? && sts.value.replicas == 0 && pod.None?
  }

  predicate ServerUp(w: World) {
    w.pod.Some? && w.pod.value.phase != Initializing && w.primary.Bound?
  }

  predicate OnPrimary(primary: Primary, db: string) {
    primary.Bound? && db in primary.files
  }

  predicate AtStage(status: Status, stage: Stage) {
    status.upgrade.Some? && status.upgrade.value.stage == stage
  }

  /** What the API rules and the documented use let a user write into spec. */
  predicate ValidSpec(spec: Spec) {
    spec.version.major > 0 && NoDuplicates(spec.databases)
  }

  // ---- What the init container leaves (see SecurityInit for its commands) ----

  /** The first archive, newest first, of a major version not above n. */
  function PickArchive(archives: seq<SecurityArchive>, n: int): Option<SecurityArchive> {
    if archives == [] then None
    else if archives[0].major <= n then Some(archives[0])
    else PickArchive(archives[1..], n)
  }

  /** The users a fresh security database of major n starts with; None when the restore fails. */
  function SeedUsers(backupVolume: bool, archives: seq<SecurityArchive>, n: int): Option<Users> {
    if !backupVolume then Some(map[])
    else match PickArchive(archives, n)
      case None => Some(map[])
      case Some(archive) => archive.users
  }

  function WithoutMajor(archives: seq<SecurityArchive>, n: int): seq<SecurityArchive> {
    if archives == [] then []
    else if archives[0].major == n then WithoutMajor(archives[1..], n)
    else [archives[0]] + WithoutMajor(archives[1..], n)
  }

  function Newest(archives: seq<SecurityArchive>, archive: SecurityArchive): seq<SecurityArchive> {
    [archive] + WithoutMajor(archives, archive.major)
  }

  // ---- Everything that happens without the operator ----

  datatype Event =
    | UserEdits(spec: Spec)
    | UserDeletes
    | ServerStarts
    | ServerInitializes
    | ServerBecomesReady
    | ServerStops
    | ClientCommits(db: string, content: nat)
    | ClientChangesUsers(users: Users)
    | PrimaryIsRemoved
    | ShadowIsRemoved
    | BackupPodStarts
    | BackupPodOpensArchive
    | BackupPodClosesArchive
    | BackupPodFails

  /** An event that cannot happen in w leaves it as it is. */
  function Happens(w: World, e: Event): World {
    if w.gone then w
    else match e
      case UserEdits(spec) => Edited(w, spec)
      case UserDeletes => Deleted(w)
      case ServerStarts => Started(w)
      case ServerInitializes => Initialized(w)
      case ServerBecomesReady =>
        if w.pod.Some? && w.pod.value.phase == Running
        then w.(pod := Some(w.pod.value.(phase := Available))) else w
      case ServerStops => ServerStopped(w)
      case ClientCommits(db, content) => Committed(w, db, content)
      case ClientChangesUsers(users) => UsersChanged(w, users)
      case PrimaryIsRemoved =>
        if w.primary.Bound? && w.primary.terminating && !InUse(w) then w.(primary := Absent) else w
      case ShadowIsRemoved =>
        if w.shadow == ShadowTerminating && !InUse(w) then w.(shadow := NoShadow) else w
      case BackupPodStarts => BackupPodStarted(w)
      case BackupPodOpensArchive => ArchiveOpened(w)
      case BackupPodClosesArchive => ArchiveClosed(w)
      case BackupPodFails =>
        if w.backupPod.Some? && w.backupPod.value.phase in {Pending, Working}
        then w.(backupPod := Some(w.backupPod.value.(phase := Failed))) else w
  }

  /** A claim is only removed once no pod uses it. */
  predicate InUse(w: World) {
    w.pod.Some? || (w.backupPod.Some? && w.backupPod.value.phase == Working)
  }

  /** While an upgrade is recorded, its volumes stay as they are (an assumption, see README). */
  function Edited(w: World, spec: Spec): World {
    var i := w.instance;
    if ValidSpec(spec) &&
       (i.status.upgrade.Some? ==> spec.backupVolume == i.spec.backupVolume && spec.shadow == i.spec.shadow)
    then w.(instance := i.(spec := spec, rv := i.rv + 1),
            history := w.history.(kept := w.history.kept * Elements(spec.databases)))
    else w
  }

  /** Without its finalizer the Instance is gone at once. */
  function Deleted(w: World): World {
    if w.instance.deleting then w
    else w.(instance := w.instance.(deleting := true, rv := w.instance.rv + 1),
            gone := !w.instance.finalizer,
            history := w.history.(kept := {}))
  }

  function Started(w: World): World {
    if w.sts.Some? && w.sts.value.replicas > 0 && w.pod.None?
       && w.primary.Bound? && !w.primary.terminating
       && (w.sts.value.shadow ==> w.shadow == ShadowBound)
       && (w.sts.value.backupVolume ==> w.backupClaim)
    then w.(pod := Some(Pod(w.sts.value.version, w.sts.value.backupVolume, Initializing)))
    else w
  }

  function Initialized(w: World): World {
    if w.pod.Some? && w.pod.value.phase == Initializing && w.primary.Bound? then
      var n := w.pod.value.version.major;
      if n in w.primary.security then w.(pod := Some(w.pod.value.(phase := Running)))
      else match SeedUsers(w.pod.value.backupVolume, w.backups.securityBase, n)
        case None => w
        case Some(users) => Seeded(w, users)
    else w
  }

  function Seeded(w: World, users: Users): World
    requires w.pod.Some? && w.primary.Bound?
  {
    w.(pod := Some(w.pod.value.(phase := Running)),
       primary := w.primary.(security := w.primary.security[w.pod.value.version.major := users]),
       history := if w.history.users.None? then w.history.(users := Some(users)) else w.history)
  }

  function Snapshot(h: History): History {
    h.(saved := h.committed, savedUsers := h.users)
  }

  function ServerStopped(w: World): World {
    if w.pod.None? then w
    else w.(pod := None,
            history := if w.sts.Some? && w.sts.value.replicas == 0 then Snapshot(w.history) else w.history)
  }

  function Committed(w: World, db: string, content: nat): World {
    if ServerUp(w) && db in w.primary.files then
      w.(primary := w.primary.(files := w.primary.files[db := w.primary.files[db].(content := content)]),
         history := w.history.(committed := w.history.committed[db := content]))
    else w
  }

  function UsersChanged(w: World, users: Users): World {
    if ServerUp(w) && w.pod.value.version.major in w.primary.security then
      w.(primary := w.primary.(security := w.primary.security[w.pod.value.version.major := users]),
         history := w.history.(users := Some(users)))
    else w
  }

  function BackupPodStarted(w: World): World {
    if w.backupPod.Some? && w.backupPod.value.phase == Pending
       && w.primary.Bound? && !w.primary.terminating && w.backupClaim
    then w.(backupPod := Some(w.backupPod.value.(phase := Working)))
    else w
  }

  /** Whether the backup Pod's engine can open the next database on its list. */
  predicate NextIsReadable(w: World) {
    && w.backupPod.Some? && w.backupPod.value.phase == Working && w.primary.Bound?
    && var b := w.backupPod.value;
       if b.done < |b.databases|
       then b.databases[b.done] in w.primary.files
            && w.primary.files[b.databases[b.done]].major == b.image.major
       else b.done == |b.databases| && b.version.major in w.primary.security
            && b.version.major == b.image.major
  }

  /** gbak has begun writing over the archive. */
  function ArchiveOpened(w: World): World {
    if !NextIsReadable(w) then w
    else
      var b := w.backupPod.value;
      if b.done < |b.databases| then DatabaseArchiveOpened(w, b.databases[b.done])
      else SecurityArchiveOpened(w, b.version.major)
  }

  function DatabaseArchiveOpened(w: World, db: string): World {
    w.(backups := w.backups.(base := w.backups.base[db := Partial]))
  }

  function SecurityArchiveOpened(w: World, major: nat): World {
    w.(backups := w.backups.(securityBase := Newest(w.backups.securityBase, SecurityArchive(major, None))))
  }

  /** gbak has finished the archive. */
  function ArchiveClosed(w: World): World {
    if !NextIsReadable(w) then w
    else if w.backupPod.value.done < |w.backupPod.value.databases| then DatabaseArchived(w)
    else SecurityArchived(w)
  }

  function DatabaseArchived(w: World): World
    requires NextIsReadable(w) && w.backupPod.value.done < |w.backupPod.value.databases|
  {
    var b := w.backupPod.value;
    var db := b.databases[b.done];
    var file := w.primary.files[db];
    w.(backups := w.backups.(base := w.backups.base[db := Complete(file.content, file.major)]),
       backupPod := Some(b.(done := b.done + 1)))
  }

  function SecurityArchived(w: World): World
    requires NextIsReadable(w) && w.backupPod.value.done >= |w.backupPod.value.databases|
  {
    var b := w.backupPod.value;
    var archive := SecurityArchive(b.version.major, Some(w.primary.security[b.version.major]));
    w.(backups := w.backups.(securityBase := Newest(w.backups.securityBase, archive)),
       backupPod := Some(b.(done := b.done + 1, phase := Succeeded)))
  }

  // ---- What each API call and exec of the operator does once it takes effect ----

  /** A status update; recording an upgrade notes the databases listed then. */
  function StatusWritten(w: World, status: Status): World {
    var i := w.instance;
    w.(instance := i.(status := status, rv := i.rv + 1),
       history := w.history.(
         listed := if i.status.upgrade.None? && status.upgrade.Some? then status.databases else w.history.listed,
         kept := if i.deleting then w.history.kept
                 else w.history.kept + NewlyListed(i, status) + TakenAlong(w, status)))
  }

  /**
   * An upgrade takes along every database it lists that spec has and that is
   * there, be it that the user had taken it out of spec for a moment.
   */
  function TakenAlong(w: World, status: Status): set<string> {
    if w.instance.status.upgrade.None? && status.upgrade.Some?
    then set db | db in status.databases && db in w.instance.spec.databases && OnPrimary(w.primary, db)
    else {}
  }

  /** The databases a status update records for the first time, as far as spec still has them. */
  function NewlyListed(i: Instance, status: Status): set<string> {
    set db | db in status.databases && db !in i.status.databases && db in i.spec.databases
  }

  function FinalizerAdded(w: World): World {
    w.(instance := w.instance.(finalizer := true, rv := w.instance.rv + 1))
  }

  function FinalizerRemoved(w: World): World {
    w.(instance := w.instance.(finalizer := false, rv := w.instance.rv + 1), gone := true)
  }

  function ScaledToZero(w: World): World
    requires w.sts.Some?
  {
    w.(sts := Some(w.sts.value.(replicas := 0)),
       history := if w.pod.None? then Snapshot(w.history) else w.history)
  }

  function StatefulSetApplied(w: World, spec: Spec): World {
    w.(sts := Some(StatefulSet(spec.version, 1, spec.backupVolume, spec.shadow)))
  }

  function PrimaryCreated(w: World): World {
    if w.primary.Absent? then w.(primary := Bound(false, map[], map[])) else w
  }

  function BackupClaimCreated(w: World): World {
    w.(backupClaim := true)
  }

  function ShadowCreated(w: World): World {
    if w.shadow.NoShadow? then w.(shadow := ShadowBound) else w
  }

  function PrimaryDeleted(w: World): World {
    if w.primary.Bound? then w.(primary := w.primary.(terminating := true)) else w
  }

  function ShadowDeleted(w: World): World {
    if w.shadow.ShadowBound? then w.(shadow := ShadowTerminating) else w
  }

  /** databaseBackupImage, as the version of the engine it runs. */
  function DatabaseBackupImage(spec: Spec, version: Version): Version {
    if version == spec.version && spec.backupImage.Some? then spec.backupImage.value else version
  }

  function BackupPodCreated(w: World, spec: Spec, version: Version, databases: seq<string>): World {
    w.(backupPod := Some(BackupPod(DatabaseBackupImage(spec, version), version, databases, Pending, 0)))
  }

  function BackupPodDeleted(w: World): World {
    w.(backupPod := None)
  }

  /** DROP DATABASE; dropping a file that is not there changes nothing. */
  function DatabaseDropped(w: World, db: string): World
    requires ServerUp(w)
  {
    w.(primary := w.primary.(files := w.primary.files - {db}),
       history := w.history.(committed := w.history.committed - {db}))
  }

  /** A file appearing under a name that must not be lost leaves what was committed there as it was. */
  function FileAdded(w: World, db: string, content: nat): World
    requires ServerUp(w)
  {
    w.(primary := w.primary.(files := w.primary.files[db := DbFile(content, w.pod.value.version.major)]),
       history := if db in w.history.kept then w.history
                  else w.history.(committed := w.history.committed[db := content]))
  }

  /** gbak -create refuses an existing file, a broken archive, and one a newer major version wrote. */
  predicate Restorable(w: World, db: string) {
    && ServerUp(w) && db !in w.primary.files
    && db in w.backups.base && w.backups.base[db].Complete?
    && w.backups.base[db].major <= w.pod.value.version.major
  }
}
