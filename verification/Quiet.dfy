/**
 * A reconcile that nothing disturbs, as a function of what it finds: no call
 * fails and nothing else moves while it runs. Operator.dfy proves that this is
 * what the reconciler then does; Progress.dfy builds on it.
 */
module Quiet {
  import opened Wrappers
  import opened Names
  import opened Cluster
  import opened Sequences
  import opened Safety
  import opened Steps
  import opened Prospects
  import Databases

  /** What a reconcile reads and changes, but for the report, the phase and the resourceVersion. */
  datatype Parts = Parts(
    sts: Option<StatefulSet>,
    pod: Option<Pod>,
    backupPod: Option<BackupPod>,
    primary: Primary,
    shadow: Shadow,
    backupClaim: bool,
    backups: Backups,
    upgrade: Option<UpgradeStatus>,
    databases: seq<string>)

  function PartsOf(w: World): Parts {
    Parts(w.sts, w.pod, w.backupPod, w.primary, w.shadow, w.backupClaim, w.backups,
          w.instance.status.upgrade, w.instance.status.databases)
  }

  predicate HasStage(p: Parts, stage: Stage) {
    p.upgrade.Some? && p.upgrade.value.stage == stage
  }

  // ---- backupDatabases ----

  predicate BackupIsDone(p: Parts) {
    p.sts.None? || (Stopped(p.sts, p.pod) && p.backupPod.Some? && p.backupPod.value.phase == Succeeded)
  }

  function BackupStep(p: Parts, spec: Spec, version: Version): Parts {
    if p.sts.None? then p
    else if !Stopped(p.sts, p.pod) then p.(sts := Some(p.sts.value.(replicas := 0)))
    else if p.backupPod.None? then
      p.(backupPod := Some(BackupPod(DatabaseBackupImage(spec, version), version, p.databases, Pending, 0)))
    else if p.backupPod.value.phase in {Succeeded, Failed} then p.(backupPod := None)
    else p
  }

  // ---- releaseStorageForUpgrade ----

  predicate ReleaseIsDone(p: Parts, spec: Spec) {
    p.primary.Absent? && (spec.shadow ==> p.shadow.NoShadow?)
  }

  function ReleaseStep(p: Parts, spec: Spec): Parts {
    p.(primary := if p.primary.Bound? then p.primary.(terminating := true) else p.primary,
       shadow := if spec.shadow && p.shadow.ShadowBound? then ShadowTerminating else p.shadow)
  }

  // ---- reconcileMajorUpgrade ----

  /** Nothing keeps an upgrade from going on, nor a finished one from staying so. */
  predicate MayAdvance(p: Parts, spec: Spec) {
    match p.sts
    case None => p.upgrade.None?
    case Some(sts) =>
      && 0 < sts.version.major <= spec.version.major
      && (p.upgrade.Some? || sts.version.major < spec.version.major ==> spec.backupVolume)
      && (p.upgrade.Some? ==> p.upgrade.value.toVersion == spec.version)
      && (HasStage(p, BackingUp) || HasStage(p, Releasing) ==> sts.version != spec.version)
  }

  /** startMajorUpgrade has an upgrade to begin. */
  predicate IsBehind(p: Parts, spec: Spec) {
    p.sts.Some? && p.sts.value.version.major < spec.version.major
  }

  function StagesLeft(p: Parts, spec: Spec): nat {
    match p.upgrade
    case None => if IsBehind(p, spec) then 4 else 0
    case Some(u) => match u.stage case BackingUp => 3 case Releasing => 2 case Restoring => 1
  }

  /** What startMajorUpgrade leaves, ... */
  function Begun(p: Parts, spec: Spec): Parts
    requires IsBehind(p, spec)
  {
    p.(upgrade := Some(UpgradeStatus(p.sts.value.version, spec.version, BackingUp)))
  }

  /** ... and what the two stages leave once they are done. */
  function BackupRecorded(p: Parts, spec: Spec): Parts
    requires p.upgrade.Some?
  {
    BackupStep(p, spec, p.upgrade.value.fromVersion)
      .(databases := [], upgrade := WithStage(p.upgrade.value, Releasing))
  }

  function ReleaseRecorded(p: Parts, spec: Spec): Parts
    requires p.upgrade.Some?
  {
    ReleaseStep(p, spec).(upgrade := WithStage(p.upgrade.value, Restoring))
  }

  /** What the function leaves, stage after stage, and whether the reconcile goes on. */
  function UpgradeStep(p: Parts, spec: Spec): (r: (Parts, bool))
    ensures r.0.pod == p.pod && r.0.backups == p.backups && r.0.sts.Some? == p.sts.Some?
    ensures StagesLeft(r.0, spec) <= StagesLeft(p, spec)
    decreases StagesLeft(p, spec)
  {
    if p.upgrade.None? then if IsBehind(p, spec) then UpgradeStep(Begun(p, spec), spec) else (p, true)
    else match p.upgrade.value.stage
      case BackingUp =>
        if BackupIsDone(p) then UpgradeStep(BackupRecorded(p, spec), spec)
        else (BackupStep(p, spec, p.upgrade.value.fromVersion), false)
      case Releasing =>
        if ReleaseIsDone(p, spec) then UpgradeStep(ReleaseRecorded(p, spec), spec)
        else (ReleaseStep(p, spec), false)
      case Restoring => (p, true)
  }

  /** From p the function gets to p', where it goes on or stops. */
  predicate Advances(p: Parts, p': Parts, goesOn: bool, spec: Spec) {
    UpgradeStep(p, spec) == if goesOn then UpgradeStep(p', spec) else (p', false)
  }

  // ---- reconcileDeletion ----

  /** Whether a deletion takes a backup; past BackingUp the upgrade has taken it. */
  predicate OwesBackup(p: Parts, spec: Spec) {
    spec.backupVolume && spec.backupOnDelete && (p.upgrade.None? || p.upgrade.value.stage == BackingUp)
  }

  /** The version whose databases it backs up. */
  function DeletedVersion(p: Parts, spec: Spec): Version {
    if p.upgrade.Some? then p.upgrade.value.fromVersion else spec.version
  }

  /** What a reconcile of a deletion leaves, and whether the finalizer goes. */
  function DeletionStep(p: Parts, spec: Spec): (Parts, bool) {
    if !OwesBackup(p, spec) then (ReleaseStep(p, spec), true)
    else if BackupIsDone(p) then (ReleaseStep(BackupStep(p, spec, DeletedVersion(p, spec)), spec), true)
    else (BackupStep(p, spec, DeletedVersion(p, spec)), false)
  }

  /** Field by field: a deletion that takes no backup releases storage and is done, leaving everything else. */
  lemma DeletionWithoutBackup(p: Parts, spec: Spec)
    requires !spec.backupVolume || !spec.backupOnDelete || HasStage(p, Releasing) || HasStage(p, Restoring)
    ensures var (p', gone) := DeletionStep(p, spec);
      && gone && Released(p'.primary) && (spec.shadow ==> !p'.shadow.ShadowBound?)
      && (!spec.shadow ==> p'.shadow == p.shadow)
      && (p.primary.Bound? ==> p'.primary == p.primary.(terminating := true)) && (p.primary.Absent? ==> p'.primary.Absent?)
      && p' == p.(primary := p'.primary, shadow := p'.shadow)
  {
  }

  /**
   * One that does first scales the server down, then has a Pod back up the listed
   * databases: of the version the StatefulSet runs where an upgrade is recorded,
   * of spec.version otherwise, with spec.backup.image for the latter if it is
   * set. A failed Pod is removed for another try, and one that succeeded lets
   * the deletion finish.
   */
  lemma DeletionWithBackup(p: Parts, spec: Spec)
    requires spec.backupVolume && spec.backupOnDelete && p.sts.Some? && (p.upgrade.None? || HasStage(p, BackingUp))
    ensures var (p', gone) := DeletionStep(p, spec);
      var version := if p.upgrade.Some? then p.upgrade.value.fromVersion else spec.version;
      var image := if version == spec.version && spec.backupImage.Some? then spec.backupImage.value else version;
      var stopped := p.sts.value.replicas == 0 && p.pod.None?;
      && (!stopped ==> !gone && p' == p.(sts := Some(p.sts.value.(replicas := 0))))
      && (stopped && p.backupPod.None? ==>
            !gone && p' == p.(backupPod := Some(BackupPod(image, version, p.databases, Pending, 0))))
      && (stopped && p.backupPod.Some? ==>
            match p.backupPod.value.phase
            case Failed => !gone && p' == p.(backupPod := None)
            case Succeeded => gone && p'.backupPod.None? && Released(p'.primary)
            case _ => !gone && p' == p)
  {
  }

  // ---- The rest of reconcileInstance ----

  /** reconcilePVCs, ... */
  function ClaimsStep(p: Parts, spec: Spec): Parts {
    p.(primary := if p.primary.Absent? then Bound(false, map[], map[]) else p.primary,
       shadow := if spec.shadow && p.shadow.NoShadow? then ShadowBound else p.shadow,
       backupClaim := p.backupClaim || spec.backupVolume)
  }

  /** ... and then the StatefulSet. */
  function ProvisionStep(p: Parts, spec: Spec): Parts {
    ClaimsStep(p, spec).(sts := Desired(spec))
  }

  function Desired(spec: Spec): Option<StatefulSet> {
    Some(StatefulSet(spec.version, 1, spec.backupVolume, spec.shadow))
  }

  /** Field by field: what is missing and asked for is created, nothing else changes. */
  lemma ProvisionsWhatIsMissing(p: Parts, spec: Spec)
    ensures var p' := ProvisionStep(p, spec);
      && p'.primary == (if p.primary.Absent? then Bound(false, map[], map[]) else p.primary)
      && p'.shadow == (if spec.shadow && p.shadow == NoShadow then ShadowBound else p.shadow)
      && (p'.backupClaim <==> p.backupClaim || spec.backupVolume)
      && p'.sts == Some(StatefulSet(spec.version, 1, spec.backupVolume, spec.shadow))
      && p' == p.(primary := p'.primary, shadow := p'.shadow, backupClaim := p'.backupClaim, sts := p'.sts)
  {
  }

  predicate IsServing(p: Parts) {
    p.pod.Some? && p.pod.value.phase == Available
  }

  /** Everything but the files on primary storage, and what they stand for, is the same. */
  predicate OnlyFilesDiffer(w: World, w': World) {
    w.primary.Bound? && w'.primary.Bound? && w' == w.(primary := w'.primary, history := w'.history)
  }

  /** A server that is up finds nothing it cannot restore. */
  predicate MaySettle(p: Parts, spec: Spec) {
    p.pod.Some? && AllUsable(p.backups, spec.databases, p.pod.value.version.major)
  }

  predicate CanReconcile(p: Parts, spec: Spec) {
    && MayAdvance(p, spec)
    && var (upgraded, goesOn) := UpgradeStep(p, spec);
       goesOn && IsServing(upgraded) ==> MaySettle(upgraded, spec)
  }

  /** An Instance in use, on which nothing keeps a reconcile from getting on. */
  predicate MayReconcile(w: World) {
    !w.gone && !w.instance.deleting && CanReconcile(PartsOf(w), w.instance.spec)
  }

  /** A whole reconcile of an Instance that is not being deleted. */
  predicate ReconciledTo(p: Parts, spec: Spec, w: World) {
    var (upgraded, goesOn) := UpgradeStep(p, spec);
    if goesOn then RestReconciledTo(upgraded, spec, w) else PartsOf(w) == upgraded
  }

  /** The part of it past reconcileMajorUpgrade. */
  predicate RestReconciledTo(p: Parts, spec: Spec, w: World) {
    if !IsServing(p) then PartsOf(w) == ProvisionStep(p, spec)
    else w.instance.status.phase == Ready && IsReady(w, w.instance)
  }

  /** What Ready stands for: no upgrade, the version asked for, and exactly the databases asked for. */
  predicate IsReady(w: World, i: Instance) {
    && w.instance.status.upgrade.None?
    && w.sts.Some? && w.sts.value.version == i.spec.version
    && Elements(w.instance.status.databases) == Elements(i.spec.databases)
    && i.status.databaseCount == |Elements(i.spec.databases)|
  }

  predicate SamePhase(w: World, w': World) {
    w'.instance.status == w.instance.status.(report := w'.instance.status.report) && w'.instance.spec == w.instance.spec
  }

  lemma ReportedStill(p: Parts, spec: Spec, w: World, w': World)
    ensures ReconciledTo(p, spec, w) && PartsOf(w') == PartsOf(w) && SamePhase(w, w') ==>
      ReconciledTo(p, spec, w')
  {
  }

  // ---- Files, as reconcileDatabases' plan sees them ----

  function ContentsOf(primary: Primary): Databases.Contents {
    if primary.Absent? then map[] else map db <- primary.files :: primary.files[db].content
  }

  function ArchivesOf(b: Backups, backupVolume: bool): Databases.Contents {
    if backupVolume then map db <- b.base | b.base[db].Complete? :: b.base[db].content else map[]
  }

  lemma ContentsDropped(w: World, db: string, backupVolume: bool)
    requires ServerUp(w)
    ensures forall ok :: EffectOrNone(w, DatabaseDropped(w, db), backupVolume, Databases.Drop(db), ok)
  {
    var files, files' := ContentsOf(w.primary), ContentsOf(DatabaseDropped(w, db).primary);
    assert files' == Databases.Effect(files, ArchivesOf(w.backups, backupVolume), Databases.Drop(db));
  }

  /** What a missing database is given. */
  function FreshContent(w: World, db: string, backupVolume: bool): nat {
    Databases.Fresh(ArchivesOf(w.backups, backupVolume), db)
  }

  /** The file was added with this content, or nothing happened and that is known. */
  predicate ProvidedOrNot(w: World, w': World, db: string, content: nat, ok: bool) {
    || (w' == w && !ok)
    || (ServerUp(w) && !OnPrimary(w.primary, db) && w' == FileAdded(w, db, content))
  }

  lemma ProvidedHasEffect(w: World, w': World, db: string, backupVolume: bool, ok: bool)
    ensures ServerUp(w) && (ProvidedOrNot(w, w', db, FreshContent(w, db, backupVolume), ok)
                            || (w' == w && OnPrimary(w.primary, db))) ==>
      EffectOrNone(w, w', backupVolume, Databases.Provide(db), ok)
  {
    if ServerUp(w) && !OnPrimary(w.primary, db) && w' == FileAdded(w, db, FreshContent(w, db, backupVolume)) {
      assert ContentsOf(w'.primary)
        == Databases.Effect(ContentsOf(w.primary), ArchivesOf(w.backups, backupVolume), Databases.Provide(db));
    }
  }

  /** A file that was missing holds what its archive does, or nothing. */
  lemma ProvidedIsGiven(w: World, w': World, db: string, backupVolume: bool)
    ensures ServerUp(w) && EffectOrNone(w, w', backupVolume, Databases.Provide(db), true) ==>
      && w'.primary.files.Keys == w.primary.files.Keys + {db}
      && w'.primary.files[db].content ==
           if db in w.primary.files then w.primary.files[db].content
           else if backupVolume && db in w.backups.base && w.backups.base[db].Complete? then w.backups.base[db].content
           else 0
  {
    if ServerUp(w) && EffectOrNone(w, w', backupVolume, Databases.Provide(db), true) {
      var files, files' := ContentsOf(w.primary), ContentsOf(w'.primary);
      assert files.Keys == w.primary.files.Keys && files'.Keys == w'.primary.files.Keys;
      assert files'.Keys == files.Keys + {db};
      assert files'[db] == w'.primary.files[db].content;
      assert db in files ==> files[db] == w.primary.files[db].content;
    }
  }

  // ---- Whether the databases of a plan can be provided ----

  /** A server is up, and the database's archive, if any, can be restored. */
  predicate CanProvide(w: World, db: string) {
    ServerUp(w) && Usable(w.backups, db, w.pod.value.version.major)
  }

  predicate CanProvideAll(w: World, databases: seq<string>) {
    ServerUp(w) && AllUsable(w.backups, databases, w.pod.value.version.major)
  }

  /** A server is up to settle the databases, and every archive it may need can be restored. */
  predicate CanSettle(w: World, spec: Spec) {
    CanProvideAll(w, spec.databases)
  }

  lemma CanProvideNext(w0: World, w: World, databases: seq<string>, k: nat)
    requires k < |databases|
    ensures CanProvideAll(w0, databases) && OnlyFilesDiffer(w0, w) ==> CanProvide(w, databases[k])
  {
  }

  lemma CanStillProvide(
    w0: World, w: World, backupVolume: bool, commands: seq<Databases.Command>, done: nat, databases: seq<string>)
    ensures CanProvideAll(w0, databases) && Executed(w0, w, backupVolume, commands, done) ==> CanProvideAll(w, databases)
  {
  }

  lemma CanProvidePending(w: World, i: Instance)
    ensures CanSettle(w, i.spec) ==>
      CanProvideAll(w, Databases.Pending(i.spec.databases, i.status.databases))
  {
    if CanSettle(w, i.spec) {
      Databases.OutsideElements(i.spec.databases, i.status.databases);
      AllUsableAmong(w.backups, i.spec.databases, Databases.Pending(i.spec.databases, i.status.databases), w.pod.value.version.major);
    }
  }

  function PlanOf(i: Instance): seq<Databases.Command> {
    Databases.Plan(i.spec.databases, i.status.databases)
  }

  /** The files on primary storage are those the first done execs of the plan leave. */
  predicate FollowsPlan(w: World, w': World, i: Instance, done: nat) {
    && done <= |PlanOf(i)|
    && ContentsOf(w'.primary) ==
         Databases.Execute(ContentsOf(w.primary), ArchivesOf(w.backups, i.spec.backupVolume), PlanOf(i)[..done])
  }

  /** An exec of the plan has taken effect on the files, or it has not and is known to have failed. */
  predicate EffectOrNone(w: World, w': World, backupVolume: bool, c: Databases.Command, ok: bool) {
    && OnlyFilesDiffer(w, w')
    && (ContentsOf(w'.primary) == Databases.Effect(ContentsOf(w.primary), ArchivesOf(w.backups, backupVolume), c)
        || (ContentsOf(w'.primary) == ContentsOf(w.primary) && !ok))
  }

  /** The files on primary storage are those the first done execs leave. */
  predicate Executed(w: World, w': World, backupVolume: bool, commands: seq<Databases.Command>, done: nat) {
    && done <= |commands|
    && OnlyFilesDiffer(w, w')
    && ContentsOf(w'.primary) ==
         Databases.Execute(ContentsOf(w.primary), ArchivesOf(w.backups, backupVolume), commands[..done])
  }

  lemma ExecutedNothing(w: World, backupVolume: bool, commands: seq<Databases.Command>)
    ensures ServerUp(w) ==> Executed(w, w, backupVolume, commands, 0)
  {
    assert commands[..0] == [];
  }

  lemma ExecutedNext(w0: World, w: World, w': World, backupVolume: bool, commands: seq<Databases.Command>, k: nat, ok: bool)
    returns (done: nat)
    requires k < |commands|
    ensures ok ==> done == k + 1
    ensures Executed(w0, w, backupVolume, commands, k) && EffectOrNone(w, w', backupVolume, commands[k], ok) ==>
      Executed(w0, w', backupVolume, commands, done)
  {
    done := if ok || ContentsOf(w'.primary) != ContentsOf(w.primary) then k + 1 else k;
    Databases.ExecuteNext(ContentsOf(w0.primary), ArchivesOf(w0.backups, backupVolume), commands, k);
  }

  lemma ExecutedPart(w: World, w': World, backupVolume: bool, removed: seq<string>, pending: seq<string>, n: nat)
    ensures Executed(w, w', backupVolume, Databases.Drops(removed), n) ==>
      Executed(w, w', backupVolume, Databases.Drops(removed) + Databases.Provides(pending), n)
  {
    if n <= |removed| {
      assert (Databases.Drops(removed) + Databases.Provides(pending))[..n] == Databases.Drops(removed)[..n];
    }
  }

  lemma ExecutedPlan(w0: World, w: World, w': World, backupVolume: bool, removed: seq<string>, pending: seq<string>, n: nat)
    ensures Executed(w0, w, backupVolume, Databases.Drops(removed), |removed|) ==>
      Executed(w, w', backupVolume, Databases.Provides(pending), n) ==>
      Executed(w0, w', backupVolume, Databases.Drops(removed) + Databases.Provides(pending), |removed| + n)
  {
    if n <= |pending| {
      Databases.ExecutePlan(ContentsOf(w0.primary), ArchivesOf(w0.backups, backupVolume), removed, pending, n);
    }
  }
}
