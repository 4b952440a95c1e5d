/**
 * An upgrade finishes. Failures, crashes and reconciles on outdated copies may
 * disturb it any given number of times, from before it begins; clients may go
 * on working and the operator reconciling all along. Apart from that Kubernetes
 * gets on with what is asked of it.
 */
module Progress {
  import opened Wrappers
  import opened Cluster
  import opened Safety
  import opened Runs
  import opened Prospects
  import opened Quiet
  import opened Operator

  // ---- What is left to do ----

  function BackupWork(p: Parts): nat {
    var n := |p.databases|;
    if p.sts.None? then 0
    else if p.sts.value.replicas != 0 then n + 7
    else if p.pod.Some? then n + 6
    else match p.backupPod
      case None => n + 4
      case Some(b) =>
        match b.phase
        case Failed => n + 5
        case Pending => n + 3
        case Working => if b.done <= n then n + 2 - b.done else 2
        case Succeeded => 1
  }

  function ReleaseWork(p: Parts, spec: Spec): nat {
    (if p.primary.Absent? then 0 else if p.primary.terminating then 1 else 2) +
    (if !spec.shadow then 0 else match p.shadow case NoShadow => 0 case ShadowTerminating => 1 case ShadowBound => 2)
  }

  function StartWork(p: Parts, spec: Spec): nat {
    match p.pod
    case Some(pod) => (match pod.phase case Initializing => 3 case Running => 2 case Available => 1)
    case None =>
      4 + (if p.sts == Desired(spec) then 0 else 1) +
      (if p.primary.Absent? then 1 else if p.primary.terminating then 2 else 0) +
      (if p.backupClaim || !spec.backupVolume then 0 else 1) +
      (if !spec.shadow then 0 else match p.shadow case NoShadow => 1 case ShadowTerminating => 2 case ShadowBound => 0)
  }

  function Work(p: Parts, spec: Spec): nat {
    match StagesLeft(p, spec)
    case 4 => 0
    case 3 => BackupWork(p)
    case 2 => ReleaseWork(p, spec)
    case _ => StartWork(p, spec)
  }

  /** Stages first, then what is left of the one at hand. */
  predicate LessLeft(w: World, w': World) {
    var p, p', spec := PartsOf(w), PartsOf(w'), w.instance.spec;
    || StagesLeft(p', spec) < StagesLeft(p, spec)
    || (StagesLeft(p', spec) == StagesLeft(p, spec) && Work(p', spec) < Work(p, spec))
  }

  predicate NoMoreLeft(w: World, w': World) {
    var p, p', spec := PartsOf(w), PartsOf(w'), w.instance.spec;
    LessLeft(w, w') || (StagesLeft(p', spec) == StagesLeft(p, spec) && Work(p', spec) == Work(p, spec))
  }

  // ---- What Kubernetes owes ----

  function AwaitedForBackup(p: Parts): Option<Event> {
    if p.sts.None? || p.sts.value.replicas != 0 then None
    else if p.pod.Some? then Some(ServerStops)
    else if p.backupPod.Some? && p.backupPod.value.phase == Pending then Some(BackupPodStarts)
    else if p.backupPod.Some? && p.backupPod.value.phase == Working then Some(BackupPodClosesArchive)
    else None
  }

  function AwaitedForRelease(p: Parts, spec: Spec): Option<Event> {
    if p.primary.Bound? then (if p.primary.terminating then Some(PrimaryIsRemoved) else None)
    else if spec.shadow && p.shadow == ShadowTerminating then Some(ShadowIsRemoved)
    else None
  }

  function AwaitedForStart(p: Parts, spec: Spec): Option<Event> {
    match p.pod
    case Some(pod) =>
      (match pod.phase
       case Initializing => Some(ServerInitializes)
       case Running => Some(ServerBecomesReady)
       case Available => None)
    case None =>
      if p.primary.Bound? && p.primary.terminating then Some(PrimaryIsRemoved)
      else if spec.shadow && p.shadow == ShadowTerminating then Some(ShadowIsRemoved)
      else if p.sts == Desired(spec) && p.primary.Bound? && (spec.backupVolume ==> p.backupClaim)
              && (spec.shadow ==> p.shadow.ShadowBound?) then Some(ServerStarts)
      else None
  }

  /** What the operator is waiting for Kubernetes to do, if for anything. */
  function Awaited(p: Parts, spec: Spec): Option<Event> {
    match StagesLeft(p, spec)
    case 4 => None
    case 3 => AwaitedForBackup(p)
    case 2 => AwaitedForRelease(p, spec)
    case _ => AwaitedForStart(p, spec)
  }

  predicate Helps(w: World, awaited: Option<Event>) {
    awaited.Some? ==>
      && !awaited.value.UserEdits? && !awaited.value.UserDeletes?
      && LessLeft(w, Happens(w, awaited.value))
  }

  lemma BackupHelps(w: World)
    requires Inv(w) && Sound(w) && StagesLeft(PartsOf(w), w.instance.spec) == 3
    ensures Helps(w, AwaitedForBackup(PartsOf(w)))
  {
  }

  lemma ReleaseHelps(w: World)
    requires Inv(w) && Sound(w) && StagesLeft(PartsOf(w), w.instance.spec) == 2
    ensures Helps(w, AwaitedForRelease(PartsOf(w), w.instance.spec))
  {
  }

  lemma StartHelps(w: World)
    requires Inv(w) && Sound(w) && StagesLeft(PartsOf(w), w.instance.spec) < 2
    ensures Helps(w, AwaitedForStart(PartsOf(w), w.instance.spec))
  {
    if w.pod.Some? && w.pod.value.phase == Initializing && w.instance.status.upgrade.Some? && !Secured(w.sts, w.primary) {
      UpgradeSeedsTheUsers(w);
    }
  }

  /** What Kubernetes then does leaves less to do. */
  lemma AwaitedHelps(w: World)
    requires Inv(w) && Prospers(w)
    ensures Helps(w, Awaited(PartsOf(w), w.instance.spec))
  {
    if Sound(w) {
      match StagesLeft(PartsOf(w), w.instance.spec)
      case 3 => BackupHelps(w);
      case 2 => ReleaseHelps(w);
      case _ => StartHelps(w);
    }
  }

  // ---- What the operator does ----

  predicate Finished(w: World) {
    w.instance.status.phase == Ready && IsReady(w, w.instance)
  }

  /** Nothing keeps a reconcile from getting on. */
  lemma MayAlwaysReconcile(w: World)
    requires Inv(w) && Prospers(w)
    ensures MayReconcile(w)
  {
  }

  /**
   * An undisturbed reconcile never leaves more to do, and leaves less, or
   * finishes, where Kubernetes owes nothing.
   */
  lemma ReconcileAdvances(w: World, w': World)
    requires Inv(w) && Prospers(w) && ReconciledTo(PartsOf(w), w.instance.spec, w')
    ensures Finished(w') || NoMoreLeft(w, w')
    ensures Awaited(PartsOf(w), w.instance.spec).None? ==> Finished(w') || LessLeft(w, w')
  {
  }

  /** What happens any number of times: clients work, and the backup Pod begins writing an archive. */
  predicate IsIdle(e: Event) {
    e.ClientCommits? || e.ClientChangesUsers? || e.BackupPodOpensArchive?
  }

  predicate SameLeft(w: World, w': World) {
    NoMoreLeft(w, w') && NoMoreLeft(w', w) && Finished(w') == Finished(w)
  }

  lemma ClientsDoNotMatter(w: World, e: Event)
    requires e.ClientCommits? || e.ClientChangesUsers?
    ensures SameLeft(w, Happens(w, e))
  {
  }

  lemma ArchivesDoNotMatter(w: World, backups: Backups)
    ensures SameLeft(w, w.(backups := backups))
  {
  }

  lemma OpeningChangesArchives(w: World)
    ensures Happens(w, BackupPodOpensArchive) == w.(backups := Happens(w, BackupPodOpensArchive).backups)
  {
  }

  /** It leaves the work to do as it is. */
  lemma IdleEventsDoNotMatter(w: World, e: Event)
    requires IsIdle(e)
    ensures SameLeft(w, Happens(w, e))
  {
    if e.BackupPodOpensArchive? {
      OpeningChangesArchives(w);
      ArchivesDoNotMatter(w, Happens(w, e).backups);
    } else {
      ClientsDoNotMatter(w, e);
    }
  }

  /** The reconcile that begins an upgrade leaves it able to get through. */
  lemma BeginsSoundly(w: World, w': World)
    requires Inv(w) && MayBegin(w) && Inv(w') && Prospers(w')
    requires ReconciledTo(PartsOf(w), w.instance.spec, w')
    ensures Sound(w') && AtStage(w'.instance.status, BackingUp)
  {
    var spec := w.instance.spec;
    assert !BackupIsDone(Begun(PartsOf(w), spec));
    assert UpgradeStep(PartsOf(w), spec) == UpgradeStep(Begun(PartsOf(w), spec), spec);
  }

  /** Until the user edits spec.version again, an upgrade that has finished does not start over. */
  lemma {:induction false} FinishedUpgradeDoesNotRestart(trace: seq<World>, a: nat, b: nat)
    requires Run(trace) && a <= b < |trace| && trace[a].sts.Some? && trace[a].instance.status.upgrade.None?
    requires forall k :: a <= k <= b ==> SameMajor(trace[a].instance.spec, trace[k].instance.spec)
    requires trace[a].sts.value.version.major == trace[a].instance.spec.version.major
    ensures trace[b].instance.status.upgrade.None?
    ensures trace[b].sts.Some? && trace[b].sts.value.version.major == trace[b].instance.spec.version.major
    decreases b - a
  {
    assert SameMajor(trace[a].instance.spec, trace[b].instance.spec);
    if a < b {
      AtState(trace, a);
      assert SameMajor(trace[a].instance.spec, trace[a + 1].instance.spec);
      FinishedUpgradeDoesNotRestart(trace, a + 1, b);
    }
  }

  predicate SameMajor(spec: Spec, spec': Spec) {
    spec.version.major == spec'.version.major
  }

  // ---- Getting there ----

  ghost predicate Underway(r: Reconciler)
    reads r
  {
    r.Valid() && Prospers(r.world)
  }

  /** Prospects hold through one step, recorded since the state before it. */
  lemma StillUnderway(r: Reconciler, a: nat, before: World)
    requires r.Valid() && r.since <= a < |r.trace| && r.trace[a] == before && Prospers(before)
    requires MayBegin(before) ==> Prospers(r.world)
    ensures Underway(r)
  {
    if Sound(before) {
      SoundSince(r.trace, r.since, r.world, a, before);
    }
  }

  /** Any events but the user's, and a reconcile that may fail, be killed, or work on an outdated copy. */
  method Disturb(r: Reconciler)
    requires Underway(r)
    modifies r
    ensures Underway(r) && r.Went(NoUser)
  {
    ghost var a, before := |r.trace| - 1, r.world;
    r.OperateOnce(NoUser);
    assert r.trace[a] == before;
    StillUnderway(r, a, before);
  }

  method Occur(r: Reconciler, e: Event)
    requires Underway(r) && !e.UserEdits? && !e.UserDeletes?
    modifies r
    ensures Underway(r) && r.Went(NoUser) && r.world == Happens(old(r.world), e)
  {
    ghost var a, before := |r.trace| - 1, r.world;
    ghost var was, since := r.trace, r.since;
    r.Occur(NoUser, e);
    assert r.trace[a] == before;
    r.CallProspers(NoUser, was, since, before);
    StillUnderway(r, a, before);
  }

  /** A reconcile that nothing disturbs. */
  method ReconcileOnce(r: Reconciler)
    requires Underway(r)
    modifies r
    ensures Underway(r) && r.Went(NoUser) && ReconciledTo(PartsOf(old(r.world)), old(r.world).instance.spec, r.world)
  {
    ghost var a, before := |r.trace| - 1, r.world;
    RecordedState(r.trace, r.since, r.world);
    MayAlwaysReconcile(r.world);
    var _ := r.Reconcile(Calm);
    assert r.trace[a] == before;
    StillUnderway(r, a, before);
  }

  /** For a while clients commit and change users, archives are opened, and the operator reconciles while it waits. */
  method Meanwhile(r: Reconciler)
    requires Underway(r)
    modifies r
    ensures Underway(r) && r.Went(NoUser)
    ensures Finished(r.world) || NoMoreLeft(old(r.world), r.world)
  {
    var more: nat := *;
    while 0 < more && !Finished(r.world)
      invariant Underway(r) && r.Went(NoUser)
      invariant Finished(r.world) || NoMoreLeft(old(r.world), r.world)
    {
      more := more - 1;
      ghost var before := r.world;
      Wait(r);
      NoMoreIsTransitive(old(r.world), before, r.world);
    }
  }

  lemma NoMoreIsTransitive(w0: World, w1: World, w2: World)
    ensures NoMoreLeft(w0, w1) && NoMoreLeft(w1, w2) && w0.instance.spec == w1.instance.spec ==> NoMoreLeft(w0, w2)
  {
  }

  /** A client does something, the backup Pod opens an archive, or the operator reconciles. */
  method Wait(r: Reconciler)
    requires Underway(r)
    modifies r
    ensures Underway(r) && r.Went(NoUser)
    ensures Finished(r.world) || NoMoreLeft(old(r.world), r.world)
  {
    var e: Event := *;
    if IsIdle(e) {
      IdleEventsDoNotMatter(r.world, e);
      Occur(r, e);
    } else {
      ReconcileNext(r);
    }
  }

  /** An undisturbed reconcile, and what it leaves to do. */
  method ReconcileNext(r: Reconciler)
    requires Underway(r)
    modifies r
    ensures Underway(r) && r.Went(NoUser)
    ensures Finished(r.world) || NoMoreLeft(old(r.world), r.world)
    ensures Awaited(PartsOf(old(r.world)), old(r.world).instance.spec).None? ==>
      Finished(r.world) || LessLeft(old(r.world), r.world)
  {
    RecordedState(r.trace, r.since, r.world);
    ReconcileOnce(r);
    ReconcileAdvances(old(r.world), r.world);
  }

  /** What is awaited happens or, when nothing is, the operator reconciles undisturbed. */
  method Proceed(r: Reconciler)
    requires Underway(r)
    modifies r
    ensures Underway(r) && r.Went(NoUser)
    ensures Finished(r.world) || LessLeft(old(r.world), r.world)
  {
    var awaited := Awaited(PartsOf(r.world), r.world.instance.spec);
    if awaited.Some? {
      RecordedState(r.trace, r.since, r.world);
      AwaitedHelps(r.world);
      Occur(r, awaited.value);
    } else {
      ReconcileNext(r);
    }
  }

  /**
   * Every upgrade that can get through, begun or not, finishes: with the
   * Instance Ready on the version asked for and all its databases there. The
   * loop ends, however the given number of disturbances is spread over it.
   */
  method CarryOutUpgrade(r: Reconciler, disturbances: nat)
    requires Underway(r)
    modifies r
    ensures Underway(r) && r.Went(NoUser) && Finished(r.world)
    ensures r.world.sts.Some? && r.world.sts.value.version == old(r.world.instance.spec.version)
  {
    var left := disturbances;
    while !Finished(r.world)
      invariant Underway(r) && r.Went(NoUser)
      decreases left, !Finished(r.world),
        StagesLeft(PartsOf(r.world), r.world.instance.spec), Work(PartsOf(r.world), r.world.instance.spec)
    {
      Meanwhile(r);
      if Finished(r.world) {
        return;
      }
      var disturbed: bool := *;
      if disturbed && 0 < left {
        left := left - 1;
        Disturb(r);
      } else {
        Proceed(r);
      }
    }
  }
}
