/**
 * Whether a deletion gets through: exactly when the backup it owes, if any, has
 * been or can still be taken. There is no record that a backup was taken, so a
 * deletion cut after it has released storage starts over, and waits for ever.
 */
module Deletions {
  import opened Wrappers
  import opened Cluster
  import opened Safety
  import opened Runs
  import opened Quiet
  import opened Operator

  predicate Deleting(w: World) {
    !w.gone && w.instance.deleting && w.instance.finalizer
  }

  predicate Owes(w: World) {
    && w.instance.spec.backupVolume && w.instance.spec.backupOnDelete && w.sts.Some?
    && (w.instance.status.upgrade.None? || w.instance.status.upgrade.value.stage == BackingUp)
  }

  /** The Pod a reconcile would create for it. */
  function PodFor(i: Instance): BackupPod {
    var version := if i.status.upgrade.Some? then i.status.upgrade.value.fromVersion else i.spec.version;
    var image := if version == i.spec.version && i.spec.backupImage.Some? then i.spec.backupImage.value else version;
    BackupPod(image, version, i.status.databases, Pending, 0)
  }

  /** The Pod that is at it, or the one to come. */
  function Next(w: World): BackupPod {
    if w.backupPod.Some? && w.backupPod.value.phase in {Pending, Working} then w.backupPod.value else PodFor(w.instance)
  }

  /** Its engine can open every database it has left, and the security database. */
  predicate CanRead(primary: Primary, b: BackupPod) {
    && primary.Bound? && b.version.major in primary.security && b.version.major == b.image.major
    && forall k | b.done <= k < |b.databases| ::
         b.databases[k] in primary.files && primary.files[b.databases[k]].major == b.image.major
  }

  /** And it runs already, or can be started. */
  predicate CanBackUp(w: World) {
    && CanRead(w.primary, Next(w))
    && (Next(w).phase == Working || (!w.primary.terminating && w.backupClaim))
  }

  predicate HasSucceeded(w: World) {
    w.backupPod.Some? && w.backupPod.value.phase == Succeeded
  }

  predicate CanFinish(w: World) {
    !Owes(w) || HasSucceeded(w) || CanBackUp(w)
  }

  // ---- One that can ----

  /** What Kubernetes owes next. */
  function Awaited(w: World): Option<Event> {
    if !Owes(w) || HasSucceeded(w) || w.sts.value.replicas != 0 then None
    else if w.pod.Some? then Some(ServerStops)
    else match w.backupPod
      case None => None
      case Some(b) =>
        match b.phase
        case Pending => Some(BackupPodStarts)
        case Working => Some(BackupPodClosesArchive)
        case _ => None
  }

  function Left(w: World): int {
    if !Owes(w) || HasSucceeded(w) then 0
    else match w.backupPod
      case None =>
        3 + |w.instance.status.databases| + (if w.sts.value.replicas != 0 then 2 else if w.pod.Some? then 1 else 0)
      case Some(b) =>
        match b.phase
        case Failed => 4 + |w.instance.status.databases|
        case Pending => 2 + |b.databases|
        case _ => 1 + |b.databases| - b.done
  }

  lemma LeftIsNatural(w: World)
    requires Inv(w)
    ensures Left(w) >= 0
  {
  }

  predicate GetsCloser(w: World, w': World) {
    Deleting(w') && CanFinish(w') && Left(w') < Left(w)
  }

  lemma AwaitedHelps(w: World)
    requires Inv(w) && Deleting(w) && CanFinish(w) && Awaited(w).Some?
    ensures GetsCloser(w, Happens(w, Awaited(w).value))
  {
  }

  lemma ReconcileHelps(w: World, w': World)
    requires Inv(w) && Inv(w') && Deleting(w) && CanFinish(w) && Awaited(w).None? && SameSpec(w, w')
    requires (PartsOf(w'), w'.gone) == DeletionStep(PartsOf(w), w.instance.spec)
    ensures if w'.gone then Released(w'.primary) else GetsCloser(w, w')
  {
  }

  /** The backup Pod fails, where another can take its place. */
  predicate MayFail(w: World) {
    && w.backupPod.Some? && w.backupPod.value.phase in {Pending, Working}
    && CanRead(w.primary, PodFor(w.instance)) && !w.primary.terminating && w.backupClaim
  }

  lemma FailureIsMadeUpFor(w: World)
    requires Inv(w) && Deleting(w) && MayFail(w)
    ensures Deleting(Happens(w, BackupPodFails)) && CanFinish(Happens(w, BackupPodFails))
  {
  }

  /**
   * Reconciled for long enough, with Kubernetes doing what it is waited for and
   * any given number of failing backup Pods, the deletion ends with the Instance
   * gone and its storage released.
   */
  method CarryOutDeletion(r: Reconciler, failures: nat)
    requires r.Valid() && Deleting(r.world) && CanFinish(r.world)
    modifies r
    ensures r.Valid() && old(r.trace) <= r.trace
    ensures r.world.gone && Released(r.world.primary) && SameSpec(old(r.world), r.world)
  {
    var left := failures;
    while !r.world.gone
      invariant r.Valid() && old(r.trace) <= r.trace && SameSpec(old(r.world), r.world)
      invariant if r.world.gone then Released(r.world.primary) else Deleting(r.world) && CanFinish(r.world)
      decreases left, !r.world.gone, Left(r.world)
    {
      var fails: bool := *;
      if fails && 0 < left && MayFail(r.world) {
        left := left - 1;
        FailOnce(r);
      } else {
        Proceed(r);
      }
    }
  }

  method FailOnce(r: Reconciler)
    requires r.Valid() && Deleting(r.world) && MayFail(r.world)
    modifies r
    ensures r.Valid() && old(r.trace) <= r.trace && SameSpec(old(r.world), r.world)
    ensures Deleting(r.world) && CanFinish(r.world)
  {
    RecordedState(r.trace, r.since, r.world);
    FailureIsMadeUpFor(r.world);
    r.Occur(NoUser, BackupPodFails);
  }

  method Proceed(r: Reconciler)
    requires r.Valid() && Deleting(r.world) && CanFinish(r.world)
    modifies r
    ensures r.Valid() && old(r.trace) <= r.trace && SameSpec(old(r.world), r.world)
    ensures if r.world.gone then Released(r.world.primary) else GetsCloser(old(r.world), r.world) && 0 <= Left(old(r.world))
  {
    RecordedState(r.trace, r.since, r.world);
    LeftIsNatural(r.world);
    ghost var before := r.world;
    match Awaited(r.world) {
      case Some(e) =>
        AwaitedHelps(r.world);
        r.Occur(NoUser, e);
      case None =>
        var _ := r.Reconcile(Calm);
        RecordedState(r.trace, r.since, r.world);
        ReconcileHelps(before, r.world);
    }
  }

  // ---- One that cannot ----

  /** The server is stopped, and no backup Pod from an earlier spec is at work. */
  predicate Waits(w: World) {
    && Deleting(w) && !CanFinish(w) && Stopped(w.sts, w.pod)
    && (w.backupPod.Some? ==> w.backupPod.value == PodFor(w.instance).(phase := w.backupPod.value.phase, done := w.backupPod.value.done))
  }

  lemma NothingHelps(w: World, e: Event)
    requires Inv(w) && Waits(w) && !e.UserEdits? && !e.UserDeletes?
    ensures Waits(Happens(w, e))
  {
  }

  lemma ReconcileDoesNotHelp(w: World, w': World)
    requires Inv(w) && Inv(w') && Waits(w) && SameSpec(w, w')
    requires (PartsOf(w'), w'.gone) == DeletionStep(PartsOf(w), w.instance.spec)
    ensures Waits(w')
  {
  }

  /** Until the user edits spec, no number of events and undisturbed reconciles ends it. */
  method WaitForEver(r: Reconciler)
    requires r.Valid() && Waits(r.world)
    modifies r
    ensures r.Valid() && old(r.trace) <= r.trace && Waits(r.world)
  {
    var more: nat := *;
    while 0 < more
      invariant r.Valid() && old(r.trace) <= r.trace && Waits(r.world)
    {
      more := more - 1;
      WaitOn(r);
    }
  }

  method WaitOn(r: Reconciler)
    requires r.Valid() && Waits(r.world)
    modifies r
    ensures r.Valid() && old(r.trace) <= r.trace && Waits(r.world)
  {
    RecordedState(r.trace, r.since, r.world);
    ghost var before := r.world;
    var e: Event := *;
    if e.UserEdits? || e.UserDeletes? {
      var _ := r.Reconcile(Calm);
      RecordedState(r.trace, r.since, r.world);
      ReconcileDoesNotHelp(before, r.world);
    } else {
      NothingHelps(before, e);
      r.Occur(NoUser, e);
    }
  }

  /**
   * How it comes to that: the backup has been taken and its Pod deleted, then the
   * primary claim, and the update that removes the finalizer does not get through.
   */
  lemma CutDeletionWaits(w: World)
    requires Inv(w) && Deleting(w) && Owes(w) && HasSucceeded(w)
    ensures Waits(PrimaryDeleted(BackupPodDeleted(w)))
  {
  }

  /** A way out: once spec asks for no backup any more, it can finish. */
  lemma WaivingTheBackupHelps(w: World, spec: Spec)
    requires Inv(w) && Waits(w) && spec == w.instance.spec.(backupOnDelete := false)
    ensures var w' := Happens(w, UserEdits(spec)); Deleting(w') && CanFinish(w')
  {
  }
}
