/**
 * The reconciler, call by call. Between any two API calls anything in
 * Cluster.Event may happen any number of times; any call may fail, or take
 * effect and have its answer lost. An operator that is killed is one whose
 * last call failed and which then starts over. The trace records every state
 * the cluster went through.
 */
module Operator {
  import opened Wrappers
  import opened Names
  import opened Cluster
  import opened Sequences
  import Databases
  import opened Safety
  import opened Steps
  import opened Runs
  import opened Records
  import opened Prospects
  import opened Quiet

  /**
   * What a reconcile has to reckon with: anything, anything but the user, only
   * failing calls and lost answers, or nothing.
   */
  datatype Weather = Any | NoUser | Flaky | Calm

  /** Nothing but the operator moves. */
  predicate Still(weather: Weather) {
    weather == Flaky || weather == Calm
  }

  /** A reconcile step's error result: nil, a waitingError, or any other error. */
  datatype Result = Done | Waits | Fails

  class Reconciler {
    var world: World
    var instance: Instance
    ghost var trace: seq<World>
    ghost var since: nat // no user has changed spec or deleted since trace[since]

    ghost predicate Valid()
      reads this
    {
      Recorded(trace, since, world)
    }

    ghost predicate Working()
      reads this
    {
      Valid() && Linked(world, instance)
    }

    /** The trace only grows; without the user, spec and deletion stay as they are. */
    twostate predicate Went(weather: Weather)
      reads this
    {
      && old(trace) <= trace
      && (weather != Any ==> since == old(since) && SameSpec(old(world), world))
    }

    /** Nothing disturbs the step, and the copy it starts from is the stored Instance. */
    twostate predicate Undisturbed(weather: Weather)
      reads this
    {
      weather == Calm && old(instance == world.instance)
    }

    /** The copy still is, after a calm step. */
    ghost predicate Synced()
      reads this
    {
      instance == world.instance
    }

    /** The user leaves alone an upgrade that may begin, and the copy has the spec it is to begin for. */
    twostate predicate Beginning(weather: Weather)
      reads this
    {
      weather != Any && old(MayBegin(world) && instance.spec == world.instance.spec)
    }

    constructor (initial: World)
      requires Inv(initial)
      ensures Valid() && world == initial && trace == [initial]
    {
      world := initial;
      instance := initial.instance;
      trace, since := [initial], 0;
    }

    // ---- The cluster between and during calls ----

    /** The cluster moves to w. */
    method Become(w: World)
      requires Valid() && Recorded(trace + [w], Since(trace, since, world, w), w)
      modifies `world, `trace, `since
      ensures Valid() && world == w && trace == old(trace) + [w]
      ensures SameSpec(old(world), w) ==> since == old(since)
    {
      since := Since(trace, since, world, w);
      trace := trace + [w];
      world := w;
    }

    method Happen(weather: Weather)
      requires Valid()
      modifies `world, `trace, `since
      ensures Valid() && Went(weather) && Drift(old(world), world)
      ensures old(Linked(world, instance)) ==> Linked(world, instance)
    {
      var e: Event := *;
      if weather != Any && (e.UserEdits? || e.UserDeletes?) {
        e := BackupPodFails;
      }
      Occur(weather, e);
    }

    method Occur(weather: Weather, e: Event)
      requires Valid() && (weather == Any || !(e.UserEdits? || e.UserDeletes?))
      modifies `world, `trace, `since
      ensures Valid() && Went(weather) && Drift(old(world), world) && world == Happens(old(world), e)
      ensures old(Linked(world, instance)) ==> Linked(world, instance)
    {
      EventIsRecorded(trace, since, world, e, instance);
      Become(Happens(world, e));
    }

    method Interleave(weather: Weather)
      requires Valid()
      modifies `world, `trace, `since
      ensures Valid() && Went(weather) && Drift(old(world), world)
      ensures old(Linked(world, instance)) ==> Linked(world, instance)
      ensures Still(weather) ==> world == old(world)
    {
      RecordedDrifts(trace, since, world);
      var more: nat := *;
      while !Still(weather) && 0 < more
        invariant Valid() && Went(weather) && Drift(old(world), world)
        invariant old(Linked(world, instance)) ==> Linked(world, instance)
        invariant Still(weather) ==> world == old(world)
      {
        ghost var before := world;
        Happen(weather);
        DriftIsTransitive(old(world), before, world);
        more := more - 1;
      }
    }

    // ---- API calls ----

    /**
     * One call: applied is whether it takes effect, reported whether the
     * operator is told so. Reads are calls whose effect is none.
     */
    method Call(weather: Weather) returns (applied: bool, reported: bool)
      requires Working()
      modifies `world, `trace, `since
      ensures Working() && Went(weather) && Drift(old(world), world)
      ensures reported ==> applied
      ensures Still(weather) ==> world == old(world)
      ensures weather == Calm ==> applied && reported
    {
      Interleave(weather);
      applied, reported := *, *;
      reported := reported && applied;
      if weather == Calm {
        applied, reported := true, true;
      }
    }

    /** A call that only reads. */
    method Read(weather: Weather) returns (ok: bool)
      requires Working()
      modifies `world, `trace, `since
      ensures Working() && Went(weather) && Drift(old(world), world)
      ensures Still(weather) ==> world == old(world)
      ensures weather == Calm ==> ok
    {
      var applied;
      applied, ok := Call(weather);
    }

    /** A step on anything but the Instance, after a call that took effect. */
    method Apply(w: World)
      requires Working() && w.instance == world.instance
      requires Recorded(trace + [w], since, w) && Linked(w, instance)
      modifies `world, `trace, `since
      ensures Working() && world == w && trace == old(trace) + [w] && since == old(since)
    {
      Become(w);
    }

    /**
     * r.Status().Update(ctx, instance): refused unless the copy is the latest
     * version; before is the cluster it met.
     */
    method UpdateStatus(weather: Weather) returns (ok: bool, ghost before: World)
      requires Working()
      modifies `world, `trace, `since, `instance
      ensures Working() && Went(weather) && Drift(old(world), before) && Drift(before, before)
      ensures instance == old(instance).(rv := instance.rv)
      ensures world == before || world == StatusWritten(before, instance.status)
      ensures ok ==> world == StatusWritten(before, instance.status) && old(instance).rv == before.instance.rv
      ensures if ok then instance.rv == world.instance.rv == old(instance).rv + 1 else instance == old(instance)
      ensures old(instance.rv < world.instance.rv) ==> world == before && !ok
      ensures Still(weather) ==> before == old(world)
      ensures weather == Calm && old(instance.rv == world.instance.rv) ==> ok
      ensures weather == Calm && old(instance == world.instance.(status := instance.status)) ==> ok && Synced()
      ensures weather != Any && old(MayBegin(world)) ==>
        Prospers(world) && (world != before && instance.status.upgrade.Some? ==> Sound(world))
    {
      var applied, reported := Call(weather);
      before := world;
      RecordedDrifts(trace, since, world);
      CallProspers(weather, old(trace), old(since), old(world));
      ok := reported && instance.rv == world.instance.rv;
      if applied && instance.rv == world.instance.rv {
        WriteStatus();
        if reported {
          instance := instance.(rv := instance.rv + 1);
        }
      }
    }

    /** Such an update takes effect. */
    method WriteStatus()
      requires Working() && instance.rv == world.instance.rv
      modifies `world, `trace, `since
      ensures Working() && Linked(world, instance.(rv := instance.rv + 1))
      ensures world == StatusWritten(old(world), instance.status) && old(trace) <= trace && since == old(since)
      ensures old(MayBegin(world)) ==> Prospers(world) && (instance.status.upgrade.Some? ==> Sound(world))
    {
      StatusIsRecorded(trace, since, world, instance);
      Become(StatusWritten(world, instance.status));
    }

    /** What happens around a call leaves an upgrade free to begin. */
    lemma CallProspers(weather: Weather, was: seq<World>, wasSince: nat, before: World)
      requires Recorded(was, wasSince, before) && Drift(before, world) && (weather != Any ==> SameSpec(before, world))
      ensures weather != Any && MayBegin(before) ==> MayBegin(world)
    {
      if weather != Any && MayBegin(before) {
        MayBeginDrifts(was, wasSince, before, world);
      }
    }

    /** Changes the report or the phase of the copy. */
    method Note(status: Status)
      requires Working() && (Matches(world, instance) || Lags(world, instance))
      requires SameCourse(instance.status, status) && status.databaseCount == instance.status.databaseCount
      requires status.phase == Ready ==> instance.status.phase == Ready || instance.status.upgrade.None?
      modifies `instance
      ensures Working() && instance == old(instance).(status := status)
      ensures old(Matches(world, instance)) ==> Matches(world, instance)
      ensures old(Lags(world, instance)) ==> Lags(world, instance)
    {
      ReportKeepsLink(world, instance, status);
      instance := instance.(status := status);
    }

    /** A status update of the report or the phase alone. */
    method UpdateReport(weather: Weather) returns (ok: bool)
      requires Working() && (Matches(world, instance) || Lags(world, instance))
      modifies `world, `trace, `since, `instance
      ensures Working() && Went(weather) && Steady(old(world), world)
      ensures instance == old(instance).(rv := instance.rv)
      ensures old(Matches(world, instance)) ==> Matches(world, instance)
      ensures old(Lags(world, instance)) ==> Lags(world, instance)
      ensures weather == Calm && old(instance == world.instance.(status := instance.status)) ==>
        ok && Synced() && PartsOf(world) == PartsOf(old(world))
    {
      ghost var before;
      ok, before := UpdateStatus(weather);
      ReportIsFollowed(old(world), before, world, old(instance), instance);
    }

    /** setDeletionMessage: skipped when the message is there already. */
    method SetMessage(weather: Weather, message: string) returns (ok: bool)
      requires Working() && (Matches(world, instance) || Lags(world, instance))
      modifies this
      ensures Working() && Went(weather) && Steady(old(world), world)
      ensures instance == old(instance).(status := instance.status, rv := instance.rv)
      ensures SameCourse(old(instance).status, instance.status)
      ensures old(Matches(world, instance)) ==> Matches(world, instance)
      ensures old(Lags(world, instance)) ==> Lags(world, instance)
      ensures instance.status.report.message == message
      ensures instance.status == old(instance).status.(report := instance.status.report)
      ensures old(instance).status.report.message == message ==> ok && Unchanged()
      ensures Undisturbed(weather) ==> ok && Synced() && PartsOf(world) == PartsOf(old(world))
    {
      RecordedDrifts(trace, since, world);
      if instance.status.report.message == message {
        return true;
      }
      Note(instance.status.(report := instance.status.report.(message := message)));
      ok := UpdateReport(weather);
    }

    /** No call at all was made. */
    twostate predicate Unchanged()
      reads this
    {
      world == old(world) && instance == old(instance) && trace == old(trace)
    }

    // ---- Backing up ----

    /** createDatabaseBackupPod. */
    method CreateBackupPod(weather: Weather, version: Version) returns (r: Result)
      requires Working() && BackupDue(world, instance, version) && Stopped(world.sts, world.pod) && world.backupPod.None?
      modifies `world, `trace, `since
      ensures Working() && Went(weather) && Matches(world, instance)
      ensures world.sts == old(world).sts && SameCourse(old(world).instance.status, world.instance.status)
      ensures r != Done
      ensures r == Waits ==>
        && world.backupPod.Some? && world.backupPod.value.phase == Pending
        && world.backupPod.value.databases == instance.status.databases && world.backupPod.value.version == version
        && (version == instance.spec.version && instance.spec.backupImage.Some? ==>
              world.backupPod.value.image == instance.spec.backupImage.value)
      ensures weather == Calm ==> r == Waits && world == BackupPodCreated(old(world), instance.spec, version, instance.status.databases)
    {
      var applied, reported := Call(weather);
      if applied {
        BackupPodCreatedIsRecorded(trace, since, world, instance, version);
        Apply(BackupPodCreated(world, instance.spec, version, instance.status.databases));
      }
      r := if reported then Waits else Fails;
    }

    method DeleteBackupPod(weather: Weather) returns (ok: bool)
      requires Working() && Matches(world, instance)
      requires world.backupPod.Some? && world.backupPod.value.phase in {Succeeded, Failed}
      modifies `world, `trace, `since
      ensures Working() && Went(weather) && Matches(world, instance)
      ensures world.sts == old(world).sts && SameCourse(old(world).instance.status, world.instance.status)
      ensures ok ==> world.backupPod.None?
      ensures ok && old(world).backupPod.value.phase == Succeeded ==> BackedUp(world)
      ensures weather == Calm ==> ok && world == BackupPodDeleted(old(world))
    {
      var applied, reported := Call(weather);
      ok := reported;
      if applied {
        BackupPodDeletedIsRecorded(trace, since, world, instance);
        Apply(BackupPodDeleted(world));
      }
    }

    /** backupDatabasesOffline. */
    method BackupDatabasesOffline(weather: Weather, version: Version) returns (r: Result)
      requires Working() && BackupDue(world, instance, version) && Stopped(world.sts, world.pod)
      modifies `world, `trace, `since
      ensures Working() && Went(weather) && Matches(world, instance)
      ensures world.sts == old(world).sts && SameCourse(old(world).instance.status, world.instance.status)
      ensures r == Done ==> BackedUp(world) && world.backupPod.None?
      ensures Undisturbed(weather) ==> Synced()
      ensures Undisturbed(weather) ==>
        && PartsOf(world) == BackupStep(PartsOf(old(world)), instance.spec, version)
        && (r == Done <==> BackupIsDone(PartsOf(old(world))))
      ensures Undisturbed(weather) ==>
        (r == Fails <==> old(world).backupPod.Some? && old(world).backupPod.value.phase == Failed)
    {
      var ok := Read(weather);
      if !ok {
        return Fails;
      }
      if world.backupPod.None? {
        r := CreateBackupPod(weather, version);
        return;
      }
      match world.backupPod.value.phase
      case Succeeded =>
        ok := DeleteBackupPod(weather);
        return if ok then Done else Fails;
      case Failed =>
        var _ := DeleteBackupPod(weather);
        return Fails;
      case _ =>
        return Waits;
    }

    method ScaleToZero(weather: Weather) returns (ok: bool)
      requires Working() && Matches(world, instance) && !PastBackingUp(world.instance.status)
      requires world.sts.Some? && world.sts.value.replicas != 0
      modifies `world, `trace, `since
      ensures Working() && Went(weather) && Matches(world, instance)
      ensures SameVersion(old(world).sts, world.sts) && SameCourse(old(world).instance.status, world.instance.status)
      ensures ok ==> world.sts.value.replicas == 0
      ensures weather == Calm ==> ok && world == ScaledToZero(old(world))
    {
      var applied, reported := Call(weather);
      ok := reported;
      if applied {
        ScaledToZeroIsRecorded(trace, since, world, instance);
        Apply(ScaledToZero(world));
      }
    }

    /** Saying so, and scaling the StatefulSet down unless it is. */
    method AskServerToStop(weather: Weather) returns (ok: bool)
      requires Working() && Matches(world, instance) && !PastBackingUp(world.instance.status) && world.sts.Some?
      modifies this
      ensures Working() && Went(weather) && Matches(world, instance)
      ensures SameCourse(old(world).instance.status, world.instance.status)
      ensures instance == old(instance).(status := instance.status, rv := instance.rv)
      ensures SameVersion(old(world).sts, world.sts)
      ensures ok ==> world.sts.value.replicas == 0
      ensures Undisturbed(weather) ==>
        Synced() && PartsOf(world) == PartsOf(old(world)).(sts := Some(old(world).sts.value.(replicas := 0)))
    {
      ok := SetMessage(weather, "Stopping the Firebird pod to back up its databases");
      if ok && world.sts.value.replicas != 0 {
        ok := ScaleToZero(weather);
      }
    }

    /** The first cases of backupDatabases: Done once there is no server, or never was. */
    method StopServer(weather: Weather) returns (r: Result)
      requires Working() && Matches(world, instance) && !PastBackingUp(world.instance.status)
      modifies this
      ensures Working() && Went(weather) && Matches(world, instance)
      ensures SameCourse(old(world).instance.status, world.instance.status)
      ensures instance == old(instance).(status := instance.status, rv := instance.rv)
      ensures SameVersion(old(world).sts, world.sts)
      ensures r == Done ==> world.sts == old(world).sts && (world.sts.None? || Stopped(world.sts, world.pod))
      ensures r == Waits ==> world.sts.Some? && world.sts.value.replicas == 0
      ensures Undisturbed(weather) ==>
        && Synced()
        && (r == Done <==> old(world).sts.None? || Stopped(old(world).sts, old(world).pod))
        && PartsOf(world) == if r == Done then PartsOf(old(world))
                             else BackupStep(PartsOf(old(world)), instance.spec, instance.spec.version)
    {
      var ok := Read(weather);
      if !ok {
        return Fails;
      }
      if world.sts.None? || Stopped(world.sts, world.pod) {
        return Done;
      }
      ok := AskServerToStop(weather);
      r := if ok then Waits else Fails;
    }

    /** backupDatabases: stop the server, wait for it, then back up. */
    method BackupDatabases(weather: Weather, version: Version) returns (r: Result)
      requires Working() && BackupDue(world, instance, version)
      modifies this
      ensures Working() && Went(weather) && Matches(world, instance)
      ensures SameCourse(old(world).instance.status, world.instance.status)
      ensures instance == old(instance).(status := instance.status, rv := instance.rv)
      ensures SameVersion(old(world).sts, world.sts)
      ensures r == Done && world.sts.Some? ==> BackedUp(world) && world.backupPod.None?
      ensures Undisturbed(weather) ==>
        && Synced()
        && PartsOf(world) == BackupStep(PartsOf(old(world)), instance.spec, version)
        && (r == Done <==> BackupIsDone(PartsOf(old(world))))
    {
      r := StopServer(weather);
      if r == Done && world.sts.Some? {
        r := BackUpStopped(weather, version);
      }
    }

    /** The last case of it. */
    method BackUpStopped(weather: Weather, version: Version) returns (r: Result)
      requires Working() && BackupDue(world, instance, version) && Stopped(world.sts, world.pod)
      modifies this
      ensures Working() && Went(weather) && Matches(world, instance)
      ensures world.sts == old(world).sts && SameCourse(old(world).instance.status, world.instance.status)
      ensures instance == old(instance).(status := instance.status, rv := instance.rv)
      ensures r == Done ==> BackedUp(world) && world.backupPod.None?
      ensures Undisturbed(weather) ==>
        && Synced()
        && PartsOf(world) == BackupStep(PartsOf(old(world)), instance.spec, version)
        && (r == Done <==> BackupIsDone(PartsOf(old(world))))
    {
      var ok := SetMessage(weather, "Backing up databases into the backup volume");
      r := Fails;
      if ok {
        r := BackupDatabasesOffline(weather, version);
      }
    }

    // ---- Releasing storage ----

    /** deletePVC for the primary claim. */
    method DeletePrimary(weather: Weather) returns (ok: bool)
      requires Working() && ReleaseDue(world, instance)
      modifies `world, `trace, `since
      ensures Working() && Went(weather) && ReleaseSteady(old(world), world) && ReleaseDue(world, instance)
      ensures ok ==> Released(world.primary)
      ensures world.shadow.ShadowBound? <==> old(world).shadow.ShadowBound?
      ensures weather == Calm ==> ok && world == PrimaryDeleted(old(world))
    {
      var applied, reported := Call(weather);
      ok := reported;
      SteadyReleases(old(world), world);
      ReleaseStaysDue(old(world), world, instance);
      if applied {
        PrimaryDeletedIsRecorded(trace, since, world, instance);
        Apply(PrimaryDeleted(world));
      }
    }

    method DeleteShadow(weather: Weather) returns (ok: bool)
      requires Working() && ReleaseDue(world, instance)
      modifies `world, `trace, `since
      ensures Working() && Went(weather) && ReleaseSteady(old(world), world) && ReleaseDue(world, instance)
      ensures old(Released(world.primary)) ==> Released(world.primary)
      ensures ok ==> !world.shadow.ShadowBound?
      ensures weather == Calm ==> ok && world == ShadowDeleted(old(world))
    {
      var applied, reported := Call(weather);
      ok := reported;
      SteadyReleases(old(world), world);
      ReleaseStaysDue(old(world), world, instance);
      if applied {
        ShadowStepIsRecorded(trace, since, world, instance, ShadowDeleted(world).shadow);
        Apply(ShadowDeleted(world));
      }
    }

    /** Both deletions of releasePrimaryAndShadowStorage: the shadow claim only after the primary one. */
    method DeleteStorage(weather: Weather) returns (ok: bool)
      requires Working() && ReleaseDue(world, instance)
      modifies `world, `trace, `since
      ensures Working() && Went(weather) && ReleaseSteady(old(world), world) && ReleaseDue(world, instance)
      ensures ok ==> StorageReleased(world, instance.spec)
      ensures old(world).shadow.ShadowBound? && !world.shadow.ShadowBound? ==> Released(world.primary) && instance.spec.shadow
      ensures weather == Calm ==> ok && PartsOf(world) == ReleaseStep(PartsOf(old(world)), instance.spec)
      ensures weather == Calm ==> world.instance == old(world).instance
    {
      ok := DeletePrimary(weather);
      if ok && instance.spec.shadow {
        ghost var w := world;
        ok := DeleteShadow(weather);
        ReleaseSteadyIsTransitive(old(world), w, world);
      }
    }

    /** releasePrimaryAndShadowStorage. */
    method ReleasePrimaryAndShadowStorage(weather: Weather) returns (ok: bool)
      requires Working() && ReleaseDue(world, instance)
      modifies this
      ensures Working() && Went(weather) && ReleaseDue(world, instance) && ReleaseSteady(old(world), world)
      ensures instance == old(instance).(status := instance.status, rv := instance.rv)
      ensures SameCourse(old(instance).status, instance.status)
      ensures old(Matches(world, instance)) ==> Matches(world, instance)
      ensures ok ==> StorageReleased(world, instance.spec)
      ensures old(world).shadow.ShadowBound? && !world.shadow.ShadowBound? ==> Released(world.primary) && instance.spec.shadow
      ensures Undisturbed(weather) ==>
        ok && Synced() && PartsOf(world) == ReleaseStep(PartsOf(old(world)), instance.spec)
    {
      ok := SetMessage(weather, "Releasing primary and shadow storage");
      ghost var w := world;
      SteadyReleases(old(world), w);
      ReleaseStaysDue(old(world), w, instance);
      if ok {
        ok := DeleteStorage(weather);
        ReleaseSteadyIsTransitive(old(world), w, world);
      }
    }

    /** The reads of releaseStorageForUpgrade: Done if both claims are gone, Waits for the first that is not. */
    method AwaitRelease(weather: Weather) returns (r: Result)
      requires Working()
      modifies `world, `trace, `since
      ensures Working() && Went(weather) && Steady(old(world), world)
      ensures r == Done ==> world.primary.Absent? && (instance.spec.shadow ==> world.shadow.NoShadow?)
      ensures weather == Calm ==>
        world == old(world) && (r == Done <==> ReleaseIsDone(PartsOf(old(world)), instance.spec))
    {
      var ok := Read(weather);
      if !ok {
        return Fails;
      }
      if world.primary.Bound? {
        return Waits;
      }
      if instance.spec.shadow {
        ghost var w := world;
        ok := Read(weather);
        SteadyIsTransitive(old(world), w, world);
        if !ok {
          return Fails;
        }
        if !world.shadow.NoShadow? {
          return Waits;
        }
      }
      return Done;
    }

    /** releaseStorageForUpgrade: Done once both claims are gone. */
    method ReleaseStorageForUpgrade(weather: Weather) returns (r: Result)
      requires Working() && ReleaseDue(world, instance)
      modifies this
      ensures Working() && Went(weather) && ReleaseSteady(old(world), world)
      ensures instance == old(instance).(status := instance.status, rv := instance.rv)
      ensures SameCourse(old(instance).status, instance.status)
      ensures old(Matches(world, instance)) ==> Matches(world, instance)
      ensures r == Done ==> world.primary.Absent? && (instance.spec.shadow ==> world.shadow.NoShadow?)
      ensures Undisturbed(weather) ==>
        && Synced()
        && PartsOf(world) == ReleaseStep(PartsOf(old(world)), instance.spec)
        && (r == Done <==> ReleaseIsDone(PartsOf(old(world)), instance.spec))
    {
      var ok := ReleasePrimaryAndShadowStorage(weather);
      if !ok {
        return Fails;
      }
      ghost var w := world;
      r := AwaitRelease(weather);
      SteadyReleases(w, world);
      ReleaseSteadyIsTransitive(old(world), w, world);
    }

    // ---- The major upgrade ----

    /** Sets fields of the copy's status ahead of an update. */
    method Decide(status: Status)
      requires Working() && StatusOk(status)
      requires instance.rv == world.instance.rv ==> Allowed(world, status)
      modifies `instance
      ensures Working() && instance == old(instance).(status := status)
    {
      DecisionKeepsLink(world, instance, status);
      instance := instance.(status := status);
    }

    /** startMajorUpgrade, on the version the StatefulSet runs. */
    method StartMajorUpgrade(weather: Weather, running: Version) returns (started: bool, r: Result)
      requires Working() && Matches(world, instance) && !instance.deleting && instance.status.upgrade.None?
      requires world.sts.Some? && running == world.sts.value.version
      modifies this
      ensures Working() && Went(weather) && world.sts == old(world).sts
      ensures instance == old(instance).(status := instance.status, rv := instance.rv)
      ensures started ==> r == Done && Matches(world, instance)
      ensures started ==> instance.status.upgrade == Some(UpgradeStatus(running, instance.spec.version, BackingUp))
      ensures started ==> instance.status.phase == Upgrading
      ensures !started && r == Done ==>
        world == old(world) && instance == old(instance) && running.major == instance.spec.version.major
      ensures r != Waits
      ensures Undisturbed(weather) && instance.spec.backupVolume && 0 < running.major < instance.spec.version.major ==>
        && started && Synced() && Advances(PartsOf(old(world)), PartsOf(world), true, instance.spec)
        && PartsOf(world) == Begun(PartsOf(old(world)), instance.spec)
      ensures running.major == instance.spec.version.major ==> !started && r == Done
      ensures Beginning(weather) ==> Prospers(world) && (started <==> r == Done) && (started ==> Sound(world))
    {
      RecordedUpgrade(trace, since, world);
      var from, to := running.major, instance.spec.version.major;
      if from == 0 || to == 0 || from == to {
        return false, Done;
      }
      if to < from || !instance.spec.backupVolume {
        return false, Fails;
      }
      Decide(instance.status.(
        upgrade := Some(UpgradeStatus(running, instance.spec.version, BackingUp)),
        phase := Upgrading));
      var ok, _ := UpdateStatus(weather);
      return ok, if ok then Done else Fails;
    }

    /** The BackingUp stage. */
    method FinishBackingUp(weather: Weather) returns (r: Result)
      requires Working() && Matches(world, instance) && !instance.deleting
      requires AtStage(instance.status, BackingUp) && instance.spec.version == instance.status.upgrade.value.toVersion
      modifies this
      ensures Working() && Went(weather) && SameVersion(old(world).sts, world.sts)
      ensures instance == old(instance).(status := instance.status, rv := instance.rv)
      ensures r == Done ==> Matches(world, instance)
      ensures r == Done ==> instance.status.upgrade == WithStage(old(instance).status.upgrade.value, Releasing)
      ensures Undisturbed(weather) ==>
        Synced() && Advances(PartsOf(old(world)), PartsOf(world), r == Done, instance.spec)
    {
      RecordedUpgrade(trace, since, world);
      r := BackupDatabases(weather, instance.status.upgrade.value.fromVersion);
      if r == Done {
        Decide(instance.status.(
          databases := [],
          databaseCount := 0,
          upgrade := WithStage(instance.status.upgrade.value, Releasing)));
        var ok, _ := UpdateStatus(weather);
        r := if ok then Done else Fails;
      }
    }

    /** The Releasing stage; a StatefulSet already on the new version keeps its storage. */
    method FinishReleasing(weather: Weather, running: Version) returns (r: Result)
      requires Working() && (Matches(world, instance) || Lags(world, instance)) && !instance.deleting
      requires AtStage(instance.status, Releasing) && world.sts.Some? && running == world.sts.value.version
      modifies this
      ensures Working() && Went(weather) && world.sts == old(world).sts
      ensures instance == old(instance).(status := instance.status, rv := instance.rv)
      ensures r == Done ==> Matches(world, instance)
      ensures r == Done ==> instance.status.upgrade == WithStage(old(instance).status.upgrade.value, Restoring)
      ensures old(Lags(world, instance)) ==> r != Done
      ensures Undisturbed(weather) && running != old(instance).status.upgrade.value.toVersion ==>
        Synced() && Advances(PartsOf(old(world)), PartsOf(world), r == Done, instance.spec)
    {
      RecordedUpgrade(trace, since, world);
      if running != instance.status.upgrade.value.toVersion {
        r := ReleaseStorageForUpgrade(weather);
        if r != Done {
          return;
        }
      }
      r := RecordRestoring(weather);
    }

    /** setUpgradeStage, with storage released or, on a lagging copy, about to be refused. */
    method RecordRestoring(weather: Weather) returns (r: Result)
      requires Working() && (Matches(world, instance) || Lags(world, instance)) && !instance.deleting
      requires AtStage(instance.status, Releasing)
      requires Matches(world, instance) ==> world.primary.Absent?
      modifies this
      ensures Working() && Went(weather) && world.sts == old(world).sts
      ensures instance == old(instance).(status := instance.status, rv := instance.rv)
      ensures r == Done ==> Matches(world, instance)
      ensures r == Done ==> instance.status.upgrade == WithStage(old(instance).status.upgrade.value, Restoring)
      ensures old(Lags(world, instance)) ==> r != Done
      ensures Undisturbed(weather) ==>
        && r == Done && Synced()
        && PartsOf(world) == PartsOf(old(world)).(upgrade := WithStage(old(instance).status.upgrade.value, Restoring))
    {
      Decide(instance.status.(upgrade := WithStage(instance.status.upgrade.value, Restoring)));
      var ok, _ := UpdateStatus(weather);
      r := if ok then Done else Fails;
    }

    /** What is left of reconcileMajorUpgrade once an upgrade is recorded. */
    method AdvanceUpgrade(weather: Weather, running: Version) returns (r: Result)
      requires Working() && (Matches(world, instance) || Lags(world, instance)) && !instance.deleting
      requires instance.status.upgrade.Some? && world.sts.Some? && running == world.sts.value.version
      modifies this
      ensures Working() && Went(weather)
      ensures instance == old(instance).(status := instance.status, rv := instance.rv)
      ensures r == Done ==> Matches(world, instance) && Cleared(world, instance)
      ensures old(Lags(world, instance)) ==> r != Done
      ensures Undisturbed(weather) && MayAdvance(PartsOf(old(world)), instance.spec) ==>
        Synced() && (PartsOf(world), r == Done) == UpgradeStep(PartsOf(old(world)), instance.spec)
    {
      if instance.spec.version != instance.status.upgrade.value.toVersion {
        return Fails;
      }
      r := Done;
      if instance.status.upgrade.value.stage == BackingUp {
        r := FinishBackingUp(weather);
      }
      if r == Done {
        r := PassReleasing(weather, running);
      }
    }

    /** The rest of an upgrade that is not, or no longer, BackingUp. */
    method PassReleasing(weather: Weather, running: Version) returns (r: Result)
      requires Working() && (Matches(world, instance) || Lags(world, instance)) && !instance.deleting
      requires instance.status.upgrade.Some? && !AtStage(instance.status, BackingUp)
      requires instance.spec.version == instance.status.upgrade.value.toVersion
      requires world.sts.Some? && running == world.sts.value.version
      modifies this
      ensures Working() && Went(weather)
      ensures instance == old(instance).(status := instance.status, rv := instance.rv)
      ensures r == Done ==> Matches(world, instance) && Cleared(world, instance)
      ensures old(Lags(world, instance)) ==> r != Done
      ensures Undisturbed(weather) && (AtStage(old(instance).status, Releasing) ==> running != instance.spec.version) ==>
        Synced() && (PartsOf(world), r == Done) == UpgradeStep(PartsOf(old(world)), instance.spec)
    {
      r := Done;
      if instance.status.upgrade.value.stage == Releasing {
        r := FinishReleasing(weather, running);
      }
      RecordedUpgrade(trace, since, world);
    }

    /** reconcileMajorUpgrade: handled is whether it took over this reconcile. */
    method ReconcileMajorUpgrade(weather: Weather) returns (handled: bool, r: Result)
      requires Working() && (Matches(world, instance) || Lags(world, instance)) && !instance.deleting
      modifies this
      ensures Working() && Went(weather)
      ensures instance == old(instance).(status := instance.status, rv := instance.rv)
      ensures !handled ==> r == Done && Matches(world, instance) && Cleared(world, instance)
      ensures old(Lags(world, instance)) ==> handled
      ensures handled <==> r != Done
      ensures Undisturbed(weather) && MayAdvance(PartsOf(old(world)), instance.spec) ==>
        Synced() && (PartsOf(world), !handled) == UpgradeStep(PartsOf(old(world)), instance.spec)
      ensures Beginning(weather) ==> Prospers(world) && (!handled ==> Sound(world))
    {
      var ok := Read(weather);
      CallProspers(weather, old(trace), old(since), old(world));
      if !ok {
        return true, Fails;
      }
      if world.sts.None? {
        RecordedBeforeUse(trace, since, world, instance);
        return false, Done;
      }
      handled, r := RunUpgrade(weather, world.sts.value.version);
    }

    /** Whether there is an upgrade to go on with, begun here if need be. */
    method BeginUpgrade(weather: Weather, running: Version) returns (begun: bool, r: Result)
      requires Working() && (Matches(world, instance) || Lags(world, instance)) && !instance.deleting
      requires world.sts.Some? && running == world.sts.value.version
      modifies this
      ensures Working() && Went(weather) && world.sts == old(world).sts
      ensures instance == old(instance).(status := instance.status, rv := instance.rv)
      ensures begun ==> instance.status.upgrade.Some? && (Matches(world, instance) || Lags(world, instance))
      ensures old(Lags(world, instance)) ==> begun && Lags(world, instance)
      ensures !begun && r == Done ==> Matches(world, instance) && Cleared(world, instance)
      ensures r != Waits
      ensures Undisturbed(weather) && MayAdvance(PartsOf(old(world)), instance.spec) ==>
        && Synced() && r == Done && Advances(PartsOf(old(world)), PartsOf(world), true, instance.spec)
        && MayAdvance(PartsOf(world), instance.spec)
        && (!begun ==> UpgradeStep(PartsOf(world), instance.spec) == (PartsOf(world), true))
      ensures Beginning(weather) ==> Prospers(world) && (begun <==> r == Done) && (begun ==> Sound(world))
    {
      if instance.status.upgrade.Some? {
        return true, Done;
      }
      RecordedUpgrade(trace, since, world);
      begun, r := StartMajorUpgrade(weather, running);
    }

    /** The rest of it, with the version the StatefulSet runs. */
    method RunUpgrade(weather: Weather, running: Version) returns (handled: bool, r: Result)
      requires Working() && (Matches(world, instance) || Lags(world, instance)) && !instance.deleting
      requires world.sts.Some? && running == world.sts.value.version
      modifies this
      ensures Working() && Went(weather)
      ensures instance == old(instance).(status := instance.status, rv := instance.rv)
      ensures !handled ==> r == Done && Matches(world, instance) && Cleared(world, instance)
      ensures old(Lags(world, instance)) ==> handled
      ensures handled <==> r != Done
      ensures Undisturbed(weather) && MayAdvance(PartsOf(old(world)), instance.spec) ==>
        Synced() && (PartsOf(world), !handled) == UpgradeStep(PartsOf(old(world)), instance.spec)
      ensures Beginning(weather) ==> Prospers(world) && (!handled ==> Sound(world))
    {
      var begun;
      begun, r := BeginUpgrade(weather, running);
      if !begun {
        return r != Done, r;
      }
      ghost var n, before := |trace| - 1, world;
      r := AdvanceUpgrade(weather, running);
      handled := r != Done;
      if weather != Any && Sound(before) {
        SoundSince(trace, since, world, n, before);
      }
    }

    // ---- Provisioning ----

    ghost predicate MayProvision()
      reads this
    {
      Valid() && ProvisionsFor(world, instance)
    }

    twostate predicate NoShadowStays()
      reads this
    {
      old(world).shadow.NoShadow? ==> world.shadow.NoShadow?
    }

    /** reconcilePVC for the primary claim: one that is there already, terminating or not, is left alone. */
    method ReconcilePrimary(weather: Weather) returns (ok: bool)
      requires MayProvision()
      modifies `world, `trace, `since
      ensures MayProvision() && Went(weather)
      ensures old(world).primary.Bound? && !old(world).primary.terminating ==> !Released(world.primary)
      ensures NoShadowStays() && world.backupClaim == old(world).backupClaim
      ensures weather == Calm ==> ok && world == PrimaryCreated(old(world))
    {
      ok := Read(weather);
      ProvisioningIsSteady(old(world), world, instance);
      if ok && world.primary.Absent? {
        ghost var w := world;
        var applied, reported := Call(weather);
        ProvisioningIsSteady(w, world, instance);
        ok := reported;
        if applied {
          PrimaryCreatedIsRecorded(trace, since, world, instance);
          Apply(PrimaryCreated(world));
        }
      }
    }

    method ReconcileBackup(weather: Weather) returns (ok: bool)
      requires MayProvision()
      modifies `world, `trace, `since
      ensures MayProvision() && Went(weather)
      ensures ok ==> world.backupClaim
      ensures NoShadowStays()
      ensures weather == Calm ==> ok && world == BackupClaimCreated(old(world))
    {
      ok := Read(weather);
      ProvisioningIsSteady(old(world), world, instance);
      if ok && !world.backupClaim {
        ghost var w := world;
        var applied, reported := Call(weather);
        ProvisioningIsSteady(w, world, instance);
        ok := reported;
        if applied {
          BackupClaimCreatedIsRecorded(trace, since, world, instance);
          Apply(BackupClaimCreated(world));
        }
      }
    }

    method ReconcileShadow(weather: Weather) returns (ok: bool)
      requires MayProvision()
      modifies `world, `trace, `since
      ensures MayProvision() && Went(weather)
      ensures world.backupClaim == old(world).backupClaim
      ensures weather == Calm ==> ok && world == ShadowCreated(old(world))
    {
      ok := Read(weather);
      ProvisioningIsSteady(old(world), world, instance);
      if ok && world.shadow.NoShadow? {
        ghost var w := world;
        var applied, reported := Call(weather);
        ProvisioningIsSteady(w, world, instance);
        ok := reported;
        if applied {
          ShadowStepIsRecorded(trace, since, world, instance, ShadowCreated(world).shadow);
          Apply(ShadowCreated(world));
        }
      }
    }

    /** reconcilePVCs. */
    method ReconcilePvcs(weather: Weather) returns (ok: bool)
      requires MayProvision()
      modifies `world, `trace, `since
      ensures MayProvision() && Went(weather)
      ensures !instance.spec.backupVolume ==> world.backupClaim == old(world).backupClaim
      ensures !instance.spec.shadow && old(world).shadow.NoShadow? ==> world.shadow.NoShadow?
      ensures weather == Calm ==> ok && world.instance == old(world).instance
      ensures weather == Calm ==> PartsOf(world) == ClaimsStep(PartsOf(old(world)), instance.spec)
    {
      ok := ReconcilePrimary(weather);
      if ok {
        ok := ReconcileOthers(weather);
      }
    }

    /** The claims it may do without. */
    method ReconcileOthers(weather: Weather) returns (ok: bool)
      requires MayProvision()
      modifies `world, `trace, `since
      ensures MayProvision() && Went(weather)
      ensures !instance.spec.backupVolume ==> world.backupClaim == old(world).backupClaim
      ensures !instance.spec.shadow && old(world).shadow.NoShadow? ==> world.shadow.NoShadow?
      ensures weather == Calm ==> ok && world == old(world).(
        backupClaim := old(world).backupClaim || instance.spec.backupVolume,
        shadow := if instance.spec.shadow then ShadowCreated(old(world)).shadow else old(world).shadow)
    {
      ok := true;
      if instance.spec.backupVolume {
        ok := ReconcileBackup(weather);
      }
      if ok && instance.spec.shadow {
        ok := ReconcileShadow(weather);
      }
    }

    /** The StatefulSet runs what the copy's spec asks for. */
    ghost predicate Running()
      reads this
    {
      MayProvision() && world.sts.Some? && world.sts.value.version == instance.spec.version
    }

    ghost predicate Serving()
      reads this
    {
      Valid() && Serves(world, instance)
    }

    /** CreateOrUpdate with mutateStatefulSet; ready is status.readyReplicas > 0 in its answer. */
    method ApplyStatefulSet(weather: Weather) returns (ok: bool, ready: bool)
      requires MayProvision()
      modifies `world, `trace, `since
      ensures Went(weather)
      ensures if ok then Running() else MayProvision()
      ensures ready ==> Serving() && world.pod.Some? && world.pod.value.phase == Available
      ensures ok ==>
        world.sts == Some(StatefulSet(instance.spec.version, 1, instance.spec.backupVolume, instance.spec.shadow))
      ensures weather == Calm ==>
        && ok && world == StatefulSetApplied(old(world), instance.spec)
        && (ready <==> IsServing(PartsOf(old(world))))
    {
      var applied, reported := Call(weather);
      ProvisioningIsSteady(old(world), world, instance);
      ok, ready := reported, false;
      if applied {
        StatefulSetAppliedIsRecorded(trace, since, world, instance);
        Apply(StatefulSetApplied(world, instance.spec));
        ready := world.pod.Some? && world.pod.value.phase == Available;
      }
    }

    // ---- Databases ----

    twostate predicate KeepsFiles()
      reads this
    {
      FilesStay(old(world), world)
    }

    /** A call while serving. */
    method Exec(weather: Weather) returns (applied: bool, reported: bool)
      requires Serving()
      modifies `world, `trace, `since
      ensures Serving() && Went(weather) && KeepsFiles() && world.backups == old(world).backups
      ensures reported ==> applied
      ensures Still(weather) ==> world == old(world)
      ensures weather == Calm ==> applied && reported
    {
      applied, reported := Call(weather);
      ServingIsSteady(old(world), world, instance, instance);
    }

    /**
     * databaseFileExists, on the primary volume. Any exit code of "test" counts
     * as an answer, so that one which is killed says there is no file.
     */
    method FileExists(weather: Weather, db: string) returns (ok: bool, found: bool)
      requires Serving()
      modifies `world, `trace, `since
      ensures Serving() && Went(weather) && KeepsFiles()
      ensures ok && found ==> OnPrimary(world.primary, db)
      ensures Still(weather) ==> world == old(world)
      ensures weather == Calm && ServerUp(old(world)) ==> ok && found == OnPrimary(world.primary, db)
    {
      var applied;
      applied, ok := Exec(weather);
      ok := ok && ServerUp(world);
      found := OnPrimary(world.primary, db);
      var killed: bool := *;
      if killed && weather != Calm {
        found := false;
      }
    }

    /** The same on the backup volume, where it is taken to answer truly (see Runs.UntrueAnswerLosesTheDatabase). */
    method ArchiveExists(weather: Weather, db: string) returns (ok: bool, found: bool)
      requires Serving()
      modifies `world, `trace, `since
      ensures Serving() && Went(weather) && KeepsFiles()
      ensures found == (db in world.backups.base)
      ensures Still(weather) ==> world == old(world)
      ensures weather == Calm && ServerUp(old(world)) ==> ok
    {
      var applied;
      applied, ok := Exec(weather);
      ok := ok && ServerUp(world);
      found := db in world.backups.base;
    }

    /** The exec of databaseDropScript. */
    method DropDatabase(weather: Weather, db: string) returns (ok: bool)
      requires Serving() && db !in instance.spec.databases
      modifies `world, `trace, `since
      ensures Serving() && Went(weather)
      ensures weather == Calm && ServerUp(old(world)) ==> ok
      ensures Still(weather) && ServerUp(old(world)) ==>
        EffectOrNone(old(world), world, instance.spec.backupVolume, Databases.Drop(db), ok)
    {
      var applied, reported := Exec(weather);
      ok := reported && ServerUp(world);
      if applied && ServerUp(world) {
        DatabaseDroppedIsRecorded(trace, since, world, instance, db);
        ContentsDropped(world, db, instance.spec.backupVolume);
        Apply(DatabaseDropped(world, db));
      }
    }

    /** The exec of databaseCreateScript, which fails on an existing file. */
    method CreateDatabase(weather: Weather, db: string) returns (ok: bool)
      requires Serving() && (instance.spec.backupVolume ==> db !in world.backups.base)
      modifies `world, `trace, `since
      ensures Serving() && Went(weather) && KeepsFiles()
      ensures ok ==> OnPrimary(world.primary, db)
      ensures weather == Calm && ServerUp(old(world)) && !OnPrimary(old(world).primary, db) ==> ok
      ensures Still(weather) ==> ProvidedOrNot(old(world), world, db, Databases.EMPTY, ok)
    {
      var applied, reported := Exec(weather);
      var possible := ServerUp(world) && db !in world.primary.files;
      ok := reported && possible;
      if applied && possible {
        DatabaseCreatedIsRecorded(trace, since, world, instance, db, Databases.EMPTY);
        Apply(FileAdded(world, db, Databases.EMPTY));
      }
    }

    /** The execs of gbak -create and, with a shadow, CREATE SHADOW, taken as one. */
    method RestoreDatabase(weather: Weather, db: string) returns (ok: bool)
      requires Serving() && db in world.backups.base
      modifies `world, `trace, `since
      ensures Serving() && Went(weather) && KeepsFiles()
      ensures ok ==> OnPrimary(world.primary, db)
      ensures weather == Calm && Restorable(old(world), db) ==> ok
      ensures Still(weather) ==>
        || (world == old(world) && !ok)
        || (Restorable(old(world), db) && world == FileAdded(old(world), db, old(world).backups.base[db].content))
    {
      var applied, reported := Exec(weather);
      var possible := Restorable(world, db);
      ok := reported && possible;
      if applied && possible {
        DatabaseRestoredIsRecorded(trace, since, world, instance, db);
        Apply(FileAdded(world, db, world.backups.base[db].content));
      }
    }

    /** restoreDatabaseIfBackedUp. */
    method RestoreDatabaseIfBackedUp(weather: Weather, db: string) returns (ok: bool, restored: bool)
      requires Serving() && instance.spec.backupVolume
      modifies `world, `trace, `since
      ensures Serving() && Went(weather) && KeepsFiles()
      ensures ok ==> if restored then OnPrimary(world.primary, db) else db !in world.backups.base
      ensures weather == Calm && CanProvide(old(world), db) && !OnPrimary(old(world).primary, db) ==> ok
      ensures Still(weather) && !restored ==> world == old(world)
      ensures Still(weather) && restored ==>
        ProvidedOrNot(old(world), world, db, Databases.Fresh(ArchivesOf(old(world).backups, true), db), ok)
    {
      ok, restored := ArchiveExists(weather, db);
      if ok && restored {
        ok := RestoreDatabase(weather, db);
      }
    }

    /** A database whose file is not there: restored from its backup, or created. */
    method ProvideMissing(weather: Weather, db: string) returns (ok: bool)
      requires Serving()
      modifies `world, `trace, `since
      ensures Serving() && Went(weather) && KeepsFiles()
      ensures ok ==> OnPrimary(world.primary, db)
      ensures weather == Calm && CanProvide(old(world), db) && !OnPrimary(old(world).primary, db) ==> ok
      ensures Still(weather) ==>
        ProvidedOrNot(old(world), world, db, FreshContent(old(world), db, instance.spec.backupVolume), ok)
    {
      var restored := false;
      if instance.spec.backupVolume {
        ok, restored := RestoreDatabaseIfBackedUp(weather, db);
        if !ok || restored {
          return;
        }
      }
      ok := CreateDatabase(weather, db);
    }

    /** One round of the loop over pending: register, restore or create. */
    method ProvideDatabase(weather: Weather, db: string) returns (ok: bool)
      requires Serving()
      modifies `world, `trace, `since
      ensures Serving() && Went(weather) && KeepsFiles()
      ensures ok ==> OnPrimary(world.primary, db)
      ensures weather == Calm && CanProvide(old(world), db) ==> ok
      ensures weather == Calm && ServerUp(old(world)) && db !in old(world).backups.base ==> ok
      ensures weather == Calm && ServerUp(old(world)) && db in old(world).backups.base ==>
        old(world).backups.base[db].Complete? ==>
        old(world).backups.base[db].major <= old(world).pod.value.version.major ==> ok
      ensures Still(weather) && ok && ServerUp(old(world)) ==>
        && world.primary.files.Keys == old(world).primary.files.Keys + {db}
        && world.primary.files[db].content ==
             if db in old(world).primary.files then old(world).primary.files[db].content
             else if instance.spec.backupVolume && db in old(world).backups.base && old(world).backups.base[db].Complete?
             then old(world).backups.base[db].content else 0
      ensures Still(weather) && ServerUp(old(world)) ==>
        EffectOrNone(old(world), world, instance.spec.backupVolume, Databases.Provide(db), ok)
    {
      var found;
      ok, found := FileExists(weather, db);
      if ok && !found {
        ok := ProvideMissing(weather, db);
      }
      ProvidedIsGiven(old(world), world, db, instance.spec.backupVolume);
      ProvidedHasEffect(old(world), world, db, instance.spec.backupVolume, ok);
    }

    method DropRemoved(weather: Weather, removed: seq<string>) returns (ok: bool, ghost done: nat)
      requires Serving() && forall db :: db in removed ==> db !in instance.spec.databases
      modifies `world, `trace, `since
      ensures Serving() && Went(weather)
      ensures weather == Calm && ServerUp(old(world)) ==> ok
      ensures Still(weather) && ServerUp(old(world)) ==>
        Executed(old(world), world, instance.spec.backupVolume, Databases.Drops(removed), done) && (ok ==> done == |removed|)
    {
      ok, done := true, 0;
      ExecutedNothing(world, instance.spec.backupVolume, Databases.Drops(removed));
      for k := 0 to |removed|
        invariant Serving() && Went(weather) && done == k && ok
        invariant Still(weather) && ServerUp(old(world)) ==>
          Executed(old(world), world, instance.spec.backupVolume, Databases.Drops(removed), k)
      {
        ok, done := DropNext(weather, removed, k, old(world));
        if !ok {
          return;
        }
      }
    }

    /** One round of it, the rounds before having begun in w0. */
    method DropNext(weather: Weather, removed: seq<string>, k: nat, ghost w0: World) returns (ok: bool, ghost done: nat)
      requires Serving() && k < |removed| && removed[k] !in instance.spec.databases
      modifies `world, `trace, `since
      ensures Serving() && Went(weather) && (ok ==> done == k + 1)
      ensures weather == Calm && ServerUp(old(world)) ==> ok
      ensures Still(weather) && ServerUp(w0) && old(Executed(w0, world, instance.spec.backupVolume, Databases.Drops(removed), k)) ==>
        Executed(w0, world, instance.spec.backupVolume, Databases.Drops(removed), done)
    {
      ok := DropDatabase(weather, removed[k]);
      done := ExecutedNext(w0, old(world), world, instance.spec.backupVolume, Databases.Drops(removed), k, ok);
    }

    method ProvidePending(weather: Weather, pending: seq<string>) returns (ok: bool, ghost done: nat)
      requires Serving()
      modifies `world, `trace, `since
      ensures Serving() && Went(weather)
      ensures ok ==> OnPrimaryUpTo(world.primary, pending, |pending|)
      ensures weather == Calm && CanProvideAll(old(world), pending) ==> ok
      ensures Still(weather) && ServerUp(old(world)) ==>
        Executed(old(world), world, instance.spec.backupVolume, Databases.Provides(pending), done) && (ok ==> done == |pending|)
    {
      ok, done := true, 0;
      ExecutedNothing(world, instance.spec.backupVolume, Databases.Provides(pending));
      for k := 0 to |pending|
        invariant Serving() && Went(weather) && done == k && ok
        invariant OnPrimaryUpTo(world.primary, pending, k)
        invariant Still(weather) && ServerUp(old(world)) ==>
          Executed(old(world), world, instance.spec.backupVolume, Databases.Provides(pending), k)
      {
        ok, done := ProvideNext(weather, pending, k, old(world));
        if !ok {
          return;
        }
      }
    }

    /** One round of it, the rounds before having begun in w0. */
    method ProvideNext(weather: Weather, pending: seq<string>, k: nat, ghost w0: World) returns (ok: bool, ghost done: nat)
      requires Serving() && k < |pending| && OnPrimaryUpTo(world.primary, pending, k)
      modifies `world, `trace, `since
      ensures Serving() && Went(weather) && (ok ==> done == k + 1)
      ensures ok ==> OnPrimaryUpTo(world.primary, pending, k + 1)
      ensures weather == Calm && CanProvideAll(w0, pending) ==>
        old(Executed(w0, world, instance.spec.backupVolume, Databases.Provides(pending), k)) ==> ok
      ensures Still(weather) && ServerUp(w0) && old(Executed(w0, world, instance.spec.backupVolume, Databases.Provides(pending), k)) ==>
        Executed(w0, world, instance.spec.backupVolume, Databases.Provides(pending), done)
    {
      CanProvideNext(w0, world, pending, k);
      ok := ProvideDatabase(weather, pending[k]);
      if ok {
        OneMoreOnPrimary(old(world).primary, world.primary, pending, k);
      }
      done := ExecutedNext(w0, old(world), world, instance.spec.backupVolume, Databases.Provides(pending), k, ok);
    }

    /** The execs of reconcileDatabases. */
    method ChangeFiles(weather: Weather, pending: seq<string>, removed: seq<string>) returns (ok: bool, ghost done: nat)
      requires Serving() && forall db :: db in removed ==> db !in instance.spec.databases
      modifies `world, `trace, `since
      ensures Serving() && Went(weather)
      ensures ok ==> OnPrimaryUpTo(world.primary, pending, |pending|)
      ensures weather == Calm && CanProvideAll(old(world), pending) ==> ok
      ensures Still(weather) && ServerUp(old(world)) ==>
        && Executed(old(world), world, instance.spec.backupVolume, Databases.Drops(removed) + Databases.Provides(pending), done)
        && (ok ==> done == |removed| + |pending|)
    {
      ok, done := DropRemoved(weather, removed);
      if ok {
        CanStillProvide(old(world), world, instance.spec.backupVolume, Databases.Drops(removed), done, pending);
        ok, done := ProvideAfter(weather, pending, removed, old(world));
      } else {
        ExecutedPart(old(world), world, instance.spec.backupVolume, removed, pending, done);
      }
    }

    /** The second loop, the first having dropped what is removed from w0. */
    method ProvideAfter(weather: Weather, pending: seq<string>, ghost removed: seq<string>, ghost w0: World)
      returns (ok: bool, ghost done: nat)
      requires Serving()
      modifies `world, `trace, `since
      ensures Serving() && Went(weather)
      ensures ok ==> OnPrimaryUpTo(world.primary, pending, |pending|)
      ensures weather == Calm && CanProvideAll(old(world), pending) ==> ok
      ensures Still(weather) && ServerUp(old(world)) ==>
        old(Executed(w0, world, instance.spec.backupVolume, Databases.Drops(removed), |removed|)) ==>
        && Executed(w0, world, instance.spec.backupVolume, Databases.Drops(removed) + Databases.Provides(pending), done)
        && (ok ==> done == |removed| + |pending|)
    {
      ghost var provided;
      ok, provided := ProvidePending(weather, pending);
      done := |removed| + provided;
      ExecutedPlan(w0, old(world), world, instance.spec.backupVolume, removed, pending, provided);
    }

    /** The one status update at the end of reconcileDatabases. */
    method RecordDatabases(weather: Weather, pending: seq<string>, removed: seq<string>) returns (ok: bool)
      requires Serving()
      requires pending == Databases.Pending(instance.spec.databases, instance.status.databases)
      requires removed == Databases.Removed(instance.spec.databases, instance.status.databases)
      requires OnPrimaryUpTo(world.primary, pending, |pending|)
      modifies this
      ensures Working() && Went(weather)
      ensures instance == old(instance).(status := instance.status, rv := instance.rv)
      ensures ok ==> Serving() && Elements(instance.status.databases) == Elements(instance.spec.databases)
      ensures Undisturbed(weather) ==> ok && Synced()
      ensures Still(weather) ==> world.primary == old(world).primary
    {
      var databases := Databases.Merge(instance.status.databases, pending, removed);
      SettlingIsAllowed(world, instance, databases);
      Decide(instance.status.(databases := databases, databaseCount := |databases|));
      ghost var before;
      ok, before := UpdateStatus(weather);
      if ok {
        ServingAfterUpdate(old(world), before, old(instance), instance);
      }
    }

    /** The execs of reconcileDatabases and their record, once there is something to do. */
    method SettleDatabases(weather: Weather, pending: seq<string>, removed: seq<string>) returns (ok: bool, ghost done: nat)
      requires Serving()
      requires pending == Databases.Pending(instance.spec.databases, instance.status.databases)
      requires removed == Databases.Removed(instance.spec.databases, instance.status.databases)
      modifies this
      ensures Working() && Went(weather)
      ensures instance == old(instance).(status := instance.status, rv := instance.rv)
      ensures ok ==> Serving() && Elements(instance.status.databases) == Elements(instance.spec.databases)
      ensures Undisturbed(weather) && CanSettle(old(world), instance.spec) ==> ok && Synced()
      ensures Still(weather) && ServerUp(old(world)) ==>
        FollowsPlan(old(world), world, old(instance), done) && (ok ==> done == |PlanOf(old(instance))|)
    {
      Databases.OutsideElements(instance.status.databases, instance.spec.databases);
      CanProvidePending(world, instance);
      ok, done := ChangeFiles(weather, pending, removed);
      if ok {
        ok := RecordDatabases(weather, pending, removed);
      }
    }

    /** What reconcileDatabases reads first: the password, and which backups have no database. */
    method ReadBeforeSettling(weather: Weather, checkOrphans: bool) returns (ok: bool)
      requires Serving()
      modifies `world, `trace, `since
      ensures Serving() && Went(weather)
      ensures Still(weather) ==> world == old(world)
      ensures weather == Calm && (checkOrphans ==> ServerUp(old(world))) ==> ok
    {
      var applied;
      applied, ok := Exec(weather);
      if ok && checkOrphans {
        applied, ok := Exec(weather);
        ok := ok && ServerUp(world);
      }
    }

    /** reconcileDatabases. */
    method ReconcileDatabases(weather: Weather, ready: bool) returns (ok: bool, ghost done: nat)
      requires Running() && (ready ==> Serving())
      modifies this
      ensures Working() && Went(weather)
      ensures instance == old(instance).(status := instance.status, rv := instance.rv)
      ensures ok ==> Running()
      ensures ok && ready ==> Serving() && Elements(instance.status.databases) == Elements(instance.spec.databases)
      ensures Undisturbed(weather) && !ready ==> ok && Synced() && world == old(world)
      ensures Undisturbed(weather) && ready && CanSettle(old(world), instance.spec) ==> ok && Synced()
      ensures Still(weather) && ready && ServerUp(old(world)) ==>
        FollowsPlan(old(world), world, old(instance), done) && (ok ==> done == |PlanOf(old(instance))|)
    {
      done := 0;
      if !ready {
        return true, 0;
      }
      var pending, removed := Databases.Diff(instance.spec.databases, instance.status.databases);
      Databases.NothingToDo(instance.spec.databases, instance.status.databases);
      if pending == [] && removed == [] {
        return true, 0;
      }
      ok := ReadBeforeSettling(weather, pending != [] && instance.spec.backupVolume);
      if ok {
        ok, done := SettleDatabases(weather, pending, removed);
      }
    }

    // ---- The reconcile ----

    /** reconcileScheduledBackups, whose CronJobs are no part of this cluster (see Retention). */
    method ReconcileScheduledBackups(weather: Weather) returns (ok: bool)
      requires Serving()
      modifies `world, `trace, `since
      ensures Serving() && Went(weather)
      ensures Still(weather) ==> world == old(world)
      ensures weather == Calm ==> ok
    {
      var applied;
      var calls: nat := *;
      ok := true;
      while 0 < calls && ok
        invariant Serving() && Went(weather)
        invariant Still(weather) ==> world == old(world)
        invariant weather == Calm ==> ok
      {
        applied, ok := Exec(weather);
        calls := calls - 1;
      }
    }

    /** reconcileFirebirdVersion: asks the server, labels its pod, and records a version that is new. */
    method ReconcileFirebirdVersion(weather: Weather) returns (ok: bool)
      requires Serving()
      modifies this
      ensures Working() && Went(weather)
      ensures instance == old(instance).(status := instance.status, rv := instance.rv)
      ensures instance.status == old(instance).status.(report := instance.status.report)
      ensures ok ==> Serving()
      ensures Undisturbed(weather) ==> ok && Synced() && PartsOf(world) == PartsOf(old(world))
    {
      var applied;
      applied, ok := Exec(weather);
      if ok {
        applied, ok := Exec(weather);
      }
      var version: string := *;
      if !ok || instance.status.report.firebirdVersion == version {
        return;
      }
      Note(instance.status.(report := instance.status.report.(firebirdVersion := version)));
      ghost var w := world;
      ok := UpdateReport(weather);
      ServingIsSteady(w, world, old(instance), instance);
    }

    /** What reconcileInstance does for a ready server between its databases and the Ready test. */
    method ReconcileReady(weather: Weather) returns (ok: bool)
      requires Serving()
      modifies this
      ensures Working() && Went(weather)
      ensures instance == old(instance).(status := instance.status, rv := instance.rv)
      ensures instance.status == old(instance).status.(report := instance.status.report)
      ensures ok ==> Serving()
      ensures Undisturbed(weather) ==> ok && Synced() && PartsOf(world) == PartsOf(old(world))
    {
      ok := ReconcileScheduledBackups(weather);
      if ok {
        ok := ReconcileFirebirdVersion(weather);
      }
    }

    /** finishMajorUpgrade. */
    method FinishMajorUpgrade(weather: Weather) returns (ok: bool)
      requires Serving() && Elements(instance.status.databases) == Elements(instance.spec.databases)
      modifies this
      ensures Working() && Went(weather)
      ensures instance == old(instance).(status := instance.status, rv := instance.rv)
      ensures ok ==> Serving() && instance.status == old(instance).status.(upgrade := None)
      ensures Undisturbed(weather) ==> ok && Synced()
    {
      if instance.status.upgrade.None? {
        return true;
      }
      Decide(instance.status.(upgrade := None));
      ghost var before;
      ok, before := UpdateStatus(weather);
      if ok {
        ServingAfterUpdate(old(world), before, old(instance), instance);
      }
    }

    /** setPhase: no call where the phase is recorded already. */
    method SetPhase(weather: Weather, phase: Phase) returns (ok: bool)
      requires Working() && Matches(world, instance) && (phase == Ready ==> instance.status.upgrade.None?)
      modifies this
      ensures Working() && Went(weather) && Matches(world, instance) && Steady(old(world), world)
      ensures instance == old(instance).(status := old(instance).status.(phase := phase), rv := instance.rv)
      ensures old(instance).status.phase == phase ==> ok && Unchanged()
      ensures Undisturbed(weather) ==> ok && Synced() && PartsOf(world) == PartsOf(old(world))
    {
      RecordedDrifts(trace, since, world);
      if instance.status.phase == phase {
        return true;
      }
      Note(instance.status.(phase := phase));
      ok := UpdateReport(weather);
    }

    /** setAvailable, likewise. */
    method SetAvailable(weather: Weather, available: bool) returns (ok: bool)
      requires Working() && Matches(world, instance)
      modifies this
      ensures Working() && Went(weather) && Matches(world, instance) && Steady(old(world), world)
      ensures instance == old(instance).(status := instance.status, rv := instance.rv)
      ensures instance.status == old(instance).status.(report := instance.status.report)
      ensures instance.status.report.available == available
      ensures old(instance).status.report.available == available ==> ok && Unchanged()
      ensures Undisturbed(weather) ==> ok && Synced() && PartsOf(world) == PartsOf(old(world))
    {
      RecordedDrifts(trace, since, world);
      if instance.status.report.available == available {
        return true;
      }
      Note(instance.status.(report := instance.status.report.(available := available)));
      ok := UpdateReport(weather);
    }

    /** From reconcilePVCs to the Ready test. */
    method Provision(weather: Weather) returns (ok: bool, ready: bool)
      requires MayProvision()
      modifies this
      ensures Working() && Went(weather)
      ensures instance == old(instance).(status := instance.status, rv := instance.rv)
      ensures ok ==> Running()
      ensures ok && ready ==> Serving() && Elements(instance.status.databases) == Elements(instance.spec.databases)
      ensures Undisturbed(weather) ==> (ready <==> IsServing(PartsOf(old(world))))
      ensures Undisturbed(weather) && !ready ==>
        ok && Synced() && PartsOf(world) == ProvisionStep(PartsOf(old(world)), instance.spec)
      ensures Undisturbed(weather) && ready && MaySettle(PartsOf(old(world)), instance.spec) ==> ok && Synced()
    {
      ok, ready := ProvideServer(weather);
      ghost var done;
      if ok {
        ok, done := ReconcileDatabases(weather, ready);
      }
      if ok && ready {
        ok := ReconcileReady(weather);
      }
    }

    /** The claims and the StatefulSet. */
    method ProvideServer(weather: Weather) returns (ok: bool, ready: bool)
      requires MayProvision()
      modifies `world, `trace, `since
      ensures Went(weather) && MayProvision()
      ensures ok ==> Running()
      ensures ready ==> Serving()
      ensures weather == Calm ==>
        && ok && (ready <==> IsServing(PartsOf(old(world)))) && world.instance == old(world).instance
        && PartsOf(world) == ProvisionStep(PartsOf(old(world)), instance.spec)
      ensures weather == Calm && ready && MaySettle(PartsOf(old(world)), instance.spec) ==> CanSettle(world, instance.spec)
    {
      ready := false;
      ok := ReconcilePvcs(weather);
      if ok {
        ok, ready := ApplyStatefulSet(weather);
        RecordedPod(trace, since, world);
      }
    }

    /** The end of reconcileInstance: the count test decides between Ready and not yet. */
    method Conclude(weather: Weather, ready: bool) returns (ok: bool)
      requires Running()
      requires ready ==> Serving() && Elements(instance.status.databases) <= Elements(instance.spec.databases)
      modifies this
      ensures Working() && Went(weather)
      ensures instance == old(instance).(status := instance.status, rv := instance.rv)
      ensures ok ==> Matches(world, instance)
      ensures ok && instance.status.phase == Ready ==> IsReady(world, instance) && instance.status.report.available
      ensures ok && instance.status.phase != Ready ==>
        && instance.status.phase == (if instance.status.upgrade.Some? then Upgrading else Provisioning)
        && !instance.status.report.available
      ensures ok ==>
        (instance.status.phase == Ready <==> ready && |old(instance).status.databases| >= |instance.spec.databases|)
      ensures Undisturbed(weather) && !ready ==> ok && Synced() && PartsOf(world) == PartsOf(old(world))
      ensures Undisturbed(weather) && ready && Elements(old(instance).status.databases) == Elements(old(instance).spec.databases) ==>
        ok && Synced() && instance.status.phase == Ready
    {
      if ready {
        Databases.CountDecidesWithin(instance.spec.databases, instance.status.databases);
      }
      if ready && |instance.status.databases| >= |instance.spec.databases| {
        ok := BecomeReady(weather);
      } else {
        ok := SetPhase(weather, if instance.status.upgrade.Some? then Upgrading else Provisioning);
        if ok {
          ok := SetAvailable(weather, false);
        }
      }
    }

    method BecomeReady(weather: Weather) returns (ok: bool)
      requires Serving() && Elements(instance.status.databases) == Elements(instance.spec.databases)
      modifies this
      ensures Working() && Went(weather)
      ensures instance == old(instance).(status := instance.status, rv := instance.rv)
      ensures ok ==> Matches(world, instance) && instance.status.phase == Ready && IsReady(world, instance)
      ensures ok ==> instance.status.report.available
      ensures Undisturbed(weather) ==> ok && Synced()
    {
      ok := FinishMajorUpgrade(weather);
      CountsElements(instance.status.databases);
      if ok {
        ok := SetPhase(weather, Ready);
      }
      if ok {
        ok := SetAvailable(weather, true);
      }
    }

    /** reconcileInstance. */
    method ReconcileInstance(weather: Weather) returns (r: Result)
      requires Working() && (Matches(world, instance) || Lags(world, instance)) && !instance.deleting
      modifies this
      ensures Working() && Went(weather)
      ensures r == Done && instance.status.phase == Ready ==> IsReady(world, instance)
      ensures Undisturbed(weather) && CanReconcile(PartsOf(old(world)), old(instance).spec) ==>
        Synced() && ReconciledTo(PartsOf(old(world)), old(instance).spec, world)
      ensures Beginning(weather) ==> Prospers(world)
    {
      var ok := Read(weather);
      CallProspers(weather, old(trace), old(since), old(world));
      r := Fails;
      if ok {
        r := ReconcileStages(weather);
      }
    }

    /** reconcileInstance past the SYSDBA Secret. */
    method ReconcileStages(weather: Weather) returns (r: Result)
      requires Working() && (Matches(world, instance) || Lags(world, instance)) && !instance.deleting
      modifies this
      ensures Working() && Went(weather)
      ensures r == Done && instance.status.phase == Ready ==> IsReady(world, instance)
      ensures Undisturbed(weather) && CanReconcile(PartsOf(old(world)), old(instance).spec) ==>
        Synced() && ReconciledTo(PartsOf(old(world)), old(instance).spec, world)
      ensures Beginning(weather) ==> Prospers(world)
    {
      var handled;
      handled, r := ReconcileMajorUpgrade(weather);
      if handled {
        return;
      }
      ghost var n, before := |trace| - 1, world;
      r := ReconcileRest(weather);
      if weather != Any && Sound(before) {
        SoundSince(trace, since, world, n, before);
      }
    }

    /** What reconcileInstance does past reconcileMajorUpgrade. */
    method ReconcileRest(weather: Weather) returns (r: Result)
      requires MayProvision()
      modifies this
      ensures Working() && Went(weather)
      ensures r == Done && instance.status.phase == Ready ==> IsReady(world, instance)
      ensures Undisturbed(weather) && (IsServing(PartsOf(old(world))) ==> MaySettle(PartsOf(old(world)), old(instance).spec)) ==>
        Synced() && RestReconciledTo(PartsOf(old(world)), old(instance).spec, world)
    {
      var ok := Read(weather);
      ProvisioningIsSteady(old(world), world, instance);
      var ready := false;
      if ok {
        ok, ready := Provision(weather);
      }
      if ok {
        ok := Conclude(weather, ready);
      }
      r := if ok then Done else Fails;
    }

    // ---- Deletion ----

    /** The StatefulSet is as it was, and there is no backup Pod that was not there. */
    ghost predicate NoBackup(w: World, w': World) {
      w'.sts == w.sts && (w.backupPod.None? ==> w'.backupPod.None?)
    }

    /** Whether the deletion in hand takes a backup, and with which version. */
    ghost predicate Backs(i: Instance) {
      i.spec.backupVolume && i.spec.backupOnDelete
    }

    /** The first half of reconcileDeletion: whatever backup it owes. */
    method BackupForDeletion(weather: Weather) returns (r: Result)
      requires Working() && Matches(world, instance) && instance.deleting
      modifies this
      ensures Working() && Went(weather) && Matches(world, instance)
      ensures instance == old(instance).(status := instance.status, rv := instance.rv)
      ensures r == Done && Backs(instance) ==> DeletionMayFinish(world)
      ensures !(old(instance).spec.backupVolume && old(instance).spec.backupOnDelete) ==> r == Done && Unchanged()
      ensures Undisturbed(weather) ==>
        && Synced()
        && (if OwesBackup(PartsOf(old(world)), instance.spec)
            then PartsOf(world) == BackupStep(PartsOf(old(world)), instance.spec, DeletedVersion(PartsOf(old(world)), instance.spec))
                 && (r == Done <==> BackupIsDone(PartsOf(old(world))))
            else r == Done && PartsOf(world) == PartsOf(old(world)))
    {
      var upgrade := instance.status.upgrade;
      var backedUp := upgrade.Some? && upgrade.value.stage != BackingUp;
      r := Done;
      if instance.spec.backupVolume && instance.spec.backupOnDelete && !backedUp {
        var version := if upgrade.Some? then upgrade.value.fromVersion else instance.spec.version;
        r := BackupDatabases(weather, version);
      }
    }

    /**
     * The update that removes the finalizer: like any update, refused on an
     * outdated copy; before is the cluster it met.
     */
    method RemoveFinalizer(weather: Weather) returns (ok: bool, ghost before: World)
      requires Working() && instance.deleting && (Backs(instance) ==> DeletionMayFinish(world))
      modifies `world, `trace, `since
      ensures Valid() && Went(weather)
      ensures Drift(old(world), before) && (world == before || world == FinalizerRemoved(before))
      ensures NoBackup(old(world), world)
      ensures ok ==> world == FinalizerRemoved(before)
      ensures old(instance.rv < world.instance.rv) ==> world == before && !ok
      ensures Undisturbed(weather) ==> ok && before == old(world)
    {
      var applied, reported := Call(weather);
      before := world;
      ok := reported && instance.rv == world.instance.rv;
      if applied && instance.rv == world.instance.rv {
        SteadyReleases(old(world), world);
        if Backs(instance) {
          DeletionMayFinishIsSteady(old(world), world);
        }
        FinalizerRemovedIsRecorded(trace, since, world, instance);
        Become(FinalizerRemoved(world));
      }
    }

    /** reconcileDeletion's messages before it backs up. */
    method AnnounceDeletion(weather: Weather) returns (ok: bool)
      requires Working() && Matches(world, instance) && instance.deleting
      modifies this
      ensures Working() && Went(weather) && Matches(world, instance)
      ensures instance == old(instance).(status := instance.status, rv := instance.rv)
      ensures Steady(old(world), world)
      ensures ok ==> instance.status.phase == Deleting && instance.status.report.message == "Deleting Instance"
      ensures Undisturbed(weather) ==> ok && Synced() && PartsOf(world) == PartsOf(old(world))
    {
      ok := SetPhase(weather, Deleting);
      if ok {
        ghost var w := world;
        ok := SetMessage(weather, "Deleting Instance");
        SteadyIsTransitive(old(world), w, world);
      }
    }

    /** The second half of reconcileDeletion: storage, then the finalizer. */
    method FinishDeletion(weather: Weather) returns (r: Result)
      requires Working() && Matches(world, instance) && instance.deleting
      requires Backs(instance) ==> DeletionMayFinish(world)
      modifies this
      ensures Valid() && Went(weather)
      ensures r == Done ==> world.gone
      ensures world.gone ==> StorageReleased(world, old(instance).spec)
      ensures NoBackup(old(world), world)
      ensures Undisturbed(weather) ==>
        world.gone && PartsOf(world) == ReleaseStep(PartsOf(old(world)), old(instance).spec)
    {
      ghost var w := world;
      var ok := ReleasePrimaryAndShadowStorage(weather);
      if Backs(instance) {
        DeletionMayFinishIsSteady(w, world);
      }
      if !ok {
        return Fails;
      }
      r := LetGo(weather);
    }

    /** The message about it, and the finalizer's removal. */
    method LetGo(weather: Weather) returns (r: Result)
      requires Working() && Matches(world, instance) && instance.deleting
      requires Backs(instance) ==> DeletionMayFinish(world)
      modifies this
      ensures Valid() && Went(weather)
      ensures r == Done ==> world.gone
      ensures StorageReleased(old(world), old(instance).spec) ==> StorageReleased(world, old(instance).spec)
      ensures NoBackup(old(world), world)
      ensures Undisturbed(weather) ==> world.gone && PartsOf(world) == PartsOf(old(world))
    {
      var ok := SetMessage(weather, "Removing finalizer");
      SteadyReleases(old(world), world);
      if Backs(instance) {
        DeletionMayFinishIsSteady(old(world), world);
      }
      if !ok {
        return Fails;
      }
      ghost var before;
      ok, before := RemoveFinalizer(weather);
      r := if ok then Done else Fails;
    }

    /** reconcileDeletion. */
    method ReconcileDeletion(weather: Weather) returns (r: Result)
      requires Working() && Matches(world, instance) && instance.deleting
      modifies this
      ensures Valid() && Went(weather)
      ensures r == Done ==> world.gone
      ensures world.gone ==> StorageReleased(world, old(instance).spec)
      ensures !(old(instance).spec.backupVolume && old(instance).spec.backupOnDelete) ==>
        world.sts == old(world).sts && (old(world).backupPod.None? ==> world.backupPod.None?)
      ensures Undisturbed(weather) ==>
        (PartsOf(world), world.gone) == DeletionStep(PartsOf(old(world)), old(instance).spec)
      ensures Undisturbed(weather) && !(old(instance).spec.backupVolume && old(instance).spec.backupOnDelete) ==>
        && world.gone && (world.primary.Absent? || world.primary.terminating)
        && world.backupPod == old(world).backupPod && world.backups == old(world).backups
    {
      var ok := AnnounceDeletion(weather);
      if !ok {
        return Fails;
      }
      r := BackupForDeletion(weather);
      if r == Done {
        r := FinishDeletion(weather);
      }
    }

    // ---- Reconcile ----

    /**
     * setProgress and setError: one more update of the status as it stands in
     * the copy, including anything an update before it failed to write.
     */
    method ReportResult(weather: Weather, message: string, error: string)
      requires Working()
      modifies this
      ensures Working() && Went(weather)
      ensures Undisturbed(weather) ==>
        PartsOf(world) == PartsOf(old(world)) && SamePhase(old(world), world)
      ensures Undisturbed(weather) ==>
        world.instance.status.report == old(world).instance.status.report.(message := message, error := error)
      ensures weather != Any && old(MayBegin(world)) ==> Prospers(world)
    {
      var report := instance.status.report.(message := message, error := error);
      if instance.status.report != report {
        ReportIsFree(world, instance, report);
        instance := instance.(status := instance.status.(report := report));
        var _, _ := UpdateStatus(weather);
      }
    }

    /** Adding the finalizer, unless it is there: ok is whether the reconcile goes on. */
    method EnsureFinalizer(weather: Weather) returns (ok: bool)
      requires Valid() && !world.gone && instance == world.instance
      modifies this
      ensures Valid() && Went(weather)
      ensures ok ==> Working() && Matches(world, instance) && instance.deleting == old(instance).deleting
      ensures old(instance).finalizer ==> ok && Unchanged()
      ensures weather == Calm ==>
        && ok && Synced() && world.instance.finalizer && world.instance.spec == old(world).instance.spec
        && PartsOf(world) == PartsOf(old(world))
    {
      if instance.finalizer {
        FreshCopyIsRecorded(trace, since, world);
        return true;
      }
      Interleave(weather);
      var applied: bool, reported: bool := *, *;
      if weather == Calm {
        applied, reported := true, true;
      }
      ok := applied && reported && world.instance.rv == instance.rv;
      if applied && world.instance.rv == instance.rv {
        FinalizerAddedIsRecorded(trace, since, world);
        Become(FinalizerAdded(world));
        if ok {
          instance := world.instance;
        }
      }
    }

    /** How Reconcile reports what came of reconcileInstance, unless it is killed before. */
    method Report(weather: Weather, r: Result)
      requires Working()
      modifies this
      ensures Working() && Went(weather)
      ensures Undisturbed(weather) ==>
        && (world.instance.status.report.error == "" <==> r != Fails)
        && world.instance.status.report.message ==
             (match r
              case Waits => "waiting"
              case Fails => "failed"
              case Done => if old(instance).status.report.available then "ready" else "starting")
      ensures Undisturbed(weather) ==>
        PartsOf(world) == PartsOf(old(world)) && SamePhase(old(world), world)
      ensures weather != Any && old(MayBegin(world)) ==> Prospers(world)
    {
      var killed: bool := *;
      if killed && weather != Calm {
        return;
      }
      match r
      case Waits => ReportResult(weather, "waiting", "");
      case Fails => ReportResult(weather, "failed", "failed");
      case Done => ReportResult(weather, if instance.status.report.available then "ready" else "starting", "");
    }

    /** Reconcile for an Instance that is not being deleted; it may be killed before it reports. */
    method ReconcileLive(weather: Weather) returns (r: Result)
      requires Valid() && !world.gone && instance == world.instance && !instance.deleting
      modifies this
      ensures Valid() && Went(weather)
      ensures weather == Calm && CanReconcile(PartsOf(old(world)), old(instance).spec) ==>
        ReconciledTo(PartsOf(old(world)), old(instance).spec, world)
      ensures Beginning(weather) && old(instance).finalizer ==> Prospers(world)
    {
      var ok := EnsureFinalizer(weather);
      if !ok {
        return Fails;
      }
      r := ReconcileInstance(weather);
      ghost var n, before := |trace| - 1, world;
      Report(weather, r);
      ReportedStill(PartsOf(old(world)), old(instance).spec, before, world);
      if weather != Any && Sound(before) {
        SoundSince(trace, since, world, n, before);
      }
    }

    /** Reconcile. */
    method Reconcile(weather: Weather) returns (r: Result)
      requires Valid()
      modifies this
      ensures Valid() && Went(weather)
      ensures weather == Calm && MayReconcile(old(world)) ==>
        ReconciledTo(PartsOf(old(world)), old(world).instance.spec, world)
      ensures weather == Calm && !old(world).gone && old(world).instance.deleting && old(world).instance.finalizer ==>
        (PartsOf(world), world.gone) == DeletionStep(PartsOf(old(world)), old(world).instance.spec)
      ensures weather != Any && old(world).instance.deleting
              && !(old(world).instance.spec.backupVolume && old(world).instance.spec.backupOnDelete) ==>
        world.sts == old(world).sts && (old(world).backupPod.None? ==> world.backupPod.None?)
      ensures weather == Calm && !old(world).gone && old(world).instance.deleting && old(world).instance.finalizer
              && !(old(world).instance.spec.backupVolume && old(world).instance.spec.backupOnDelete) ==>
        && world.gone && (world.primary.Absent? || world.primary.terminating)
        && world.sts == old(world).sts && world.backupPod == old(world).backupPod && world.backups == old(world).backups
      ensures weather != Any && old(MayBegin(world)) ==> Prospers(world)
    {
      Interleave(weather);
      CallProspers(weather, old(trace), old(since), old(world));
      if world.gone {
        return Done;
      }
      instance := world.instance;
      if !instance.deleting {
        RecordedFinalizer(trace, since, world);
        r := ReconcileLive(weather);
        return;
      }
      if !instance.finalizer {
        return Done;
      }
      FreshCopyIsRecorded(trace, since, world);
      r := ReconcileDeletion(weather);
    }

    /**
     * A reconcile whose copy of the status is out of date: it still says
     * Releasing although the upgrade has moved on to Restoring.
     */
    method ReconcileLagging(weather: Weather, status: Status, rv: nat) returns (r: Result)
      requires Valid() && !world.gone && world.instance.finalizer && !world.instance.deleting
      requires Lags(world, world.instance.(status := status, rv := rv)) && StatusOk(status)
      modifies this
      ensures Valid() && Went(weather) && r != Done
    {
      FreshCopyIsRecorded(trace, since, world);
      instance := world.instance.(status := status, rv := rv);
      var ok := Read(weather);
      if !ok {
        return Fails;
      }
      var handled;
      handled, r := ReconcileMajorUpgrade(weather);
      ReportResult(weather, "failed", "failed");
    }

    /** One reconcile, on a copy that may lag. */
    method OperateOnce(weather: Weather)
      requires Valid()
      modifies this
      ensures Valid() && Went(weather)
      ensures weather != Any && old(MayBegin(world)) ==> Prospers(world)
    {
      var status, rv := world.instance.status, world.instance.rv;
      if AtStage(status, Restoring) && 0 < rv && !world.gone
         && world.instance.finalizer && !world.instance.deleting {
        var lagging: bool := *;
        if lagging {
          LaggingStatusOk(trace, since, world);
          var _ := ReconcileLagging(weather,
            status.(databases := [], databaseCount := 0, upgrade := WithStage(status.upgrade.value, Releasing)),
            rv - 1);
          return;
        }
      }
      var _ := Reconcile(weather);
    }

    /** Any number of reconciles, one after another. */
    method Operate(rounds: nat, weather: Weather)
      requires Valid()
      modifies this
      ensures Valid() && Went(weather)
    {
      for k := 0 to rounds
        invariant Valid() && Went(weather)
      {
        OperateOnce(weather);
      }
    }
  }
}
