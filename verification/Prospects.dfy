/**
 * What an upgrade needs to get through, and that it keeps it: through
 * everything but the user's own doing, from before it begins until it is done.
 */
module Prospects {
  import opened Cluster
  import opened Sequences
  import opened Safety
  import opened Steps
  import opened Runs

  /** The archive of a database, if any, can be restored by a server of this major version. */
  predicate Usable(b: Backups, db: string, major: int) {
    db in b.base ==> b.base[db].Complete? && b.base[db].major <= major
  }

  predicate AllUsable(b: Backups, databases: seq<string>, major: int) {
    forall k :: 0 <= k < |databases| ==> Usable(b, databases[k], major)
  }

  predicate UsableBut(b: Backups, databases: seq<string>, listed: seq<string>, major: int) {
    forall k :: 0 <= k < |databases| ==> databases[k] in listed || Usable(b, databases[k], major)
  }

  predicate OnPrimaryUpTo(primary: Primary, databases: seq<string>, n: nat)
    requires n <= |databases|
  {
    forall k :: 0 <= k < n ==> OnPrimary(primary, databases[k])
  }

  /**
   * What a backup needs to get through: its volume, the databases on primary
   * storage, and, for any others in spec, archives that can be restored.
   */
  predicate CanBackUp(w: World) {
    && w.backupClaim
    && OnPrimaryUpTo(w.primary, w.instance.status.databases, |w.instance.status.databases|)
    && UsableBut(w.backups, w.instance.spec.databases, w.instance.status.databases, w.instance.spec.version.major)
  }

  /** An Instance in use, with a backup volume, whose server has been set up once. */
  predicate InUseAndBackedUp(w: World) {
    !w.gone && !w.instance.deleting && w.sts.Some? && w.instance.spec.backupVolume && w.history.users.Some?
  }

  /** An upgrade still to begin, which then can get through. */
  predicate MayBegin(w: World) {
    && InUseAndBackedUp(w)
    && w.instance.status.upgrade.None? && w.sts.value.version.major < w.instance.spec.version.major
    && CanBackUp(w)
  }

  /** An upgrade that can get through, or has: the user leaves spec.version alone and what is needed is there. */
  predicate Sound(w: World) {
    && InUseAndBackedUp(w)
    && match w.instance.status.upgrade
       case None =>
         && w.sts.value.version.major == w.instance.spec.version.major
         && AllUsable(w.backups, w.instance.spec.databases, w.instance.spec.version.major)
       case Some(u) =>
         && u.toVersion == w.instance.spec.version
         && if u.stage == BackingUp then CanBackUp(w)
            else AllUsable(w.backups, w.instance.spec.databases, w.instance.spec.version.major)
  }

  predicate Prospers(w: World) {
    MayBegin(w) || Sound(w)
  }

  lemma OneMoreOnPrimary(primary: Primary, primary': Primary, databases: seq<string>, k: nat)
    requires k < |databases| && OnPrimaryUpTo(primary, databases, k)
    requires OnPrimary(primary', databases[k]) && forall db :: OnPrimary(primary, db) ==> OnPrimary(primary', db)
    ensures OnPrimaryUpTo(primary', databases, k + 1)
  {
  }

  // ---- Archives ----

  lemma UsableOnceArchived(b: Backups, h: History, databases: seq<string>, from: int, major: int)
    requires UsableBut(b, databases, h.listed, major) && FullyArchived(b, h, h.listed, from) && from <= major
    ensures AllUsable(b, databases, major)
  {
    forall k | 0 <= k < |databases| ensures Usable(b, databases[k], major) {
      if databases[k] in h.listed {
        var j :| 0 <= j < |h.listed| && h.listed[j] == databases[k];
      }
    }
  }

  lemma UsableStays(w: World, w': World, databases: seq<string>, major: int)
    requires ArchivesForward(w.backups, w'.backups, w.backupPod) && w.backupPod.None?
    ensures AllUsable(w.backups, databases, major) ==> AllUsable(w'.backups, databases, major)
  {
    if AllUsable(w.backups, databases, major) {
      forall k | 0 <= k < |databases| ensures Usable(w'.backups, databases[k], major) {
        assert Usable(w.backups, databases[k], major);
      }
    }
  }

  lemma UsableButStays(w: World, w': World, databases: seq<string>, listed: seq<string>, major: int)
    requires ArchivesForward(w.backups, w'.backups, w.backupPod)
    requires w.backupPod.Some? ==> w.backupPod.value.databases == listed
    requires UsableBut(w.backups, databases, listed, major)
    ensures UsableBut(w'.backups, databases, listed, major)
  {
  }

  lemma AllUsableAmong(b: Backups, databases: seq<string>, some: seq<string>, major: int)
    requires AllUsable(b, databases, major) && forall db :: db in some ==> db in databases
    ensures AllUsable(b, some, major)
  {
    forall k | 0 <= k < |some| ensures Usable(b, some[k], major) {
      assert some[k] in databases;
    }
  }

  // ---- Once it has begun ----

  /** Whatever happens without the user, an upgrade that can get through still can. */
  lemma SoundStays(w: World, w': World)
    requires Inv(w) && Inv(w') && Forward(w, w') && SameSpec(w, w') && Sound(w)
    ensures Sound(w')
  {
    var spec, status, status' := w.instance.spec, w.instance.status, w'.instance.status;
    if AtStage(status, BackingUp) {
      UsableButStays(w, w', spec.databases, status.databases, spec.version.major);
      if AtStage(status', Releasing) {
        UsableOnceArchived(w'.backups, w'.history, spec.databases, status'.upgrade.value.fromVersion.major, spec.version.major);
      }
    } else {
      UsableStays(w, w', spec.databases, spec.version.major);
    }
  }

  lemma SoundNext(trace: seq<World>, k: nat)
    requires Run(trace) && k + 1 < |trace| && Sound(trace[k]) && SameSpec(trace[k], trace[k + 1])
    ensures Sound(trace[k + 1])
  {
    AtState(trace, k);
    SoundStays(trace[k], trace[k + 1]);
  }

  lemma {:induction false} SoundAlong(trace: seq<World>, a: nat, b: nat)
    requires Run(trace) && a <= b < |trace| && Sound(trace[a])
    requires forall k :: a <= k <= b ==> SameSpec(trace[a], trace[k])
    ensures Sound(trace[b])
    decreases b - a
  {
    if a < b {
      assert SameSpec(trace[a], trace[a + 1]);
      SoundNext(trace, a);
      SoundAlong(trace, a + 1, b);
    }
  }

  /** The recorded run from its a-th state on, without the user. */
  lemma SoundSince(trace: seq<World>, since: nat, w: World, a: nat, before: World)
    requires Recorded(trace, since, w) && since <= a < |trace| && trace[a] == before && Sound(before)
    ensures Sound(w)
  {
    RecordedIsARun(trace, since, w);
    forall k | a <= k < |trace| ensures SameSpec(trace[a], trace[k]) {
      assert SameSpec(trace[since], trace[k]) && SameSpec(trace[since], trace[a]);
    }
    SoundAlong(trace, a, |trace| - 1);
  }

  // ---- Until it has begun ----

  /** What happens between the operator's calls leaves an upgrade free to begin, ... */
  lemma MayBeginDrifts(trace: seq<World>, a: nat, w: World, w': World)
    requires Recorded(trace, a, w) && Drift(w, w') && SameSpec(w, w') && MayBegin(w)
    ensures MayBegin(w')
  {
    RecordedState(trace, a, w);
  }

  /** ... and so does any status update the operator may make, unless it begins the upgrade. */
  lemma StatusProspers(trace: seq<World>, a: nat, w: World, status: Status)
    requires Recorded(trace, a, w) && Allowed(w, status) && MayBegin(w)
    ensures Prospers(StatusWritten(w, status))
    ensures status.upgrade.Some? ==> Sound(StatusWritten(w, status))
  {
    RecordedState(trace, a, w);
    var w' := StatusWritten(w, status);
    if status.upgrade.None? {
      forall k | 0 <= k < |status.databases| ensures OnPrimary(w'.primary, status.databases[k]) {
        if status.databases[k] in w.instance.status.databases {
          var j :| 0 <= j < |w.instance.status.databases| && w.instance.status.databases[j] == status.databases[k];
        }
      }
      if DatabasesSettle(w, status) {
        forall k | 0 <= k < |w.instance.spec.databases| ensures w.instance.spec.databases[k] in status.databases {
          assert w.instance.spec.databases[k] in Elements(w.instance.spec.databases);
          assert w.instance.spec.databases[k] in Elements(status.databases);
        }
      }
    }
  }

  lemma {:induction false} UsersStay(trace: seq<World>, a: nat, b: nat)
    requires Run(trace) && a <= b < |trace| && trace[a].history.users.Some?
    ensures trace[b].history.users.Some?
    decreases b - a
  {
    if a < b {
      AtState(trace, a);
      UsersStay(trace, a + 1, b);
    }
  }

  // ---- What it cannot do without ----

  /**
   * reconcileMajorUpgrade comes before reconcilePVCs: an upgrade that begins
   * before the backup volume's claim exists never gets past BackingUp,
   * whatever the user does.
   */
  lemma {:induction false} UpgradeWaitsForBackupClaim(trace: seq<World>, a: nat, b: nat)
    requires Run(trace) && a <= b < |trace|
    requires AtStage(trace[a].instance.status, BackingUp) && !trace[a].backupClaim
    ensures AtStage(trace[b].instance.status, BackingUp) && !trace[b].backupClaim
    decreases b - a
  {
    if a < b {
      AtState(trace, a);
      UpgradeWaitsForBackupClaim(trace, a + 1, b);
    }
  }
}
