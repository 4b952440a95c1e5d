/**
 * What a deletion does not save: once an upgrade has started the new version,
 * deleting the Instance takes no backup, and what was committed since the
 * upgrade's own is lost.
 */
module Losses {
  import opened Wrappers
  import opened Cluster
  import opened Safety
  import opened Steps
  import opened Runs
  import opened Records
  import opened Quiet
  import opened Operator

  /** An upgrade is restoring and its new version is up, with the database on primary storage. */
  predicate IsUpOnNewVersion(w: World, db: string) {
    && !w.gone && !w.instance.deleting && AtStage(w.instance.status, Restoring)
    && w.sts.Some? && ServerUp(w) && OnPrimary(w.primary, db)
  }

  /** In that state a new version has been started, so that DeletionLeavesABackup says nothing of what was last committed. */
  lemma UpMeansNewVersionStarted(w: World, db: string)
    requires Inv(w) && IsUpOnNewVersion(w, db)
    ensures NewVersionStarted(w)
  {
  }

  /** What a client commits is then what counts as committed. */
  lemma CommitCounts(w: World, db: string, content: nat)
    requires Inv(w) && IsUpOnNewVersion(w, db)
    ensures var w' := Happens(w, ClientCommits(db, content));
      && IsUpOnNewVersion(w', db) && w'.instance == w.instance && w'.primary.files[db].content == content
      && db in w'.history.committed && w'.history.committed[db] == content
      && w'.backups == w.backups
  {
  }

  /**
   * So NewVersionStarted is where DeletionLeavesABackup has to stop: from every
   * such state, and for whatever content, there is a run in which that is what
   * was last committed when the Instance is gone, and the backup volume is as it
   * was before.
   */
  lemma DeletionForgetsCommits(w: World, db: string, content: nat) returns (trace: seq<World>)
    requires Inv(w) && IsUpOnNewVersion(w, db)
    ensures Run(trace) && |trace| == 5 && trace[0] == w
    ensures var end := trace[4];
      && end.gone && end.instance.spec == w.instance.spec && NewVersionStarted(end) && Released(end.primary)
      && db in end.history.committed && end.history.committed[db] == content
      && end.backups == w.backups
  {
    CommitCounts(w, db, content);
    var w1 := Happens(w, ClientCommits(db, content));
    HappensKeeps(w, ClientCommits(db, content));
    var w2, w3, w4 := DeletionForgets(w1, db);
    trace := [w, w1, w2, w3, w4];
    FiveAreARun(w, w1, w2, w3, w4);
  }

  lemma DeletionForgets(w: World, db: string) returns (w1: World, w2: World, end: World)
    requires Inv(w) && IsUpOnNewVersion(w, db)
    ensures Inv(w1) && Forward(w, w1) && Inv(w2) && Forward(w1, w2) && Inv(end) && Forward(w2, end)
    ensures end.gone && end.instance.spec == w.instance.spec && NewVersionStarted(end) && Released(end.primary)
    ensures end.history.committed == w.history.committed && end.backups == w.backups
  {
    UpMeansNewVersionStarted(w, db);
    RecordedOnlyWithFinalizer(w);
    w1 := Deleted(w);
    DeletedKeeps(w);
    w2 := PrimaryDeleted(w1);
    DeletingGoesOn(w1);
    end := FinalizerRemoved(w2);
  }

  lemma RecordedOnlyWithFinalizer(w: World)
    requires Inv(w) && !w.gone && w.sts.Some?
    ensures w.instance.finalizer
  {
  }

  lemma DeletingGoesOn(w: World)
    requires Inv(w) && !w.gone && w.instance.deleting && PastBackingUp(w.instance.status)
    ensures var w' := PrimaryDeleted(w); var w'' := FinalizerRemoved(w');
      Inv(w') && Forward(w, w') && Inv(w'') && Forward(w', w'')
  {
    PrimaryDeletedKeeps(w);
    FinishedDeletionIsSafe(PrimaryDeleted(w));
    FinalizerRemovedKeeps(PrimaryDeleted(w));
  }

  lemma FiveAreARun(w: World, w1: World, w2: World, w3: World, w4: World)
    requires Inv(w) && Inv(w1) && Inv(w2) && Inv(w3) && Inv(w4)
    requires Forward(w, w1) && Forward(w1, w2) && Forward(w2, w3) && Forward(w3, w4)
    ensures Run([w, w1, w2, w3, w4])
  {
    var trace := [w, w1, w2, w3, w4];
    assert RunUpTo(trace, 0);
    assert RunUpTo(trace, 1);
    assert RunUpTo(trace, 2);
    assert RunUpTo(trace, 3);
    assert RunUpTo(trace, 4);
  }

  /**
   * And that is what the reconciler does: a client commits, the user deletes the
   * Instance, and one undisturbed reconcile later it is gone with its storage
   * released, while the backup volume is as it was before the commit, whether
   * the spec asks for a backup on deletion or not.
   */
  method CommitAndDelete(r: Reconciler, db: string, content: nat) returns (ghost committed: nat)
    requires r.Valid() && IsUpOnNewVersion(r.world, db)
    modifies r
    ensures r.Valid() && committed < |r.trace|
    ensures r.trace[committed] == Happens(old(r.world), ClientCommits(db, content))
    ensures r.world.gone && Released(r.world.primary) && r.world.backups == old(r.world.backups)
    ensures r.world.instance.spec == old(r.world.instance.spec)
  {
    RecordedState(r.trace, r.since, r.world);
    CommitCounts(r.world, db, content);
    r.Occur(Any, ClientCommits(db, content));
    committed := |r.trace| - 1;
    DeleteNow(r, db);
  }

  /** The deletion, from such a state. */
  method DeleteNow(r: Reconciler, db: string)
    requires r.Valid() && IsUpOnNewVersion(r.world, db)
    modifies r
    ensures r.Valid() && old(r.trace) <= r.trace
    ensures r.world.gone && Released(r.world.primary) && r.world.backups == old(r.world.backups)
    ensures r.world.instance.spec == old(r.world.instance.spec)
  {
    RecordedFinalizer(r.trace, r.since, r.world);
    r.Occur(Any, UserDeletes);
    ghost var p := PartsOf(r.world);
    assert HasStage(p, Restoring);
    var _ := r.Reconcile(Calm);
    assert PartsOf(r.world) == ReleaseStep(p, old(r.world.instance.spec));
  }
}
