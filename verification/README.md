# Verification model of the Kubebird operator

Kubebird runs Firebird servers on Kubernetes. Its controller and the shell
scripts it renders delete data only after something else is known to hold it.
This project models the parts where that can go wrong and proves that it does
not. `dafny verify dfyconfig.toml` checks everything.

**The operator** (`Cluster`, `Safety`, `Steps`, `Runs`, `Records`, `Operator`). The
cluster is one value: the Instance with its resourceVersion, the StatefulSet,
the server and backup Pods, the primary and shadow claims with the files on
them, the `base` directory of the backup volume, and, for the claims only, what
clients last committed and what was there when the server was last stopped.
`Operator.Reconciler` is the controller as a class, call by call and in the
source's order: its own copy of the Instance, updates refused on an outdated
copy, early returns. Between any two calls any event may happen any number of
times, every call may fail or take effect with its answer lost, and the operator
may be killed. `Safety.Inv` holds in every state, `Safety.Forward` between any
two, and `Runs` says what that means for whole runs; `Losses` is what it leaves
open.

**Termination** (`Quiet`, `Prospects`, `Progress`, `Deletions`). `Quiet` is a whole reconcile that nothing
disturbs, as a pure function; `Operator` proves the class does exactly that (its
`Weather` says what a call has to reckon with, from anything to nothing).
`Prospects` says what an upgrade needs to get through and that it keeps it;
`Progress` derives that it finishes, and `Deletions` which deletions do.

**Database sets** (`Databases`, the plan `Operator` proves it follows), **the
init container** (`SecurityInit`), **incremental backups** (`Pools`,
`PoolChoice`, `PoolSafety`, `PoolLimits`, `PoolHistory`), **timestamp claims** (`Claims`), **scheduled
backups and pruning** (`Timestamps`, `ScheduledBackups`), **retention**
(`Retention`), **names** (`Text`, `Names`, `Orphans`).

Where the code does less than one might expect, each with a lemma:

- A database dropped by a reconcile that is killed before recording it, and put
  back into spec before the next one, is listed but has no file and is never
  created again (`Databases.ReaddedAfterCrashIsNotProvided`; exactly when:
  `Databases.ProvidedExactlyWhen`).
- reconcileMajorUpgrade comes before reconcileDatabases: a database that a
  reconcile created but was killed before recording is not backed up by an
  upgrade that begins then, and goes with the released storage
  (`Runs.UnlistedIsLost`).
- Once an upgrade is past BackingUp, deleting the Instance takes no backup, although
  the new version may have been up for a while: what was committed since is lost,
  and databases added since have no archive at all (`Losses.DeletionForgetsCommits`;
  without the new version nothing is, `Runs.DeletionLeavesABackup`).
- Nothing records that a deletion has taken its backup. Cut between releasing
  primary storage and removing the finalizer, it creates another backup Pod,
  which no storage lets start, and waits for ever (`Deletions.CutDeletionWaits`,
  `Deletions.WaitForEver`); setting backupOnDelete to false helps.
- The init container copies the image's default security database straight to
  its final name. Stopped halfway, the broken copy is taken for a finished one
  from then on (`SecurityInit.HalfACopyStays`). The migration branch avoids this.
- A "test -f" that is killed counts as "no file". For a database this is harmless;
  for its archive it is not: an empty database takes the place of the one to
  restore (`Runs.UntrueAnswerLosesTheDatabase`, with the exact condition).
- reconcileMajorUpgrade comes before reconcilePVCs: an upgrade that begins before
  the backup volume's claim exists waits for ever
  (`Prospects.UpgradeWaitsForBackupClaim`).
- A pool removal cut after the level 0 leaves level 1 files that cannot be
  restored, in the oldest pool and until a later run succeeds
  (`PoolLimits.CutRemovalLeavesAnOrphan`).
- The globs do not match names with a leading dot, which the API lets databases
  have. Their backups never expire, against the comment at
  internal/controller/instance_backup_schedule.go:648-659
  (`ScheduledBackups.PruningIsExact`); two runs within one second write the same
  file, against the one at lines 616-628 (`Claims.CollidesExactlyWhenHidden`), so
  that, if the server's nbackup writes into an existing file, a failing run takes
  away a successful one's backup (`PoolLimits.LosesBackupExactlyWhenHidden`);
  and they are never reported as orphaned (`Orphans.ReportedExactly`).
- A run longer than its retention deletes its own backups
  (`ScheduledBackups.OwnBackupsSurvive`).

## Model

| member | source | states |
|---|---|---|
| `Runs.NoCommittedDataIsLost` | internal/controller/instance_upgrade.go:101-155 | In every run, from the update that first lists a database, or that begins an upgrade listing it while it is there, until the user takes it out of spec or deletes the Instance, what clients last committed to it is on primary storage or, during an upgrade past BackingUp that lacks the file, complete in base/ and readable by the new version; without such an upgrade it is on primary storage and listed; only a server that is up changes it |
| `Runs.UnlistedIsLost` | internal/controller/instance_upgrade.go:126-148 | Being listed is what it takes: in every run, of a database that status does not list when an upgrade begins no file is left once the upgrade gets to Restoring, and its archive, if any, is the one from before |
| `Runs.UnlistedIsNotArchived` | internal/controller/instance_provision.go:661-673 | While an upgrade runs no archive of such a database is written |
| `Runs.KeptIsPreserved` | internal/controller/instance_provision.go:138-197 | The same in one state: a database that must not be lost has its committed content on primary storage or in a restorable archive |
| `Runs.KeptOnceListed` | internal/controller/instance_provision.go:182-197 | Recording a database that spec names, or beginning an upgrade that lists it while it is there, makes it one that must not be lost |
| `Runs.KeptWhileWanted` | internal/controller/instance_provision.go:93-109 | A database stays among those that must not be lost for as long as spec names it and the Instance lives |
| `Runs.StagesOnlyMoveForward` | internal/controller/instance_upgrade.go:134-151 | While an upgrade is recorded its from and to versions are fixed and its stage never goes back |
| `Runs.MajorNeverGoesDown` | internal/controller/instance_upgrade.go:195-204 | The StatefulSet never moves to an older major version, over whole runs |
| `Runs.MajorOnlyMovesOntoEmptyStorage` | internal/controller/instance_upgrade.go:139-155 | Its major version only changes in stage Restoring, with no server pod and nothing left on primary storage |
| `Runs.EnginesOpenTheirOwnFiles` | internal/controller/instance_provision.go:643-673 | Every server, and every backup Pod of an Instance that is not being deleted, only meets files of its own major version, and what a restoring server has to restore is complete and of an older one |
| `Runs.RestoredStorageIsNotReleased` | internal/controller/instance_upgrade.go:139-144 | Primary storage with anything restored onto it is not released by the upgrade, outdated copies of the Instance included |
| `Runs.StorageIsNotReleasedOtherwise` | internal/controller/instance_controller.go:408-421 | Without a deletion or an upgrade past BackingUp no primary storage is ever released |
| `Runs.ReadyMeansNoUpgrade` | internal/controller/instance_controller.go:214-231 | A stored phase Ready excludes an upgrade record; status.databases has no duplicates and databaseCount is its size as a set |
| `Runs.DeletionLeavesABackup` | internal/controller/instance_controller.go:255-298 | Once the finalizer is off an Instance that has a backup volume and wants a backup, every database it owes (listed, or listed when an upgrade past BackingUp began) and the security database are complete in base/ with what had been committed when the server was stopped for it; and that is what was last committed, unless an upgrade has moved the StatefulSet to the new version |
| `Losses.DeletionForgetsCommits` | internal/controller/instance_controller.go:266-286 | Where it has, and the new version is up: for every database on primary storage and every content there is a run that ends with the Instance gone, that content last committed, and the backup volume as it was before |
| `Losses.CommitAndDelete` | internal/controller/instance_controller.go:266-286 | The reconciler does that: one undisturbed reconcile after the commit and the deletion the Instance is gone, its storage released, the backup volume unchanged |
| `Runs.UntrueAnswerLosesTheDatabase` | internal/controller/instance_provision.go:573-585 | Where a killed "test" says a missing database has no archive, creating it anew loses it exactly unless it was empty |
| `Runs.SavedAtTheStop` | internal/controller/instance_controller.go:365-398 | What counts as saved is what had been committed at a moment the server was stopped, and changes at no other |
| `Runs.UsersSurvive` | internal/controller/instance_provision.go:417-460 | In every state of every run without deletion the users besides SYSDBA are in the security database in place, or a fresh one of the new version is seeded with exactly them; only a running server changes them |
| `Runs.FreshInstancesAreSafe` | internal/controller/instance_controller.go:126-147 | A new Instance, whatever archives an earlier one of its name left, satisfies the invariant runs start from |
| `Runs.RecordedIsARun` | internal/controller/instance_controller.go:126-160 | What the reconciler records as it works is a run in the sense of the theorems above |
| `Safety.HappensKeeps` | internal/controller/instance_controller.go:343-398 | The invariant and the permitted steps hold through everything that happens without the operator: edits, deletion, commits, servers and backup Pods starting, stopping and failing at any archive, claims going away |
| `Safety.UpgradeSeedsTheUsers` | internal/controller/instance_provision.go:420-445 | On storage an upgrade made fresh, the archive the init container picks is the one the upgrade just took |
| `Safety.HappensDrifts` | internal/controller/instance_upgrade.go:114-118 | What such events leave alone while a reconcile is under way: the StatefulSet, a finished backup, stopped servers, files on storage in use |
| `Steps.StatusWrittenKeeps` | internal/controller/instance_upgrade.go:184-218 | Every status update the operator may make keeps the invariant: starting an upgrade, each change of stage, recording databases, ending it |
| `Steps.BackupEndsKeeps` | internal/controller/instance_upgrade.go:126-137 | The list of databases may be cleared only because all of them and the security database are archived as of the stop |
| `Steps.ReleaseEndsKeeps` | internal/controller/instance_upgrade.go:139-148 | Restoring may only be recorded once the old primary storage is gone |
| `Steps.UpgradeEndsKeeps` | internal/controller/instance_upgrade.go:227-237 | status.upgrade may be cleared only with all databases recorded on the new version |
| `Steps.StatefulSetAppliedKeeps` | internal/controller/instance_resources.go:394-430 | Moving the StatefulSet to spec.version keeps the invariant the first time, within a major version, and while restoring |
| `Steps.PrimaryDeletedKeeps` | internal/controller/instance_resources.go:246-257 | When deleting the primary claim loses nothing |
| `Steps.FileAddedKeeps` | internal/controller/instance_provision.go:160-180 | When creating or restoring a file changes nothing that was committed |
| `Steps.MissingIsInBackup` | internal/controller/instance_provision.go:591-617 | A database that must not be lost and is not on primary storage has an archive the running engine can restore, with exactly its committed content |
| `Steps.SucceededMeansBackedUp` | internal/controller/instance_provision.go:661-673 | A backup Pod that succeeded has archived every listed database and the security database |
| `Steps.LinkedSurvivesDrift` | internal/controller/instance_upgrade.go:184-190 | What a reconcile relies on of its copy of the Instance stays true whatever happens meanwhile; an update is then refused or permitted |
| `Records.EventIsRecorded` | internal/controller/instance_controller.go:343-398 | Everything that happens between two calls extends the recorded run and keeps the copy usable |
| `Records.StatusIsRecorded` | internal/controller/instance_upgrade.go:184-190 | So does every status update of an up-to-date copy, which begins an upgrade only where it can get through if it could before |
| `Records.DatabaseCreatedIsRecorded` | internal/controller/instance_provision.go:175-180 | Creating a database whose file is missing and that has no archive loses nothing |
| `Records.DatabaseRestoredIsRecorded` | internal/controller/instance_provision.go:591-617 | Restoring one gives back exactly what was committed |
| `Records.StatefulSetAppliedIsRecorded` | internal/controller/instance_controller.go:194-200 | Past reconcileMajorUpgrade the StatefulSet may be moved to spec.version |
| `Records.SettlingIsAllowed` | internal/controller/instance_provision.go:182-197 | What reconcileDatabases records is permitted and equals spec.databases as a set |
| `Steps.FinishedDeletionIsSafe` | internal/controller/instance_controller.go:270-298 | When the finalizer may go, everything deletion must keep is in the backup, and what was saved is what is committed unless an upgrade past BackingUp had saved it |
| `Operator.Reconciler.Operate` | internal/controller/instance_controller.go:126-160 | Any number of reconciles, with any events between any two calls, calls failing, answers lost, the operator killed, and copies that still say Releasing, only ever go through permitted steps |
| `Operator.Reconciler.OperateOnce` | internal/controller/instance_controller.go:126-160 | Without the user any one of them leaves an upgrade that may begin so, or begun and able to get through |
| `Operator.Reconciler.Reconcile` | internal/controller/instance_controller.go:126-160 | One reconcile keeps to the run; undisturbed it does exactly what Quiet.ReconciledTo says, new Instances and their finalizer included, and for a deletion what Quiet.DeletionStep says; one of a deletion that is not to take a backup leaves the StatefulSet alone and starts no backup Pod, disturbed or not by anything but the user, and undisturbed leaves the Instance gone and primary storage released; without the user it leaves an upgrade that may begin so, or begun and able to get through |
| `Operator.Reconciler.ReconcileLagging` | internal/controller/instance_upgrade.go:139-144 | A reconcile in Restoring on a copy that still says Releasing keeps to the run and never gets past the upgrade |
| `Operator.Reconciler.ReconcileLive` | internal/controller/instance_controller.go:137-160 | Adding the finalizer first; reporting rewrites what an earlier update failed to write, and still keeps to the run |
| `Operator.Reconciler.ReconcileInstance` | internal/controller/instance_controller.go:169-233 | If it ends Ready, there is no upgrade, the StatefulSet runs spec.version and status.databases equals spec.databases as a set, databaseCount being its size; undisturbed it does what Quiet.ReconciledTo says |
| `Operator.Reconciler.ReconcileReady` | internal/controller/instance_controller.go:205-212 | The scheduled backups and the version check between the databases and the Ready test: any of their calls may fail, and the version is recorded in an update that changes nothing else |
| `Operator.Reconciler.ReconcileFirebirdVersion` | internal/controller/instance_version.go:100-140 | Asks, labels, and records a version that is new; the server goes on serving |
| `Operator.Reconciler.Conclude` | internal/controller/instance_controller.go:214-233 | Ready exactly when the server is and the count test holds, which for status.databases within spec means the two are equal as sets; otherwise Upgrading or Provisioning, and not available |
| `Operator.Reconciler.ReconcileDeletion` | internal/controller/instance_controller.go:255-298 | A deletion cut anywhere keeps to the run: no finalizer goes without the backup it owes, nor before both claims are released; Done means the Instance is gone; with no backup volume or backupOnDelete false, whatever happens meanwhile, the StatefulSet stays as it is and no backup Pod is started, and undisturbed the Instance is gone in this one pass; undisturbed it does exactly Quiet.DeletionStep |
| `Operator.Reconciler.BackupForDeletion` | internal/controller/instance_controller.go:270-286 | When it is done, a backup that was owed is complete or was taken by the upgrade; with no backup volume or backupOnDelete false it is done at once and makes no call |
| `Quiet.DeletionWithoutBackup` | internal/controller/instance_controller.go:266-298 | What an undisturbed reconcile of a deletion without a backup leaves, field by field: storage released, the rest as it was |
| `Quiet.DeletionWithBackup` | internal/controller/instance_controller.go:365-398 | And of one with: the server scaled down, then a backup Pod of the version and image the source picks (spec.backup.image only for spec.version), a failed one removed, and storage released once one has succeeded |
| `Deletions.CarryOutDeletion` | internal/controller/instance_controller.go:255-298 | A deletion that owes no backup, has just taken it, or has a backup Pod that can still take it (storage not released, the claim there, files its engine can open) ends with the Instance gone and storage released: the loop terminates, with any given number of failing backup Pods |
| `Deletions.WaitForEver` | internal/controller/instance_controller.go:270-286 | And with the server stopped only such a one does: otherwise it is not gone after any number of undisturbed reconciles and events, until the user edits spec |
| `Deletions.CutDeletionWaits` | internal/controller/instance_controller.go:288-298 | Every deletion that has released storage but not got its finalizer off after backing up is of the latter kind |
| `Deletions.WaivingTheBackupHelps` | internal/controller/instance_controller.go:275 | Setting backupOnDelete to false makes it one that can finish |
| `Operator.Reconciler.FinishDeletion` | internal/controller/instance_controller.go:288-298 | The Instance is only ever gone with its storage released, disturbed or not |
| `Operator.Reconciler.RemoveFinalizer` | internal/controller/instance_controller.go:291-298 | On an outdated copy the cluster stays as it was met; otherwise the finalizer goes or nothing does, and success means it went |
| `Operator.Reconciler.BackupDatabases` | internal/controller/instance_controller.go:365-398 | Done only with no server pod and a complete backup; undisturbed: exactly the next of stopping, creating the Pod, clearing a failed or finished one |
| `Operator.Reconciler.BackupDatabasesOffline` | internal/controller/instance_provision.go:704-734 | Done exactly when the Pod had succeeded, which is then gone; a failed Pod is deleted and reported, a running one waited for |
| `Operator.Reconciler.CreateBackupPod` | internal/controller/instance_provision.go:643-673 | The Pod that is waited for backs up the databases status lists, of the version asked for, with spec.backup.image if that is spec.version and it is set |
| `Operator.Reconciler.ReleaseStorageForUpgrade` | internal/controller/instance_upgrade.go:161-180 | Done exactly once both claims are gone, leaving a finished backup as it is |
| `Operator.Reconciler.ReleasePrimaryAndShadowStorage` | internal/controller/instance_controller.go:408-421 | Success means both claims are deleted, disturbed or not, and the shadow claim never goes before the primary one; status, StatefulSet and a finished backup are left alone |
| `Operator.Reconciler.ReconcileMajorUpgrade` | internal/controller/instance_upgrade.go:101-155 | Takes over unless nothing or only restoring is left to do; undisturbed it does exactly Quiet.UpgradeStep |
| `Operator.Reconciler.StartMajorUpgrade` | internal/controller/instance_upgrade.go:195-222 | Records an upgrade from the version that runs to spec.version and phase Upgrading, only to a newer major version with a backup volume; does nothing for the same one |
| `Operator.Reconciler.FinishBackingUp` | internal/controller/instance_upgrade.go:126-137 | Clears the list and records Releasing in one update, only after the backup |
| `Operator.Reconciler.FinishReleasing` | internal/controller/instance_upgrade.go:139-148 | Records Restoring only once the storage is gone; an outdated copy never does |
| `Operator.Reconciler.FinishMajorUpgrade` | internal/controller/instance_upgrade.go:227-237 | Clears the record in an update that changes nothing else |
| `Operator.Reconciler.ApplyStatefulSet` | internal/controller/instance_controller.go:194-200 | The StatefulSet then runs spec.version with one replica and the volumes spec asks for; ready means the server Pod is available, with its security database in place |
| `Operator.Reconciler.ReconcilePvcs` | internal/controller/instance_resources.go:180-243 | Missing claims are created, the primary one empty, existing ones (terminating too) left alone: undisturbed exactly Quiet.ClaimsStep; none is created that spec does not ask for |
| `Quiet.ProvisionsWhatIsMissing` | internal/controller/instance_resources.go:180-243 | The claims and the StatefulSet a reconcile leaves, field by field |
| `Operator.Reconciler.ReconcilePrimary` | internal/controller/instance_resources.go:206-243 | Disturbed or not, a primary claim that is in use is not given up |
| `Operator.Reconciler.ReconcileBackup` | internal/controller/instance_resources.go:184-188 | Success means the backup claim is there |
| `Operator.Reconciler.ReconcileDatabases` | internal/controller/instance_provision.go:78-197 | If it succeeds on a ready server, status.databases equals spec.databases as a set. With calls failing anywhere and nothing else moving, the files on primary storage are those of a prefix of Databases.Plan, of all of it on success |
| `Operator.Reconciler.ProvideDatabase` | internal/controller/instance_provision.go:145-180 | Success means the file is there, and no file that was there goes, even where the test for it answers wrongly; where nothing else moves the file then holds what it did, else what its archive does, else nothing; undisturbed it succeeds where there is no archive or a complete one of a version not newer than the server's |
| `Operator.Reconciler.FileExists` | internal/controller/instance_provision.go:573-585 | A killed test reads as no file; a file that is found is there |
| `Operator.Reconciler.RestoreDatabaseIfBackedUp` | internal/controller/instance_provision.go:591-617 | Success means the file was restored or there is no archive; no file that was there goes, and the restored one holds what the archive does |
| `Operator.Reconciler.RecordDatabases` | internal/controller/instance_provision.go:182-197 | One update with the kept and the new names, which the invariant permits |
| `Operator.Reconciler.UpdateStatus` | internal/controller/instance_upgrade.go:184-190 | Optimistic locking: takes effect only on the latest version, and may take effect without the caller learning of it |
| `Operator.Reconciler.ReportResult` | internal/controller/instance_controller.go:303-312 | One more update of the status as it stands in the copy; undisturbed it leaves the message and error given |
| `Operator.Reconciler.SetPhase` | internal/controller/instance_controller.go:455-461 | Makes no call where the phase is recorded already, and never stores Ready next to an upgrade record |
| `Progress.CarryOutUpgrade` | internal/controller/instance_upgrade.go:101-155 | An upgrade that can get through, begun or not, reaches phase Ready with status.upgrade cleared and the StatefulSet on exactly the version asked for: the loop terminates, with any given number of disturbances (failing, killed or outdated reconciles, any events but the user's) at any points, clients working, archives being opened and the operator reconciling throughout |
| `Progress.ReconcileAdvances` | internal/controller/instance_upgrade.go:113-151 | An undisturbed reconcile never leaves more to do; where Kubernetes owes nothing it lowers the stages left or the work left in one, or finishes |
| `Progress.AwaitedHelps` | internal/controller/instance_controller.go:387-398 | Whatever the operator waits for can happen and lowers the work left |
| `Progress.MayAlwaysReconcile` | internal/controller/instance_controller.go:169-233 | At no stage of such an upgrade would an undisturbed reconcile be refused |
| `Progress.BeginsSoundly` | internal/controller/instance_upgrade.go:195-222 | The undisturbed reconcile that begins it records BackingUp and leaves it able to get through |
| `Progress.FinishedUpgradeDoesNotRestart` | internal/controller/instance_upgrade.go:195-203 | With the StatefulSet on spec's major version no upgrade starts again until the user changes that |
| `Progress.IdleEventsDoNotMatter` | internal/controller/instance_controller.go:214-231 | Clients, and the backup Pod opening an archive, leave the work to do as it is |
| `Prospects.SoundStays` | internal/controller/instance_upgrade.go:101-155 | That a begun upgrade can get through is kept by every permitted step without the user |
| `Prospects.SoundSince` | internal/controller/instance_upgrade.go:101-155 | And so along every recorded run |
| `Prospects.StatusProspers` | internal/controller/instance_upgrade.go:195-222 | Until it begins, every status update the operator may make keeps it free to, or begins it able to get through |
| `Prospects.MayBeginDrifts` | internal/controller/instance_upgrade.go:195-222 | And so does everything that happens without user and operator |
| `Prospects.UpgradeWaitsForBackupClaim` | internal/controller/instance_upgrade.go:101-130 | An upgrade recorded before the backup volume's claim exists stays at BackingUp in every run |
| `Databases.Diff` | internal/controller/instance_provision.go:83-109 | The map-building loops compute exactly the names only in spec and only in status, in order |
| `Databases.Merge` | internal/controller/instance_provision.go:182-195 | The loops put together the kept names followed by the new ones |
| `Databases.OutsideKeepsOrder` | internal/controller/instance_provision.go:93-109 | The names only on one side come in the order they have there |
| `Databases.SettledIsSpec` | internal/controller/instance_provision.go:182-195 | The recorded list has no duplicates and equals spec.databases as a set |
| `Databases.CountDecidesWithin` | internal/controller/instance_controller.go:214-218 | For duplicate-free lists with status within spec, the count test decides set equality |
| `Databases.NothingToDo` | internal/controller/instance_provision.go:111-113 | Returning early happens exactly when the two are equal as sets |
| `Databases.ReconciliationIsCrashSafe` | internal/controller/instance_provision.go:138-197 | Stopped after any number of execs any number of times, then run through: the same files as one uninterrupted run; kept databases are untouched, existing files never overwritten, missing ones given their archive or else empty |
| `Databases.CrashesDoNotMatter` | internal/controller/instance_provision.go:145-157 | Any number of cut attempts change nothing about the outcome |
| `Databases.ProvidedExactlyWhen` | internal/controller/instance_provision.go:93-109 | After a pass a database of spec has a file exactly when it was pending or had one before |
| `Databases.ReaddedAfterCrashIsNotProvided` | internal/controller/instance_provision.go:138-143 | A concrete history in which it has none: dropped, operator killed before recording, put back into spec by the user |
| `SecurityInit.InitContainer.Initialize` | internal/controller/instance_provision.go:432-460 | The script, command by command, leaves what SecurityInit.Start says for every way its commands can fail or stop |
| `SecurityInit.InitContainer.FindSource` | internal/controller/instance_provision.go:433-445 | The loop over ls -t finds the newest archive of a major version not above its own, skipping other names: the one SecurityInit.NewestFittingIsSeeded is about |
| `SecurityInit.NewestFittingIsSeeded` | internal/controller/instance_provision.go:432-460 | On fresh storage an undisturbed start leaves exactly the users of the first listed security<digits>.fbk of a major version not above the server's own, its own included, or nothing where that cannot be restored |
| `SecurityInit.NoneFittingSeedsTheDefault` | internal/controller/instance_provision.go:446-447 | Without any such archive, or without a backup volume, it leaves the image's default |
| `SecurityInit.ExistingIsLeftAlone` | internal/controller/instance_provision.go:432-433 | A security database that is there stays as it is, through any number of restarts |
| `SecurityInit.WritingPutsItFirst` | internal/controller/instance_provision.go:661-673 | Writing security<n>.fbk puts it first in the listing and leaves the others in their order |
| `SecurityInit.InitContainer.MigrateUsers` | internal/controller/instance_provision.go:448-456 | The six commands of the migration, under set -e |
| `SecurityInit.InitIsAllOrNothing` | internal/controller/instance_provision.go:432-460 | Stopped anywhere, in the middle of a command too, any number of times: no security database or exactly the one with the users Cluster.SeedUsers names, with no temporary file next to a migrated one; this holds exactly unless a start that copies the image's default stops halfway before any got it done |
| `SecurityInit.MigrationCut` | internal/controller/instance_provision.go:448-456 | One attempt at migrating ends with all users, and no temporary file, exactly when all six commands work |
| `SecurityInit.UndisturbedStartSeeds` | internal/controller/instance_provision.go:432-460 | Whatever earlier starts left, the next undisturbed one leaves the seeded users exactly if the archive can be restored and no half copy lies there |
| `SecurityInit.HalfACopyStays` | internal/controller/instance_provision.go:446-447 | Without an archive the default is copied straight to the final name: it is broken exactly when that copy stops halfway, and then stays so |
| `Pools.BackupVolume.IncrementalBackup` | internal/controller/instance_backup_schedule.go:555-612 | The script with its loops leaves what Pools.Execute says and succeeds exactly when that does, for runs that fail or are killed at any command |
| `Pools.BackupVolume.SettleNew` | internal/controller/instance_backup_schedule.go:567-587 | The two loops settle $NEW as Pools.NeedsPool says, which PoolChoice.StartsAPoolExactly spells out |
| `PoolChoice.StartsAPoolExactly` | internal/controller/instance_backup_schedule.go:567-593 | A run goes on with the newest pool exactly when that is within retention and of every listed database with a level 0 there the server answers that this is the latest in its history; otherwise it starts a pool of its own time or, where mkdir fails, fails having done nothing |
| `PoolChoice.LevelsTaken` | internal/controller/instance_backup_schedule.go:594-612 | A run that succeeds has taken a level 1 of every listed database that had a level 0 in that pool, leaving the level 0, and a new level 0 of every other |
| `PoolChoice.UndisturbedRunSucceeds` | internal/controller/instance_backup_schedule.go:555-612 | A run over databases that are all there, whose commands all work, succeeds |
| `Pools.BackupVolume.DeleteOldPools` | internal/controller/instance_backup_schedule.go:606-610 | The last loop leaves the newest pool, or where it is cut the rest with one pool in part |
| `PoolSafety.Level1sAreRestorable` | internal/controller/instance_backup_schedule.go:567-607 | After any sequence of runs and database changes: in every pool but the oldest of several, each usable level 1 stands on the complete level 0 next to it; in that one exactly when its level 0 file is still there; and each was taken in a pool not older than its run's cutoff |
| `PoolLimits.CutRemovalLeavesAnOrphan` | internal/controller/instance_backup_schedule.go:606-610 | For every database a sequence in which a removal cut after the level 0 leaves a level 1 nothing can be made of |
| `PoolSafety.LastBackupStays` | internal/controller/instance_backup_schedule.go:578-612 | Once a run listing a database succeeded, some pool holds at every later moment the backup that run or a later one took of it, with the level 0 it is based on, for as long as the runs list it and wherever those fail or are killed (for a name without a leading dot) |
| `PoolLimits.LosesBackupExactlyWhenHidden` | internal/controller/instance_backup_schedule.go:629-646 | With a leading dot it can be lost, and only then: a run within the same second writes over it, given that nbackup writes into an existing file |
| `PoolSafety.BackupsStayAvailable` | internal/controller/instance_backup_schedule.go:578-612 | A complete level 0 stays for every name |
| `PoolSafety.SuccessLeavesOnePool` | internal/controller/instance_backup_schedule.go:591-612 | A run that succeeds leaves one pool within retention, every level 1 in it restorable, with a complete level 0 and a backup taken by this run of every database |
| `PoolSafety.RunKeepsCoverage` | internal/controller/instance_backup_schedule.go:591-612 | No run, however it ends, takes away the last complete level 0 of a database it lists |
| `PoolSafety.RunKeeps` | internal/controller/instance_backup_schedule.go:555-612 | Every run keeps the invariant of pools and histories |
| `PoolSafety.BackUpOneKeeps` | internal/controller/instance_backup_schedule.go:594-605 | So does every single nbackup call; one that works leaves the database backed up by this run, and no complete level 0 goes |
| `PoolSafety.ReadyKeeps` | internal/controller/instance_backup_schedule.go:567-593 | The check before the backups leaves every listed database with the pool's own level 0 as its latest, or none there |
| `PoolHistory.CuttingChangesNothing` | internal/controller/instance_backup_schedule.go:504-513 | Runs that cut the backup history and runs that do not make the same decisions and write the same files for ever |
| `PoolHistory.CutHistoriesStayShort` | internal/controller/instance_backup_schedule.go:504-513 | A history always cut is what an uncut one is from its latest level 0 on: one row and the level 1 rows since |
| `PoolHistory.RunInStep` | internal/controller/instance_backup_schedule.go:555-612 | The same for one run |
| `Claims.NoSharedNames` | internal/controller/instance_backup_schedule.go:629-646 | For any number of interleaved runs, some killed, others pruning: all files with one time that the globs see come from one run, no two runs work under one time, and a run only ever writes to a name that exists where that has a leading dot |
| `Claims.CollidesExactlyWhenHidden` | internal/controller/instance_backup_schedule.go:629-646 | And for every stem with a leading dot such a run exists |
| `Claims.StepKeeps` | internal/controller/instance_backup_schedule.go:629-646 | Every step keeps the invariant, the scan being non-atomic and blind to names with a leading dot; claims without a holder or a killed run are part of what it rules out |
| `Claims.NoClaimIsForgotten` | internal/controller/instance_backup_schedule.go:629-646 | Over all interleavings every claim is that of a run that holds it or of one that was killed; with nobody killed none is left once all runs have ended |
| `Claims.KilledByAStep` | internal/controller/instance_backup_schedule.go:629-646 | And a time counts as a killed run's only through a kill of a run holding a claim on it |
| `Claims.OnlyTheHolderAdds` | internal/controller/instance_backup_schedule.go:632-640 | Under a held claim files with its time only disappear, unless its holder writes them |
| `Claims.ClaimsStayOk` | internal/controller/instance_backup_schedule.go:672-680 | Pruning claims never takes one that is held |
| `Timestamps.StampsOrderAsTimes` | internal/controller/instance_backup_schedule.go:60-67 | Timestamps compare as strings exactly as the times they stand for, and are equal only for equal times |
| `Timestamps.StampsAreRendered` | internal/controller/instance_backup_schedule.go:75 | The pattern matches exactly the timestamps of times |
| `Timestamps.ExtractsExactly` | internal/controller/instance_backup_schedule.go:69-75 | A name yields a timestamp exactly when it was printed with it |
| `Timestamps.ExtractFromPrinted` | internal/controller/instance_backup_schedule.go:69-75 | The timestamp comes back from every printed name, whatever the stem |
| `Timestamps.PrintedStamp` | internal/controller/instance_backup_schedule.go:60-67 | The digits of a timestamp, place by place |
| `Timestamps.PrintedName` | internal/controller/instance_backup_schedule.go:476-489 | The name of a backup file, spelled out |
| `ScheduledBackups.PruningIsExact` | internal/controller/instance_backup_schedule.go:660-671 | The files pruned are exactly the scheduled backups of an earlier time, but for stems with a leading dot |
| `ScheduledBackups.BackupDirectory.ScheduledBackup` | internal/controller/instance_backup_schedule.go:456-493 | It succeeds exactly when every backup, and every compression asked for, does; a run whose backup fails deletes nothing its globs see; any other leaves all that was there or was made but for expired files and directories, and for hidden files of its own names and time |
| `ScheduledBackups.BackupDirectory.BackUpAll` | internal/controller/instance_backup_schedule.go:476-489 | Success means one finished file for every database; whatever else changes carries the run's own time, and what goes is hidden |
| `ScheduledBackups.NothingReplacedUnlessHidden` | internal/controller/instance_backup_schedule.go:531-535 | gzip only ever replaces a file that was there where that is hidden |
| `ScheduledBackups.BackupDirectory.PruneFiles` | internal/controller/instance_backup_schedule.go:660-671 | The loop leaves exactly what has not expired |
| `ScheduledBackups.BackupDirectory.PruneDirectories` | internal/controller/instance_backup_schedule.go:672-702 | The loops over claims and pools leave the directories ScheduledBackups.DirectoryPruningIsExact is about |
| `ScheduledBackups.DirectoryPruningIsExact` | internal/controller/instance_backup_schedule.go:672-702 | A directory goes exactly when it is ".claim-" or "pool-" followed by the timestamp of a time before the cutoff |
| `ScheduledBackups.RecentDirectoriesStay` | internal/controller/instance_backup_schedule.go:672-702 | So a run's own claim and every pool that is not before the cutoff stay |
| `ScheduledBackups.OwnBackupsSurvive` | internal/controller/instance_backup_schedule.go:645-662 | A run's own backup survives its pruning exactly when the run did not outlast its retention, or the stem has a leading dot |
| `ScheduledBackups.FileNamesAreDistinct` | internal/controller/instance_backup_schedule.go:476-489 | No two databases, times, modes or compressions share a file name |
| `Retention.RuleAgreesWithScheduler` | internal/controller/instance_backup_schedule.go:139-157 | For every value the API admits: it parses, without overflow, to the number its digits denote, which is positive exactly when a digit 1-9 is in it |
| `Retention.JobsFollowTheRule` | api/v1/instance_types.go:128 | A successful pass leaves exactly the jobs of the frequencies with such a digit; with incremental mode at most one |
| `Retention.Scheduler.Reconcile` | internal/controller/instance_backup_schedule.go:239-258 | Success means exactly the enabled frequencies have jobs; a failure leaves everything before it in place and everything after it alone |
| `Names.AdmissibleMajor` | internal/controller/instance_upgrade.go:37-46 | An admissible version has a major version, and the security file name carries exactly its digits |
| `Names.MajorVersions` | internal/controller/instance_upgrade.go:37-46 | Leading digits, alone or followed by "." or "-" and anything, are the major version |
| `Names.NoMajorVersion` | internal/controller/instance_upgrade.go:37-46 | A tag that begins with anything else has none |
| `Names.UntaggedImages` | internal/controller/instance_upgrade.go:55-59 | An image without a tag has none to read back, a registry's port being no tag |
| `Names.SecurityBackupNames` | internal/controller/instance_provision.go:303 | The pattern matches exactly security<digits>.fbk |
| `Names.ImageTagRoundTrip` | internal/controller/instance_resources.go:423 | The tag read back from image:version is that version, whatever the image |
| `Names.StatefulSetVersionRoundTrip` | internal/controller/instance_upgrade.go:50-62 | What the StatefulSet was given is what the operator reads back, whatever other containers it has |
| `Names.BackupNamesAreDistinct` | internal/controller/instance_provision.go:853-855 | No two admissible databases share a backup file, nor one with a security database |
| `Orphans.OrphanedBackups` | internal/controller/instance_provision.go:540-567 | Sorted, without duplicates, and exactly the databases of the non-security backups ls lists that spec does not name |
| `Orphans.ReportedExactly` | internal/controller/instance_provision.go:556-564 | An admissible database is reported exactly when the file its backup is written to is there, spec does not name it, and it has no leading dot, which ls leaves out |

## Left out

Assumptions of the model:

- Reads through the API are current, but for reconciles on a copy that still says Releasing (`Operator.Reconciler.ReconcileLagging`). Nobody but the operator edits or deletes the StatefulSet.
- `status.replicas` is modelled as the presence of the server pod, and `readyReplicas` as that of an available one. No pod starts on a missing or terminating claim.
- An exec that succeeds took full effect, and a failed or interrupted `gbak -create` onto a final name left no file. Creating the shadow after a restore is part of the restore.
- Clients write only databases that exist and do not create or drop any.
- The backup volume setting and `storage.shadow` do not change while an upgrade is recorded, and nobody deletes the backup claim.
- The test for a database's archive (`Operator.Reconciler.ArchiveExists`) answers truly or fails.
- Database names end in `.fdb`, without slash, blank or `$`, and are not `security<digits>.fdb`; versions are `<digits>.<rest>` without `:` or `/`. Tags without a major version are left out.
- An engine opens only files of its own major version and restores archives of the same or an older one.
- Clocks do not go back, a live run's timestamp is not before a cutoff computed while it lives, cutoffs are taken as given (no calendar arithmetic), `gzip` and `mv` are atomic.
- A server that outlives a killed incremental run finishes its nbackup before the next run begins. A command that fails has stopped writing by the time its run gives back the claim.

Not modelled:

- An upgrade whose listed databases are not all on primary storage, whose server never initialised its security database, or which meets an archive of a newly wanted database that cannot be restored: `Progress` claims nothing for these.
- Deletions.CarryOutDeletion: with a backup Pod at work that an earlier spec asked for, `Deletions.WaitForEver` says nothing; nor does either of reconciles that are themselves disturbed.
- status.warning, status.conditions beyond Available, and labels; the CronJobs, the ConfigMap, the Service, the SYSDBA Secret: they decide nothing in this machine. Working on them is a call, or any number of them, that can fail.
- Rendering of scripts, shell quoting and SQL text: each script is modelled by what its commands do.
- Removal of a claim by another run while a pruning loop is about to remove it, which makes `rmdir` and with it that run fail.
- The one-off `RemoveTemporaries` of a migration that is followed by a start picking another archive: temporary files may then stay next to a finished security database.
- External deletion of the StatefulSet, nbackup runs made by hand, and edits of the backup volume.
- ScheduledBackups.BackupDirectory.ScheduledBackup: takes files as a set of names, so that writing over a hidden one does not show unless gzip removes it, and does not model a run killed while it prunes, which only leaves more of the expired files behind.
- PoolLimits.LosesBackupExactlyWhenHidden: takes it that the server's nbackup writes into a level 1 file that exists, which the repository does not say; one that refuses loses nothing, and nor does a run that fails before gzip where the earlier file is compressed already. That only hidden names can lose a backup does not rest on this.
- Pools.BackupVolume.IncrementalBackup: takes a database's file names as the pair of level and stamp, compressed or not.
