# Crash-safety of the OpenStack platform's operator protocols

This project models the parts of the platform that must survive being interrupted: the operations
that change provider resources under a durable journal, the file primitives they rest on, and the
archives they exchange. Each protocol is modelled with a crash possible between any two of its
actions, and the theorems quantify over every such run.

| file | models |
|---|---|
| `Cloud.dfy` | a provider project: servers, fixed ports, volumes, and the commands that change them |
| `Runs.dfy` | runs of a transition function, and induction over them |
| `Replacement.dfy` | persistent-host replacement, rollback and recovery, as one step function over provider, journal and process |
| `ReplacementSafety.dfy` | the invariant that every action keeps |
| `ReplacementTheorems.dfy` | what replacement promises over every run |
| `ReplacementAttempt.dfy` | what a first attempt does on the way, stated on commands, phases and server fields |
| `ReplacementProgress.dfy`, `ReplacementSurvey.dfy` | how far a first attempt has really got at each command, and what a recovery makes of any project it finds |
| `ReplacementRecovery.dfy`, `ReplacementStuck.dfy` | when rollback and recovery return, and the two situations in which recovery never does |
| `ReplacementFresh.dfy` | a first attempt with a cooperative provider, to success or to a rollback in the same process |
| `ImageInventory.dfy`, `PrunePlanning.dfy`, `ImagePrune.dfy`, `PruneOutcome.dfy` | the XOR inventory aggregate, the prune plan, applying and recovering it, and what it leaves |
| `Power.dfy` | start, stop and reboot under a checkpoint |
| `Teardown.dfy` | the intent journal of the acceptance teardown |
| `Durable.dfy` | atomic replacement of a file, with page cache and directory cache |
| `Retention.dfy`, `RetentionPolicy.dfy`, `RetentionRun.dfy`, `RetentionResume.dfy` | backup retention: the policy, an independent account of it entry by entry, running it on a directory, and finishing an interrupted run |
| `Acceptance.dfy` | the hash-chained acceptance run and its evidence |
| `BuildLog.dfy` | the timestamping build log |
| `Pagination.dfy` | reading a provider inventory page by page |
| `DatabaseArchive.dfy`, `RecoveryBundle.dfy`, `RecoveryExport.dfy`, `RecoveryEvidence.dfy` | the database archive, and the off-site bundle with the selection and validation of its evidence |
| `Options.dfy`, `Sorting.dfy`, `World.dfy` | shared helpers |

## How the model is built

- **Replacement** is a step function `Next` over the provider project, the durable journal and the
  volatile process. The action names every choice of the environment: whether a command takes
  effect, whether its answer arrives, whether an observation succeeds, and when the process dies. A
  run is any sequence of such actions from any project in which the operation may begin.
- **The imperative protocols** (prune, power, teardown, retention, durable files, acceptance, build
  log) are classes whose methods follow the source statement by statement. Prune and power take the
  environment as an explicit argument: a script that says for every step what fails, what takes
  effect and where the process dies, so their contracts say exactly which environment leads to which
  end. In the others a parameter `obliging` says whether the world cooperates: with `false`, every
  system call, provider answer and step may fail or be the last one; with `true`, the method must
  succeed. The same body therefore states both what is safe under any interruption and what
  completes under none.
- **Crashes of files** are modelled by what a crash may leave: `Durable.Volume` accumulates, over
  every system call, all contents a crash at that moment could show under each name (an unsynced
  file may hold anything, an unsynced directory entry any value since the last directory fsync);
  `RetentionRun.Folder` accumulates every subset of unlinks that could be lost.

Assumptions, none of which the code can check:

- A provider command happens as a whole or not at all, though its answer may be lost; answered
  observations are truthful; a create request that is answered reports its own server.
- New server and operation identifiers are fresh; image and resource identifiers are unique.
- Deleting a server releases its port and volumes and deletes none of them, because they are
  attached with `delete_on_termination` false (`openstack_platform/openstack.py:3028`).
- No third party acts between an observation and the delete that follows it. Between the attempts
  of a teardown anything may change; the images of a prune and the host of a power action are
  changed by the operation alone.
- A prune of backups starts with no manifest unlink unsynced; its callers have just committed a backup,
  which syncs the directory. `RetentionRun.TornExactly` shows what an unsynced one can do.
- SHA-256 and the HMAC of section 2 of RFC 2104 are uninterpreted functions; where tamper evidence
  is claimed, the hash is assumed injective. JSON codecs are functions whose reader undoes the writer.

## Findings

Each is a property a reader of the documentation might expect and the code does not give; the model
follows the code and the exact condition is proved.

- Recovery of a replacement is not total. `ReplacementRecovery.RecoverableExactly` proves that a
  crashed operation can be finished if and only if it is still `validated`, or it is not
  `rolled_back` and the host was found ACTIVE or SHUTOFF. `RolledBackSticks` and
  `UnknownStatusSticks` are the two runs that get stuck: a crash right after the `rolled_back`
  checkpoint, and a host in any other status, which is journaled as `observed` before it is refused.
- A retry of `atomic_write` is accepted after an interruption at every named stage
  (`Durable.Volume.AtomicWrite`, `Durable.RetryIsAccepted`); after every crash it is accepted if and only if the umask takes nothing
  from the mode (`Durable.CrashesAreHarmless`, `Durable.RetryableExactly`): otherwise a crash between creation and `fchmod` leaves
  a file that every later attempt refuses. With a page cache the window lasts until the file's fsync.
  A retry of `commit_prepared` is accepted exactly before the rename: afterwards the prepared file is
  gone (`Durable.Volume.CommitPrepared`).
- A power action interrupted between its checkpoint and its command is never issued later:
  `Power.Operation.Attempt` proves that a rerun completes if and only if it can observe that the
  command was delivered, and `Power.InterruptedStart` is a run that never completes. A start of a host
  that is already running never completes either (`Power.NeedlessStart`).
- Changing exactly one fingerprint always changes the XOR aggregate; a set of changes goes unnoticed
  if and only if the changes cancel (`ImageInventory.ChangesAreSeenExactly`), and two can
  (`TwoChangesCanHide`).
- An ordinary provider error after some prune deletions ends the operation as failed rather than
  recoverable. `ImagePrune.Site.Apply` proves that a first attempt ends failed with images gone if and
  only if its first trouble is an unanswered query after an effective delete, and stays recoverable if
  and only if it is a crash, an unconfirmed delete, or drift after the first image;
  `ImagePrune.FailedWithImageGone` is a run.
- Bundle verification looks at nothing outside the listed components
  (`RecoveryBundle.VerificationIsLocal`): a verified bundle stays verified with any entry beside them
  (`StrayEntriesAreIgnored`), and such entries are not imported.
- Paging by marker needs an `id` in the last row of every page. `Pagination.ReadableExactly` proves that
  a listing is returned by every honest cut into pages if and only if every row carries an `id`;
  keypairs do not, so they are read from one page and refused from two (`KeypairsNeedOnePage`).

## Model

| member | source | states |
|---|---|---|
| ReplacementSafety.NextKeepsInv | openstack_platform/openstack.py:2802-3226 | every action of replacement, rollback, recovery, provider or crash keeps the invariant that ties provider, journal and process together |
| ReplacementSafety.RunIsSound | openstack_platform/openstack.py:2535-3226 | every state of every run satisfies the invariant |
| ReplacementSafety.OldCommandKeepsShape | openstack_platform/openstack.py:2478-2500 | every command on the old server, its port and its volumes changes nothing else of the project, applied or not |
| ReplacementSafety.CreateKeepsShape | openstack_platform/openstack.py:3009-3088 | a created server holds the port and every volume at its device from birth, or the request changes nothing |
| ReplacementSafety.DropOldKeepsShape | openstack_platform/openstack.py:3191-3226 | deleting the old server leaves the replacement's port, volumes and name alone |
| ReplacementSafety.RestoredIsBase | openstack_platform/openstack.py:2618-2716 | with no replacement left and the old server owning everything at its old power, the project is exactly the one the operation found |
| ReplacementTheorems.HostAlwaysExists | openstack_platform/openstack.py:2802-3226 | at every moment of every run the old server exists intact, or acceptance is durable and the recorded replacement serves; no other server, port or volume ever changes |
| ReplacementTheorems.DeletesAreSafe | openstack_platform/openstack.py:3560-3774 | over every run the old server's delete is issued only once acceptance is durable, the replacement's only before, each is there when its delete is issued, and no other server is ever a target |
| ReplacementTheorems.CommitIsKept | openstack_platform/operator.py:949-1105 | no action leaves acceptance or changes the accepted replacement; `ambiguous` overwrites only earlier phases |
| ReplacementTheorems.AcceptanceIsFinal | openstack_platform/openstack.py:3104-3226 | from durable acceptance on, the phase only becomes `complete` and the same replacement serves in every later state |
| ReplacementTheorems.FinishedConserves | openstack_platform/openstack.py:2535-2716 | a finished rollback leaves the project exactly as found; a finished success leaves the serving replacement with the original port and volumes, without the old server |
| ReplacementTheorems.FinishedIsReady | openstack_platform/openstack.py:2802-2888 | every finished operation leaves a project in which the next replacement may begin |
| ReplacementAttempt.UnverifiedStopIsUndone | openstack_platform/openstack.py:2889-2945 | over every run, a first attempt that stops the old server, never sees it stopped and ends without a crash issues a start of it before it reports; if that start is carried out, the host ends powered as found |
| ReplacementAttempt.UnverifiedIsJournaled | openstack_platform/operator.py:1086-1096 | over every run, a change that is looked for and not found, or a create request without an answer, is journaled as ambiguous before a first attempt reports |
| ReplacementAttempt.CommandsFollowCheckpoints | openstack_platform/openstack.py:2888-3043 | over every run, stop, rename, detach and create are issued only with the checkpoint durable that leads to each of them |
| ReplacementAttempt.HostFieldByField | openstack_platform/openstack.py:1983-2145 | over every run, field by field: the old server is what it was up to name and being stopped, or the accepted replacement has the image, flavor and tag asked for and alone holds name, port and volumes |
| ReplacementAttempt.RetainedIsJournaled | openstack_platform/operator.py:1073-1081 | over every run, a first attempt that deletes the old server and still finds it is journaled as complete, with its cleanup left to a recovery |
| ReplacementAttempt.EndIsTrue | openstack_platform/operator.py:1068-1105 | over every run, an operation is marked failed exactly when nothing was begun or everything was put back, succeeded exactly when it is complete and the old server gone, and left for recovery otherwise |
| ReplacementAttempt.JournalNamesReplacement | openstack_platform/openstack.py:3089-3092 | over every run, the journal names the replacement once its creation is journaled, and what it names is the only server with the tag of the operation |
| ReplacementAttempt.StartsAreNeeded | openstack_platform/openstack.py:2635-2661 | over every run, a start is issued only for the old server, only if it was found running, and by a rollback only if it is not running |
| ReplacementProgress.TakenApartInOrder | openstack_platform/openstack.py:2888-3043 | over every run, the old server is really stopped before its rename, stopped and renamed before its port goes, and when the replacement is asked for, with the planned image, flavor and tag, the port and every volume are free |
| ReplacementSurvey.SurveyExactly | openstack_platform/openstack.py:3432-3688 | on any project whatsoever, recovery goes on exactly when the old server is as recorded, or gone after acceptance, and the replacement is beyond doubt by name, image, flavor and tag; and it says with which server and which step |
| ReplacementRecovery.OperatorAction | openstack_platform/operator.py:966-982 | the action chosen for a phase is one recovery allows, and only `validated` and `rolled_back` have none |
| ReplacementRecovery.PathAdvances | openstack_platform/openstack.py:3560-3774 | with a provider that carries out commands and reports health, every recovery state has a next action that comes closer to the end |
| ReplacementRecovery.RecoveryReturns | openstack_platform/openstack.py:3619-3774 | from every reachable crash with an action in the table, a cooperative recovery returns within a bound: rolled back to the exact original project, or succeeded once accepted |
| ReplacementRecovery.PathEnds | openstack_platform/openstack.py:2535-2716 | every rollback or completion under way, in a recovery or at the end of a first attempt, ends with a cooperative provider: failed with the exact original project before acceptance, succeeded after it |
| ReplacementFresh.ForwardProceeds | openstack_platform/openstack.py:2888-3172 | with a cooperative provider every state of a first attempt has a next action that comes closer to its end |
| ReplacementFresh.FreshAttemptEnds | openstack_platform/openstack.py:2802-3226 | from every project in which a replacement may begin with the host ACTIVE or SHUTOFF, a run ends within a bound: succeeded, or after a refused create or failed readiness rolled back by the same process to exactly the original project |
| ReplacementRecovery.StuckNeverFinishes | openstack_platform/openstack.py:3432-3557 | from the stuck situations no sequence of actions ever finishes the operation |
| ReplacementRecovery.RecoverableExactly | openstack_platform/operator.py:949-1105 | a crashed operation can be finished if and only if it is `validated`, or not `rolled_back` with the old host found ACTIVE or SHUTOFF |
| ReplacementStuck.UnknownStatusSticks | openstack_platform/openstack.py:2888-2945 | a run in which a host of unknown status is journaled as observed and can never be finished |
| ReplacementStuck.RolledBackSticks | openstack_platform/openstack.py:2700-2716 | a run in which a crash after the `rolled_back` checkpoint can never be finished |
| ImageInventory.InventoryHash | openstack_platform/openstack.py:809-819 | the loop computes the aggregate, in which a bit is set exactly when an odd number of fingerprints have it |
| ImageInventory.AggregateIsParity | openstack_platform/openstack.py:809-819 | the exclusive-or has a bit exactly when an odd number of fingerprints have it |
| ImageInventory.OrderIsIrrelevant | openstack_platform/openstack.py:809-819 | any order of the same images gives the same aggregate |
| ImageInventory.DeletionUpdates | openstack_platform/openstack.py:822-826 | removing the fingerprints of any deleted images gives exactly the aggregate of the rest |
| ImageInventory.WithoutIsParity | openstack_platform/openstack.py:822-826 | removing fingerprints flips a bit exactly when an odd number of them have it |
| ImageInventory.OneChangeIsSeen | openstack_platform/openstack.py:1252-1263 | changing one retained image's fingerprint always changes the aggregate |
| ImageInventory.ChangesAreSeenExactly | openstack_platform/openstack.py:1252-1263 | any set of changes is noticed if and only if their differences do not cancel |
| ImageInventory.TwoChangesCanHide | openstack_platform/openstack.py:809-819 | two changes that cancel |
| PrunePlanning.PlanPrune | openstack_platform/openstack.py:874-940 | the plan protects exactly selected, operation, server and newest images of each role, lists exactly the other usable images in ascending order, ignores images without platform metadata, and refuses more than 100 or a bad retention count |
| PrunePlanning.Classify | openstack_platform/openstack.py:912-918 | one pass groups the usable images by role and collects for review the others that have platform metadata |
| PrunePlanning.RecentAreFirst | openstack_platform/openstack.py:919-921 | the first `retain` of a sorted role are exactly the images with fewer than `retain` newer ones |
| PrunePlanning.PlanIsDisjoint | openstack_platform/openstack.py:1001-1012 | candidates overlap neither protected images nor images for review |
| PrunePlanning.CandidatesAreBacked | openstack_platform/openstack.py:908-928 | every candidate has at least `retain` newer protected images of its role |
| PrunePlanning.ProtectedExactly | openstack_platform/openstack.py:915-921 | an image is protected exactly when it is in use, or usable with fewer than `retain` later usable images of its role by creation time and identifier |
| PrunePlanning.CandidatesExactly | openstack_platform/openstack.py:922-928 | an image is a candidate exactly when it is usable, not in use, and at least `retain` later ones of its role exist |
| PrunePlanning.LaterOnesAreProtected | openstack_platform/openstack.py:919-928 | behind every candidate stand at least `retain` protected images of its role with a later creation time |
| PrunePlanning.LaterIsKeptFirst | openstack_platform/openstack.py:919-921 | retention never keeps an image and drops a later one of the same role |
| PrunePlanning.ReviewExactly | openstack_platform/openstack.py:914-918 | what needs review has platform metadata and is not usable |
| PrunePlanning.ReplanIsStable | openstack_platform/openstack.py:1062-1136 | after any of the deletions, planning again protects the same images and finds exactly the candidates that are left |
| PruneOutcome.ProtectedStay | openstack_platform/openstack.py:1062-1136 | wherever any number of attempts stop, selected, operation and server images and the newest of each role are still there |
| PruneOutcome.RestIsStillPlanned | openstack_platform/openstack.py:908-928 | planning again on what is left finds exactly the planned images that are not yet gone |
| ImagePrune.ReconciliationIsExact | openstack_platform/openstack.py:1205-1272 | against any inventory, what reconciliation returns is a plan prefix that extends the journal by at most the pending image and is exactly the absent planned images |
| ImagePrune.ReconciliationCountsBits | openstack_platform/openstack.py:1252-1263 | against any inventory, an accepted reconciliation lists and deletes fingerprints that together set every bit as often, up to an even number, as the planned inventory; any change that does not cancel in every bit is refused |
| ImagePrune.OneChangeIsRefused | openstack_platform/openstack.py:1252-1263 | one changed fingerprint of one remaining image, planned or not, is refused whatever the journal says |
| ImagePrune.JournalIsTrue | openstack_platform/openstack.py:1051-1136 | at every moment the journaled images are gone in plan order, at most the pending one more is, and everything else is there unchanged |
| ImagePrune.ReconciliationSucceeds | openstack_platform/openstack.py:1205-1272 | if nobody else changed the inventory, reconciliation succeeds with the images really deleted |
| ImagePrune.Site.Delete | openstack_platform/openstack.py:1064-1112 | a delete is sent only for the pending image, after it was seen unchanged and unused |
| ImagePrune.Site.DeletePlanned | openstack_platform/openstack.py:1051-1136 | for every script: which image stops it and how, how many images are gone, with deletes in plan order and the journal behind by at most the pending image |
| ImagePrune.Site.Apply | openstack_platform/operator.py:744-766 | a first attempt succeeds exactly without trouble, stays recoverable exactly after a crash, an unconfirmed delete or drift past the first image, and ends failed with images gone exactly when a query is not answered after an effective delete |
| ImagePrune.EndingsAreExact | openstack_platform/operator.py:754-766 | which first trouble makes which ending, for every script |
| ImagePrune.FailedWithImageGone | openstack_platform/operator.py:764-766 | a run that ends failed with one of two images gone |
| ImagePrune.Site.Recover | openstack_platform/operator.py:655-698 | recovery deletes nothing unless its queries are answered and all protection is as planned, then ends as its script says from where the journal lags; every other ending stays recoverable |
| ImagePrune.Site.Operate | openstack_platform/operator.py:655-766 | over any number of attempts all of this holds and no unplanned image is ever deleted |
| Power.Operation.Send | openstack_platform/openstack.py:1826-1833 | the one command names the server that the durable checkpoint names, is carried out only on a host it applies to, and delivers exactly if it takes effect and the host boots well |
| Power.Operation.PowerHost | openstack_platform/openstack.py:1774-1848 | checkpoint, one command, observation: it is done exactly when the command applies, takes effect, is answered and the host is seen freshly ready |
| Power.Operation.Attempt | openstack_platform/operator.py:770-856 | an invocation before the checkpoint completes exactly without trouble; past it nothing is sent again, and it completes exactly when delivery can be observed |
| Power.Operation.Reruns | openstack_platform/openstack.py:1851-1916 | over any number of reruns at most one command is ever sent |
| Power.InterruptedStart | openstack_platform/openstack.py:1826-1833 | a run through the crash point before the command, which no later attempt ever finishes |
| Power.NeedlessStart | openstack_platform/openstack.py:1774-1848 | a start of a running host is refused by the provider and never finishes |
| Teardown.Deployment.RecordTeardown | openstack_platform/acceptance_live_driver.py:1297-1333 | journal entries are only added as exact intents and only advance to confirmed |
| Teardown.Deployment.Delete | openstack_platform/acceptance_live_driver.py:1484-1501 | a delete is sent only for a resource seen exactly as recorded, with its exact intent durable |
| Teardown.JustifiedMeans | openstack_platform/acceptance_live_driver.py:1484-1501 | a sent delete was of the one resource of its name, with the recorded identifier and projection, its whole record durable as an intent |
| Teardown.Deployment.Handle | openstack_platform/acceptance_live_driver.py:1434-1539 | one resource moves from live, or gone with an intent, to confirmed with no row of its name or identifier left; a name that is gone while its identifier is listed, a resource that differs from its record, or an absence without an intent stops it with nothing changed |
| Teardown.Deployment.Teardown | openstack_platform/acceptance_live_driver.py:1335-1571 | only owned resources with a journaled intent go, and nothing is newly confirmed while its name or identifier is listed; success means every owned identity confirmed and gone, the backup's destruction sanctioned, and the rest of the inventory equal to the baseline; a resumable state stays resumable, and from one a cooperative run succeeds |
| Teardown.Follow | openstack_platform/acceptance_live_driver.py:1362-1403 | computes ownership after one recorded replacement, which exists exactly when one server has its old projection |
| Teardown.Current | openstack_platform/acceptance_live_driver.py:1360-1403 | computes ownership after the recorded replacements in order, or refuses where one of them has no exact predecessor; kinds, names and everything but servers stay |
| Teardown.ReplacementIsFollowed | openstack_platform/acceptance_live_driver.py:1388-1403 | a record is rewritten to the new reference and projection exactly when it is the server with the old projection |
| Teardown.OwnershipKeepsNames | openstack_platform/acceptance_live_driver.py:1357-1403 | following replacements keeps every kind and name, and changes nothing but servers |
| Teardown.Deployment.TeardownCurrent | openstack_platform/acceptance_live_driver.py:1335-1571 | tears down exactly what is owned after the recorded replacements, with all guarantees of a teardown and completion from a resumable state; replacements that cannot be followed stop it with nothing sent or journaled |
| Teardown.Deployment.Reruns | openstack_platform/acceptance_live_driver.py:1335-1571 | any number of interrupted teardowns, then one without trouble, ends finished |
| Teardown.StaysResumable | openstack_platform/acceptance_live_driver.py:1434-1539 | handling one record keeps every record resumable |
| Teardown.KeptComposes | openstack_platform/acceptance_live_driver.py:1250-1333 | what one teardown keeps, any sequence of them keeps |
| Durable.RenameAdds | openstack_platform/durable.py:117-120 | renaming a synced file adds exactly its whole contents to what the destination may hold |
| Durable.Volume.RemoveStale | openstack_platform/durable.py:57-65 | a leftover is removed durably exactly when it is a plain file of the exact mode, and the destination is unaffected |
| Durable.Volume.WriteAll | openstack_platform/durable.py:99-104 | any pattern of partial writes ends with the whole payload in the temporary file and nothing else changed |
| Durable.Volume.AtomicWrite | openstack_platform/durable.py:68-139 | at every crash point the destination holds its old contents or the whole payload; on success the payload is durable and the temporary gone; it succeeds exactly on an acceptable directory, and the directory is acceptable again at every named stage; without I/O errors no temporary is left behind |
| Durable.AcceptedExactly | openstack_platform/durable.py:52-65 | which directories an attempt accepts, spelled out on the files |
| Durable.Volume.CommitPrepared | openstack_platform/durable.py:142-185 | at every crash point the destination holds its old or the prepared contents; success is durable and happens exactly on a committable directory; at the named stages a retry is accepted exactly before the rename |
| Durable.WriteAfterBoot | openstack_platform/durable.py:68-139 | one attempt on a freshly booted machine leaves only the crash images that `Survives` describes |
| Durable.CrashesAreHarmless | openstack_platform/durable.py:68-139 | after any sequence of attempts cut short anywhere, the destination holds its first contents or one whole payload, and unless the umask strips the mode the next attempt is accepted |
| Durable.RetryableExactly | openstack_platform/durable.py:57-60 | every crash between creation and `fchmod` can be retried if and only if the created mode is the wanted one |
| Retention.FloorSurvives | openstack_platform/backup_retention.py:194-201 | at least the smaller of the minimum and the number of complete backups survive, the newest ones and the one just written among them |
| Retention.OnlyExpiredSetsGo | openstack_platform/backup_retention.py:203-229 | every set that goes is safe, strictly older than the cutoff, complete or never committed, off the floor, and as an archive not needed by a surviving backup |
| RetentionPolicy.SurvivorsExactly | openstack_platform/backup_retention.py:194-229 | an entry survives exactly when its set does not go, by an independent account on entries, safety and manifests: retention removes no less than the policy says, and no more |
| RetentionPolicy.BackupGoesExactly | openstack_platform/backup_retention.py:203-211 | a backup goes exactly when it is safe, whole or never committed, older than the cutoff, not the one just written, and not among the newest whole ones |
| RetentionPolicy.ArchiveGoesExactly | openstack_platform/backup_retention.py:211-229 | a key archive goes exactly when it is safe, whole or never committed, older than the cutoff, and no remaining backup names it or shares its time |
| Retention.SecondPruneIsIdle | openstack_platform/backup_retention.py:166-232 | an immediate second prune removes nothing |
| RetentionResume.NextPruneFinishes | openstack_platform/backup_retention.py:203-229 | pruning what any interruption of a prune leaves comes to the same end as the prune itself |
| RetentionResume.Resume | openstack_platform/backup_retention.py:166-232 | a prune of the directory after a crash leaves exactly the survivors of the interrupted one, durably |
| RetentionRun.TornExactly | openstack_platform/backup_retention.py:153-162 | unlinking members can leave a set committed without them exactly when the disk still holds its manifest and another member |
| Retention.ExportIsUndisturbed | openstack_platform/recovery_bundle.py:186-217 | whatever crash image a prune leaves, export still finds the same newest committed backup, complete and with its key archive |
| Retention.TopIsFull | openstack_platform/backup_retention.py:192-199 | the newest `minimum` are as many as asked for, or all |
| RetentionRun.FloorOf | openstack_platform/backup_retention.py:194-201 | sorting and slicing gives exactly the backups with fewer than `minimum` newer complete ones, and the one just written |
| RetentionRun.Folder.Scan | openstack_platform/backup_retention.py:109-150 | grouping the entries finds every set with its members, safety and manifest |
| RetentionRun.Folder.Remove | openstack_platform/backup_retention.py:153-163 | at every crash point, with any unsynced unlinks lost, the set has its manifest only if it has all its members |
| RetentionRun.Folder.RemoveAll | openstack_platform/backup_retention.py:203-211 | removing several sets keeps every crash image intact |
| RetentionRun.Folder.Prune | openstack_platform/backup_retention.py:166-232 | at every crash point no set keeps its manifest but lacks a member and no committed, safe backup lacks a member of the archive it references, and nothing that survives the policy is missing; success leaves exactly the survivors of the policy, durably; it refuses exactly when the set just written is not complete |
| Acceptance.CheckpointEvents | openstack_platform/acceptance.py:495-533 | the reader accepts exactly the valid chains over a prefix of the actions |
| Acceptance.LastHashPinsChain | openstack_platform/acceptance.py:495-533 | under an injective hash two accepted chains with the same last hash are identical |
| Acceptance.TimesDecideChain | openstack_platform/acceptance.py:599-609 | an accepted chain is decided by its completion times alone |
| Acceptance.ExtendedIsChain | openstack_platform/acceptance.py:595-609 | appending the next event to a valid chain gives a valid chain |
| Acceptance.StateDirectory.Advance | openstack_platform/acceptance.py:580-609 | an event becomes durable only after an answer that is ok, in the exact scope and action, with exactly the required checks passed, and it records those checks |
| Acceptance.StateDirectory.RunPlan | openstack_platform/acceptance.py:536-641 | the durable chain only grows and stays resumable, an action is requested only when exactly its predecessors are durable, a checkpoint of another plan or deployment is refused untouched, and a run that passes leaves evidence that verifies |
| Acceptance.VerifiedMeans | openstack_platform/acceptance.py:644-708 | evidence that verifies holds every action in order with every required check passed, chained, under the checksum and keyed code of the very document |
| Acceptance.StateDirectory.Reruns | openstack_platform/acceptance.py:536-641 | any number of interrupted runs, then one without trouble, ends in evidence that verifies |
| BuildLog.RenderConcat | openstack_platform/log_timestamps.py:32-55 | the byte-at-a-time log of two writes is the log of their concatenation |
| BuildLog.LogIsPieces | openstack_platform/log_timestamps.py:32-64 | the closed log is, line by line, each input line cut into stamped pieces of at most 8192 bytes |
| BuildLog.LinesAreBounded | openstack_platform/log_timestamps.py:10-55 | every output line is one stamp, at most 8192 payload bytes and one end |
| BuildLog.NothingIsLost | openstack_platform/log_timestamps.py:32-55 | no payload byte is lost, added or moved |
| BuildLog.TurnExtends | openstack_platform/log_timestamps.py:35-54 | one turn of the block loop writes exactly what the byte-at-a-time specification renders, also at a newline on the 8192-byte limit |
| BuildLog.SpellingsAgree | openstack_platform/log_timestamps.py:40-43 | two spellings of one log differ at most inside stamps |
| BuildLog.ChunkingIsInvisible | openstack_platform/log_timestamps.py:26-64 | logs of the same input in equal files agree outside stamps, however the input was cut into writes |
| BuildLog.Find | openstack_platform/log_timestamps.py:36-37 | the first newline at or after an offset |
| BuildLog.TimestampedBuildLog.Record | openstack_platform/log_timestamps.py:26-29 | the file is always the first `maximum` bytes of the unbounded log |
| BuildLog.TimestampedBuildLog.Write | openstack_platform/log_timestamps.py:31-55 | writing keeps the file equal to the clipped rendering of all input so far |
| BuildLog.TimestampedBuildLog.Close | openstack_platform/log_timestamps.py:60-64 | closing ends an open line once |
| Pagination.Inventory | openstack_platform/provider_api.py:542-585 | against any provider at most 501 pages, and at most 500 rows without a repeated id in at most 1048576 bytes of JSON, or an error; the loop computes `Read` |
| Pagination.HonestReading | openstack_platform/provider_api.py:542-585 | against an honest pager a result is the whole listing in order; within the limits the only obstacle is a page with more to come whose last row has no id |
| Pagination.ReadableExactly | openstack_platform/provider_api.py:580-585 | a listing within the limits is returned by every honest cut into pages if and only if every row carries an id |
| Pagination.OnePageIsRead | openstack_platform/provider_api.py:560-579 | a single page is returned whole exactly when it has at most 500 identified rows without repetition in at most 1048576 bytes of JSON |
| Pagination.CutIsRefused | openstack_platform/provider_api.py:582-585 | a page that announces more and ends in a row without an id ends the reading with an error |
| Pagination.KeypairsNeedOnePage | openstack_platform/provider_api.py:560-561 | two keypairs are read from one page and refused from two |
| Pagination.Note | openstack_platform/provider_api.py:568-572 | a page is accepted exactly when no identifier is empty or repeated |
| Pagination.WeightAdds | openstack_platform/provider_api.py:565 | the bytes counted do not depend on how the listing is cut into pages |
| Pagination.BytesAreJson | openstack_platform/provider_api.py:565-567 | what is counted is the length of the JSON text of the rows |
| DatabaseArchive.ValidateManifest | openstack_platform/database_backups.py:835-887 | the growing `seen` set accepts exactly the manifests of the one format with at most 1000 distinct, sound entries of one kind, each on the port of its place |
| DatabaseArchive.Consume | openstack_platform/database_backups.py:890-933 | an archive is restored exactly when it is the manifest and one matching pair per entry in order and every restore works; whatever happens, what was applied is a prefix of the entries with their own bytes; the counts are exact |
| DatabaseArchive.AcceptedMeans | openstack_platform/database_backups.py:822-931 | an accepted archive member by member: names, sizes, ports, and metadata equal to the length and digest of the payload |
| DatabaseArchive.CountsAreExact | openstack_platform/database_backups.py:930 | the counts are the numbers of isolated instances and of shared servers |
| DatabaseArchive.Emit | openstack_platform/database_backups.py:758-818 | commits exactly when everything fits and the inventory did not change, as the layout of its manifest and payloads |
| DatabaseArchive.CommittedIsAccepted | openstack_platform/database_backups.py:758-933 | every committed archive of a valid manifest is accepted with the same manifest and payloads |
| DatabaseArchive.RoundTrip | openstack_platform/database_backups.py:758-933 | emitting and consuming restores every entry once, in order, with its own bytes |
| DatabaseArchive.NamesAreForced | openstack_platform/database_backups.py:906-932 | a missing, extra, renamed or reordered member is refused |
| DatabaseArchive.NamesAreDistinct | openstack_platform/database_backups.py:866-872 | no two members of an accepted archive share a name, the manifest included |
| DatabaseArchive.MetadataPinsPayloads | openstack_platform/database_backups.py:906-928 | under an injective digest the manifest and metadata members pin every payload |
| RecoveryBundle.VerifyBundle | openstack_platform/recovery_bundle.py:533-628 | succeeds exactly when component files, sizes, digests, total and checksum list equal the sealed manifest, in all three formats |
| RecoveryBundle.VerifiedHead | openstack_platform/recovery_bundle.py:533-575 | a verified bundle carries the sealed manifest of its own name, a known layout, bounded limits and total |
| RecoveryBundle.VerifiedFile | openstack_platform/recovery_bundle.py:576-617 | every component file of a verified bundle is safely named, bounded and recorded with its size and digest |
| RecoveryBundle.VerifiedRecord | openstack_platform/recovery_bundle.py:590-628 | every record of a verified bundle is of a component file, once, and a line of the checksum list |
| RecoveryBundle.VerifiedComponent | openstack_platform/recovery_bundle.py:578-589 | every component of a verified bundle has from one to 64 sound files, and a bundle with keys has a key archive |
| RecoveryBundle.CheckRecords | openstack_platform/recovery_bundle.py:590-622 | the record loop accepts exactly distinct, matching records, and sums them |
| RecoveryBundle.ManifestPinsFiles | openstack_platform/recovery_bundle.py:567-628 | under an injective digest two verified bundles with one manifest hold the same bytes |
| RecoveryBundle.VerificationIsLocal | openstack_platform/recovery_bundle.py:576-590 | verification depends on nothing outside the listed components |
| RecoveryBundle.StrayEntriesAreIgnored | openstack_platform/recovery_bundle.py:576-590 | a verified bundle stays verified with any entry beside its components |
| RecoveryBundle.ImportBundle | openstack_platform/recovery_bundle.py:631-663 | imports exactly what verifies, never over an existing import, with every byte of every component and nothing else, and the copy verifies again |
| RecoveryExport.CopyComponent | openstack_platform/recovery_bundle.py:472-489 | copies exactly the selected files within the file limit and the running total, with a record of each |
| RecoveryExport.Gather | openstack_platform/recovery_bundle.py:466-490 | gathers all components exactly when each is ready and the total fits |
| RecoveryExport.ReadyMeans | openstack_platform/recovery_bundle.py:466-489 | a component is ready exactly when something is selected, every selected file is nonempty and bounded, and together they are sound |
| RecoveryExport.GatheredIsExact | openstack_platform/recovery_bundle.py:491-525 | what is gathered makes a bundle that verifies |
| RecoveryExport.ExportBundle | openstack_platform/recovery_bundle.py:438-530 | succeeds exactly on valid sources within the bounds, in the format, under the names and with the limits they call for, so the final verification never fails on unchanged sources |
| RecoveryExport.RoundTrip | openstack_platform/recovery_bundle.py:438-663 | exporting and importing gives back every selected byte |
| RecoveryEvidence.SelectedIsNewest | openstack_platform/recovery_bundle.py:178-217 | what is selected is the trio of the newest committed database and the trio of the key archive its marker names |
| RecoveryEvidence.SelectionsArePromised | openstack_platform/recovery_bundle.py:178-217 | every selection is a bounded list of distinct, safely named files of the directory, as export assumes |
| RecoveryEvidence.SelectedIsSound | openstack_platform/recovery_bundle.py:243-358 | the selected files pass component validation exactly when the newest committed database and its key archive are consistent |
| RecoveryEvidence.SoundDatabaseExactly | openstack_platform/recovery_bundle.py:255-312 | a sound database file by file: encryption, checksum line, marker name and digest, and the same for the key archive it names |
| RecoveryEvidence.SoundManagedExactly | openstack_platform/recovery_bundle.py:320-358 | sound managed data file by file: which archives each manifest version calls for, encrypted and in the exact checksum list |
| RecoveryEvidence.ReadyExactly | openstack_platform/recovery_bundle.py:466-489 | a database component is ready for export exactly when its newest committed database is there, sound and within the file limit |

## Left out

- Replacement waits, deadlines, user data and console markers: a wait is one observation that may fail.
- Replacement: the restoring start after an unverified stop is sent without looking first; a start of a running server has no effect.
- Replacement of a role while another operation is unfinished: one operation per scope is the journal's own rule.
- ImagePrune.Site.DeletePlanned: journal transactions do not fail.
- Prune plan expiry, drift hash and older plans without fingerprints: comparisons of whole saved values.
- ImagePrune.Site.Operate: the images change through the operation alone; outside changes between attempts are covered by `ReconciliationIsExact`, against any inventory.
- RecoveryBundle.VerifyBundle: the one-mebibyte limits on the manifest and the checksum list are not modelled; 256 records stay below them.
- Teardown.Deployment.Teardown: identities are triples of kind, name and reference; the source joins them with colons into one string.
- RetentionRun.Folder.Prune: sets are visited in any order instead of by name, which generalises it; the `kept` count and log lines are not modelled.
- Durable.Volume.AtomicWrite: the directory's owner check and errors when opening it are not modelled, since they change nothing.
- Acceptance.StateDirectory.RunPlan: the lock file, the request document and the time budget arithmetic are not modelled; running out of time is a refusal.
- BuildLog.TimestampedBuildLog.Write: stamps come from a parameter instead of the clock.
- Pagination: tokens, endpoints, filters and the exact-name lookup on top of the inventory.
- DatabaseArchive.ValidateManifest: the quota, database and resource-row checks that concern one entry alone are one boolean.
- RecoveryExport.ExportBundle: soundness and selection are parameters, which `RecoveryEvidence` instantiates; staging, receipts and directory modes are not modelled.
- RecoveryEvidence.SelectedIsSound: texts are read by given functions, and stems stand for the order of full file names.
- Power.Operation.PowerHost: the console is the whole list of boot markers, not its last lines, and role health is part of the final observation.
- The session pool, the restore commands, release manifests, configuration parsing and all transport code.
