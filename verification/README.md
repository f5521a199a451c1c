# A verified model of the host manager's core

This project models the parts of the backend and of the frontend client whose correctness spans several calls, several
workers or several runs, and proves what they promise.

- **Rollback, snapshots and service sync** share the tables for services, deployment snapshots and rollback events.
  `Tables` holds the rows and what the database enforces: foreign keys with cascading removal and the unique indexes.
  `Rollback` is a step system over these tables. A step is the code between two awaits, so any number of callers,
  workers, syncs, snapshot transactions and host removals interleave freely. What the outside does to a job (SSH results,
  decryption, parsing, clocks) is one arbitrary value that the worker carries. `RollbackInvariant` proves the invariant
  of every step, `RollbackRuns` and `RollbackOutcome` the theorems over whole runs; `RollbackThrows` says when a worker
  throws in the middle of what the others do, and `RequestedTarget` follows a request to its deployment. There each job
  is delivered once; `Redelivery` is the same system with a queue that may deliver any job any number of times, to
  several workers at once, and proves what holds of the tables nevertheless and what becomes of a finished row.
- The same code as its authors wrote it, method by method over mutable tables, is in `Repositories`,
  `DeploymentSnapshots`, `ServicesSync`, `RollbackRequest` and `RollbackJob`. Each method is proved against a direct
  description of its effect, and `RollbackAlone`, `RollbackRequest` and `SyncSteps` prove that the steps of the system,
  when nobody interferes, add up to exactly that description. `RollbackVerdict` and `SyncRecords` then say what a job and
  a sync leave in every table, field by field, in terms of their inputs alone.
- **Printers**: `ShellCommand` (the `docker run` command against a POSIX shell word splitter and docker's option
  reader), `Base64` and `SshKey` (the OpenSSH key files against their decoders).
- **Text recognisers**: `ImageReference`, `DockerPs`, `IpAddress`, over `Text`.
- **State over time**: `Insights` (edge detection), `Alerts` (cooldown and faults), `HostLifecycle` (verification stamp),
  `ApiClient` (one shared token refresh).

`Wrappers` is the usual option datatype and the type of generated ids. `dafny verify dfyconfig.toml` checks everything.

## Where the code and its promises differ

Each of these is proved, with the exact condition or a concrete run.

- The rollback event's documentation says that a row never changes once `completed_at` is set. A second delivery that
  loads the row after it is finished puts it back in progress exactly when no other rollback of the service is active
  (`RedeliveryReopensIff`, `RedeliveryReopensFailedEvent`). One that loaded it before writes its own copy over it:
  `FinishedRowChangesIff` says when, at any moment of any history. So the log and the completion time can be erased
  (`StaleCopyErasesLog`), and a failed event can turn into a success (`LateSuccessReplacesFailure`).
- The failures "Service / Host / Target snapshot no longer exists" can never be stored: what removes these rows removes
  the event too, so the save that should record the failure throws (`GoneIsNeverRecorded`; `HostRemovedMidway` is a run
  that gets there).
- The repository's README says that whatever goes wrong after the start marks the event failed. A job that throws midway
  leaves its event in progress instead. A job that nobody interferes with does so exactly when the key can be read and
  either the configuration cannot, or the containers are recreated but the listing cannot be parsed, or the container
  runs but its id is another row's, or its snapshot or its health log goes wrong (`JobStrandsIff`,
  `DeliveredJobIsStuckIff`; `UnreadableConfigStrands` is an input). The listing cannot be parsed exactly when one of its
  lines is JSON null (`NullLineStrands`). In the midst of what others do, `StepStrandsIff` says at which program point and when
  a step strands the event, in every run.
- So a job whose every part succeeds may end in progress too. The snapshot of a sync, committed between the update and
  the insert of the job's own snapshot transaction, makes the insert violate the unique index (`SnapshotRaceStrands`).
- Such an event, like one whose `queue.add` was refused, stays active for good and blocks every later rollback of the
  service until the host is removed (`FailedAddStrands`, `CrashStrands`, `StuckForever`, `StuckBlocksForever`).
- A sync that lists the recreated container before the worker has saved its service inserts a second row for it. The
  worker's save then violates the unique index and the rollback is stuck (`ListedTooEarlyStrands`,
  `ListedAfterSessionStrands`).
- The repository's README says that a failure halfway leaves a partial log of the commands. The log is never partial: it
  holds all four results when `docker run` or the health check failed, and none when anything failed before
  (`FailedLogHasAllCommandsOrNone`). A broken session is of the second kind (`BrokenSessionLosesLog`;
  `BrokenSessionLogsNoCommand` is an input).
- The shell reads back every configuration and image, but docker takes an image of two or more characters that starts
  with a dash for an option, and runs nothing (`DockerReadsBack`, `OptionLikeImageRejected`).
- Two overlapping checks of one host give what they would give one after the other exactly under the condition of
  `OverlapIsSerialIff`. Otherwise the verification stamp is the second check's time if that got a session too, and lost
  if it did not (`OverlapStamp`; `OverlapLosesVerification` is a concrete pair).
- The public key is meant to be one line. Its comment is the host's name, of which only the length is checked
  (`src/hosts/hosts.service.ts:39`, `src/hosts/dto/create-host.dto.ts:16-20`): it is one line, and reads back as this key
  and comment, exactly when the name has no line break (`PublicKeyReadsBack`). Otherwise what follows the break is a
  line of its own, and may be another key (`CommentReadAsSecondKey`).
- The alert cooldown goes by the rows stored, not by the alerts delivered. Deliveries are spaced if each one's row is
  stored (`DeliveriesAreSpaced`); one whose row cannot be stored goes out again at once (`UnstoredDeliveryRepeats`).
- The job's first two commands take the container's id without quoting it. The shell reads them as meant exactly when
  that id is not empty and holds no blank, quote, backslash or special character (`SentCommandsNameContainer`).
- An empty organisation id is no restriction: the insights are then the global ones (`IdleHostsOfOrg`,
  `OrphanedDomainsOfOrg`, `OrphanedHostsOfOrg`).

## Model

| member | source | states |
|---|---|---|
| RollbackInvariant.StepKeepsInv | src/rollback/rollback.processor.ts:58-250 | every step of every participant, in any state that satisfies it, keeps the invariant that ties the tables, the queue, the callers, the workers' copies and the open transactions together |
| RollbackInvariant.RunKeepsInv | src/rollback/rollback.processor.ts:58-250 | so does every run |
| RollbackInvariant.SaveFailsOnlyIfRemoved | src/rollback/rollback.processor.ts:246-249 | a worker's save of its event fails if and only if the row was removed with its host |
| RollbackInvariant.WorkAroundOthers | src/rollback/rollback.processor.ts:58-218 | a worker's step removes nothing and writes no event but its own |
| Redelivery.MoveKeepsSystem | src/rollback/rollback.processor.ts:58-250 | whatever is delivered again, every step keeps the tables' promises and every worker's references, reuses no id and brings nothing removed back |
| Redelivery.TablesUnderRedelivery | src/migrations/1700300000000-Phase4RollbackAndSnapshots.ts:25-31 | in every interleaving, with any number of deliveries of any job, a service has at most one pending or running rollback event, exactly one current snapshot if it has any, and every event's two snapshots are its own service's |
| Redelivery.SnapshotsUnderRedelivery | src/deployment-snapshots/deployment-snapshots.service.ts:61-80 | in all these interleavings, between any two moments, no snapshot is altered but for its current flag, and one goes only with its service |
| Redelivery.EveryRunIsCovered | src/rollback/rollback.processor.ts:58-65 | the runs with single delivery are among these interleavings |
| RollbackRuns.WorkerSavesNeverCollide | src/rollback/rollback.processor.ts:67-68 | with single delivery no save of a worker ever meets the unique index of active events |
| RollbackRuns.EveryStoredEventIsWellFormed | src/rollback/rollback.processor.ts:130-244 | at every moment of every run: completedAt is set exactly for a terminal status, the log is a beginning of the fixed step order, a success has all five steps, a failure ends in its failure entry |
| RollbackRuns.GoneIsNeverRecorded | src/rollback/rollback.processor.ts:70-88 | a job that finds its service, host or target gone cannot store that: its next save throws and the tables stay |
| RollbackRuns.HostRemovedMidway | src/rollback/rollback.processor.ts:70-74 | removing the host of a started job brings it to that point |
| RollbackRuns.FailedLogHasAllCommandsOrNone | src/rollback/rollback.processor.ts:121-143 | in every run a failed event's log holds a command's result if and only if `docker run` or the health check failed, and then it holds all four in order |
| RollbackRuns.StepProgresses | src/rollback/rollback.processor.ts:220-249 | one step moves an event at most one status forward, or its host's removal takes it |
| RollbackRuns.EventsOnlyMoveForward | src/rollback/rollback.processor.ts:67-68 | between any two moments of any run: the status only goes forward, the log only grows at its end, a terminal row never changes, a removed event never returns |
| RollbackOutcome.StepKeepsHistory | src/deployment-snapshots/deployment-snapshots.service.ts:61-80 | no step alters a snapshot but for its current flag, and a snapshot goes only with its service |
| RollbackOutcome.RunKeepsOutcomes | src/rollback/rollback.processor.ts:159-198 | over every run, what a worker has decided and stored about its service stays true until a sync touches that service |
| RollbackOutcome.SuccessWithoutSyncLeavesTarget | src/rollback/rollback.processor.ts:174-218 | when no sync of the host takes a step between the worker's save of the service and its end, a job that ends succeeded leaves the service on the first listed container with the target's name, which is running, with the target's image and tag, and one current snapshot equal to the target in image and configuration |
| RequestedTarget.AcceptedEventIsAsAsked | src/rollback/rollback.service.ts:46-76 | in every run an accepted caller's event goes to the snapshot that the caller asked for, from one that was the service's current snapshot at some moment, in the name of the user who asked |
| RequestedTarget.RequestedTargetIsDeployed | src/rollback/rollback.processor.ts:174-218 | and when its job saves the service and finishes without a sync of the host in between, that very snapshot is deployed: image, tag, configuration, on the first listed container of its name, on record as this user's deployment |
| Rollback.FindsFirstNamed | src/rollback/rollback.processor.ts:146-146 | the container that a job goes by is the first of the listing with the target's name, or none if there is no such entry |
| RollbackOutcome.FailedJobTouchedNothing | src/rollback/rollback.processor.ts:220-244 | in every run none of the steps of a job that ends failed changed a service or a snapshot |
| RollbackOutcome.FailedAddStrands | src/rollback/rollback.service.ts:66-94 | a queue that refuses the job leaves a pending event that nobody works on |
| RollbackAlone.JobStrandsIff | src/rollback/rollback.processor.ts:102-213 | a job that nobody interferes with and that starts leaves its event in progress if and only if it throws midway, which is said in terms of what the key, the configuration, the session, the listing, the host's rows and the health log give |
| RollbackAlone.DeliveredJobIsStuckIff | src/rollback/rollback.processor.ts:102-213 | in the system, a delivered job alone ends with its event stuck if and only if it throws midway |
| RollbackAlone.NullLineStrands | src/rollback/rollback.processor.ts:145-149 | when the containers are recreated, parsing the listing throws if and only if one of its lines is JSON null, and the event is then left in progress |
| RollbackThrows.WorkerThrowsIff | src/rollback/rollback.processor.ts:58-250 | in every state of the system, a worker's next step throws if and only if the condition of its program point holds |
| RollbackThrows.StepStrandsIff | src/rollback/rollback.processor.ts:58-250 | in every run, a worker's step leaves its event stuck if and only if the event is there and the step throws |
| RollbackThrows.SnapshotRaceStrands | src/deployment-snapshots/deployment-snapshots.service.ts:61-80 | a sync's snapshot that commits between the update and the insert of the worker's transaction leaves the event stuck |
| RollbackAlone.UnreadableConfigStrands | src/rollback/rollback.processor.ts:102-103 | a concrete job whose configuration cannot be read leaves its event in progress |
| RollbackAlone.BrokenSessionLosesLog | src/rollback/rollback.processor.ts:106-128 | a job fails with a broken session if and only if key and configuration can be read and the session breaks, and then none of the four commands sent is logged |
| RollbackAlone.BrokenSessionLogsNoCommand | src/rollback/rollback.processor.ts:106-128 | a concrete such job whose log is the failure entry alone |
| RollbackOutcome.StuckForever | src/rollback/rollback.processor.ts:58-65 | no run of any participants changes such an event, short of removing its host |
| RollbackOutcome.StuckBlocksService | src/rollback/rollback.service.ts:57-64 | while it is there a request for the service that comes to the check or to the insert is refused |
| RollbackOutcome.StuckBlocksForever | src/rollback/rollback.service.ts:57-76 | in every run in which it stays, no caller of the service that has no event yet ever gets one inserted |
| RollbackOutcome.RedeliveryReopensIff | src/rollback/entities/rollback-event.entity.ts:31-36 | a second delivery that loads the row of a finished job changes it if and only if no other rollback of the service is active |
| Redelivery.DeliveryWrites | src/rollback/rollback.processor.ts:67-250 | with any number of deliveries, a worker's step changes the events exactly by what it makes of its own copy, if it saves one, the row is still there and an active status meets no other active event of the service |
| Redelivery.FinishedRowChangesIff | src/rollback/entities/rollback-event.entity.ts:31-36 | at any moment of any such history, a delivery's step changes the row of a finished event if and only if it saves a different one and no index stops it |
| Redelivery.StaleCopyErasesLog | src/rollback/rollback.processor.ts:58-68 | a delivery that loaded the row while it was pending erases the log and the completion time that another one stored, unless another rollback is active |
| Redelivery.LateSuccessReplacesFailure | src/rollback/rollback.processor.ts:211-213 | a delivery about to succeed turns an event that another one marked failed into a success |
| RollbackOutcome.RedeliveryReopensFailedEvent | src/rollback/entities/rollback-event.entity.ts:31-36 | a concrete failed event that is in progress again, its completion time still set |
| RollbackJob.RollbackProcessor.Process | src/rollback/rollback.processor.ts:58-172 | the whole job has exactly the effect and outcome of its direct description, and sends exactly the described commands, for every behaviour of the outside |
| RollbackJob.RollbackProcessor.Execute | src/rollback/rollback.processor.ts:130-168 | from the end of the SSH session: logging, the verdicts on `docker run` and the health check, and the end of the job |
| RollbackJob.RollbackProcessor.Succeed | src/rollback/rollback.processor.ts:174-218 | the service row, the new current snapshot, the health log and the final status, or where an exception stops it |
| RollbackJob.RollbackProcessor.Fail | src/rollback/rollback.processor.ts:220-244 | the failure entry, the final status, the completion time and one alert, nothing else |
| RollbackJob.RollbackProcessor.AppendLog | src/rollback/rollback.processor.ts:246-249 | one entry is added at the end of the stored log |
| RollbackJob.SentCommandRecreatesTarget | src/rollback/rollback.processor.ts:114-119 | the third command, split by the shell and read by docker, asks for the target's configuration and image if and only if the image does not look like an option |
| RollbackJob.SentCommandsNameContainer | src/rollback/rollback.processor.ts:115-116 | the shell splits the first two commands into docker, the subcommand and the container's id if and only if that id is not empty and plain |
| RollbackJob.SentCommandListsAll | src/rollback/rollback.processor.ts:118-118 | the last command is read as `docker ps -a` with one JSON object a line |
| RollbackAlone.StepAdvances | src/rollback/rollback.processor.ts:58-172 | every job ends within twenty steps of its own |
| RollbackAlone.JobAlone | src/rollback/rollback.processor.ts:58-250 | the steps of a job taken alone have the effect and outcome of the direct description: the intermediate saves leave no trace |
| RollbackAlone.AloneIsARun | src/rollback/rollback.processor.ts:58-172 | these steps are a run of the whole system |
| RollbackAlone.JobSucceedsIff | src/rollback/rollback.processor.ts:90-168 | a job succeeds if and only if nothing it needs fails, the first listed container with the target's name is running, and no other row of the host has its id |
| RollbackVerdict.SuccessfulJobEffect | src/rollback/rollback.processor.ts:130-218 | a successful job leaves exactly this in every table: the service moved to the first listed container with the target's name, the new current snapshot, the event with all five entries in order, one health log row |
| RollbackVerdict.FailureReasonIff | src/rollback/rollback.processor.ts:90-168 | each failure reason has exactly one cause in the inputs; a container counts as down by the first entry with the target's name, or for want of one |
| RollbackVerdict.MissingContainerFails | src/rollback/rollback.processor.ts:146-168 | a listing without the target's name fails the job with an unknown container status |
| RollbackVerdict.FailedJobLog | src/rollback/rollback.processor.ts:130-244 | a failed job's row is what it was, completed and failed, with the four results under their own steps, the health check if there was one, and the failure entry |
| RollbackAlone.FailedJobEffect | src/rollback/rollback.processor.ts:220-244 | a failed job changed its own event row only, and was alerted once |
| RollbackRequest.RollbackService.EnqueueRollback | src/rollback/rollback.service.ts:37-95 | a request is accepted if and only if its service is in the organisation, the target is the service's, it has a current snapshot and no active rollback; the new event, the queue and each refusal are exact |
| RollbackRequest.EnqueuedAsAsked | src/rollback/rollback.service.ts:66-76 | the one new event goes from a current snapshot of the service to the snapshot asked for, in the name of the user, and nothing else changes |
| RollbackRequest.ChecksAre | src/rollback/rollback.service.ts:39-64 | each of the four checks is exactly a question about the rows |
| RollbackRequest.InsertWorks | src/rollback/rollback.service.ts:66-76 | without a race the insert of a request that passed the checks meets no constraint |
| RollbackRequest.SecondRequestRefused | src/rollback/rollback.service.ts:57-64 | an accepted request shuts out the next one for its service |
| RollbackRequest.RequestAlone | src/rollback/rollback.service.ts:37-95 | a caller's six steps taken alone are the method |
| DeploymentSnapshots.DeploymentSnapshotsService.CreateSnapshot | src/deployment-snapshots/deployment-snapshots.service.ts:61-80 | the flip and the insert take effect together or not at all, and leave the new row as the only current one |
| DeploymentSnapshots.DeploymentSnapshotsService.FindCurrentForService | src/deployment-snapshots/deployment-snapshots.service.ts:34-36 | finds the service's one current snapshot, or none if there is none |
| DeploymentSnapshots.DeploymentSnapshotsService.FindOneForService | src/deployment-snapshots/deployment-snapshots.service.ts:45-51 | finds a snapshot exactly when it belongs to the service |
| Tables.CommitKeepsTables | src/deployment-snapshots/deployment-snapshots.service.ts:61-80 | a transaction that commits keeps every promise of the tables, also when others wrote between its update and its insert |
| Tables.RemoveHostKeepsTables | src/migrations/1700300000000-Phase4RollbackAndSnapshots.ts:18-51 | cascading removal keeps every promise of the tables |
| Tables.RemoveHostTakesExactly | src/migrations/1700300000000-Phase4RollbackAndSnapshots.ts:18-51 | a host goes with its services, these with their snapshots and events, and nothing else |
| Tables.ClassificationIs | src/services/container-status-classifier.ts:12-29 | each status is given exactly for its kind of text: restarting first, running only if up and not unhealthy, stopped only if not up |
| Text.ContainsIff | src/services/container-status-classifier.ts:15-23 | a text includes another if and only if that stands somewhere in it |
| ServicesSync.ServicesSyncService.Sync | src/services/services-sync.service.ts:44-66 | the whole sync, from the output of `docker ps`, has exactly the effect of its description, and throws exactly when a line of the output is JSON null or a container is listed for a removed host |
| ServicesSync.ServicesSyncService.UpsertService | src/services/services-sync.service.ts:68-121 | one container's row, log row, alert and snapshot |
| ServicesSync.ServicesSyncService.CaptureSnapshotIfImageChanged | src/services/services-sync.service.ts:129-193 | a snapshot is taken exactly when the current one has another image and the inspection succeeds |
| ServicesSync.ServicesSyncService.MarkMissingServicesUnknown | src/services/services-sync.service.ts:202-225 | exactly the unlisted rows that are not unknown already are marked and logged once |
| ServicesSync.SyncedKeepsTables | src/services/entities/service.entity.ts:27-27 | a sync keeps (host, container) unique and every other promise of the tables |
| ServicesSync.SyncIsAMapUpdate | src/services/services-sync.service.ts:55-63 | for every listing, repeated ids included, the two loops are one map update: last entry for the listed, unknown for the unlisted, other hosts and rows already unknown untouched |
| ServicesSync.KeysAfterSync | src/services/services-sync.service.ts:76-97 | the host's containers afterwards are those before and the listed ones |
| SyncRecords.SyncShowsListing | src/services/services-sync.service.ts:68-97 | after any sync the last entry for a container has exactly one row, which shows its name, image and tag, status, ports and check time, under the host's organisation if it is new |
| SyncRecords.UpsertRecords | src/services/services-sync.service.ts:68-193 | one container changes every table exactly so: its row, one log row, an alert from the old status to the new one if they differ, and a snapshot of the listed image and inspected configuration if no current one has that image |
| SyncRecords.MarkingRecords | src/services/services-sync.service.ts:202-225 | exactly the known rows of the host that the listing has not are marked, and each is logged once |
| ServicesSync.RepeatChangesOnlyCheckTimes | src/services/services-sync.service.ts:195-211 | syncing the same containers again changes only the check times of the listed rows |
| ServicesSync.RepeatIsQuiet | src/services/services-sync.service.ts:88-118 | with distinct ids it hands on no alert and logs no missing container, only one log row for each listed container |
| ServicesSync.RepeatCapturesNothing | src/services/services-sync.service.ts:134-137 | once a listed image was captured, a repeated sync takes no further snapshot of that service |
| SyncSteps.SyncIsARun | src/services/services-sync.service.ts:44-225 | the sync is a run of the rollback system's steps, so the theorems over runs cover it |
| SyncSteps.SyncAfterRollback | src/services/services-sync.service.ts:76-97 | after a successful rollback, a sync that lists the container with the target's image updates the same row, adds none and takes no snapshot |
| SyncSteps.ServiceSaveThrowsIff | src/rollback/rollback.processor.ts:184-189 | the worker's save of the service throws if and only if the host is gone or another row has the new container |
| SyncSteps.ListingIsApplied | src/services/services-sync.service.ts:76-97 | the sync's save of a listed container is an enabled step of the rollback system and gives exactly the described state |
| SyncSteps.ListedTooEarlyStrands | src/rollback/rollback.processor.ts:184-189 | a sync that lists the new container at any time from the session to that save gives it another row, and if the row is there when the worker comes to the save, whatever happened in between, the save throws and the event is stuck |
| SyncSteps.ListedAfterSessionStrands | src/rollback/rollback.processor.ts:130-189 | a worker that goes on alone after such a listing ends with its event stuck though everything it did succeeded |
| ShellCommand.EscapedReads | src/rollback/docker-run-command.builder.ts:11-13 | a quoted value of any characters is read by the shell as exactly that value |
| ShellCommand.BuildDockerRunCommand | src/rollback/docker-run-command.builder.ts:21-39 | the loops build the command text, which the shell splits into exactly the intended words |
| ShellCommand.CommandSplits | src/rollback/docker-run-command.builder.ts:21-39 | for every configuration and image the shell meets no unquoted special character and splits into the intended words |
| ShellCommand.DockerReadsBack | src/rollback/docker-run-command.builder.ts:21-39 | docker reads the same configuration and image back if and only if the image does not look like an option |
| ShellCommand.OptionLikeImageRejected | src/rollback/docker-run-command.builder.ts:36-36 | an image that looks like an option leaves docker without an image |
| ShellCommand.LayoutReadsBack | src/rollback/docker-run-command.builder.ts:21-39 | by position every configuration and image is recovered, without exception |
| ShellCommand.LastWordReadsIff | src/rollback/rollback.processor.ts:115-116 | a value put unquoted after plain words is read as itself if and only if it is not empty and every character is plain |
| ShellCommand.CommandTextInjective | src/rollback/docker-run-command.builder.ts:21-39 | different configurations or images never print alike |
| Base64.DecodeOfEncode | src/hosts/ssh-keypair.util.ts:64-64 | decoding inverts encoding for every byte sequence |
| Base64.LetterIs | src/hosts/ssh-keypair.util.ts:64-64 | the letters are those of table 1 of RFC 4648 |
| SshKey.UInt32BE | src/hosts/ssh-keypair.util.ts:13-17 | the buffer holds the four big-endian bytes |
| SshKey.ReadsU32 | src/hosts/ssh-keypair.util.ts:13-17 | they read back as the value |
| SshKey.ReadsString | src/hosts/ssh-keypair.util.ts:19-21 | a length-prefixed string reads back, whatever follows it |
| SshKey.AsciiIs | src/hosts/ssh-keypair.util.ts:36-58 | a text is written as the codes of its characters |
| SshKey.FitsIffCommentFits | src/hosts/ssh-keypair.util.ts:15-15 | every length fits into 32 bits exactly when the comment has at most 2^32 - 139 bytes |
| SshKey.WrapIsFaithful | src/hosts/ssh-keypair.util.ts:65-68 | every line but the last has exactly 70 characters, none is empty, and joined they are the text |
| SshKey.BuildOpenSshPrivateKey | src/hosts/ssh-keypair.util.ts:31-71 | the loop builds the file, which a reader of the format turns back into the key and comment; no file exactly when a length does not fit |
| SshKey.PrivateKeyReadsBack | src/hosts/ssh-keypair.util.ts:31-71 | stripping the armour, unwrapping, decoding and reading, against the bytes that the format prescribes, with equal check integers and padding 1, 2, .. to a multiple of eight, gives back public key, seed and comment |
| SshKey.PublicKeyReadsBack | src/hosts/ssh-keypair.util.ts:73-77 | read line by line, the public key text is one line and gives back key and comment, spaces included, if and only if the comment has no line break; its first key is this one always |
| SshKey.CommentReadAsSecondKey | src/hosts/ssh-keypair.util.ts:73-77 | a concrete comment that makes the text two keys |
| SshKey.KeyPairAgrees | src/hosts/ssh-keypair.util.ts:31-77 | the first public key read is the private key's, and the only one when the comment has no line break |
| ImageReference.SplitLosesNothing | src/services/docker-ps-parser.ts:75-97 | image and tag put together are the input, and a tag holds no slash, colon or at sign |
| ImageReference.SplitRecoversTag | src/services/docker-ps-parser.ts:84-96 | a tag appended to any repository without a digest, registry port included, is recovered |
| ImageReference.SplitFindsTagIff | src/services/docker-ps-parser.ts:69-74 | a tag is reported if and only if the reference has one |
| Text.TrimIs | src/services/docker-ps-parser.ts:28-31 | what is left of a trimmed text is the one part that stands between white space and has none at its ends |
| DockerPs.ParseDockerPsOutput | src/services/docker-ps-parser.ts:27-46 | the loop collects and counts what the lines give one by one, and throws when one of them does |
| DockerPs.ListsWhatIsPrinted | src/services/docker-ps-parser.ts:60-66 | containers printed one a line, each field under its own JSON key, are listed exactly, in order, with nothing skipped |
| DockerPs.SkippedIff | src/services/docker-ps-parser.ts:49-58 | a line is skipped if and only if it is no JSON, or its ID, Names, Image or Status is missing or empty |
| DockerPs.ListedOfJoined | src/services/docker-ps-parser.ts:22-26 | two outputs joined by a newline give the containers of both and the sum of the skipped lines |
| DockerPs.UnparseableLineIsolated | src/services/docker-ps-parser.ts:22-26 | a bad line costs one skipped line and changes nothing else |
| DockerPs.EveryLineCounts | src/services/docker-ps-parser.ts:36-43 | containers and skipped lines add up to the non-blank lines, and the parser throws exactly when a line is JSON null |
| DockerPs.ThrowsIffNullLine | src/services/docker-ps-parser.ts:27-46 | the same of the output itself: it throws if and only if some line that is not blank is, trimmed, JSON null |
| IpAddress.OctetIsPrintedByte | frontend/src/lib/ipAddress.ts:1-1 | the octet pattern matches exactly the decimal printings of 0 to 255 |
| IpAddress.Ipv4PatternIsExact | frontend/src/lib/ipAddress.ts:1-1 | the address pattern matches exactly the IPv4 addresses of section 3.2.2 of RFC 3986 |
| IpAddress.AcceptsExactlyIpv4 | frontend/src/lib/ipAddress.ts:8-14 | with a dot in it, a value is accepted if and only if it trims to such an address |
| IpAddress.AcceptsColonsIff | frontend/src/lib/ipAddress.ts:3-18 | without a dot, it is accepted if and only if it trims to hexadecimal digits and colons, a colon among them |
| IpAddress.DottedIsUnambiguous | frontend/src/lib/ipAddress.ts:1-1 | an accepted text names one address |
| Insights.InsightsService.EvaluateFlagTransitions | src/insights/insights.service.ts:169-197 | the two loops raise one alert for each newly matching entity and leave the flag's rows active for exactly the matching ones, other flags untouched |
| Insights.AlertsAreRisingEdges | src/insights/insights.service.ts:163-168 | over every history of runs with distinct ids, an entity is alerted for a flag exactly as often as it newly matched |
| Insights.ActiveAfterRuns | src/insights/insights.service.ts:190-196 | after every history the active rows of a flag are the entities of its last run |
| Insights.ComputeIdleHosts | src/insights/insights.service.ts:47-69 | the set-based query is the quantified definition: healthy, old enough, no running service |
| Insights.ComputeOrphanedDomains | src/insights/insights.service.ts:71-90 | likewise: no host linked, or an address that is no host's |
| Insights.ComputeOrphanedHosts | src/insights/insights.service.ts:92-110 | likewise: no domain of any organisation linked to it |
| Insights.IdleHostsOfOrg | src/insights/insights.service.ts:53-55 | an organisation's idle hosts are those of all restricted to it; for an empty id they are those of all |
| Insights.OrphanedDomainsOfOrg | src/insights/insights.service.ts:73-75 | likewise its orphaned domains |
| Insights.OrphanedHostsOfOrg | src/insights/insights.service.ts:94-96 | likewise its orphaned hosts |
| Insights.InsightsService.RunDailyCheck | src/insights/insights.service.ts:128-161 | a day's job is the three queries over all organisations, each followed by its evaluation |
| Insights.DailyAlertsAreRisingEdges | src/insights/insights.service.ts:128-197 | over every sequence of days, the tables in any state, an entity is alerted for a flag exactly as often as it came to meet the flag's own definition |
| Insights.EveryAlertIsTrue | src/insights/insights.service.ts:128-189 | over any days every alert is of a host or domain of the alerted organisation that met the flag's definition on some day, under the condition that rules for it are made for |
| Alerts.AlertEvaluationService.IsWithinCooldown | src/alerts/alert-evaluation.service.ts:140-151 | within the cooldown exactly when a SENT row of the rule and entity is younger than it |
| Alerts.AlertEvaluationService.EvaluateRule | src/alerts/alert-evaluation.service.ts:115-138 | every fault ends in one FAILED row; within the cooldown there is none |
| Alerts.AttemptIs | src/alerts/alert-evaluation.service.ts:115-176 | an evaluation within the cooldown attempts no row, and any other one row of its rule and entity, SENT exactly if the query answered, the configuration could be read and the adapter returned success |
| Alerts.SentAttemptsAreDeliveries | src/alerts/alert-evaluation.service.ts:115-151 | over every run the SENT attempts of a rule and entity are decided by the stored times of earlier ones and what the outside did, nothing else |
| Alerts.NoSuccessStartsNoCooldown | src/alerts/alert-evaluation.service.ts:131-151 | a run without a successful delivery attempts no SENT row and suppresses nothing that was not suppressed before |
| Alerts.AlertEvaluationService.Dispatch | src/alerts/alert-evaluation.service.ts:99-113 | visits every matching rule in turn, whatever happened to the ones before |
| Alerts.AlertEvaluationService.EvaluateTransition | src/alerts/alert-evaluation.service.ts:55-77 | an unchanged status, a type without a condition or unreadable rules change nothing, and everything else is one dispatch that never throws |
| Alerts.ConditionsAreDistinct | src/alerts/alert-condition-builder.ts:13-29 | the conditions of different entity types or statuses never clash |
| Alerts.EveryConditionIsMetByOneChange | src/alerts/alert-condition.ts:7-17 | each condition of the fixed list that is a change of status is met by exactly one change |
| Alerts.DispatchAttemptsEachRuleOnce | src/alerts/alert-evaluation.service.ts:106-112 | for every rule table and every pattern of faults, a dispatch attempts exactly one log row for each matching rule not in cooldown and none for any other rule |
| Alerts.FailedRowsNeverMatter | src/alerts/alert-evaluation.service.ts:142-149 | erasing every FAILED row changes no later decision of any run |
| Alerts.AlertsAreSpaced | src/alerts/alert-evaluation.service.ts:140-151 | without overlap and with a clock that never goes back, two stored SENT rows of a rule and entity are at least its cooldown apart |
| Alerts.AlertsPerWindow | src/alerts/alert-evaluation.service.ts:140-151 | so a window of T milliseconds holds at most T / cooldown + 1 stored SENT rows |
| Alerts.StoredIffDelivered | src/alerts/alert-evaluation.service.ts:131-176 | over every run the stored SENT rows are all the deliveries if and only if each delivery's row was stored |
| Alerts.DeliveriesAreSpaced | src/alerts/alert-evaluation.service.ts:131-151 | then the deliveries themselves are spaced, and bounded in every window |
| Alerts.UnstoredDeliveryRepeats | src/alerts/alert-evaluation.service.ts:152-176 | a concrete run that delivers twice at the same moment because the log cannot be written |
| ApiClient.StepKeepsInv | frontend/src/lib/apiClient.ts:27-88 | every step of every request and refresh keeps the invariant of the module variable and the requests |
| ApiClient.AtMostOneRefreshInFlight | frontend/src/lib/apiClient.ts:34-51 | in every interleaving at most one refresh is unsettled |
| ApiClient.WaitersAgree | frontend/src/lib/apiClient.ts:53-53 | all requests resumed by one refresh saw the same outcome |
| ApiClient.AtMostOneRetry | frontend/src/lib/apiClient.ts:78-88 | a request is sent at most twice and waits at most once, is sent again if and only if its refresh gave a token, and one with skipAuth does neither |
| ApiClient.RefreshesBounded | frontend/src/lib/apiClient.ts:80-81 | there are never more refreshes than requests answered 401 |
| ApiClient.LateComersJoin | frontend/src/lib/apiClient.ts:34-35 | a request answered 401 during a refresh joins it |
| ApiClient.RetryCarriesNewToken | frontend/src/lib/apiClient.ts:42-84 | in every run a request that waited for a refresh is sent again with the token that it gave, unless the client is reconfigured or a later refresh is answered |
| ApiClient.TokenIsStored | frontend/src/lib/apiClient.ts:42-47 | over every run the stored token is told by the logins, logouts and answered refreshes alone |
| ApiClient.FirstSendCarries | frontend/src/lib/apiClient.ts:64-70 | the first send carries the stored token, and none with skipAuth |
| ApiClient.ResultIsLastAnswer | frontend/src/lib/apiClient.ts:78-105 | in every run a response is the last answer and is 401 only after a retry or with skipAuth, and a session ends only on 401 without a usable token |
| ApiClient.ApiClient.RefreshAccessToken | frontend/src/lib/apiClient.ts:29-54 | the module variables change exactly as in the step system |
| ApiClient.ApiClient.OnResponse | frontend/src/lib/apiClient.ts:78-88 | so does the code from an answer to the next await |
| HostLifecycle.Host.CheckHost | src/health-check/health-check.processor.ts:90-115 | one check saves exactly the described row and names the transition |
| HostLifecycle.LifecycleOfCreatedHost | src/health-check/health-check.processor.ts:100-105 | over every sequence of checks: the stamp is the time of the first session and never changes, pending setup means never verified, healthy or degraded means verified, a verified host never waits for setup again |
| HostLifecycle.StatusIsLastOutcome | src/health-check/health-check-status-mapper.ts:35-88 | the status is decided by the last check and by whether any earlier one got a session |
| HostLifecycle.StatusAfterChecks | src/health-check/health-check-status-mapper.ts:35-88 | after any checks of a new host each status is given exactly for one kind of last check, said of its session and exit codes and of whether there ever was a session |
| HostLifecycle.OverlapIsSerialIff | src/health-check/health-check.processor.ts:83-105 | two overlapping checks equal the serial ones if and only if the row was verified, the first got no session, or the second got one at the same time |
| HostLifecycle.OverlapStamp | src/health-check/health-check.processor.ts:100-105 | of a host not yet verified, overlapping checks leave the second one's stamp or none, where serial ones leave that of the first session |
| HostLifecycle.OverlapLosesVerification | src/health-check/health-check.processor.ts:83-105 | a concrete pair that loses the stamp |

## Left out

- Liveness: nothing is claimed about an event being finished at all; the stuck events above show why.
- Second deliveries in the claims about an event's own life: how its row, its log and its outcome develop is claimed for
  jobs that are delivered once. `FinishedRowChangesIff` says when it fails otherwise.
- RollbackJob.RollbackProcessor.Process: leaves out the checks for a missing service, host or target, which cannot fail
  while nobody interferes; the step system has them.
- RollbackInvariant.StepKeepsInv: a sync in the step system may save any row and take any snapshot of its service, which
  is more than the code does; `SyncIsARun` shows that the code's sync is among these runs.
- Database faults other than constraint violations inside the sync, the insights job and the request; in the rollback job
  a failing health log is an input.
- A health check that saves its host after the host was removed would insert it again; removal is final here.
- Removal of users and organisations, and the rows that it takes along.
- Timestamps and message texts of log entries and alerts, and the free-form fields of health log rows.
- The sync and the rollback job hand a transition on; that it reaches `Alerts` is not part of their tables.
- Encryption: a configuration either decrypts to what was stored or throws; keys are inputs and not generated.
- JSON text: parsing one line of a listing is an arbitrary function to a value with five optional fields, `null`, or an
  error. Fields are strings, and fields of other types are not part of this model.
- Inspecting a container: the parser of `docker inspect` is an input that gives a configuration or nothing.
- The encoding of an SSH key's comment from text to bytes; the private key's comment is a byte sequence.
- NUL: the splitter treats it as an ordinary character, while no word of a real shell can hold it.
- Double quotes, expansions and operators of the shell outside single quotes: the splitter gives no answer for them, and
  no command that is built meets any.
- What an IPv6 address is: the second alternative of the address check is a permissive shape, and only that is stated.
- SSH, HTTP, DNS, WHOIS, TLS, Slack and Redis, controllers, access control, rate limiting, overview counts, cloud accounts
  and the user interface.
