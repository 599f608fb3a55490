# Starryeyes: a verified model of upload, admission, transcoding and recovery

This project models the durable core of the Starryeyes media conversion service
and proves properties of it for every input, every interleaving and every
crash. Three programs are modelled: the job engine (`main.go`), the manifest
backfill (`manifest.go`) and the automatic compression planner
(`compression.go`), together with the upload loop of the demo client.

`dafny verify dfyconfig.toml` checks everything.

## How the engine is modelled

A **job** (`Jobs.Job`) bundles what the database and the disk hold about one
upload: its row in `jobs`, its rows in `chunks`, its row in `reservations`, the
spool files `input.part` and `input`, and its output directory. Every SQL
statement is a function on jobs; a spool file (`Files.File`) is its bytes and
the set of positions the disk may still forget.

An **actor** (`Engine.Actor`) is a goroutine: a program counter with its
locals. One step of an actor is one SQL statement or transaction, one file
operation, one lock acquisition or one semaphore operation. The locks an actor
holds are read off its program counter (`Engine.Held`): admission, lifecycle
stripes with readers and writers, chunk stripes, schedule. A lock that would
conflict with another thread's disables the step. `Engine.Choice` is what the
outside world decides in a step: whether a read, a write, the disk-space check,
the probe or the encoder succeeds, how many bytes a read delivers, and which of
several rows a loop visits next.

The **system** (`Engine.State`) is the shared state and a sequence of threads.
Its events are: a thread runs one step, time passes, a job is created, a
request or a collector tick arrives, the process crashes, the service starts
again. A crash drops all threads and locks. It may be a kill, which loses no
byte and leaves what was unsynced unsynced, or a power loss, which may lose
unsynced bytes, unsynced directory entries and the renames of the input and of a
manifest, and may bring removed files of an ended job back. A start runs
`recover` before the service listens, and may change the configuration. A run
begins with nothing, or with a database that a backfill rebuilt from the
service's own output (`Disaster.RebuiltIsInitial`), so every theorem about runs
also covers the service after a disaster.

The **proof** is by rely and guarantee. `Safety.Permit` says who may change a
job in which state and into what; `Safety.ActorInv` says what an actor relies
on at its program counter. `SafetyActors.StepKeeps` shows that every step stays
within its permission and establishes the actor's next rely,
`SafetyStable.Stable` that a rely survives every step of every other actor, and
`SafetySystem.ReachableSafe` concludes for all reachable states. The other
modules build on it and on `Effects`, the table of everything a step may do to a
job: `Capacity` (conservation), `Uploads` (verified bytes, end to end),
`Lifecycle` (transitions, expiry), `Ownership`, `Scheduler`, `Admission`,
`Deadlock`, `Recovery`, `Disaster`. `Causes` looks back along a run
(`Traceback.Entered`): what a job has reached was earned by the steps that have
to succeed for it, and a failure goes back to a step that failed. `Witness` goes the other way: it builds runs,
step by step, that reach the states in which the service breaks a promise.

`Server.Service` is the same engine as sequential code: a class whose fields
are the tables, and whose methods are the handlers and background routines with
their loops. What the outside world decides (whether a file can be read, what an
encoder wrote) is a parameter, so the contracts say for each case what becomes of
every job, field by field. Each contract also says that the effect is a run of the
corresponding actor (`Traces.At`), and `Sequential.WalkIsExecution` that such a
run is an execution of the system, so what is proved of the step machine holds
of the code. `Client.Resume` is the client's loop against that class, and
`Manifests.Database` the backfill's loop over the output directory.

## What was found

- **A power loss can take a completed job.** The manifest is synced, the
  artifact it describes is not, by anybody (`Disaster.NeverSynced`). A job
  completed since the last crash can be lost if and only if its artifact is not
  empty (`Disaster.CompletedIsFragile`); in general a completed job survives
  every crash if and only if all bytes of its artifact have reached the disk
  (`Disaster.PowerLoss`). `Witness.ArtifactLost` is a run that loses one.
  Killing the process, at any moment and however often, loses nothing
  (`Disaster.KillIsGentle`, `Disaster.ManifestsValid`).
- **A crash between the statements of `release` leaks capacity**
  (`Witness.LeakHappens`), and never grants too much:
  `Capacity.CapacityConserved` accounts for every byte, and
  `Capacity.CrashFreeExact` shows that nothing leaks without a crash. The same
  crash leaves a reservation row behind, and a job with one can never be admitted
  again: the row cannot be inserted twice (`Server.Service.ReservePending`).
- **A crash between completion and release makes the job's own manifest a
  conflict** (`Witness.ReservationKept`). A completed job matches its own manifest
  if and only if its reservation has been released (`Disaster.OwnManifest`).
- **A failed job may leave a valid manifest.** If syncing the directory fails
  after the rename, the job fails and keeps its manifest and artifact
  (`Engine.WorkerStep`), and a later backfill completes it.
- **A picture with a side of one pixel is fitted to a side of zero**; both sides
  are usable exactly if both source sides are at least two (`Planner.UsableIff`).
- **Below a minimal total bitrate the transcode plan exceeds its own target**;
  `Planner.PlanWithinBudget` says exactly when it does not.
- `created_at` is compared as text, which does not order instants: admission is
  first come, first served in that order, and no job with a later key overtakes
  (`Admission.NoOvertaking`).
- The directory entry of a spool file is never synced, so a power loss may take
  the whole file of an upload with verified chunks. Its bytes never change, but
  recovery then fails the job (`Recovery.RecoveryDone`).
- STAGED, PROBING and VALIDATED are not resumed after a crash; only FINALIZING,
  STARTING and TRANSCODING are (`Ownership.SingleOwner`).

## Assumptions

- SQL statements and transactions are atomic, durable and do not fail. Each is
  one step: the single database connection is held within a step only, and
  `Deadlock.LocksInOrder` shows that such a step takes no lock.
- net/http delivers at most Content-Length bytes of a body, and `pwrite` writes
  all it is given (its result is not looked at).
- The clock does not run backwards. The upload retention is positive.
- The job's output directory can be synced, so a completed artifact's name is
  durable when its manifest is. Only that directory is synced (manifest.go:118):
  its own entry in the directory of all outputs, made at main.go:1049, never is.
  The model keeps it through every crash; without this even an artifact that is
  on disk, manifest and all, could disappear in a power loss.
- A power loss that undoes the rename of a manifest leaves none, not one that an
  interrupted earlier run of the job had written.
- Removing a spool directory succeeds.
- Job ids are 128-bit numbers, and new ones are fresh.
- SHA-256 and the stripe hash are functions without further properties. Freedom
  from collisions is not assumed anywhere: where a conclusion needs a digest to
  tell two byte strings apart, the theorem exhibits the colliding pair otherwise
  (`Uploads.EndToEnd`, `Recovery.IntactFilesAgree`, `Lifecycle.ReplayIsFaithful`).
- The duration of a source is an exact fraction, and the two floating-point
  roundings of the planner are exact.

## Model

| member | source | states |
|---|---|---|
| Chunks.ChunkInside | cmd/starryeyes/main.go:1296-1302 | A chunk number is below the expected count exactly if its offset lies inside the file, and then its bytes do too |
| Chunks.ChunksDisjoint | cmd/starryeyes/main.go:358-362 | Two different chunks of a job never share a byte of the spool file |
| Chunks.ChunkOf | cmd/starryeyes/main.go:1296-1302 | Every byte of the file belongs to the chunk with number offset / chunk size |
| Chunks.CountersAgree | cmd/starryeyes/main.go:425 | `received=size`, `chunks=expected` and "every number below expected has a row" say the same, and the counters never exceed their bounds |
| Files.PwriteExtends | cmd/starryeyes/main.go:359-368 | A write right after what is already there extends it by the new bytes |
| Files.PwriteElsewhere | cmd/starryeyes/main.go:362 | A write leaves every disjoint region's bytes and durability alone |
| Files.SurvivesRegion | cmd/starryeyes/main.go:381-384 | A synced region keeps its bytes through a crash |
| Spec.AcceptedIsEncodable | cmd/starryeyes/main.go:1470-1538 | Every accepted specification has a legal container, codec, encoder and audio rate, and a CRF inside its codec's range |
| Spec.AcceptedExactly | cmd/starryeyes/main.go:1470-1581 | A request is accepted exactly if preset, size, name and digest are valid and what it asks for, each field as given or else as its preset has it, is offered; and that is what is stored |
| Spec.CrfExactly | cmd/starryeyes/main.go:1616-1626 | The CRF is the given one, or the codec's highest less the whole part of the quality's share of it |
| Spec.EstimatesExactly | cmd/starryeyes/main.go:1653-1661 | The estimates are the whole parts of 60 % (archive: 100 %) of the input and of a tenth of that |
| Spec.QualityMonotone | cmd/starryeyes/main.go:1607-1626 | More quality never yields a higher CRF, and the ends of the scale meet the ends of the range |
| Spec.MergeLaws | cmd/starryeyes/main.go:1540-1581 | An empty request gets the preset, a complete one gets what it gave, and merging is associative in everything the encoder reads |
| Spec.NormalizeIsProjection | cmd/starryeyes/main.go:1470-1580 | A stored specification, submitted again, is accepted unchanged |
| Spec.Reservation | cmd/starryeyes/main.go:1653-1661 | The spool reservation is the input size; the estimates stay below it |
| Spec.ArtifactExt | cmd/starryeyes/main.go:1053 | The artifact name of an accepted specification is a plain name with its container as extension |
| Spec.ExtExactly | cmd/starryeyes/manifest.go:256 | The extension runs from the last dot to the end, and is empty exactly if there is none |
| JobSteps.WriteKeeps | cmd/starryeyes/main.go:359-368 | Writing inside an unverified chunk keeps the job's invariant, verified bytes included |
| JobSteps.CommitKeeps | cmd/starryeyes/main.go:391-401 | The chunk transaction adds a row for bytes that are on disk with that digest, and keeps the accounting |
| JobSteps.RenameKeeps | cmd/starryeyes/main.go:453-459 | The rename carries the verified bytes to `input` |
| JobSteps.StageKeeps | cmd/starryeyes/main.go:473 | Staging records a well-formed digest |
| JobSteps.RecordKeeps | cmd/starryeyes/main.go:1112-1120 | Recording completion leaves a manifest that describes the job, with the same completion time |
| JobSteps.ExpireKeeps | cmd/starryeyes/main.go:892-919 | The transactions of expiry and of a rejected upload keep the job's invariant |
| JobSteps.AdmittedKeeps | cmd/starryeyes/main.go:618 | The guarded admission UPDATE makes an accepting job with its whole reservation |
| SafetySteps.PutOk | cmd/starryeyes/main.go:293-414 | Each step of a PUT keeps the invariant, stays inside its chunk's region and row, and sets up its next step |
| SafetySteps.CompleteOk | cmd/starryeyes/main.go:415-448 | Completing moves a whole upload to FINALIZING and starts its only finalizer |
| SafetyActors.FinalizeOk | cmd/starryeyes/main.go:449-524 | Each step of a finalizer changes only its own job and leaves it where the next step expects it |
| SafetyActors.WorkerOk | cmd/starryeyes/main.go:1019-1124 | Each step of a worker changes only its own job, in the state its unguarded updates assume |
| SafetyActors.AdmitOk | cmd/starryeyes/main.go:590-628 | Each step of the admission loop changes only pending jobs, and admits only with the spool file in place |
| SafetyActors.CollectOk | cmd/starryeyes/main.go:851-925 | Each step of the expiry pass changes only uploads whose deadline has passed |
| SafetyActors.RecoverOk | cmd/starryeyes/main.go:729-764 | Each step of recovery keeps the invariant and establishes what the service relies on when it listens |
| SafetyActors.StepKeeps | cmd/starryeyes/main.go:56-66 | Every step of every goroutine keeps the database invariant, stays within its permission, and establishes its next rely |
| SafetyStable.Stable | cmd/starryeyes/main.go:61-66 | What a goroutine relies on survives every step of every goroutine that can run beside it |
| SafetyStable.PutJobStable | cmd/starryeyes/main.go:300-305 | While a PUT writes its chunk, nobody else changes the chunk's bytes or row |
| SafetySystem.NextSafe | cmd/starryeyes/main.go:729-764 | Every event, crashes and restarts included, keeps the system safe |
| SafetySystem.CrashJobInv | cmd/starryeyes/main.go:381-391 | A crash at any point leaves every job's invariant true, verified bytes included |
| SafetySystem.ReachableSafe | cmd/starryeyes/main.go:56-66 | Every reachable state is safe |
| Capacity.StepBalanced | cmd/starryeyes/main.go:1134-1147 | Every step keeps the books: the capacity row gains what the jobs and the goroutine's release in flight gain |
| Capacity.CapacityConserved | cmd/starryeyes/main.go:160-163 | sum(jobs.reserved) <= capacity.reserved <= capacity.total in every reachable state; the difference is the releases in flight plus what crashes leaked; each job holds nothing or its size |
| Capacity.CrashFreeExact | cmd/starryeyes/main.go:1134-1147 | Without crashes the difference is exactly the releases in flight |
| Capacity.ClampNeverFires | cmd/starryeyes/main.go:1142 | The clamp in MAX(reserved-?,0) never fires |
| Capacity.ReleasedOnce | cmd/starryeyes/main.go:1134-1147 | While a goroutine gives a job's reservation back, the job holds nothing and nobody else gives it back |
| Capacity.WorkersBounded | cmd/starryeyes/main.go:1001-1020 | The semaphore counts the live workers exactly, and they never exceed the configured number |
| Capacity.SendNeverBlocks | cmd/starryeyes/main.go:1018 | The semaphore send never blocks |
| Uploads.StepChunkKept | cmd/starryeyes/main.go:300-414 | No step of any goroutine changes a verified chunk of a job that has not ended |
| Uploads.CommitVerifies | cmd/starryeyes/main.go:377-396 | The commit of a PUT verifies exactly the bytes it was sent, which hash to the announced digest |
| Uploads.VerifiedForever | cmd/starryeyes/main.go:300-414 | Once verified, a chunk's row and bytes stay the same until the job ends, through every interleaving and crash |
| Uploads.VerifiedHash | cmd/starryeyes/main.go:300-414 | In every reachable state each verified chunk hashes to its digest over exactly its region, in every spool file of the job |
| Uploads.AccountingAgrees | cmd/starryeyes/main.go:391-425 | For every accepting job the counters are the sum and number of its rows, and `complete` succeeds exactly if every chunk number has a row |
| Uploads.WholeFile | cmd/starryeyes/main.go:425 | A whole upload whose chunks have the digests of the client's slices, none of them forged, is the client's file |
| Uploads.EndToEnd | cmd/starryeyes/main.go:449-476 | Over any run in which the client announces its slices' digests, an accepted upload is the client's file, its recorded digest is the file's, and it never contradicts the requested digest; or the run itself shows a chunk that differs from the client's slice and has its digest |
| Effects.StepEffect | cmd/starryeyes/main.go:293-1147 | The only ways any step changes a job: its state along a listed transition, its deadline by a full retention period, its rows by one commit or when it ends, its spool by its PUTs, the rename or removal, its digest by staging; completed jobs keep all but spool and reservation |
| Lifecycle.NextMoves | cmd/starryeyes/main.go:30-44 | Every change of a job's state is one of the listed transitions, made by the listed goroutine |
| Lifecycle.EdgesClimb | cmd/starryeyes/main.go:737 | Every transition climbs in rank and leaves a state that is not terminal, except the requeue of a restart |
| Lifecycle.MonotoneLifetime | cmd/starryeyes/main.go:729-764 | Between two restarts a job's rank never decreases and its state changes at most ten times |
| Lifecycle.EndsForGood | cmd/starryeyes/main.go:813-820 | Terminal states are absorbing, and a job past its upload never expires, crashes included |
| Lifecycle.NextKeysUnique | cmd/starryeyes/main.go:216-244 | Every event keeps: at most one job answers to an idempotency key, and each job keeps the digest of its own request |
| Lifecycle.ReplayIsFaithful | cmd/starryeyes/main.go:200-225 | A replayed request gets the only job with its key, and that job has this request's input and specification, unless two different requests have one digest |
| Lifecycle.ExecutionKeysUnique | cmd/starryeyes/main.go:160-163 | In every state of every run idempotency keys are unique and each job has the digest of its request |
| Lifecycle.ExpiryIsEarned | cmd/starryeyes/main.go:883-916 | A job expires only with its deadline past and no PUT for it in flight; its chunk rows, reservation row and share of the capacity go with it |
| Lifecycle.RetentionHonoured | cmd/starryeyes/main.go:396 | An upload whose deadline is a retention period away is not expired before that period is over, whatever runs and crashes in between |
| Lifecycle.ActivityExtends | cmd/starryeyes/main.go:330-332 | A PUT that commits, or finds its chunk verified, moves the deadline a retention period ahead and keeps rows and spool |
| Ownership.OwnerKept | cmd/starryeyes/main.go:1010-1019 | A job being processed keeps an owner from step to step |
| Ownership.SingleOwner | cmd/starryeyes/main.go:737-762 | No job ever has two owners; after boot every FINALIZING, STARTING and TRANSCODING job has exactly one |
| Ownership.UnguardedUpdates | cmd/starryeyes/main.go:1035-1117 | The two worker UPDATEs without a state guard do what guarded ones would, and nobody else owns the job |
| Scheduler.ScheduleEnds | cmd/starryeyes/main.go:1005-1009 | A schedule call ends only with no free slot or nothing queued |
| Scheduler.NextWorkConserving | cmd/starryeyes/main.go:1001-1020 | Every event keeps: a queued job and a free slot coexist only while a schedule call is pending or running |
| Scheduler.NoLostWakeup | cmd/starryeyes/main.go:1001-1020 | A quiescent state is work-conserving: nothing queued, or every slot busy |
| Admission.HeadExists | cmd/starryeyes/main.go:632-636 | If any unexpired job is pending the admission query finds a head |
| Admission.HeadMeans | cmd/starryeyes/main.go:632-636 | The head is pending, unexpired, and has the least stored time of creation of all such jobs, ties decided by id |
| Admission.NextAttended | cmd/starryeyes/main.go:590-628 | Every event keeps: a scan is pending, or the last look at the queue is still good |
| Admission.NoLostAdmission | cmd/starryeyes/main.go:590-670 | At quiescence, unless the disk check refused, no pending job was unexpired at the last look, or the first in the queue does not fit in what is left |
| Admission.AdmittedWasHead | cmd/starryeyes/main.go:590-628 | Every admitted job had, when it was selected, the least stored time of creation of all that waited, ties decided by id; its admitter did nothing else in between |
| Admission.NoOvertaking | cmd/starryeyes/main.go:632-636 | While a job waits, no job with a later stored time of creation, or the same and a larger id, is admitted unless it had been selected before |
| Deadlock.LocksInOrder | cmd/starryeyes/main.go:61-66 | Whatever a goroutine holds ranks below what it waits for: admission, lifecycle, chunk, schedule, and last the database connection; a step that uses the connection takes no lock |
| Deadlock.OneStripe | cmd/starryeyes/main.go:1306-1316 | A goroutine holds at most one stripe of a family |
| Deadlock.StepTakes | cmd/starryeyes/main.go:61-66 | A step takes no lock but the one waited for |
| Deadlock.NoWaitCycle | cmd/starryeyes/main.go:61-66 | No cycle of waits exists, whoever has the connection, colliding stripes and waiting writers included, and no chain is longer than eight |
| Deadlock.SomebodyMoves | cmd/starryeyes/main.go:61-66 | In every reachable state with work left, some working goroutine waits on nobody and can run |
| Recovery.NextTidy | cmd/starryeyes/main.go:769-802 | Every event keeps: a spool of an ended job has somebody who will remove it |
| Recovery.RecoveryDone | cmd/starryeyes/main.go:729-802 | After reconciliation uploads have spool files of exact size, ended jobs no abandoned spool, and nothing is STARTING or TRANSCODING before scheduling |
| Traceback.Entered | cmd/starryeyes/main.go:729-764 | A goroutine inside a stretch of its code entered it with an earlier step and no crash came since |
| Causes.FailedForCause | cmd/starryeyes/main.go:1125-1133 | Whenever a job turns FAILED, its goroutine has been failing it since a step that failed for one of the listed reasons |
| Causes.IntactUploadSurvives | cmd/starryeyes/main.go:927-963 | An upload in progress turns FAILED only if the inspection of a restart could not look at its file, or found it missing or of another size |
| Causes.CompletedWasEncoded | cmd/starryeyes/main.go:1022-1121 | Whenever a job turns COMPLETED, its worker has got a cgroup, run an encoder that succeeded, and written and synced the manifest; artifact, digest and size are those of that encoder's output |
| Causes.QueuedWasProbed | cmd/starryeyes/main.go:480-524 | A job is queued, other than by a restart, only after a probe accepted its input |
| Causes.StartedWasOldest | cmd/starryeyes/main.go:1007 | Whenever a job is started, no queued job had an earlier stored time of creation when it was picked |
| Causes.VerifiedWasSynced | cmd/starryeyes/main.go:381-396 | A chunk gets its row only after its PUT has synced the spool file |
| Recovery.IntactFilesAgree | cmd/starryeyes/main.go:449-472 | Two intact files of a whole upload are the same file, or differ in a chunk with one digest |
| Recovery.FinalizeRerun | cmd/starryeyes/main.go:449-476 | Re-running finalize after a crash reaches the same input byte for byte, whether or not the rename had happened or survived |
| Manifests.WrittenIsWellFormed | cmd/starryeyes/manifest.go:46-83 | The manifest a run writes passes every check of the validator that does not look at the artifact |
| Manifests.InvalidManifests | cmd/starryeyes/manifest.go:237-275 | A manifest is invalid exactly for one of the listed defects of identity, names, sizes, digests, specification or artifact |
| Manifests.BaseNameIsPlain | cmd/starryeyes/manifest.go:241 | A name that equals its last path element has no separator in it |
| Manifests.ImportSettles | cmd/starryeyes/manifest.go:277-322 | After an import that is no conflict the row is completed and matches, and importing again changes nothing |
| Manifests.ImportEffect | cmd/starryeyes/manifest.go:277-322 | A new or unfinished job becomes what the manifest says, without chunk rows, reservation row, deadline or reserved amount, which the capacity gets back; key and files stay, other jobs and completed ones are unchanged |
| Manifests.ImportStatus | cmd/starryeyes/manifest.go:285-322 | Imported if unknown, updated if unfinished; a completed job is a conflict exactly if it differs from the manifest in any compared field |
| Manifests.Database.Import | cmd/starryeyes/manifest.go:277-322 | The transaction reports and produces exactly the specified status and database |
| Manifests.Database.Backfill | cmd/starryeyes/manifest.go:171-223 | The loop computes exactly the specified database and counters, and fails exactly if something was invalid or conflicting |
| Manifests.RowAfter | cmd/starryeyes/manifest.go:277-322 | Each row changes at most once, by the one usable manifest of its directory; other rows and completed rows do not change |
| Manifests.CompletedUntouched | cmd/starryeyes/manifest.go:288-293 | Completed rows are never modified |
| Manifests.CountedOnce | cmd/starryeyes/manifest.go:176-219 | Every manifest is counted exactly once |
| Manifests.CountedExactly | cmd/starryeyes/manifest.go:176-219 | Each of the six counters counts the manifests it is named after, judged by the database before the backfill |
| Manifests.BackfillIdempotent | cmd/starryeyes/manifest.go:171-223 | A second backfill changes no row and finds existing what the first imported, updated or found existing |
| Manifests.BackfillConserves | cmd/starryeyes/manifest.go:306-317 | A backfill keeps the capacity books |
| Disaster.StepFrozen | cmd/starryeyes/main.go:1117-1143 | Once a job is completed only its spool and its reservation change |
| Disaster.RestorableIff | cmd/starryeyes/manifest.go:237-275 | A completed job's manifest validates exactly if the artifact has the recorded size and digest |
| Disaster.KillIsGentle | cmd/starryeyes/main.go:729-764 | Killing the process is possible in every state and takes no byte of any artifact, whatever had been flushed |
| Disaster.ManifestsValid | cmd/starryeyes/main.go:1112-1121 | In every state of every run whose crashes took no byte of its artifact a completed job's manifest validates |
| Disaster.PowerLoss | cmd/starryeyes/manifest.go:94-124 | A completed job validates after every possible crash if and only if every byte of its artifact is on disk |
| Disaster.NeverSynced | cmd/starryeyes/main.go:1053-1117 | Until the next crash no byte of the artifact of a job that a worker completed is known to be on disk |
| Disaster.CompletedIsFragile | cmd/starryeyes/main.go:1112-1117 | In every run, a job completed since the last crash is lost by some crash that may come now, if and only if its artifact is not empty |
| Disaster.DisasterRecovery | cmd/starryeyes/manifest.go:171-322 | In every state of every run, backfilling an empty database from the output directory recreates a completed job, with the same fields, exactly if its manifest validates, as it does unless a crash took bytes of its artifact |
| Disaster.RebuiltIsInitial | cmd/starryeyes/manifest.go:297-304 | A database rebuilt from any listing of artifacts with the service's names is a legitimate beginning of a run |
| Disaster.OwnManifest | cmd/starryeyes/manifest.go:331-353 | A completed job matches its own manifest exactly if its reservation has been released |
| Planner.RotationIsResidue | cmd/starryeyes/compression.go:308-326 | A rotation means its residue modulo 360, whatever its sign and size |
| Planner.RotationPriority | cmd/starryeyes/compression.go:308-321 | The stream's rotation wins over its side data, the first nonzero side datum over the later ones, and all of them over the tag |
| Planner.QuarterTurn | cmd/starryeyes/compression.go:299-326 | Two streams of one size are displayed transposed exactly if just one of them is turned by a quarter, wherever each reports it |
| Planner.RoundedEvenNear | cmd/starryeyes/compression.go:255-260 | Rounding to even moves the exact quotient by at most one, and a tie upwards |
| Planner.BoxFitting | cmd/starryeyes/compression.go:238-273 | Both sides are even, at least 2, within source and box; a scaled picture meets one side exactly and the other within a pixel |
| Planner.UsableIff | cmd/starryeyes/compression.go:262-273 | Both target sides are at least 2 exactly if both source sides are |
| Planner.FitTransposed | cmd/starryeyes/compression.go:220-273 | The fit of the transposed source is the transposed fit, ties and squares included |
| Planner.TurnedPlan | cmd/starryeyes/compression.go:114-200 | A source turned by a quarter gets the transposed plan |
| Planner.BitrateIsFloor | cmd/starryeyes/compression.go:202-207 | The source bitrate is the largest whole number of bits per second within the file's size and duration |
| Planner.TierMonotone | cmd/starryeyes/compression.go:209-225 | A larger budget never chooses a smaller box, and each tier begins at its threshold with its own sides |
| Planner.ArgWithinBitrate | cmd/starryeyes/compression.go:358-364 | The emitted argument stays within the bitrate exactly from 1 kbps on |
| Planner.BudgetAddsUp | cmd/starryeyes/compression.go:128-155 | Video, audio and overhead add up to the target, the ceiling likewise; target <= 85 % of the source, ceiling <= 1.6 Mbit/s; audio within request and minimum, video at least 300 kbps above the threshold |
| Planner.BudgetExactly | cmd/starryeyes/compression.go:128-155 | Target and ceiling are the largest whole numbers within 85 % and 95 % of the source and 1.6 Mbit/s; audio is reduced exactly if video would stay below 300 kbps, and by no kbps more than that takes |
| Planner.AudioClampIsDead | cmd/starryeyes/compression.go:149-151 | The clamp of the reduced audio bitrate never applies |
| Planner.PlanWithinBudget | cmd/starryeyes/compression.go:114-200 | A transcode plan keeps its target exactly if the budget is affordable; then its emitted bitrate keeps the target and its emitted maxrate the ceiling |
| Planner.PlannedExactly | cmd/starryeyes/compression.go:114-131 | A plan exists exactly if there is a video stream with sides, a duration and at least one bit per second |
| Planner.ResolutionIsTarget | cmd/starryeyes/compression.go:227-290 | The encoder gets exactly the fitted sides and never scales up, unless the request names the source's sides or its own, which it then gets |
| Planner.CopiedExactly | cmd/starryeyes/compression.go:156-181 | The streams are copied exactly if the budget leaves video nothing and the source already is mp4 with h264 and aac, asked for as such, and no larger than the target |
| Planner.CopyKeepsSize | cmd/starryeyes/compression.go:156-181 | Every stream copy has target sides equal to the displayed sides, and reports the source bitrate |
| Planner.FallbackWithinBudget | cmd/starryeyes/compression.go:91-112 | The fallback plan keeps its budget for every accepted audio bitrate; its clamp never applies |
| Traces.PwriteTwice | cmd/starryeyes/main.go:359-376 | Writing a body piece by piece is writing it at once |
| Traces.WalkKeeps | cmd/starryeyes/main.go:56-66 | Sequential runs keep the database invariant and every actor's rely |
| Sequential.WalkIsExecution | cmd/starryeyes/main.go:56-66 | A goroutine that runs alone produces an execution of the system |
| Server.Service.Create | cmd/starryeyes/main.go:182-260 | One job per key: a new key creates a pending job with the listed fields and the digest of its request, a request with the stored digest replays it, another one with the key is refused, and nothing else changes |
| Server.PutVerdict | cmd/starryeyes/main.go:293-390 | When a PUT is verified, found already there, or refused with which status, as conditions on the job, the request and what goes wrong |
| Server.PutOutcome | cmd/starryeyes/main.go:359-414 | What each verdict leaves behind: row, counters, state, renewed deadline and synced bytes; a renewed deadline; or nothing but unverified bytes of the own chunk |
| Server.PutElsewhere | cmd/starryeyes/main.go:358-368 | No PUT, however it ends, changes a byte outside its own chunk or the length of the spool file |
| Server.Service.Chunk | cmd/starryeyes/main.go:293-414 | The reply and the job after a PUT, for every way the body is cut into reads and every way it can be refused or fail; a run of the PUT actor |
| Server.Service.Complete | cmd/starryeyes/main.go:415-448 | 202 exactly if the upload is whole or the job is in one of the eight later states; one finalizer exactly if it was whole, and then only state and deadline change |
| Server.Service.Release | cmd/starryeyes/main.go:1134-1147 | Gives the amount back once, and only if the job still holds it |
| Server.Service.Fail | cmd/starryeyes/main.go:1125-1133 | Releases, marks the job failed with error and time unless it has ended, removes the spool, changes nothing else |
| Server.Service.OldestQueued | cmd/starryeyes/main.go:1007 | Finds a queued job with the least stored time of creation, or none is queued |
| Server.Service.Schedule | cmd/starryeyes/main.go:1001-1021 | Starts queued jobs until no slot is free or nothing is queued, none of them after one with an earlier time of creation left behind; changes nothing else |
| Server.Service.OldestPendingJob | cmd/starryeyes/main.go:632-636 | Finds the unexpired pending job with the least stored time of creation, then id, or nobody waits |
| Server.Service.AdmitPending | cmd/starryeyes/main.go:590-628 | Ends with nobody waiting or no room for the first in line; every job handled was admitted, whole and with its file, exactly if disk, reservation and file allow, else failed; and came before all that still wait |
| Server.Service.AdmitNext | cmd/starryeyes/main.go:595-628 | One round: the loop ends exactly if there is no room for the head; otherwise the head is admitted or failed as the outside world decides |
| Server.Service.ReservePending | cmd/starryeyes/main.go:638-670 | The verdict in every case; a reservation is the whole size within the total, and never for a job with a reservation row left over |
| Server.Service.ExpireUploads | cmd/starryeyes/main.go:851-881 | Exactly the pending and accepting jobs whose deadline has passed expire, with the listed fields cleared; all others stay |
| Server.Service.ExpireUpload | cmd/starryeyes/main.go:883-925 | The transaction and the sweep of one expired upload |
| Server.Service.Finalize | cmd/starryeyes/main.go:449-479 | The job is queued with the digest of its input exactly if the input can be had and read, is the announced one and passes the probe; otherwise it fails |
| Server.Service.ProbeAndQueue | cmd/starryeyes/main.go:480-524 | A staged job is queued exactly if the probe accepts it, and fails otherwise; then scheduling |
| Server.Service.Work | cmd/starryeyes/main.go:1018-1020 | The run of a started job, its slot given back, and scheduling until no slot is free or nothing is queued |
| Server.Service.RunJob | cmd/starryeyes/main.go:1022-1124 | The job is completed, with the manifest of the encoder's output and no reservation, exactly if cgroup, encoder and manifest work out; otherwise it fails |
| Server.Service.Recover | cmd/starryeyes/main.go:729-764 | What becomes of every job: due uploads expire, uploads without their file fail, ended jobs lose their spools, started ones are requeued or restarted oldest first, all others stay |
| Server.Service.ReconcileResumableUploads | cmd/starryeyes/main.go:927-963 | An upload whose file can be inspected and has its size stays as it is, any other upload fails; other jobs are untouched |
| Server.Service.FailUpload | cmd/starryeyes/main.go:965-1000 | The transaction and the sweep of one rejected upload, field by field |
| Server.Service.CleanupTerminalSpools | cmd/starryeyes/main.go:769-802 | Exactly the ended jobs lose their spools |
| Server.PickFound | cmd/starryeyes/main.go:595-612 | The head the loop finds is the one the query of the step machine finds |
| Witness.LeakHappens | cmd/starryeyes/main.go:1134-1147 | For every accepted request a run exists whose crash leaks the whole reservation and leaves the reservation row of a pending job behind |
| Witness.ReservationKept | cmd/starryeyes/main.go:1117-1121 | For every accepted upload of one chunk a run exists whose crash leaves the job completed with its reservation, and its own manifest a conflict |
| Witness.ArtifactLost | cmd/starryeyes/main.go:1112-1117 | For every such upload with a nonempty encoding a run exists that completes the job and then loses its artifact to a power loss |
| Client.MissingIsVerified | cmd/demo-client/main.go:92-112 | The server accepts the client's request for every missing chunk: number, offset, length and digest agree |
| Client.SentHolds | cmd/demo-client/main.go:96-112 | Sending one slice keeps every other slice in place |
| Client.Resume | cmd/demo-client/main.go:80-122 | From any set of verified chunks the loop sends what is missing, completion succeeds, and the upload is the client's file |

## Left out

- HTTP routing, JSON, OpenAPI, logging, downloads, configuration parsing and the shell scripts: plumbing without a deep invariant.
- FFmpeg, ffprobe, cgroups, sandboxing, device discovery and encoder arguments: foreign effects; a probe or an encoder succeeds or fails as the outside world decides, and leaves any bytes.
- Database errors and the branches that handle them: every statement is assumed to succeed.
- Physical free space: a yes or no of the outside world (`statfs`); nothing wakes admission when space returns, so `Admission.NoLostAdmission` excludes the case.
- Spool directories that belong to no job: their removal in `cleanupTerminalSpools` is not modelled.
- The order in which a pass visits its jobs (`ORDER BY expires_at`, `ORDER BY created_at` in recovery, goroutines of the finalizers): the model allows every order.
- Goroutines are started in the same step as the statement before the `go`; a collector tick may arrive at any time and in any number.
- Planner: int64 overflow of extreme bitrates, and the rounding of float64 quotients.
- A backfill into a database that already has jobs is proved on its own (`Manifests`), but is not an event of the step machine: it completes failed and expired jobs, which no goroutine of the service does.
- Manifests.Database.Backfill: the decoding of manifests and of their times is abstracted; a manifest that does not decode counts as invalid.
- Progress under fairness: proved are the absence of deadlock, of lost wake-ups and of waits without end in the lock order, not that the scheduler of the runtime is fair.
- `validSHA256`, `validateFilename` and `validIdempotencyKey`: opaque predicates on strings.
