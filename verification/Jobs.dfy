/** A job: its row in the database, its chunk rows and reservation row, its
    spool files and its output directory, and the statements that change them. */
module Jobs {
  import opened Base
  import opened Chunks
  import opened Files
  import opened Spec

  /** Job ids are 128-bit numbers in fixed-width hexadecimal, so their text order is their numeric order. */
  type JobId = nat

  /** What the model takes as given. `textKey` is the position of an instant's
      stored text in the database's text order, which need not be chronological. */
  datatype Env = Env(
    sha: seq<Byte> -> string,
    lifeStripe: JobId -> nat,
    chunkStripe: (JobId, nat) -> nat,
    textKey: nat -> int,
    identity: (Input, Output) -> seq<Byte>,
    validName: string -> bool,
    validSha: string -> bool)

  /** Digests are well-formed, in either case, and the empty string is not a digest. */
  ghost predicate EnvOk(e: Env) {
    && !e.validSha("")
    && (forall d: seq<Byte> :: e.validSha(e.sha(d)))
    && forall s: string :: e.validSha(s) ==> e.validSha(Lower(s))
  }

  /** The idempotency key of the request that created a job, and the digest of that request. */
  datatype RequestKey = RequestKey(id: string, digest: string)

  datatype JobState =
    | PENDING | ADMITTED | UPLOADING | FINALIZING | STAGED | PROBING | VALIDATED
    | QUEUED | STARTING | TRANSCODING | COMPLETED | FAILED | EXPIRED

  datatype Manifest = Manifest(
    version: int, jobId: JobId, filename: string, artifact: string, container: string,
    requestedHash: string, inputHash: string, outputHash: string,
    inputSize: int, outputSize: int, chunkSize: int,
    createdAt: nat, completedAt: nat, spec: Output)

  datatype Artifact = Artifact(name: string, file: File)
  datatype OutputDir = OutputDir(artifact: Option<Artifact>, manifest: Option<Manifest>)

  datatype Job = Job(
    state: JobState, key: Option<RequestKey>, filename: string, created: nat,
    size: nat, chunkSize: nat, expected: nat, spec: Output, inputHash: string, actualHash: string,
    received: nat, chunks: nat, rows: map<nat, Row>,
    reserved: nat, ledger: Option<nat>, deadline: Option<nat>,
    artifact: string, finished: Option<nat>, error: bool,
    part: Option<File>, input: Option<File>, output: OutputDir)

  predicate Accepting(s: JobState) { s == ADMITTED || s == UPLOADING }
  predicate Uploadable(s: JobState) { s == PENDING || Accepting(s) }
  predicate Terminal(s: JobState) { s == COMPLETED || s == FAILED || s == EXPIRED }

  /** States in which one goroutine owns the job. */
  predicate Owned(s: JobState) {
    s in {FINALIZING, STAGED, PROBING, VALIDATED, STARTING, TRANSCODING}
  }

  predicate ProcessingOrCompleted(s: JobState) { Owned(s) || s == QUEUED || s == COMPLETED }

  predicate Expirable(j: Job, now: nat) {
    Uploadable(j.state) && j.deadline.Some? && j.deadline.value <= now
  }

  /** What makes `complete` succeed. */
  predicate Completable(j: Job) {
    Accepting(j.state) && j.received == j.size && j.chunks == j.expected
  }

  predicate HasSpool(j: Job) { j.part.Some? || j.input.Some? }

  /* ---- statements ---- */

  /** The request's input as it is stored: the digest in lower case. */
  function Lowered(input: Input): Input { input.(sha256 := Lower(input.sha256)) }

  /** The digest of what makes two requests the same: the input and the normalized specification. */
  function RequestDigest(e: Env, input: Input, spec: Output): string { e.sha(e.identity(input, spec)) }

  function NewJob(key: RequestKey, input: Input, spec: Output, created: nat, chunkSize: nat, deadline: nat): Job
    requires chunkSize > 0 && input.size >= 0
  {
    Job(PENDING, Some(key), input.filename, created, input.size, chunkSize, Expected(input.size, chunkSize), spec, input.sha256, "",
        0, 0, map[], 0, None, Some(deadline), "", None, false, None, None, OutputDir(None, None))
  }

  /** The chunk transaction: INSERT of the row and the guarded counter UPDATE. */
  function CommitChunk(j: Job, n: nat, want: nat, sum: string, deadline: nat): Job {
    if Accepting(j.state) && n !in j.rows then
      j.(state := UPLOADING, rows := j.rows[n := Row(want, sum)], received := j.received + want,
         chunks := j.chunks + 1, deadline := Some(deadline))
    else j
  }

  /** The UPDATE of an already verified chunk. */
  function Touch(j: Job, deadline: nat): Job {
    if Accepting(j.state) then j.(deadline := Some(deadline)) else j
  }

  function CompleteUpload(j: Job): Job {
    if Completable(j) then j.(state := FINALIZING, deadline := None) else j
  }

  /** A guarded UPDATE of the state. */
  function Advance(j: Job, from: JobState, to: JobState): Job {
    if j.state == from then j.(state := to) else j
  }

  function StageInput(j: Job, hash: string): Job {
    if j.state == FINALIZING then j.(state := STAGED, actualHash := hash) else j
  }

  /** The amounts come from the reservation: the input alone is held in the spool. */
  function Reserve(j: Job): Job {
    j.(reserved := Reservation(j.size, j.spec).reserved, ledger := Some(Reservation(j.size, j.spec).reserved))
  }

  function Admitted(j: Job, amount: nat, deadline: nat): Job {
    if j.state == PENDING && j.reserved == amount then j.(state := ADMITTED, deadline := Some(deadline)) else j
  }

  function Expire(j: Job, now: nat): Job {
    j.(state := EXPIRED, reserved := 0, rows := map[], ledger := None, deadline := None, error := true, finished := Some(now))
  }

  function RejectUpload(j: Job, now: nat): Job {
    j.(state := FAILED, reserved := 0, rows := map[], ledger := None, deadline := None, error := true, finished := Some(now))
  }

  function MarkFailed(j: Job, now: nat): Job {
    if j.state != COMPLETED && j.state != FAILED then j.(state := FAILED, error := true, finished := Some(now)) else j
  }

  function MarkCompleted(j: Job, now: nat): Job {
    j.(state := COMPLETED, artifact := ArtifactName(j.spec), finished := Some(now))
  }

  function ZeroReserved(j: Job, amount: nat): Job {
    if j.reserved == amount then j.(reserved := 0) else j
  }

  function Requeued(j: Job): Job {
    if j.state == STARTING || j.state == TRANSCODING then j.(state := QUEUED) else j
  }

  function RemoveSpool(j: Job): Job { j.(part := None, input := None) }

  /** prepareInput: the preallocated file of exactly the job's size. */
  function PrepareInput(j: Job): Job {
    if j.part.Some? && |j.part.value.data| == j.size then j
    else j.(part := Some(Truncate(if j.part.Some? then j.part.value else EmptyFile, j.size)))
  }

  /** The rename in finalize, skipped when `input` already exists. */
  function RenameInput(j: Job): Job {
    if j.input.None? && j.part.Some? then j.(input := j.part, part := None) else j
  }

  /** MAX(reserved - amount, 0). */
  function Released(reserved: nat, amount: nat): nat {
    if reserved >= amount then reserved - amount else 0
  }

  /** The manifest describing an artifact of a job. */
  function ManifestOf(e: Env, id: JobId, j: Job, data: seq<Byte>, completedAt: nat): Manifest {
    Manifest(1, id, j.filename, ArtifactName(j.spec), j.spec.container, j.inputHash, j.actualHash, e.sha(data),
             j.size, |data|, j.chunkSize, j.created, completedAt, j.spec)
  }

  function ReservedOf(j: Job): nat { j.reserved }

  /* ---- what holds of a job by itself ---- */

  /** Row n of the job describes the bytes of `f` at its offset, and the disk has them. */
  ghost predicate RowIntact(e: Env, j: Job, f: File, n: nat)
    requires n in j.rows
  {
    var off, len := n * j.chunkSize, j.rows[n].bytes;
    off + len <= |f.data| && e.sha(f.data[off..off + len]) == j.rows[n].sha && OnDisk(f, off, len)
  }

  ghost predicate FileIntact(e: Env, j: Job, f: File) {
    forall n :: n in j.rows ==> RowIntact(e, j, f, n)
  }

  /** Verified bytes: every row of a live job describes the spool file. */
  ghost predicate RowsIntact(e: Env, j: Job) {
    && (j.part.Some? ==> FileIntact(e, j, j.part.value))
    && (j.input.Some? ==> FileIntact(e, j, j.input.value))
  }

  ghost predicate Accounted(j: Job)
    requires j.chunkSize > 0
  {
    RowsFit(j.size, j.chunkSize, j.rows) && j.received == SumMap(j.rows, RowBytes) && j.chunks == |j.rows|
  }

  /** The upload is whole: every chunk is verified. */
  ghost predicate Whole(j: Job)
    requires j.chunkSize > 0
  {
    Accounted(j) && j.received == j.size && j.chunks == j.expected
  }

  /** The spool file a job needs to accept or resume an upload. */
  ghost predicate Ready(j: Job) {
    j.part.Some? && |j.part.value.data| == j.size && j.input.None?
  }

  ghost predicate Described(e: Env, id: JobId, j: Job, at: nat) {
    j.output.manifest.Some? &&
    exists data: seq<Byte> :: j.output.manifest.value == ManifestOf(e, id, j, data, at)
  }

  ghost predicate JobInv(e: Env, id: JobId, j: Job) {
    && j.size > 0 && j.chunkSize > 0 && j.expected == Expected(j.size, j.chunkSize)
    && Compatible(j.spec) && e.validName(j.filename) && (j.inputHash == "" || e.validSha(j.inputHash))
    && (j.reserved == 0 || (j.reserved == j.size && j.ledger == Some(j.size)))
    && (j.error ==> j.state == FAILED || j.state == EXPIRED)
    && (Uploadable(j.state) ==> j.deadline.Some? && j.input.None?)
    && (j.state == PENDING ==> j.rows == map[] && j.received == 0 && j.chunks == 0)
    && (Accepting(j.state) ==> j.reserved == j.size && Accounted(j))
    && (Owned(j.state) || j.state == QUEUED ==> Whole(j) && FilesSized(j))
    && (!Terminal(j.state) ==> RowsIntact(e, j))
    && (j.state !in {PENDING, ADMITTED, UPLOADING, FINALIZING, FAILED, EXPIRED} ==> e.validSha(j.actualHash))
    && (j.state == COMPLETED ==>
          j.received == j.size && j.chunks == j.expected && j.artifact == ArtifactName(j.spec) && j.finished.Some? && Described(e, id, j, j.finished.value))
  }

  /** A row that a backfill of the service's own output directory inserts,
      together with the directory it describes. */
  ghost predicate FromBackfill(e: Env, id: JobId, j: Job) {
    && JobInv(e, id, j) && j.state == COMPLETED
    && j.key.None? && j.rows == map[] && j.reserved == 0 && j.ledger.None? && j.part.None? && j.input.None?
    && Manifested(e, id, j, j.finished.value)
  }

  /** The manifest describes the artifact that is there. */
  ghost predicate Manifested(e: Env, id: JobId, j: Job, at: nat) {
    && j.output.artifact.Some? && j.output.artifact.value.name == ArtifactName(j.spec)
    && j.output.manifest == Some(ManifestOf(e, id, j, j.output.artifact.value.file.data, at))
  }

  /** The spool files have the job's size; if a crash left both, they are the same. */
  ghost predicate FilesSized(j: Job) {
    && (j.part.Some? ==> |j.part.value.data| == j.size) && (j.input.Some? ==> |j.input.value.data| == j.size)
    && (j.part.Some? && j.input.Some? ==> j.part.value.data == j.input.value.data)
  }

  /** The artifact has been written and never synced. */
  ghost predicate Unsynced(j: Job) {
    j.output.artifact.Some? && j.output.artifact.value.file.dirty == Span(0, |j.output.artifact.value.file.data|)
  }
}
