/** The lifecycle engine as a step machine. An actor is a goroutine with its
    program counter and locals; one step is one SQL statement or transaction,
    one file-system operation, or one lock or semaphore operation. */
module Engine {
  import opened Base
  import opened Chunks
  import opened Files
  import opened Spec
  import opened Jobs

  datatype Config = Config(chunk: nat, active: nat, retention: nat, limits: Limits)

  ghost predicate ConfigOk(c: Config) {
    c.chunk >= 0x10_0000 && c.active >= 1 && c.retention > 0
  }

  /** When the head of the admission queue was last looked at, and whether the
      disk check turned it away. Nothing in the machine reads this. */
  datatype Scan = Scan(time: nat, refused: bool)

  /** Database, spool and output files, the worker semaphore and the clock. */
  datatype Shared = Shared(
    jobs: map<JobId, Job>, total: nat, reserved: nat, sem: nat, clock: nat, cfg: Config, scan: Scan)

  /** A PUT of chunk n; net/http delivers no more bytes than announced. */
  datatype PutReq = PutReq(jid: JobId, n: nat, sum: string, length: int, body: seq<Byte>)

  datatype PutPc =
    | WaitLife | WaitChunk | ReadJob
    | ReadRow(want: nat, off: nat, accepting: bool)
    | TouchJob
    | Write(want: nat, off: nat, got: nat)
    | SyncFile(want: nat, off: nat)
    | Commit(want: nat, off: nat)

  datatype RelPc = ZeroRow(amount: nat) | FreeCapacity(amount: nat) | DropLedger
  datatype FailPc = FailLoad | FailRelease(rel: RelPc) | FailMark | FailClean
  datatype SchedPc = WaitSched | CheckSlots | PickJob | StartJob(next: JobId) | Send(next: JobId)

  datatype FinPc =
    | WaitFin | Rename | HashInput | Stage(hash: string) | MarkProbing | Probe | MarkValidated | MarkQueued
    | FinFail(fail: FailPc)
    | FinSchedule(sched: SchedPc)

  datatype WorkPc =
    | Load | MakeCgroup(held: nat) | MarkTranscoding(held: nat) | Encode(held: nat) | WriteManifest(held: nat)
    | Record(held: nat, at: nat)
    | WorkRelease(rel: RelPc)
    | WorkFail(fail: FailPc)
    | CleanSpool | FreeSlot
    | WorkSchedule(sched: SchedPc)

  datatype AdmitPc =
    | WaitAdmission | PickHead | ReserveHead(head: JobId) | Prepare(head: JobId, amount: nat)
    | MarkAdmitted(head: JobId, amount: nat)
    | AdmitFail(head: JobId, fail: FailPc)

  datatype GcPc =
    | WaitGc(now: nat) | ScanExpired(now: nat)
    | WaitExpire(now: nat, jid: JobId, rest: set<JobId>)
    | ExpireJob(now: nat, jid: JobId, rest: set<JobId>)
    | SweepJob(now: nat, jid: JobId, rest: set<JobId>)

  datatype RecoverPc =
    | Expiring(gc: GcPc)
    | ListUploads
    | Inspect(jid: JobId, rest: set<JobId>)
    | WaitReject(jid: JobId, rest: set<JobId>)
    | Reject(jid: JobId, rest: set<JobId>)
    | RejectSweep(jid: JobId, rest: set<JobId>)
    | ListSpools
    | Purge(jid: JobId, rest: set<JobId>)
    | Requeue
    | Respawn
    | RecSchedule(sched: SchedPc)

  datatype Actor =
    | Done
    | Serving
    | Put(req: PutReq, put: PutPc)
    | Complete(jid: JobId, locked: bool)
    | Finalize(jid: JobId, fin: FinPc)
    | Worker(jid: JobId, work: WorkPc)
    | Admit(adm: AdmitPc)
    | Collect(gc: GcPc)
    | Recover(rec: RecoverPc)

  /** How the outside world decides a step: whether it succeeds, how many bytes
      are read or in which way it fails, which row comes next, what an encoder wrote. */
  datatype Choice = Choice(ok: bool, count: nat, id: JobId, bytes: seq<Byte>)

  datatype Outcome = Outcome(sh: Shared, next: Actor, spawned: seq<Actor>)

  /** The result of one step of a routine called by several actors. */
  datatype Sub<T> = Sub(sh: Shared, next: Option<T>, spawned: seq<Actor>)

  /* ---- small helpers ---- */

  function Set(sh: Shared, id: JobId, j: Job): Shared { sh.(jobs := sh.jobs[id := j]) }

  function Expiry(sh: Shared): nat { sh.clock + sh.cfg.retention }

  ghost function PickFrom(s: set<JobId>, ch: Choice): (id: JobId)
    requires s != {}
    ensures id in s
  {
    if ch.id in s then ch.id else var x :| x in s; x
  }

  /** The order of `ORDER BY created_at,id`. */
  predicate Before(e: Env, a: JobId, j: Job, b: JobId, k: Job) {
    e.textKey(j.created) < e.textKey(k.created) || (e.textKey(j.created) == e.textKey(k.created) && a < b)
  }

  predicate Waiting(j: Job, now: nat) {
    j.state == PENDING && j.deadline.Some? && j.deadline.value > now
  }

  /** id is the row the admission query returns at time `now`. */
  ghost predicate IsHead(e: Env, sh: Shared, now: nat, id: JobId) {
    && id in sh.jobs && Waiting(sh.jobs[id], now)
    && forall k :: k in sh.jobs && Waiting(sh.jobs[k], now) && k != id ==> Before(e, id, sh.jobs[id], k, sh.jobs[k])
  }

  /** id is a row the scheduler query may return; ties are broken freely. */
  ghost predicate IsOldestQueued(e: Env, sh: Shared, id: JobId) {
    && id in sh.jobs && sh.jobs[id].state == QUEUED
    && forall k :: k in sh.jobs && sh.jobs[k].state == QUEUED ==> e.textKey(sh.jobs[id].created) <= e.textKey(sh.jobs[k].created)
  }

  /* ---- shared routines ---- */

  function ReleaseStep(sh: Shared, jid: JobId, r: RelPc): Sub<RelPc> {
    match r
    case ZeroRow(x) =>
      if jid in sh.jobs && sh.jobs[jid].reserved == x
      then Sub(Set(sh, jid, ZeroReserved(sh.jobs[jid], x)), Some(FreeCapacity(x)), [])
      else Sub(sh, None, [])
    case FreeCapacity(x) => Sub(sh.(reserved := Released(sh.reserved, x)), Some(DropLedger), [])
    case DropLedger =>
      Sub(if jid in sh.jobs then Set(sh, jid, sh.jobs[jid].(ledger := None)) else sh, None, [Admit(WaitAdmission)])
  }

  function FailStep(sh: Shared, jid: JobId, f: FailPc): Sub<FailPc> {
    if jid !in sh.jobs then Sub(sh, None, [])
    else
      var j := sh.jobs[jid];
      match f
      case FailLoad => Sub(sh, Some(if j.reserved > 0 then FailRelease(ZeroRow(j.reserved)) else FailMark), [])
      case FailRelease(r) =>
        var o := ReleaseStep(sh, jid, r);
        Sub(o.sh, Some(if o.next.Some? then FailRelease(o.next.value) else FailMark), o.spawned)
      case FailMark => Sub(Set(sh, jid, MarkFailed(j, sh.clock)), Some(FailClean), [])
      case FailClean => Sub(Set(sh, jid, RemoveSpool(j)), None, [])
  }

  ghost function SchedStep(e: Env, sh: Shared, q: SchedPc, ch: Choice): Sub<SchedPc> {
    match q
    case WaitSched => Sub(sh, Some(CheckSlots), [])
    case CheckSlots => Sub(sh, if sh.sem < sh.cfg.active then Some(PickJob) else None, [])
    case PickJob =>
      if IsOldestQueued(e, sh, ch.id) then Sub(sh, Some(StartJob(ch.id)), [])
      else if exists id :: IsOldestQueued(e, sh, id) then
        var id :| IsOldestQueued(e, sh, id);
        Sub(sh, Some(StartJob(id)), [])
      else Sub(sh, None, [])
    case StartJob(id) =>
      if id in sh.jobs && sh.jobs[id].state == QUEUED
      then Sub(Set(sh, id, Advance(sh.jobs[id], QUEUED, STARTING)), Some(Send(id)), [])
      else Sub(sh, Some(CheckSlots), [])
    case Send(id) =>
      if sh.sem < sh.cfg.active then Sub(sh.(sem := sh.sem + 1), Some(CheckSlots), [Worker(id, Load)])
      else Sub(sh, Some(Send(id)), [])
  }

  function Due(sh: Shared, now: nat): set<JobId> {
    set id | id in sh.jobs && Expirable(sh.jobs[id], now)
  }

  function Uploads(sh: Shared): set<JobId> {
    set id | id in sh.jobs && Accepting(sh.jobs[id].state)
  }

  function Spools(sh: Shared): set<JobId> {
    set id | id in sh.jobs && HasSpool(sh.jobs[id])
  }

  /** Expiry of abandoned uploads; the result says when the pass is over. */
  ghost function GcStep(sh: Shared, g: GcPc, ch: Choice): Sub<GcPc> {
    match g
    case WaitGc(now) => Sub(sh, Some(ScanExpired(now)), [])
    case ScanExpired(now) =>
      var due := Due(sh, now);
      if due == {} then Sub(sh, None, [])
      else
        var id := PickFrom(due, ch);
        Sub(sh, Some(WaitExpire(now, id, due - {id})), [])
    case WaitExpire(now, jid, rest) => Sub(sh, Some(ExpireJob(now, jid, rest)), [])
    case ExpireJob(now, jid, rest) =>
      if jid in sh.jobs && Expirable(sh.jobs[jid], now) then
        Sub(Set(sh, jid, Expire(sh.jobs[jid], now)).(reserved := Released(sh.reserved, sh.jobs[jid].reserved)),
            Some(SweepJob(now, jid, rest)), [])
      else NextExpiry(sh, now, rest, ch)
    case SweepJob(now, jid, rest) =>
      NextExpiry(if jid in sh.jobs then Set(sh, jid, RemoveSpool(sh.jobs[jid])) else sh, now, rest, ch)
  }

  ghost function NextExpiry(sh: Shared, now: nat, rest: set<JobId>, ch: Choice): Sub<GcPc> {
    if rest == {} then Sub(sh, None, [Admit(WaitAdmission)])
    else
      var id := PickFrom(rest, ch);
      Sub(sh, Some(WaitExpire(now, id, rest - {id})), [])
  }

  /* ---- the actors ---- */

  function PutStep(e: Env, sh: Shared, r: PutReq, pc: PutPc, ch: Choice): Outcome {
    if pc.WaitLife? then Outcome(sh, Put(r, WaitChunk), [])
    else if pc.WaitChunk? then Outcome(sh, Put(r, ReadJob), [])
    else if r.jid !in sh.jobs then Outcome(sh, Done, [])
    else
      var j := sh.jobs[r.jid];
      match pc
      case ReadJob =>
        var want := ChunkBytes(j.size, j.chunkSize, r.n);
        if r.n >= j.expected || r.length != want || |r.sum| != 64 || want < 0 then Outcome(sh, Done, [])
        else Outcome(sh, Put(r, ReadRow(want, r.n * j.chunkSize, Accepting(j.state))), [])
      case ReadRow(want, off, accepting) =>
        if r.n in j.rows then Outcome(sh, if j.rows[r.n].sha == r.sum then Put(r, TouchJob) else Done, [])
        else if !accepting || j.part.None? then Outcome(sh, Done, [])
        else Outcome(sh, Put(r, Write(want, off, 0)), [])
      case TouchJob => Outcome(Set(sh, r.jid, Touch(j, Expiry(sh))), Done, [])
      case Write(want, off, got) =>
        if !ch.ok || j.part.None? || got > |r.body| then Outcome(sh, Done, [])
        else if got < |r.body| then
          var z := if 1 <= ch.count <= |r.body| - got then ch.count else |r.body| - got;
          Outcome(Set(sh, r.jid, j.(part := Some(Pwrite(j.part.value, off + got, r.body[got..got + z])))),
                  Put(r, Write(want, off, got + z)), [])
        else if got != want || e.sha(r.body) != r.sum then Outcome(sh, Done, [])
        else Outcome(sh, Put(r, SyncFile(want, off)), [])
      case SyncFile(want, off) =>
        if !ch.ok || j.part.None? then Outcome(sh, Done, [])
        else Outcome(Set(sh, r.jid, j.(part := Some(Sync(j.part.value)))), Put(r, Commit(want, off)), [])
      case Commit(want, off) =>
        Outcome(Set(sh, r.jid, CommitChunk(j, r.n, want, r.sum, Expiry(sh))), Done, [])
      case _ => Outcome(sh, Done, [])
  }

  function CompleteStep(sh: Shared, jid: JobId, locked: bool): Outcome {
    if !locked then Outcome(sh, Complete(jid, true), [])
    else if jid in sh.jobs && Completable(sh.jobs[jid])
    then Outcome(Set(sh, jid, CompleteUpload(sh.jobs[jid])), Done, [Finalize(jid, WaitFin)])
    else Outcome(sh, Done, [])
  }

  ghost function FinalizeStep(e: Env, sh: Shared, jid: JobId, pc: FinPc, ch: Choice): Outcome {
    if pc.FinSchedule? then
      var o := SchedStep(e, sh, pc.sched, ch);
      Outcome(o.sh, if o.next.Some? then Finalize(jid, FinSchedule(o.next.value)) else Done, o.spawned)
    else if jid !in sh.jobs then Outcome(sh, Done, [])
    else
      var j := sh.jobs[jid];
      match pc
      case WaitFin => Outcome(sh, Finalize(jid, Rename), [])
      case Rename =>
        if j.input.Some? || (j.part.Some? && ch.ok)
        then Outcome(Set(sh, jid, RenameInput(j)), Finalize(jid, HashInput), [])
        else Outcome(sh, Finalize(jid, FinFail(FailLoad)), [])
      case HashInput =>
        if !ch.ok || j.input.None? || (j.inputHash != "" && j.inputHash != e.sha(j.input.value.data))
        then Outcome(sh, Finalize(jid, FinFail(FailLoad)), [])
        else Outcome(sh, Finalize(jid, Stage(e.sha(j.input.value.data))), [])
      case Stage(h) => Outcome(Set(sh, jid, StageInput(j, h)), Finalize(jid, MarkProbing), [])
      case MarkProbing => Outcome(Set(sh, jid, Advance(j, STAGED, PROBING)), Finalize(jid, Probe), [])
      case Probe => Outcome(sh, Finalize(jid, if ch.ok then MarkValidated else FinFail(FailLoad)), [])
      case MarkValidated => Outcome(Set(sh, jid, Advance(j, PROBING, VALIDATED)), Finalize(jid, MarkQueued), [])
      case MarkQueued => Outcome(Set(sh, jid, Advance(j, VALIDATED, QUEUED)), Finalize(jid, FinSchedule(WaitSched)), [])
      case FinFail(f) =>
        var o := FailStep(sh, jid, f);
        Outcome(o.sh, if o.next.Some? then Finalize(jid, FinFail(o.next.value)) else Done, o.spawned)
  }

  /** The job after the encoders: a successful one leaves an artifact, a failed
      one leaves what it wrote, what was there before, or nothing. */
  function Encoded(j: Job, ch: Choice): Job {
    if ch.ok || ch.count == 1 then
      j.(output := j.output.(artifact := Some(Artifact(ArtifactName(j.spec), File(ch.bytes, Span(0, |ch.bytes|))))))
    else if ch.count == 0 then j
    else j.(output := j.output.(artifact := None))
  }

  /** The job with the manifest of its artifact. */
  function WithManifest(e: Env, id: JobId, j: Job, at: nat): Job
    requires j.output.artifact.Some?
  {
    j.(output := j.output.(manifest := Some(ManifestOf(e, id, j, j.output.artifact.value.file.data, at))))
  }

  ghost function WorkerStep(e: Env, sh: Shared, jid: JobId, pc: WorkPc, ch: Choice): Outcome {
    if pc.WorkSchedule? then
      var o := SchedStep(e, sh, pc.sched, ch);
      Outcome(o.sh, if o.next.Some? then Worker(jid, WorkSchedule(o.next.value)) else Done, o.spawned)
    else if pc.FreeSlot? then
      Outcome(sh.(sem := if sh.sem > 0 then sh.sem - 1 else 0), Worker(jid, WorkSchedule(WaitSched)), [])
    else if jid !in sh.jobs then Outcome(sh, Worker(jid, FreeSlot), [])
    else
      var j := sh.jobs[jid];
      match pc
      case Load => Outcome(sh, Worker(jid, MakeCgroup(j.reserved)), [])
      case MakeCgroup(x) => Outcome(sh, Worker(jid, if ch.ok then MarkTranscoding(x) else WorkFail(FailLoad)), [])
      case MarkTranscoding(x) => Outcome(Set(sh, jid, j.(state := TRANSCODING)), Worker(jid, Encode(x)), [])
      case Encode(x) =>
        Outcome(Set(sh, jid, Encoded(j, ch)), Worker(jid, if ch.ok then WriteManifest(x) else WorkFail(FailLoad)), [])
      case WriteManifest(x) =>
        // Writing fails before the rename, or after it, when the directory cannot be synced.
        if j.actualHash == "" || j.output.artifact.None? || (!ch.ok && ch.count == 0) then Outcome(sh, Worker(jid, WorkFail(FailLoad)), [])
        else
          Outcome(Set(sh, jid, WithManifest(e, jid, j, sh.clock)),
                  Worker(jid, if ch.ok then Record(x, sh.clock) else WorkFail(FailLoad)), [])
      case Record(x, at) =>
        Outcome(Set(sh, jid, MarkCompleted(j, at)), Worker(jid, if x > 0 then WorkRelease(ZeroRow(x)) else CleanSpool), [])
      case WorkRelease(r) =>
        var o := ReleaseStep(sh, jid, r);
        Outcome(o.sh, Worker(jid, if o.next.Some? then WorkRelease(o.next.value) else CleanSpool), o.spawned)
      case WorkFail(f) =>
        var o := FailStep(sh, jid, f);
        Outcome(o.sh, Worker(jid, if o.next.Some? then WorkFail(o.next.value) else CleanSpool), o.spawned)
      case CleanSpool => Outcome(Set(sh, jid, RemoveSpool(j)), Worker(jid, FreeSlot), [])
  }

  ghost function AdmitStep(e: Env, sh: Shared, pc: AdmitPc, ch: Choice): Outcome {
    match pc
    case WaitAdmission => Outcome(sh, Admit(PickHead), [])
    case PickHead =>
      var sh' := sh.(scan := Scan(sh.clock, false));
      if exists id :: IsHead(e, sh, sh.clock, id) then
        var id :| IsHead(e, sh, sh.clock, id);
        Outcome(sh', Admit(if sh.jobs[id].reserved == 0 then ReserveHead(id) else Prepare(id, sh.jobs[id].reserved)), [])
      else Outcome(sh', Done, [])
    case ReserveHead(id) =>
      if id !in sh.jobs then Outcome(sh, Done, [])
      else
        var j := sh.jobs[id];
        // The disk check says no, or cannot be made at all.
        if !ch.ok && ch.count == 0 then Outcome(sh.(scan := sh.scan.(refused := true)), Done, [])
        else if !ch.ok then Outcome(sh, Admit(AdmitFail(id, FailLoad)), [])
        else if sh.reserved + j.size > sh.total then Outcome(sh, Done, [])
        else if j.state != PENDING || j.reserved != 0 || j.ledger.Some? then Outcome(sh, Admit(AdmitFail(id, FailLoad)), [])
        else Outcome(Set(sh, id, Reserve(j)).(reserved := sh.reserved + j.size), Admit(Prepare(id, j.size)), [])
    case Prepare(id, x) =>
      if id in sh.jobs && ch.ok then Outcome(Set(sh, id, PrepareInput(sh.jobs[id])), Admit(MarkAdmitted(id, x)), [])
      else Outcome(sh, Admit(AdmitFail(id, FailLoad)), [])
    case MarkAdmitted(id, x) =>
      Outcome(if id in sh.jobs then Set(sh, id, Admitted(sh.jobs[id], x, Expiry(sh))) else sh, Admit(PickHead), [])
    case AdmitFail(id, f) =>
      var o := FailStep(sh, id, f);
      Outcome(o.sh, Admit(if o.next.Some? then AdmitFail(id, o.next.value) else PickHead), o.spawned)
  }

  ghost function CollectStep(sh: Shared, g: GcPc, ch: Choice): Outcome {
    var o := GcStep(sh, g, ch);
    Outcome(o.sh, if o.next.Some? then Collect(o.next.value) else Done, o.spawned)
  }

  /** The upload to inspect next, or the step after the last one. */
  ghost function NextUpload(rest: set<JobId>, ch: Choice): RecoverPc {
    if rest == {} then ListSpools
    else
      var id := PickFrom(rest, ch);
      Inspect(id, rest - {id})
  }

  ghost function NextSpool(rest: set<JobId>, ch: Choice): RecoverPc {
    if rest == {} then Requeue
    else
      var id := PickFrom(rest, ch);
      Purge(id, rest - {id})
  }

  function RequeueAll(jobs: map<JobId, Job>): map<JobId, Job> {
    map id | id in jobs :: Requeued(jobs[id])
  }

  function InState(sh: Shared, st: JobState): set<JobId> {
    set id | id in sh.jobs && sh.jobs[id].state == st
  }

  ghost function Finalizers(ids: seq<JobId>): seq<Actor> {
    seq(|ids|, i requires 0 <= i < |ids| => Finalize(ids[i], WaitFin))
  }

  ghost function RecoverStep(e: Env, sh: Shared, pc: RecoverPc, ch: Choice): Outcome {
    match pc
    case Expiring(g) =>
      var o := GcStep(sh, g, ch);
      Outcome(o.sh, Recover(if o.next.Some? then Expiring(o.next.value) else ListUploads), o.spawned)
    case ListUploads =>
      Outcome(sh, Recover(NextUpload(Uploads(sh), ch)), [])
    case Inspect(id, rest) =>
      if id in sh.jobs && ch.ok && sh.jobs[id].part.Some? && |sh.jobs[id].part.value.data| == sh.jobs[id].size
      then Outcome(sh, Recover(NextUpload(rest, ch)), [])
      else Outcome(sh, Recover(WaitReject(id, rest)), [])
    case WaitReject(id, rest) => Outcome(sh, Recover(Reject(id, rest)), [])
    case Reject(id, rest) =>
      if id in sh.jobs && Accepting(sh.jobs[id].state) then
        Outcome(Set(sh, id, RejectUpload(sh.jobs[id], sh.clock)).(reserved := Released(sh.reserved, sh.jobs[id].reserved)),
                Recover(RejectSweep(id, rest)), [])
      else Outcome(sh, Done, [])
    case RejectSweep(id, rest) =>
      Outcome(if id in sh.jobs then Set(sh, id, RemoveSpool(sh.jobs[id])) else sh, Recover(NextUpload(rest, ch)), [])
    case ListSpools =>
      Outcome(sh, Recover(NextSpool(Spools(sh), ch)), [])
    case Purge(id, rest) =>
      Outcome(if id in sh.jobs && Terminal(sh.jobs[id].state) then Set(sh, id, RemoveSpool(sh.jobs[id])) else sh,
              Recover(NextSpool(rest, ch)), [])
    case Requeue => Outcome(sh.(jobs := RequeueAll(sh.jobs)), Recover(Respawn), [])
    case Respawn =>
      Outcome(sh, Recover(RecSchedule(WaitSched)),
              Finalizers(Listed<JobId>(InState(sh, FINALIZING))) + [Admit(WaitAdmission)])
    case RecSchedule(q) =>
      var o := SchedStep(e, sh, q, ch);
      Outcome(o.sh, if o.next.Some? then Recover(RecSchedule(o.next.value)) else Serving, o.spawned)
  }

  ghost function Step(e: Env, sh: Shared, a: Actor, ch: Choice): Outcome {
    match a
    case Done => Outcome(sh, Done, [])
    case Serving => Outcome(sh, Serving, [])
    case Put(r, pc) => PutStep(e, sh, r, pc, ch)
    case Complete(jid, locked) => CompleteStep(sh, jid, locked)
    case Finalize(jid, pc) => FinalizeStep(e, sh, jid, pc, ch)
    case Worker(jid, pc) => WorkerStep(e, sh, jid, pc, ch)
    case Admit(pc) => AdmitStep(e, sh, pc, ch)
    case Collect(g) => CollectStep(sh, g, ch)
    case Recover(pc) => RecoverStep(e, sh, pc, ch)
  }

  /* ---- locks ---- */

  datatype Lock = AdmissionLock | LifeRead(stripe: nat) | LifeWrite(stripe: nat) | ChunkLock(stripe: nat) | ScheduleLock

  predicate Conflict(a: Lock, b: Lock) {
    match (a, b)
    case (LifeRead(_), LifeRead(_)) => false
    case (LifeRead(s), LifeWrite(t)) => s == t
    case (LifeWrite(s), LifeRead(t)) => s == t
    case _ => a == b
  }

  predicate Exclude(a: set<Lock>, b: set<Lock>) {
    forall x, y :: x in a && y in b ==> !Conflict(x, y)
  }

  function HeldSched(q: SchedPc): set<Lock> { if q.WaitSched? then {} else {ScheduleLock} }

  function HeldGc(e: Env, g: GcPc): set<Lock> {
    match g
    case WaitGc(_) => {}
    case ScanExpired(_) => {AdmissionLock}
    case WaitExpire(_, _, _) => {AdmissionLock}
    case ExpireJob(_, id, _) => {AdmissionLock, LifeWrite(e.lifeStripe(id))}
    case SweepJob(_, id, _) => {AdmissionLock, LifeWrite(e.lifeStripe(id))}
  }

  /** The locks an actor holds, read off its program counter. */
  function Held(e: Env, a: Actor): set<Lock> {
    match a
    case Done => {}
    case Serving => {}
    case Put(r, pc) =>
      if pc.WaitLife? then {}
      else if pc.WaitChunk? then {LifeRead(e.lifeStripe(r.jid))}
      else {LifeRead(e.lifeStripe(r.jid)), ChunkLock(e.chunkStripe(r.jid, r.n))}
    case Complete(id, locked) => if locked then {LifeWrite(e.lifeStripe(id))} else {}
    case Finalize(id, pc) =>
      if pc.WaitFin? then {}
      else if pc.FinSchedule? then {LifeWrite(e.lifeStripe(id))} + HeldSched(pc.sched)
      else {LifeWrite(e.lifeStripe(id))}
    case Worker(_, pc) => if pc.WorkSchedule? then HeldSched(pc.sched) else {}
    case Admit(pc) => if pc.WaitAdmission? then {} else {AdmissionLock}
    case Collect(g) => HeldGc(e, g)
    case Recover(pc) =>
      match pc
      case Expiring(g) => HeldGc(e, g)
      case Reject(id, _) => {LifeWrite(e.lifeStripe(id))}
      case RejectSweep(id, _) => {LifeWrite(e.lifeStripe(id))}
      case RecSchedule(q) => HeldSched(q)
      case _ => {}
  }

  /* ---- the system ---- */

  /** threads[0] is the main goroutine; finished goroutines stay behind as Done.
      No threads at all means the process is down. `leaked` adds up the capacity
      lost by processes that died between the two statements of a release. */
  datatype State = State(sh: Shared, threads: seq<Actor>, leaked: nat)

  ghost predicate Listening(s: State) { s.threads != [] && s.threads[0] == Serving }

  datatype Event =
    | Run(t: nat, ch: Choice)
    | Tick(to: nat)
    | Create(id: JobId, key: string, req: Request)
    | Arrive(a: Actor)
    | Crash(after: map<JobId, Job>)
    | Restart(cfg: Config)

  /** What arrives from outside once the service listens: requests and collector ticks. */
  ghost predicate Arrival(s: State, a: Actor) {
    || (a.Put? && a.put.WaitLife? && |a.req.body| <= a.req.length)
    || (a.Complete? && !a.locked)
    || a == Collect(WaitGc(s.sh.clock))
  }

  /** The spool and the output as a crash may leave them. A killed process loses
      nothing; a power loss may lose unsynced bytes, whole unsynced directory
      entries and the renames of the input and of a manifest, and undo the removal
      of a spool. The directory of a completed artifact was synced with its manifest. */
  ghost predicate CrashJob(j: Job, j': Job) {
    && j' == j.(part := j'.part, input := j'.input, output := j'.output)
    && (j'.output.manifest == j.output.manifest || (j.state != COMPLETED && j'.output.manifest.None?))
    && (j'.output.artifact.Some? ==>
          && j.output.artifact.Some?
          && j'.output.artifact.value.name == j.output.artifact.value.name
          && Survives(j.output.artifact.value.file, j'.output.artifact.value.file))
    && (j.state == COMPLETED && j.output.artifact.Some? ==> j'.output.artifact.Some?)
    && (!Terminal(j.state) && j'.part.Some? ==>
          || (j.part.Some? && Survives(j.part.value, j'.part.value))
          || (j.input.Some? && Survives(j.input.value, j'.part.value)))
    && (!Terminal(j.state) && j'.input.Some? ==> j.input.Some? && Survives(j.input.value, j'.input.value))
  }

  ghost predicate CrashTo(s: State, after: map<JobId, Job>) {
    after.Keys == s.sh.jobs.Keys && forall id :: id in after ==> CrashJob(s.sh.jobs[id], after[id])
  }

  function FloatingRel(r: RelPc): nat { if r.FreeCapacity? then r.amount else 0 }
  function FloatingFail(f: FailPc): nat { if f.FailRelease? then FloatingRel(f.rel) else 0 }

  /** What a release has taken off its job and not yet given back to the capacity. */
  function Floating(a: Actor): nat {
    match a
    case Finalize(_, FinFail(f)) => FloatingFail(f)
    case Worker(_, WorkFail(f)) => FloatingFail(f)
    case Worker(_, WorkRelease(r)) => FloatingRel(r)
    case Admit(AdmitFail(_, f)) => FloatingFail(f)
    case _ => 0
  }

  /** Running thread t is possible unless it would take a lock another thread holds. */
  ghost predicate Enabled(e: Env, s: State, t: nat, ch: Choice) {
    && t < |s.threads|
    && var next := Step(e, s.sh, s.threads[t], ch).next;
       forall u :: 0 <= u < |s.threads| && u != t ==> Exclude(Held(e, next), Held(e, s.threads[u]))
  }

  predicate HasKey(j: Job, key: string) { j.key.Some? && j.key.value.id == key }

  function Specified(e: Env, sh: Shared, req: Request): Result<Output> {
    Normalize(req, sh.cfg.limits, e.validName, e.validSha)
  }

  /** The row that `create` inserts for a request with this normalized specification. */
  function CreatedJob(e: Env, sh: Shared, key: string, req: Request, spec: Output): Job
    requires sh.cfg.chunk > 0 && req.input.size > 0
  {
    NewJob(RequestKey(key, RequestDigest(e, Lowered(req.input), spec)), Lowered(req.input), spec, sh.clock, sh.cfg.chunk, Expiry(sh))
  }

  /** The row is the one this request created, as far as key and request digest tell. */
  predicate AnswersTo(e: Env, sh: Shared, j: Job, key: string, req: Request) {
    HasKey(j, key) && Specified(e, sh, req).Ok?
    && j.key.value.digest == RequestDigest(e, Lowered(req.input), Specified(e, sh, req).value)
  }

  ghost predicate KeyUsed(sh: Shared, key: string) {
    exists id :: id in sh.jobs && HasKey(sh.jobs[id], key)
  }

  ghost function RunThread(e: Env, s: State, t: nat, ch: Choice): State
    requires t < |s.threads|
  {
    var o := Step(e, s.sh, s.threads[t], ch);
    State(o.sh, s.threads[t := o.next] + o.spawned, s.leaked)
  }

  ghost predicate CreateAllowed(e: Env, s: State, ev: Event)
    requires ev.Create?
  {
    && Listening(s) && ev.id !in s.sh.jobs && !KeyUsed(s.sh, ev.key)
    && Specified(e, s.sh, ev.req).Ok?
  }

  /** One step of the system. */
  ghost predicate Next(e: Env, s: State, ev: Event, s': State) {
    match ev
    case Run(t, ch) => Enabled(e, s, t, ch) && s' == RunThread(e, s, t, ch)
    case Tick(to) => s.sh.clock <= to && s' == s.(sh := s.sh.(clock := to))
    case Create(id, key, req) =>
      && CreateAllowed(e, s, ev) && s.sh.cfg.chunk > 0 && req.input.size > 0
      && var j := CreatedJob(e, s.sh, key, req, Specified(e, s.sh, req).value);
         s' == s.(sh := Set(s.sh, id, j), threads := s.threads + [Admit(WaitAdmission)])
    case Arrive(a) => Listening(s) && Arrival(s, a) && s' == s.(threads := s.threads + [a])
    case Crash(after) =>
      CrashTo(s, after) && s' == State(s.sh.(jobs := after, sem := 0), [], s.leaked + SumSeq(s.threads, Floating))
    case Restart(cfg) =>
      && s.threads == [] && ConfigOk(cfg)
      && s' == s.(sh := s.sh.(cfg := cfg, total := if s.sh.reserved == 0 then cfg.limits.capacity else s.sh.total),
                  threads := [Recover(Expiring(WaitGc(s.sh.clock)))])
  }

  /** The service before its first start: nothing, or a database rebuilt from its output directory. */
  ghost predicate Initial(e: Env, s: State) {
    && s.sh.total == 0 && s.sh.reserved == 0 && s.sh.sem == 0 && s.threads == [] && s.leaked == 0
    && forall id :: id in s.sh.jobs ==> FromBackfill(e, id, s.sh.jobs[id])
  }

  /** A run: a sequence of states joined by events. */
  ghost predicate Execution(e: Env, states: seq<State>, events: seq<Event>) {
    && |states| == |events| + 1
    && forall i :: 0 <= i < |events| ==> Next(e, states[i], events[i], states[i + 1])
  }

  ghost predicate Reachable(e: Env, s: State) {
    exists states, events :: Execution(e, states, events) && Initial(e, states[0]) && states[|states| - 1] == s
  }
}
