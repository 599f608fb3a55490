/** Rely and guarantee: what each actor may do to a job, what it relies on at
    each program counter, and what every step therefore preserves. */
module Safety {
  import opened Base
  import opened Chunks
  import opened Files
  import opened Spec
  import opened Jobs
  import opened Engine

  /* ---- the guarantee ---- */

  function OwnsSched(q: SchedPc): Option<JobId> { if q.Send? then Some(q.next) else None }

  /** The job an actor alone drives: finalization, a started job on its way to a worker, and the worker. */
  function Owns(a: Actor): Option<JobId> {
    match a
    case Finalize(id, pc) => if pc.FinSchedule? then OwnsSched(pc.sched) else Some(id)
    case Worker(id, pc) => if pc.WorkSchedule? then OwnsSched(pc.sched) else if pc.FreeSlot? then None else Some(id)
    case Recover(pc) => if pc.RecSchedule? then OwnsSched(pc.sched) else None
    case _ => None
  }

  ghost predicate Fixed(j: Job, j': Job) {
    && j'.key == j.key && j'.filename == j.filename && j'.created == j.created && j'.size == j.size
    && j'.chunkSize == j.chunkSize && j'.expected == j.expected && j'.spec == j.spec && j'.inputHash == j.inputHash
  }

  /** Outside the region, f' keeps the bytes of f and forgets no more of them. */
  ghost predicate SameOutside(f: File, f': File, off: nat, len: nat) {
    && |f'.data| >= |f.data|
    && forall i :: 0 <= i < |f.data| && !(off <= i < off + len) ==>
         f'.data[i] == f.data[i] && (i !in f.dirty ==> i !in f'.dirty)
  }

  /** What a PUT of chunk n may change. */
  ghost predicate PutFrame(j: Job, j': Job, n: nat) {
    && Accepting(j'.state) && j'.input == j.input
    && (j'.part == j.part ||
        (j.part.Some? && j'.part.Some? && ChunkBytes(j.size, j.chunkSize, n) >= 0
         && SameOutside(j.part.value, j'.part.value, n * j.chunkSize, ChunkBytes(j.size, j.chunkSize, n))))
    && (j'.rows == j.rows || (n !in j.rows && n in j'.rows && j'.rows == j.rows[n := j'.rows[n]]))
    && (Ready(j) ==> Ready(j'))
  }

  ghost predicate PutPermit(e: Env, a: Actor, id: JobId, j: Job, j': Job) {
    && a.Put? && a.req.jid == id
    && LifeRead(e.lifeStripe(id)) in Held(e, a) && ChunkLock(e.chunkStripe(id, a.req.n)) in Held(e, a)
    && PutFrame(j, j', a.req.n)
  }

  /** The guarantee: who may change a job in which state, and into what. */
  ghost predicate Permit(e: Env, a: Actor, id: JobId, j: Job, j': Job) {
    j' == j ||
    (Fixed(j, j') &&
     match j.state
     case PENDING =>
       && AdmissionLock in Held(e, a) && j'.state in {PENDING, ADMITTED, FAILED, EXPIRED}
       && (j'.state == PENDING ==> j'.deadline == j.deadline)
       && (j'.state == ADMITTED ==> Ready(j'))
     case ADMITTED => AcceptingPermit(e, a, id, j, j')
     case UPLOADING => AcceptingPermit(e, a, id, j, j')
     case QUEUED => ScheduleLock in Held(e, a) && j' == j.(state := STARTING)
     case COMPLETED => TerminalPermit(a, id, j, j')
     case FAILED => TerminalPermit(a, id, j, j')
     case EXPIRED => TerminalPermit(a, id, j, j')
     case _ =>
       && (Owns(a) == Some(id) || a == Recover(Requeue))
       && !Uploadable(j'.state))
  }

  ghost predicate AcceptingPermit(e: Env, a: Actor, id: JobId, j: Job, j': Job) {
    || (LifeWrite(e.lifeStripe(id)) in Held(e, a) && j'.state in {FINALIZING, EXPIRED, FAILED})
    || PutPermit(e, a, id, j, j')
  }

  ghost predicate TerminalPermit(a: Actor, id: JobId, j: Job, j': Job) {
    && j'.state == j.state
    && (Owns(a) == Some(id) || j' == j.(part := j'.part, input := j'.input))
  }

  ghost predicate Permitted(e: Env, a: Actor, sh: Shared, sh': Shared) {
    && sh'.jobs.Keys == sh.jobs.Keys
    && sh'.cfg == sh.cfg && sh'.total == sh.total && sh'.clock == sh.clock
    && (sh'.sem <= sh.sem || ScheduleLock in Held(e, a))
    && forall id :: id in sh.jobs ==> Permit(e, a, id, sh.jobs[id], sh'.jobs[id])
  }

  /* ---- the rely ---- */

  ghost predicate ReadyExcept(sh: Shared, rest: set<JobId>) {
    forall id :: id in sh.jobs && Accepting(sh.jobs[id].state) && id !in rest ==> Ready(sh.jobs[id])
  }

  /** Every upload in progress has its preallocated spool file. */
  ghost predicate SpoolReady(sh: Shared) { ReadyExcept(sh, {}) }

  ghost predicate AllAccepting(sh: Shared, ids: set<JobId>) {
    forall id :: id in ids ==> id in sh.jobs && Accepting(sh.jobs[id].state)
  }

  /** The released job has nothing reserved any more. */
  ghost predicate RelInv(j: Job, r: RelPc) { !r.ZeroRow? ==> j.reserved == 0 }

  ghost predicate FailInv(sh: Shared, id: JobId, f: FailPc, states: set<JobState>) {
    && id in sh.jobs
    && (if f.FailClean? then sh.jobs[id].state == FAILED else sh.jobs[id].state in states)
    && (f.FailRelease? ==> RelInv(sh.jobs[id], f.rel))
  }

  ghost predicate SchedInv(sh: Shared, q: SchedPc) {
    match q
    case PickJob => sh.sem < sh.cfg.active
    case StartJob(id) => sh.sem < sh.cfg.active && id in sh.jobs && sh.jobs[id].state == QUEUED
    case Send(id) => sh.sem < sh.cfg.active && id in sh.jobs && sh.jobs[id].state == STARTING
    case _ => true
  }

  /** The PUT is for a chunk of the job, and knows its place. */
  ghost predicate PutPlace(j: Job, r: PutReq, want: nat, off: nat) {
    && j.chunkSize > 0 && r.n < Expected(j.size, j.chunkSize)
    && want == ChunkBytes(j.size, j.chunkSize, r.n) && off == r.n * j.chunkSize && r.length == want
  }

  /** The PUT is writing: the job takes uploads and the chunk is not yet verified. */
  ghost predicate PutOpen(j: Job, r: PutReq, want: nat, off: nat) {
    PutPlace(j, r, want, off) && Accepting(j.state) && r.n !in j.rows && j.part.Some?
  }

  ghost predicate PutWritten(e: Env, j: Job, r: PutReq, want: nat, off: nat) {
    && PutOpen(j, r, want, off) && |r.body| == want && e.sha(r.body) == r.sum
    && Holds(j.part.value, off, r.body)
  }

  ghost predicate PutInv(e: Env, sh: Shared, r: PutReq, pc: PutPc) {
    && |r.body| <= r.length
    && match pc
       case ReadRow(want, off, accepting) =>
         && r.jid in sh.jobs && PutPlace(sh.jobs[r.jid], r, want, off)
         && (accepting ==> Accepting(sh.jobs[r.jid].state))
       case Write(want, off, got) =>
         && r.jid in sh.jobs && PutOpen(sh.jobs[r.jid], r, want, off)
         && got <= |r.body| && Holds(sh.jobs[r.jid].part.value, off, r.body[..got])
       case SyncFile(want, off) => r.jid in sh.jobs && PutWritten(e, sh.jobs[r.jid], r, want, off)
       case Commit(want, off) =>
         && r.jid in sh.jobs && PutWritten(e, sh.jobs[r.jid], r, want, off)
         && OnDisk(sh.jobs[r.jid].part.value, off, want)
       case _ => true
  }

  ghost predicate FinInv(e: Env, sh: Shared, id: JobId, pc: FinPc) {
    if pc.FinSchedule? then SchedInv(sh, pc.sched)
    else
      && id in sh.jobs
      && var j := sh.jobs[id];
         match pc
         case WaitFin => j.state == FINALIZING
         case Rename => j.state == FINALIZING
         case HashInput => j.state == FINALIZING && j.input.Some?
         case Stage(h) => j.state == FINALIZING && j.input.Some? && h == e.sha(j.input.value.data)
         case MarkProbing => j.state == STAGED
         case Probe => j.state == PROBING
         case MarkValidated => j.state == PROBING
         case MarkQueued => j.state == VALIDATED
         case FinFail(f) => FailInv(sh, id, f, {FINALIZING, PROBING})
         case _ => true
  }

  ghost predicate WorkInv(e: Env, sh: Shared, id: JobId, pc: WorkPc) {
    if pc.WorkSchedule? then SchedInv(sh, pc.sched)
    else if pc.FreeSlot? then true
    else
      && id in sh.jobs
      && var j := sh.jobs[id];
         match pc
         case Load => j.state == STARTING
         case MakeCgroup(_) => j.state == STARTING
         case MarkTranscoding(_) => j.state == STARTING
         case Encode(_) => j.state == TRANSCODING
         case WriteManifest(_) =>
           j.state == TRANSCODING && j.output.artifact.Some? && j.output.artifact.value.name == ArtifactName(j.spec) && Unsynced(j)
         case Record(_, at) => j.state == TRANSCODING && Manifested(e, id, j, at) && Unsynced(j)
         case WorkRelease(r) => j.state == COMPLETED && RelInv(j, r)
         case WorkFail(f) => FailInv(sh, id, f, {STARTING, TRANSCODING})
         case CleanSpool => j.state == COMPLETED || j.state == FAILED
         case _ => true
  }

  ghost predicate AdmitInv(sh: Shared, pc: AdmitPc) {
    match pc
    case ReserveHead(id) => id in sh.jobs && sh.jobs[id].state == PENDING && sh.jobs[id].reserved == 0
    case Prepare(id, x) => id in sh.jobs && sh.jobs[id].state == PENDING && sh.jobs[id].reserved == x == sh.jobs[id].size
    case MarkAdmitted(id, x) =>
      && id in sh.jobs && sh.jobs[id].state == PENDING && sh.jobs[id].reserved == x == sh.jobs[id].size
      && Ready(sh.jobs[id])
    case AdmitFail(id, f) => FailInv(sh, id, f, {PENDING})
    case _ => true
  }

  ghost predicate GcInv(sh: Shared, g: GcPc) {
    && g.now <= sh.clock
    && (g.SweepJob? ==> g.jid in sh.jobs && sh.jobs[g.jid].state == EXPIRED)
  }

  ghost predicate RecInv(sh: Shared, pc: RecoverPc) {
    match pc
    case Expiring(g) => GcInv(sh, g)
    case ListUploads => true
    case Inspect(id, rest) => id !in rest && AllAccepting(sh, rest + {id}) && ReadyExcept(sh, rest + {id})
    case WaitReject(id, rest) => id !in rest && AllAccepting(sh, rest + {id}) && ReadyExcept(sh, rest + {id})
    case Reject(id, rest) => id !in rest && AllAccepting(sh, rest + {id}) && ReadyExcept(sh, rest + {id})
    case RejectSweep(id, rest) =>
      AllAccepting(sh, rest) && ReadyExcept(sh, rest) && id in sh.jobs && sh.jobs[id].state == FAILED
    case Respawn => SpoolReady(sh) && forall id :: id in sh.jobs ==> sh.jobs[id].state !in {STARTING, TRANSCODING}
    case RecSchedule(q) => SpoolReady(sh) && SchedInv(sh, q)
    case _ => SpoolReady(sh)
  }

  /** What an actor relies on at its program counter. */
  ghost predicate ActorInv(e: Env, sh: Shared, a: Actor) {
    match a
    case Done => true
    case Serving => SpoolReady(sh)
    case Put(r, pc) => SpoolReady(sh) && PutInv(e, sh, r, pc)
    case Complete(_, _) => SpoolReady(sh)
    case Finalize(id, pc) => FinInv(e, sh, id, pc)
    case Worker(id, pc) => WorkInv(e, sh, id, pc)
    case Admit(pc) => AdmitInv(sh, pc)
    case Collect(g) => GcInv(sh, g)
    case Recover(pc) => RecInv(sh, pc)
  }

  /** The main goroutine before it starts finalizers and the scheduler. */
  predicate Booting(a: Actor) { a.Recover? && !a.rec.RecSchedule? }
  predicate Bystander(a: Actor) { a.Done? || a.Admit? }

  /** Two goroutines that can exist side by side. */
  ghost predicate Compatible2(e: Env, a: Actor, b: Actor) {
    && Exclude(Held(e, a), Held(e, b))
    && (Owns(a).Some? ==> Owns(b) != Owns(a))
    && (Booting(a) ==> Bystander(b)) && (Booting(b) ==> Bystander(a))
  }

  ghost predicate DbInv(e: Env, sh: Shared) {
    sh.reserved <= sh.total && forall id :: id in sh.jobs ==> JobInv(e, id, sh.jobs[id])
  }

  /** No actor owns the job, so a new owner may be created. */
  ghost predicate Unowned(sh: Shared, a: Actor, id: JobId) {
    id in sh.jobs && (a == Recover(Respawn) || !(Owned(sh.jobs[id].state) || Terminal(sh.jobs[id].state)))
  }

  ghost predicate NewOwner(sh: Shared, a: Actor, b: Actor) {
    Owns(b).Some? ==> Owns(b) == Owns(a) || Unowned(sh, a, Owns(b).value)
  }

  ghost predicate SpawnOk(e: Env, sh: Shared, a: Actor, o: Outcome, b: Actor) {
    && ActorInv(e, o.sh, b) && Held(e, b) == {} && (b.Finalize? || b.Admit? || (b.Worker? && b.work.Load?))
    && NewOwner(sh, a, b) && (Owns(b).Some? ==> Owns(b) != Owns(o.next))
  }

  /** What every step of actor a establishes. */
  ghost predicate StepOk(e: Env, sh: Shared, a: Actor, o: Outcome) {
    && DbInv(e, o.sh) && ActorInv(e, o.sh, o.next) && Permitted(e, a, sh, o.sh)
    && NewOwner(sh, a, o.next)
    && (forall i :: 0 <= i < |o.spawned| ==> SpawnOk(e, sh, a, o, o.spawned[i]))
    && (forall i, k :: 0 <= i < k < |o.spawned| && Owns(o.spawned[i]).Some? ==> Owns(o.spawned[i]) != Owns(o.spawned[k]))
  }
}
