/** What one step may do to one job: the transition table, and for every field
    the only ways it changes. */
module Effects {
  import opened Base
  import opened Chunks
  import opened Files
  import opened Spec
  import opened Jobs
  import opened Engine
  import opened Safety

  /* ---- the transition table ---- */

  predicate Expirer(a: Actor, id: JobId) {
    || (a.Collect? && a.gc.ExpireJob? && a.gc.jid == id)
    || (a.Recover? && a.rec.Expiring? && a.rec.gc.ExpireJob? && a.rec.gc.jid == id)
  }

  predicate Starter(a: Actor, id: JobId) {
    || (a.Finalize? && a.fin.FinSchedule? && a.fin.sched == StartJob(id))
    || (a.Worker? && a.work.WorkSchedule? && a.work.sched == StartJob(id))
    || a == Recover(RecSchedule(StartJob(id)))
  }

  /** Every change of state that exists, and the goroutine that makes it. */
  predicate Edge(a: Actor, id: JobId, from: JobState, to: JobState) {
    match to
    case PENDING => false
    case ADMITTED => from == PENDING && a.Admit?
    case UPLOADING => from == ADMITTED && a.Put? && a.put.Commit? && a.req.jid == id
    case FINALIZING => Accepting(from) && a == Complete(id, true)
    case STAGED => from == FINALIZING && a.Finalize? && a.jid == id
    case PROBING => from == STAGED && a.Finalize? && a.jid == id
    case VALIDATED => from == PROBING && a.Finalize? && a.jid == id
    case QUEUED => (from == VALIDATED && a.Finalize? && a.jid == id) || (from in {STARTING, TRANSCODING} && a == Recover(Requeue))
    case STARTING => from == QUEUED && Starter(a, id)
    case TRANSCODING => from == STARTING && a.Worker? && a.jid == id
    case COMPLETED => from == TRANSCODING && a.Worker? && a.jid == id
    case EXPIRED => Uploadable(from) && Expirer(a, id)
    case FAILED =>
      || (from == PENDING && a.Admit?)
      || (Accepting(from) && a.Recover? && a.rec.Reject? && a.rec.jid == id)
      || (from in {FINALIZING, PROBING} && a.Finalize? && a.jid == id)
      || (from in {STARTING, TRANSCODING} && a.Worker? && a.jid == id)
  }

  /* ---- the fields ---- */

  predicate Commits(a: Actor, id: JobId) { a.Put? && a.put.Commit? && a.req.jid == id }
  predicate Stages(a: Actor, id: JobId) { a.Finalize? && a.fin.Stage? && a.jid == id }

  /** The chunk rows change by a commit of one chunk, or go when the job ends. */
  ghost predicate RowsEffect(a: Actor, id: JobId, j: Job, j': Job) {
    || j'.rows == j.rows
    || (Terminal(j'.state) && j'.rows == map[])
    || (Commits(a, id) && a.req.n !in j.rows && j'.rows == j.rows[a.req.n := Row(a.put.want, a.req.sum)])
  }

  /** The spool files are written by a PUT, synced, renamed, prepared for a
      pending job, or removed; other steps leave them alone. */
  ghost predicate SpoolEffect(a: Actor, id: JobId, j: Job, j': Job) {
    || (j'.part == j.part && j'.input == j.input)
    || !HasSpool(j')
    || (j.input.None? && j'.part.None? && j'.input == j.part && j.state == FINALIZING)
    || (j.state == PENDING && j'.input == j.input)
    || (j'.input == j.input && j.part.Some? && PutEffect(a, id, j, j'))
  }

  ghost predicate PutEffect(a: Actor, id: JobId, j: Job, j': Job)
    requires j.part.Some?
  {
    && a.Put? && a.req.jid == id && Accepting(j.state)
    && (j'.part == Some(Sync(j.part.value)) ||
        (a.put.Write? && a.put.got < |a.req.body| &&
         exists z: nat :: a.put.got + z <= |a.req.body| && j'.part == Some(Pwrite(j.part.value, a.put.off + a.put.got, Piece(a.req, a.put.got, z)))))
  }

  function Piece(r: PutReq, got: nat, z: nat): seq<Byte>
    requires got + z <= |r.body|
  {
    r.body[got..got + z]
  }

  /** What stays of a completed job: everything but its spool and its reservation. */
  function Unsettled(j: Job, k: Job): Job {
    j.(part := k.part, input := k.input, reserved := k.reserved, ledger := k.ledger)
  }

  /** Everything a step of actor a may do to job id. */
  ghost predicate JobEffect(sh: Shared, a: Actor, id: JobId, j: Job, j': Job) {
    && (j'.state == j.state || Edge(a, id, j.state, j'.state))
    && (Uploadable(j'.state) ==> j'.deadline == j.deadline || j'.deadline == Some(Expiry(sh)))
    && RowsEffect(a, id, j, j') && SpoolEffect(a, id, j, j')
    && (j'.actualHash == j.actualHash || (Stages(a, id) && j.state == FINALIZING && j'.actualHash == a.fin.hash))
    && (j'.state == STAGED && j.state != STAGED ==> Stages(a, id))
    && (j.state == COMPLETED ==> j' == Unsettled(j, j'))
    && Fixed(j, j')
  }

  ghost predicate Effect(sh: Shared, a: Actor, sh': Shared, id: JobId) {
    id in sh.jobs ==> id in sh'.jobs && (sh'.jobs[id] == sh.jobs[id] || JobEffect(sh, a, id, sh.jobs[id], sh'.jobs[id]))
  }

  lemma FailEffect(sh: Shared, a: Actor, id: JobId, f: FailPc, states: set<JobState>, k: JobId)
    requires FailInv(sh, id, f, states) && forall s :: s in states ==> Edge(a, id, s, FAILED)
    ensures Effect(sh, a, FailStep(sh, id, f).sh, k)
  {
    hide RelInv, Edge, PutEffect;
  }

  lemma ReleaseEffect(sh: Shared, a: Actor, id: JobId, r: RelPc, k: JobId)
    ensures Effect(sh, a, ReleaseStep(sh, id, r).sh, k)
  {
    hide Edge, PutEffect;
  }

  lemma SchedEffect(e: Env, sh: Shared, a: Actor, q: SchedPc, ch: Choice, k: JobId)
    requires q.StartJob? ==> Starter(a, q.next)
    ensures Effect(sh, a, SchedStep(e, sh, q, ch).sh, k)
  {
    hide IsOldestQueued, Starter, PutEffect;
  }

  lemma GcEffect(sh: Shared, a: Actor, g: GcPc, ch: Choice, k: JobId)
    requires g.ExpireJob? ==> Expirer(a, g.jid)
    ensures Effect(sh, a, GcStep(sh, g, ch).sh, k)
  {
    hide Expirer, PutEffect;
  }

  lemma PutStepEffect(e: Env, sh: Shared, r: PutReq, pc: PutPc, ch: Choice, k: JobId)
    requires ActorInv(e, sh, Put(r, pc))
    ensures Effect(sh, Put(r, pc), PutStep(e, sh, r, pc, ch).sh, k)
  {
    hide Pwrite, Sync, ReadyExcept, Holds, OnDisk, ChunkBytes, Expected;
    if pc.Write? && ch.ok && pc.got < |r.body| {
      var z := if 1 <= ch.count <= |r.body| - pc.got then ch.count else |r.body| - pc.got;
      assert Piece(r, pc.got, z) == r.body[pc.got..pc.got + z];
    }
  }

  lemma CompleteEffect(sh: Shared, id: JobId, locked: bool, k: JobId)
    ensures Effect(sh, Complete(id, locked), CompleteStep(sh, id, locked).sh, k)
  {
    hide PutEffect;
  }

  lemma FinalizeEffect(e: Env, sh: Shared, id: JobId, pc: FinPc, ch: Choice, k: JobId)
    requires ActorInv(e, sh, Finalize(id, pc))
    ensures Effect(sh, Finalize(id, pc), FinalizeStep(e, sh, id, pc, ch).sh, k)
  {
    hide SchedStep, FailStep, FailInv, SchedInv, PutEffect;
    match pc
    case FinSchedule(q) => SchedEffect(e, sh, Finalize(id, pc), q, ch, k);
    case FinFail(f) => FailEffect(sh, Finalize(id, pc), id, f, {FINALIZING, PROBING}, k);
    case _ =>
  }

  lemma WorkerEffect(e: Env, sh: Shared, id: JobId, pc: WorkPc, ch: Choice, k: JobId)
    requires ActorInv(e, sh, Worker(id, pc))
    ensures Effect(sh, Worker(id, pc), WorkerStep(e, sh, id, pc, ch).sh, k)
  {
    hide SchedStep, FailStep, ReleaseStep, FailInv, SchedInv, Manifested, ManifestOf, RelInv, PutEffect;
    match pc
    case WorkSchedule(q) => SchedEffect(e, sh, Worker(id, pc), q, ch, k);
    case WorkFail(f) => FailEffect(sh, Worker(id, pc), id, f, {STARTING, TRANSCODING}, k);
    case WorkRelease(r) => ReleaseEffect(sh, Worker(id, pc), id, r, k);
    case _ =>
  }

  lemma AdmitEffect(e: Env, sh: Shared, pc: AdmitPc, ch: Choice, k: JobId)
    requires ActorInv(e, sh, Admit(pc))
    ensures Effect(sh, Admit(pc), AdmitStep(e, sh, pc, ch).sh, k)
  {
    hide FailStep, IsHead, Ready, FailInv, Truncate, PutEffect;
    if pc.AdmitFail? { FailEffect(sh, Admit(pc), pc.head, pc.fail, {PENDING}, k); }
  }

  lemma RecoverEffect(e: Env, sh: Shared, pc: RecoverPc, ch: Choice, k: JobId)
    ensures Effect(sh, Recover(pc), RecoverStep(e, sh, pc, ch).sh, k)
  {
    hide GcStep, SchedStep, NextUpload, NextSpool, Listed, InState, Finalizers, PutEffect;
    match pc
    case Expiring(g) => GcEffect(sh, Recover(pc), g, ch, k);
    case RecSchedule(q) => SchedEffect(e, sh, Recover(pc), q, ch, k);
    case _ =>
  }

  /** Every step of every actor stays within the table. */
  lemma StepEffect(e: Env, sh: Shared, a: Actor, ch: Choice, k: JobId)
    requires ActorInv(e, sh, a)
    ensures Effect(sh, a, Step(e, sh, a, ch).sh, k)
  {
    hide ActorInv, FinalizeStep, WorkerStep, AdmitStep, RecoverStep, GcStep, PutStep, CompleteStep, JobEffect;
    match a
    case Put(r, pc) => PutStepEffect(e, sh, r, pc, ch, k);
    case Complete(id, locked) => CompleteEffect(sh, id, locked, k);
    case Finalize(id, pc) => FinalizeEffect(e, sh, id, pc, ch, k);
    case Worker(id, pc) => WorkerEffect(e, sh, id, pc, ch, k);
    case Admit(pc) => AdmitEffect(e, sh, pc, ch, k);
    case Collect(g) => GcEffect(sh, a, g, ch, k);
    case Recover(pc) => RecoverEffect(e, sh, pc, ch, k);
    case _ =>
  }
}
