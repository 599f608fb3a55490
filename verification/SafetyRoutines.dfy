/** The routines several actors call: release, fail, schedule and the expiry pass. */
module SafetyRoutines {
  import opened Base
  import opened Files
  import opened Jobs
  import opened JobSteps
  import opened Engine
  import opened Safety
  import opened SafetySteps

  /** At most job id changed, within what actor a may do. */
  ghost predicate OneJobChange(e: Env, a: Actor, id: JobId, sh: Shared, sh': Shared) {
    && id in sh.jobs && id in sh'.jobs && sh'.jobs == sh.jobs[id := sh'.jobs[id]]
    && JobInv(e, id, sh'.jobs[id]) && Permit(e, a, id, sh.jobs[id], sh'.jobs[id])
    && sh'.cfg == sh.cfg && sh'.total == sh.total && sh'.clock == sh.clock && sh'.sem == sh.sem
    && sh'.reserved <= sh'.total
  }

  /** Actor a alone decides about this job. */
  ghost predicate Drives(e: Env, a: Actor, id: JobId, j: Job) {
    || (j.state == PENDING && AdmissionLock in Held(e, a))
    || ((Owned(j.state) || Terminal(j.state)) && Owns(a) == Some(id))
  }

  lemma DrivesMay(e: Env, a: Actor, id: JobId, j: Job, j': Job)
    requires Drives(e, a, id, j) && Fixed(j, j') && j'.state == j.state && j'.deadline == j.deadline
    ensures Permit(e, a, id, j, j')
  {
  }

  lemma Unchanged(e: Env, sh: Shared, a: Actor, id: JobId)
    requires DbInv(e, sh) && id in sh.jobs
    ensures OneJobChange(e, a, id, sh, sh)
  {
    hide DbInv, JobInv, Permit;
    InvOf(e, sh, id);
    TotalOf(e, sh);
    SelfPermit(e, a, id, sh.jobs[id]);
    assert sh.jobs == sh.jobs[id := sh.jobs[id]];
  }

  /** A step that ends in OneJobChange. */
  lemma Changed(e: Env, sh: Shared, a: Actor, id: JobId, o: Outcome)
    requires DbInv(e, sh) && OneJobChange(e, a, id, sh, o.sh)
    requires ActorInv(e, o.sh, o.next) && NewOwner(sh, a, o.next)
    requires |o.spawned| <= 1 && (o.spawned != [] ==> SpawnOk(e, sh, a, o, o.spawned[0]))
    ensures StepOk(e, sh, a, o)
  {
    hide DbInv, JobInv, Permit, ActorInv, NewOwner, SpawnOk, StepOk;
    OneJobSpawning(e, sh, a, id, o.sh.jobs[id], o);
  }

  /** A step that ends in OneJobChange and wakes at most the admission. */
  lemma ChangedWaking(e: Env, sh: Shared, a: Actor, id: JobId, o: Outcome)
    requires DbInv(e, sh) && OneJobChange(e, a, id, sh, o.sh)
    requires ActorInv(e, o.sh, o.next) && NewOwner(sh, a, o.next)
    requires o.spawned == [] || o.spawned == [Admit(WaitAdmission)]
    ensures StepOk(e, sh, a, o)
  {
    hide *;
    SpawnAdmitOk(e, sh, a, o);
    Changed(e, sh, a, id, o);
  }

  /* ---- release and fail ---- */

  lemma ReleaseOk(e: Env, sh: Shared, a: Actor, id: JobId, r: RelPc)
    requires DbInv(e, sh) && id in sh.jobs && Drives(e, a, id, sh.jobs[id]) && RelInv(sh.jobs[id], r)
    ensures var o := ReleaseStep(sh, id, r);
            && OneJobChange(e, a, id, sh, o.sh) && o.sh.jobs[id].state == sh.jobs[id].state
            && (o.next.Some? ==> RelInv(o.sh.jobs[id], o.next.value))
            && (o.spawned == [] || o.spawned == [Admit(WaitAdmission)])
  {
    hide DbInv, JobInv, Permit;
    var j := sh.jobs[id];
    InvOf(e, sh, id);
    TotalOf(e, sh);
    Unchanged(e, sh, a, id);
    match r
    case ZeroRow(x) =>
      ZeroKeeps(e, id, j, x);
      DrivesMay(e, a, id, j, ZeroReserved(j, x));
    case FreeCapacity(x) =>
    case DropLedger =>
      DropKeeps(e, id, j);
      DrivesMay(e, a, id, j, j.(ledger := None));
  }

  lemma FailMay(e: Env, a: Actor, id: JobId, j: Job, now: nat)
    requires Drives(e, a, id, j) && !Terminal(j.state)
    ensures Permit(e, a, id, j, MarkFailed(j, now))
  {
  }

  lemma SweepMay(e: Env, a: Actor, id: JobId, j: Job)
    requires Terminal(j.state)
    ensures Permit(e, a, id, j, RemoveSpool(j))
  {
  }

  lemma FailOk(e: Env, sh: Shared, a: Actor, id: JobId, f: FailPc, states: set<JobState>)
    requires DbInv(e, sh) && FailInv(sh, id, f, states)
    requires states <= {PENDING, FINALIZING, PROBING, STARTING, TRANSCODING}
    requires f.FailClean? || Drives(e, a, id, sh.jobs[id])
    ensures var o := FailStep(sh, id, f);
            && OneJobChange(e, a, id, sh, o.sh)
            && (o.next.Some? ==> FailInv(o.sh, id, o.next.value, states))
            && (o.next.None? ==> o.sh.jobs[id].state == FAILED)
            && (o.spawned == [] || o.spawned == [Admit(WaitAdmission)])
  {
    hide DbInv, JobInv, Permit;
    var j := sh.jobs[id];
    InvOf(e, sh, id);
    TotalOf(e, sh);
    Unchanged(e, sh, a, id);
    match f
    case FailLoad =>
    case FailRelease(r) => ReleaseOk(e, sh, a, id, r);
    case FailMark =>
      FailedKeeps(e, id, j, sh.clock);
      FailMay(e, a, id, j, sh.clock);
    case FailClean =>
      RemoveKeeps(e, id, j);
      SweepMay(e, a, id, j);
  }

  /* ---- the scheduler ---- */

  lemma SchedKeeps(e: Env, sh: Shared, q: SchedPc, ch: Choice)
    requires SchedInv(sh, q)
    ensures var o := SchedStep(e, sh, q, ch); o.next.Some? ==> SchedInv(o.sh, o.next.value)
  {
    hide IsOldestQueued;
    if q.PickJob? { PickedQueued(e, sh, ch); }
  }

  lemma PickedQueued(e: Env, sh: Shared, ch: Choice)
    requires SchedInv(sh, PickJob)
    ensures var o := SchedStep(e, sh, PickJob, ch); o.sh == sh && o.spawned == [] && (o.next.Some? ==> o.next.value.StartJob? && SchedInv(sh, o.next.value))
  {
  }

  lemma StartMay(e: Env, a: Actor, id: JobId, j: Job)
    requires j.state == QUEUED && ScheduleLock in Held(e, a)
    ensures Permit(e, a, id, j, Advance(j, QUEUED, STARTING))
  {
  }

  /** A step of the scheduler loop inside any actor. */
  lemma SchedActor(e: Env, sh: Shared, a: Actor, q: SchedPc, ch: Choice, o: Outcome)
    requires DbInv(e, sh) && SchedInv(sh, q)
    requires var s := SchedStep(e, sh, q, ch);
             && o.sh == s.sh && o.spawned == s.spawned
             && Owns(o.next) == (if s.next.Some? then OwnsSched(s.next.value) else None)
    requires (q.WaitSched? || ScheduleLock in Held(e, a)) && Owns(a) == OwnsSched(q)
    requires ActorInv(e, o.sh, o.next)
    ensures StepOk(e, sh, a, o)
  {
    hide DbInv, JobInv, Permit, ActorInv, Owns, Held, StepOk, IsOldestQueued;
    TotalOf(e, sh);
    match q
    case PickJob =>
      PickedQueued(e, sh, ch);
      NoJob(e, sh, a, o);
    case StartJob(id) =>
      if sh.jobs[id].state == QUEUED {
        InvOf(e, sh, id);
        AdvanceKeeps(e, id, sh.jobs[id], STARTING);
        StartMay(e, a, id, sh.jobs[id]);
        OneJob(e, sh, a, id, Advance(sh.jobs[id], QUEUED, STARTING), o);
      }
    case Send(id) =>
      WorkerLoads(e, sh, a, o, id);
      NoJob(e, sh, a, o);
    case _ => NoJob(e, sh, a, o);
  }

  lemma WorkerLoads(e: Env, sh: Shared, a: Actor, o: Outcome, id: JobId)
    requires id in o.sh.jobs && o.sh.jobs[id].state == STARTING && Owns(a) == Some(id) && Owns(o.next) == None
    ensures SpawnOk(e, sh, a, o, Worker(id, Load))
  {
    hide DbInv, JobInv;
  }

  /* ---- the expiry pass ---- */

  lemma GcKeeps(sh: Shared, g: GcPc, ch: Choice)
    requires GcInv(sh, g)
    ensures var o := GcStep(sh, g, ch); o.next.Some? ==> GcInv(o.sh, o.next.value)
  {
  }

  lemma ExpireMay(e: Env, a: Actor, id: JobId, j: Job, now: nat)
    requires Expirable(j, now) && AdmissionLock in Held(e, a) && LifeWrite(e.lifeStripe(id)) in Held(e, a)
    ensures Permit(e, a, id, j, Expire(j, now))
  {
  }

  /** A step of the expiry pass inside any actor. */
  lemma GcActor(e: Env, sh: Shared, a: Actor, g: GcPc, ch: Choice, o: Outcome)
    requires DbInv(e, sh) && GcInv(sh, g) && Held(e, a) == HeldGc(e, g)
    requires o.sh == GcStep(sh, g, ch).sh && o.spawned == GcStep(sh, g, ch).spawned
    requires ActorInv(e, o.sh, o.next) && Owns(o.next) == None
    ensures StepOk(e, sh, a, o)
  {
    hide DbInv, JobInv, Permit, ActorInv, Owns, Held, StepOk, SpawnOk;
    TotalOf(e, sh);
    SpawnAdmitOk(e, sh, a, o);
    match g
    case ExpireJob(now, id, rest) =>
      if id in sh.jobs && Expirable(sh.jobs[id], now) {
        InvOf(e, sh, id);
        ExpireKeeps(e, id, sh.jobs[id], now);
        ExpireMay(e, a, id, sh.jobs[id], now);
        OneJob(e, sh, a, id, Expire(sh.jobs[id], now), o);
      } else {
        NoJob(e, sh, a, o);
      }
    case SweepJob(now, id, rest) =>
      InvOf(e, sh, id);
      RemoveKeeps(e, id, sh.jobs[id]);
      SweepMay(e, a, id, sh.jobs[id]);
      OneJobSpawning(e, sh, a, id, RemoveSpool(sh.jobs[id]), o);
    case _ => NoJob(e, sh, a, o);
  }
}
