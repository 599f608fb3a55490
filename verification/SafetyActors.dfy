/** Every step of the finalizer, the worker, the admission loop, the collector
    and the recovery establishes StepOk. */
module SafetyActors {
  import opened Base
  import opened Files
  import opened Spec
  import opened Jobs
  import opened JobSteps
  import opened Engine
  import opened Safety
  import opened SafetySteps
  import opened SafetyRoutines

  /** An owner moves its job between processing states. */
  lemma OwnerMay(e: Env, a: Actor, id: JobId, j: Job, j': Job)
    requires Owned(j.state) && Owns(a) == Some(id) && Fixed(j, j') && !Uploadable(j'.state)
    ensures Permit(e, a, id, j, j')
  {
  }

  /* ---- finalization ---- */

  lemma FailLoadInv(sh: Shared, id: JobId, states: set<JobState>)
    requires id in sh.jobs
    ensures sh.jobs[id].state in states ==> FailInv(sh, id, FailLoad, states)
  {
  }

  lemma FixedBy(j: Job, pc: FinPc, e: Env, sh: Shared, id: JobId, ch: Choice)
    requires id in sh.jobs && j == sh.jobs[id] && !pc.FinFail? && !pc.FinSchedule?
    ensures id in FinalizeStep(e, sh, id, pc, ch).sh.jobs && Fixed(j, FinalizeStep(e, sh, id, pc, ch).sh.jobs[id])
  {
    hide FailStep, SchedStep;
  }

  /** The statements of the finalizer, seen from the job. */
  lemma FinalizeJob(e: Env, id: JobId, sh: Shared, pc: FinPc, ch: Choice)
    requires EnvOk(e) && id in sh.jobs && JobInv(e, id, sh.jobs[id]) && FinInv(e, sh, id, pc)
    requires !pc.FinFail? && !pc.FinSchedule?
    ensures var o := FinalizeStep(e, sh, id, pc, ch);
            && id in o.sh.jobs && o.sh.jobs == sh.jobs[id := o.sh.jobs[id]]
            && JobInv(e, id, o.sh.jobs[id]) && Fixed(sh.jobs[id], o.sh.jobs[id]) && !Uploadable(o.sh.jobs[id].state)
            && (o.sh.jobs == sh.jobs || Owned(sh.jobs[id].state))
            && FinInv(e, o.sh, id, o.next.fin)
  {
    hide JobInv, FailStep, SchedStep, FailInv, Fixed;
    var j := sh.jobs[id];
    assert sh.jobs == sh.jobs[id := j];
    FailLoadInv(sh, id, {FINALIZING, PROBING});
    FixedBy(j, pc, e, sh, id, ch);
    match pc
    case Rename => RenameKeeps(e, id, j);
    case Stage(h) => StageKeeps(e, id, j, h);
    case MarkProbing => AdvanceKeeps(e, id, j, PROBING);
    case MarkValidated => AdvanceKeeps(e, id, j, VALIDATED);
    case MarkQueued => AdvanceKeeps(e, id, j, QUEUED);
    case _ =>
  }

  lemma FinalizeOk(e: Env, sh: Shared, id: JobId, pc: FinPc, ch: Choice)
    requires EnvOk(e) && DbInv(e, sh) && ActorInv(e, sh, Finalize(id, pc))
    ensures StepOk(e, sh, Finalize(id, pc), FinalizeStep(e, sh, id, pc, ch))
  {
    hide DbInv, JobInv, Permit, StepOk, SchedStep, FailStep, SpawnOk;
    var a, o := Finalize(id, pc), FinalizeStep(e, sh, id, pc, ch);
    match pc
    case FinSchedule(q) =>
      SchedKeeps(e, sh, q, ch);
      SchedActor(e, sh, a, q, ch, o);
    case FinFail(f) =>
      FailOk(e, sh, a, id, f, {FINALIZING, PROBING});
      ChangedWaking(e, sh, a, id, o);
    case _ =>
      InvOf(e, sh, id);
      TotalOf(e, sh);
      FinalizeJob(e, id, sh, pc, ch);
      OwnerMay(e, a, id, sh.jobs[id], o.sh.jobs[id]);
      Changed(e, sh, a, id, o);
  }

  /* ---- the worker ---- */

  lemma EncodeKeeps(e: Env, id: JobId, j: Job, at: nat)
    requires JobInv(e, id, j) && j.state == TRANSCODING
    requires j.output.artifact.Some? && j.output.artifact.value.name == ArtifactName(j.spec) && Unsynced(j)
    ensures var j' := WithManifest(e, id, j, at);
            JobInv(e, id, j') && Manifested(e, id, j', at) && Unsynced(j') && Fixed(j, j') && j'.state == TRANSCODING
  {
    hide JobInv;
    OutputKeeps(e, id, j, WithManifest(e, id, j, at).output);
  }

  lemma RecordJob(e: Env, id: JobId, j: Job, at: nat)
    requires JobInv(e, id, j) && j.state == TRANSCODING && Manifested(e, id, j, at)
    ensures JobInv(e, id, MarkCompleted(j, at))
  {
    hide JobInv;
    assert j.output.manifest.value == ManifestOf(e, id, j, j.output.artifact.value.file.data, at);
    RecordKeeps(e, id, j, at);
  }

  lemma EncodedUnsynced(j: Job, ch: Choice)
    ensures ch.ok ==> Unsynced(Encoded(j, ch))
  {
  }

  /** The statements of the worker, seen from the job. */
  lemma WorkerJob(e: Env, id: JobId, sh: Shared, pc: WorkPc, ch: Choice)
    requires id in sh.jobs && JobInv(e, id, sh.jobs[id]) && WorkInv(e, sh, id, pc)
    requires pc.Load? || pc.MakeCgroup? || pc.MarkTranscoding? || pc.Encode? || pc.WriteManifest? || pc.Record?
    ensures var o := WorkerStep(e, sh, id, pc, ch);
            && id in o.sh.jobs && o.sh.jobs == sh.jobs[id := o.sh.jobs[id]]
            && JobInv(e, id, o.sh.jobs[id]) && Fixed(sh.jobs[id], o.sh.jobs[id])
            && !Uploadable(o.sh.jobs[id].state) && Owned(sh.jobs[id].state)
            && WorkInv(e, o.sh, id, o.next.work)
  {
    hide JobInv, Manifested, ManifestOf, ArtifactName, FailStep, SchedStep, ReleaseStep, SchedInv, FailInv, Unsynced;
    var j := sh.jobs[id];
    assert sh.jobs == sh.jobs[id := j];
    FailLoadInv(WorkerStep(e, sh, id, pc, ch).sh, id, {STARTING, TRANSCODING});
    match pc
    case MarkTranscoding(_) => AdvanceKeeps(e, id, j, TRANSCODING);
    case Encode(_) =>
      EncodedUnsynced(j, ch);
      OutputKeeps(e, id, j, Encoded(j, ch).output);
    case WriteManifest(_) => EncodeKeeps(e, id, j, sh.clock);
    case Record(_, at) => RecordJob(e, id, j, at);
    case _ =>
  }

  lemma WorkerRoutineOk(e: Env, sh: Shared, id: JobId, pc: WorkPc, ch: Choice)
    requires DbInv(e, sh) && ActorInv(e, sh, Worker(id, pc)) && (pc.WorkFail? || pc.WorkRelease?)
    ensures StepOk(e, sh, Worker(id, pc), WorkerStep(e, sh, id, pc, ch))
  {
    hide DbInv, JobInv, Permit, StepOk, SchedStep, FailStep, ReleaseStep, SpawnOk, RelInv;
    var a, o := Worker(id, pc), WorkerStep(e, sh, id, pc, ch);
    if pc.WorkFail? {
      FailOk(e, sh, a, id, pc.fail, {STARTING, TRANSCODING});
    } else {
      ReleaseOk(e, sh, a, id, pc.rel);
    }
    ChangedWaking(e, sh, a, id, o);
  }

  lemma WorkerOk(e: Env, sh: Shared, id: JobId, pc: WorkPc, ch: Choice)
    requires DbInv(e, sh) && ActorInv(e, sh, Worker(id, pc))
    ensures StepOk(e, sh, Worker(id, pc), WorkerStep(e, sh, id, pc, ch))
  {
    hide DbInv, JobInv, Permit, StepOk, SchedStep, FailStep, ReleaseStep, SpawnOk, FailInv, RelInv;
    var a, o := Worker(id, pc), WorkerStep(e, sh, id, pc, ch);
    TotalOf(e, sh);
    match pc
    case WorkSchedule(q) =>
      SchedKeeps(e, sh, q, ch);
      SchedActor(e, sh, a, q, ch, o);
    case WorkFail(f) => WorkerRoutineOk(e, sh, id, pc, ch);
    case WorkRelease(r) => WorkerRoutineOk(e, sh, id, pc, ch);
    case FreeSlot => NoJob(e, sh, a, o);
    case CleanSpool =>
      InvOf(e, sh, id);
      RemoveKeeps(e, id, sh.jobs[id]);
      SweepMay(e, a, id, sh.jobs[id]);
      OneJob(e, sh, a, id, RemoveSpool(sh.jobs[id]), o);
    case _ => WorkerStateOk(e, sh, id, pc, ch);
  }

  lemma WorkerStateOk(e: Env, sh: Shared, id: JobId, pc: WorkPc, ch: Choice)
    requires DbInv(e, sh) && ActorInv(e, sh, Worker(id, pc))
    requires pc.Load? || pc.MakeCgroup? || pc.MarkTranscoding? || pc.Encode? || pc.WriteManifest? || pc.Record?
    ensures StepOk(e, sh, Worker(id, pc), WorkerStep(e, sh, id, pc, ch))
  {
    hide DbInv, JobInv, Permit, StepOk, SchedStep, FailStep, ReleaseStep, SpawnOk, FailInv, RelInv, ManifestOf, Manifested;
    var a, o := Worker(id, pc), WorkerStep(e, sh, id, pc, ch);
    TotalOf(e, sh);
    InvOf(e, sh, id);
    WorkerJob(e, id, sh, pc, ch);
    OwnerMay(e, a, id, sh.jobs[id], o.sh.jobs[id]);
    Changed(e, sh, a, id, o);
  }

  /* ---- admission ---- */

  lemma PendingMay(e: Env, a: Actor, id: JobId, j: Job, j': Job)
    requires j.state == PENDING && AdmissionLock in Held(e, a) && Fixed(j, j')
    requires j'.state == PENDING ==> j'.deadline == j.deadline
    requires j'.state == PENDING || (j'.state == ADMITTED && Ready(j'))
    ensures Permit(e, a, id, j, j')
  {
  }

  /** What the admission query finds is pending, and reserved in full or not at all. */
  lemma PickHeadNext(e: Env, sh: Shared, ch: Choice)
    requires DbInv(e, sh)
    ensures var o := AdmitStep(e, sh, PickHead, ch);
            && ActorInv(e, o.sh, o.next) && (o.next.Done? || o.next.Admit?)
            && o.sh == sh.(scan := o.sh.scan) && o.spawned == []
  {
    hide DbInv;
    forall id | id in sh.jobs ensures sh.jobs[id].size > 0 && (sh.jobs[id].reserved == 0 || sh.jobs[id].reserved == sh.jobs[id].size) {
      ReservedSize(e, sh, id);
    }
  }

  lemma PickHeadOk(e: Env, sh: Shared, ch: Choice)
    requires DbInv(e, sh)
    ensures StepOk(e, sh, Admit(PickHead), AdmitStep(e, sh, PickHead, ch))
  {
    hide DbInv, JobInv, StepOk, SpawnOk, AdmitStep, ActorInv;
    PickHeadNext(e, sh, ch);
    TotalOf(e, sh);
    NoJob(e, sh, Admit(PickHead), AdmitStep(e, sh, PickHead, ch));
  }

  lemma ReservedSize(e: Env, sh: Shared, id: JobId)
    requires DbInv(e, sh) && id in sh.jobs
    ensures sh.jobs[id].size > 0 && (sh.jobs[id].reserved == 0 || sh.jobs[id].reserved == sh.jobs[id].size)
  {
    hide DbInv;
    InvOf(e, sh, id);
  }

  lemma ReadyAdmitted(j: Job, x: nat, deadline: nat)
    requires Ready(j)
    ensures Ready(Admitted(j, x, deadline))
  {
  }

  lemma AdmitOk(e: Env, sh: Shared, pc: AdmitPc, ch: Choice)
    requires DbInv(e, sh) && ActorInv(e, sh, Admit(pc))
    ensures StepOk(e, sh, Admit(pc), AdmitStep(e, sh, pc, ch))
  {
    hide DbInv, JobInv, Permit, StepOk, FailStep, SpawnOk, IsHead, Ready;
    var a, o := Admit(pc), AdmitStep(e, sh, pc, ch);
    TotalOf(e, sh);
    match pc
    case WaitAdmission => NoJob(e, sh, a, o);
    case PickHead => PickHeadOk(e, sh, ch);
    case ReserveHead(id) =>
      var j := sh.jobs[id];
      if ch.ok && sh.reserved + j.size <= sh.total && j.ledger.None? {
        InvOf(e, sh, id);
        ReserveKeeps(e, id, j);
        PendingMay(e, a, id, j, Reserve(j));
        OneJob(e, sh, a, id, Reserve(j), o);
      } else {
        NoJob(e, sh, a, o);
      }
    case Prepare(id, x) =>
      if ch.ok {
        InvOf(e, sh, id);
        PrepareKeeps(e, id, sh.jobs[id]);
        PendingMay(e, a, id, sh.jobs[id], PrepareInput(sh.jobs[id]));
        OneJob(e, sh, a, id, PrepareInput(sh.jobs[id]), o);
      } else {
        NoJob(e, sh, a, o);
      }
    case MarkAdmitted(id, x) =>
      InvOf(e, sh, id);
      AdmittedKeeps(e, id, sh.jobs[id], x, Expiry(sh));
      ReadyAdmitted(sh.jobs[id], x, Expiry(sh));
      PendingMay(e, a, id, sh.jobs[id], Admitted(sh.jobs[id], x, Expiry(sh)));
      OneJob(e, sh, a, id, Admitted(sh.jobs[id], x, Expiry(sh)), o);
    case AdmitFail(id, f) =>
      FailOk(e, sh, a, id, f, {PENDING});
      ChangedWaking(e, sh, a, id, o);
  }

  /* ---- the collector ---- */

  lemma CollectOk(e: Env, sh: Shared, g: GcPc, ch: Choice)
    requires DbInv(e, sh) && ActorInv(e, sh, Collect(g))
    ensures StepOk(e, sh, Collect(g), CollectStep(sh, g, ch))
  {
    hide DbInv, JobInv, StepOk, GcStep, GcInv;
    GcKeeps(sh, g, ch);
    GcActor(e, sh, Collect(g), g, ch, CollectStep(sh, g, ch));
  }

  /* ---- recovery ---- */

  lemma RejectMay(e: Env, a: Actor, id: JobId, j: Job, now: nat)
    requires Accepting(j.state) && LifeWrite(e.lifeStripe(id)) in Held(e, a)
    ensures Permit(e, a, id, j, RejectUpload(j, now))
  {
  }

  /** The inspection list only ever holds uploads, and everything off the list is ready. */
  lemma NextUploadKeeps(sh: Shared, rest: set<JobId>, ch: Choice)
    requires AllAccepting(sh, rest) && ReadyExcept(sh, rest)
    ensures RecInv(sh, NextUpload(rest, ch))
  {
    hide Ready;
    if rest != {} {
      var id := PickFrom(rest, ch);
      assert rest - {id} + {id} == rest;
    }
  }

  lemma ListUploadsOk(e: Env, sh: Shared, ch: Choice)
    requires DbInv(e, sh)
    ensures StepOk(e, sh, Recover(ListUploads), RecoverStep(e, sh, ListUploads, ch))
  {
    hide DbInv, JobInv, StepOk, RecInv, NextUpload, Ready, SpawnOk;
    var o := RecoverStep(e, sh, ListUploads, ch);
    NextUploadKeeps(sh, Engine.Uploads(sh), ch);
    NextBoots(Engine.Uploads(sh), ch);
    TotalOf(e, sh);
    NoJob(e, sh, Recover(ListUploads), o);
  }

  lemma NextBoots(rest: set<JobId>, ch: Choice)
    ensures !NextUpload(rest, ch).RecSchedule?
  {
  }

  lemma InspectOk(e: Env, sh: Shared, id: JobId, rest: set<JobId>, ch: Choice)
    requires DbInv(e, sh) && RecInv(sh, Inspect(id, rest))
    ensures StepOk(e, sh, Recover(Inspect(id, rest)), RecoverStep(e, sh, Inspect(id, rest), ch))
  {
    hide DbInv, JobInv, StepOk, NextUpload, SpawnOk;
    var o := RecoverStep(e, sh, Inspect(id, rest), ch);
    TotalOf(e, sh);
    NextBoots(rest, ch);
    if ch.ok && sh.jobs[id].part.Some? && |sh.jobs[id].part.value.data| == sh.jobs[id].size {
      NoInputYet(e, sh, id);
      NextUploadKeeps(sh, rest, ch);
    }
    NoJob(e, sh, Recover(Inspect(id, rest)), o);
  }

  lemma NoInputYet(e: Env, sh: Shared, id: JobId)
    requires DbInv(e, sh) && id in sh.jobs && Accepting(sh.jobs[id].state)
    ensures sh.jobs[id].input.None?
  {
    hide DbInv;
    InvOf(e, sh, id);
  }

  /** Rejecting one upload leaves the rest of the list as it was. */
  lemma ListWithout(sh: Shared, id: JobId, j: Job, rest: set<JobId>, sh': Shared)
    requires AllAccepting(sh, rest + {id}) && ReadyExcept(sh, rest + {id})
    requires sh'.jobs == sh.jobs[id := j] && !Accepting(j.state) && id !in rest
    ensures AllAccepting(sh', rest) && ReadyExcept(sh', rest)
  {
    hide Ready;
  }

  lemma RejectOk(e: Env, sh: Shared, id: JobId, rest: set<JobId>, ch: Choice)
    requires DbInv(e, sh) && RecInv(sh, Reject(id, rest))
    ensures StepOk(e, sh, Recover(Reject(id, rest)), RecoverStep(e, sh, Reject(id, rest), ch))
  {
    hide DbInv, JobInv, Permit, StepOk, Ready, ReadyExcept, SpawnOk;
    var a, o := Recover(Reject(id, rest)), RecoverStep(e, sh, Reject(id, rest), ch);
    TotalOf(e, sh);
    InvOf(e, sh, id);
    ExpireKeeps(e, id, sh.jobs[id], sh.clock);
    RejectMay(e, a, id, sh.jobs[id], sh.clock);
    ListWithout(sh, id, RejectUpload(sh.jobs[id], sh.clock), rest, o.sh);
    OneJob(e, sh, a, id, RejectUpload(sh.jobs[id], sh.clock), o);
  }

  lemma RejectSweepOk(e: Env, sh: Shared, id: JobId, rest: set<JobId>, ch: Choice)
    requires DbInv(e, sh) && RecInv(sh, RejectSweep(id, rest))
    ensures StepOk(e, sh, Recover(RejectSweep(id, rest)), RecoverStep(e, sh, RejectSweep(id, rest), ch))
  {
    hide DbInv, JobInv, Permit, StepOk, Ready, NextUpload, SpawnOk;
    var a, o := Recover(RejectSweep(id, rest)), RecoverStep(e, sh, RejectSweep(id, rest), ch);
    TotalOf(e, sh);
    InvOf(e, sh, id);
    RemoveKeeps(e, id, sh.jobs[id]);
    SweepMay(e, a, id, sh.jobs[id]);
    ReadyAfter(sh, id, RemoveSpool(sh.jobs[id]), o.sh, rest);
    NextUploadKeeps(o.sh, rest, ch);
    NextBoots(rest, ch);
    OneJob(e, sh, a, id, RemoveSpool(sh.jobs[id]), o);
  }

  lemma NextSpoolKeeps(sh: Shared, rest: set<JobId>, ch: Choice)
    requires SpoolReady(sh)
    ensures RecInv(sh, NextSpool(rest, ch)) && !NextSpool(rest, ch).RecSchedule?
  {
    hide Ready, ReadyExcept;
  }

  lemma PurgeOk(e: Env, sh: Shared, pc: RecoverPc, ch: Choice)
    requires DbInv(e, sh) && (pc.ListSpools? || pc.Purge?) && SpoolReady(sh)
    ensures StepOk(e, sh, Recover(pc), RecoverStep(e, sh, pc, ch))
  {
    hide DbInv, JobInv, Permit, StepOk, Ready, ReadyExcept, NextSpool, RecInv, SpawnOk;
    var a, o := Recover(pc), RecoverStep(e, sh, pc, ch);
    TotalOf(e, sh);
    if pc.Purge? {
      if pc.jid in sh.jobs && Terminal(sh.jobs[pc.jid].state) {
        InvOf(e, sh, pc.jid);
        RemoveKeeps(e, pc.jid, sh.jobs[pc.jid]);
        SweepMay(e, a, pc.jid, sh.jobs[pc.jid]);
        ReadyAfter(sh, pc.jid, RemoveSpool(sh.jobs[pc.jid]), o.sh, {});
        NextSpoolKeeps(o.sh, pc.rest, ch);
        OneJob(e, sh, a, pc.jid, RemoveSpool(sh.jobs[pc.jid]), o);
      } else {
        NextSpoolKeeps(sh, pc.rest, ch);
        NoJob(e, sh, a, o);
      }
    } else {
      NextSpoolKeeps(sh, Spools(sh), ch);
      NoJob(e, sh, a, o);
    }
  }

  lemma RequeueJob(e: Env, id: JobId, j: Job)
    requires JobInv(e, id, j)
    ensures JobInv(e, id, Requeued(j)) && Permit(e, Recover(Requeue), id, j, Requeued(j))
    ensures Requeued(j).state !in {STARTING, TRANSCODING} && Requeued(j).reserved == j.reserved
  {
    hide JobInv;
    if j.state == STARTING || j.state == TRANSCODING {
      AdvanceKeeps(e, id, j, QUEUED);
    }
  }

  lemma RequeueJobs(e: Env, sh: Shared, sh': Shared)
    requires DbInv(e, sh) && sh' == sh.(jobs := RequeueAll(sh.jobs))
    ensures DbInv(e, sh') && Permitted(e, Recover(Requeue), sh, sh')
    ensures forall id :: id in sh'.jobs ==> sh'.jobs[id].state !in {STARTING, TRANSCODING}
  {
    hide JobInv, Permit, Requeued;
    forall id | id in sh.jobs
      ensures JobInv(e, id, sh'.jobs[id]) && Permit(e, Recover(Requeue), id, sh.jobs[id], sh'.jobs[id])
      ensures sh'.jobs[id].state !in {STARTING, TRANSCODING}
    {
      RequeueJob(e, id, sh.jobs[id]);
    }
    assert sh'.jobs.Keys == sh.jobs.Keys;
  }

  lemma RequeueReady(sh: Shared, sh': Shared)
    requires SpoolReady(sh) && sh' == sh.(jobs := RequeueAll(sh.jobs))
    ensures SpoolReady(sh')
  {
  }

  lemma RequeueOk(e: Env, sh: Shared, ch: Choice)
    requires DbInv(e, sh) && SpoolReady(sh)
    ensures StepOk(e, sh, Recover(Requeue), RecoverStep(e, sh, Requeue, ch))
  {
    hide DbInv, Permitted, ReadyExcept, RequeueAll, SpawnOk;
    var o := RecoverStep(e, sh, Requeue, ch);
    RequeueJobs(e, sh, o.sh);
    RequeueReady(sh, o.sh);
  }

  lemma RespawnSpawns(e: Env, sh: Shared, o: Outcome, ids: seq<JobId>)
    requires o == Outcome(sh, Recover(RecSchedule(WaitSched)), Finalizers(ids) + [Admit(WaitAdmission)])
    requires forall i :: 0 <= i < |ids| ==> ids[i] in sh.jobs && sh.jobs[ids[i]].state == FINALIZING
    ensures forall i :: 0 <= i < |o.spawned| ==> SpawnOk(e, sh, Recover(Respawn), o, o.spawned[i])
  {
    hide SpawnOk;
    forall i | 0 <= i < |o.spawned| ensures SpawnOk(e, sh, Recover(Respawn), o, o.spawned[i]) {
      if i < |ids| {
        FinalizerStarts(e, sh, o, ids[i]);
      } else {
        SpawnAdmitOk(e, sh, Recover(Respawn), o);
      }
    }
  }

  lemma RespawnOwners(ids: seq<JobId>)
    requires forall i, k :: 0 <= i < k < |ids| ==> ids[i] != ids[k]
    ensures var q := Finalizers(ids) + [Admit(WaitAdmission)];
            forall i, k :: 0 <= i < k < |q| && Owns(q[i]).Some? ==> Owns(q[i]) != Owns(q[k])
  {
  }

  lemma RespawnOk(e: Env, sh: Shared, ch: Choice)
    requires DbInv(e, sh) && RecInv(sh, Respawn)
    ensures StepOk(e, sh, Recover(Respawn), RecoverStep(e, sh, Respawn, ch))
  {
    hide DbInv, Ready, ReadyExcept, StepOk, SpawnOk, Owns, Finalizers;
    var a, o := Recover(Respawn), RecoverStep(e, sh, Respawn, ch);
    var ids := Listed<JobId>(InState(sh, FINALIZING));
    forall i | 0 <= i < |ids| ensures ids[i] in sh.jobs && sh.jobs[ids[i]].state == FINALIZING {
      assert ids[i] in ids;
    }
    RespawnSpawns(e, sh, o, ids);
    RespawnOwners(ids);
    OwnsNothing(sh, a, o.next);
    NoJobMany(e, sh, a, o);
  }

  lemma OwnsNothing(sh: Shared, a: Actor, n: Actor)
    requires n == Recover(RecSchedule(WaitSched))
    ensures NewOwner(sh, a, n)
  {
  }

  lemma FinalizerStarts(e: Env, sh: Shared, o: Outcome, id: JobId)
    requires id in sh.jobs && sh.jobs[id].state == FINALIZING && o.sh == sh && o.next == Recover(RecSchedule(WaitSched))
    ensures SpawnOk(e, sh, Recover(Respawn), o, Finalize(id, WaitFin))
  {
  }

  lemma SchedKeepsReady(e: Env, sh: Shared, q: SchedPc, ch: Choice)
    requires SpoolReady(sh)
    ensures SpoolReady(SchedStep(e, sh, q, ch).sh)
  {
    hide IsOldestQueued, Ready;
  }

  lemma RecScheduleOk(e: Env, sh: Shared, q: SchedPc, ch: Choice)
    requires DbInv(e, sh) && RecInv(sh, RecSchedule(q))
    ensures StepOk(e, sh, Recover(RecSchedule(q)), RecoverStep(e, sh, RecSchedule(q), ch))
  {
    hide DbInv, JobInv, StepOk, SchedStep, Ready, ReadyExcept;
    SchedKeeps(e, sh, q, ch);
    SchedKeepsReady(e, sh, q, ch);
    SchedActor(e, sh, Recover(RecSchedule(q)), q, ch, RecoverStep(e, sh, RecSchedule(q), ch));
  }

  lemma ExpiringOk(e: Env, sh: Shared, g: GcPc, ch: Choice)
    requires DbInv(e, sh) && GcInv(sh, g)
    ensures StepOk(e, sh, Recover(Expiring(g)), RecoverStep(e, sh, Expiring(g), ch))
  {
    hide DbInv, JobInv, StepOk, GcStep, GcInv;
    GcKeeps(sh, g, ch);
    GcActor(e, sh, Recover(Expiring(g)), g, ch, RecoverStep(e, sh, Expiring(g), ch));
  }

  lemma WaitRejectOk(e: Env, sh: Shared, id: JobId, rest: set<JobId>, ch: Choice)
    requires DbInv(e, sh) && RecInv(sh, WaitReject(id, rest))
    ensures StepOk(e, sh, Recover(WaitReject(id, rest)), RecoverStep(e, sh, WaitReject(id, rest), ch))
  {
    hide DbInv, JobInv, StepOk, ReadyExcept, AllAccepting, SpawnOk;
    TotalOf(e, sh);
    NoJob(e, sh, Recover(WaitReject(id, rest)), RecoverStep(e, sh, WaitReject(id, rest), ch));
  }

  lemma RecoverOk(e: Env, sh: Shared, pc: RecoverPc, ch: Choice)
    requires DbInv(e, sh) && ActorInv(e, sh, Recover(pc))
    ensures StepOk(e, sh, Recover(pc), RecoverStep(e, sh, pc, ch))
  {
    hide DbInv, StepOk, RecoverStep, Ready, ReadyExcept, AllAccepting, SchedInv, GcInv;
    match pc
    case Expiring(g) => ExpiringOk(e, sh, g, ch);
    case ListUploads => ListUploadsOk(e, sh, ch);
    case Inspect(id, rest) => InspectOk(e, sh, id, rest, ch);
    case WaitReject(id, rest) => WaitRejectOk(e, sh, id, rest, ch);
    case Reject(id, rest) => RejectOk(e, sh, id, rest, ch);
    case RejectSweep(id, rest) => RejectSweepOk(e, sh, id, rest, ch);
    case ListSpools => PurgeOk(e, sh, pc, ch);
    case Purge(id, rest) => PurgeOk(e, sh, pc, ch);
    case Requeue => RequeueOk(e, sh, ch);
    case Respawn => RespawnOk(e, sh, ch);
    case RecSchedule(q) => RecScheduleOk(e, sh, q, ch);
  }

  lemma IdleOk(e: Env, sh: Shared, a: Actor, ch: Choice)
    requires DbInv(e, sh) && ActorInv(e, sh, a) && (a.Done? || a.Serving?)
    ensures StepOk(e, sh, a, Step(e, sh, a, ch))
  {
    hide DbInv, StepOk, ReadyExcept, SpawnOk;
    TotalOf(e, sh);
    NoJob(e, sh, a, Step(e, sh, a, ch));
  }

  /** Every step of every actor keeps the database invariant, stays within the
      actor's permissions, and leaves the actor where its next step can rely on it. */
  lemma StepKeeps(e: Env, sh: Shared, a: Actor, ch: Choice)
    requires EnvOk(e) && DbInv(e, sh) && ActorInv(e, sh, a)
    ensures StepOk(e, sh, a, Step(e, sh, a, ch))
  {
    hide DbInv, ActorInv, StepOk, PutStep, CompleteStep, FinalizeStep, WorkerStep, AdmitStep, CollectStep, RecoverStep;
    match a
    case Put(r, pc) => PutOk(e, sh, r, pc, ch);
    case Complete(id, locked) => CompleteOk(e, sh, id, locked);
    case Finalize(id, pc) => FinalizeOk(e, sh, id, pc, ch);
    case Worker(id, pc) => WorkerOk(e, sh, id, pc, ch);
    case Admit(pc) => AdmitOk(e, sh, pc, ch);
    case Collect(g) => CollectOk(e, sh, g, ch);
    case Recover(pc) => RecoverOk(e, sh, pc, ch);
    case _ => IdleOk(e, sh, a, ch);
  }
}
