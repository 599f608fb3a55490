/** What an actor relies on survives every step of every actor beside it. */
module SafetyStable {
  import opened Base
  import opened Chunks
  import opened Files
  import opened Jobs
  import opened Engine
  import opened Safety
  import opened SafetySteps

  /* ---- one job ---- */

  /** A job in a processing state changes only under its owner, or when recovery requeues. */
  lemma OwnedStable(e: Env, a: Actor, id: JobId, j: Job, j': Job)
    requires Permit(e, a, id, j, j') && Owned(j.state) && Owns(a) != Some(id) && a != Recover(Requeue)
    ensures j' == j
  {
  }

  /** Terminal states are absorbing, and only the owner touches more than the spool. */
  lemma TerminalStable(e: Env, a: Actor, id: JobId, j: Job, j': Job)
    requires Permit(e, a, id, j, j') && Terminal(j.state)
    ensures j'.state == j.state
    ensures Owns(a) != Some(id) ==> j' == j.(part := j'.part, input := j'.input)
  {
  }

  lemma PendingStable(e: Env, a: Actor, id: JobId, j: Job, j': Job)
    requires Permit(e, a, id, j, j') && j.state == PENDING && AdmissionLock !in Held(e, a)
    ensures j' == j
  {
  }

  lemma QueuedStable(e: Env, a: Actor, id: JobId, j: Job, j': Job)
    requires Permit(e, a, id, j, j') && j.state == QUEUED && ScheduleLock !in Held(e, a)
    ensures j' == j
  {
  }

  /** An upload in progress stays ready, and a job becomes an upload only with its file. */
  lemma ReadyStep(e: Env, a: Actor, id: JobId, j: Job, j': Job)
    requires Permit(e, a, id, j, j') && Accepting(j'.state) && (Accepting(j.state) ==> Ready(j))
    ensures Ready(j')
  {
    hide Held, Owns, SameOutside;
  }

  lemma ReadyStable(e: Env, a: Actor, sh: Shared, sh': Shared, rest: set<JobId>)
    requires Permitted(e, a, sh, sh') && ReadyExcept(sh, rest)
    ensures ReadyExcept(sh', rest)
  {
    hide Permit, Ready, Held;
    forall id | id in sh'.jobs && Accepting(sh'.jobs[id].state) && id !in rest ensures Ready(sh'.jobs[id]) {
      ReadyStep(e, a, id, sh.jobs[id], sh'.jobs[id]);
    }
  }

  lemma LocksApart(e: Env, a: Actor, b: Actor, x: Lock)
    requires Compatible2(e, a, b) && x in Held(e, b) && !x.LifeRead?
    ensures x !in Held(e, a)
  {
    hide Held, Owns;
  }

  /* ---- uploads ---- */

  lemma RegionKept(f: File, f': File, off: nat, len: nat, at: nat, bytes: seq<Byte>)
    requires SameOutside(f, f', off, len) && Holds(f, at, bytes) && (at + |bytes| <= off || off + len <= at)
    ensures Holds(f', at, bytes) && (OnDisk(f, at, |bytes|) ==> OnDisk(f', at, |bytes|))
  {
    assert forall i :: at <= i < at + |bytes| ==> f'.data[i] == f.data[at..at + |bytes|][i - at];
  }

  /** While a PUT is open on a chunk, others leave its region and its row alone. */
  lemma PutJobStable(e: Env, a: Actor, r: PutReq, pc: PutPc, j: Job, j': Job, want: nat, off: nat, bytes: seq<Byte>)
    requires Permit(e, a, r.jid, j, j') && Compatible2(e, a, Put(r, pc)) && !pc.WaitLife? && !pc.WaitChunk?
    requires PutOpen(j, r, want, off) && Holds(j.part.value, off, bytes) && |bytes| <= want
    ensures PutOpen(j', r, want, off) && Holds(j'.part.value, off, bytes)
    ensures OnDisk(j.part.value, off, |bytes|) ==> OnDisk(j'.part.value, off, |bytes|)
  {
    hide Held, Holds, OnDisk, SameOutside, ChunkBytes, Expected;
    if j' != j {
      PutOthers(e, a, r, pc, j, j');
      if j'.part != j.part {
        ChunksDisjoint(j.size, j.chunkSize, a.req.n, r.n);
        RegionKept(j.part.value, j'.part.value, a.req.n * j.chunkSize, ChunkBytes(j.size, j.chunkSize, a.req.n), off, bytes);
      }
    }
  }

  /** Whoever changes a job beside an open PUT is a PUT of another chunk. */
  lemma PutOthers(e: Env, a: Actor, r: PutReq, pc: PutPc, j: Job, j': Job)
    requires Permit(e, a, r.jid, j, j') && Compatible2(e, a, Put(r, pc)) && !pc.WaitLife? && !pc.WaitChunk?
    requires Accepting(j.state) && j' != j
    ensures a.Put? && a.req.jid == r.jid && a.req.n != r.n && PutFrame(j, j', a.req.n) && Fixed(j, j')
  {
    hide PutFrame, Owns;
    var b := Put(r, pc);
    assert LifeRead(e.lifeStripe(r.jid)) in Held(e, b) && ChunkLock(e.chunkStripe(r.jid, r.n)) in Held(e, b);
    assert Conflict(LifeWrite(e.lifeStripe(r.jid)), LifeRead(e.lifeStripe(r.jid)));
    assert LifeWrite(e.lifeStripe(r.jid)) !in Held(e, a);
    assert PutPermit(e, a, r.jid, j, j');
    assert Conflict(ChunkLock(e.chunkStripe(r.jid, r.n)), ChunkLock(e.chunkStripe(r.jid, r.n)));
  }

  /** Under the read lock an upload keeps accepting. */
  lemma AcceptingStable(e: Env, a: Actor, r: PutReq, pc: PutPc, j: Job, j': Job)
    requires Permit(e, a, r.jid, j, j') && Compatible2(e, a, Put(r, pc)) && !pc.WaitLife? && !pc.WaitChunk?
    requires Accepting(j.state)
    ensures Accepting(j'.state) && Fixed(j, j')
  {
    hide Held, Owns, Permit;
    if j' != j { PutOthers(e, a, r, pc, j, j'); }
  }

  lemma FixedStep(e: Env, a: Actor, id: JobId, j: Job, j': Job)
    requires Permit(e, a, id, j, j')
    ensures Fixed(j, j')
  {
    hide Held, Owns, PutFrame;
  }

  lemma PutStable(e: Env, sh: Shared, sh': Shared, a: Actor, r: PutReq, pc: PutPc)
    requires Permitted(e, a, sh, sh') && Compatible2(e, a, Put(r, pc)) && ActorInv(e, sh, Put(r, pc))
    ensures ActorInv(e, sh', Put(r, pc))
  {
    hide Permit, Compatible2, Held, ReadyExcept, Holds, OnDisk, ChunkBytes, Expected;
    ReadyStable(e, a, sh, sh', {});
    match pc
    case ReadRow(want, off, accepting) =>
      FixedStep(e, a, r.jid, sh.jobs[r.jid], sh'.jobs[r.jid]);
      if accepting { AcceptingStable(e, a, r, pc, sh.jobs[r.jid], sh'.jobs[r.jid]); }
    case Write(want, off, got) =>
      PutJobStable(e, a, r, pc, sh.jobs[r.jid], sh'.jobs[r.jid], want, off, r.body[..got]);
    case SyncFile(want, off) =>
      PutJobStable(e, a, r, pc, sh.jobs[r.jid], sh'.jobs[r.jid], want, off, r.body);
    case Commit(want, off) =>
      PutJobStable(e, a, r, pc, sh.jobs[r.jid], sh'.jobs[r.jid], want, off, r.body);
    case _ =>
  }

  /* ---- the others ---- */

  lemma SchedStable(e: Env, sh: Shared, sh': Shared, a: Actor, b: Actor, q: SchedPc)
    requires Permitted(e, a, sh, sh') && Compatible2(e, a, b) && SchedInv(sh, q) && a != Recover(Requeue)
    requires (q.WaitSched? || ScheduleLock in Held(e, b)) && Owns(b) == OwnsSched(q)
    ensures SchedInv(sh', q)
  {
    hide Permit, Compatible2, Held, Owns;
    if !q.WaitSched? { LocksApart(e, a, b, ScheduleLock); }
    match q
    case StartJob(id) => QueuedStable(e, a, id, sh.jobs[id], sh'.jobs[id]);
    case Send(id) =>
      OwnersApart(e, a, b);
      OwnedStable(e, a, id, sh.jobs[id], sh'.jobs[id]);
    case _ =>
  }

  lemma OwnersApart(e: Env, a: Actor, b: Actor)
    requires Compatible2(e, a, b) && Owns(b).Some?
    ensures Owns(a) != Owns(b)
  {
    hide Held, Owns;
  }

  lemma NotBooting(e: Env, a: Actor, b: Actor)
    requires Compatible2(e, a, b) && !Bystander(b)
    ensures a != Recover(Requeue)
  {
    hide Held, Owns;
  }

  /** What a failing actor knows of its job survives if nobody else drives the job. */
  lemma FailStable(e: Env, sh: Shared, sh': Shared, a: Actor, id: JobId, f: FailPc, states: set<JobState>)
    requires Permitted(e, a, sh, sh') && FailInv(sh, id, f, states)
    requires !f.FailClean? ==> sh'.jobs[id] == sh.jobs[id]
    ensures FailInv(sh', id, f, states)
  {
    hide Permit;
    if f.FailClean? { TerminalStable(e, a, id, sh.jobs[id], sh'.jobs[id]); }
  }

  lemma FinalizeStable(e: Env, sh: Shared, sh': Shared, a: Actor, id: JobId, pc: FinPc)
    requires Permitted(e, a, sh, sh') && Compatible2(e, a, Finalize(id, pc)) && ActorInv(e, sh, Finalize(id, pc))
    ensures ActorInv(e, sh', Finalize(id, pc))
  {
    hide Permit, Compatible2, SchedInv, FailInv;
    NotBooting(e, a, Finalize(id, pc));
    if pc.FinSchedule? {
      SchedStable(e, sh, sh', a, Finalize(id, pc), pc.sched);
    } else {
      OwnersApart(e, a, Finalize(id, pc));
      if pc.FinFail? {
        FailStates(sh, id, pc.fail, {FINALIZING, PROBING});
        if !pc.fail.FailClean? { OwnedStable(e, a, id, sh.jobs[id], sh'.jobs[id]); }
        FailStable(e, sh, sh', a, id, pc.fail, {FINALIZING, PROBING});
      } else {
        OwnedStable(e, a, id, sh.jobs[id], sh'.jobs[id]);
      }
    }
  }

  lemma FailStates(sh: Shared, id: JobId, f: FailPc, states: set<JobState>)
    requires FailInv(sh, id, f, states)
    ensures id in sh.jobs && (f.FailClean? || sh.jobs[id].state in states)
  {
  }

  lemma WorkerStable(e: Env, sh: Shared, sh': Shared, a: Actor, id: JobId, pc: WorkPc)
    requires Permitted(e, a, sh, sh') && Compatible2(e, a, Worker(id, pc)) && ActorInv(e, sh, Worker(id, pc))
    ensures ActorInv(e, sh', Worker(id, pc))
  {
    hide Permit, Compatible2, SchedInv, FailInv, Manifested;
    NotBooting(e, a, Worker(id, pc));
    if pc.WorkSchedule? {
      SchedStable(e, sh, sh', a, Worker(id, pc), pc.sched);
    } else if !pc.FreeSlot? {
      OwnersApart(e, a, Worker(id, pc));
      if pc.WorkFail? {
        FailStates(sh, id, pc.fail, {STARTING, TRANSCODING});
        if !pc.fail.FailClean? { OwnedStable(e, a, id, sh.jobs[id], sh'.jobs[id]); }
        FailStable(e, sh, sh', a, id, pc.fail, {STARTING, TRANSCODING});
      } else if pc.WorkRelease? || pc.CleanSpool? {
        TerminalStable(e, a, id, sh.jobs[id], sh'.jobs[id]);
      } else {
        OwnedStable(e, a, id, sh.jobs[id], sh'.jobs[id]);
      }
    }
  }

  lemma AdmitStable(e: Env, sh: Shared, sh': Shared, a: Actor, pc: AdmitPc)
    requires Permitted(e, a, sh, sh') && Compatible2(e, a, Admit(pc)) && ActorInv(e, sh, Admit(pc))
    ensures ActorInv(e, sh', Admit(pc))
  {
    hide Permit, Compatible2, FailInv, Ready;
    if !pc.WaitAdmission? { LocksApart(e, a, Admit(pc), AdmissionLock); }
    match pc
    case ReserveHead(id) => PendingStable(e, a, id, sh.jobs[id], sh'.jobs[id]);
    case Prepare(id, x) => PendingStable(e, a, id, sh.jobs[id], sh'.jobs[id]);
    case MarkAdmitted(id, x) => PendingStable(e, a, id, sh.jobs[id], sh'.jobs[id]);
    case AdmitFail(id, f) =>
      FailStates(sh, id, f, {PENDING});
      if !f.FailClean? { PendingStable(e, a, id, sh.jobs[id], sh'.jobs[id]); }
      FailStable(e, sh, sh', a, id, f, {PENDING});
    case _ =>
  }

  lemma GcStable(e: Env, sh: Shared, sh': Shared, a: Actor, g: GcPc)
    requires Permitted(e, a, sh, sh') && GcInv(sh, g)
    ensures GcInv(sh', g)
  {
    hide Permit;
    if g.SweepJob? { TerminalStable(e, a, g.jid, sh.jobs[g.jid], sh'.jobs[g.jid]); }
  }

  /** Only bystanders run beside a booting main goroutine, and they leave uploads alone. */
  lemma BystanderKeeps(e: Env, a: Actor, id: JobId, j: Job, j': Job)
    requires Permit(e, a, id, j, j') && Bystander(a)
    ensures j.state != PENDING && !Terminal(j.state) ==> j' == j
    ensures j.state == PENDING ==> j'.state in {PENDING, ADMITTED, FAILED, EXPIRED}
  {
  }

  lemma AllAcceptingStable(e: Env, sh: Shared, sh': Shared, a: Actor, ids: set<JobId>)
    requires Permitted(e, a, sh, sh') && Bystander(a) && AllAccepting(sh, ids)
    ensures AllAccepting(sh', ids)
  {
    hide Permit, Bystander;
    forall id | id in ids ensures id in sh'.jobs && Accepting(sh'.jobs[id].state) {
      BystanderKeeps(e, a, id, sh.jobs[id], sh'.jobs[id]);
    }
  }

  lemma NoneStarting(e: Env, sh: Shared, sh': Shared, a: Actor)
    requires Permitted(e, a, sh, sh') && Bystander(a)
    requires forall id :: id in sh.jobs ==> sh.jobs[id].state !in {STARTING, TRANSCODING}
    ensures forall id :: id in sh'.jobs ==> sh'.jobs[id].state !in {STARTING, TRANSCODING}
  {
    hide Permit, Bystander;
    forall id | id in sh'.jobs ensures sh'.jobs[id].state !in {STARTING, TRANSCODING} {
      BystanderKeeps(e, a, id, sh.jobs[id], sh'.jobs[id]);
      if Terminal(sh.jobs[id].state) { TerminalStable(e, a, id, sh.jobs[id], sh'.jobs[id]); }
    }
  }

  lemma BesideBooting(e: Env, a: Actor, b: Actor)
    requires Compatible2(e, a, b) && Booting(b)
    ensures Bystander(a)
  {
    hide Held, Owns;
  }

  lemma RecoverStable(e: Env, sh: Shared, sh': Shared, a: Actor, pc: RecoverPc)
    requires Permitted(e, a, sh, sh') && Compatible2(e, a, Recover(pc)) && ActorInv(e, sh, Recover(pc))
    ensures ActorInv(e, sh', Recover(pc))
  {
    hide Permit, Compatible2, AllAccepting, ReadyExcept, GcInv, SchedInv;
    if !pc.RecSchedule? { BesideBooting(e, a, Recover(pc)); }
    match pc
    case Expiring(g) => GcStable(e, sh, sh', a, g);
    case ListUploads =>
    case Inspect(id, rest) =>
      ReadyStable(e, a, sh, sh', rest + {id});
      AllAcceptingStable(e, sh, sh', a, rest + {id});
    case WaitReject(id, rest) =>
      ReadyStable(e, a, sh, sh', rest + {id});
      AllAcceptingStable(e, sh, sh', a, rest + {id});
    case Reject(id, rest) =>
      ReadyStable(e, a, sh, sh', rest + {id});
      AllAcceptingStable(e, sh, sh', a, rest + {id});
    case RejectSweep(id, rest) =>
      ReadyStable(e, a, sh, sh', rest);
      AllAcceptingStable(e, sh, sh', a, rest);
      TerminalStable(e, a, id, sh.jobs[id], sh'.jobs[id]);
    case Respawn =>
      ReadyStable(e, a, sh, sh', {});
      NoneStarting(e, sh, sh', a);
    case RecSchedule(q) =>
      ReadyStable(e, a, sh, sh', {});
      NotBooting(e, a, Recover(pc));
      SchedStable(e, sh, sh', a, Recover(pc), q);
    case _ => ReadyStable(e, a, sh, sh', {});
  }

  /** The rely of b survives the step of any actor a that can run beside it. */
  lemma Stable(e: Env, sh: Shared, sh': Shared, a: Actor, b: Actor)
    requires Permitted(e, a, sh, sh') && Compatible2(e, a, b) && ActorInv(e, sh, b)
    ensures ActorInv(e, sh', b)
  {
    hide Permitted, Compatible2, PutInv, FinInv, WorkInv, AdmitInv, GcInv, RecInv, ReadyExcept;
    match b
    case Done =>
    case Serving => ReadyStable(e, a, sh, sh', {});
    case Put(r, pc) => PutStable(e, sh, sh', a, r, pc);
    case Complete(_, _) => ReadyStable(e, a, sh, sh', {});
    case Finalize(id, pc) => FinalizeStable(e, sh, sh', a, id, pc);
    case Worker(id, pc) => WorkerStable(e, sh, sh', a, id, pc);
    case Admit(pc) => AdmitStable(e, sh, sh', a, pc);
    case Collect(g) => GcStable(e, sh, sh', a, g);
    case Recover(pc) => RecoverStable(e, sh, sh', a, pc);
  }
}
