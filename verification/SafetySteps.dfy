/** Every step of every actor establishes StepOk: uploads and completion. */
module SafetySteps {
  import opened Base
  import opened Chunks
  import opened Files
  import opened Spec
  import opened Jobs
  import opened JobSteps
  import opened Engine
  import opened Safety

  /* ---- assembling StepOk ---- */

  lemma InvOf(e: Env, sh: Shared, id: JobId)
    requires DbInv(e, sh) && id in sh.jobs
    ensures JobInv(e, id, sh.jobs[id])
  {
    hide JobInv;
  }

  /** A step that changes one job and starts the goroutines `o.spawned`. */
  lemma OneJobSpawning(e: Env, sh: Shared, a: Actor, id: JobId, j: Job, o: Outcome)
    requires DbInv(e, sh) && id in sh.jobs && JobInv(e, id, j) && Permit(e, a, id, sh.jobs[id], j)
    requires o.sh.jobs == sh.jobs[id := j] && o.sh.cfg == sh.cfg && o.sh.total == sh.total && o.sh.clock == sh.clock
    requires o.sh.sem == sh.sem && o.sh.reserved <= o.sh.total
    requires ActorInv(e, o.sh, o.next) && NewOwner(sh, a, o.next)
    requires |o.spawned| <= 1 && (o.spawned != [] ==> SpawnOk(e, sh, a, o, o.spawned[0]))
    ensures StepOk(e, sh, a, o)
  {
    hide JobInv, Permit, ActorInv, NewOwner, SpawnOk;
    assert forall k :: k in sh.jobs && k != id ==> o.sh.jobs[k] == sh.jobs[k];
    forall k | k in sh.jobs ensures Permit(e, a, k, sh.jobs[k], o.sh.jobs[k]) {
      if k != id { SelfPermit(e, a, k, sh.jobs[k]); }
    }
  }

  lemma SelfPermit(e: Env, a: Actor, id: JobId, j: Job)
    ensures Permit(e, a, id, j, j)
  {
  }

  lemma OneJob(e: Env, sh: Shared, a: Actor, id: JobId, j: Job, o: Outcome)
    requires DbInv(e, sh) && id in sh.jobs && JobInv(e, id, j) && Permit(e, a, id, sh.jobs[id], j)
    requires o.sh.jobs == sh.jobs[id := j] && o.sh.cfg == sh.cfg && o.sh.total == sh.total && o.sh.clock == sh.clock
    requires o.sh.sem == sh.sem && o.sh.reserved <= o.sh.total
    requires ActorInv(e, o.sh, o.next) && NewOwner(sh, a, o.next) && o.spawned == []
    ensures StepOk(e, sh, a, o)
  {
    hide *;
    OneJobSpawning(e, sh, a, id, j, o);
  }

  /** A step that changes no job. */
  lemma NoJob(e: Env, sh: Shared, a: Actor, o: Outcome)
    requires DbInv(e, sh) && o.sh.jobs == sh.jobs && o.sh.cfg == sh.cfg && o.sh.total == sh.total && o.sh.clock == sh.clock
    requires (o.sh.sem <= sh.sem || ScheduleLock in Held(e, a)) && o.sh.reserved <= o.sh.total
    requires ActorInv(e, o.sh, o.next) && NewOwner(sh, a, o.next)
    requires |o.spawned| <= 1 && (o.spawned != [] ==> SpawnOk(e, sh, a, o, o.spawned[0]))
    ensures StepOk(e, sh, a, o)
  {
    hide JobInv, Permit, ActorInv, NewOwner, SpawnOk, Held;
    forall k | k in sh.jobs ensures Permit(e, a, k, sh.jobs[k], o.sh.jobs[k]) {
      SelfPermit(e, a, k, sh.jobs[k]);
    }
  }

  /** A step that changes no job and starts any number of goroutines. */
  lemma NoJobMany(e: Env, sh: Shared, a: Actor, o: Outcome)
    requires DbInv(e, sh) && o.sh == sh && ActorInv(e, o.sh, o.next) && NewOwner(sh, a, o.next)
    requires forall i :: 0 <= i < |o.spawned| ==> SpawnOk(e, sh, a, o, o.spawned[i])
    requires forall i, k :: 0 <= i < k < |o.spawned| && Owns(o.spawned[i]).Some? ==> Owns(o.spawned[i]) != Owns(o.spawned[k])
    ensures StepOk(e, sh, a, o)
  {
    hide DbInv, Permit, ActorInv, NewOwner, SpawnOk, Owns;
    forall k | k in sh.jobs ensures Permit(e, a, k, sh.jobs[k], o.sh.jobs[k]) {
      SelfPermit(e, a, k, sh.jobs[k]);
    }
  }

  lemma ReadyAfter(sh: Shared, id: JobId, j: Job, sh': Shared, rest: set<JobId>)
    requires ReadyExcept(sh, rest) && sh'.jobs == sh.jobs[id := j]
    requires Accepting(j.state) && id !in rest ==> Ready(j)
    ensures ReadyExcept(sh', rest)
  {
    hide Ready;
  }

  lemma SpawnAdmitOk(e: Env, sh: Shared, a: Actor, o: Outcome)
    ensures SpawnOk(e, sh, a, o, Admit(WaitAdmission))
  {
  }

  /* ---- uploads ---- */

  lemma PutPermitted(e: Env, sh: Shared, r: PutReq, pc: PutPc, j: Job, j': Job)
    requires !pc.WaitLife? && !pc.WaitChunk? && Accepting(j.state) && PutFrame(j, j', r.n) && Fixed(j, j')
    ensures Permit(e, Put(r, pc), r.jid, j, j')
  {
    hide PutFrame;
  }

  /** The write of a piece of the body, seen from the job. */
  lemma PutWriteJob(e: Env, j: Job, r: PutReq, want: nat, off: nat, got: nat, z: nat)
    requires JobInv(e, r.jid, j) && PutOpen(j, r, want, off) && |r.body| <= r.length && got + z <= |r.body|
    requires Holds(j.part.value, off, r.body[..got]) && Ready(j)
    ensures var j' := j.(part := Some(Pwrite(j.part.value, off + got, r.body[got..got + z])));
            && JobInv(e, r.jid, j') && PutFrame(j, j', r.n) && Ready(j')
            && PutOpen(j', r, want, off) && Holds(j'.part.value, off, r.body[..got + z])
  {
    hide JobInv, Pwrite, Holds, ChunkBytes, Expected, SameOutside;
    var f, piece := j.part.value, r.body[got..got + z];
    var j' := j.(part := Some(Pwrite(f, off + got, piece)));
    InsideFile(j, r, want, off);
    PwriteExtends(f, off, got, r.body, z);
    WriteKeeps(e, r.jid, j, r.n, off + got, piece);
    PwriteFrame(f, off + got, piece, off, want);
  }

  lemma InsideFile(j: Job, r: PutReq, want: nat, off: nat)
    requires PutPlace(j, r, want, off)
    ensures off + want <= j.size
  {
    ChunkInside(j.size, j.chunkSize, r.n);
  }

  lemma PwriteFrame(f: File, at: nat, piece: seq<Byte>, off: nat, len: nat)
    requires off <= at && at + |piece| <= off + len <= |f.data|
    ensures SameOutside(f, Pwrite(f, at, piece), off, len) && |Pwrite(f, at, piece).data| == |f.data|
  {
  }

  lemma PutWriteOk(e: Env, sh: Shared, r: PutReq, want: nat, off: nat, got: nat, ch: Choice)
    requires DbInv(e, sh) && ActorInv(e, sh, Put(r, Write(want, off, got))) && ch.ok && got < |r.body|
    ensures StepOk(e, sh, Put(r, Write(want, off, got)), PutStep(e, sh, r, Write(want, off, got), ch))
  {
    hide DbInv, JobInv, Pwrite, Holds, PutFrame, ReadyExcept, Permit, Permitted, StepOk, ChunkBytes, Expected, Ready;
    var a, o := Put(r, Write(want, off, got)), PutStep(e, sh, r, Write(want, off, got), ch);
    var z := if 1 <= ch.count <= |r.body| - got then ch.count else |r.body| - got;
    var j := sh.jobs[r.jid];
    var j' := j.(part := Some(Pwrite(j.part.value, off + got, r.body[got..got + z])));
    InvOf(e, sh, r.jid);
    ReadyOf(sh, r.jid);
    PutWriteJob(e, j, r, want, off, got, z);
    PutPermitted(e, sh, r, a.put, j, j');
    ReadyAfter(sh, r.jid, j', o.sh, {});
    TotalOf(e, sh);
    OneJob(e, sh, a, r.jid, j', o);
  }

  lemma ReadyOf(sh: Shared, id: JobId)
    requires SpoolReady(sh) && id in sh.jobs && Accepting(sh.jobs[id].state)
    ensures Ready(sh.jobs[id])
  {
    hide Ready;
  }

  lemma TotalOf(e: Env, sh: Shared)
    requires DbInv(e, sh)
    ensures sh.reserved <= sh.total
  {
    hide JobInv;
  }

  lemma PutSyncJob(e: Env, j: Job, r: PutReq, want: nat, off: nat)
    requires JobInv(e, r.jid, j) && PutWritten(e, j, r, want, off) && Ready(j)
    ensures var j' := j.(part := Some(Sync(j.part.value)));
            && JobInv(e, r.jid, j') && PutFrame(j, j', r.n) && Ready(j')
            && PutWritten(e, j', r, want, off) && OnDisk(j'.part.value, off, want)
  {
    InsideFile(j, r, want, off);
    SyncKeeps(e, r.jid, j);
    assert SameOutside(j.part.value, Sync(j.part.value), off, want);
    hide JobInv, ChunkBytes, Expected;
  }

  lemma PutSyncOk(e: Env, sh: Shared, r: PutReq, want: nat, off: nat, ch: Choice)
    requires DbInv(e, sh) && ActorInv(e, sh, Put(r, SyncFile(want, off))) && ch.ok
    ensures StepOk(e, sh, Put(r, SyncFile(want, off)), PutStep(e, sh, r, SyncFile(want, off), ch))
  {
    hide DbInv, JobInv, Sync, Holds, PutFrame, ReadyExcept, Permit, Permitted, StepOk, ChunkBytes, Expected, Ready, OnDisk;
    var a, o := Put(r, SyncFile(want, off)), PutStep(e, sh, r, SyncFile(want, off), ch);
    var j := sh.jobs[r.jid];
    var j' := j.(part := Some(Sync(j.part.value)));
    InvOf(e, sh, r.jid);
    ReadyOf(sh, r.jid);
    PutSyncJob(e, j, r, want, off);
    PutPermitted(e, sh, r, a.put, j, j');
    ReadyAfter(sh, r.jid, j', o.sh, {});
    TotalOf(e, sh);
    OneJob(e, sh, a, r.jid, j', o);
  }

  lemma CommitFrame(j: Job, n: nat, want: nat, sum: string, deadline: nat)
    requires Accepting(j.state) && n !in j.rows
    ensures PutFrame(j, CommitChunk(j, n, want, sum, deadline), n)
  {
    var j' := CommitChunk(j, n, want, sum, deadline);
    assert j'.rows == j.rows[n := j'.rows[n]];
  }

  lemma PutCommitOk(e: Env, sh: Shared, r: PutReq, want: nat, off: nat, ch: Choice)
    requires DbInv(e, sh) && ActorInv(e, sh, Put(r, Commit(want, off)))
    ensures StepOk(e, sh, Put(r, Commit(want, off)), PutStep(e, sh, r, Commit(want, off), ch))
  {
    hide DbInv, JobInv, Holds, PutFrame, ReadyExcept, Permit, Permitted, StepOk, ChunkBytes, Expected, OnDisk;
    var a, o := Put(r, Commit(want, off)), PutStep(e, sh, r, Commit(want, off), ch);
    var j := sh.jobs[r.jid];
    var j' := CommitChunk(j, r.n, want, r.sum, Expiry(sh));
    InvOf(e, sh, r.jid);
    CommitKeeps(e, r.jid, j, r.n, r.body, r.sum, Expiry(sh));
    CommitFrame(j, r.n, want, r.sum, Expiry(sh));
    PutPermitted(e, sh, r, a.put, j, j');
    TotalOf(e, sh);
    OneJob(e, sh, a, r.jid, j', o);
  }

  lemma PutTouchOk(e: Env, sh: Shared, r: PutReq, ch: Choice)
    requires DbInv(e, sh) && ActorInv(e, sh, Put(r, TouchJob)) && r.jid in sh.jobs
    ensures StepOk(e, sh, Put(r, TouchJob), PutStep(e, sh, r, TouchJob, ch))
  {
    hide DbInv, JobInv, ReadyExcept, Permitted, StepOk, PutFrame, Permit;
    var a, o := Put(r, TouchJob), PutStep(e, sh, r, TouchJob, ch);
    var j := sh.jobs[r.jid];
    InvOf(e, sh, r.jid);
    TouchKeeps(e, r.jid, j, Expiry(sh));
    if Accepting(j.state) {
      TouchFrame(j, r.n, Expiry(sh));
      PutPermitted(e, sh, r, TouchJob, j, Touch(j, Expiry(sh)));
    } else {
      SelfPermit(e, a, r.jid, j);
    }
    TotalOf(e, sh);
    OneJob(e, sh, a, r.jid, Touch(j, Expiry(sh)), o);
  }

  lemma TouchFrame(j: Job, n: nat, deadline: nat)
    requires Accepting(j.state)
    ensures PutFrame(j, Touch(j, deadline), n)
  {
  }

  /** The PUT steps that read or give up. */
  lemma PutReadOk(e: Env, sh: Shared, r: PutReq, pc: PutPc, ch: Choice)
    requires DbInv(e, sh) && ActorInv(e, sh, Put(r, pc))
    requires !pc.Commit? && (pc.TouchJob? ==> r.jid !in sh.jobs) && (pc.SyncFile? ==> !ch.ok)
    requires pc.Write? ==> !ch.ok || pc.got >= |r.body|
    ensures StepOk(e, sh, Put(r, pc), PutStep(e, sh, r, pc, ch))
  {
    hide DbInv, StepOk, ReadyExcept;
    var a, o := Put(r, pc), PutStep(e, sh, r, pc, ch);
    TotalOf(e, sh);
    if r.jid in sh.jobs { Geometry(e, sh, r.jid); }
    PutReadInv(e, sh, r, pc, ch);
    NoJob(e, sh, a, o);
  }

  lemma PutReadInv(e: Env, sh: Shared, r: PutReq, pc: PutPc, ch: Choice)
    requires ActorInv(e, sh, Put(r, pc)) && !pc.Commit? && (pc.SyncFile? ==> !ch.ok)
    requires pc.TouchJob? ==> r.jid !in sh.jobs
    requires pc.Write? ==> !ch.ok || pc.got >= |r.body|
    requires r.jid in sh.jobs ==> sh.jobs[r.jid].chunkSize > 0 && sh.jobs[r.jid].expected == Expected(sh.jobs[r.jid].size, sh.jobs[r.jid].chunkSize)
    ensures ActorInv(e, sh, PutStep(e, sh, r, pc, ch).next)
  {
    hide ReadyExcept, Expected, ChunkBytes;
    if pc.Write? {
      assert pc.got == |r.body| ==> r.body[..pc.got] == r.body;
    } else if pc.ReadRow? && pc.accepting {
      ReadyOf(sh, r.jid);
      InsideFile(sh.jobs[r.jid], r, pc.want, pc.off);
    }
  }

  lemma Geometry(e: Env, sh: Shared, id: JobId)
    requires DbInv(e, sh) && id in sh.jobs
    ensures sh.jobs[id].chunkSize > 0 && sh.jobs[id].expected == Expected(sh.jobs[id].size, sh.jobs[id].chunkSize)
  {
    hide DbInv;
    InvOf(e, sh, id);
  }

  lemma PutOk(e: Env, sh: Shared, r: PutReq, pc: PutPc, ch: Choice)
    requires DbInv(e, sh) && ActorInv(e, sh, Put(r, pc))
    ensures StepOk(e, sh, Put(r, pc), PutStep(e, sh, r, pc, ch))
  {
    hide *;
    if pc.Write? && ch.ok && pc.got < |r.body| { PutWriteOk(e, sh, r, pc.want, pc.off, pc.got, ch); }
    else if pc.SyncFile? && ch.ok { PutSyncOk(e, sh, r, pc.want, pc.off, ch); }
    else if pc.Commit? { PutCommitOk(e, sh, r, pc.want, pc.off, ch); }
    else if pc.TouchJob? && r.jid in sh.jobs { PutTouchOk(e, sh, r, ch); }
    else { PutReadOk(e, sh, r, pc, ch); }
  }

  lemma CompletePermitted(e: Env, id: JobId, j: Job)
    requires Completable(j)
    ensures Permit(e, Complete(id, true), id, j, CompleteUpload(j))
  {
  }

  lemma CompleteOk(e: Env, sh: Shared, id: JobId, locked: bool)
    requires DbInv(e, sh) && ActorInv(e, sh, Complete(id, locked))
    ensures StepOk(e, sh, Complete(id, locked), CompleteStep(sh, id, locked))
  {
    hide DbInv, JobInv, ReadyExcept, Permit, StepOk, Ready;
    var a, o := Complete(id, locked), CompleteStep(sh, id, locked);
    TotalOf(e, sh);
    if locked && id in sh.jobs && Completable(sh.jobs[id]) {
      InvOf(e, sh, id);
      ReadyOf(sh, id);
      CompleteKeeps(e, id, sh.jobs[id]);
      CompletePermitted(e, id, sh.jobs[id]);
      OneJobSpawning(e, sh, a, id, CompleteUpload(sh.jobs[id]), o);
    } else {
      NoJob(e, sh, a, o);
    }
  }
}
