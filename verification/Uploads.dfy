/** What the upload protocol promises: verified bytes never change, and a
    completed upload is the client's file. */
module Uploads {
  import opened Base
  import opened Chunks
  import opened Files
  import opened Spec
  import opened Jobs
  import opened Engine
  import opened Safety
  import opened SafetySteps
  import opened SafetySystem
  import opened SafetyActors
  import opened SafetyStable
  import opened Lifecycle
  import opened Effects

  /* ---- verified bytes never change ---- */

  /** Every spool file of the job holds `bytes` where chunk n belongs. */
  ghost predicate ChunkHeld(j: Job, n: nat, bytes: seq<Byte>) {
    && (j.part.Some? ==> Holds(j.part.value, n * j.chunkSize, bytes))
    && (j.input.Some? ==> Holds(j.input.value, n * j.chunkSize, bytes))
  }

  /** Chunk n is verified, and its bytes are `bytes`. */
  ghost predicate ChunkIs(j: Job, n: nat, row: Row, bytes: seq<Byte>) {
    n in j.rows && j.rows[n] == row && row.bytes == |bytes| && ChunkHeld(j, n, bytes)
  }

  /** Between j and j' the chunk stays what it was, or the job ended. */
  ghost predicate ChunkKept(j: Job, j': Job, n: nat, row: Row, bytes: seq<Byte>) {
    ChunkIs(j, n, row, bytes) ==> Terminal(j'.state) || ChunkIs(j', n, row, bytes)
  }

  ghost predicate Kept(sh: Shared, sh': Shared, k: JobId, n: nat, row: Row, bytes: seq<Byte>) {
    k in sh.jobs ==> k in sh'.jobs && ChunkKept(sh.jobs[k], sh'.jobs[k], n, row, bytes)
  }

  lemma HoldsBeside(f: File, at: nat, piece: seq<Byte>, off: nat, bytes: seq<Byte>)
    requires Holds(f, off, bytes) && (at + |piece| <= off || off + |bytes| <= at)
    ensures Holds(Pwrite(f, at, piece), off, bytes)
  {
    PwriteElsewhere(f, at, piece, off, |bytes|);
  }

  /** A PUT writes inside its own chunk, which is not a verified one. */
  lemma WriteBeside(j: Job, r: PutReq, want: nat, off: nat, got: nat, z: nat, n: nat, bytes: seq<Byte>)
    requires PutOpen(j, r, want, off) && |r.body| <= r.length && got + z <= |r.body|
    requires RowsFit(j.size, j.chunkSize, j.rows)
    requires n in j.rows && |bytes| == j.rows[n].bytes && Holds(j.part.value, n * j.chunkSize, bytes)
    ensures Holds(Pwrite(j.part.value, off + got, r.body[got..got + z]), n * j.chunkSize, bytes)
  {
    hide Pwrite, Holds, ChunkBytes, Expected;
    ChunksDisjoint(j.size, j.chunkSize, r.n, n);
    HoldsBeside(j.part.value, off + got, r.body[got..got + z], n * j.chunkSize, bytes);
  }

  lemma RowsOf(e: Env, sh: Shared, id: JobId)
    requires DbInv(e, sh) && id in sh.jobs && Accepting(sh.jobs[id].state)
    ensures sh.jobs[id].chunkSize > 0 && RowsFit(sh.jobs[id].size, sh.jobs[id].chunkSize, sh.jobs[id].rows)
  {
    hide DbInv;
    InvOf(e, sh, id);
  }

  lemma HoldsSynced(f: File, off: nat, bytes: seq<Byte>)
    ensures Holds(f, off, bytes) <==> Holds(Sync(f), off, bytes)
  {
  }

  /** A PUT leaves every verified chunk of its job where it is. */
  lemma PutChunkKept(j: Job, j': Job, r: PutReq, pc: PutPc, n: nat, row: Row, bytes: seq<Byte>)
    requires j.part.Some? && PutEffect(Put(r, pc), r.jid, j, j') && ChunkIs(j, n, row, bytes)
    requires j.chunkSize > 0 && RowsFit(j.size, j.chunkSize, j.rows) && |r.body| <= r.length
    requires pc.Write? ==> PutOpen(j, r, pc.want, pc.off)
    ensures j'.part.Some? && Holds(j'.part.value, n * j.chunkSize, bytes)
  {
    hide Pwrite, Sync, Holds, ChunkBytes, Expected;
    HoldsSynced(j.part.value, n * j.chunkSize, bytes);
    if j'.part != Some(Sync(j.part.value)) {
      var z: nat :| pc.got + z <= |r.body| && j'.part == Some(Pwrite(j.part.value, pc.off + pc.got, Piece(r, pc.got, z)));
      WriteBeside(j, r, pc.want, pc.off, pc.got, z, n, bytes);
    }
  }

  lemma StepChunkKept(e: Env, sh: Shared, a: Actor, ch: Choice, k: JobId, n: nat, row: Row, bytes: seq<Byte>)
    requires DbInv(e, sh) && ActorInv(e, sh, a)
    ensures Kept(sh, Step(e, sh, a, ch).sh, k, n, row, bytes)
  {
    hide DbInv, Step, Edge, Holds, ReadyExcept, FinInv, WorkInv, AdmitInv, RecInv, GcInv, Pwrite, ChunkBytes, Expected;
    StepEffect(e, sh, a, ch, k);
    var sh' := Step(e, sh, a, ch).sh;
    if k in sh.jobs && ChunkIs(sh.jobs[k], n, row, bytes) {
      if sh.jobs[k].state == PENDING {
        NoRowsYet(e, sh, k);
      } else if sh.jobs[k].part.Some? && PutEffect(a, k, sh.jobs[k], sh'.jobs[k]) {
        RowsOf(e, sh, k);
        PutChunkKept(sh.jobs[k], sh'.jobs[k], a.req, a.put, n, row, bytes);
      }
    }
  }

  lemma NoRowsYet(e: Env, sh: Shared, id: JobId)
    requires DbInv(e, sh) && id in sh.jobs && sh.jobs[id].state == PENDING
    ensures sh.jobs[id].rows == map[]
  {
    hide DbInv;
    InvOf(e, sh, id);
  }

  lemma HoldsSurvives(f: File, f': File, off: nat, bytes: seq<Byte>)
    requires Survives(f, f') && bytes != [] && Holds(f, off, bytes) && OnDisk(f, off, |bytes|)
    ensures Holds(f', off, bytes)
  {
    hide Survives;
    SurvivesRegion(f, f', off, |bytes|);
  }

  lemma FileSurvives(e: Env, j: Job, f: File, f': File, n: nat, row: Row, bytes: seq<Byte>)
    requires j.chunkSize > 0 && RowsFit(j.size, j.chunkSize, j.rows) && FileIntact(e, j, f) && Survives(f, f')
    requires n in j.rows && j.rows[n] == row && row.bytes == |bytes| && Holds(f, n * j.chunkSize, bytes)
    ensures Holds(f', n * j.chunkSize, bytes)
  {
    hide Survives, Holds, ChunkBytes, Expected, OnDisk;
    PositiveChunk(j, n);
    assert RowIntact(e, j, f, n);
    HoldsSurvives(f, f', n * j.chunkSize, bytes);
  }

  /** A power loss takes no verified byte. */
  lemma CrashChunkKept(e: Env, id: JobId, j: Job, j': Job, n: nat, row: Row, bytes: seq<Byte>)
    requires JobInv(e, id, j) && CrashJob(j, j')
    ensures ChunkKept(j, j', n, row, bytes)
  {
    hide Holds, Survives, FileIntact, RowsFit;
    if ChunkIs(j, n, row, bytes) && !Terminal(j.state) {
      if j'.part.Some? {
        if j.part.Some? && Survives(j.part.value, j'.part.value) {
          FileSurvives(e, j, j.part.value, j'.part.value, n, row, bytes);
        } else {
          FileSurvives(e, j, j.input.value, j'.part.value, n, row, bytes);
        }
      }
      if j'.input.Some? { FileSurvives(e, j, j.input.value, j'.input.value, n, row, bytes); }
    }
  }

  lemma NextChunkKept(e: Env, s: State, ev: Event, s': State, k: JobId, n: nat, row: Row, bytes: seq<Byte>)
    requires EnvOk(e) && Safe(e, s) && Next(e, s, ev, s')
    ensures Kept(s.sh, s'.sh, k, n, row, bytes)
  {
    hide DbInv, ActorInv, Compatible2, Step, CrashJob, JobInv, ChunkIs, Specified, Exclude, Arrival, KeyUsed;
    match ev
    case Run(t, ch) =>
      assert t < |s.threads|;
      StepChunkKept(e, s.sh, s.threads[t], ch, k, n, row, bytes);
    case Crash(after) =>
      if k in s.sh.jobs {
        InvOf(e, s.sh, k);
        CrashChunkKept(e, k, s.sh.jobs[k], after[k], n, row, bytes);
      }
    case _ =>
  }


  /** Verified bytes never change: once chunk n is verified as `bytes`, every
      spool file of the job holds `bytes` there until the job ends, through any
      interleaving of uploads and any crash. */
  lemma {:induction false} VerifiedForever(e: Env, states: seq<State>, events: seq<Event>, i: nat, k: nat,
                                           id: JobId, n: nat, row: Row, bytes: seq<Byte>)
    requires EnvOk(e) && Execution(e, states, events) && Initial(e, states[0]) && i <= k <= |events|
    requires id in states[i].sh.jobs && ChunkIs(states[i].sh.jobs[id], n, row, bytes)
    ensures id in states[k].sh.jobs
    ensures Terminal(states[k].sh.jobs[id].state) || ChunkIs(states[k].sh.jobs[id], n, row, bytes)
    decreases k
  {
    hide Safe, Next, ChunkIs, Initial;
    if i < k {
      VerifiedForever(e, states, events, i, k - 1, id, n, row, bytes);
      ExecutionSafe(e, states, events, k - 1);
      assert Next(e, states[k - 1], events[k - 1], states[k - 1 + 1]);
      NextChunkKept(e, states[k - 1], events[k - 1], states[k], id, n, row, bytes);
      EndsForGood(e, states, events, k - 1, k, id);
    }
  }

  /** Where a verified chunk begins: the commit of a PUT verifies exactly the bytes it was sent. */
  lemma CommitVerifies(e: Env, sh: Shared, r: PutReq, want: nat, off: nat, ch: Choice)
    requires DbInv(e, sh) && ActorInv(e, sh, Put(r, Commit(want, off)))
    ensures var sh' := PutStep(e, sh, r, Commit(want, off), ch).sh;
            r.jid in sh'.jobs && ChunkIs(sh'.jobs[r.jid], r.n, Row(want, r.sum), r.body) && r.sum == e.sha(r.body)
  {
    hide DbInv, JobInv, ReadyExcept, Holds, OnDisk, ChunkBytes, Expected;
    ReadyOf(sh, r.jid);
  }

  /** In every reachable state each verified chunk of a job still in progress
      hashes to the digest it was verified with, in every spool file of the job. */
  lemma VerifiedHash(e: Env, s: State, id: JobId, n: nat, f: File)
    requires EnvOk(e) && Reachable(e, s)
    requires id in s.sh.jobs && !Terminal(s.sh.jobs[id].state) && n in s.sh.jobs[id].rows
    requires s.sh.jobs[id].part == Some(f) || s.sh.jobs[id].input == Some(f)
    ensures RowIntact(e, s.sh.jobs[id], f, n)
    ensures s.sh.jobs[id].chunkSize > 0 && n < Expected(s.sh.jobs[id].size, s.sh.jobs[id].chunkSize)
    ensures s.sh.jobs[id].rows[n].bytes == ChunkBytes(s.sh.jobs[id].size, s.sh.jobs[id].chunkSize, n)
  {
    hide ActorInv, Compatible2, Reachable, Expected, ChunkBytes, RowIntact;
    ReachableSafe(e, s);
    InvOf(e, s.sh, id);
  }

  /** Upload accounting: while a job takes uploads, its counters are the sum and
      the number of its chunk rows, and each of the three ways to ask whether
      the upload is whole gives the same answer. */
  lemma AccountingAgrees(e: Env, s: State, id: JobId)
    requires EnvOk(e) && Reachable(e, s) && id in s.sh.jobs && Accepting(s.sh.jobs[id].state)
    ensures var j := s.sh.jobs[id];
            && j.received == SumMap(j.rows, RowBytes) && j.chunks == |j.rows| && j.received <= j.size && j.chunks <= j.expected
            && (j.received == j.size <==> j.chunks == j.expected)
            && (Completable(j) <==> forall n :: 0 <= n < j.expected ==> n in j.rows)
  {
    hide ActorInv, Compatible2, Reachable, Expected, ChunkBytes, RowsIntact;
    ReachableSafe(e, s);
    var j := s.sh.jobs[id];
    InvOf(e, s.sh, id);
    CountersAgree(j.size, j.chunkSize, j.rows);
    assert AllBelow(j.rows.Keys, j.expected) <==> forall n :: 0 <= n < j.expected ==> n in j.rows;
  }

  /* ---- end to end ---- */

  /** Chunk n of the client's file. */
  function Slice(x: seq<Byte>, chunkSize: nat, n: nat): seq<Byte> {
    var off := n * chunkSize;
    if off > |x| then [] else if off + chunkSize <= |x| then x[off..off + chunkSize] else x[off..]
  }

  /** A collision on show: chunk n of the file is not the client's slice, but has its digest. */
  ghost predicate Forged(e: Env, f: File, x: seq<Byte>, chunkSize: nat, n: nat) {
    var off, slice := n * chunkSize, Slice(x, chunkSize, n);
    off + |slice| <= |f.data| && f.data[off..off + |slice|] != slice && e.sha(f.data[off..off + |slice|]) == e.sha(slice)
  }

  ghost predicate Genuine(e: Env, f: File, x: seq<Byte>, chunkSize: nat) {
    forall n: nat :: !Forged(e, f, x, chunkSize, n)
  }

  /** No spool file of the job shows a collision with the client's file. */
  ghost predicate JobGenuine(e: Env, j: Job, x: seq<Byte>) {
    && (j.part.Some? ==> Genuine(e, j.part.value, x, j.chunkSize))
    && (j.input.Some? ==> Genuine(e, j.input.value, x, j.chunkSize))
  }

  /** States in which the digest of the whole input is known. */
  predicate Hashed(s: JobState) {
    s in {STAGED, PROBING, VALIDATED, QUEUED, STARTING, TRANSCODING, COMPLETED}
  }

  /** Every verified digest is that of the client's slice, and the digest of the input that of the client's file. */
  ghost predicate JobFaithful(e: Env, j: Job, x: seq<Byte>) {
    && (forall n :: n in j.rows ==> j.rows[n].sha == e.sha(Slice(x, j.chunkSize, n)))
    && (Hashed(j.state) ==> j.actualHash == e.sha(x) && (j.inputHash == "" || j.inputHash == j.actualHash))
  }

  /** Uploads for the job announce the digests of the client's slices; what a
      finalizer is about to record has passed the whole-input check. */
  ghost predicate ActorFaithful(e: Env, sh: Shared, a: Actor, id: JobId, x: seq<Byte>, chunkSize: nat) {
    && (a.Put? && a.req.jid == id ==> a.req.sum == e.sha(Slice(x, chunkSize, a.req.n)))
    && (a.Finalize? && a.jid == id && a.fin.Stage? ==>
          id in sh.jobs && (sh.jobs[id].inputHash == "" || sh.jobs[id].inputHash == a.fin.hash))
  }

  /** The job is the one the client uploads x to, in chunks of this size. */
  predicate Takes(sh: Shared, id: JobId, x: seq<Byte>, chunkSize: nat) {
    id in sh.jobs && sh.jobs[id].chunkSize == chunkSize && sh.jobs[id].size == |x|
  }

  ghost predicate Faithful(e: Env, s: State, id: JobId, x: seq<Byte>, chunkSize: nat) {
    && (Takes(s.sh, id, x, chunkSize) ==> JobFaithful(e, s.sh.jobs[id], x))
    && forall i :: 0 <= i < |s.threads| ==> ActorFaithful(e, s.sh, s.threads[i], id, x, chunkSize)
  }

  lemma SliceLength(x: seq<Byte>, chunkSize: nat, n: nat)
    requires chunkSize > 0 && n < Expected(|x|, chunkSize)
    ensures |Slice(x, chunkSize, n)| == ChunkBytes(|x|, chunkSize, n)
    ensures n * chunkSize + |Slice(x, chunkSize, n)| <= |x|
    ensures Slice(x, chunkSize, n) == x[n * chunkSize..n * chunkSize + |Slice(x, chunkSize, n)|]
  {
    hide Expected;
    ChunkInside(|x|, chunkSize, n);
  }

  predicate SameAt(a: seq<Byte>, b: seq<Byte>, lo: nat, hi: nat) {
    lo <= hi <= |a| && hi <= |b| && a[lo..hi] == b[lo..hi]
  }

  lemma SameByte(a: seq<Byte>, b: seq<Byte>, lo: nat, hi: nat, i: nat)
    requires SameAt(a, b, lo, hi) && lo <= i < hi
    ensures i < |a| && i < |b|
    ensures a[i] == b[i]
  {
    assert a[i] == a[lo..hi][i - lo] == b[lo..hi][i - lo];
  }

  /** A whole upload whose digests are the client's is the client's file. */
  lemma WholeFile(e: Env, j: Job, f: File, x: seq<Byte>)
    requires Genuine(e, f, x, j.chunkSize) && j.chunkSize > 0 && j.expected == Expected(j.size, j.chunkSize) && Whole(j)
    requires |x| == j.size && JobFaithful(e, j, x) && FileIntact(e, j, f) && |f.data| == j.size
    ensures f.data == x
  {
    hide Expected, ChunkBytes, Slice, Forged, SameAt, RowIntact, SumMap;
    forall i | 0 <= i < j.size ensures f.data[i] == x[i] {
      var n := ByteVerified(j, i);
      assert RowIntact(e, j, f, n);
      RowSlice(e, j, f, x, n);
      SameByte(f.data, x, n * j.chunkSize, n * j.chunkSize + j.rows[n].bytes, i);
    }
  }

  lemma RowSlice(e: Env, j: Job, f: File, x: seq<Byte>, n: nat)
    requires !Forged(e, f, x, j.chunkSize, n) && j.chunkSize > 0 && n in j.rows && n < Expected(|x|, j.chunkSize)
    requires j.rows[n].bytes == ChunkBytes(|x|, j.chunkSize, n) && j.rows[n].sha == e.sha(Slice(x, j.chunkSize, n))
    requires RowIntact(e, j, f, n)
    ensures SameAt(f.data, x, n * j.chunkSize, n * j.chunkSize + j.rows[n].bytes)
  {
    hide Expected, ChunkBytes, Slice, OnDisk;
    SliceLength(x, j.chunkSize, n);
  }

  /** The step neither adds a chunk nor records a digest. */
  ghost predicate SteadyJob(j: Job, j': Job) {
    && (j'.rows == j.rows || j'.rows == map[]) && j'.actualHash == j.actualHash && (Hashed(j'.state) ==> Hashed(j.state))
    && j'.chunkSize == j.chunkSize && j'.size == j.size && j'.inputHash == j.inputHash
  }

  ghost predicate Steady(sh: Shared, sh': Shared, k: JobId) {
    k in sh.jobs ==> k in sh'.jobs && SteadyJob(sh.jobs[k], sh'.jobs[k])
  }

  lemma StepSteady(e: Env, sh: Shared, a: Actor, ch: Choice, k: JobId)
    requires ActorInv(e, sh, a) && !Commits(a, k) && !Stages(a, k)
    ensures Steady(sh, Step(e, sh, a, ch).sh, k)
  {
    hide ActorInv, Step, SpoolEffect;
    StepEffect(e, sh, a, ch, k);
  }

  lemma SteadyFaithful(e: Env, sh: Shared, sh': Shared, id: JobId, x: seq<Byte>)
    requires id in sh.jobs && JobFaithful(e, sh.jobs[id], x) && Steady(sh, sh', id)
    ensures JobFaithful(e, sh'.jobs[id], x)
  {
    hide Slice;
  }

  /** The two steps that record digests record the client's. */
  lemma StepFaithful(e: Env, sh: Shared, a: Actor, ch: Choice, id: JobId, x: seq<Byte>)
    requires DbInv(e, sh) && ActorInv(e, sh, a) && id in sh.jobs && |x| == sh.jobs[id].size && JobGenuine(e, sh.jobs[id], x)
    requires JobFaithful(e, sh.jobs[id], x) && ActorFaithful(e, sh, a, id, x, sh.jobs[id].chunkSize)
    ensures id in Step(e, sh, a, ch).sh.jobs && JobFaithful(e, Step(e, sh, a, ch).sh.jobs[id], x)
  {
    hide DbInv, JobInv, ActorInv, Step, JobFaithful, JobGenuine;
    if a.Put? && a.put.Commit? && a.req.jid == id {
      CommitFaithful(e, sh, a.req, a.put, ch, x);
    } else if a.Finalize? && a.fin.Stage? && a.jid == id {
      StageFaithful(e, sh, id, a.fin.hash, ch, x);
    } else {
      StepSteady(e, sh, a, ch, id);
      SteadyFaithful(e, sh, Step(e, sh, a, ch).sh, id, x);
    }
  }

  lemma CommitFaithful(e: Env, sh: Shared, r: PutReq, pc: PutPc, ch: Choice, x: seq<Byte>)
    requires r.jid in sh.jobs && pc.Commit? && JobFaithful(e, sh.jobs[r.jid], x)
    requires r.sum == e.sha(Slice(x, sh.jobs[r.jid].chunkSize, r.n))
    ensures r.jid in Step(e, sh, Put(r, pc), ch).sh.jobs && JobFaithful(e, Step(e, sh, Put(r, pc), ch).sh.jobs[r.jid], x)
  {
    hide Slice;
  }

  lemma StageFaithful(e: Env, sh: Shared, id: JobId, hash: string, ch: Choice, x: seq<Byte>)
    requires DbInv(e, sh) && ActorInv(e, sh, Finalize(id, Stage(hash))) && id in sh.jobs
    requires |x| == sh.jobs[id].size && JobFaithful(e, sh.jobs[id], x) && JobGenuine(e, sh.jobs[id], x)
    requires sh.jobs[id].inputHash == "" || sh.jobs[id].inputHash == hash
    ensures var sh' := Step(e, sh, Finalize(id, Stage(hash)), ch).sh; id in sh'.jobs && JobFaithful(e, sh'.jobs[id], x)
  {
    hide DbInv, Slice, Expected, ChunkBytes, Genuine;
    InvOf(e, sh, id);
    InputWhole(e, id, sh.jobs[id], x);
  }

  lemma InputWhole(e: Env, id: JobId, j: Job, x: seq<Byte>)
    requires JobInv(e, id, j) && (Owned(j.state) || j.state == QUEUED)
    requires |x| == j.size && JobFaithful(e, j, x) && JobGenuine(e, j, x)
    ensures j.part.Some? ==> j.part.value.data == x
    ensures j.input.Some? ==> j.input.value.data == x
  {
    hide Expected, ChunkBytes, Slice, Genuine, FileIntact, JobFaithful, Whole;
    if j.part.Some? { WholeFile(e, j, j.part.value, x); }
    if j.input.Some? { WholeFile(e, j, j.input.value, x); }
  }

  /** What a goroutine announces or is about to record stays faithful as it moves on. */
  lemma ActorMovesFaithful(e: Env, sh: Shared, a: Actor, ch: Choice, id: JobId, x: seq<Byte>, chunkSize: nat)
    requires EnvOk(e) && DbInv(e, sh) && ActorInv(e, sh, a) && ActorFaithful(e, sh, a, id, x, chunkSize)
    ensures var o := Step(e, sh, a, ch);
            && ActorFaithful(e, o.sh, o.next, id, x, chunkSize)
            && forall i :: 0 <= i < |o.spawned| ==> ActorFaithful(e, o.sh, o.spawned[i], id, x, chunkSize)
  {
    hide DbInv, ActorInv, Slice, Step, Permitted, NewOwner;
    StepKeeps(e, sh, a, ch);
    var o := Step(e, sh, a, ch);
    forall i | 0 <= i < |o.spawned| ensures ActorFaithful(e, o.sh, o.spawned[i], id, x, chunkSize) {
      assert SpawnOk(e, sh, a, o, o.spawned[i]);
      if o.spawned[i].Finalize? { SpawnedHoldsNothing(e, o.spawned[i]); }
    }
    NextFaithful(e, sh, a, ch, id, x, chunkSize);
  }

  lemma SpawnedHoldsNothing(e: Env, b: Actor)
    requires Held(e, b) == {} && b.Finalize?
    ensures b.fin.WaitFin?
  {
    var lock := LifeWrite(e.lifeStripe(b.jid));
    assert !b.fin.WaitFin? ==> lock in Held(e, b);
  }

  lemma NextFaithful(e: Env, sh: Shared, a: Actor, ch: Choice, id: JobId, x: seq<Byte>, chunkSize: nat)
    requires ActorFaithful(e, sh, a, id, x, chunkSize)
    ensures ActorFaithful(e, Step(e, sh, a, ch).sh, Step(e, sh, a, ch).next, id, x, chunkSize)
  {
    hide Slice, WorkerStep, AdmitStep, RecoverStep, GcStep, SchedStep, FailStep, Pwrite;
    match a
    case Worker(k, pc) => WorkerStays(e, sh, k, pc, ch);
    case Admit(pc) => AdmitShape(e, sh, pc, ch);
    case Recover(pc) => RecoverStays(e, sh, pc, ch);
    case _ =>
  }

  lemma WorkerStays(e: Env, sh: Shared, id: JobId, pc: WorkPc, ch: Choice)
    ensures var o := WorkerStep(e, sh, id, pc, ch); o.next.Worker? || o.next.Done?
  {
    hide SchedStep, FailStep, ReleaseStep, ManifestOf;
  }

  lemma RecoverStays(e: Env, sh: Shared, pc: RecoverPc, ch: Choice)
    ensures var o := RecoverStep(e, sh, pc, ch); MainLike(o.next) || o.next.Done?
  {
    hide SchedStep, GcStep, NextUpload, NextSpool, Listed, InState, Finalizers;
  }

  /** Every PUT for the job announces the digest of the client's slice; the body may be anything. */
  ghost predicate ClientEvent(e: Env, ev: Event, id: JobId, x: seq<Byte>, chunkSize: nat) {
    ev.Arrive? && ev.a.Put? && ev.a.req.jid == id ==> ev.a.req.sum == e.sha(Slice(x, chunkSize, ev.a.req.n))
  }

  lemma OthersFaithful(e: Env, sh: Shared, sh': Shared, a: Actor, b: Actor, id: JobId, x: seq<Byte>, chunkSize: nat)
    requires Permitted(e, a, sh, sh') && ActorFaithful(e, sh, b, id, x, chunkSize)
    ensures ActorFaithful(e, sh', b, id, x, chunkSize)
  {
    hide Slice, Permit, Held;
    if id in sh.jobs { FixedStep(e, a, id, sh.jobs[id], sh'.jobs[id]); }
  }

  lemma TakesBefore(e: Env, sh: Shared, sh': Shared, a: Actor, id: JobId, x: seq<Byte>, chunkSize: nat)
    requires Permitted(e, a, sh, sh') && Takes(sh', id, x, chunkSize)
    ensures Takes(sh, id, x, chunkSize)
  {
    hide Permit, Held;
    FixedStep(e, a, id, sh.jobs[id], sh'.jobs[id]);
  }

  lemma RunFaithful(e: Env, s: State, t: nat, ch: Choice, id: JobId, x: seq<Byte>, chunkSize: nat)
    requires EnvOk(e) && Safe(e, s) && Enabled(e, s, t, ch) && Faithful(e, s, id, x, chunkSize)
    requires id in s.sh.jobs ==> JobGenuine(e, s.sh.jobs[id], x)
    ensures Faithful(e, RunThread(e, s, t, ch), id, x, chunkSize)
  {
    hide DbInv, ActorInv, Compatible2, Step, NewOwner, Permitted, SpawnOk, JobFaithful, ActorFaithful, Exclude, JobGenuine, Slice;
    var a, o, s' := s.threads[t], Step(e, s.sh, s.threads[t], ch), RunThread(e, s, t, ch);
    StepKeeps(e, s.sh, a, ch);
    ActorMovesFaithful(e, s.sh, a, ch, id, x, chunkSize);
    if Takes(s'.sh, id, x, chunkSize) {
      TakesBefore(e, s.sh, s'.sh, a, id, x, chunkSize);
      StepFaithful(e, s.sh, a, ch, id, x);
    }
    forall i | 0 <= i < |s'.threads| ensures ActorFaithful(e, s'.sh, s'.threads[i], id, x, chunkSize) {
      if i < |s.threads| && i != t { OthersFaithful(e, s.sh, o.sh, a, s.threads[i], id, x, chunkSize); }
    }
  }

  lemma CrashFaithful(e: Env, j: Job, j': Job, x: seq<Byte>)
    requires CrashJob(j, j') && JobFaithful(e, j, x)
    ensures JobFaithful(e, j', x)
  {
    hide Slice, Survives;
  }

  lemma NewFaithful(e: Env, s: State, s': State, id: JobId, k: JobId, j: Job, x: seq<Byte>, chunkSize: nat)
    requires Faithful(e, s, id, x, chunkSize) && k !in s.sh.jobs && j.state == PENDING && j.rows == map[]
    requires s'.sh == Set(s.sh, k, j) && s'.threads == s.threads + [Admit(WaitAdmission)]
    requires forall i :: 0 <= i < |s.threads| && s.threads[i].Finalize? && s.threads[i].jid == k ==> s.threads[i].fin.FinSchedule?
    ensures Faithful(e, s', id, x, chunkSize)
  {
    hide Slice;
  }

  lemma NextFaithfulAll(e: Env, s: State, ev: Event, s': State, id: JobId, x: seq<Byte>, chunkSize: nat)
    requires EnvOk(e) && Safe(e, s) && Next(e, s, ev, s') && Faithful(e, s, id, x, chunkSize)
    requires ClientEvent(e, ev, id, x, chunkSize) && (id in s.sh.jobs ==> JobGenuine(e, s.sh.jobs[id], x))
    ensures Faithful(e, s', id, x, chunkSize)
  {
    hide DbInv, ActorInv, Compatible2, Step, Specified, Arrival, KeyUsed, CrashJob, JobFaithful, JobGenuine, Slice, Enabled;
    match ev
    case Run(t, ch) => RunFaithful(e, s, t, ch, id, x, chunkSize);
    case Crash(after) =>
      if id in s.sh.jobs && Takes(s'.sh, id, x, chunkSize) {
        CrashFixed(s.sh.jobs[id], after[id]);
        CrashFaithful(e, s.sh.jobs[id], after[id], x);
      }
    case Create(k, key, req) =>
      NoFinalizerYet(e, s, k);
      NewFaithful(e, s, s', id, k, s'.sh.jobs[k], x, chunkSize);
    case Arrive(a) => ArriveFaithful(e, s, a, id, x, chunkSize);
    case _ =>
  }

  lemma CrashFixed(j: Job, j': Job)
    requires CrashJob(j, j')
    ensures j'.chunkSize == j.chunkSize && j'.size == j.size
  {
    hide Survives;
  }

  lemma NoFinalizerYet(e: Env, s: State, id: JobId)
    requires Safe(e, s) && id !in s.sh.jobs
    ensures forall i :: 0 <= i < |s.threads| && s.threads[i].Finalize? && s.threads[i].jid == id ==> s.threads[i].fin.FinSchedule?
  {
    hide DbInv, Compatible2;
    forall i | 0 <= i < |s.threads| && s.threads[i].Finalize? && s.threads[i].jid == id ensures s.threads[i].fin.FinSchedule? {
      assert ActorInv(e, s.sh, s.threads[i]);
    }
  }

  lemma ArriveFaithful(e: Env, s: State, a: Actor, id: JobId, x: seq<Byte>, chunkSize: nat)
    requires Arrival(s, a) && Faithful(e, s, id, x, chunkSize) && ClientEvent(e, Arrive(a), id, x, chunkSize)
    ensures Faithful(e, s.(threads := s.threads + [a]), id, x, chunkSize)
  {
    hide JobFaithful, Slice;
  }

  ghost predicate ClientRun(e: Env, events: seq<Event>, id: JobId, x: seq<Byte>, chunkSize: nat) {
    forall i :: 0 <= i < |events| ==> ClientEvent(e, events[i], id, x, chunkSize)
  }

  /** Somewhere in the run a spool file of the job shows a collision with the client's file. */
  ghost predicate CollisionShown(e: Env, states: seq<State>, id: JobId, x: seq<Byte>) {
    exists k :: 0 <= k < |states| && id in states[k].sh.jobs && !JobGenuine(e, states[k].sh.jobs[id], x)
  }

  lemma {:induction false} ExecutionFaithful(e: Env, states: seq<State>, events: seq<Event>, i: nat, id: JobId, x: seq<Byte>, chunkSize: nat)
    requires EnvOk(e) && Execution(e, states, events) && Initial(e, states[0]) && i <= |events|
    requires ClientRun(e, events, id, x, chunkSize) && id !in states[0].sh.jobs && !CollisionShown(e, states, id, x)
    ensures Faithful(e, states[i], id, x, chunkSize) && Safe(e, states[i])
  {
    hide Safe, Next, JobFaithful, ClientEvent, JobGenuine;
    ExecutionSafe(e, states, events, i);
    if i > 0 {
      ExecutionFaithful(e, states, events, i - 1, id, x, chunkSize);
      assert Next(e, states[i - 1], events[i - 1], states[i - 1 + 1]);
      NextFaithfulAll(e, states[i - 1], events[i - 1], states[i], id, x, chunkSize);
    }
  }

  /** End to end: over any run in which the client announces the digests of its
      slices, in any order, as often as it likes, through crashes and corrupted
      transfers, a job whose upload was accepted as complete has exactly the
      client's file in its spool, records its digest, and never contradicts the
      digest requested at creation; or else the run itself shows a chunk that is
      not the client's and has its digest. */
  lemma EndToEnd(e: Env, states: seq<State>, events: seq<Event>, id: JobId, x: seq<Byte>)
    requires EnvOk(e) && Execution(e, states, events) && Initial(e, states[0]) && id !in states[0].sh.jobs
    requires id in states[|events|].sh.jobs && states[|events|].sh.jobs[id].size == |x|
    requires ClientRun(e, events, id, x, states[|events|].sh.jobs[id].chunkSize)
    ensures CollisionShown(e, states, id, x) ||
            var j := states[|events|].sh.jobs[id];
            && (Owned(j.state) || j.state == QUEUED ==>
                  && (j.part.Some? ==> j.part.value.data == x)
                  && (j.input.Some? ==> j.input.value.data == x))
            && (Hashed(j.state) ==> j.actualHash == e.sha(x) && (j.inputHash == "" || j.inputHash == e.sha(x)))
            && (j.state == COMPLETED ==> j.output.manifest.Some? && j.output.manifest.value.inputHash == e.sha(x)
                                         && j.output.manifest.value.inputSize == |x|)
  {
    hide Next, ActorInv, Compatible2, JobGenuine, Slice, Expected, ChunkBytes, RowsIntact, Whole, Accounted, FilesSized;
    if !CollisionShown(e, states, id, x) {
      var s, chunkSize := states[|events|], states[|events|].sh.jobs[id].chunkSize;
      ExecutionFaithful(e, states, events, |events|, id, x, chunkSize);
      InvOf(e, s.sh, id);
      assert Takes(s.sh, id, x, chunkSize);
      if Owned(s.sh.jobs[id].state) || s.sh.jobs[id].state == QUEUED { InputWhole(e, id, s.sh.jobs[id], x); }
    }
  }
}
