/** The service as sequential code. Each method does, statement by statement,
    what the steps of the corresponding goroutine do: its trace is a run of that
    goroutine in the step machine, so everything proved of the machine holds of
    the code. What the outside world decides is a parameter. */
module Server {
  import opened Base
  import opened Chunks
  import opened Files
  import opened Spec
  import opened Jobs
  import opened Engine
  import opened Safety
  import opened Scheduler
  import opened Admission
  import opened Recovery
  import opened Traces

  /** What the disk-space check says. */
  datatype Space = Enough | TooLittle | Unknown
  datatype ReserveResult = Held | Unavailable | Broken

  /** What becomes of the manifest: not renamed into place, renamed but its
      directory not synced, or both. */
  datatype Saved = Nowhere | InCache | OnDevice

  datatype CreateReply = Created(id: JobId) | Replayed(id: JobId) | Clash | Invalid

  datatype Reply = Verified | AlreadyPresent | Refused(status: nat)

  /** The PUT passes every check up to the one for an already verified chunk, and the spool can be opened. */
  predicate Opens(jobs: map<JobId, Job>, r: PutReq) {
    && r.jid in jobs && !BadRequest(jobs[r.jid], r) && r.n !in jobs[r.jid].rows
    && Accepting(jobs[r.jid].state) && jobs[r.jid].part.Some?
  }

  /** What else may go wrong with a PUT once its body arrives. */
  datatype Trouble = NoTrouble | ConnectionCut | WriteFails | SyncFails

  /** The reply to a PUT. */
  function Answer(e: Env, jobs: map<JobId, Job>, r: PutReq, trouble: Trouble): Reply {
    if r.jid !in jobs then Refused(404)
    else if r.n >= jobs[r.jid].expected then Refused(416)
    else if BadRequest(jobs[r.jid], r) then Refused(400)
    else if r.n in jobs[r.jid].rows && jobs[r.jid].rows[r.n].sha == r.sum then AlreadyPresent
    else if !Opens(jobs, r) then Refused(409)
    else if trouble.ConnectionCut? then Refused(400)
    else if trouble.WriteFails? then Refused(507)
    else if |r.body| != r.length || e.sha(r.body) != r.sum then Refused(422)
    else if trouble.SyncFails? then Refused(500)
    else Verified
  }

  /** The jobs after a PUT: however the body was cut into reads, the spool has it at the chunk's offset. */
  function AfterPut(e: Env, sh: Shared, r: PutReq, trouble: Trouble): map<JobId, Job> {
    var reply := Answer(e, sh.jobs, r, trouble);
    if reply.AlreadyPresent? then sh.jobs[r.jid := Touch(sh.jobs[r.jid], Expiry(sh))]
    else if !Opens(sh.jobs, r) then sh.jobs
    else
      var written := Written(sh.jobs[r.jid], r.n * sh.jobs[r.jid].chunkSize, r.body);
      if reply.Verified? then sh.jobs[r.jid := CommitChunk(Synced(written), r.n, |r.body|, r.sum, Expiry(sh))]
      else sh.jobs[r.jid := written]
  }

  /** When a PUT is accepted, found done, or refused, and why. */
  lemma PutVerdict(e: Env, jobs: map<JobId, Job>, r: PutReq, trouble: Trouble)
    ensures var reply := Answer(e, jobs, r, trouble);
            if r.jid !in jobs then reply == Refused(404)
            else
              var j := jobs[r.jid];
              var left := j.size - r.n * j.chunkSize;
              var fits := r.n < j.expected && r.length == (if left < j.chunkSize then left else j.chunkSize) && r.length >= 0 && |r.sum| == 64;
              && (reply == Refused(416) <==> r.n >= j.expected)
              && (reply == AlreadyPresent <==> fits && r.n in j.rows && j.rows[r.n].sha == r.sum)
              && (reply == Refused(409) <==>
                    fits && (if r.n in j.rows then j.rows[r.n].sha != r.sum else j.state !in {ADMITTED, UPLOADING} || j.part.None?))
              && (reply == Verified <==>
                    && fits && r.n !in j.rows && j.state in {ADMITTED, UPLOADING} && j.part.Some?
                    && |r.body| == r.length && e.sha(r.body) == r.sum && trouble == NoTrouble)
              && (reply == Refused(422) ==> |r.body| != r.length || e.sha(r.body) != r.sum)
              && (reply == Refused(507) ==> trouble == WriteFails) && (reply == Refused(500) ==> trouble == SyncFails)
              && (reply == Refused(400) ==> (r.n < j.expected && !fits) || trouble == ConnectionCut)
              && (reply.Refused? ==> reply.status in {400, 409, 416, 422, 500, 507})
  {
  }

  /** What a PUT leaves behind: an accepted one its row, its counters, a renewed
      deadline and its bytes on disk; one that finds its chunk verified a renewed
      deadline; a refused one nothing but unverified bytes of its own chunk. */
  lemma PutOutcome(e: Env, sh: Shared, r: PutReq, trouble: Trouble)
    requires r.jid in sh.jobs
    requires var j := sh.jobs[r.jid]; |r.body| <= r.length && (j.part.Some? ==> |j.part.value.data| == j.size)
    ensures var jobs', j, reply := AfterPut(e, sh, r, trouble), sh.jobs[r.jid], Answer(e, sh.jobs, r, trouble);
            && jobs'.Keys == sh.jobs.Keys && (forall id :: id in sh.jobs && id != r.jid ==> jobs'[id] == sh.jobs[id])
            && var j' := jobs'[r.jid];
               && (reply == Verified ==>
                     && j' == j.(state := UPLOADING, rows := j.rows[r.n := Row(|r.body|, r.sum)], received := j.received + |r.body|,
                                 chunks := j.chunks + 1, deadline := Some(sh.clock + sh.cfg.retention), part := j'.part)
                     && j'.part.Some? && Holds(j'.part.value, r.n * j.chunkSize, r.body) && j'.part.value.dirty == {})
               && (reply == AlreadyPresent ==>
                     j' == if j.state in {ADMITTED, UPLOADING} then j.(deadline := Some(sh.clock + sh.cfg.retention)) else j)
               && (reply.Refused? ==> j' == j.(part := j'.part))
  {
    hide Expected, Pwrite;
    var j := sh.jobs[r.jid];
    if Opens(sh.jobs, r) { PwriteInside(j.part.value, r.n * j.chunkSize, r.body); }
  }

  /** No PUT, whatever becomes of it, changes the length of the spool file or a byte outside its own chunk. */
  lemma PutElsewhere(e: Env, sh: Shared, r: PutReq, trouble: Trouble)
    requires r.jid in sh.jobs && r.jid in AfterPut(e, sh, r, trouble)
    requires var j := sh.jobs[r.jid]; |r.body| <= r.length && (j.part.Some? ==> |j.part.value.data| == j.size)
    ensures var j, j' := sh.jobs[r.jid], AfterPut(e, sh, r, trouble)[r.jid];
            j'.part == j.part ||
              (j.part.Some? && j'.part.Some? && |j'.part.value.data| == j.size
               && forall i :: 0 <= i < j.size && !(r.n * j.chunkSize <= i < r.n * j.chunkSize + |r.body|) ==>
                    j'.part.value.data[i] == j.part.value.data[i])
  {
    hide Expected, Pwrite;
    var j := sh.jobs[r.jid];
    if Opens(sh.jobs, r) { PwriteInside(j.part.value, r.n * j.chunkSize, r.body); }
  }

  /** A write inside the file keeps its length and everything outside the piece. */
  lemma PwriteInside(f: File, off: nat, piece: seq<Byte>)
    requires off + |piece| <= |f.data|
    ensures var f' := Pwrite(f, off, piece);
            && |f'.data| == |f.data| && Holds(f', off, piece)
            && forall i :: 0 <= i < |f.data| && !(off <= i < off + |piece|) ==> f'.data[i] == f.data[i]
  {
    var f' := Pwrite(f, off, piece);
    if piece != [] { assert f'.data[off..off + |piece|] == piece; }
  }

  lemma WrittenNothing(j: Job, off: nat)
    requires j.part.Some?
    ensures Written(j, off, []) == j
  {
  }

  class Service {
    const env: Env
    var jobs: map<JobId, Job>
    var total: nat
    var reserved: nat
    var sem: nat
    var clock: nat
    var cfg: Config
    ghost var scan: Scan

    ghost function View(): Shared
      reads this
    {
      Shared(jobs, total, reserved, sem, clock, cfg, scan)
    }

    /* ---- uploads ---- */

    /** PUT of a chunk whose body arrives in the given pieces; the connection may
        break, or the disk refuse a write, after the last of them. */
    method Chunk(r: PutReq, pieces: seq<seq<Byte>>, trouble: Trouble) returns (reply: Reply, ghost t: Trace)
      requires forall i :: 0 <= i < |pieces| ==> pieces[i] != []
      requires r.body == Flat(pieces)
      modifies this`jobs
      ensures t.start == old(View()) && t.actor == Put(r, WaitLife) && t.spawned == [] && At(env, t, View(), Done)
      ensures reply == Answer(env, old(jobs), r, trouble)
      ensures jobs == AfterPut(env, old(View()), r, trouble)
    {
      hide At, CompleteStep, FinalizeStep, WorkerStep, AdmitStep, CollectStep, RecoverStep, SchedStep, FailStep, ReleaseStep, Pwrite, Flat, ChunkBytes;
      t := Starts(env, View(), Put(r, WaitLife));
      t := Moved(env, t, View(), Put(r, WaitLife), Plain, View(), Put(r, WaitChunk));
      t := Moved(env, t, View(), Put(r, WaitChunk), Plain, View(), Put(r, ReadJob));
      if r.jid !in jobs || BadRequest(jobs[r.jid], r) {
        t := Moved(env, t, View(), Put(r, ReadJob), Plain, View(), Done);
        return Refused(if r.jid !in jobs then 404 else if r.n >= jobs[r.jid].expected then 416 else 400), t;
      }
      var j := jobs[r.jid];
      var want: nat, off: nat, accepting := r.length, r.n * j.chunkSize, Accepting(j.state);
      t := Moved(env, t, View(), Put(r, ReadJob), Plain, View(), Put(r, ReadRow(want, off, accepting)));
      if r.n in j.rows && j.rows[r.n].sha == r.sum {
        t := Moved(env, t, View(), Put(r, ReadRow(want, off, accepting)), Plain, View(), Put(r, TouchJob));
        t := Moved(env, t, View(), Put(r, TouchJob), Plain, Set(View(), r.jid, Touch(j, clock + cfg.retention)), Done);
        jobs := jobs[r.jid := Touch(j, clock + cfg.retention)];
        return AlreadyPresent, t;
      }
      if r.n in j.rows || !accepting || j.part.None? {
        t := Moved(env, t, View(), Put(r, ReadRow(want, off, accepting)), Plain, View(), Done);
        return Refused(409), t;
      }
      t := Moved(env, t, View(), Put(r, ReadRow(want, off, accepting)), Plain, View(), Put(r, Write(want, off, 0)));
      reply, t := StoreBody(r, pieces, off, trouble, t);
    }

    /** The rest of a PUT, once the spool file is open. */
    method StoreBody(r: PutReq, pieces: seq<seq<Byte>>, off: nat, trouble: Trouble, ghost t0: Trace) returns (reply: Reply, ghost t: Trace)
      requires r.body == Flat(pieces) && forall i :: 0 <= i < |pieces| ==> pieces[i] != []
      requires r.jid in jobs && jobs[r.jid].part.Some? && r.length >= 0
      requires At(env, t0, View(), Put(r, Write(r.length, off, 0)))
      modifies this`jobs
      ensures At(env, t, View(), Done) && Extends(t0, t) && t.spawned == t0.spawned
      ensures reply == if trouble.ConnectionCut? then Refused(400) else if trouble.WriteFails? then Refused(507)
                       else if |r.body| != r.length || env.sha(r.body) != r.sum then Refused(422)
                       else if trouble.SyncFails? then Refused(500) else Verified
      ensures var written := Written(old(jobs)[r.jid], off, r.body);
              jobs == old(jobs)[r.jid := if reply.Verified? then CommitChunk(Synced(written), r.n, |r.body|, r.sum, clock + cfg.retention) else written]
    {
      hide At, CompleteStep, FinalizeStep, WorkerStep, AdmitStep, CollectStep, RecoverStep, Pwrite, Flat, CommitChunk;
      var want: nat, got := r.length, |r.body|;
      t := Receive(r, pieces, want, off, t0);
      ghost var t1 := t;
      if trouble.ConnectionCut? || trouble.WriteFails? {
        t := Moved(env, t, View(), Put(r, Write(want, off, got)), Fails, View(), Done);
        ExtendsOn(t0, t1, t);
        return Refused(if trouble.ConnectionCut? then 400 else 507), t;
      }
      if got != want || env.sha(r.body) != r.sum {
        t := Moved(env, t, View(), Put(r, Write(want, off, got)), Plain, View(), Done);
        ExtendsOn(t0, t1, t);
        return Refused(422), t;
      }
      reply, t := StoreChunk(r, off, trouble, t1);
      ExtendsOn(t0, t1, t);
    }

    /** Writes the pieces of the body one after the other at the chunk's offset. */
    method Receive(r: PutReq, pieces: seq<seq<Byte>>, ghost want: nat, off: nat, ghost t0: Trace) returns (ghost t: Trace)
      requires r.body == Flat(pieces) && forall i :: 0 <= i < |pieces| ==> pieces[i] != []
      requires r.jid in jobs && jobs[r.jid].part.Some?
      requires At(env, t0, View(), Put(r, Write(want, off, 0)))
      modifies this`jobs
      ensures At(env, t, View(), Put(r, Write(want, off, |r.body|))) && Extends(t0, t) && t.spawned == t0.spawned
      ensures jobs == old(jobs)[r.jid := Written(old(jobs)[r.jid], off, r.body)]
    {
      hide At, CompleteStep, FinalizeStep, WorkerStep, AdmitStep, CollectStep, RecoverStep, Pwrite, Flat;
      t := t0;
      ghost var j := jobs[r.jid];
      var got, i := 0, 0;
      FlatNone(pieces);
      WrittenNothing(j, off);
      while i < |pieces|
        invariant 0 <= i <= |pieces| && got == |Flat(pieces[..i])|
        invariant jobs == old(jobs)[r.jid := Written(j, off, Flat(pieces[..i]))]
        invariant Extends(t0, t) && t.spawned == t0.spawned
        invariant At(env, t, View(), Put(r, Write(want, off, got)))
      {
        var piece := pieces[i];
        FlatSplit(pieces, i);
        PwriteTwice(j.part.value, off, Flat(pieces[..i]), piece);
        ghost var t1 := t;
        t := Moved(env, t, View(), Put(r, Write(want, off, got)), Plain.(count := |piece|),
                   Set(View(), r.jid, Written(jobs[r.jid], off + got, piece)), Put(r, Write(want, off, got + |piece|)));
        ExtendsOn(t0, t1, t);
        jobs := jobs[r.jid := Written(jobs[r.jid], off + got, piece)];
        got := got + |piece|;
        i := i + 1;
      }
      assert pieces[..i] == pieces;
    }

    /** Syncs the spool file, then records the chunk. */
    method StoreChunk(r: PutReq, ghost off: nat, trouble: Trouble, ghost t0: Trace) returns (reply: Reply, ghost t: Trace)
      requires r.jid in jobs && jobs[r.jid].part.Some? && env.sha(r.body) == r.sum
      requires At(env, t0, View(), Put(r, Write(|r.body|, off, |r.body|)))
      modifies this`jobs
      ensures At(env, t, View(), Done) && Extends(t0, t) && t.spawned == t0.spawned
      ensures reply == if trouble.SyncFails? then Refused(500) else Verified
      ensures jobs == if trouble.SyncFails? then old(jobs)
                      else old(jobs)[r.jid := CommitChunk(Synced(old(jobs)[r.jid]), r.n, |r.body|, r.sum, clock + cfg.retention)]
    {
      hide At, CompleteStep, FinalizeStep, WorkerStep, AdmitStep, CollectStep, RecoverStep;
      t := Moved(env, t0, View(), Put(r, Write(|r.body|, off, |r.body|)), Plain, View(), Put(r, SyncFile(|r.body|, off)));
      if trouble.SyncFails? {
        t := Moved(env, t, View(), Put(r, SyncFile(|r.body|, off)), Fails, View(), Done);
        return Refused(500), t;
      }
      t := Moved(env, t, View(), Put(r, SyncFile(|r.body|, off)), Plain, Set(View(), r.jid, Synced(jobs[r.jid])), Put(r, Commit(|r.body|, off)));
      jobs := jobs[r.jid := Synced(jobs[r.jid])];
      t := Moved(env, t, View(), Put(r, Commit(|r.body|, off)), Plain,
                 Set(View(), r.jid, CommitChunk(jobs[r.jid], r.n, |r.body|, r.sum, clock + cfg.retention)), Done);
      jobs := jobs[r.jid := CommitChunk(jobs[r.jid], r.n, |r.body|, r.sum, clock + cfg.retention)];
      reply := Verified;
    }

    /** POST complete. The reply is 202 exactly if the upload was whole or is being processed. */
    method Complete(id: JobId) returns (accepted: bool, ghost t: Trace)
      modifies this`jobs
      ensures t.start == old(View()) && t.actor == Engine.Complete(id, false) && At(env, t, View(), Done)
      ensures var whole := id in old(jobs) && old(jobs)[id].state in {ADMITTED, UPLOADING}
                           && old(jobs)[id].received == old(jobs)[id].size && old(jobs)[id].chunks == old(jobs)[id].expected;
              && (accepted <==> whole || (id in old(jobs) && old(jobs)[id].state in
                                            {FINALIZING, STAGED, PROBING, VALIDATED, QUEUED, STARTING, TRANSCODING, COMPLETED}))
              && jobs == (if whole then old(jobs)[id := old(jobs)[id].(state := FINALIZING, deadline := None)] else old(jobs))
              && t.spawned == if whole then [Actor.Finalize(id, WaitFin)] else []
    {
      hide At;
      t := Starts(env, View(), Engine.Complete(id, false));
      t := Moved(env, t, View(), Engine.Complete(id, false), Plain, View(), Engine.Complete(id, true));
      if id in jobs && Completable(jobs[id]) {
        t := Took(env, t, View(), Engine.Complete(id, true), Plain,
                  Outcome(Set(View(), id, CompleteUpload(jobs[id])), Done, [Actor.Finalize(id, WaitFin)]));
        jobs := jobs[id := CompleteUpload(jobs[id])];
        accepted := true;
      } else {
        t := Moved(env, t, View(), Engine.Complete(id, true), Plain, View(), Done);
        accepted := id in jobs && ProcessingOrCompleted(jobs[id].state);
      }
    }

    /* ---- giving reservations back ---- */

    /** release: three statements, not a transaction. */
    method Release(id: JobId, amount: nat, ghost c: ReleaseSite, ghost t0: Trace) returns (ghost t: Trace)
      requires id == Site(c) && id in jobs
      requires At(env, t0, View(), Releasing(c, if amount > 0 then Some(ZeroRow(amount)) else None))
      modifies this`jobs, this`reserved
      ensures At(env, t, View(), Releasing(c, None)) && Extends(t0, t)
      ensures jobs.Keys == old(jobs).Keys && jobs == old(jobs)[id := jobs[id]]
      ensures jobs[id] == old(jobs)[id].(reserved := jobs[id].reserved, ledger := jobs[id].ledger)
      ensures amount > 0 && old(jobs)[id].reserved == amount ==>
                && jobs[id].reserved == 0 && jobs[id].ledger == None
                && reserved == if old(reserved) >= amount then old(reserved) - amount else 0
      ensures amount == 0 || old(jobs)[id].reserved != amount ==> jobs == old(jobs) && reserved == old(reserved)
    {
      hide At, Step;
      t := t0;
      if amount > 0 {
        ReleaseSteps(env, View(), c, ZeroRow(amount), Plain);
        if jobs[id].reserved == amount {
          t := Moved(env, t, View(), Releasing(c, Some(ZeroRow(amount))), Plain,
                     Set(View(), id, ZeroReserved(jobs[id], amount)), Releasing(c, Some(FreeCapacity(amount))));
          jobs := jobs[id := ZeroReserved(jobs[id], amount)];
          ReleaseSteps(env, View(), c, FreeCapacity(amount), Plain);
          t := Moved(env, t, View(), Releasing(c, Some(FreeCapacity(amount))), Plain,
                     View().(reserved := Released(reserved, amount)), Releasing(c, Some(DropLedger)));
          reserved := Released(reserved, amount);
          ReleaseSteps(env, View(), c, DropLedger, Plain);
          ghost var t1 := t;
          t := Took(env, t, View(), Releasing(c, Some(DropLedger)), Plain,
                    Outcome(Set(View(), id, jobs[id].(ledger := None)), Releasing(c, None), [Admit(WaitAdmission)]));
          ExtendsOn(t0, t1, t);
          jobs := jobs[id := jobs[id].(ledger := None)];
        } else {
          t := Moved(env, t, View(), Releasing(c, Some(ZeroRow(amount))), Plain, View(), Releasing(c, None));
        }
      }
    }

    /** fail: releases before it marks the job. */
    method Fail(id: JobId, ghost c: FailSite, ghost t0: Trace) returns (ghost t: Trace)
      requires id == c.id && id in jobs && At(env, t0, View(), Failing(c, Some(FailLoad)))
      modifies this`jobs, this`reserved
      ensures At(env, t, View(), Failing(c, None)) && Extends(t0, t)
      ensures jobs.Keys == old(jobs).Keys && jobs == old(jobs)[id := jobs[id]]
      ensures var j := old(jobs)[id];
              jobs[id] == (if j.state == COMPLETED || j.state == FAILED then j else j.(state := FAILED, error := true, finished := Some(clock)))
                            .(reserved := 0, ledger := jobs[id].ledger, part := None, input := None)
      ensures old(jobs)[id].reserved > 0 ==> jobs[id].ledger.None?
      ensures reserved == if old(reserved) >= old(jobs)[id].reserved then old(reserved) - old(jobs)[id].reserved else 0
    {
      hide At, Step;
      var amount := jobs[id].reserved;
      FailSteps(env, View(), c, FailLoad, Plain);
      ghost var site := WhileFailing(c);
      t := Moved(env, t0, View(), Failing(c, Some(FailLoad)), Plain, View(),
                 Releasing(site, if amount > 0 then Some(ZeroRow(amount)) else None));
      ghost var t1 := t;
      t := Release(id, amount, site, t1);
      ExtendsOn(t0, t1, t);
      ghost var t2 := t;
      FailSteps(env, View(), c, FailMark, Plain);
      t := Moved(env, t, View(), Failing(c, Some(FailMark)), Plain, Set(View(), id, MarkFailed(jobs[id], clock)), Failing(c, Some(FailClean)));
      jobs := jobs[id := MarkFailed(jobs[id], clock)];
      FailSteps(env, View(), c, FailClean, Plain);
      t := Moved(env, t, View(), Failing(c, Some(FailClean)), Plain, Set(View(), id, RemoveSpool(jobs[id])), Failing(c, None));
      ExtendsOn(t0, t2, t);
      jobs := jobs[id := RemoveSpool(jobs[id])];
    }

    /* ---- the scheduler ---- */

    /** SELECT … WHERE state='QUEUED' ORDER BY created_at LIMIT 1. */
    method OldestQueued() returns (found: Option<JobId>)
      ensures found.None? ==> forall id :: !IsOldestQueued(env, View(), id) && (id in jobs ==> jobs[id].state != QUEUED)
      ensures found.Some? ==> IsOldestQueued(env, View(), found.value) && found.value in jobs && jobs[found.value].state == QUEUED
      ensures found.Some? ==> forall w :: w in jobs && jobs[w].state == QUEUED ==>
                env.textKey(jobs[found.value].created) <= env.textKey(jobs[w].created)
    {
      found := None;
      var rest := jobs.Keys;
      while rest != {}
        invariant rest <= jobs.Keys
        invariant found.None? ==> forall id :: id in jobs && id !in rest ==> jobs[id].state != QUEUED
        invariant found.Some? ==> found.value in jobs && jobs[found.value].state == QUEUED
        invariant found.Some? ==> forall id :: id in jobs && id !in rest && jobs[id].state == QUEUED ==>
                    env.textKey(jobs[found.value].created) <= env.textKey(jobs[id].created)
        decreases rest
      {
        var id :| id in rest;
        rest := rest - {id};
        if jobs[id].state == QUEUED && (found.None? || env.textKey(jobs[id].created) < env.textKey(jobs[found.value].created)) {
          found := Some(id);
        }
      }
    }

    /** schedule: starts the oldest queued jobs while slots are free. */
    method Schedule(ghost c: ScheduleSite, ghost t0: Trace) returns (ghost t: Trace)
      requires At(env, t0, View(), Scheduling(c, Some(WaitSched)))
      modifies this`jobs, this`sem
      ensures At(env, t, View(), Scheduling(c, None)) && Extends(t0, t)
      ensures sem >= cfg.active || forall id :: id in jobs ==> jobs[id].state != QUEUED
      ensures jobs.Keys == old(jobs).Keys && forall id :: id in jobs ==> StartedOf(old(jobs)[id], jobs[id])
      ensures OldestStarted(env, old(jobs), jobs)
    {
      hide At, Step, IsOldestQueued, OldestStarted;
      NothingStarted(env, jobs);
      ScheduleSteps(env, View(), c, WaitSched, Plain);
      t := Moved(env, t0, View(), Scheduling(c, Some(WaitSched)), Plain, View(), Scheduling(c, Some(CheckSlots)));
      while sem < cfg.active
        invariant At(env, t, View(), Scheduling(c, Some(CheckSlots))) && Extends(t0, t)
        invariant jobs.Keys == old(jobs).Keys && forall id :: id in jobs ==> StartedOf(old(jobs)[id], jobs[id])
        invariant OldestStarted(env, old(jobs), jobs)
        decreases cfg.active - sem
      {
        ScheduleSteps(env, View(), c, CheckSlots, Plain);
        ghost var t1 := t;
        t := Moved(env, t, View(), Scheduling(c, Some(CheckSlots)), Plain, View(), Scheduling(c, Some(PickJob)));
        ExtendsOn(t0, t1, t);
        var found := OldestQueued();
        if found.None? {
          ScheduleSteps(env, View(), c, PickJob, Plain);
          ghost var t2 := t;
          t := Moved(env, t, View(), Scheduling(c, Some(PickJob)), Plain, View(), Scheduling(c, None));
          ExtendsOn(t0, t2, t);
          return;
        }
        var id := found.value;
        StartsOldest(env, old(jobs), jobs, id);
        t := Start(id, c, t0, t);
      }
      ScheduleSteps(env, View(), c, CheckSlots, Plain);
      ghost var t3 := t;
      t := Moved(env, t, View(), Scheduling(c, Some(CheckSlots)), Plain, View(), Scheduling(c, None));
      ExtendsOn(t0, t3, t);
    }

    /** One round of the scheduling loop. */
    method Start(id: JobId, ghost c: ScheduleSite, ghost t0: Trace, ghost t1: Trace) returns (ghost t: Trace)
      requires IsOldestQueued(env, View(), id) && sem < cfg.active
      requires At(env, t1, View(), Scheduling(c, Some(PickJob))) && Extends(t0, t1)
      modifies this`jobs, this`sem
      ensures At(env, t, View(), Scheduling(c, Some(CheckSlots))) && Extends(t0, t)
      ensures id in old(jobs) && old(jobs)[id].state == QUEUED && jobs == old(jobs)[id := old(jobs)[id].(state := STARTING)] && sem == old(sem) + 1
    {
      hide At, Step;
      ghost var ch := Plain.(id := id);
      ScheduleSteps(env, View(), c, PickJob, ch);
      t := Moved(env, t1, View(), Scheduling(c, Some(PickJob)), ch, View(), Scheduling(c, Some(StartJob(id))));
      ScheduleSteps(env, View(), c, StartJob(id), Plain);
      t := Moved(env, t, View(), Scheduling(c, Some(StartJob(id))), Plain,
                 Set(View(), id, Advance(jobs[id], QUEUED, STARTING)), Scheduling(c, Some(Send(id))));
      ExtendsOn(t0, t1, t);
      jobs := jobs[id := Advance(jobs[id], QUEUED, STARTING)];
      ScheduleSteps(env, View(), c, Send(id), Plain);
      ghost var t2 := t;
      t := Took(env, t, View(), Scheduling(c, Some(Send(id))), Plain,
                Outcome(View().(sem := sem + 1), Scheduling(c, Some(CheckSlots)), [Actor.Worker(id, Load)]));
      ExtendsOn(t0, t2, t);
      sem := sem + 1;
    }

    /* ---- creation ---- */

    /** POST jobs: one job per idempotency key, replayed when the same request asks again. */
    method Create(key: string, req: Request, id: JobId) returns (reply: CreateReply)
      requires id !in jobs && cfg.chunk > 0
      modifies this`jobs
      ensures reply.Invalid? <==> Specified(env, old(View()), req).Err?
      ensures reply.Created? ==>
                req.input.size > 0 && !KeyUsed(old(View()), key) && Specified(env, old(View()), req).Ok?
                && View() == Set(old(View()), id, CreatedJob(env, old(View()), key, req, Specified(env, old(View()), req).value))
                && reply.id == id && id in jobs && jobs == old(jobs)[id := jobs[id]]
      ensures reply.Created? ==>
                var j := jobs[id];
                && j.state == PENDING && j.created == clock && j.deadline == Some(clock + cfg.retention)
                && j.filename == req.input.filename && j.size == req.input.size && j.inputHash == Lower(req.input.sha256)
                && j.chunkSize == cfg.chunk && j.expected == (req.input.size + cfg.chunk - 1) / cfg.chunk && Ok(j.spec) == Specified(env, old(View()), req)
                && j.key.Some? && j.key.value.id == key
                && j.rows == map[] && j.received == 0 && j.chunks == 0 && j.reserved == 0 && j.ledger.None? && j.actualHash == ""
                && j.part.None? && j.input.None? && j.finished.None? && !j.error
      ensures !reply.Created? ==> View() == old(View())
      ensures reply.Replayed? ==> reply.id in jobs && AnswersTo(env, View(), jobs[reply.id], key, req)
      ensures reply.Clash? ==> exists k :: k in jobs && HasKey(jobs[k], key) && !AnswersTo(env, View(), jobs[k], key, req)
    {
      hide PresetBase, Merge, CheckOutput;
      var spec := Normalize(req, cfg.limits, env.validName, env.validSha);
      if spec.Err? {
        return Invalid;
      }
      var existing := FindKey(key);
      if existing.Some? {
        var j := jobs[existing.value];
        if j.key.value.digest == RequestDigest(env, Lowered(req.input), spec.value) {
          return Replayed(existing.value);
        }
        return Clash;
      }
      var input := Lowered(req.input);
      jobs := jobs[id := NewJob(RequestKey(key, RequestDigest(env, input, spec.value)), input, spec.value, clock, cfg.chunk, clock + cfg.retention)];
      reply := Created(id);
    }

    method FindKey(key: string) returns (found: Option<JobId>)
      ensures found.None? ==> !KeyUsed(View(), key)
      ensures found.Some? ==> found.value in jobs && HasKey(jobs[found.value], key)
    {
      found := None;
      var rest := jobs.Keys;
      while rest != {}
        invariant rest <= jobs.Keys
        invariant found.None? ==> forall id :: id in jobs && id !in rest ==> !HasKey(jobs[id], key)
        invariant found.Some? ==> found.value in jobs && HasKey(jobs[found.value], key)
        decreases rest
      {
        var id :| id in rest;
        rest := rest - {id};
        if HasKey(jobs[id], key) { found := Some(id); }
      }
    }

    /* ---- admission ---- */

    /** SELECT … WHERE state='PENDING' AND not expired ORDER BY created_at,id LIMIT 1. */
    method OldestPendingJob() returns (found: Option<JobId>)
      ensures found.None? ==> NobodyWaits(jobs, clock)
      ensures found.Some? ==> IsHead(env, View(), clock, found.value) && CreatedFirst(env, jobs, clock, found.value)
    {
      found := None;
      var rest := jobs.Keys;
      while rest != {}
        invariant rest <= jobs.Keys
        invariant found.None? ==> forall id :: id in jobs && id !in rest ==> !Waiting(jobs[id], clock)
        invariant found.Some? ==> found.value in jobs && Waiting(jobs[found.value], clock)
        invariant found.Some? ==> forall id :: id in jobs && id !in rest && Waiting(jobs[id], clock) && id != found.value ==>
                    Before(env, found.value, jobs[found.value], id, jobs[id])
        decreases rest
      {
        var id :| id in rest;
        rest := rest - {id};
        if Waiting(jobs[id], clock) {
          if found.None? {
            found := Some(id);
          } else if Before(env, id, jobs[id], found.value, jobs[found.value]) {
            forall k | k in jobs && k !in rest && Waiting(jobs[k], clock) && k != id ensures Before(env, id, jobs[id], k, jobs[k]) {
              if k != found.value { BeforeTransitive(env, id, jobs[id], found.value, jobs[found.value], k, jobs[k]); }
            }
            found := Some(id);
          }
        }
      }
    }

    ghost function Queue(): set<JobId>
      reads this
    {
      set id | id in jobs && Waits(jobs[id], clock)
    }

    /** admitPending: reserves capacity and creates the input file in order of
        creation, until nobody waits, the first job does not fit, or the disk check
        refuses it. The disk has `space` for a job or not, and its file can be created or not. */
    method AdmitPending(space: JobId -> Space, creatable: JobId -> bool) returns (ghost t: Trace)
      modifies this`jobs, this`reserved, this`scan
      ensures t.start == old(View()) && t.actor == Admit(WaitAdmission) && At(env, t, View(), Done)
      ensures NobodyWaits(jobs, clock)
              || exists h :: CreatedFirst(env, jobs, clock, h) && NoRoom(jobs[h], reserved, total, space(h))
      ensures jobs.Keys == old(jobs).Keys
      ensures AllHandled(old(jobs), jobs, clock, cfg.retention, space, creatable) && InOrder(env, old(jobs), jobs, clock)
    {
      hide At, PutStep, CompleteStep, FinalizeStep, WorkerStep, CollectStep, RecoverStep, SchedStep, FailStep, IsHead, NoneWaiting, InOrder,
           Handled, AllHandled, CreatedFirst, NobodyWaits;
      t := Starts(env, View(), Admit(WaitAdmission));
      t := Moved(env, t, View(), Admit(WaitAdmission), Plain, View(), Admit(PickHead));
      NothingHandled(env, jobs, clock, cfg.retention, space, creatable);
      while true
        invariant t.start == old(View()) && t.actor == Admit(WaitAdmission) && At(env, t, View(), Admit(PickHead))
        invariant jobs.Keys == old(jobs).Keys
        invariant AllHandled(old(jobs), jobs, clock, cfg.retention, space, creatable) && InOrder(env, old(jobs), jobs, clock)
        decreases Queue()
      {
        var head := OldestPendingJob();
        if head.None? {
          NobodyIs(View());
          PickNone(env, View());
          t := Moved(env, t, View(), Admit(PickHead), Plain, View().(scan := Scan(clock, false)), Done);
          scan := Scan(clock, false);
          return;
        }
        var id := head.value;
        FirstIn(env, jobs, clock, id);
        ghost var queue := Queue();
        assert id in queue;
        ghost var before := jobs;
        var done;
        done, t := AdmitNext(id, space(id), creatable(id), t);
        if done { return; }
        HandledLeaves(before[id], jobs[id], clock, cfg.retention, space(id), creatable(id));
        HandledNext(old(jobs), before, jobs, clock, cfg.retention, space, creatable, id);
        HandledInOrder(env, old(jobs), before, jobs, clock, id);
        assert id !in Queue() && Queue() <= queue;
      }
    }

    /** One round of the admission loop. */
    method AdmitNext(id: JobId, space: Space, creatable: bool, ghost t0: Trace) returns (done: bool, ghost t: Trace)
      requires IsHead(env, View(), clock, id) && id in jobs && Waits(jobs[id], clock)
      requires At(env, t0, View(), Admit(PickHead))
      modifies this`jobs, this`reserved, this`scan
      ensures Extends(t0, t) && At(env, t, View(), if done then Done else Admit(PickHead))
      ensures jobs.Keys == old(jobs).Keys && jobs == old(jobs)[id := jobs[id]]
      ensures done <==> NoRoom(old(jobs)[id], old(reserved), total, space)
      ensures if done then jobs == old(jobs) && reserved == old(reserved) else Handled(old(jobs)[id], jobs[id], clock, cfg.retention, space, creatable)
    {
      hide At, Step, IsHead;
      var amount := jobs[id].reserved;
      PickFound(env, View(), id);
      t := Moved(env, t0, View(), Admit(PickHead), Plain, View().(scan := Scan(clock, false)),
                 Admit(if amount == 0 then ReserveHead(id) else Prepare(id, amount)));
      scan := Scan(clock, false);
      if amount == 0 {
        var result;
        result, t := ReservePending(id, space, t0, t);
        if result.Unavailable? {
          return true, t;
        }
        if result.Broken? {
          ghost var t1 := t;
          t := Fail(id, InAdmission(id), t1);
          ExtendsOn(t0, t1, t);
          return false, t;
        }
        amount := jobs[id].size;
      }
      t := AdmitHead(id, amount, creatable, t0, t);
      done := false;
    }

    /** reservePending: one transaction; `Broken` are its errors other than the lack of room. */
    method ReservePending(id: JobId, space: Space, ghost t0: Trace, ghost t1: Trace) returns (result: ReserveResult, ghost t: Trace)
      requires id in jobs && jobs[id].state == PENDING && jobs[id].reserved == 0
      requires At(env, t1, View(), Admit(ReserveHead(id))) && Extends(t0, t1)
      modifies this`jobs, this`reserved, this`scan
      ensures Extends(t0, t)
      ensures At(env, t, View(), match result case Held => Admit(Prepare(id, old(jobs)[id].size)) case Unavailable => Done
                                              case Broken => Failing(InAdmission(id), Some(FailLoad)))
      ensures result == if space.Unknown? then Broken else if space.TooLittle? || old(reserved) + old(jobs)[id].size > total then Unavailable
                        else if old(jobs)[id].ledger.Some? then Broken else Held
      ensures if result.Held?
              then jobs == old(jobs)[id := old(jobs)[id].(reserved := old(jobs)[id].size, ledger := Some(old(jobs)[id].size))]
                   && reserved == old(reserved) + old(jobs)[id].size
              else jobs == old(jobs) && reserved == old(reserved)
    {
      hide At, PutStep, CompleteStep, FinalizeStep, WorkerStep, CollectStep, RecoverStep, SchedStep, FailStep, ReleaseStep;
      if space.Unknown? {
        ghost var broken := Fails.(count := 1);
        t := Moved(env, t1, View(), Admit(ReserveHead(id)), broken, View(), Failing(InAdmission(id), Some(FailLoad)));
        result := Broken;
      } else if space.TooLittle? {
        t := Moved(env, t1, View(), Admit(ReserveHead(id)), Fails, View().(scan := scan.(refused := true)), Done);
        scan := scan.(refused := true);
        result := Unavailable;
      } else if reserved + jobs[id].size > total {
        t := Moved(env, t1, View(), Admit(ReserveHead(id)), Plain, View(), Done);
        result := Unavailable;
      } else if jobs[id].ledger.Some? {
        t := Moved(env, t1, View(), Admit(ReserveHead(id)), Plain, View(), Failing(InAdmission(id), Some(FailLoad)));
        result := Broken;
      } else {
        t := Moved(env, t1, View(), Admit(ReserveHead(id)), Plain,
                   Set(View(), id, Reserve(jobs[id])).(reserved := reserved + jobs[id].size), Admit(Prepare(id, jobs[id].size)));
        reserved := reserved + jobs[id].size;
        jobs := jobs[id := Reserve(jobs[id])];
        result := Held;
      }
      ExtendsOn(t0, t1, t);
    }

    /** prepareInput and the admission UPDATE. */
    method AdmitHead(id: JobId, amount: nat, creatable: bool, ghost t0: Trace, ghost t1: Trace) returns (ghost t: Trace)
      requires id in jobs && jobs[id].state == PENDING && jobs[id].reserved == amount
      requires At(env, t1, View(), Admit(Prepare(id, amount))) && Extends(t0, t1)
      modifies this`jobs, this`reserved
      ensures Extends(t0, t) && At(env, t, View(), Admit(PickHead))
      ensures jobs.Keys == old(jobs).Keys && jobs == old(jobs)[id := jobs[id]]
      ensures creatable ==>
                && jobs[id] == old(jobs)[id].(state := ADMITTED, deadline := Some(clock + cfg.retention), part := jobs[id].part)
                && jobs[id].part.Some? && |jobs[id].part.value.data| == jobs[id].size && reserved == old(reserved)
      ensures !creatable ==> jobs[id] == old(jobs)[id].(state := FAILED, error := true, finished := Some(clock), reserved := 0,
                                                        ledger := jobs[id].ledger, part := None, input := None)
    {
      hide At, PutStep, CompleteStep, FinalizeStep, WorkerStep, CollectStep, RecoverStep, SchedStep, FailStep, ReleaseStep;
      if !creatable {
        t := Moved(env, t1, View(), Admit(Prepare(id, amount)), Fails, View(), Failing(InAdmission(id), Some(FailLoad)));
        ExtendsOn(t0, t1, t);
        ghost var t2 := t;
        t := Fail(id, InAdmission(id), t2);
        ExtendsOn(t0, t2, t);
        return;
      }
      t := Moved(env, t1, View(), Admit(Prepare(id, amount)), Plain, Set(View(), id, PrepareInput(jobs[id])), Admit(MarkAdmitted(id, amount)));
      jobs := jobs[id := PrepareInput(jobs[id])];
      t := Moved(env, t, View(), Admit(MarkAdmitted(id, amount)), Plain,
                 Set(View(), id, Admitted(jobs[id], amount, clock + cfg.retention)), Admit(PickHead));
      ExtendsOn(t0, t1, t);
      jobs := jobs[id := Admitted(jobs[id], amount, clock + cfg.retention)];
    }

    /* ---- expiry ---- */

    /** expireUploads: one pass over the uploads whose deadline has passed. */
    method ExpireUploads(now: nat, ghost c: ExpirySite, ghost t0: Trace) returns (ghost t: Trace)
      requires At(env, t0, View(), ExpiryAt(c, Some(WaitGc(now))))
      modifies this`jobs, this`reserved
      ensures Extends(t0, t) && At(env, t, View(), ExpiryAt(c, None))
      ensures jobs.Keys == old(jobs).Keys && forall id :: id in jobs ==> ExpiredIfDue(old(jobs)[id], jobs[id], now)
    {
      hide At, Step, SweptBy, Due, ExpiredIfDue;
      ExpirySteps(env, View(), c, WaitGc(now), Plain);
      t := Moved(env, t0, View(), ExpiryAt(c, Some(WaitGc(now))), Plain, View(), ExpiryAt(c, Some(ScanExpired(now))));
      var due := set id | id in jobs && Expirable(jobs[id], now);
      ghost var t1, jobs0 := t, jobs;
      DueIs(View(), now, due);
      SweptNone(jobs, now);
      if due == {} {
        ExpirySteps(env, View(), c, ScanExpired(now), Plain);
        t := Moved(env, t, View(), ExpiryAt(c, Some(ScanExpired(now))), Plain, View(), ExpiryAt(c, None));
        ExtendsOn(t0, t1, t);
        SweptMeans(jobs0, jobs, due, now);
        return;
      }
      var id :| id in due;
      var rest := due - {id};
      ExpirySteps(env, View(), c, ScanExpired(now), Plain.(id := id));
      t := Moved(env, t, View(), ExpiryAt(c, Some(ScanExpired(now))), Plain.(id := id), View(), ExpiryAt(c, Some(WaitExpire(now, id, rest))));
      ExtendsOn(t0, t1, t);
      ghost var done: set<JobId> := {};
      while true
        invariant Extends(t0, t) && At(env, t, View(), ExpiryAt(c, Some(WaitExpire(now, id, rest))))
        invariant id !in rest && id !in done && rest !! done && due == done + rest + {id}
        invariant SweptBy(jobs0, jobs, done, now)
        decreases rest
      {
        var last := rest == {};
        var next := id;
        if !last { next :| next in rest; }
        SweptNext(jobs0, jobs, due, done, id, now);
        t := ExpireUpload(id, now, c, t0, t, rest, Plain.(id := next));
        done := done + {id};
        if last {
          assert done == due;
          SweptMeans(jobs0, jobs, due, now);
          return;
        }
        id := next;
        rest := rest - {next};
      }
    }

    /** expireUpload: the transaction of one job, and the removal of its spool. */
    method ExpireUpload(id: JobId, now: nat, ghost c: ExpirySite, ghost t0: Trace, ghost t1: Trace, ghost rest: set<JobId>, ghost ch: Choice)
      returns (ghost t: Trace)
      requires id in jobs && Expirable(jobs[id], now) && (rest == {} || ch.id in rest)
      requires At(env, t1, View(), ExpiryAt(c, Some(WaitExpire(now, id, rest)))) && Extends(t0, t1)
      modifies this`jobs, this`reserved
      ensures Extends(t0, t) && At(env, t, View(), ExpiryAt(c, if rest == {} then None else Some(WaitExpire(now, ch.id, rest - {ch.id}))))
      ensures jobs == old(jobs)[id := RemoveSpool(Expire(old(jobs)[id], now))]
      ensures reserved == if old(reserved) >= old(jobs)[id].reserved then old(reserved) - old(jobs)[id].reserved else 0
    {
      hide At, Step;
      ExpirySteps(env, View(), c, WaitExpire(now, id, rest), Plain);
      t := Moved(env, t1, View(), ExpiryAt(c, Some(WaitExpire(now, id, rest))), Plain, View(), ExpiryAt(c, Some(ExpireJob(now, id, rest))));
      ExpirySteps(env, View(), c, ExpireJob(now, id, rest), Plain);
      t := Moved(env, t, View(), ExpiryAt(c, Some(ExpireJob(now, id, rest))), Plain,
                 Set(View(), id, Expire(jobs[id], now)).(reserved := Released(reserved, jobs[id].reserved)), ExpiryAt(c, Some(SweepJob(now, id, rest))));
      ExtendsOn(t0, t1, t);
      reserved := Released(reserved, jobs[id].reserved);
      jobs := jobs[id := Expire(jobs[id], now)];
      ExpirySteps(env, View(), c, SweepJob(now, id, rest), ch);
      ghost var t2 := t;
      t := Took(env, t, View(), ExpiryAt(c, Some(SweepJob(now, id, rest))), ch,
                Outcome(Set(View(), id, RemoveSpool(jobs[id])),
                        ExpiryAt(c, if rest == {} then None else Some(WaitExpire(now, ch.id, rest - {ch.id}))),
                        if rest == {} then [Admit(WaitAdmission)] else []));
      ExtendsOn(t0, t2, t);
      jobs := jobs[id := RemoveSpool(jobs[id])];
    }

    /* ---- finalization ---- */

    /** finalize: rename, digest, staging, then probeAndQueue. The file may resist
        renaming or reading, and the probe may reject it. */
    method Finalize(id: JobId, renamable: bool, readable: bool, valid: bool) returns (ghost t: Trace)
      modifies this`jobs, this`reserved, this`sem
      ensures t.start == old(View()) && t.actor == Actor.Finalize(id, WaitFin) && At(env, t, View(), Done)
      ensures jobs.Keys == old(jobs).Keys && forall k :: k in jobs && k != id ==> StartedOf(old(jobs)[k], jobs[k])
      ensures id in jobs && old(jobs)[id].state == FINALIZING ==> Finalized(env, old(jobs)[id], jobs[id], renamable, readable, valid)
    {
      hide At, PutStep, CompleteStep, WorkerStep, AdmitStep, CollectStep, RecoverStep, SchedStep, FailStep;
      t := Starts(env, View(), Actor.Finalize(id, WaitFin));
      if id !in jobs {
        t := Moved(env, t, View(), Actor.Finalize(id, WaitFin), Plain, View(), Done);
        return;
      }
      t := Moved(env, t, View(), Actor.Finalize(id, WaitFin), Plain, View(), Actor.Finalize(id, Rename));
      if jobs[id].input.None? && (jobs[id].part.None? || !renamable) {
        t := Moved(env, t, View(), Actor.Finalize(id, Rename), Fails, View(), Failing(InFinalize(id), Some(FailLoad)));
        t := Fail(id, InFinalize(id), t);
        return;
      }
      t := Moved(env, t, View(), Actor.Finalize(id, Rename), Plain, Set(View(), id, RenameInput(jobs[id])), Actor.Finalize(id, FinPc.HashInput));
      jobs := jobs[id := RenameInput(jobs[id])];
      t := HashInput(id, readable, valid, t);
    }

    /** The rest of finalize, once `input` is in place. */
    method HashInput(id: JobId, readable: bool, valid: bool, ghost t0: Trace) returns (ghost t: Trace)
      requires id in jobs && jobs[id].input.Some? && At(env, t0, View(), Actor.Finalize(id, FinPc.HashInput))
      modifies this`jobs, this`reserved, this`sem
      ensures Extends(t0, t) && At(env, t, View(), Done)
      ensures jobs.Keys == old(jobs).Keys && forall k :: k in jobs && k != id ==> StartedOf(old(jobs)[k], jobs[k])
      ensures old(jobs)[id].state == FINALIZING ==> Finalized(env, old(jobs)[id], jobs[id], true, readable, valid)
    {
      hide At, PutStep, CompleteStep, WorkerStep, AdmitStep, CollectStep, RecoverStep, SchedStep, FailStep;
      t := t0;
      var h := env.sha(jobs[id].input.value.data);
      if !readable || (jobs[id].inputHash != "" && jobs[id].inputHash != h) {
        ghost var ch := if readable then Plain else Fails;
        t := Moved(env, t, View(), Actor.Finalize(id, FinPc.HashInput), ch, View(), Failing(InFinalize(id), Some(FailLoad)));
        ghost var t1 := t;
        t := Fail(id, InFinalize(id), t1);
        ExtendsOn(t0, t1, t);
        return;
      }
      t := Moved(env, t, View(), Actor.Finalize(id, FinPc.HashInput), Plain, View(), Actor.Finalize(id, Stage(h)));
      t := Moved(env, t, View(), Actor.Finalize(id, Stage(h)), Plain, Set(View(), id, StageInput(jobs[id], h)), Actor.Finalize(id, MarkProbing));
      jobs := jobs[id := StageInput(jobs[id], h)];
      ghost var t2 := t;
      t := ProbeAndQueue(id, valid, t2);
      ExtendsOn(t0, t2, t);
    }

    /** probeAndQueue: the probe's verdict is up to the outside world. */
    method ProbeAndQueue(id: JobId, valid: bool, ghost t0: Trace) returns (ghost t: Trace)
      requires id in jobs && At(env, t0, View(), Actor.Finalize(id, MarkProbing))
      modifies this`jobs, this`reserved, this`sem
      ensures Extends(t0, t) && At(env, t, View(), Done)
      ensures jobs.Keys == old(jobs).Keys && forall k :: k in jobs && k != id ==> StartedOf(old(jobs)[k], jobs[k])
      ensures old(jobs)[id].state == STAGED && valid ==> jobs[id].state in {QUEUED, STARTING} && jobs[id] == old(jobs)[id].(state := jobs[id].state)
      ensures old(jobs)[id].state == STAGED && !valid ==> jobs[id].state == FAILED && jobs[id].error && jobs[id].reserved == 0 && !HasSpool(jobs[id])
    {
      hide At, PutStep, CompleteStep, WorkerStep, AdmitStep, CollectStep, RecoverStep, SchedStep, FailStep;
      t := Moved(env, t0, View(), Actor.Finalize(id, MarkProbing), Plain, Set(View(), id, Advance(jobs[id], STAGED, PROBING)), Actor.Finalize(id, Probe));
      jobs := jobs[id := Advance(jobs[id], STAGED, PROBING)];
      ghost var t1 := t;
      if !valid {
        t := Moved(env, t, View(), Actor.Finalize(id, Probe), Fails, View(), Failing(InFinalize(id), Some(FailLoad)));
        ExtendsOn(t0, t1, t);
        t1 := t;
        t := Fail(id, InFinalize(id), t1);
        ExtendsOn(t0, t1, t);
        return;
      }
      t := Moved(env, t, View(), Actor.Finalize(id, Probe), Plain, View(), Actor.Finalize(id, MarkValidated));
      ExtendsOn(t0, t1, t);
      t := QueueJob(id, t0, t);
    }

    /** The end of probeAndQueue: VALIDATED, QUEUED, schedule. */
    method QueueJob(id: JobId, ghost t0: Trace, ghost t1: Trace) returns (ghost t: Trace)
      requires id in jobs && At(env, t1, View(), Actor.Finalize(id, MarkValidated)) && Extends(t0, t1)
      modifies this`jobs, this`sem
      ensures Extends(t0, t) && At(env, t, View(), Done)
      ensures jobs.Keys == old(jobs).Keys && forall k :: k in jobs && k != id ==> StartedOf(old(jobs)[k], jobs[k])
      ensures old(jobs)[id].state == PROBING ==> jobs[id].state in {QUEUED, STARTING} && jobs[id] == old(jobs)[id].(state := jobs[id].state)
    {
      hide At, PutStep, CompleteStep, WorkerStep, AdmitStep, CollectStep, RecoverStep, SchedStep, FailStep;
      t := Moved(env, t1, View(), Actor.Finalize(id, MarkValidated), Plain, Set(View(), id, Advance(jobs[id], PROBING, VALIDATED)), Actor.Finalize(id, MarkQueued));
      jobs := jobs[id := Advance(jobs[id], PROBING, VALIDATED)];
      t := Moved(env, t, View(), Actor.Finalize(id, MarkQueued), Plain, Set(View(), id, Advance(jobs[id], VALIDATED, QUEUED)), Scheduling(AfterFinalize(id), Some(WaitSched)));
      jobs := jobs[id := Advance(jobs[id], VALIDATED, QUEUED)];
      ExtendsOn(t0, t1, t);
      ghost var t2 := t;
      t := Schedule(AfterFinalize(id), t2);
      ExtendsOn(t0, t2, t);
    }

    /* ---- the worker ---- */

    /** The goroutine started by schedule: run, give the slot back, schedule. */
    method Work(id: JobId, cgroup: bool, encoder: Choice, saved: Saved) returns (ghost t: Trace)
      requires sem > 0
      modifies this`jobs, this`reserved, this`sem
      ensures t.start == old(View()) && t.actor == Actor.Worker(id, Load) && At(env, t, View(), Done)
      ensures sem >= cfg.active || forall k :: k in jobs ==> jobs[k].state != QUEUED
      ensures jobs.Keys == old(jobs).Keys && forall k :: k in jobs && k != id ==> StartedOf(old(jobs)[k], jobs[k])
      ensures id in jobs && old(jobs)[id].state == STARTING ==> Ran(env, id, old(jobs)[id], jobs[id], clock, cgroup, encoder, saved)
    {
      hide At, PutStep, CompleteStep, FinalizeStep, AdmitStep, CollectStep, RecoverStep, SchedStep, FailStep, ReleaseStep;
      t := Starts(env, View(), Actor.Worker(id, Load));
      if id in jobs {
        t := RunJob(id, cgroup, encoder, saved, t);
      } else {
        t := Moved(env, t, View(), Actor.Worker(id, Load), Plain, View(), Actor.Worker(id, FreeSlot));
      }
      ghost var before := jobs;
      t := Moved(env, t, View(), Actor.Worker(id, FreeSlot), Plain, View().(sem := sem - 1), Scheduling(AfterWork(id), Some(WaitSched)));
      sem := sem - 1;
      t := Schedule(AfterWork(id), t);
      assert id in before && Terminal(before[id].state) ==> jobs[id] == before[id];
    }

    /** run: the state writes of a transcode. Cgroup, encoders and the writing of
        the manifest succeed or fail as the outside world decides. */
    method RunJob(id: JobId, cgroup: bool, encoder: Choice, saved: Saved, ghost t0: Trace) returns (ghost t: Trace)
      requires id in jobs && At(env, t0, View(), Actor.Worker(id, Load))
      modifies this`jobs, this`reserved
      ensures Extends(t0, t) && At(env, t, View(), Actor.Worker(id, FreeSlot))
      ensures id in jobs && jobs == old(jobs)[id := jobs[id]] && jobs[id].state in {COMPLETED, FAILED}
      ensures old(jobs)[id].state == STARTING ==> Ran(env, id, old(jobs)[id], jobs[id], clock, cgroup, encoder, saved)
    {
      hide At, PutStep, CompleteStep, FinalizeStep, AdmitStep, CollectStep, RecoverStep, SchedStep, FailStep, ReleaseStep;
      var held := jobs[id].reserved;
      t := Moved(env, t0, View(), Actor.Worker(id, Load), Plain, View(), Actor.Worker(id, MakeCgroup(held)));
      ghost var t1 := t;
      if !cgroup {
        t := Moved(env, t, View(), Actor.Worker(id, MakeCgroup(held)), Fails, View(), Failing(InWorker(id), Some(FailLoad)));
        ExtendsOn(t0, t1, t);
        t := GiveUp(id, t0, t);
        return;
      }
      t := Moved(env, t, View(), Actor.Worker(id, MakeCgroup(held)), Plain, View(), Actor.Worker(id, MarkTranscoding(held)));
      t := Moved(env, t, View(), Actor.Worker(id, MarkTranscoding(held)), Plain, Set(View(), id, jobs[id].(state := TRANSCODING)), Actor.Worker(id, Encode(held)));
      ExtendsOn(t0, t1, t);
      jobs := jobs[id := jobs[id].(state := TRANSCODING)];
      t := EncodeJob(id, held, encoder, saved, t0, t);
    }

    /** The encoders, then the end of run. */
    method EncodeJob(id: JobId, held: nat, encoder: Choice, saved: Saved, ghost t0: Trace, ghost t1: Trace) returns (ghost t: Trace)
      requires id in jobs && jobs[id].state == TRANSCODING && jobs[id].reserved == held
      requires At(env, t1, View(), Actor.Worker(id, Encode(held))) && Extends(t0, t1)
      modifies this`jobs, this`reserved
      ensures Extends(t0, t) && At(env, t, View(), Actor.Worker(id, FreeSlot))
      ensures id in jobs && jobs == old(jobs)[id := jobs[id]]
      ensures Ran(env, id, old(jobs)[id], jobs[id], clock, true, encoder, saved)
    {
      hide At, PutStep, CompleteStep, FinalizeStep, AdmitStep, CollectStep, RecoverStep, SchedStep, FailStep, ReleaseStep;
      t := Moved(env, t1, View(), Actor.Worker(id, Encode(held)), encoder, Set(View(), id, Encoded(jobs[id], encoder)),
                 if encoder.ok then Actor.Worker(id, WriteManifest(held)) else Failing(InWorker(id), Some(FailLoad)));
      ExtendsOn(t0, t1, t);
      jobs := jobs[id := Encoded(jobs[id], encoder)];
      if encoder.ok {
        t := FinishJob(id, held, saved, t0, t);
      } else {
        t := GiveUp(id, t0, t);
      }
    }

    /** The end of run: manifest, completion, release, cleanup. */
    method FinishJob(id: JobId, held: nat, saved: Saved, ghost t0: Trace, ghost t1: Trace) returns (ghost t: Trace)
      requires id in jobs && jobs[id].output.artifact.Some? && jobs[id].output.artifact.value.name == ArtifactName(jobs[id].spec)
      requires jobs[id].reserved == held && jobs[id].state == TRANSCODING
      requires At(env, t1, View(), Actor.Worker(id, WriteManifest(held))) && Extends(t0, t1)
      modifies this`jobs, this`reserved
      ensures Extends(t0, t) && At(env, t, View(), Actor.Worker(id, FreeSlot))
      ensures id in jobs && jobs == old(jobs)[id := jobs[id]]
      ensures if saved.OnDevice? && old(jobs)[id].actualHash != ""
              then CompletedWith(env, id, old(jobs)[id], jobs[id], clock, old(jobs)[id].output.artifact.value.file.data)
              else FailedRun(old(jobs)[id], jobs[id])
    {
      hide At, PutStep, CompleteStep, FinalizeStep, AdmitStep, CollectStep, RecoverStep, SchedStep, FailStep, ReleaseStep;
      var completedAt := clock;
      if saved.Nowhere? || jobs[id].actualHash == "" {
        t := Moved(env, t1, View(), Actor.Worker(id, WriteManifest(held)), Fails, View(), Failing(InWorker(id), Some(FailLoad)));
        ExtendsOn(t0, t1, t);
        t := GiveUp(id, t0, t);
        return;
      }
      ghost var written := Set(View(), id, WithManifest(env, id, jobs[id], completedAt));
      if saved.InCache? {
        t := Moved(env, t1, View(), Actor.Worker(id, WriteManifest(held)), Fails.(count := 1), written, Failing(InWorker(id), Some(FailLoad)));
        ExtendsOn(t0, t1, t);
        jobs := jobs[id := WithManifest(env, id, jobs[id], completedAt)];
        t := GiveUp(id, t0, t);
        return;
      }
      t := Moved(env, t1, View(), Actor.Worker(id, WriteManifest(held)), Plain, written, Actor.Worker(id, Record(held, completedAt)));
      ExtendsOn(t0, t1, t);
      jobs := jobs[id := WithManifest(env, id, jobs[id], completedAt)];
      assert View() == written;
      t := CompleteJob(id, held, completedAt, t0, t);
    }

    /** The COMPLETED update, the release of the reservation, the deferred cleanup. */
    method CompleteJob(id: JobId, held: nat, completedAt: nat, ghost t0: Trace, ghost t1: Trace) returns (ghost t: Trace)
      requires id in jobs && jobs[id].reserved == held && jobs[id].state == TRANSCODING && Manifested(env, id, jobs[id], completedAt)
      requires At(env, t1, View(), Actor.Worker(id, Record(held, completedAt))) && Extends(t0, t1)
      modifies this`jobs, this`reserved
      ensures Extends(t0, t) && At(env, t, View(), Actor.Worker(id, FreeSlot))
      ensures id in jobs && jobs == old(jobs)[id := jobs[id]]
      ensures jobs[id] == old(jobs)[id].(state := COMPLETED, artifact := ArtifactName(old(jobs)[id].spec), finished := Some(completedAt),
                                         reserved := 0, ledger := jobs[id].ledger, part := None, input := None)
    {
      hide At, PutStep, CompleteStep, FinalizeStep, AdmitStep, CollectStep, RecoverStep, SchedStep, FailStep, ReleaseStep;
      ghost var site := WhenCompleted(id);
      t := Moved(env, t1, View(), Actor.Worker(id, Record(held, completedAt)), Plain, Set(View(), id, MarkCompleted(jobs[id], completedAt)),
                 Releasing(site, if held > 0 then Some(ZeroRow(held)) else None));
      ExtendsOn(t0, t1, t);
      jobs := jobs[id := MarkCompleted(jobs[id], completedAt)];
      ghost var t2 := t;
      t := Release(id, held, site, t2);
      ExtendsOn(t0, t2, t);
      t2 := t;
      t := Moved(env, t, View(), Actor.Worker(id, CleanSpool), Plain, Set(View(), id, RemoveSpool(jobs[id])), Actor.Worker(id, FreeSlot));
      ExtendsOn(t0, t2, t);
      jobs := jobs[id := RemoveSpool(jobs[id])];
    }

    /** A failed run: fail, then the deferred cleanup. */
    method GiveUp(id: JobId, ghost t0: Trace, ghost t1: Trace) returns (ghost t: Trace)
      requires id in jobs && At(env, t1, View(), Failing(InWorker(id), Some(FailLoad))) && Extends(t0, t1)
      modifies this`jobs, this`reserved
      ensures Extends(t0, t) && At(env, t, View(), Actor.Worker(id, FreeSlot))
      ensures id in jobs && jobs == old(jobs)[id := jobs[id]] && jobs[id].state == (if old(jobs)[id].state == COMPLETED then COMPLETED else FAILED)
      ensures old(jobs)[id].state in {STARTING, TRANSCODING} ==> FailedRun(old(jobs)[id], jobs[id])
    {
      hide At, PutStep, CompleteStep, FinalizeStep, AdmitStep, CollectStep, RecoverStep, SchedStep, FailStep, ReleaseStep;
      t := Fail(id, InWorker(id), t1);
      ExtendsOn(t0, t1, t);
      ghost var t2 := t;
      t := Moved(env, t, View(), Actor.Worker(id, CleanSpool), Plain, Set(View(), id, RemoveSpool(jobs[id])), Actor.Worker(id, FreeSlot));
      ExtendsOn(t0, t2, t);
      jobs := jobs[id := RemoveSpool(jobs[id])];
    }

    /* ---- recovery ---- */

    /** recover: what the main goroutine does before the service listens. The spool
        files of the jobs in `unreadable` cannot be inspected. */
    method Recover(unreadable: set<JobId>) returns (ghost t: Trace)
      modifies this`jobs, this`reserved, this`sem
      ensures t.start == old(View()) && t.actor == Actor.Recover(Expiring(WaitGc(clock))) && At(env, t, View(), Serving)
      ensures jobs.Keys == old(jobs).Keys && forall id :: id in jobs ==> Recovered(old(jobs)[id], jobs[id], clock, id !in unreadable)
      ensures sem >= cfg.active || forall id :: id in jobs ==> jobs[id].state != QUEUED
      ensures forall id, w :: id in jobs && w in jobs && jobs[id].state == STARTING && jobs[w].state == QUEUED ==>
                env.textKey(jobs[id].created) <= env.textKey(jobs[w].created)
    {
      hide At, PutStep, CompleteStep, FinalizeStep, WorkerStep, AdmitStep, CollectStep, SchedStep, FailStep, ReleaseStep, ExpiredIfDue,
           Inspected, PurgedOf, StartedOf, Requeued, HasSpool, Recovered, OldestStarted;
      t := Starts(env, View(), Actor.Recover(Expiring(WaitGc(clock))));
      ghost var jobs0 := jobs;
      t := ExpireUploads(clock, OnBoot, t);
      ghost var jobs1 := jobs;
      t := ReconcileResumableUploads(unreadable, t);
      ghost var jobs2 := jobs;
      t := CleanupTerminalSpools(t);
      ghost var jobs3 := jobs;
      t := Moved(env, t, View(), Actor.Recover(Requeue), Plain, View().(jobs := RequeueAll(jobs)), Actor.Recover(Respawn));
      jobs := RequeueAll(jobs);
      t := Took(env, t, View(), Actor.Recover(Respawn), Plain,
                Outcome(View(), Scheduling(AtBoot, Some(WaitSched)), Finalizers(Listed<JobId>(InState(View(), FINALIZING))) + [Admit(WaitAdmission)]));
      ghost var jobs4 := jobs;
      t := Schedule(AtBoot, t);
      forall id | id in jobs ensures Recovered(old(jobs)[id], jobs[id], clock, id !in unreadable) {
        RecoveredJob(jobs0[id], jobs1[id], jobs2[id], jobs3[id], jobs[id], clock, id !in unreadable);
      }
      OnlyStarted(env, jobs3, jobs4, jobs);
    }

    /** reconcileResumableUploads: uploads whose spool file cannot be inspected, is
        missing or has the wrong size fail; all others go on. */
    method ReconcileResumableUploads(unreadable: set<JobId>, ghost t0: Trace) returns (ghost t: Trace)
      requires At(env, t0, View(), Actor.Recover(ListUploads))
      modifies this`jobs, this`reserved
      ensures Extends(t0, t) && At(env, t, View(), Actor.Recover(ListSpools))
      ensures jobs.Keys == old(jobs).Keys && forall id :: id in jobs ==> Inspected(old(jobs)[id], jobs[id], clock, id !in unreadable)
    {
      hide At, PutStep, CompleteStep, FinalizeStep, WorkerStep, AdmitStep, CollectStep, SchedStep, FailStep, ReleaseStep, Inspected, NextUpload;
      var todo := set id | id in jobs && Accepting(jobs[id].state);
      var id := 0;
      if todo != {} { id :| id in todo; }
      UploadsAre(env, View(), todo, id);
      t := Moved(env, t0, View(), Actor.Recover(ListUploads), Plain.(id := id), View(), Actor.Recover(NextUpload(todo, Plain.(id := id))));
      while todo != {}
        invariant Extends(t0, t) && At(env, t, View(), Actor.Recover(NextUpload(todo, Plain.(id := id))))
        invariant jobs.Keys == old(jobs).Keys && todo <= jobs.Keys && (todo != {} ==> id in todo)
        invariant forall k :: k in todo ==> jobs[k] == old(jobs)[k] && Accepting(jobs[k].state)
        invariant forall k :: k in jobs && k !in todo ==> Inspected(old(jobs)[k], jobs[k], clock, k !in unreadable)
        decreases todo
      {
        var rest := todo - {id};
        var next := id;
        if rest != {} { next :| next in rest; }
        t := InspectUpload(id, id !in unreadable, rest, next, t0, t, todo);
        todo := rest;
        id := next;
      }
      NextUploadIs(todo, Plain.(id := id));
    }

    method InspectUpload(id: JobId, readable: bool, rest: set<JobId>, next: JobId, ghost t0: Trace, ghost t1: Trace, ghost todo: set<JobId>) returns (ghost t: Trace)
      requires id in todo && rest == todo - {id} && (rest == {} || next in rest) && id in jobs && Accepting(jobs[id].state)
      requires At(env, t1, View(), Actor.Recover(NextUpload(todo, Plain.(id := id)))) && Extends(t0, t1)
      modifies this`jobs, this`reserved
      ensures Extends(t0, t) && At(env, t, View(), Actor.Recover(NextUpload(rest, Plain.(id := next))))
      ensures jobs.Keys == old(jobs).Keys && jobs == old(jobs)[id := jobs[id]] && Inspected(old(jobs)[id], jobs[id], clock, readable)
    {
      hide At, PutStep, CompleteStep, FinalizeStep, WorkerStep, AdmitStep, CollectStep, SchedStep, FailStep, ReleaseStep, NextUpload;
      NextUploadIs(todo, Plain.(id := id));
      var fine := readable && SizedPart(jobs[id]);
      ghost var ch := if readable then Plain.(id := next) else Fails.(id := next);
      if fine {
        t := Moved(env, t1, View(), Actor.Recover(Inspect(id, rest)), ch, View(), Actor.Recover(NextUpload(rest, ch)));
        ExtendsOn(t0, t1, t);
      } else {
        t := Moved(env, t1, View(), Actor.Recover(Inspect(id, rest)), ch, View(), Actor.Recover(WaitReject(id, rest)));
        ExtendsOn(t0, t1, t);
        ghost var t2 := t;
        t := FailUpload(id, rest, next, t2);
        ExtendsOn(t0, t2, t);
      }
    }

    /** failUpload: the transaction, and the removal of the spool. */
    method FailUpload(id: JobId, ghost rest: set<JobId>, ghost next: JobId, ghost t0: Trace) returns (ghost t: Trace)
      requires id in jobs && Accepting(jobs[id].state)
      requires At(env, t0, View(), Actor.Recover(WaitReject(id, rest)))
      modifies this`jobs, this`reserved
      ensures Extends(t0, t) && At(env, t, View(), Actor.Recover(NextUpload(rest, Plain.(id := next))))
      ensures jobs == old(jobs)[id := old(jobs)[id].(state := FAILED, reserved := 0, rows := map[], ledger := None, deadline := None,
                                                     error := true, finished := Some(clock), part := None, input := None)]
      ensures reserved == if old(reserved) >= old(jobs)[id].reserved then old(reserved) - old(jobs)[id].reserved else 0
    {
      hide At, PutStep, CompleteStep, FinalizeStep, WorkerStep, AdmitStep, CollectStep, SchedStep, FailStep, ReleaseStep, NextUpload;
      t := Moved(env, t0, View(), Actor.Recover(WaitReject(id, rest)), Plain, View(), Actor.Recover(Reject(id, rest)));
      ghost var t1 := t;
      t := Moved(env, t, View(), Actor.Recover(Reject(id, rest)), Plain,
                 Set(View(), id, RejectUpload(jobs[id], clock)).(reserved := Released(reserved, jobs[id].reserved)), Actor.Recover(RejectSweep(id, rest)));
      ExtendsOn(t0, t1, t);
      reserved := Released(reserved, jobs[id].reserved);
      jobs := jobs[id := RejectUpload(jobs[id], clock)];
      ghost var t2 := t;
      t := Moved(env, t, View(), Actor.Recover(RejectSweep(id, rest)), Plain.(id := next),
                 Set(View(), id, RemoveSpool(jobs[id])), Actor.Recover(NextUpload(rest, Plain.(id := next))));
      ExtendsOn(t0, t2, t);
      jobs := jobs[id := RemoveSpool(jobs[id])];
    }

    /** cleanupTerminalSpools: spools of ended jobs are removed, all others stay. */
    method CleanupTerminalSpools(ghost t0: Trace) returns (ghost t: Trace)
      requires At(env, t0, View(), Actor.Recover(ListSpools))
      modifies this`jobs
      ensures At(env, t, View(), Actor.Recover(Requeue)) && Extends(t0, t)
      ensures jobs.Keys == old(jobs).Keys && forall id :: id in jobs ==> jobs[id] == PurgedOf(old(jobs)[id])
    {
      hide At, PutStep, CompleteStep, FinalizeStep, WorkerStep, AdmitStep, CollectStep, SchedStep, FailStep, ReleaseStep, NextSpool, PurgedOf;
      var todo := set id | id in jobs && HasSpool(jobs[id]);
      var id := 0;
      if todo != {} { id :| id in todo; }
      SpoolsAre(env, View(), todo, id);
      t := Moved(env, t0, View(), Actor.Recover(ListSpools), Plain.(id := id), View(), Actor.Recover(NextSpool(todo, Plain.(id := id))));
      while todo != {}
        invariant Extends(t0, t) && At(env, t, View(), Actor.Recover(NextSpool(todo, Plain.(id := id))))
        invariant jobs.Keys == old(jobs).Keys && todo <= jobs.Keys && (todo != {} ==> id in todo)
        invariant forall k :: k in todo ==> jobs[k] == old(jobs)[k]
        invariant forall k :: k in jobs && k !in todo ==> jobs[k] == PurgedOf(old(jobs)[k])
        decreases todo
      {
        var rest := todo - {id};
        var next := id;
        if rest != {} { next :| next in rest; }
        t := PurgeSpool(id, rest, next, t0, t, todo);
        todo := rest;
        id := next;
      }
      NextSpoolIs(todo, Plain.(id := id));
    }

    method PurgeSpool(id: JobId, ghost rest: set<JobId>, ghost next: JobId, ghost t0: Trace, ghost t1: Trace, ghost todo: set<JobId>)
      returns (ghost t: Trace)
      requires id in todo && rest == todo - {id} && (rest == {} || next in rest) && id in jobs
      requires At(env, t1, View(), Actor.Recover(NextSpool(todo, Plain.(id := id)))) && Extends(t0, t1)
      modifies this`jobs
      ensures Extends(t0, t) && At(env, t, View(), Actor.Recover(NextSpool(rest, Plain.(id := next))))
      ensures jobs == old(jobs)[id := PurgedOf(old(jobs)[id])]
    {
      hide At, PutStep, CompleteStep, FinalizeStep, WorkerStep, AdmitStep, CollectStep, SchedStep, FailStep, ReleaseStep, NextSpool;
      NextSpoolIs(todo, Plain.(id := id));
      ghost var ch := Plain.(id := next);
      if Terminal(jobs[id].state) {
        t := Moved(env, t1, View(), Actor.Recover(Purge(id, rest)), ch, Set(View(), id, RemoveSpool(jobs[id])), Actor.Recover(NextSpool(rest, ch)));
        jobs := jobs[id := RemoveSpool(jobs[id])];
      } else {
        t := Moved(env, t1, View(), Actor.Recover(Purge(id, rest)), ch, View(), Actor.Recover(NextSpool(rest, ch)));
      }
      ExtendsOn(t0, t1, t);
    }
  }

  predicate SizedPart(j: Job) { j.part.Some? && |j.part.value.data| == j.size }

  /** An upload that can be inspected and has its file at its size stays as it is,
      any other upload fails; jobs that are no uploads in progress stay. */
  ghost predicate Inspected(j: Job, j': Job, now: nat, readable: bool) {
    j' == if j.state !in {ADMITTED, UPLOADING} || (readable && j.part.Some? && |j.part.value.data| == j.size) then j
          else j.(state := FAILED, reserved := 0, rows := map[], ledger := None, deadline := None, error := true,
                  finished := Some(now), part := None, input := None)
  }

  /** cleanupTerminalSpools seen from one job. */
  function PurgedOf(j: Job): Job { if j.state in {COMPLETED, FAILED, EXPIRED} then j.(part := None, input := None) else j }

  /** What schedule may have done to a job. */
  predicate StartedOf(j: Job, j': Job) { j' == j || (j.state == QUEUED && j' == j.(state := STARTING)) }

  /** A finalization ends with the job queued, or already started, and the digest
      of its input recorded, exactly if the input can be had and read, is the one
      that was announced and passes the probe; otherwise the job fails. */
  ghost predicate Finalized(e: Env, j: Job, j': Job, renamable: bool, readable: bool, valid: bool) {
    var input := if j.input.Some? then Some(j.input.value.data) else if j.part.Some? && renamable then Some(j.part.value.data) else None;
    if input.Some? && readable && (j.inputHash == "" || j.inputHash == e.sha(input.value)) && valid then
      && j'.state in {QUEUED, STARTING} && j'.actualHash == e.sha(input.value) && j'.input.Some? && j'.input.value.data == input.value
      && j' == j.(state := j'.state, actualHash := j'.actualHash, part := j'.part, input := j'.input)
    else j'.state == FAILED && j'.error && j'.reserved == 0 && j'.part.None? && j'.input.None?
  }

  /** The run of a started job completes it exactly if everything worked out; otherwise it fails. */
  ghost predicate Ran(e: Env, id: JobId, j: Job, j': Job, now: nat, cgroup: bool, encoder: Choice, saved: Saved) {
    if cgroup && encoder.ok && saved.OnDevice? && j.actualHash != "" then CompletedWith(e, id, j, j', now, encoder.bytes)
    else FailedRun(j, j')
  }

  /** The job is completed, holds nothing any more, and its manifest describes these bytes. */
  ghost predicate CompletedWith(e: Env, id: JobId, j: Job, j': Job, now: nat, bytes: seq<Byte>) {
    && j' == j.(state := COMPLETED, artifact := "output." + j.spec.container, finished := Some(now), reserved := 0, ledger := j'.ledger,
                part := None, input := None, output := j'.output)
    && j'.output.artifact.Some? && j'.output.artifact.value.name == "output." + j.spec.container && j'.output.artifact.value.file.data == bytes
    && j'.output.manifest == Some(Manifest(1, id, j.filename, "output." + j.spec.container, j.spec.container, j.inputHash, j.actualHash,
                                           e.sha(bytes), j.size, |bytes|, j.chunkSize, j.created, now, j.spec))
  }

  /** The job has failed, holds nothing and has no spool any more. */
  ghost predicate FailedRun(j: Job, j': Job) {
    && j'.state == FAILED && j'.error && j'.reserved == 0 && j'.part.None? && j'.input.None?
    && j'.spec == j.spec && j'.rows == j.rows && j'.actualHash == j.actualHash
  }

  /** No queued job is older than one that has been started. */
  ghost predicate OldestStarted(e: Env, jobs: map<JobId, Job>, jobs': map<JobId, Job>) {
    forall id, w :: id in jobs && id in jobs' && jobs'[id] != jobs[id] && w in jobs' && jobs'[w].state == QUEUED ==>
      e.textKey(jobs'[id].created) <= e.textKey(jobs'[w].created)
  }

  lemma NothingStarted(e: Env, jobs: map<JobId, Job>)
    ensures OldestStarted(e, jobs, jobs)
  {
  }

  lemma StartsOldest(e: Env, jobs0: map<JobId, Job>, jobs: map<JobId, Job>, id: JobId)
    requires OldestStarted(e, jobs0, jobs) && id in jobs && jobs[id].state == QUEUED
    requires forall w :: w in jobs && jobs[w].state == QUEUED ==> e.textKey(jobs[id].created) <= e.textKey(jobs[w].created)
    ensures OldestStarted(e, jobs0, jobs[id := jobs[id].(state := STARTING)])
  {
  }

  /** Recovery seen from one job: due uploads expire, uploads without their file
      fail, ended jobs lose their spools, started jobs go back to the queue or are
      started again, queued ones may be started, and everything else stays. */
  ghost predicate Recovered(j: Job, j': Job, now: nat, readable: bool) {
    if j.state in {PENDING, ADMITTED, UPLOADING} && j.deadline.Some? && j.deadline.value <= now then
      j' == j.(state := EXPIRED, reserved := 0, rows := map[], ledger := None, deadline := None, error := true,
               finished := Some(now), part := None, input := None)
    else if j.state in {ADMITTED, UPLOADING} && !(readable && j.part.Some? && |j.part.value.data| == j.size) then
      j' == j.(state := FAILED, reserved := 0, rows := map[], ledger := None, deadline := None, error := true,
               finished := Some(now), part := None, input := None)
    else if j.state in {COMPLETED, FAILED, EXPIRED} then j' == j.(part := None, input := None)
    else if j.state in {QUEUED, STARTING, TRANSCODING} then j'.state in {QUEUED, STARTING} && j' == j.(state := j'.state)
    else j' == j
  }

  lemma RecoveredJob(j0: Job, j1: Job, j2: Job, j3: Job, j: Job, now: nat, readable: bool)
    requires ExpiredIfDue(j0, j1, now) && Inspected(j1, j2, now, readable) && j3 == PurgedOf(j2) && StartedOf(Requeued(j3), j)
    ensures Recovered(j0, j, now, readable)
  {
  }

  lemma OnlyStarted(e: Env, jobs3: map<JobId, Job>, jobs4: map<JobId, Job>, jobs: map<JobId, Job>)
    requires jobs4 == RequeueAll(jobs3) && jobs.Keys == jobs4.Keys && OldestStarted(e, jobs4, jobs)
    ensures forall id, w :: id in jobs && w in jobs && jobs[id].state == STARTING && jobs[w].state == QUEUED ==>
              e.textKey(jobs[id].created) <= e.textKey(jobs[w].created)
  {
    forall id, w | id in jobs && w in jobs && jobs[id].state == STARTING && jobs[w].state == QUEUED
      ensures e.textKey(jobs[id].created) <= e.textKey(jobs[w].created)
    {
      assert jobs4[id] == Requeued(jobs3[id]);
      assert jobs[id] != jobs4[id];
    }
  }

  /* ---- facts about recovery ---- */

  lemma NextUploadIs(rest: set<JobId>, ch: Choice)
    requires rest == {} || ch.id in rest
    ensures NextUpload(rest, ch) == if rest == {} then ListSpools else Inspect(ch.id, rest - {ch.id})
  {
  }

  lemma NextSpoolIs(rest: set<JobId>, ch: Choice)
    requires rest == {} || ch.id in rest
    ensures NextSpool(rest, ch) == if rest == {} then Requeue else Purge(ch.id, rest - {ch.id})
  {
  }

  lemma UploadsAre(e: Env, sh: Shared, todo: set<JobId>, id: JobId)
    requires todo == set k | k in sh.jobs && Accepting(sh.jobs[k].state)
    ensures forall k :: k in todo <==> k in sh.jobs && Accepting(sh.jobs[k].state)
    ensures forall k, now, readable :: k in sh.jobs && k !in todo ==> Inspected(sh.jobs[k], sh.jobs[k], now, readable)
    ensures Step(e, sh, Actor.Recover(ListUploads), Plain.(id := id)) == Outcome(sh, Actor.Recover(NextUpload(todo, Plain.(id := id))), [])
  {
    hide NextUpload;
    assert todo == Engine.Uploads(sh);
  }

  lemma SpoolsAre(e: Env, sh: Shared, todo: set<JobId>, id: JobId)
    requires todo == set k | k in sh.jobs && HasSpool(sh.jobs[k])
    ensures forall k :: k in sh.jobs && k !in todo ==> PurgedOf(sh.jobs[k]) == sh.jobs[k]
    ensures Step(e, sh, Actor.Recover(ListSpools), Plain.(id := id)) == Outcome(sh, Actor.Recover(NextSpool(todo, Plain.(id := id))), [])
  {
    hide NextSpool;
    assert todo == Spools(sh);
  }

  /* ---- facts about expiry ---- */

  /** Exactly the jobs in `done` have expired and lost their spools. */
  ghost predicate SweptBy(jobs: map<JobId, Job>, jobs': map<JobId, Job>, done: set<JobId>, now: nat) {
    jobs'.Keys == jobs.Keys
    && forall id :: id in jobs ==> jobs'[id] == if id in done then RemoveSpool(Expire(jobs[id], now)) else jobs[id]
  }

  /** An upload whose deadline has passed expires and loses its chunk rows, its
      reservation and its spool; any other job stays as it is. */
  ghost predicate ExpiredIfDue(j: Job, j': Job, now: nat) {
    j' == if j.state in {PENDING, ADMITTED, UPLOADING} && j.deadline.Some? && j.deadline.value <= now
          then j.(state := EXPIRED, reserved := 0, rows := map[], ledger := None, deadline := None, error := true,
                  finished := Some(now), part := None, input := None)
          else j
  }

  lemma SweptMeans(jobs: map<JobId, Job>, jobs': map<JobId, Job>, due: set<JobId>, now: nat)
    requires SweptBy(jobs, jobs', due, now) && due == set id | id in jobs && Expirable(jobs[id], now)
    ensures jobs'.Keys == jobs.Keys && forall id :: id in jobs' ==> ExpiredIfDue(jobs[id], jobs'[id], now)
  {
  }

  lemma DueIs(sh: Shared, now: nat, due: set<JobId>)
    requires due == set id | id in sh.jobs && Expirable(sh.jobs[id], now)
    ensures due == Due(sh, now) && forall id :: id in due ==> id in sh.jobs && Expirable(sh.jobs[id], now)
  {
  }

  lemma SweptNone(jobs: map<JobId, Job>, now: nat)
    ensures SweptBy(jobs, jobs, {}, now)
  {
  }

  lemma SweptNext(jobs0: map<JobId, Job>, jobs: map<JobId, Job>, due: set<JobId>, done: set<JobId>, id: JobId, now: nat)
    requires SweptBy(jobs0, jobs, done, now) && id !in done && id in due
    requires forall k :: k in due ==> k in jobs0 && Expirable(jobs0[k], now)
    ensures id in jobs && jobs[id] == jobs0[id] && Expirable(jobs[id], now)
    ensures SweptBy(jobs0, jobs[id := RemoveSpool(Expire(jobs[id], now))], done + {id}, now)
  {
  }

  /* ---- facts about admission ---- */

  /** The job waits to be admitted. */
  predicate Waits(j: Job, now: nat) { j.state == PENDING && j.deadline.Some? && j.deadline.value > now }

  ghost predicate NobodyWaits(jobs: map<JobId, Job>, now: nat) {
    forall id :: id in jobs ==> !Waits(jobs[id], now)
  }

  /** Of the jobs that wait, h was created first; the stored text of the time decides, then the id. */
  ghost predicate CreatedFirst(e: Env, jobs: map<JobId, Job>, now: nat, h: JobId) {
    && h in jobs && Waits(jobs[h], now)
    && forall w :: w in jobs && w != h && Waits(jobs[w], now) ==>
         || e.textKey(jobs[h].created) < e.textKey(jobs[w].created)
         || (e.textKey(jobs[h].created) == e.textKey(jobs[w].created) && h < w)
  }

  /** Who is handled comes before whoever still waits. */
  ghost predicate InOrder(e: Env, jobs: map<JobId, Job>, jobs': map<JobId, Job>, now: nat) {
    forall id, w :: id in jobs && id in jobs' && jobs'[id] != jobs[id] && w in jobs' && Waits(jobs'[w], now) ==>
      || e.textKey(jobs'[id].created) < e.textKey(jobs'[w].created)
      || (e.textKey(jobs'[id].created) == e.textKey(jobs'[w].created) && id < w)
  }

  /** A waiting job is admitted, with its whole reservation and its file in place,
      exactly if the disk check, the reservation and the file work out; else it fails. */
  ghost predicate Handled(j: Job, j': Job, now: nat, retention: nat, space: Space, creatable: bool) {
    && Waits(j, now) && j'.created == j.created
    && if creatable && (j.reserved > 0 || (space.Enough? && j.ledger.None?)) then
         && j' == j.(state := ADMITTED, deadline := Some(now + retention), part := j'.part,
                     reserved := if j.reserved > 0 then j.reserved else j.size, ledger := j'.ledger)
         && (j.reserved == 0 ==> j'.ledger == Some(j.size))
         && j'.part.Some? && |j'.part.value.data| == j.size
       else j'.state == FAILED && j'.error && j'.reserved == 0 && j'.part.None? && j'.input.None?
  }

  /** The reservation has to wait: the disk has too little space, or the capacity is taken. */
  predicate NoRoom(j: Job, reserved: nat, total: nat, space: Space) {
    j.reserved == 0 && (space.TooLittle? || (space.Enough? && reserved + j.size > total))
  }

  lemma HandledLeaves(j: Job, j': Job, now: nat, retention: nat, space: Space, creatable: bool)
    requires Handled(j, j', now, retention, space, creatable)
    ensures Waits(j, now) && !Waits(j', now) && j'.created == j.created && j' != j
  {
  }

  /** Every job is as it was, or has been handled. */
  ghost predicate AllHandled(jobs: map<JobId, Job>, jobs': map<JobId, Job>, now: nat, retention: nat, space: JobId -> Space, creatable: JobId -> bool) {
    forall id :: id in jobs && id in jobs' ==> jobs'[id] == jobs[id] || Handled(jobs[id], jobs'[id], now, retention, space(id), creatable(id))
  }

  lemma NothingHandled(e: Env, jobs: map<JobId, Job>, now: nat, retention: nat, space: JobId -> Space, creatable: JobId -> bool)
    ensures InOrder(e, jobs, jobs, now) && AllHandled(jobs, jobs, now, retention, space, creatable)
  {
  }

  lemma HandledNext(jobs0: map<JobId, Job>, jobs: map<JobId, Job>, jobs': map<JobId, Job>, now: nat, retention: nat,
                    space: JobId -> Space, creatable: JobId -> bool, id: JobId)
    requires AllHandled(jobs0, jobs, now, retention, space, creatable) && jobs.Keys == jobs0.Keys && id in jobs
    requires id in jobs' && jobs' == jobs[id := jobs'[id]] && Handled(jobs[id], jobs'[id], now, retention, space(id), creatable(id))
    ensures AllHandled(jobs0, jobs', now, retention, space, creatable)
  {
    hide Handled;
    HandledLeaves(jobs[id], jobs'[id], now, retention, space(id), creatable(id));
    if jobs[id] != jobs0[id] { HandledLeaves(jobs0[id], jobs[id], now, retention, space(id), creatable(id)); }
  }

  lemma HandledInOrder(e: Env, jobs0: map<JobId, Job>, jobs: map<JobId, Job>, jobs': map<JobId, Job>, now: nat, id: JobId)
    requires InOrder(e, jobs0, jobs, now) && CreatedFirst(e, jobs, now, id)
    requires id in jobs' && jobs' == jobs[id := jobs'[id]] && !Waits(jobs'[id], now) && jobs'[id].created == jobs[id].created
    ensures InOrder(e, jobs0, jobs', now)
  {
  }

  lemma FirstIn(e: Env, jobs: map<JobId, Job>, now: nat, h: JobId)
    requires CreatedFirst(e, jobs, now, h)
    ensures h in jobs && Waits(jobs[h], now)
  {
  }

  lemma NobodyIs(sh: Shared)
    requires NobodyWaits(sh.jobs, sh.clock)
    ensures NoneWaiting(sh, sh.clock)
  {
  }

  lemma HeadUnique(e: Env, sh: Shared, now: nat, a: JobId, b: JobId)
    requires IsHead(e, sh, now, a) && IsHead(e, sh, now, b)
    ensures a == b
  {
  }

  lemma PickNone(e: Env, sh: Shared)
    requires NoneWaiting(sh, sh.clock)
    ensures Step(e, sh, Admit(PickHead), Plain) == Outcome(sh.(scan := Scan(sh.clock, false)), Done, [])
  {
  }

  lemma PickFound(e: Env, sh: Shared, id: JobId)
    requires IsHead(e, sh, sh.clock, id) && id in sh.jobs
    ensures Step(e, sh, Admit(PickHead), Plain)
         == Outcome(sh.(scan := Scan(sh.clock, false)),
                    Admit(if sh.jobs[id].reserved == 0 then ReserveHead(id) else Prepare(id, sh.jobs[id].reserved)), [])
  {
    var o := Step(e, sh, Admit(PickHead), Plain);
    assert o.next != Done;
    var picked := o.next.adm.head;
    assert IsHead(e, sh, sh.clock, picked);
    HeadUnique(e, sh, sh.clock, picked, id);
  }

  lemma ExtendsOn(t0: Trace, t1: Trace, t: Trace)
    requires Extends(t0, t1) && Extends(t1, t)
    ensures Extends(t0, t)
  {
  }
}
