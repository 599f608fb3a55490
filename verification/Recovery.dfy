/** What recovery establishes after a crash at any point, and that no spool is
    left behind by a job that has ended. */
module Recovery {
  import opened Base
  import opened Chunks
  import opened Files
  import opened Spec
  import opened Jobs
  import opened JobSteps
  import opened Engine
  import opened Safety
  import opened SafetySteps
  import opened SafetyActors
  import opened SafetyStable
  import opened SafetySystem
  import opened Lifecycle
  import opened Effects
  import opened Ownership
  import opened Uploads

  /* ---- spools of ended jobs ---- */

  predicate Sweeps(g: GcPc, id: JobId) { g.SweepJob? && g.jid == id }

  /** A goroutine that will still remove the job's spool. */
  predicate Cleaner(a: Actor, id: JobId) {
    match a
    case Finalize(k, pc) => k == id && pc.FinFail? && pc.fail.FailClean?
    case Worker(k, pc) => k == id && (pc.WorkRelease? || pc.CleanSpool? || (pc.WorkFail? && pc.fail.FailClean?))
    case Admit(pc) => pc.AdmitFail? && pc.head == id && pc.fail.FailClean?
    case Collect(g) => Sweeps(g, id)
    case Recover(pc) => (pc.Expiring? && Sweeps(pc.gc, id)) || (pc.RejectSweep? && pc.jid == id)
    case _ => false
  }

  ghost predicate HasCleaner(s: State, id: JobId) {
    exists t :: 0 <= t < |s.threads| && Cleaner(s.threads[t], id)
  }

  /** The booting main goroutine has still to look at this spool. */
  predicate ToPurge(a: Actor, id: JobId) {
    && a.Recover?
    && match a.rec
       case Purge(k, rest) => id == k || id in rest
       case Requeue => false
       case Respawn => false
       case RecSchedule(_) => false
       case _ => true
  }

  /** Every spool of an ended job has somebody who will remove it. */
  ghost predicate Tidy(s: State) {
    s.threads != [] ==>
      && MainLike(s.threads[0])
      && forall id :: id in s.sh.jobs && Terminal(s.sh.jobs[id].state) && HasSpool(s.sh.jobs[id]) ==>
           HasCleaner(s, id) || ToPurge(s.threads[0], id)
  }

  /** After the step an ended job has no spool, or the acting goroutine will remove it. */
  ghost predicate CleansUp(o: Outcome, id: JobId) {
    id in o.sh.jobs && (!HasSpool(o.sh.jobs[id]) || Cleaner(o.next, id))
  }

  lemma CleanerCleans(e: Env, sh: Shared, a: Actor, ch: Choice, id: JobId)
    requires ActorInv(e, sh, a) && Cleaner(a, id)
    ensures CleansUp(Step(e, sh, a, ch), id)
  {
    hide NextUpload, Ready, AllAccepting, SchedStep;
  }

  /** The step that ends a job goes on to remove its spool. */
  lemma EnderCleans(e: Env, sh: Shared, a: Actor, ch: Choice, id: JobId)
    requires ActorInv(e, sh, a) && id in sh.jobs && !Terminal(sh.jobs[id].state)
    requires id in Step(e, sh, a, ch).sh.jobs && Terminal(Step(e, sh, a, ch).sh.jobs[id].state)
    ensures CleansUp(Step(e, sh, a, ch), id)
  {
    hide FinalizeStep, WorkerStep, AdmitStep, RecoverStep, CollectStep, PutStep, CompleteStep, CleansUp, ActorInv, Edge;
    StepMoves(e, sh, a, ch, id);
    var to := Step(e, sh, a, ch).sh.jobs[id].state;
    EndingEdge(a, id, sh.jobs[id].state, to);
    match a
    case Finalize(k, pc) => FinalizeEnds(e, sh, k, pc, ch, id);
    case Worker(k, pc) => WorkerEnds(e, sh, k, pc, ch, id);
    case Admit(pc) => AdmitEnds(e, sh, pc, ch, id);
    case Collect(g) => CollectEnds(sh, g, ch, id);
    case Recover(pc) => RecoverEnds(e, sh, pc, ch, id);
  }

  lemma EndingEdge(a: Actor, id: JobId, from: JobState, to: JobState)
    requires Edge(a, id, from, to) && Terminal(to)
    ensures a.Finalize? || a.Worker? || a.Admit? || Expirer(a, id) || (a.Recover? && a.rec.Reject? && a.rec.jid == id)
    ensures a.Finalize? || a.Worker? ==> a.jid == id
  {
  }

  lemma FinalizeEnds(e: Env, sh: Shared, k: JobId, pc: FinPc, ch: Choice, id: JobId)
    requires id in sh.jobs && !Terminal(sh.jobs[id].state) && k == id
    requires id in FinalizeStep(e, sh, k, pc, ch).sh.jobs && Terminal(FinalizeStep(e, sh, k, pc, ch).sh.jobs[id].state)
    ensures CleansUp(FinalizeStep(e, sh, k, pc, ch), id)
  {
    hide IsOldestQueued;
  }

  lemma WorkerEnds(e: Env, sh: Shared, k: JobId, pc: WorkPc, ch: Choice, id: JobId)
    requires id in sh.jobs && !Terminal(sh.jobs[id].state) && k == id
    requires id in WorkerStep(e, sh, k, pc, ch).sh.jobs && Terminal(WorkerStep(e, sh, k, pc, ch).sh.jobs[id].state)
    ensures CleansUp(WorkerStep(e, sh, k, pc, ch), id)
  {
    hide IsOldestQueued, ManifestOf;
  }

  lemma AdmitEnds(e: Env, sh: Shared, pc: AdmitPc, ch: Choice, id: JobId)
    requires id in sh.jobs && !Terminal(sh.jobs[id].state)
    requires id in AdmitStep(e, sh, pc, ch).sh.jobs && Terminal(AdmitStep(e, sh, pc, ch).sh.jobs[id].state)
    ensures CleansUp(AdmitStep(e, sh, pc, ch), id)
  {
    hide IsHead, Truncate;
  }

  lemma CollectEnds(sh: Shared, g: GcPc, ch: Choice, id: JobId)
    requires id in sh.jobs && !Terminal(sh.jobs[id].state)
    requires id in CollectStep(sh, g, ch).sh.jobs && Terminal(CollectStep(sh, g, ch).sh.jobs[id].state)
    ensures CleansUp(CollectStep(sh, g, ch), id)
  {
  }

  lemma RecoverEnds(e: Env, sh: Shared, pc: RecoverPc, ch: Choice, id: JobId)
    requires id in sh.jobs && !Terminal(sh.jobs[id].state) && (pc.Expiring? || pc.Reject?)
    requires id in RecoverStep(e, sh, pc, ch).sh.jobs && Terminal(RecoverStep(e, sh, pc, ch).sh.jobs[id].state)
    ensures CleansUp(RecoverStep(e, sh, pc, ch), id)
  {
    hide NextUpload;
  }

  /** No step gives an ended job a spool. */
  ghost predicate NoNewSpool(sh: Shared, sh': Shared, id: JobId) {
    id in sh.jobs && id in sh'.jobs && Terminal(sh.jobs[id].state) && HasSpool(sh'.jobs[id]) ==> HasSpool(sh.jobs[id])
  }

  lemma StepNoSpool(e: Env, sh: Shared, a: Actor, ch: Choice, id: JobId)
    requires ActorInv(e, sh, a)
    ensures NoNewSpool(sh, Step(e, sh, a, ch).sh, id)
  {
    hide ActorInv, Step, Edge, RowsEffect;
    StepEffect(e, sh, a, ch, id);
  }

  lemma NextSpoolCovers(rest: set<JobId>, ch: Choice, id: JobId)
    requires id in rest
    ensures ToPurge(Recover(NextSpool(rest, ch)), id)
  {
  }

  lemma NextUploadCovers(rest: set<JobId>, ch: Choice, id: JobId)
    ensures ToPurge(Recover(NextUpload(rest, ch)), id)
  {
  }

  /** The purge looks at every spool that is there when it starts. */
  lemma PurgeGoesOn(e: Env, sh: Shared, a: Actor, ch: Choice, id: JobId)
    requires ActorInv(e, sh, a) && ToPurge(a, id) && id in sh.jobs && Terminal(sh.jobs[id].state) && HasSpool(sh.jobs[id])
    ensures ToPurge(Step(e, sh, a, ch).next, id) || CleansUp(Step(e, sh, a, ch), id)
  {
    hide GcStep, ReadyExcept, GcInv, SchedStep, NextSpool, NextUpload;
    match a.rec
    case ListUploads => NextUploadCovers(Engine.Uploads(sh), ch, id);
    case Inspect(k, rest) => NextUploadCovers(rest, ch, id);
    case RejectSweep(k, rest) => NextUploadCovers(rest, ch, id);
    case ListSpools =>
      assert id in Spools(sh);
      NextSpoolCovers(Spools(sh), ch, id);
    case Purge(k, rest) => if id in rest { NextSpoolCovers(rest, ch, id); }
    case _ =>
  }

  lemma NowTidy(s: State, t: nat, o: Outcome, s': State, id: JobId)
    requires t < |s.threads| && s'.sh == o.sh && s'.threads == s.threads[t := o.next] + o.spawned
    requires CleansUp(o, id)
    ensures id in s'.sh.jobs && (HasSpool(s'.sh.jobs[id]) ==> HasCleaner(s', id))
  {
    hide Cleaner;
    if Cleaner(o.next, id) { assert s'.threads[t] == o.next; }
  }

  lemma RunTidyJob(e: Env, s: State, t: nat, ch: Choice, id: JobId)
    requires EnvOk(e) && Safe(e, s) && Enabled(e, s, t, ch) && Tidy(s)
    requires var s' := RunThread(e, s, t, ch); id in s'.sh.jobs && Terminal(s'.sh.jobs[id].state) && HasSpool(s'.sh.jobs[id])
    ensures var s' := RunThread(e, s, t, ch); HasCleaner(s', id) || ToPurge(s'.threads[0], id)
  {
    hide DbInv, ActorInv, Compatible2, Step, Exclude, Cleaner, ToPurge, CleansUp, HasSpool;
    var a, o, s' := s.threads[t], Step(e, s.sh, s.threads[t], ch), RunThread(e, s, t, ch);
    RunKeys(e, s, t, ch);
    if !Terminal(s.sh.jobs[id].state) {
      EnderCleans(e, s.sh, a, ch, id);
      NowTidy(s, t, o, s', id);
    } else {
      StepNoSpool(e, s.sh, a, ch, id);
      if HasCleaner(s, id) {
        var u :| 0 <= u < |s.threads| && Cleaner(s.threads[u], id);
        if u == t {
          CleanerCleans(e, s.sh, a, ch, id);
          NowTidy(s, t, o, s', id);
        } else {
          assert s'.threads[u] == s.threads[u];
        }
      } else if t == 0 {
        PurgeGoesOn(e, s.sh, a, ch, id);
        if CleansUp(o, id) { NowTidy(s, t, o, s', id); }
      }
    }
  }

  lemma NextTidy(e: Env, s: State, ev: Event, s': State)
    requires EnvOk(e) && Safe(e, s) && Next(e, s, ev, s') && Tidy(s)
    ensures Tidy(s')
  {
    hide DbInv, Compatible2, ActorInv, Step, Exclude, Arrival, KeyUsed, Specified, CrashJob, Cleaner;
    match ev
    case Run(t, ch) =>
      if t == 0 { assert ActorInv(e, s.sh, s.threads[0]); BootEnds(e, s.sh, s.threads[0], ch); }
      forall id | id in s'.sh.jobs && Terminal(s'.sh.jobs[id].state) && HasSpool(s'.sh.jobs[id])
        ensures HasCleaner(s', id) || ToPurge(s'.threads[0], id)
      {
        RunTidyJob(e, s, t, ch, id);
      }
    case Create(id, key, req) => AddTidy(s, s');
    case Arrive(a) => AddTidy(s, s');
    case Tick(_) => AddTidy(s, s');
    case _ =>
  }

  lemma AddTidy(s: State, s': State)
    requires Tidy(s) && s.threads <= s'.threads && (s.threads == [] ==> s'.threads == [])
    requires forall id :: id in s'.sh.jobs && Terminal(s'.sh.jobs[id].state) ==> id in s.sh.jobs && s'.sh.jobs[id] == s.sh.jobs[id]
    ensures Tidy(s')
  {
    hide Cleaner;
    forall id: JobId | HasCleaner(s, id) ensures HasCleaner(s', id) {
      var t :| 0 <= t < |s.threads| && Cleaner(s.threads[t], id);
      assert s'.threads[t] == s.threads[t];
    }
  }

  lemma {:induction false} ExecutionTidy(e: Env, states: seq<State>, events: seq<Event>, i: nat)
    requires EnvOk(e) && Execution(e, states, events) && Initial(e, states[0]) && i <= |events|
    ensures Tidy(states[i])
  {
    hide Safe, Next, HasCleaner, HasSpool;
    if i > 0 {
      ExecutionTidy(e, states, events, i - 1);
      ExecutionSafe(e, states, events, i - 1);
      assert Next(e, states[i - 1], events[i - 1], states[i - 1 + 1]);
      NextTidy(e, states[i - 1], events[i - 1], states[i]);
    }
  }

  /** The main goroutine is past the inspection of uploads and the purge. */
  predicate Reconciled(a: Actor) {
    a.Serving? || (a.Recover? && (a.rec.Requeue? || a.rec.Respawn? || a.rec.RecSchedule?))
  }

  /** Crash recovery: from any crash point, once reconciliation is done, every
      upload in progress has its spool file at exactly its size, no spool belongs
      to an ended job unless somebody is about to remove it, and no job is left
      STARTING or TRANSCODING when finalizers and scheduler are started. */
  lemma RecoveryDone(e: Env, s: State)
    requires EnvOk(e) && Reachable(e, s) && s.threads != [] && Reconciled(s.threads[0])
    ensures forall id :: id in s.sh.jobs && Accepting(s.sh.jobs[id].state) ==> Ready(s.sh.jobs[id])
    ensures forall id :: id in s.sh.jobs && Terminal(s.sh.jobs[id].state) && HasSpool(s.sh.jobs[id]) ==> HasCleaner(s, id)
    ensures s.threads[0] == Recover(Respawn) ==> forall id :: id in s.sh.jobs ==> s.sh.jobs[id].state !in {STARTING, TRANSCODING}
  {
    hide DbInv, Compatible2, Next, Initial, Ready, SchedInv, HasCleaner, HasSpool;
    ReachableSafe(e, s);
    assert ActorInv(e, s.sh, s.threads[0]);
    var states, events :| Execution(e, states, events) && Initial(e, states[0]) && states[|states| - 1] == s;
    ExecutionTidy(e, states, events, |events|);
  }

  /* ---- finalization after a crash ---- */

  /** The two files differ in chunk n. */
  ghost predicate Differ(j: Job, f: File, g: File, n: nat) {
    n in j.rows && !SameAt(f.data, g.data, n * j.chunkSize, n * j.chunkSize + j.rows[n].bytes)
  }

  /** Two intact files of a whole upload are the same file, or show two different
      chunks with one digest. */
  lemma IntactFilesAgree(e: Env, j: Job, f: File, g: File)
    requires j.chunkSize > 0 && j.expected == Expected(j.size, j.chunkSize) && Whole(j)
    requires FileIntact(e, j, f) && |f.data| == j.size && FileIntact(e, j, g) && |g.data| == j.size
    ensures f.data == g.data || exists n :: Differ(j, f, g, n) && RowIntact(e, j, f, n) && RowIntact(e, j, g, n)
  {
    hide Expected, ChunkBytes, Whole, SameAt, RowIntact;
    if forall n :: !Differ(j, f, g, n) {
      forall i | 0 <= i < j.size ensures f.data[i] == g.data[i] {
        var n := ByteVerified(j, i);
        assert !Differ(j, f, g, n);
        SameByte(f.data, g.data, n * j.chunkSize, n * j.chunkSize + j.rows[n].bytes, i);
      }
    } else {
      var n :| Differ(j, f, g, n);
      assert RowIntact(e, j, f, n) && RowIntact(e, j, g, n);
    }
  }

  /** The input that `finalize` goes on with. */
  function FinalInput(j: Job): Option<seq<Byte>> {
    if RenameInput(j).input.Some? then Some(RenameInput(j).input.value.data) else None
  }

  /** Re-running `finalize` after a crash reaches the same input, byte for byte,
      whether the crash came before or after the rename, and even if the rename
      was undone or both names are left. */
  lemma FinalizeRerun(e: Env, id: JobId, j: Job, j': Job)
    requires JobInv(e, id, j) && j.state == FINALIZING && CrashJob(j, j')
    ensures FinalInput(j).Some? && FinalInput(j').Some? ==> FinalInput(j') == FinalInput(j)
    ensures FinalInput(RenameInput(j)) == FinalInput(j)
  {
    hide Expected, ChunkBytes, Whole, FileIntact, Survives;
    if j'.part.Some? {
      if j.part.Some? && Survives(j.part.value, j'.part.value) {
        SurvivesWhole(e, j, j.part.value, j'.part.value);
      } else {
        SurvivesWhole(e, j, j.input.value, j'.part.value);
      }
    }
    if j'.input.Some? { SurvivesWhole(e, j, j.input.value, j'.input.value); }
  }
}
