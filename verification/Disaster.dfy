/** Disaster recovery: what the engine leaves in the output directory is enough
    to rebuild the database, and exactly when. */
module Disaster {
  import opened Base
  import opened Chunks
  import opened Files
  import opened Spec
  import opened Jobs
  import opened Engine
  import opened Safety
  import opened SafetySteps
  import opened SafetySystem
  import opened Lifecycle
  import opened Effects
  import opened Ownership
  import opened Uploads
  import opened Manifests

  ghost predicate Frozen(sh: Shared, sh': Shared, id: JobId) {
    id in sh.jobs && id in sh'.jobs && sh.jobs[id].state == COMPLETED ==> sh'.jobs[id] == Unsettled(sh.jobs[id], sh'.jobs[id])
  }

  /** Nothing but its spool and its reservation changes once a job is completed. */
  lemma StepFrozen(e: Env, sh: Shared, a: Actor, ch: Choice, id: JobId)
    requires ActorInv(e, sh, a)
    ensures Frozen(sh, Step(e, sh, a, ch).sh, id)
  {
    hide ActorInv, Step, Edge, RowsEffect, SpoolEffect;
    StepEffect(e, sh, a, ch, id);
  }

  /** A completed job has its manifest, written for the artifact in place. */
  ghost predicate Sound(e: Env, id: JobId, j: Job) {
    j.state == COMPLETED ==> j.finished.Some? && Manifested(e, id, j, j.finished.value)
  }

  /** A completed job has an artifact of the right name. */
  ghost predicate Filed(j: Job) {
    j.state == COMPLETED ==> j.output.artifact.Some? && j.output.artifact.value.name == ArtifactName(j.spec)
  }

  lemma UnsettledSound(e: Env, id: JobId, j: Job, k: Job)
    requires j.state == COMPLETED
    ensures Sound(e, id, j) ==> Sound(e, id, Unsettled(j, k))
    ensures Filed(j) ==> Filed(Unsettled(j, k))
  {
    if j.finished.Some? && Manifested(e, id, j, j.finished.value) {
      assert ManifestOf(e, id, Unsettled(j, k), j.output.artifact.value.file.data, j.finished.value)
          == ManifestOf(e, id, j, j.output.artifact.value.file.data, j.finished.value);
    }
  }

  lemma CompletesSound(e: Env, sh: Shared, k: JobId, pc: WorkPc, ch: Choice)
    requires ActorInv(e, sh, Worker(k, pc)) && k in sh.jobs && sh.jobs[k].state == TRANSCODING
    requires k in WorkerStep(e, sh, k, pc, ch).sh.jobs && WorkerStep(e, sh, k, pc, ch).sh.jobs[k].state == COMPLETED
    ensures Sound(e, k, WorkerStep(e, sh, k, pc, ch).sh.jobs[k])
  {
    hide IsOldestQueued;
  }

  lemma StepSound(e: Env, sh: Shared, a: Actor, ch: Choice, id: JobId)
    requires ActorInv(e, sh, a) && id in sh.jobs && id in Step(e, sh, a, ch).sh.jobs
    ensures Sound(e, id, sh.jobs[id]) ==> Sound(e, id, Step(e, sh, a, ch).sh.jobs[id])
    ensures Filed(sh.jobs[id]) ==> Filed(Step(e, sh, a, ch).sh.jobs[id])
  {
    hide ActorInv, FinalizeStep, WorkerStep, AdmitStep, RecoverStep, CollectStep, PutStep, CompleteStep, Manifested;
    StepFrozen(e, sh, a, ch, id);
    StepMoves(e, sh, a, ch, id);
    if sh.jobs[id].state == COMPLETED {
      EndedStays(a, id, sh.jobs[id].state, Step(e, sh, a, ch).sh.jobs[id].state);
      UnsettledSound(e, id, sh.jobs[id], Step(e, sh, a, ch).sh.jobs[id]);
    } else if Step(e, sh, a, ch).sh.jobs[id].state == COMPLETED {
      CompletesSound(e, sh, id, a.work, ch);
      SoundFiled(e, id, Step(e, sh, a, ch).sh.jobs[id]);
    }
  }

  lemma EndedStays(a: Actor, id: JobId, from: JobState, to: JobState)
    requires from == COMPLETED && (from == to || Edge(a, id, from, to))
    ensures to == COMPLETED
  {
  }

  lemma SoundFiled(e: Env, id: JobId, j: Job)
    requires Sound(e, id, j)
    ensures Filed(j)
  {
  }

  /** The bytes of the artifact are the same; how many of them are on disk is not asked. */
  ghost predicate SameArtifact(j: Job, j': Job) {
    && j'.output.artifact.Some? == j.output.artifact.Some?
    && (j.output.artifact.Some? ==> j'.output.artifact.value.file.data == j.output.artifact.value.file.data)
  }

  /** The event loses no byte of the job's completed artifact. */
  ghost predicate Gentle(s: State, ev: Event, id: JobId) {
    ev.Crash? && id in s.sh.jobs && id in ev.after && s.sh.jobs[id].state == COMPLETED ==> SameArtifact(s.sh.jobs[id], ev.after[id])
  }

  lemma CrashSound(e: Env, id: JobId, j: Job, j': Job)
    requires CrashJob(j, j')
    ensures Filed(j) ==> Filed(j')
    ensures (j.state == COMPLETED ==> SameArtifact(j, j')) && Sound(e, id, j) ==> Sound(e, id, j')
  {
    hide Survives;
    if j.state == COMPLETED && SameArtifact(j, j') && Sound(e, id, j) {
      assert ManifestOf(e, id, j', j.output.artifact.value.file.data, j.finished.value)
          == ManifestOf(e, id, j, j.output.artifact.value.file.data, j.finished.value);
    }
  }

  /** Killing the process is possible in every state and gentle to every job: the
      page cache keeps what was not synced, whatever the kernel has flushed by then. */
  lemma KillIsGentle(e: Env, s: State, after: map<JobId, Job>)
    requires after.Keys == s.sh.jobs.Keys && forall id :: id in after ==> Flushed(s.sh.jobs[id], after[id])
    ensures Next(e, s, Crash(after), State(s.sh.(jobs := after, sem := 0), [], s.leaked + SumSeq(s.threads, Floating)))
    ensures forall id :: Gentle(s, Crash(after), id)
  {
    hide Flushed, CrashJob, SameArtifact;
    forall id | id in after ensures CrashJob(s.sh.jobs[id], after[id]) && SameArtifact(s.sh.jobs[id], after[id]) {
      FlushedCrash(s.sh.jobs[id], after[id]);
    }
  }

  /** The same files with the same bytes, of which some more may have reached the disk. */
  ghost predicate Flushed(j: Job, j': Job) {
    && j' == j.(part := j'.part, input := j'.input, output := j.output.(artifact := j'.output.artifact))
    && FileFlushed(j.part, j'.part) && FileFlushed(j.input, j'.input)
    && j'.output.artifact.Some? == j.output.artifact.Some?
    && (j.output.artifact.Some? ==>
          && j'.output.artifact.value.name == j.output.artifact.value.name
          && FileFlushed(Some(j.output.artifact.value.file), Some(j'.output.artifact.value.file)))
  }

  ghost predicate FileFlushed(f: Option<File>, f': Option<File>) {
    f'.Some? == f.Some? && (f.Some? ==> f'.value.data == f.value.data && f'.value.dirty <= f.value.dirty)
  }

  lemma FlushedCrash(j: Job, j': Job)
    requires Flushed(j, j')
    ensures CrashJob(j, j') && SameArtifact(j, j')
  {
  }

  lemma NextSound(e: Env, s: State, ev: Event, s': State, id: JobId)
    requires EnvOk(e) && Safe(e, s) && Next(e, s, ev, s') && id in s.sh.jobs
    ensures id in s'.sh.jobs && (Filed(s.sh.jobs[id]) ==> Filed(s'.sh.jobs[id]))
    ensures Sound(e, id, s.sh.jobs[id]) && Gentle(s, ev, id) ==> Sound(e, id, s'.sh.jobs[id])
  {
    hide DbInv, ActorInv, Compatible2, Step, Exclude, Arrival, KeyUsed, Specified, CrashJob, Manifested;
    match ev
    case Run(t, ch) =>
      RunKeys(e, s, t, ch);
      StepSound(e, s.sh, s.threads[t], ch, id);
    case Crash(after) => CrashSound(e, id, s.sh.jobs[id], after[id]);
    case _ =>
  }

  ghost predicate GentleRun(states: seq<State>, events: seq<Event>, id: JobId)
    requires |states| == |events| + 1
  {
    forall i :: 0 <= i < |events| ==> Gentle(states[i], events[i], id)
  }

  lemma InitialSound(e: Env, s: State, id: JobId)
    requires Initial(e, s) && id in s.sh.jobs
    ensures Filed(s.sh.jobs[id]) && Sound(e, id, s.sh.jobs[id])
  {
    hide JobInv;
    FinishedAt(e, id, s.sh.jobs[id]);
  }

  lemma FinishedAt(e: Env, id: JobId, j: Job)
    requires JobInv(e, id, j) && j.state == COMPLETED
    ensures j.finished.Some?
  {
  }

  lemma AppearsUnfinished(e: Env, s: State, ev: Event, s': State, id: JobId)
    requires EnvOk(e) && Safe(e, s) && Next(e, s, ev, s') && id !in s.sh.jobs && id in s'.sh.jobs
    ensures s'.sh.jobs[id].state == PENDING
  {
    hide DbInv, ActorInv, Compatible2, Step, Exclude, Arrival, KeyUsed, Specified, CrashJob;
    if ev.Run? { RunKeys(e, s, ev.t, ev.ch); }
  }

  lemma {:induction false} ExecutionSound(e: Env, states: seq<State>, events: seq<Event>, i: nat, id: JobId)
    requires EnvOk(e) && Execution(e, states, events) && Initial(e, states[0]) && i <= |events| && id in states[i].sh.jobs
    ensures Filed(states[i].sh.jobs[id])
    ensures GentleRun(states, events, id) ==> Sound(e, id, states[i].sh.jobs[id])
  {
    hide Safe, Next, Gentle, Sound, Filed, Initial;
    if i == 0 {
      InitialSound(e, states[0], id);
    } else {
      ExecutionSafe(e, states, events, i - 1);
      assert Next(e, states[i - 1], events[i - 1], states[i - 1 + 1]);
      if id in states[i - 1].sh.jobs {
        ExecutionSound(e, states, events, i - 1, id);
        NextSound(e, states[i - 1], events[i - 1], states[i], id);
      } else {
        AppearsUnfinished(e, states[i - 1], events[i - 1], states[i], id);
        PendingSound(e, id, states[i].sh.jobs[id]);
      }
    }
  }

  lemma PendingSound(e: Env, id: JobId, j: Job)
    requires j.state == PENDING
    ensures Filed(j) && Sound(e, id, j)
  {
  }

  /* ---- validation ---- */

  function FilesOf(o: OutputDir): map<string, seq<Byte>> {
    if o.artifact.Some? then map[o.artifact.value.name := o.artifact.value.file.data] else map[]
  }

  /** The job's output directory as a backfill lists it. */
  function EntryOf(id: JobId, o: OutputDir): Entry {
    Entry(true, Some(id), if o.manifest.Some? then Parsed(o.manifest.value) else Absent, FilesOf(o))
  }

  ghost predicate Restorable(e: Env, id: JobId, j: Job) {
    j.output.manifest.Some? && Validates(e, Some(id), j.output.manifest.value, FilesOf(j.output))
  }

  /** A completed job's manifest passes validation exactly if the artifact still
      has the size and the digest that were written down. */
  lemma RestorableIff(e: Env, id: JobId, j: Job)
    requires EnvOk(e) && JobInv(e, id, j) && Filed(j) && j.state == COMPLETED
    ensures j.output.manifest.Some?
    ensures var m, data := j.output.manifest.value, j.output.artifact.value.file.data;
            Restorable(e, id, j) <==> |data| == m.outputSize && e.sha(data) == m.outputHash
  {
    hide Compatible, Ext, ArtifactName, BaseName, RowsIntact, FilesSized, Whole, WellFormed;
    var data: seq<Byte> :| j.output.manifest.value == ManifestOf(e, id, j, data, j.finished.value);
    WrittenIsWellFormed(e, id, j, data, j.finished.value);
  }

  lemma SoundRestorable(e: Env, id: JobId, j: Job)
    requires EnvOk(e) && JobInv(e, id, j) && Sound(e, id, j) && j.state == COMPLETED
    ensures Restorable(e, id, j)
  {
    hide JobInv, Restorable;
    SoundFiled(e, id, j);
    RestorableIff(e, id, j);
  }

  /** A completed job's manifest passes validation in every state of every run
      whose crashes lost no byte of its artifact; process kills never do. */
  lemma ManifestsValid(e: Env, states: seq<State>, events: seq<Event>, id: JobId)
    requires EnvOk(e) && Execution(e, states, events) && Initial(e, states[0]) && GentleRun(states, events, id)
    requires id in states[|events|].sh.jobs && states[|events|].sh.jobs[id].state == COMPLETED
    ensures Restorable(e, id, states[|events|].sh.jobs[id])
  {
    hide Next, ActorInv, Compatible2, JobInv, Restorable, Sound, Filed;
    ExecutionSound(e, states, events, |events|, id);
    ExecutionSafe(e, states, events, |events|);
    InvOf(e, states[|events|].sh, id);
    SoundRestorable(e, id, states[|events|].sh.jobs[id]);
  }

  /* ---- power loss ---- */

  predicate DiffersAt(data: seq<Byte>, other: seq<Byte>, i: nat) {
    |other| == |data| && i < |data| && other == data[i := other[i]]
  }

  /** Some other byte at i changes the digest. */
  ghost predicate DigestTells(e: Env, data: seq<Byte>, i: nat) {
    exists other: seq<Byte> :: DiffersAt(data, other, i) && e.sha(other) != e.sha(data)
  }

  /** A completed job stays restorable through every possible crash if and only
      if every byte of its artifact is on disk. The digest is only asked to tell
      the artifact from some neighbour of it that differs in a lost byte. */
  lemma PowerLoss(e: Env, id: JobId, j: Job)
    requires EnvOk(e) && JobInv(e, id, j) && Sound(e, id, j) && j.state == COMPLETED
    ensures j.output.artifact.Some?
    ensures var f := j.output.artifact.value.file;
            (forall i: nat :: i < |f.data| && i in f.dirty ==> DigestTells(e, f.data, i)) ==>
              ((forall j' :: CrashJob(j, j') ==> Restorable(e, id, j')) <==> OnDisk(f, 0, |f.data|))
  {
    hide JobInv, CrashJob, Restorable, DigestTells;
    SoundFiled(e, id, j);
    var f := j.output.artifact.value.file;
    if OnDisk(f, 0, |f.data|) {
      forall j' | CrashJob(j, j') ensures Restorable(e, id, j') { SyncedRestorable(e, id, j, j'); }
    } else {
      var i: nat :| i < |f.data| && i in f.dirty;
      if DigestTells(e, f.data, i) { var j' := LosesByte(e, id, j, i); }
    }
  }

  lemma SyncedRestorable(e: Env, id: JobId, j: Job, j': Job)
    requires EnvOk(e) && JobInv(e, id, j) && Sound(e, id, j) && j.state == COMPLETED && CrashJob(j, j')
    requires j.output.artifact.Some? && OnDisk(j.output.artifact.value.file, 0, |j.output.artifact.value.file.data|)
    ensures Restorable(e, id, j')
  {
    hide JobInv, Restorable;
    CrashJobInv(e, id, j, j');
    SoundFiled(e, id, j);
    CrashSound(e, id, j, j');
    RestorableIff(e, id, j');
    SyncedSame(j.output.artifact.value.file, j'.output.artifact.value.file);
  }

  lemma SyncedSame(f: File, f': File)
    requires Survives(f, f') && OnDisk(f, 0, |f.data|)
    ensures f'.data == f.data
  {
    if |f.data| > 0 { assert |f.data| - 1 !in f.dirty; }
  }

  /** The job after a crash that made of its artifact what f' says. */
  function CrashedTo(j: Job, f': File): Job
    requires j.output.artifact.Some?
  {
    j.(part := None, input := None, output := j.output.(artifact := Some(Artifact(j.output.artifact.value.name, f'))))
  }

  /** A crash that leaves an artifact of another size or digest breaks the promise. */
  lemma BrokenBy(e: Env, id: JobId, j: Job, f': File)
    requires EnvOk(e) && JobInv(e, id, j) && Sound(e, id, j) && j.state == COMPLETED && j.output.artifact.Some?
    requires Survives(j.output.artifact.value.file, f')
    requires |f'.data| != |j.output.artifact.value.file.data| || e.sha(f'.data) != e.sha(j.output.artifact.value.file.data)
    ensures CrashJob(j, CrashedTo(j, f')) && !Restorable(e, id, CrashedTo(j, f'))
  {
    hide JobInv, Restorable, Survives;
    var j' := CrashedTo(j, f');
    assert CrashJob(j, j');
    CrashJobInv(e, id, j, j');
    SoundFiled(e, id, j);
    CrashSound(e, id, j, j');
    RestorableIff(e, id, j');
  }

  lemma LosesByte(e: Env, id: JobId, j: Job, i: nat) returns (j': Job)
    requires EnvOk(e) && JobInv(e, id, j) && Sound(e, id, j) && j.state == COMPLETED
    requires j.output.artifact.Some? && i < |j.output.artifact.value.file.data| && i in j.output.artifact.value.file.dirty
    requires DigestTells(e, j.output.artifact.value.file.data, i)
    ensures CrashJob(j, j') && !Restorable(e, id, j')
  {
    hide JobInv, Restorable, Sound;
    var f := j.output.artifact.value.file;
    var other: seq<Byte> :| DiffersAt(f.data, other, i) && e.sha(other) != e.sha(f.data);
    BrokenBy(e, id, j, File(other, {}));
    j' := CrashedTo(j, File(other, {}));
  }

  /* ---- nobody syncs the artifact ---- */

  /** Completion leaves the artifact as the encoder wrote it. */
  lemma CompletesUnsynced(e: Env, sh: Shared, k: JobId, pc: WorkPc, ch: Choice)
    requires ActorInv(e, sh, Worker(k, pc)) && k in sh.jobs && sh.jobs[k].state == TRANSCODING
    requires k in WorkerStep(e, sh, k, pc, ch).sh.jobs && WorkerStep(e, sh, k, pc, ch).sh.jobs[k].state == COMPLETED
    ensures Unsynced(WorkerStep(e, sh, k, pc, ch).sh.jobs[k])
  {
    hide IsOldestQueued, ManifestOf;
  }

  lemma NextUnsynced(e: Env, s: State, ev: Event, s': State, id: JobId)
    requires EnvOk(e) && Safe(e, s) && Next(e, s, ev, s') && !ev.Crash? && id in s.sh.jobs && id in s'.sh.jobs
    requires s.sh.jobs[id].state == COMPLETED ==> Unsynced(s.sh.jobs[id])
    ensures s'.sh.jobs[id].state == COMPLETED ==> Unsynced(s'.sh.jobs[id])
  {
    hide DbInv, ActorInv, Compatible2, Exclude, Arrival, KeyUsed, Specified, CrashJob, Step, Unsynced, Edge;
    if ev.Run? {
      var a := s.threads[ev.t];
      assert ActorInv(e, s.sh, a);
      StepFrozen(e, s.sh, a, ev.ch, id);
      StepMoves(e, s.sh, a, ev.ch, id);
      if s.sh.jobs[id].state == COMPLETED {
        StaysUnsynced(s.sh.jobs[id], s'.sh.jobs[id]);
      } else if s'.sh.jobs[id].state == COMPLETED {
        WorkerCompletes(a, id, s.sh.jobs[id].state);
        StepOfWorker(e, s.sh, a, ev.ch);
        CompletesUnsynced(e, s.sh, id, a.work, ev.ch);
      }
    }
  }

  lemma StaysUnsynced(j: Job, j': Job)
    requires Unsynced(j) && (j' == j || j' == Unsettled(j, j'))
    ensures Unsynced(j')
  {
  }

  lemma WorkerCompletes(a: Actor, id: JobId, from: JobState)
    requires Edge(a, id, from, COMPLETED)
    ensures a.Worker? && a.jid == id && from == TRANSCODING
  {
  }

  lemma StepOfWorker(e: Env, sh: Shared, a: Actor, ch: Choice)
    requires a.Worker?
    ensures Step(e, sh, a, ch) == WorkerStep(e, sh, a.jid, a.work, ch)
  {
    hide WorkerStep;
  }

  /** No crash between states[i] and states[k]. */
  ghost predicate Uninterrupted(events: seq<Event>, i: nat, k: nat) {
    forall m :: i <= m < k && m < |events| ==> !events[m].Crash?
  }

  /** While no crash has happened since, a job that a worker completed has an
      artifact of which nothing is known to be on disk. */
  lemma {:induction false} NeverSynced(e: Env, states: seq<State>, events: seq<Event>, i: nat, k: nat, id: JobId)
    requires EnvOk(e) && Execution(e, states, events) && Initial(e, states[0]) && i <= k <= |events| && Uninterrupted(events, i, k)
    requires id in states[i].sh.jobs && states[i].sh.jobs[id].state != COMPLETED
    ensures id in states[k].sh.jobs && (states[k].sh.jobs[id].state == COMPLETED ==> Unsynced(states[k].sh.jobs[id]))
    decreases k
  {
    hide Safe, Next, Initial, Unsynced;
    if i < k {
      NeverSynced(e, states, events, i, k - 1, id);
      ExecutionSafe(e, states, events, k - 1);
      assert Next(e, states[k - 1], events[k - 1], states[k - 1 + 1]);
      NextMoves(e, states[k - 1], events[k - 1], states[k], id);
      NextUnsynced(e, states[k - 1], events[k - 1], states[k], id);
    }
  }

  /** A job completed since the last crash is lost to the next power loss unless
      its artifact is empty: some crash of the running system leaves it with a
      manifest that does not validate. An empty artifact survives every crash. */
  lemma CompletedIsFragile(e: Env, states: seq<State>, events: seq<Event>, i: nat, id: JobId)
    requires EnvOk(e) && Execution(e, states, events) && Initial(e, states[0]) && i <= |events| && Uninterrupted(events, i, |events|)
    requires id in states[i].sh.jobs && states[i].sh.jobs[id].state != COMPLETED
    requires id in states[|events|].sh.jobs && states[|events|].sh.jobs[id].state == COMPLETED
    ensures states[|events|].sh.jobs[id].output.artifact.Some?
    ensures (exists after, s' :: Next(e, states[|events|], Crash(after), s') && id in s'.sh.jobs && !Restorable(e, id, s'.sh.jobs[id]))
            <==> states[|events|].sh.jobs[id].output.artifact.value.file.data != []
  {
    hide Next, ActorInv, Compatible2, JobInv, Restorable, Manifested, Initial, Unsynced;
    var s := states[|events|];
    var j := s.sh.jobs[id];
    NeverSynced(e, states, events, i, |events|, id);
    ExecutionSafe(e, states, events, |events|);
    InvOf(e, s.sh, id);
    UninterruptedSound(e, states, events, i, |events|, id);
    SoundFiled(e, id, j);
    if j.output.artifact.value.file.data != [] {
      var after, s' := LosesAll(e, s, id);
    } else {
      forall after, s' | Next(e, s, Crash(after), s') && id in s'.sh.jobs ensures Restorable(e, id, s'.sh.jobs[id]) {
        CrashedJob(e, s, after, s', id);
        SyncedRestorable(e, id, j, s'.sh.jobs[id]);
      }
    }
  }

  lemma CrashedJob(e: Env, s: State, after: map<JobId, Job>, s': State, id: JobId)
    requires Next(e, s, Crash(after), s') && id in s'.sh.jobs
    ensures id in s.sh.jobs && CrashJob(s.sh.jobs[id], s'.sh.jobs[id])
  {
    hide CrashJob;
  }

  lemma {:induction false} UninterruptedSound(e: Env, states: seq<State>, events: seq<Event>, i: nat, k: nat, id: JobId)
    requires EnvOk(e) && Execution(e, states, events) && Initial(e, states[0]) && i <= k <= |events| && Uninterrupted(events, i, k)
    requires id in states[i].sh.jobs && states[i].sh.jobs[id].state != COMPLETED
    ensures id in states[k].sh.jobs && Sound(e, id, states[k].sh.jobs[id])
    decreases k
  {
    hide Safe, Next, Initial, Manifested;
    if i < k {
      UninterruptedSound(e, states, events, i, k - 1, id);
      ExecutionSafe(e, states, events, k - 1);
      assert Next(e, states[k - 1], events[k - 1], states[k - 1 + 1]);
      NextSound(e, states[k - 1], events[k - 1], states[k], id);
    }
  }

  /** The power loss that truncates the unsynced artifact. */
  lemma LosesAll(e: Env, s: State, id: JobId) returns (after: map<JobId, Job>, s': State)
    requires EnvOk(e) && Safe(e, s) && id in s.sh.jobs && s.sh.jobs[id].state == COMPLETED
    requires Sound(e, id, s.sh.jobs[id]) && Unsynced(s.sh.jobs[id]) && s.sh.jobs[id].output.artifact.value.file.data != []
    ensures Next(e, s, Crash(after), s') && id in s'.sh.jobs && !Restorable(e, id, s'.sh.jobs[id])
  {
    hide ActorInv, Compatible2, JobInv, Restorable, Manifested, CrashJob;
    var j := s.sh.jobs[id];
    InvOf(e, s.sh, id);
    TruncatedSurvives(j.output.artifact.value.file);
    BrokenBy(e, id, j, EmptyFile);
    after := s.sh.jobs[id := CrashedTo(j, EmptyFile)];
    forall k | k in s.sh.jobs && k != id ensures CrashJob(s.sh.jobs[k], after[k]) { KeptCrash(s.sh.jobs[k]); }
    s' := State(s.sh.(jobs := after, sem := 0), [], s.leaked + SumSeq(s.threads, Floating));
  }

  lemma TruncatedSurvives(f: File)
    requires f.dirty == Span(0, |f.data|)
    ensures Survives(f, EmptyFile)
  {
    forall i | 0 <= i < |f.data| ensures i in f.dirty { assert Here(i); }
  }

  lemma KeptCrash(j: Job)
    ensures CrashJob(j, j)
  {
  }

  /* ---- rebuilding the database ---- */

  const EmptyDb := Db(map[], 0)

  /** What a rebuilt row keeps of the job: everything but its request key, its
      chunk rows, its reservation, its deadline and its files. */
  function Rebuilt(j: Job): Job {
    j.(key := None, rows := map[], reserved := 0, ledger := None, deadline := None, part := None, input := None,
       output := OutputDir(None, None))
  }

  lemma RowIsRebuilt(e: Env, id: JobId, j: Job)
    requires JobInv(e, id, j) && j.state == COMPLETED
    ensures j.output.manifest.Some?
    ensures var m := j.output.manifest.value;
            m.jobId == id && m.inputSize > 0 && m.chunkSize > 0 && RowOf(m) == Rebuilt(j)
  {
    hide Compatible, RowsIntact, FilesSized, ArtifactName, Accounted;
  }

  /** Disaster recovery: losing the whole database and backfilling an empty one
      from a listing of the output directory recreates a completed job, with the
      same file name, sizes, digests, specification, artifact and times, exactly
      if its manifest validates, as it does unless a crash took artifact bytes. */
  lemma DisasterRecovery(e: Env, states: seq<State>, events: seq<Event>, entries: seq<Entry>, id: JobId)
    requires EnvOk(e) && Execution(e, states, events) && Initial(e, states[0])
    requires id in states[|events|].sh.jobs && states[|events|].sh.jobs[id].state == COMPLETED
    requires Listing(entries) && EntryOf(id, states[|events|].sh.jobs[id].output) in entries
    ensures GentleRun(states, events, id) ==> Restorable(e, id, states[|events|].sh.jobs[id])
    ensures var rebuilt := Backfilled(e, EmptyDb, entries).0.jobs;
            if Restorable(e, id, states[|events|].sh.jobs[id]) then id in rebuilt && rebuilt[id] == Rebuilt(states[|events|].sh.jobs[id])
            else id !in rebuilt
  {
    hide Next, ActorInv, Compatible2, JobInv, Validates, Backfilled, RowOf, Rebuilt, Gentle;
    var j := states[|events|].sh.jobs[id];
    if GentleRun(states, events, id) { ManifestsValid(e, states, events, id); }
    ExecutionSafe(e, states, events, |events|);
    InvOf(e, states[|events|].sh, id);
    RowIsRebuilt(e, id, j);
    var i: nat :| i < |entries| && entries[i] == EntryOf(id, j.output);
    assert Restorable(e, id, j) <==> Usable(e, entries[i]);
    RowAfter(e, EmptyDb, entries, id);
    if Restorable(e, id, j) {
      assert Speaks(e, entries, i, id);
    } else {
      forall k: nat ensures !Speaks(e, entries, k, id) { OnlyItsName(e, entries, i, k, id); }
    }
  }

  lemma OnlyItsName(e: Env, entries: seq<Entry>, i: nat, k: nat, id: JobId)
    requires Listing(entries) && i < |entries| && entries[i].name == Some(id) && !Usable(e, entries[i])
    ensures !Speaks(e, entries, k, id)
  {
    hide BaseName, Compatible, Ext;
  }

  /** The directory that the manifest of a listing describes. */
  function DirectoryOf(x: Entry): OutputDir
    requires x.manifest.Parsed? && x.manifest.manifest.artifact in x.files
  {
    var m := x.manifest.manifest;
    OutputDir(Some(Artifact(m.artifact, File(x.files[m.artifact], {}))), Some(m))
  }

  /** The artifact carries the name the service gives it. */
  ghost predicate NamedByService(e: Env, entries: seq<Entry>) {
    forall i :: 0 <= i < |entries| && Usable(e, entries[i]) ==>
      entries[i].manifest.manifest.artifact == ArtifactName(entries[i].manifest.manifest.spec)
  }

  /** The service that starts on a rebuilt database, with the directories it was rebuilt from. */
  ghost predicate StartsOn(e: Env, entries: seq<Entry>, s: State) {
    && s.sh.total == 0 && s.sh.reserved == 0 && s.sh.sem == 0 && s.threads == [] && s.leaked == 0
    && s.sh.jobs.Keys == Backfilled(e, EmptyDb, entries).0.jobs.Keys
    && forall i: nat, id: JobId :: Speaks(e, entries, i, id) && id in s.sh.jobs ==>
         s.sh.jobs[id] == Backfilled(e, EmptyDb, entries).0.jobs[id].(output := DirectoryOf(entries[i]))
  }

  lemma RowFromBackfill(e: Env, x: Entry)
    requires EnvOk(e) && Usable(e, x) && x.manifest.manifest.artifact == ArtifactName(x.manifest.manifest.spec)
    ensures FromBackfill(e, x.manifest.manifest.jobId, RowOf(x.manifest.manifest).(output := DirectoryOf(x)))
  {
    hide Compatible, Ext, ArtifactName, BaseName, Expected;
    var m := x.manifest.manifest;
    var j := RowOf(m).(output := DirectoryOf(x));
    assert m == ManifestOf(e, m.jobId, j, x.files[m.artifact], m.completedAt);
    assert Described(e, m.jobId, j, m.completedAt);
  }

  /** Life goes on: a database rebuilt by a backfill is a legitimate beginning, so
      everything proved of every run holds of the service that starts on it. */
  lemma RebuiltIsInitial(e: Env, entries: seq<Entry>, s: State)
    requires EnvOk(e) && Listing(entries) && NamedByService(e, entries) && StartsOn(e, entries, s)
    ensures Initial(e, s)
  {
    hide FromBackfill, Usable, Backfilled, RowOf;
    forall id | id in s.sh.jobs ensures FromBackfill(e, id, s.sh.jobs[id]) {
      RowAfter(e, EmptyDb, entries, id);
      var i: nat :| Speaks(e, entries, i, id);
      RowFromBackfill(e, entries[i]);
    }
  }

  /** A job completed by the daemon matches its own manifest exactly if its
      reservation has been released; otherwise a backfill reports it as a conflict. */
  lemma OwnManifest(e: Env, s: State, id: JobId)
    requires EnvOk(e) && Reachable(e, s) && id in s.sh.jobs && s.sh.jobs[id].state == COMPLETED
    ensures s.sh.jobs[id].output.manifest.Some?
    ensures var j := s.sh.jobs[id];
            var m := j.output.manifest.value;
            && m.inputSize > 0 && m.chunkSize > 0 && m.jobId == id
            && (Matches(j, m) <==> j.reserved == 0)
            && StatusOf(Db(s.sh.jobs, s.sh.reserved), m) == if j.reserved == 0 then IDENTICAL else CONFLICT
  {
    hide Reachable, ActorInv, Compatible2, Compatible, RowsIntact, FilesSized, ArtifactName, Accounted;
    ReachableSafe(e, s);
    InvOf(e, s.sh, id);
    RowIsRebuilt(e, id, s.sh.jobs[id]);
  }
}
