/** Why a job is where it is: every success of a run was earned by the steps
    that have to succeed for it, and every failure goes back to a step that failed. */
module Causes {
  import opened Base
  import opened Chunks
  import opened Files
  import opened Spec
  import opened Jobs
  import opened Engine
  import opened Safety
  import opened SafetyActors
  import opened SafetySystem
  import opened Effects
  import opened Lifecycle
  import opened Traceback

  /* ---- which goroutine a goroutine becomes ---- */

  lemma FinalizerStays(e: Env, sh: Shared, a: Actor, ch: Choice)
    requires Step(e, sh, a, ch).next.Finalize?
    ensures a.Finalize? && a.jid == Step(e, sh, a, ch).next.jid
  {
    hide SchedStep, FailStep, ReleaseStep, GcStep, NextUpload, NextSpool, IsHead, Pwrite, ManifestOf, Encoded, WithManifest;
  }

  lemma WorkerStays(e: Env, sh: Shared, a: Actor, ch: Choice)
    requires Step(e, sh, a, ch).next.Worker?
    ensures a.Worker? && a.jid == Step(e, sh, a, ch).next.jid
  {
    hide SchedStep, FailStep, ReleaseStep, GcStep, NextUpload, NextSpool, IsHead, Pwrite, ManifestOf, Encoded, WithManifest;
  }

  lemma AdmitterStays(e: Env, sh: Shared, a: Actor, ch: Choice)
    requires Step(e, sh, a, ch).next.Admit?
    ensures a.Admit?
  {
    hide SchedStep, FailStep, ReleaseStep, GcStep, NextUpload, NextSpool, IsHead, Pwrite, ManifestOf, Encoded, WithManifest;
  }

  lemma RecoverStays(e: Env, sh: Shared, a: Actor, ch: Choice)
    requires Step(e, sh, a, ch).next.Recover?
    ensures a.Recover?
  {
    hide SchedStep, FailStep, ReleaseStep, GcStep, NextUpload, NextSpool, IsHead, Pwrite, ManifestOf, Encoded, WithManifest;
  }

  lemma PutStays(e: Env, sh: Shared, a: Actor, ch: Choice)
    requires Step(e, sh, a, ch).next.Put?
    ensures a.Put? && a.req == Step(e, sh, a, ch).next.req
  {
    hide SchedStep, FailStep, ReleaseStep, GcStep, NextUpload, NextSpool, IsHead, Pwrite, ManifestOf, Encoded, WithManifest;
  }

  /* ---- failures ---- */

  /** The goroutine is failing the job. */
  predicate Fails(a: Actor, id: JobId) {
    || (a.Finalize? && a.jid == id && a.fin.FinFail?)
    || (a.Worker? && a.jid == id && a.work.WorkFail?)
    || (a.Admit? && a.adm.AdmitFail? && a.adm.head == id)
    || (a.Recover? && (a.rec.WaitReject? || a.rec.Reject?) && a.rec.jid == id)
  }

  /** Everything that makes a job fail. */
  ghost predicate Cause(e: Env, sh: Shared, a: Actor, ch: Choice, id: JobId) {
    && id in sh.jobs
    && var j := sh.jobs[id];
       // The spool file of an upload cannot be inspected after a restart, is gone or has the wrong size.
       || (a.Recover? && a.rec.Inspect? && a.rec.jid == id && Accepting(j.state)
           && (!ch.ok || j.part.None? || |j.part.value.data| != j.size))
       // The spool file cannot be renamed.
       || (a == Finalize(id, Rename) && j.input.None? && (j.part.None? || !ch.ok))
       // The input cannot be read, or is not the one that was announced.
       || (a == Finalize(id, HashInput) && (!ch.ok || (j.input.Some? && j.inputHash != "" && j.inputHash != e.sha(j.input.value.data))))
       // The probe fails or rejects it.
       || (a == Finalize(id, Probe) && !ch.ok)
       // No cgroup, no encoder that succeeds, no manifest.
       || (a.Worker? && a.jid == id && (a.work.MakeCgroup? || a.work.Encode? || a.work.WriteManifest?) && !ch.ok)
       // The disk cannot be looked at, or a reservation row is left over.
       || (a == Admit(ReserveHead(id)) && (!ch.ok || j.ledger.Some?))
       // The spool file cannot be created.
       || (a.Admit? && a.adm.Prepare? && a.adm.head == id && !ch.ok)
  }

  lemma FinalizeFails(e: Env, sh: Shared, id: JobId, pc: FinPc, ch: Choice)
    requires FinInv(e, sh, id, pc) && !pc.FinFail? && Fails(FinalizeStep(e, sh, id, pc, ch).next, id)
    ensures Cause(e, sh, Finalize(id, pc), ch, id)
  {
    hide SchedStep, FailStep, SchedInv;
  }

  lemma WorkerFails(e: Env, sh: Shared, id: JobId, pc: WorkPc, ch: Choice)
    requires EnvOk(e) && (id in sh.jobs ==> JobInv(e, id, sh.jobs[id])) && WorkInv(e, sh, id, pc)
    requires !pc.WorkFail? && Fails(WorkerStep(e, sh, id, pc, ch).next, id)
    ensures Cause(e, sh, Worker(id, pc), ch, id)
  {
    hide SchedStep, FailStep, ReleaseStep, SchedInv, ManifestOf, Manifested, Encoded, Compatible, RowsIntact, FilesSized, Whole, Accounted, Described;
  }

  lemma AdmitFails(e: Env, sh: Shared, pc: AdmitPc, ch: Choice, id: JobId)
    requires AdmitInv(sh, pc) && !(pc.AdmitFail? && pc.head == id) && Fails(AdmitStep(e, sh, pc, ch).next, id)
    ensures Cause(e, sh, Admit(pc), ch, id)
  {
    hide FailStep, IsHead, Ready, Truncate;
  }

  lemma RecoverFails(e: Env, sh: Shared, pc: RecoverPc, ch: Choice, id: JobId)
    requires RecInv(sh, pc) && !Fails(Recover(pc), id) && Fails(RecoverStep(e, sh, pc, ch).next, id)
    ensures Cause(e, sh, Recover(pc), ch, id)
  {
    hide GcStep, SchedStep, SchedInv, ReadyExcept, GcInv;
  }

  lemma EntersFailure(e: Env, sh: Shared, a: Actor, ch: Choice, id: JobId)
    requires EnvOk(e) && DbInv(e, sh) && ActorInv(e, sh, a) && !Fails(a, id) && Fails(Step(e, sh, a, ch).next, id)
    ensures Cause(e, sh, a, ch, id)
  {
    hide PutStep, CompleteStep, FinalizeStep, WorkerStep, AdmitStep, CollectStep, RecoverStep, FinInv, WorkInv, AdmitInv, RecInv, Cause, JobInv;
    var next := Step(e, sh, a, ch).next;
    if next.Finalize? {
      FinalizerStays(e, sh, a, ch);
      FinalizeFails(e, sh, id, a.fin, ch);
    } else if next.Worker? {
      WorkerStays(e, sh, a, ch);
      WorkerFails(e, sh, id, a.work, ch);
    } else if next.Admit? {
      AdmitterStays(e, sh, a, ch);
      AdmitFails(e, sh, a.adm, ch, id);
    } else {
      RecoverStays(e, sh, a, ch);
      RecoverFails(e, sh, a.rec, ch, id);
    }
  }

  lemma FinalizeMarks(e: Env, sh: Shared, id: JobId, pc: FinPc, ch: Choice)
    requires id in sh.jobs && sh.jobs[id].state != FAILED
    requires id in FinalizeStep(e, sh, id, pc, ch).sh.jobs && FinalizeStep(e, sh, id, pc, ch).sh.jobs[id].state == FAILED
    ensures pc.FinFail?
  {
    hide FailStep, IsOldestQueued;
  }

  lemma WorkerMarks(e: Env, sh: Shared, id: JobId, pc: WorkPc, ch: Choice)
    requires id in sh.jobs && !Terminal(sh.jobs[id].state) && WorkInv(e, sh, id, pc)
    requires id in WorkerStep(e, sh, id, pc, ch).sh.jobs && WorkerStep(e, sh, id, pc, ch).sh.jobs[id].state == FAILED
    ensures pc.WorkFail?
  {
    hide FailStep, ReleaseStep, IsOldestQueued, ManifestOf, Manifested, SchedInv;
  }

  lemma AdmitMarks(e: Env, sh: Shared, pc: AdmitPc, ch: Choice, id: JobId)
    requires id in sh.jobs && sh.jobs[id].state == PENDING
    requires id in AdmitStep(e, sh, pc, ch).sh.jobs && AdmitStep(e, sh, pc, ch).sh.jobs[id].state == FAILED
    ensures pc.AdmitFail? && pc.head == id
  {
    hide ReleaseStep, IsHead, Truncate;
    if pc.AdmitFail? && pc.head != id { FailKeepsOthers(sh, pc.head, pc.fail, id); }
  }

  lemma FailKeepsOthers(sh: Shared, id: JobId, f: FailPc, k: JobId)
    requires k != id && k in sh.jobs
    ensures k in FailStep(sh, id, f).sh.jobs && FailStep(sh, id, f).sh.jobs[k] == sh.jobs[k]
  {
  }

  lemma FailsAtMark(e: Env, sh: Shared, a: Actor, ch: Choice, id: JobId)
    requires ActorInv(e, sh, a) && id in sh.jobs && id in Step(e, sh, a, ch).sh.jobs
    requires Edge(a, id, sh.jobs[id].state, FAILED) && Step(e, sh, a, ch).sh.jobs[id].state == FAILED
    ensures Fails(a, id)
  {
    hide PutStep, CompleteStep, FinalizeStep, WorkerStep, AdmitStep, CollectStep, RecoverStep, FinInv, WorkInv, AdmitInv, RecInv;
    match a
    case Finalize(_, pc) => FinalizeMarks(e, sh, id, pc, ch);
    case Worker(_, pc) => WorkerMarks(e, sh, id, pc, ch);
    case Admit(pc) => AdmitMarks(e, sh, pc, ch, id);
    case _ =>
  }

  lemma FailsInner(id: JobId)
    ensures Inner((a: Actor) => Fails(a, id))
  {
  }

  /** Nothing fails without a cause: whenever a job turns FAILED, the goroutine
      that marks it has been failing it since a step that failed, which is one of
      those listed. In particular an upload whose spool file is there and can be
      inspected survives every restart. */
  lemma FailedForCause(e: Env, states: seq<State>, events: seq<Event>, k: nat, id: JobId) returns (i: nat, t: nat)
    requires EnvOk(e) && Execution(e, states, events) && Initial(e, states[0]) && k < |events|
    requires id in states[k].sh.jobs && states[k].sh.jobs[id].state != FAILED
    requires id in states[k + 1].sh.jobs && states[k + 1].sh.jobs[id].state == FAILED
    ensures i < k && events[k].Run? && events[k].t == t && events[i].Run? && events[i].t == t && t < |states[i].threads|
    ensures Cause(e, states[i].sh, states[i].threads[t], events[i].ch, id)
    ensures forall m :: i < m <= k ==> t < |states[m].threads| && Fails(states[m].threads[t], id)
  {
    hide Safe, Step, Fails, Cause, Exclude, Specified, Arrival, KeyUsed, CrashJob, Inner, Initial, Edge;
    ExecutionSafe(e, states, events, k);
    assert Next(e, states[k], events[k], states[k + 1]);
    NextMoves(e, states[k], events[k], states[k + 1], id);
    t := SomebodyRuns(e, states[k], events[k], states[k + 1], id);
    StepInv(e, states[k], t);
    FailsAtMark(e, states[k].sh, states[k].threads[t], events[k].ch, id);
    FailsInner(id);
    var P := (a: Actor) => Fails(a, id);
    i := Entered(e, states, events, k, t, P);
    ExecutionSafe(e, states, events, i);
    StepInv(e, states[i], t);
    EntersFailure(e, states[i].sh, states[i].threads[t], events[i].ch, id);
    forall m | i < m <= k ensures t < |states[m].threads| && Fails(states[m].threads[t], id) { assert In(states[m], t, P); }
  }

  lemma StepInv(e: Env, s: State, t: nat)
    requires Safe(e, s) && t < |s.threads|
    ensures DbInv(e, s.sh) && ActorInv(e, s.sh, s.threads[t])
  {
    hide DbInv, ActorInv;
  }

  /** Only a step of a goroutine moves a job. */
  lemma SomebodyRuns(e: Env, s: State, ev: Event, s': State, id: JobId) returns (t: nat)
    requires Next(e, s, ev, s') && id in s.sh.jobs && id in s'.sh.jobs && s'.sh.jobs[id].state != s.sh.jobs[id].state
    ensures ev.Run? && ev.t == t && t < |s.threads| && Runner(s, ev) == s.threads[t]
    ensures s'.sh == Step(e, s.sh, s.threads[t], ev.ch).sh
  {
    hide Step, Exclude, Specified, Arrival, KeyUsed, Survives;
    assert ev.Run?;
    t := ev.t;
  }

  /** The goroutine is rejecting the upload. */
  predicate Rejects(a: Actor, id: JobId) { a.Recover? && (a.rec.WaitReject? || a.rec.Reject?) && a.rec.jid == id }

  lemma RejectsInner(id: JobId)
    ensures Inner((a: Actor) => Rejects(a, id))
  {
  }

  lemma EntersRejection(e: Env, sh: Shared, a: Actor, ch: Choice, id: JobId)
    requires ActorInv(e, sh, a) && !Rejects(a, id) && Rejects(Step(e, sh, a, ch).next, id)
    ensures id in sh.jobs && Accepting(sh.jobs[id].state) && a.Recover? && a.rec.Inspect? && a.rec.jid == id
    ensures !ch.ok || sh.jobs[id].part.None? || |sh.jobs[id].part.value.data| != sh.jobs[id].size
  {
    hide PutStep, CompleteStep, FinalizeStep, WorkerStep, AdmitStep, CollectStep, GcStep, SchedStep, SchedInv, ReadyExcept, GcInv;
    RecoverStays(e, sh, a, ch);
  }

  lemma RejectsAtMark(a: Actor, id: JobId, from: JobState)
    requires Edge(a, id, from, FAILED) && Accepting(from)
    ensures Rejects(a, id)
  {
  }

  /** An upload in progress survives every restart that finds its spool file with
      its size: it turns FAILED only if the inspection of that restart could not
      look at the file, or found it missing or of another size. */
  lemma IntactUploadSurvives(e: Env, states: seq<State>, events: seq<Event>, k: nat, id: JobId) returns (i: nat, t: nat)
    requires EnvOk(e) && Execution(e, states, events) && Initial(e, states[0]) && k < |events|
    requires id in states[k].sh.jobs && states[k].sh.jobs[id].state in {ADMITTED, UPLOADING}
    requires id in states[k + 1].sh.jobs && states[k + 1].sh.jobs[id].state == FAILED
    ensures i < k && events[i].Run? && events[i].t == t && t < |states[i].threads|
    ensures states[i].threads[t].Recover? && states[i].threads[t].rec.Inspect? && states[i].threads[t].rec.jid == id
    ensures id in states[i].sh.jobs && states[i].sh.jobs[id].state in {ADMITTED, UPLOADING}
    ensures var j := states[i].sh.jobs[id]; !events[i].ch.ok || j.part.None? || |j.part.value.data| != j.size
    ensures forall m :: i <= m <= k ==> !events[m].Crash?
  {
    hide Safe, Step, Exclude, Specified, Arrival, KeyUsed, CrashJob, Inner, Initial, Edge, Rejects;
    ExecutionSafe(e, states, events, k);
    assert Next(e, states[k], events[k], states[k + 1]);
    NextMoves(e, states[k], events[k], states[k + 1], id);
    t := SomebodyRuns(e, states[k], events[k], states[k + 1], id);
    RejectsAtMark(states[k].threads[t], id, states[k].sh.jobs[id].state);
    RejectsInner(id);
    i := Entered(e, states, events, k, t, (a: Actor) => Rejects(a, id));
    ExecutionSafe(e, states, events, i);
    StepInv(e, states[i], t);
    EntersRejection(e, states[i].sh, states[i].threads[t], events[i].ch, id);
  }

  /* ---- completion ---- */

  /** The worker of the job is at one program counter. */
  predicate AtCgroup(a: Actor, id: JobId) { a.Worker? && a.jid == id && a.work.MakeCgroup? }
  predicate Encodes(a: Actor, id: JobId) { a.Worker? && a.jid == id && a.work.Encode? }
  predicate Describes(a: Actor, id: JobId) { a.Worker? && a.jid == id && a.work.WriteManifest? }
  predicate Records(a: Actor, id: JobId) { a.Worker? && a.jid == id && a.work.Record? }
  predicate Transcribes(a: Actor, id: JobId) { a.Worker? && a.jid == id && (a.work.MarkTranscoding? || a.work.Encode?) }

  /** The artifact is exactly these bytes. */
  predicate Wrote(j: Job, bytes: seq<Byte>) { j.output.artifact.Some? && j.output.artifact.value.file.data == bytes }

  lemma WorkInner(id: JobId)
    ensures Inner((a: Actor) => Describes(a, id)) && Inner((a: Actor) => Records(a, id)) && Inner((a: Actor) => Transcribes(a, id))
  {
  }

  lemma CompletesAtRecord(e: Env, sh: Shared, a: Actor, ch: Choice, id: JobId) returns (at: nat)
    requires ActorInv(e, sh, a) && id in sh.jobs && id in Step(e, sh, a, ch).sh.jobs
    requires Edge(a, id, sh.jobs[id].state, COMPLETED) && Step(e, sh, a, ch).sh.jobs[id].state == COMPLETED
    ensures Records(a, id) && Step(e, sh, a, ch).sh.jobs[id].output == sh.jobs[id].output
    ensures Manifested(e, id, sh.jobs[id], at)
  {
    hide ReleaseStep, IsOldestQueued, ManifestOf, Manifested, SchedInv;
    if a.Worker? && a.work.WorkFail? && a.work.fail.FailRelease? { ReleaseKeepsState(sh, id, a.work.fail.rel); }
    assert a.work.Record?;
    at := a.work.at;
  }

  lemma ReleaseKeepsState(sh: Shared, id: JobId, r: RelPc)
    requires id in sh.jobs
    ensures id in ReleaseStep(sh, id, r).sh.jobs && ReleaseStep(sh, id, r).sh.jobs[id].state == sh.jobs[id].state
  {
  }

  lemma WorkerCameFrom(e: Env, sh: Shared, a: Actor, ch: Choice, id: JobId)
    requires ActorInv(e, sh, a)
    ensures Records(Step(e, sh, a, ch).next, id) ==>
              && Describes(a, id) && ch.ok && id in sh.jobs && id in Step(e, sh, a, ch).sh.jobs
              && Step(e, sh, a, ch).sh.jobs[id].output.artifact == sh.jobs[id].output.artifact
    ensures Describes(Step(e, sh, a, ch).next, id) ==>
              && Encodes(a, id) && ch.ok && id in Step(e, sh, a, ch).sh.jobs
              && Wrote(Step(e, sh, a, ch).sh.jobs[id], ch.bytes)
    ensures Transcribes(Step(e, sh, a, ch).next, id) && !Transcribes(a, id) ==> AtCgroup(a, id) && ch.ok
  {
    hide FinalizeStep, PutStep, CompleteStep, AdmitStep, CollectStep, RecoverStep, SchedStep, FailStep, ReleaseStep, ManifestOf, Manifested, SchedInv;
    if Step(e, sh, a, ch).next.Worker? { WorkerStays(e, sh, a, ch); }
  }

  /** Beside the worker of a job nobody touches it. */
  lemma WorkerAlone(e: Env, s: State, ev: Event, s': State, t: nat, id: JobId)
    requires EnvOk(e) && Safe(e, s) && Next(e, s, ev, s') && !ev.Crash? && t < |s.threads| && !(ev.Run? && ev.t == t)
    requires Describes(s.threads[t], id) || Records(s.threads[t], id)
    ensures id in s.sh.jobs && id in s'.sh.jobs && s'.sh.jobs[id] == s.sh.jobs[id]
  {
    hide DbInv, Step, Exclude, Specified, KeyUsed, Arrival, SpawnOk, NewOwner, Manifested, Held;
    assert ActorInv(e, s.sh, s.threads[t]);
    if ev.Run? {
      StepKeeps(e, s.sh, s.threads[ev.t], ev.ch);
      assert Compatible2(e, s.threads[t], s.threads[ev.t]);
    }
  }

  /** While the worker is described as in P, which no step of it repeats, the job stays as it is. */
  lemma {:induction false} JobHeld(e: Env, states: seq<State>, events: seq<Event>, i: nat, k: nat, t: nat, id: JobId, P: Actor -> bool)
    requires EnvOk(e) && Execution(e, states, events) && Initial(e, states[0]) && i <= k <= |events|
    requires forall m :: i <= m <= k ==> In(states[m], t, P)
    requires forall m :: i <= m < k ==> !events[m].Crash?
    requires (forall a :: P(a) ==> Describes(a, id)) || (forall a :: P(a) ==> Records(a, id))
    ensures id in states[i].sh.jobs && id in states[k].sh.jobs && states[k].sh.jobs[id] == states[i].sh.jobs[id]
    decreases k
  {
    hide Safe, Next, Initial, Describes, Records;
    if i < k {
      JobHeld(e, states, events, i, k - 1, t, id, P);
      ExecutionSafe(e, states, events, k - 1);
      assert Next(e, states[k - 1], events[k - 1], states[k - 1 + 1]);
      assert In(states[k - 1], t, P) && In(states[k], t, P);
      MovesOn(e, states[k - 1], events[k - 1], states[k], t, id);
      WorkerAlone(e, states[k - 1], events[k - 1], states[k], t, id);
    } else {
      assert In(states[i], t, P);
      ExecutionSafe(e, states, events, i);
      WorkerHas(e, states[i], t, id);
    }
  }

  lemma WorkerHas(e: Env, s: State, t: nat, id: JobId)
    requires Safe(e, s) && t < |s.threads| && (Describes(s.threads[t], id) || Records(s.threads[t], id))
    ensures id in s.sh.jobs
  {
    hide DbInv, Compatible2, Manifested;
    assert ActorInv(e, s.sh, s.threads[t]);
  }

  /** A worker that writes or records the manifest does so in one step. */
  lemma MovesOn(e: Env, s: State, ev: Event, s': State, t: nat, id: JobId)
    requires EnvOk(e) && Safe(e, s) && Next(e, s, ev, s') && t < |s.threads| && t < |s'.threads| && !ev.Crash?
    requires (Describes(s.threads[t], id) && Describes(s'.threads[t], id)) || (Records(s.threads[t], id) && Records(s'.threads[t], id))
    ensures !(ev.Run? && ev.t == t)
  {
    hide DbInv, Compatible2, ActorInv, Exclude, SchedStep, FailStep, ReleaseStep, ManifestOf, Encoded, WithManifest;
  }

  /** Thread t has been running, without a crash, from states[i] to states[k], and event i is a step of it that succeeded. */
  ghost predicate Since(states: seq<State>, events: seq<Event>, i: nat, k: nat, t: nat)
    requires |states| == |events| + 1
  {
    && i < k <= |events| && events[i].Run? && events[i].t == t && events[i].ch.ok
    && (forall m :: i <= m <= k ==> t < |states[m].threads|) && forall m :: i <= m < k ==> !events[m].Crash?
  }

  /** Entering a stretch of code with a step that succeeds. */
  lemma SinceEntry(e: Env, states: seq<State>, events: seq<Event>, i: nat, k: nat, t: nat, P: Actor -> bool)
    requires |states| == |events| + 1 && i < k <= |events| && Enters(e, states, events, i, t, P) && events[i].ch.ok
    requires forall m :: i < m <= k ==> In(states[m], t, P)
    requires forall m :: i <= m < k ==> !events[m].Crash?
    ensures Since(states, events, i, k, t)
  {
    hide Step;
    forall m | i <= m <= k ensures t < |states[m].threads| { if i < m { assert In(states[m], t, P); } }
  }

  lemma RecordedAfter(e: Env, states: seq<State>, events: seq<Event>, k: nat, t: nat, id: JobId) returns (w: nat)
    requires EnvOk(e) && Execution(e, states, events) && Initial(e, states[0]) && k <= |events|
    requires t < |states[k].threads| && Records(states[k].threads[t], id)
    ensures Since(states, events, w, k, t) && Describes(states[w].threads[t], id)
    ensures id in states[k].sh.jobs && id in states[w].sh.jobs
    ensures states[k].sh.jobs[id].output.artifact == states[w].sh.jobs[id].output.artifact
  {
    hide Safe, Step, Inner, Initial, Describes, Records, Next, Since;
    WorkInner(id);
    var P := (a: Actor) => Records(a, id);
    w := Entered(e, states, events, k, t, P);
    ExecutionSafe(e, states, events, w);
    StepInv(e, states[w], t);
    WorkerCameFrom(e, states[w].sh, states[w].threads[t], events[w].ch, id);
    JobHeld(e, states, events, w + 1, k, t, id, P);
    SinceEntry(e, states, events, w, k, t, P);
  }

  lemma DescribedAfter(e: Env, states: seq<State>, events: seq<Event>, k: nat, t: nat, id: JobId) returns (i: nat)
    requires EnvOk(e) && Execution(e, states, events) && Initial(e, states[0]) && k <= |events|
    requires t < |states[k].threads| && Describes(states[k].threads[t], id)
    ensures Since(states, events, i, k, t) && Encodes(states[i].threads[t], id)
    ensures id in states[k].sh.jobs && Wrote(states[k].sh.jobs[id], events[i].ch.bytes)
  {
    hide Safe, Step, Inner, Initial, Encodes, Describes, Next, Wrote, Since;
    WorkInner(id);
    var P := (a: Actor) => Describes(a, id);
    i := Entered(e, states, events, k, t, P);
    ExecutionSafe(e, states, events, i);
    StepInv(e, states[i], t);
    WorkerCameFrom(e, states[i].sh, states[i].threads[t], events[i].ch, id);
    JobHeld(e, states, events, i + 1, k, t, id, P);
    SinceEntry(e, states, events, i, k, t, P);
  }

  lemma EncodedAfter(e: Env, states: seq<State>, events: seq<Event>, k: nat, t: nat, id: JobId) returns (c: nat)
    requires EnvOk(e) && Execution(e, states, events) && Initial(e, states[0]) && k <= |events|
    requires t < |states[k].threads| && Transcribes(states[k].threads[t], id)
    ensures Since(states, events, c, k, t) && AtCgroup(states[c].threads[t], id)
  {
    hide Safe, Step, Inner, Initial, AtCgroup, Transcribes, Next, Since;
    WorkInner(id);
    var P := (a: Actor) => Transcribes(a, id);
    c := Entered(e, states, events, k, t, P);
    ExecutionSafe(e, states, events, c);
    StepInv(e, states[c], t);
    WorkerCameFrom(e, states[c].sh, states[c].threads[t], events[c].ch, id);
    SinceEntry(e, states, events, c, k, t, P);
  }

  lemma EncodesTranscribes(a: Actor, id: JobId)
    requires Encodes(a, id)
    ensures Transcribes(a, id)
  {
  }

  /** The manifest states digest and size of the artifact. */
  lemma ManifestTells(e: Env, id: JobId, j: Job, at: nat, bytes: seq<Byte>)
    requires Manifested(e, id, j, at) && Wrote(j, bytes)
    ensures j.output.manifest.Some? && j.output.manifest.value.outputHash == e.sha(bytes) && j.output.manifest.value.outputSize == |bytes|
  {
  }

  /** Completion is earned: whenever a job turns COMPLETED, its worker has got a
      cgroup, then run an encoder that succeeded, then written and synced the
      manifest, all without a crash; and the artifact is what that encoder wrote,
      described by its digest and size. */
  lemma CompletedWasEncoded(e: Env, states: seq<State>, events: seq<Event>, k: nat, id: JobId) returns (c: nat, i: nat, w: nat, t: nat)
    requires EnvOk(e) && Execution(e, states, events) && Initial(e, states[0]) && k < |events|
    requires id in states[k].sh.jobs && states[k].sh.jobs[id].state != COMPLETED
    requires id in states[k + 1].sh.jobs && states[k + 1].sh.jobs[id].state == COMPLETED
    ensures events[k].Run? && events[k].t == t
    ensures Since(states, events, c, i, t) && Since(states, events, i, w, t) && Since(states, events, w, k, t)
    ensures AtCgroup(states[c].threads[t], id) && Encodes(states[i].threads[t], id) && Describes(states[w].threads[t], id)
    ensures var o := states[k + 1].sh.jobs[id].output;
            && o.artifact.Some? && o.artifact.value.file.data == events[i].ch.bytes
            && o.manifest.Some? && o.manifest.value.outputHash == e.sha(events[i].ch.bytes) && o.manifest.value.outputSize == |events[i].ch.bytes|
  {
    hide Safe, Step, Exclude, Specified, Arrival, KeyUsed, CrashJob, Initial, Edge, AtCgroup, Encodes, Describes, Records, Transcribes, Manifested;
    ExecutionSafe(e, states, events, k);
    assert Next(e, states[k], events[k], states[k + 1]);
    NextMoves(e, states[k], events[k], states[k + 1], id);
    t := SomebodyRuns(e, states[k], events[k], states[k + 1], id);
    StepInv(e, states[k], t);
    var at := CompletesAtRecord(e, states[k].sh, states[k].threads[t], events[k].ch, id);
    w := RecordedAfter(e, states, events, k, t, id);
    i := DescribedAfter(e, states, events, w, t, id);
    EncodesTranscribes(states[i].threads[t], id);
    c := EncodedAfter(e, states, events, i, t, id);
    ManifestTells(e, id, states[k].sh.jobs[id], at, events[i].ch.bytes);
  }

  /* ---- probing ---- */

  predicate Probes(a: Actor, id: JobId) { a.Finalize? && a.jid == id && a.fin.Probe? }
  predicate Probed(a: Actor, id: JobId) { a.Finalize? && a.jid == id && (a.fin.MarkValidated? || a.fin.MarkQueued?) }

  lemma ProbedInner(id: JobId)
    ensures Inner((a: Actor) => Probed(a, id))
  {
  }

  lemma QueuesAtMark(e: Env, sh: Shared, id: JobId, pc: FinPc, ch: Choice)
    requires FinInv(e, sh, id, pc) && id in sh.jobs && id in FinalizeStep(e, sh, id, pc, ch).sh.jobs
    requires sh.jobs[id].state == VALIDATED && FinalizeStep(e, sh, id, pc, ch).sh.jobs[id].state == QUEUED
    ensures Probed(Finalize(id, pc), id)
  {
    hide FailStep, IsOldestQueued, SchedInv;
  }

  lemma ProbedCameFrom(e: Env, sh: Shared, a: Actor, ch: Choice, id: JobId)
    requires Probed(Step(e, sh, a, ch).next, id) && !Probed(a, id)
    ensures Probes(a, id) && ch.ok
  {
    hide SchedStep, FailStep, PutStep, CompleteStep, WorkerStep, AdmitStep, CollectStep, RecoverStep;
    FinalizerStays(e, sh, a, ch);
  }

  lemma QueuedBy(a: Actor, id: JobId, from: JobState)
    requires Edge(a, id, from, QUEUED) && from !in {STARTING, TRANSCODING}
    ensures a.Finalize? && a.jid == id && from == VALIDATED
  {
  }

  lemma FinalizeIs(e: Env, sh: Shared, a: Actor, ch: Choice)
    requires a.Finalize? && ActorInv(e, sh, a)
    ensures Step(e, sh, a, ch) == FinalizeStep(e, sh, a.jid, a.fin, ch) && FinInv(e, sh, a.jid, a.fin)
  {
    hide FinalizeStep, FinInv;
  }

  /** A job is queued only after its input passed the probe: whenever a job other
      than one requeued by a restart turns QUEUED, its finalizer has run a probe
      that accepted it, without a crash since. */
  lemma QueuedWasProbed(e: Env, states: seq<State>, events: seq<Event>, k: nat, id: JobId) returns (i: nat, t: nat)
    requires EnvOk(e) && Execution(e, states, events) && Initial(e, states[0]) && k < |events|
    requires id in states[k].sh.jobs && states[k].sh.jobs[id].state !in {QUEUED, STARTING, TRANSCODING}
    requires id in states[k + 1].sh.jobs && states[k + 1].sh.jobs[id].state == QUEUED
    ensures Since(states, events, i, k, t) && Probes(states[i].threads[t], id)
  {
    hide Safe, Step, Exclude, Specified, Arrival, KeyUsed, CrashJob, Initial, Edge, Probes, Probed, Inner, FinInv, FinalizeStep;
    ExecutionSafe(e, states, events, k);
    assert Next(e, states[k], events[k], states[k + 1]);
    NextMoves(e, states[k], events[k], states[k + 1], id);
    t := SomebodyRuns(e, states[k], events[k], states[k + 1], id);
    StepInv(e, states[k], t);
    var a := states[k].threads[t];
    QueuedBy(a, id, states[k].sh.jobs[id].state);
    FinalizeIs(e, states[k].sh, a, events[k].ch);
    QueuesAtMark(e, states[k].sh, id, a.fin, events[k].ch);
    ProbedInner(id);
    var P := (a: Actor) => Probed(a, id);
    i := Entered(e, states, events, k, t, P);
    ProbedCameFrom(e, states[i].sh, states[i].threads[t], events[i].ch, id);
    SinceEntry(e, states, events, i, k, t, P);
  }

  /* ---- scheduling ---- */

  /** The goroutine has picked the job to start it, or is about to pick one. */
  predicate Starts(a: Actor, id: JobId) {
    || (a.Finalize? && a.fin == FinSchedule(StartJob(id)))
    || (a.Worker? && a.work == WorkSchedule(StartJob(id)))
    || a == Recover(RecSchedule(StartJob(id)))
  }

  predicate Picks(a: Actor) {
    || (a.Finalize? && a.fin == FinSchedule(PickJob))
    || (a.Worker? && a.work == WorkSchedule(PickJob))
    || a == Recover(RecSchedule(PickJob))
  }

  lemma StartsInner(id: JobId)
    ensures Inner((a: Actor) => Starts(a, id))
  {
  }

  /** What the scheduler's query returns. */
  lemma PickMeans(e: Env, sh: Shared, ch: Choice, id: JobId)
    requires SchedStep(e, sh, PickJob, ch).next == Some(StartJob(id))
    ensures id in sh.jobs && sh.jobs[id].state == QUEUED
    ensures forall w :: w in sh.jobs && sh.jobs[w].state == QUEUED ==> e.textKey(sh.jobs[id].created) <= e.textKey(sh.jobs[w].created)
  {
  }

  lemma PicksOnly(e: Env, sh: Shared, q: SchedPc, ch: Choice, id: JobId)
    requires SchedStep(e, sh, q, ch).next == Some(StartJob(id))
    ensures q.PickJob?
  {
    hide IsOldestQueued;
  }

  lemma StartsCameFrom(e: Env, sh: Shared, a: Actor, ch: Choice, id: JobId)
    requires Starts(Step(e, sh, a, ch).next, id)
    ensures Picks(a) && id in sh.jobs && sh.jobs[id].state == QUEUED
    ensures forall w :: w in sh.jobs && sh.jobs[w].state == QUEUED ==> e.textKey(sh.jobs[id].created) <= e.textKey(sh.jobs[w].created)
  {
    hide SchedStep, FailStep, ReleaseStep, GcStep, PutStep, CompleteStep, AdmitStep, CollectStep, ManifestOf, Encoded, WithManifest, Listed, InState, Finalizers;
    var next, q := Step(e, sh, a, ch).next, WaitSched;
    if next.Finalize? {
      FinalizerStays(e, sh, a, ch);
      if a.fin.FinSchedule? { q := a.fin.sched; }
    } else if next.Worker? {
      WorkerStays(e, sh, a, ch);
      if a.work.WorkSchedule? { q := a.work.sched; }
    } else {
      RecoverStays(e, sh, a, ch);
      if a.rec.RecSchedule? { q := a.rec.sched; }
    }
    PicksOnly(e, sh, q, ch, id);
    PickMeans(e, sh, ch, id);
  }

  lemma StartedBy(a: Actor, id: JobId, from: JobState)
    requires Edge(a, id, from, STARTING)
    ensures Starts(a, id)
  {
  }

  /** The oldest first: whenever a job is started, no queued job had been created
      before it when it was picked. */
  lemma StartedWasOldest(e: Env, states: seq<State>, events: seq<Event>, k: nat, id: JobId) returns (i: nat, t: nat)
    requires EnvOk(e) && Execution(e, states, events) && Initial(e, states[0]) && k < |events|
    requires id in states[k].sh.jobs && states[k].sh.jobs[id].state != STARTING
    requires id in states[k + 1].sh.jobs && states[k + 1].sh.jobs[id].state == STARTING
    ensures i < k && events[i].Run? && events[i].t == t && t < |states[i].threads| && Picks(states[i].threads[t])
    ensures id in states[i].sh.jobs && states[i].sh.jobs[id].state == QUEUED
    ensures var sh := states[i].sh;
            forall w :: w in sh.jobs && sh.jobs[w].state == QUEUED ==> e.textKey(sh.jobs[id].created) <= e.textKey(sh.jobs[w].created)
    ensures events[k].Run? && events[k].t == t && forall m :: i < m <= k ==> t < |states[m].threads| && Starts(states[m].threads[t], id)
  {
    hide Safe, Step, Exclude, Specified, Arrival, KeyUsed, CrashJob, Initial, Edge, Starts, Picks, Inner;
    ExecutionSafe(e, states, events, k);
    assert Next(e, states[k], events[k], states[k + 1]);
    NextMoves(e, states[k], events[k], states[k + 1], id);
    t := SomebodyRuns(e, states[k], events[k], states[k + 1], id);
    StartedBy(states[k].threads[t], id, states[k].sh.jobs[id].state);
    StartsInner(id);
    var P := (a: Actor) => Starts(a, id);
    i := Entered(e, states, events, k, t, P);
    StartsCameFrom(e, states[i].sh, states[i].threads[t], events[i].ch, id);
    forall m | i < m <= k ensures t < |states[m].threads| && Starts(states[m].threads[t], id) { assert In(states[m], t, P); }
  }

  /* ---- verified chunks ---- */

  predicate SyncsFile(a: Actor, r: PutReq) { a.Put? && a.req == r && a.put.SyncFile? }
  predicate CommitsFor(a: Actor, r: PutReq) { a.Put? && a.req == r && a.put.Commit? }

  lemma CommitInner(r: PutReq)
    ensures Inner((a: Actor) => CommitsFor(a, r))
  {
  }

  lemma CommitCameFrom(e: Env, sh: Shared, a: Actor, ch: Choice, r: PutReq)
    requires CommitsFor(Step(e, sh, a, ch).next, r)
    ensures SyncsFile(a, r) && ch.ok
  {
    hide FinalizeStep, WorkerStep, CompleteStep, AdmitStep, CollectStep, RecoverStep, Pwrite, ChunkBytes;
    PutStays(e, sh, a, ch);
  }

  lemma RowBy(e: Env, sh: Shared, a: Actor, ch: Choice, id: JobId, n: nat)
    requires ActorInv(e, sh, a) && id in sh.jobs && n !in sh.jobs[id].rows
    requires id in Step(e, sh, a, ch).sh.jobs && n in Step(e, sh, a, ch).sh.jobs[id].rows
    ensures a.Put? && a.req.jid == id && a.req.n == n && CommitsFor(a, a.req)
  {
    hide ActorInv, Step, Edge, SpoolEffect;
    StepEffect(e, sh, a, ch, id);
  }

  /** A chunk is verified only after a sync that succeeded: whenever a chunk gets
      its row, the PUT that inserts it has synced the spool file before. */
  lemma VerifiedWasSynced(e: Env, states: seq<State>, events: seq<Event>, k: nat, id: JobId, n: nat) returns (i: nat, t: nat)
    requires EnvOk(e) && Execution(e, states, events) && Initial(e, states[0]) && k < |events|
    requires id in states[k].sh.jobs && n !in states[k].sh.jobs[id].rows
    requires id in states[k + 1].sh.jobs && n in states[k + 1].sh.jobs[id].rows
    ensures Since(states, events, i, k, t) && states[i].threads[t].Put?
    ensures var r := states[i].threads[t].req; r.jid == id && r.n == n && SyncsFile(states[i].threads[t], r)
  {
    hide Safe, Step, Exclude, Specified, Arrival, KeyUsed, Initial, Inner, CommitsFor, Survives;
    ExecutionSafe(e, states, events, k);
    assert Next(e, states[k], events[k], states[k + 1]);
    assert events[k].Run?;
    t := events[k].t;
    StepInv(e, states[k], t);
    var a := states[k].threads[t];
    RowBy(e, states[k].sh, a, events[k].ch, id, n);
    CommitInner(a.req);
    var P := (b: Actor) => CommitsFor(b, a.req);
    i := Entered(e, states, events, k, t, P);
    CommitCameFrom(e, states[i].sh, states[i].threads[t], events[i].ch, a.req);
    SinceEntry(e, states, events, i, k, t, P);
  }
}
