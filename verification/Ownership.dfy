/** Single ownership: who drives a job that is being processed. */
module Ownership {
  import opened Base
  import opened Files
  import opened Spec
  import opened Jobs
  import opened Engine
  import opened Safety
  import opened SafetyActors
  import opened SafetySystem
  import opened Lifecycle
  import opened Effects

  ghost predicate HasOwner(s: State, id: JobId) {
    exists t :: 0 <= t < |s.threads| && Owns(s.threads[t]) == Some(id)
  }

  /** States a restart drives again, and that only an owner leaves. */
  predicate Resumed(st: JobState) { st in {FINALIZING, STARTING, TRANSCODING} }

  /** Once the main goroutine has started the finalizers, every such job has its goroutine. */
  ghost predicate Driven(s: State) {
    s.threads != [] ==>
      && MainLike(s.threads[0])
      && (!Booting(s.threads[0]) ==> forall id :: id in s.sh.jobs && Resumed(s.sh.jobs[id].state) ==> HasOwner(s, id))
  }

  /* ---- one step ---- */

  /** The step leaves the job with an owner among its own goroutines, or no longer being processed. */
  ghost predicate HandsOver(o: Outcome, id: JobId) {
    || (id in o.sh.jobs && !Owned(o.sh.jobs[id].state))
    || Owns(o.next) == Some(id)
    || exists i :: 0 <= i < |o.spawned| && Owns(o.spawned[i]) == Some(id)
  }

  lemma FinalizeHandsOver(e: Env, sh: Shared, k: JobId, pc: FinPc, ch: Choice, id: JobId)
    requires ActorInv(e, sh, Finalize(k, pc)) && Owns(Finalize(k, pc)) == Some(id)
    ensures HandsOver(FinalizeStep(e, sh, k, pc, ch), id)
  {
    hide RelInv, ReleaseStep;
    var o := FinalizeStep(e, sh, k, pc, ch);
    if pc.FinSchedule? { assert Owns(o.spawned[0]) == Some(id); }
  }

  lemma WorkerHandsOver(e: Env, sh: Shared, k: JobId, pc: WorkPc, ch: Choice, id: JobId)
    requires ActorInv(e, sh, Worker(k, pc)) && Owns(Worker(k, pc)) == Some(id)
    ensures HandsOver(WorkerStep(e, sh, k, pc, ch), id)
  {
    hide RelInv, ReleaseStep, Manifested, ManifestOf;
    var o := WorkerStep(e, sh, k, pc, ch);
    if pc.WorkSchedule? { assert Owns(o.spawned[0]) == Some(id); }
  }

  lemma RecoverHandsOver(e: Env, sh: Shared, pc: RecoverPc, ch: Choice, id: JobId)
    requires ActorInv(e, sh, Recover(pc)) && Owns(Recover(pc)) == Some(id)
    ensures HandsOver(RecoverStep(e, sh, pc, ch), id)
  {
    hide ReadyExcept;
    var o := RecoverStep(e, sh, pc, ch);
    assert Owns(o.spawned[0]) == Some(id);
  }

  /** An owner lets go of its job only when the job is no longer being processed. */
  lemma OwnerHandsOver(e: Env, sh: Shared, a: Actor, ch: Choice, id: JobId)
    requires ActorInv(e, sh, a) && Owns(a) == Some(id)
    ensures HandsOver(Step(e, sh, a, ch), id)
  {
    hide ActorInv, FinalizeStep, WorkerStep, RecoverStep;
    match a
    case Finalize(k, pc) => FinalizeHandsOver(e, sh, k, pc, ch, id);
    case Worker(k, pc) => WorkerHandsOver(e, sh, k, pc, ch, id);
    case Recover(pc) => RecoverHandsOver(e, sh, pc, ch, id);
  }

  lemma StarterOwns(e: Env, sh: Shared, a: Actor, ch: Choice, id: JobId)
    requires ActorInv(e, sh, a) && Starter(a, id)
    ensures Owns(Step(e, sh, a, ch).next) == Some(id)
  {
    hide ReadyExcept, IsOldestQueued;
  }

  lemma CompleteOwns(e: Env, sh: Shared, ch: Choice, id: JobId)
    requires id in sh.jobs && sh.jobs[id].state != FINALIZING
    ensures var o := Step(e, sh, Complete(id, true), ch);
            id in o.sh.jobs && (o.sh.jobs[id].state == FINALIZING ==> HandsOver(o, id))
  {
    var o := Step(e, sh, Complete(id, true), ch);
    if o.sh.jobs[id].state == FINALIZING { assert Owns(o.spawned[0]) == Some(id); }
  }

  /** A job that starts being processed gets its owner in the same step. */
  lemma NewOwnerAppears(e: Env, sh: Shared, a: Actor, ch: Choice, id: JobId)
    requires EnvOk(e) && DbInv(e, sh) && ActorInv(e, sh, a) && id in sh.jobs && !Owned(sh.jobs[id].state)
    ensures HandsOver(Step(e, sh, a, ch), id)
  {
    hide DbInv, ActorInv, Step, Owns, Permit, SpawnOk, NewOwner, Starter, HandsOver;
    StepMoves(e, sh, a, ch, id);
    StepKeeps(e, sh, a, ch);
    var o := Step(e, sh, a, ch);
    var from, to := sh.jobs[id].state, o.sh.jobs[id].state;
    if Owned(to) {
      EntersProcessing(a, id, from, to);
      if a == Complete(id, true) {
        CompleteOwns(e, sh, ch, id);
      } else {
        StarterOwns(e, sh, a, ch, id);
        NextOwns(o, id);
      }
    } else {
      NotProcessed(o, id);
    }
  }

  lemma NextOwns(o: Outcome, id: JobId)
    requires Owns(o.next) == Some(id)
    ensures HandsOver(o, id)
  {
  }

  lemma NotProcessed(o: Outcome, id: JobId)
    requires id in o.sh.jobs && !Owned(o.sh.jobs[id].state)
    ensures HandsOver(o, id)
  {
  }

  lemma EntersProcessing(a: Actor, id: JobId, from: JobState, to: JobState)
    requires Edge(a, id, from, to) && !Owned(from) && Owned(to)
    ensures (a == Complete(id, true) && to == FINALIZING && from != FINALIZING) || (Starter(a, id) && !a.Complete?)
  {
  }

  /* ---- the system ---- */

  /** A job with an owner, or not being processed, has an owner after the step if it is being processed then. */
  lemma OwnerKept(e: Env, s: State, t: nat, ch: Choice, id: JobId)
    requires EnvOk(e) && Safe(e, s) && Enabled(e, s, t, ch)
    requires id in s.sh.jobs && (Owned(s.sh.jobs[id].state) ==> HasOwner(s, id))
    ensures var s' := RunThread(e, s, t, ch);
            id in s'.sh.jobs && (Owned(s'.sh.jobs[id].state) ==> HasOwner(s', id))
  {
    hide DbInv, ActorInv, Compatible2, Step, Owns, HandsOver, Permit, NewOwner, SpawnOk, Exclude;
    var a, o, s' := s.threads[t], Step(e, s.sh, s.threads[t], ch), RunThread(e, s, t, ch);
    StepKeeps(e, s.sh, a, ch);
    if Owned(s.sh.jobs[id].state) {
      var u :| 0 <= u < |s.threads| && Owns(s.threads[u]) == Some(id);
      if u == t {
        OwnerHandsOver(e, s.sh, a, ch, id);
        if Owned(o.sh.jobs[id].state) { HandedOver(s, t, o, id, s'); }
      } else {
        assert s'.threads[u] == s.threads[u];
      }
    } else {
      NewOwnerAppears(e, s.sh, a, ch, id);
      if Owned(o.sh.jobs[id].state) { HandedOver(s, t, o, id, s'); }
    }
  }

  lemma HandedOver(s: State, t: nat, o: Outcome, id: JobId, s': State)
    requires t < |s.threads| && s'.sh == o.sh && s'.threads == s.threads[t := o.next] + o.spawned
    requires HandsOver(o, id) && id in o.sh.jobs && Owned(o.sh.jobs[id].state)
    ensures HasOwner(s', id)
  {
    hide Owns;
    if Owns(o.next) == Some(id) {
      assert s'.threads[t] == o.next;
    } else {
      var i :| 0 <= i < |o.spawned| && Owns(o.spawned[i]) == Some(id);
      assert s'.threads[|s.threads| + i] == o.spawned[i];
    }
  }

  /** The main goroutine leaves its boot phase only through the step that starts the finalizers. */
  lemma BootEnds(e: Env, sh: Shared, a: Actor, ch: Choice)
    requires ActorInv(e, sh, a) && MainLike(a)
    ensures var o := Step(e, sh, a, ch);
            MainLike(o.next) && (Booting(a) && !Booting(o.next) ==> a == Recover(Respawn))
  {
    hide ReadyExcept, GcStep, SchedStep, NextUpload, Listed, InState, Finalizers, GcInv, SchedInv;
    if a.Recover? { UploadsStillBoot(sh, a.rec, ch); }
  }

  lemma UploadsStillBoot(sh: Shared, pc: RecoverPc, ch: Choice)
    ensures forall rest: set<JobId> :: !NextUpload(rest, ch).RecSchedule?
  {
    forall rest: set<JobId> ensures !NextUpload(rest, ch).RecSchedule? { NextBoots(rest, ch); }
  }

  lemma RespawnDrives(e: Env, s: State, t: nat, ch: Choice, id: JobId)
    requires Safe(e, s) && t < |s.threads| && s.threads[t] == Recover(Respawn)
    requires id in s.sh.jobs && Resumed(s.sh.jobs[id].state)
    ensures HasOwner(RunThread(e, s, t, ch), id)
  {
    hide DbInv, Compatible2, ReadyExcept;
    assert ActorInv(e, s.sh, s.threads[t]);
    var ids := Listed<JobId>(InState(s.sh, FINALIZING));
    assert id in ids;
    var i :| 0 <= i < |ids| && ids[i] == id;
    var s' := RunThread(e, s, t, ch);
    assert s'.threads[|s.threads| + i] == Finalize(id, WaitFin);
    assert Owns(s'.threads[|s.threads| + i]) == Some(id);
  }

  lemma RunDriven(e: Env, s: State, t: nat, ch: Choice)
    requires EnvOk(e) && Safe(e, s) && Enabled(e, s, t, ch) && Driven(s)
    ensures Driven(RunThread(e, s, t, ch))
  {
    hide DbInv, ActorInv, Compatible2, Step, Owns, Exclude, HasOwner, Booting;
    var s' := RunThread(e, s, t, ch);
    if t == 0 { BootEnds(e, s.sh, s.threads[0], ch); }
    if !Booting(s'.threads[0]) {
      forall id | id in s'.sh.jobs && Resumed(s'.sh.jobs[id].state) ensures HasOwner(s', id) {
        if Booting(s.threads[0]) {
          RespawnSame(e, s, t, ch);
          RespawnDrives(e, s, t, ch, id);
        } else {
          RunKeys(e, s, t, ch);
          if Owned(s.sh.jobs[id].state) && !Resumed(s.sh.jobs[id].state) {
            StaysAhead(e, s, t, ch, id);
          } else {
            OwnerKept(e, s, t, ch, id);
          }
        }
      }
    }
  }

  lemma RespawnSame(e: Env, s: State, t: nat, ch: Choice)
    requires t < |s.threads| && s.threads[t] == Recover(Respawn)
    ensures RunThread(e, s, t, ch).sh == s.sh
  {
    hide Listed, Finalizers;
  }

  lemma RunKeys(e: Env, s: State, t: nat, ch: Choice)
    requires EnvOk(e) && Safe(e, s) && t < |s.threads|
    ensures RunThread(e, s, t, ch).sh.jobs.Keys == s.sh.jobs.Keys
  {
    hide DbInv, ActorInv, Compatible2, Step, NewOwner, SpawnOk, Permit;
    StepKeeps(e, s.sh, s.threads[t], ch);
  }

  /** From STAGED, PROBING or VALIDATED a job does not go back to a state that a restart resumes. */
  lemma StaysAhead(e: Env, s: State, t: nat, ch: Choice, id: JobId)
    requires EnvOk(e) && Safe(e, s) && t < |s.threads| && id in s.sh.jobs
    requires s.sh.jobs[id].state in {STAGED, PROBING, VALIDATED}
    ensures var s' := RunThread(e, s, t, ch); id in s'.sh.jobs && !Resumed(s'.sh.jobs[id].state)
  {
    hide DbInv, ActorInv, Compatible2, Step;
    RunKeys(e, s, t, ch);
    StepMoves(e, s.sh, s.threads[t], ch, id);
  }

  lemma NextDriven(e: Env, s: State, ev: Event, s': State)
    requires EnvOk(e) && Safe(e, s) && Next(e, s, ev, s') && Driven(s)
    ensures Driven(s')
  {
    hide Safe, RunThread, Enabled, CrashTo, Arrival, KeyUsed, Specified, Owns, HasOwner;
    match ev
    case Run(t, ch) => RunDriven(e, s, t, ch);
    case Create(id, key, req) => AddDriven(s, s', Admit(WaitAdmission));
    case Arrive(a) => AddDriven(s, s', a);
    case _ => SameDriven(s, s');
  }

  lemma AddDriven(s: State, s': State, a: Actor)
    requires Driven(s) && s.threads != [] && s'.threads == s.threads + [a]
    requires forall id :: id in s'.sh.jobs && Resumed(s'.sh.jobs[id].state) ==> id in s.sh.jobs && Resumed(s.sh.jobs[id].state)
    ensures Driven(s')
  {
    hide Owns;
    forall id | id in s'.sh.jobs && Resumed(s'.sh.jobs[id].state) && HasOwner(s, id) ensures HasOwner(s', id) {
      var t :| 0 <= t < |s.threads| && Owns(s.threads[t]) == Some(id);
      assert s'.threads[t] == s.threads[t];
    }
  }

  lemma SameDriven(s: State, s': State)
    requires Driven(s)
    requires (s'.threads == s.threads && s'.sh.jobs == s.sh.jobs) || s'.threads == [] || (|s'.threads| == 1 && Booting(s'.threads[0]))
    ensures Driven(s')
  {
    hide Owns;
    if s'.threads == s.threads && s'.sh.jobs == s.sh.jobs {
      forall id: JobId | HasOwner(s, id) ensures HasOwner(s', id) {
        var t :| 0 <= t < |s.threads| && Owns(s.threads[t]) == Some(id);
        assert Owns(s'.threads[t]) == Some(id);
      }
    }
  }

  lemma {:induction false} ExecutionDriven(e: Env, states: seq<State>, events: seq<Event>, i: nat)
    requires EnvOk(e) && Execution(e, states, events) && Initial(e, states[0]) && i <= |events|
    ensures Driven(states[i]) && Safe(e, states[i])
  {
    hide Safe, Next, Booting, Resumed;
    ExecutionSafe(e, states, events, i);
    if i > 0 {
      ExecutionDriven(e, states, events, i - 1);
      assert Next(e, states[i - 1], events[i - 1], states[i - 1 + 1]);
      NextDriven(e, states[i - 1], events[i - 1], states[i]);
    }
  }

  /** Single ownership: in every reachable state no job has two owners; once the
      service has finished booting, every job in FINALIZING, STARTING or
      TRANSCODING has exactly one. */
  lemma SingleOwner(e: Env, s: State, id: JobId)
    requires EnvOk(e) && Reachable(e, s)
    ensures forall t, u :: 0 <= t < |s.threads| && 0 <= u < |s.threads| && Owns(s.threads[t]) == Some(id) && Owns(s.threads[u]) == Some(id) ==> t == u
    ensures s.threads != [] && !Booting(s.threads[0]) && id in s.sh.jobs && Resumed(s.sh.jobs[id].state) ==> HasOwner(s, id)
  {
    hide DbInv, ActorInv, Owns, Next, Held, Initial, Booting;
    var states, events :| Execution(e, states, events) && Initial(e, states[0]) && states[|states| - 1] == s;
    ExecutionDriven(e, states, events, |events|);
    forall t, u | 0 <= t < |s.threads| && 0 <= u < |s.threads|
              && Owns(s.threads[t]) == Some(id) && Owns(s.threads[u]) == Some(id) ensures t == u {
      assert t != u ==> Compatible2(e, s.threads[t], s.threads[u]);
    }
  }

  /** The two UPDATEs of a worker that carry no state guard do what the guarded
      ones would do, and the worker is the job's only owner. */
  lemma UnguardedUpdates(e: Env, s: State, t: nat, ch: Choice)
    requires EnvOk(e) && Reachable(e, s) && t < |s.threads| && s.threads[t].Worker?
    requires s.threads[t].work.MarkTranscoding? || s.threads[t].work.Record?
    ensures var id, pc := s.threads[t].jid, s.threads[t].work;
            var sh' := RunThread(e, s, t, ch).sh;
            && id in s.sh.jobs && id in sh'.jobs
            && (pc.MarkTranscoding? ==> sh'.jobs[id] == Advance(s.sh.jobs[id], STARTING, TRANSCODING) && s.sh.jobs[id].state == STARTING)
            && (pc.Record? ==> sh'.jobs[id] == MarkCompleted(s.sh.jobs[id], pc.at) && s.sh.jobs[id].state == TRANSCODING)
    ensures forall u :: 0 <= u < |s.threads| && u != t ==> Owns(s.threads[u]) != Some(s.threads[t].jid)
  {
    hide DbInv, Reachable, Held, Manifested, ManifestOf;
    ReachableSafe(e, s);
    assert ActorInv(e, s.sh, s.threads[t]);
    assert Owns(s.threads[t]) == Some(s.threads[t].jid);
    forall u | 0 <= u < |s.threads| && u != t ensures Owns(s.threads[u]) != Some(s.threads[t].jid) {
      assert Compatible2(e, s.threads[t], s.threads[u]);
    }
  }
}
