/** The scheduler loses no wake-up: a queued job and a free slot never coexist
    without a schedule call pending or running. */
module Scheduler {
  import opened Base
  import opened Files
  import opened Spec
  import opened Jobs
  import opened Engine
  import opened Safety
  import opened SafetyActors
  import opened SafetySystem
  import opened Lifecycle
  import opened Effects
  import opened Ownership
  import opened Capacity

  /** A goroutine that will still look for queued jobs. */
  predicate WillSchedule(a: Actor) {
    match a
    case Finalize(_, pc) => pc.FinSchedule?
    case Worker(_, pc) => pc.WorkSchedule?
    case Recover(_) => true
    case _ => false
  }

  ghost predicate SchedulePending(s: State) {
    exists t :: 0 <= t < |s.threads| && WillSchedule(s.threads[t])
  }

  /** Nothing for a scheduler to do: no slot, or nothing queued. */
  ghost predicate Saturated(sh: Shared) {
    sh.sem >= sh.cfg.active || forall id :: id in sh.jobs ==> sh.jobs[id].state != QUEUED
  }

  ghost predicate WorkConserving(s: State) {
    s.threads != [] ==> SchedulePending(s) || Saturated(s.sh)
  }

  /** A nonempty finite set of jobs has a member whose key is least. */
  lemma {:induction false} LeastKey(ids: set<JobId>, key: JobId -> int) returns (m: JobId)
    requires ids != {}
    ensures m in ids && forall k :: k in ids ==> key(m) <= key(k)
    decreases |ids|
  {
    m :| m in ids;
    if ids != {m} {
      var rest := ids - {m};
      assert ids == rest + {m};
      var n := LeastKey(rest, key);
      if key(n) < key(m) { m := n; }
    }
  }

  /** If anything is queued, the scheduler's query finds a row. */
  lemma OldestExists(e: Env, sh: Shared, id: JobId)
    requires id in sh.jobs && sh.jobs[id].state == QUEUED
    ensures exists k :: IsOldestQueued(e, sh, k)
  {
    var key := (k: JobId) => if k in sh.jobs then e.textKey(sh.jobs[k].created) else 0;
    assert id in InState(sh, QUEUED);
    var m := LeastKey(InState(sh, QUEUED), key);
    forall k | k in sh.jobs && sh.jobs[k].state == QUEUED
      ensures e.textKey(sh.jobs[m].created) <= e.textKey(sh.jobs[k].created)
    {
      assert k in InState(sh, QUEUED);
      assert key(m) <= key(k);
    }
    assert IsOldestQueued(e, sh, m);
  }

  /** A schedule call ends only when there is nothing left for it to do. */
  lemma ScheduleEnds(e: Env, sh: Shared, q: SchedPc, ch: Choice)
    ensures var o := SchedStep(e, sh, q, ch); o.next.None? ==> Saturated(o.sh)
  {
    hide IsOldestQueued;
    if q.PickJob? {
      forall id | id in sh.jobs && sh.jobs[id].state == QUEUED ensures exists k :: IsOldestQueued(e, sh, k) {
        OldestExists(e, sh, id);
      }
    }
  }

  lemma PendingEnds(e: Env, sh: Shared, a: Actor, ch: Choice)
    requires ActorInv(e, sh, a) && WillSchedule(a)
    ensures var o := Step(e, sh, a, ch); WillSchedule(o.next) || Saturated(o.sh)
  {
    hide SchedStep, Saturated, RecInv, SchedInv;
    match a
    case Finalize(id, pc) => ScheduleEnds(e, sh, pc.sched, ch);
    case Worker(id, pc) => ScheduleEnds(e, sh, pc.sched, ch);
    case Recover(pc) => RecoverPending(e, sh, pc, ch);
  }

  lemma RecoverPending(e: Env, sh: Shared, pc: RecoverPc, ch: Choice)
    requires RecInv(sh, pc)
    ensures var o := RecoverStep(e, sh, pc, ch); o.next.Recover? || Saturated(o.sh)
  {
    hide SchedStep, GcStep, Saturated, NextUpload, NextSpool, Listed, InState, Finalizers, ReadyExcept, SchedInv;
    if pc.RecSchedule? { ScheduleEnds(e, sh, pc.sched, ch); }
  }

  /** What takes a job into the queue, or a worker out of its slot, then schedules. */
  lemma StaysSaturated(e: Env, sh: Shared, a: Actor, ch: Choice)
    requires EnvOk(e) && DbInv(e, sh) && ActorInv(e, sh, a) && Saturated(sh) && SlotOf(a) <= sh.sem
    ensures var o := Step(e, sh, a, ch); WillSchedule(o.next) || Saturated(o.sh)
  {
    hide DbInv, ActorInv, Step, Edge, SlotsBalanced, Permit, SpawnOk, NewOwner;
    var o := Step(e, sh, a, ch);
    StepKeeps(e, sh, a, ch);
    StepSlots(e, sh, a, ch);
    if sh.sem >= sh.cfg.active {
      SlotsMove(sh, a, o);
      if SlotOf(o.next) < SlotOf(a) { SlotFreed(e, sh, a, ch); }
    } else {
      forall id | id in o.sh.jobs && o.sh.jobs[id].state == QUEUED ensures WillSchedule(o.next) {
        StepMoves(e, sh, a, ch, id);
        QueuedSchedules(e, sh, a, ch, id);
      }
    }
  }

  lemma SlotsMove(sh: Shared, a: Actor, o: Outcome)
    requires SlotsBalanced(sh, a, o)
    ensures o.sh.cfg == sh.cfg && (o.sh.sem < sh.sem ==> SlotOf(o.next) < SlotOf(a))
  {
  }

  lemma SlotFreed(e: Env, sh: Shared, a: Actor, ch: Choice)
    requires SlotOf(Step(e, sh, a, ch).next) < SlotOf(a) && ActorInv(e, sh, a)
    ensures WillSchedule(Step(e, sh, a, ch).next)
  {
    hide SchedStep, FailStep, ReleaseStep, ManifestOf, Manifested;
  }

  lemma QueuedSchedules(e: Env, sh: Shared, a: Actor, ch: Choice, id: JobId)
    requires id in sh.jobs && id in Step(e, sh, a, ch).sh.jobs && ActorInv(e, sh, a)
    requires Edge(a, id, sh.jobs[id].state, QUEUED) && Step(e, sh, a, ch).sh.jobs[id].state == QUEUED
    ensures WillSchedule(Step(e, sh, a, ch).next)
  {
    hide SchedStep, FailStep, RelInv, ReadyExcept;
    if a.Finalize? { FinalizeQueues(e, sh, id, a.fin, ch); }
  }

  lemma FinalizeQueues(e: Env, sh: Shared, id: JobId, pc: FinPc, ch: Choice)
    requires id in sh.jobs && ActorInv(e, sh, Finalize(id, pc)) && sh.jobs[id].state == VALIDATED
    requires id in FinalizeStep(e, sh, id, pc, ch).sh.jobs && FinalizeStep(e, sh, id, pc, ch).sh.jobs[id].state == QUEUED
    ensures WillSchedule(FinalizeStep(e, sh, id, pc, ch).next)
  {
    hide FailStep, RelInv, ReadyExcept;
  }

  lemma RunWorkConserving(e: Env, s: State, t: nat, ch: Choice)
    requires EnvOk(e) && Safe(e, s) && Enabled(e, s, t, ch) && WorkConserving(s) && SlotsCounted(s)
    ensures WorkConserving(RunThread(e, s, t, ch))
  {
    hide DbInv, ActorInv, Compatible2, Step, Exclude, WillSchedule, Saturated, SumSeq;
    var a, o, s' := s.threads[t], Step(e, s.sh, s.threads[t], ch), RunThread(e, s, t, ch);
    SumSeqAtLeast(s.threads, t, SlotOf);
    assert s'.threads[t] == o.next;
    if Saturated(s.sh) {
      StaysSaturated(e, s.sh, a, ch);
    } else {
      var u :| 0 <= u < |s.threads| && WillSchedule(s.threads[u]);
      if u == t { PendingEnds(e, s.sh, a, ch); } else { assert s'.threads[u] == s.threads[u]; }
    }
  }

  lemma NextWorkConserving(e: Env, s: State, ev: Event, s': State)
    requires EnvOk(e) && Safe(e, s) && Next(e, s, ev, s') && WorkConserving(s) && SlotsCounted(s)
    ensures WorkConserving(s')
  {
    hide Safe, RunThread, Enabled, CrashTo, Arrival, KeyUsed, Specified, SlotsCounted, WillSchedule;
    match ev
    case Run(t, ch) => RunWorkConserving(e, s, t, ch);
    case Create(id, key, req) => AddWorkConserving(s, s');
    case Arrive(a) => AddWorkConserving(s, s');
    case Restart(cfg) => assert WillSchedule(s'.threads[0]) by { Restarts(s'.threads[0]); }
    case Tick(_) => AddWorkConserving(s, s');
    case Crash(_) =>
  }

  lemma Restarts(a: Actor)
    requires a.Recover?
    ensures WillSchedule(a)
  {
  }

  lemma AddWorkConserving(s: State, s': State)
    requires WorkConserving(s) && s.threads <= s'.threads && s'.sh.sem == s.sh.sem && s'.sh.cfg == s.sh.cfg
    requires s.threads == [] ==> s'.threads == []
    requires forall id :: id in s'.sh.jobs && s'.sh.jobs[id].state == QUEUED ==> id in s.sh.jobs && s.sh.jobs[id].state == QUEUED
    ensures WorkConserving(s')
  {
    hide WillSchedule;
    if SchedulePending(s) {
      var t :| 0 <= t < |s.threads| && WillSchedule(s.threads[t]);
      assert s'.threads[t] == s.threads[t];
    }
  }

  lemma {:induction false} ExecutionWorkConserving(e: Env, states: seq<State>, events: seq<Event>, i: nat)
    requires EnvOk(e) && Execution(e, states, events) && Initial(e, states[0]) && i <= |events|
    ensures WorkConserving(states[i])
  {
    hide Safe, Next, SlotsCounted, Conserved;
    if i > 0 {
      ExecutionWorkConserving(e, states, events, i - 1);
      ExecutionConserved(e, states, events, i - 1);
      ExecutionSafe(e, states, events, i - 1);
      assert Next(e, states[i - 1], events[i - 1], states[i - 1 + 1]);
      NextWorkConserving(e, states[i - 1], events[i - 1], states[i]);
    }
  }

  /** Quiescence is work-conserving: when no schedule call is pending or running,
      either nothing is queued or every slot has a live worker. */
  lemma NoLostWakeup(e: Env, s: State)
    requires EnvOk(e) && Reachable(e, s) && s.threads != []
    requires forall t :: 0 <= t < |s.threads| ==> !WillSchedule(s.threads[t])
    ensures SumSeq(s.threads, SlotOf) == s.sh.cfg.active || forall id :: id in s.sh.jobs ==> s.sh.jobs[id].state != QUEUED
  {
    hide Safe, Next, Initial, WillSchedule, SumSeq, Conserved, SlotsCounted;
    WorkersBounded(e, s);
    var states, events :| Execution(e, states, events) && Initial(e, states[0]) && states[|states| - 1] == s;
    ExecutionWorkConserving(e, states, events, |events|);
  }
}
