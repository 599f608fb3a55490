/** Conservation: the capacity row equals what the jobs hold, plus the releases
    in flight, plus what crashed releases leaked; and the worker semaphore
    equals the live workers. */
module Capacity {
  import opened Base
  import opened Files
  import opened Spec
  import opened Jobs
  import opened Engine
  import opened Safety
  import opened SafetySteps
  import opened SafetyActors
  import opened SafetySystem

  ghost function JobsHold(sh: Shared): nat { SumMap<JobId, Job>(sh.jobs, ReservedOf) }

  ghost predicate Conserved(s: State) {
    s.sh.reserved == JobsHold(s.sh) + SumSeq(s.threads, Floating) + s.leaked
  }

  /** One for an actor that occupies a worker slot. */
  function SlotOf(a: Actor): nat { if a.Worker? && !a.work.WorkSchedule? then 1 else 0 }

  ghost predicate SlotsCounted(s: State) {
    s.sh.sem == SumSeq(s.threads, SlotOf) && (s.threads != [] ==> s.sh.sem <= s.sh.cfg.active)
  }

  /* ---- one step ---- */

  /** The books of one step: what the actor and the jobs gain, the capacity row gains. */
  ghost predicate Balanced(sh: Shared, a: Actor, o: Outcome) {
    o.sh.reserved + JobsHold(sh) + Floating(a) == sh.reserved + JobsHold(o.sh) + Floating(o.next)
  }

  ghost predicate SameReserved(sh: Shared, sh': Shared) {
    && sh'.jobs.Keys == sh.jobs.Keys && sh'.reserved == sh.reserved
    && forall id :: id in sh.jobs ==> sh'.jobs[id].reserved == sh.jobs[id].reserved
  }

  lemma SameHold(sh: Shared, sh': Shared)
    requires SameReserved(sh, sh')
    ensures JobsHold(sh') == JobsHold(sh)
  {
    SumMapSame<JobId, Job>(sh.jobs, sh'.jobs, ReservedOf);
  }

  lemma ChangedHold(sh: Shared, id: JobId, j: Job, sh': Shared)
    requires id in sh.jobs && sh'.jobs == sh.jobs[id := j]
    ensures JobsHold(sh') + sh.jobs[id].reserved == JobsHold(sh) + j.reserved
    ensures sh.jobs[id].reserved <= JobsHold(sh)
  {
    SumMapUpdate<JobId, Job>(sh.jobs, id, j, ReservedOf);
    SumMapRemove<JobId, Job>(sh.jobs, id, ReservedOf);
  }

  function FloatingRelOpt(r: Option<RelPc>): nat { if r.Some? then FloatingRel(r.value) else 0 }
  function FloatingFailOpt(f: Option<FailPc>): nat { if f.Some? then FloatingFail(f.value) else 0 }

  lemma ReleaseBalanced(sh: Shared, id: JobId, r: RelPc)
    requires id in sh.jobs && JobsHold(sh) + FloatingRel(r) <= sh.reserved
    ensures var o := ReleaseStep(sh, id, r);
            o.sh.reserved + JobsHold(sh) + FloatingRel(r) == sh.reserved + JobsHold(o.sh) + FloatingRelOpt(o.next)
  {
    var o := ReleaseStep(sh, id, r);
    match r
    case ZeroRow(x) =>
      if sh.jobs[id].reserved == x { ChangedHold(sh, id, ZeroReserved(sh.jobs[id], x), o.sh); }
    case FreeCapacity(x) =>
    case DropLedger => ChangedHold(sh, id, sh.jobs[id].(ledger := None), o.sh);
  }

  lemma FailBalanced(sh: Shared, id: JobId, f: FailPc)
    requires id in sh.jobs && JobsHold(sh) + FloatingFail(f) <= sh.reserved
    ensures var o := FailStep(sh, id, f);
            o.sh.reserved + JobsHold(sh) + FloatingFail(f) == sh.reserved + JobsHold(o.sh) + FloatingFailOpt(o.next)
  {
    hide ReleaseStep, JobsHold;
    var o := FailStep(sh, id, f);
    match f
    case FailRelease(r) => ReleaseBalanced(sh, id, r);
    case FailMark => ChangedHold(sh, id, MarkFailed(sh.jobs[id], sh.clock), o.sh);
    case FailClean => ChangedHold(sh, id, RemoveSpool(sh.jobs[id]), o.sh);
    case FailLoad =>
  }

  lemma GcBalanced(sh: Shared, g: GcPc, ch: Choice)
    requires JobsHold(sh) <= sh.reserved
    ensures GcStep(sh, g, ch).sh.reserved + JobsHold(sh) == sh.reserved + JobsHold(GcStep(sh, g, ch).sh)
  {
    hide JobsHold;
    var o := GcStep(sh, g, ch);
    match g
    case ExpireJob(now, id, rest) =>
      if id in sh.jobs && Expirable(sh.jobs[id], now) { ChangedHold(sh, id, Expire(sh.jobs[id], now), o.sh); }
    case SweepJob(now, id, rest) =>
      if id in sh.jobs { ChangedHold(sh, id, RemoveSpool(sh.jobs[id]), o.sh); }
    case _ =>
  }

  lemma SchedSame(e: Env, sh: Shared, q: SchedPc, ch: Choice)
    ensures SameReserved(sh, SchedStep(e, sh, q, ch).sh)
  {
    hide IsOldestQueued;
  }

  lemma PutSame(e: Env, sh: Shared, r: PutReq, pc: PutPc, ch: Choice)
    ensures SameReserved(sh, PutStep(e, sh, r, pc, ch).sh) && Floating(PutStep(e, sh, r, pc, ch).next) == 0
  {
    hide Pwrite;
  }

  lemma FinalizeBalanced(e: Env, sh: Shared, id: JobId, pc: FinPc, ch: Choice)
    requires ActorInv(e, sh, Finalize(id, pc)) && JobsHold(sh) + Floating(Finalize(id, pc)) <= sh.reserved
    ensures Balanced(sh, Finalize(id, pc), FinalizeStep(e, sh, id, pc, ch))
  {
    hide JobsHold, FailStep, SchedStep, SchedInv, RelInv;
    var o := FinalizeStep(e, sh, id, pc, ch);
    match pc
    case FinSchedule(q) =>
      SchedSame(e, sh, q, ch);
      SameHold(sh, o.sh);
    case FinFail(f) => FailBalanced(sh, id, f);
    case _ => SameHold(sh, o.sh);
  }

  /** Outside its routines a worker leaves the books alone. */
  lemma WorkerSame(e: Env, sh: Shared, id: JobId, pc: WorkPc, ch: Choice)
    requires !pc.WorkSchedule? && !pc.WorkFail? && !pc.WorkRelease? && Floating(Worker(id, pc)) == 0
    ensures SameReserved(sh, WorkerStep(e, sh, id, pc, ch).sh) && Floating(WorkerStep(e, sh, id, pc, ch).next) == 0
  {
    hide ManifestOf;
  }

  lemma WorkerBalanced(e: Env, sh: Shared, id: JobId, pc: WorkPc, ch: Choice)
    requires ActorInv(e, sh, Worker(id, pc)) && JobsHold(sh) + Floating(Worker(id, pc)) <= sh.reserved
    ensures Balanced(sh, Worker(id, pc), WorkerStep(e, sh, id, pc, ch))
  {
    hide JobsHold, FailStep, SchedStep, ReleaseStep, SchedInv, RelInv, Manifested, Encoded, WithManifest;
    var o := WorkerStep(e, sh, id, pc, ch);
    match pc
    case WorkSchedule(q) =>
      SchedSame(e, sh, q, ch);
      SameHold(sh, o.sh);
    case WorkFail(f) => FailBalanced(sh, id, f);
    case WorkRelease(r) => ReleaseBalanced(sh, id, r);
    case _ =>
      WorkerSame(e, sh, id, pc, ch);
      SameHold(sh, o.sh);
  }

  lemma AdmitBalanced(e: Env, sh: Shared, pc: AdmitPc, ch: Choice)
    requires ActorInv(e, sh, Admit(pc)) && JobsHold(sh) + Floating(Admit(pc)) <= sh.reserved
    ensures Balanced(sh, Admit(pc), AdmitStep(e, sh, pc, ch))
  {
    hide JobsHold, FailStep, IsHead, Ready, RelInv, Truncate;
    var o := AdmitStep(e, sh, pc, ch);
    match pc
    case ReserveHead(id) =>
      if o.sh.jobs == sh.jobs[id := Reserve(sh.jobs[id])] { ChangedHold(sh, id, Reserve(sh.jobs[id]), o.sh); }
      else { SameHold(sh, o.sh); }
    case AdmitFail(id, f) => FailBalanced(sh, id, f);
    case _ => SameHold(sh, o.sh);
  }

  lemma RecoverBalanced(e: Env, sh: Shared, pc: RecoverPc, ch: Choice)
    requires JobsHold(sh) <= sh.reserved
    ensures Balanced(sh, Recover(pc), RecoverStep(e, sh, pc, ch))
  {
    hide JobsHold, GcStep, SchedStep, Listed, NextUpload, NextSpool, InState, Finalizers;
    var o := RecoverStep(e, sh, pc, ch);
    match pc
    case Expiring(g) => GcBalanced(sh, g, ch);
    case RecSchedule(q) =>
      SchedSame(e, sh, q, ch);
      SameHold(sh, o.sh);
    case Reject(id, rest) =>
      if id in sh.jobs && Accepting(sh.jobs[id].state) { ChangedHold(sh, id, RejectUpload(sh.jobs[id], sh.clock), o.sh); }
    case _ => SameHold(sh, o.sh);
  }

  lemma CompleteBalanced(e: Env, sh: Shared, a: Actor, ch: Choice)
    requires (a.Complete? || a.Collect? || a.Done? || a.Serving?) && JobsHold(sh) <= sh.reserved
    ensures Balanced(sh, a, Step(e, sh, a, ch))
  {
    hide JobsHold, GcStep;
    match a
    case Collect(g) => GcBalanced(sh, g, ch);
    case _ => SameHold(sh, Step(e, sh, a, ch).sh);
  }

  lemma StepBalanced(e: Env, sh: Shared, a: Actor, ch: Choice)
    requires ActorInv(e, sh, a) && JobsHold(sh) + Floating(a) <= sh.reserved
    ensures Balanced(sh, a, Step(e, sh, a, ch))
  {
    hide JobsHold, ActorInv, PutStep, CompleteStep, FinalizeStep, WorkerStep, AdmitStep, RecoverStep, CollectStep;
    match a
    case Put(r, pc) =>
      PutSame(e, sh, r, pc, ch);
      SameHold(sh, PutStep(e, sh, r, pc, ch).sh);
    case Finalize(id, pc) => FinalizeBalanced(e, sh, id, pc, ch);
    case Worker(id, pc) => WorkerBalanced(e, sh, id, pc, ch);
    case Admit(pc) => AdmitBalanced(e, sh, pc, ch);
    case Recover(pc) => RecoverBalanced(e, sh, pc, ch);
    case _ => CompleteBalanced(e, sh, a, ch);
  }

  /* ---- worker slots ---- */

  /** One step takes a slot for the worker it starts, or moves none but its own. */
  ghost predicate SlotsBalanced(sh: Shared, a: Actor, o: Outcome) {
    && o.sh.cfg == sh.cfg
    && if |o.spawned| == 1 && o.spawned[0].Worker? then
         SlotOf(o.spawned[0]) == 1 && o.sh.sem + SlotOf(a) == sh.sem + 1 + SlotOf(o.next) && o.sh.sem <= sh.cfg.active
       else
         && o.sh.sem + SlotOf(a) == sh.sem + SlotOf(o.next) && o.sh.sem <= sh.sem
         && forall i :: 0 <= i < |o.spawned| ==> SlotOf(o.spawned[i]) == 0
  }

  ghost predicate NoSlots<T>(sh: Shared, o: Sub<T>) {
    o.sh.sem == sh.sem && o.sh.cfg == sh.cfg && (o.spawned == [] || o.spawned == [Admit(WaitAdmission)])
  }

  lemma RoutineSlots(sh: Shared, id: JobId, r: RelPc, f: FailPc)
    ensures NoSlots(sh, ReleaseStep(sh, id, r)) && NoSlots(sh, FailStep(sh, id, f))
  {
  }

  lemma GcSlots(sh: Shared, g: GcPc, ch: Choice)
    ensures NoSlots(sh, GcStep(sh, g, ch))
  {
  }

  lemma SchedSlots(e: Env, sh: Shared, q: SchedPc, ch: Choice)
    ensures var o := SchedStep(e, sh, q, ch);
            && o.sh.cfg == sh.cfg
            && ((o.sh.sem == sh.sem && o.spawned == [])
                || (o.sh.sem == sh.sem + 1 <= sh.cfg.active && |o.spawned| == 1 && o.spawned[0].Worker? && o.spawned[0].work.Load?))
  {
    hide IsOldestQueued;
  }

  lemma ActorSlots(e: Env, sh: Shared, a: Actor, ch: Choice)
    requires SlotOf(a) <= sh.sem && !a.Admit? && !a.Recover? && !a.Put?
    ensures SlotsBalanced(sh, a, Step(e, sh, a, ch))
  {
    hide ReleaseStep, FailStep, GcStep, SchedStep, ManifestOf;
    match a
    case Finalize(id, FinSchedule(q)) => SchedSlots(e, sh, q, ch);
    case Finalize(id, FinFail(f)) => RoutineSlots(sh, id, DropLedger, f);
    case Worker(id, WorkSchedule(q)) => SchedSlots(e, sh, q, ch);
    case Worker(id, WorkFail(f)) => RoutineSlots(sh, id, DropLedger, f);
    case Worker(id, WorkRelease(r)) => RoutineSlots(sh, id, r, FailMark);
    case Collect(g) => GcSlots(sh, g, ch);
    case _ =>
  }

  lemma RecoverSlots(e: Env, sh: Shared, pc: RecoverPc, ch: Choice)
    ensures SlotsBalanced(sh, Recover(pc), RecoverStep(e, sh, pc, ch))
  {
    hide GcStep, SchedStep, Listed, InState, NextUpload, NextSpool;
    match pc
    case Expiring(g) => GcSlots(sh, g, ch);
    case RecSchedule(q) => SchedSlots(e, sh, q, ch);
    case _ =>
  }

  lemma AdmitSlots(e: Env, sh: Shared, pc: AdmitPc, ch: Choice)
    ensures SlotsBalanced(sh, Admit(pc), AdmitStep(e, sh, pc, ch))
  {
    hide FailStep, IsHead, Truncate;
    if pc.AdmitFail? { RoutineSlots(sh, pc.head, DropLedger, pc.fail); }
  }

  lemma PutSlots(e: Env, sh: Shared, r: PutReq, pc: PutPc, ch: Choice)
    ensures SlotsBalanced(sh, Put(r, pc), PutStep(e, sh, r, pc, ch))
  {
    hide Pwrite;
  }

  lemma StepSlots(e: Env, sh: Shared, a: Actor, ch: Choice)
    requires SlotOf(a) <= sh.sem
    ensures SlotsBalanced(sh, a, Step(e, sh, a, ch))
  {
    hide SlotsBalanced, PutStep, FinalizeStep, WorkerStep, AdmitStep, RecoverStep, CollectStep, CompleteStep;
    match a
    case Put(r, pc) => PutSlots(e, sh, r, pc, ch);
    case Admit(pc) => AdmitSlots(e, sh, pc, ch);
    case Recover(pc) => RecoverSlots(e, sh, pc, ch);
    case _ => ActorSlots(e, sh, a, ch);
  }

  lemma SpawnedSlots(sh: Shared, a: Actor, o: Outcome)
    requires SlotsBalanced(sh, a, o)
    ensures o.sh.sem + SlotOf(a) == sh.sem + SumSeq(o.spawned, SlotOf) + SlotOf(o.next)
  {
    if |o.spawned| == 1 && o.spawned[0].Worker? {
      assert o.spawned == [o.spawned[0]];
    } else {
      SumSeqZero(o.spawned, SlotOf);
    }
  }

  /** Nothing a step starts has capacity in flight. */
  lemma SpawnedFloat(e: Env, sh: Shared, a: Actor, ch: Choice)
    requires StepOk(e, sh, a, Step(e, sh, a, ch))
    ensures SumSeq(Step(e, sh, a, ch).spawned, Floating) == 0
  {
    hide DbInv, ActorInv, Permitted, NewOwner, Step, Owns;
    var o := Step(e, sh, a, ch);
    forall i | 0 <= i < |o.spawned| ensures Floating(o.spawned[i]) == 0 {
      assert SpawnOk(e, sh, a, o, o.spawned[i]);
      HoldsNothing(e, o.spawned[i]);
    }
    SumSeqZero(o.spawned, Floating);
  }

  lemma HoldsNothing(e: Env, b: Actor)
    requires Held(e, b) == {} && (b.Finalize? || b.Admit? || (b.Worker? && b.work.Load?))
    ensures Floating(b) == 0
  {
    match b
    case Finalize(id, pc) => assert !pc.WaitFin? ==> LifeWrite(e.lifeStripe(id)) in Held(e, b);
    case Admit(pc) => assert !pc.WaitAdmission? ==> AdmissionLock in Held(e, b);
    case _ =>
  }

  /* ---- the system ---- */

  lemma ThreadSums(s: State, t: nat, n: Actor, spawned: seq<Actor>, f: Actor -> nat)
    requires t < |s.threads|
    ensures SumSeq(s.threads[t := n] + spawned, f) + f(s.threads[t]) == SumSeq(s.threads, f) + f(n) + SumSeq(spawned, f)
    ensures f(s.threads[t]) <= SumSeq(s.threads, f)
  {
    SumSeqAppend(s.threads[t := n], spawned, f);
    SumSeqUpdate(s.threads, t, n, f);
    SumSeqAtLeast(s.threads, t, f);
  }

  lemma RunConserved(e: Env, s: State, t: nat, ch: Choice)
    requires EnvOk(e) && Safe(e, s) && Enabled(e, s, t, ch) && Conserved(s) && SlotsCounted(s)
    ensures Conserved(RunThread(e, s, t, ch)) && SlotsCounted(RunThread(e, s, t, ch))
  {
    hide DbInv, ActorInv, Compatible2, Step, StepOk, Held, SumSeq, JobsHold, SlotsBalanced;
    var a := s.threads[t];
    var o := Step(e, s.sh, a, ch);
    StepKeeps(e, s.sh, a, ch);
    ThreadSums(s, t, o.next, o.spawned, Floating);
    ThreadSums(s, t, o.next, o.spawned, SlotOf);
    SpawnedFloat(e, s.sh, a, ch);
    StepBalanced(e, s.sh, a, ch);
    StepSlots(e, s.sh, a, ch);
    SpawnedSlots(s.sh, a, o);
    SlotBound(s.sh, a, o);
  }

  lemma SlotBound(sh: Shared, a: Actor, o: Outcome)
    requires SlotsBalanced(sh, a, o) && sh.sem <= sh.cfg.active
    ensures o.sh.sem <= o.sh.cfg.active
  {
  }

  lemma AddOne(threads: seq<Actor>, a: Actor, f: Actor -> nat)
    ensures SumSeq(threads + [a], f) == SumSeq(threads, f) + f(a)
  {
    SumSeqAppend(threads, [a], f);
    assert [a][1..] == [];
  }

  lemma NextConserved(e: Env, s: State, ev: Event, s': State)
    requires EnvOk(e) && Safe(e, s) && Next(e, s, ev, s') && Conserved(s) && SlotsCounted(s)
    ensures Conserved(s') && SlotsCounted(s')
  {
    hide Safe, RunThread, Enabled, SumSeq, KeyUsed, Specified, CrashJob;
    match ev
    case Run(t, ch) => RunConserved(e, s, t, ch);
    case Create(id, key, req) =>
      SumMapInsert<JobId, Job>(s.sh.jobs, id, s'.sh.jobs[id], ReservedOf);
      AddOne(s.threads, Admit(WaitAdmission), Floating);
      AddOne(s.threads, Admit(WaitAdmission), SlotOf);
    case Arrive(a) =>
      AddOne(s.threads, a, Floating);
      AddOne(s.threads, a, SlotOf);
    case Crash(after) =>
      CrashReserved(s, after);
      SumMapSame<JobId, Job>(s.sh.jobs, after, ReservedOf);
      SumSeqZero(s'.threads, Floating);
      SumSeqZero(s'.threads, SlotOf);
    case Restart(cfg) =>
      BootIdle(s.sh.clock);
      SumSeqZero<Actor>([], SlotOf);
      AddOne([], Recover(Expiring(WaitGc(s.sh.clock))), Floating);
      AddOne([], Recover(Expiring(WaitGc(s.sh.clock))), SlotOf);
      assert [] + s'.threads == s'.threads;
    case Tick(_) =>
  }

  lemma CrashReserved(s: State, after: map<JobId, Job>)
    requires CrashTo(s, after)
    ensures after.Keys == s.sh.jobs.Keys && forall id :: id in after ==> after[id].reserved == s.sh.jobs[id].reserved
  {
    hide Survives;
  }

  lemma BootIdle(now: nat)
    ensures Floating(Recover(Expiring(WaitGc(now)))) == 0 && SlotOf(Recover(Expiring(WaitGc(now)))) == 0
  {
  }

  lemma InitialConserved(e: Env, s: State)
    requires Initial(e, s)
    ensures Conserved(s) && SlotsCounted(s)
  {
    hide JobInv, Manifested;
    NothingHeld(s.sh.jobs);
  }

  lemma {:induction false} NothingHeld(jobs: map<JobId, Job>)
    requires forall id :: id in jobs ==> jobs[id].reserved == 0
    ensures SumMap<JobId, Job>(jobs, ReservedOf) == 0
    decreases |jobs|
  {
    if jobs != map[] {
      var id :| id in jobs;
      SumMapRemove<JobId, Job>(jobs, id, ReservedOf);
      NothingHeld(jobs - {id});
    }
  }

  lemma {:induction false} ExecutionConserved(e: Env, states: seq<State>, events: seq<Event>, i: nat)
    requires EnvOk(e) && Execution(e, states, events) && Initial(e, states[0]) && i <= |events|
    ensures Conserved(states[i]) && SlotsCounted(states[i])
    ensures (forall k :: 0 <= k < i ==> !events[k].Crash?) ==> states[i].leaked == 0
  {
    hide Safe, Next, Initial, Conserved, SlotsCounted;
    if i == 0 {
      InitialConserved(e, states[0]);
      NothingLeaked(e, states[0]);
    } else {
      ExecutionConserved(e, states, events, i - 1);
      ExecutionSafe(e, states, events, i - 1);
      NextConserved(e, states[i - 1], events[i - 1], states[i]);
      OnlyCrashesLeak(e, states[i - 1], events[i - 1], states[i]);
    }
  }

  lemma NothingLeaked(e: Env, s: State)
    requires Initial(e, s)
    ensures s.leaked == 0
  {
  }

  lemma OnlyCrashesLeak(e: Env, s: State, ev: Event, s': State)
    requires Next(e, s, ev, s')
    ensures !ev.Crash? ==> s'.leaked == s.leaked
  {
    hide Step, Enabled, Arrival, CrashTo;
  }

  /** Capacity conservation over all runs, crashes included: the jobs never hold
      more than the capacity row, which never exceeds the total; and the
      difference is exactly the releases in flight plus what crashes leaked.
      Each job holds nothing or its whole size. */
  lemma CapacityConserved(e: Env, s: State)
    requires EnvOk(e) && Reachable(e, s)
    ensures JobsHold(s.sh) <= s.sh.reserved <= s.sh.total
    ensures s.sh.reserved - JobsHold(s.sh) == SumSeq(s.threads, Floating) + s.leaked
    ensures forall id :: id in s.sh.jobs ==> s.sh.jobs[id].reserved == 0 || s.sh.jobs[id].reserved == s.sh.jobs[id].size
  {
    hide Initial, Next, JobsHold, SumSeq, ActorInv, Compatible2, JobInv, SlotsCounted;
    var states, events :| Execution(e, states, events) && Initial(e, states[0]) && states[|states| - 1] == s;
    ExecutionConserved(e, states, events, |events|);
    ReachableSafe(e, s);
    forall id | id in s.sh.jobs ensures s.sh.jobs[id].reserved == 0 || s.sh.jobs[id].reserved == s.sh.jobs[id].size {
      ReservedWhole(e, id, s.sh.jobs[id]);
    }
  }

  lemma ReservedWhole(e: Env, id: JobId, j: Job)
    requires JobInv(e, id, j)
    ensures j.reserved == 0 || j.reserved == j.size
  {
    hide RowsIntact, Described;
  }

  /** Without crashes nothing leaks: the difference is the releases in flight, and none are left once no release runs. */
  lemma CrashFreeExact(e: Env, states: seq<State>, events: seq<Event>)
    requires EnvOk(e) && Execution(e, states, events) && Initial(e, states[0])
    requires forall k :: 0 <= k < |events| ==> !events[k].Crash?
    ensures var s := states[|events|]; s.sh.reserved == JobsHold(s.sh) + SumSeq(s.threads, Floating)
  {
    hide Initial, Next, JobsHold, SumSeq;
    ExecutionConserved(e, states, events, |events|);
  }

  /** The clamp in `MAX(reserved-?,0)` never fires: every amount subtracted is there. */
  lemma ClampNeverFires(e: Env, s: State, t: nat)
    requires EnvOk(e) && Reachable(e, s) && t < |s.threads|
    ensures Floating(s.threads[t]) <= s.sh.reserved
    ensures forall id :: id in s.sh.jobs ==> s.sh.jobs[id].reserved <= s.sh.reserved
  {
    hide Reachable, JobsHold, SumSeq, ReservedOf, Floating;
    CapacityConserved(e, s);
    SumSeqAtLeast(s.threads, t, Floating);
    forall id | id in s.sh.jobs ensures s.sh.jobs[id].reserved <= s.sh.reserved {
      HoldsPart(s.sh, id);
    }
  }

  lemma HoldsPart(sh: Shared, id: JobId)
    requires id in sh.jobs
    ensures sh.jobs[id].reserved <= JobsHold(sh)
  {
    SumMapRemove<JobId, Job>(sh.jobs, id, ReservedOf);
  }

  /** The job whose reservation a goroutine has taken off the job and is giving back. */
  function GivingBack(a: Actor): Option<JobId> {
    match a
    case Finalize(id, FinFail(f)) => if f.FailRelease? && !f.rel.ZeroRow? then Some(id) else None
    case Worker(id, WorkFail(f)) => if f.FailRelease? && !f.rel.ZeroRow? then Some(id) else None
    case Worker(id, WorkRelease(r)) => if !r.ZeroRow? then Some(id) else None
    case Admit(AdmitFail(id, f)) => if f.FailRelease? && !f.rel.ZeroRow? then Some(id) else None
    case _ => None
  }

  lemma GivesBackOwn(e: Env, sh: Shared, a: Actor, id: JobId)
    requires ActorInv(e, sh, a) && GivingBack(a) == Some(id)
    ensures id in sh.jobs && sh.jobs[id].reserved == 0
    ensures if a.Admit? then AdmissionLock in Held(e, a) && sh.jobs[id].state == PENDING
            else Owns(a) == Some(id) && sh.jobs[id].state != PENDING
  {
    hide Manifested, ReadyExcept, Ready, SchedInv;
  }

  /** Each reservation is released at most once: while a goroutine gives a job's
      reservation back, the job holds nothing and nobody else gives it back. */
  lemma ReleasedOnce(e: Env, s: State, t: nat, id: JobId)
    requires EnvOk(e) && Reachable(e, s) && t < |s.threads| && GivingBack(s.threads[t]) == Some(id)
    ensures id in s.sh.jobs && s.sh.jobs[id].reserved == 0
    ensures forall u :: 0 <= u < |s.threads| && u != t ==> GivingBack(s.threads[u]) != Some(id)
  {
    hide DbInv, ActorInv, Reachable, GivingBack, Held, Owns;
    ReachableSafe(e, s);
    GivesBackOwn(e, s.sh, s.threads[t], id);
    forall u | 0 <= u < |s.threads| && u != t ensures GivingBack(s.threads[u]) != Some(id) {
      assert Compatible2(e, s.threads[t], s.threads[u]);
      assert Conflict(AdmissionLock, AdmissionLock);
      if GivingBack(s.threads[u]) == Some(id) { GivesBackOwn(e, s.sh, s.threads[u], id); }
    }
  }

  /** Live workers never exceed MAX_ACTIVE_TRANSCODES: the semaphore counts them exactly. */
  lemma WorkersBounded(e: Env, s: State)
    requires EnvOk(e) && Reachable(e, s) && s.threads != []
    ensures SumSeq(s.threads, SlotOf) == s.sh.sem <= s.sh.cfg.active
  {
    hide Initial, Next, JobsHold, SumSeq, Conserved;
    var states, events :| Execution(e, states, events) && Initial(e, states[0]) && states[|states| - 1] == s;
    ExecutionConserved(e, states, events, |events|);
  }

  /** The semaphore send never blocks. */
  lemma SendNeverBlocks(e: Env, s: State, t: nat)
    requires EnvOk(e) && Reachable(e, s) && t < |s.threads|
    requires || (s.threads[t].Finalize? && s.threads[t].fin.FinSchedule? && s.threads[t].fin.sched.Send?)
             || (s.threads[t].Worker? && s.threads[t].work.WorkSchedule? && s.threads[t].work.sched.Send?)
             || (s.threads[t].Recover? && s.threads[t].rec.RecSchedule? && s.threads[t].rec.sched.Send?)
    ensures s.sh.sem < s.sh.cfg.active
  {
    hide Reachable, DbInv, Compatible2, ReadyExcept, JobInv;
    ReachableSafe(e, s);
    assert ActorInv(e, s.sh, s.threads[t]);
  }
}
