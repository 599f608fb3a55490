/** Admission is first come, first served, and loses no wake-up. */
module Admission {
  import opened Base
  import opened Files
  import opened Spec
  import opened Jobs
  import opened Engine
  import opened Safety
  import opened SafetyActors
  import opened SafetyStable
  import opened SafetySystem
  import opened Lifecycle
  import opened Effects
  import opened Traceback

  /* ---- the head of the queue ---- */

  lemma BeforeTransitive(e: Env, a: JobId, i: Job, b: JobId, j: Job, c: JobId, k: Job)
    requires Before(e, a, i, b, j) && Before(e, b, j, c, k)
    ensures Before(e, a, i, c, k)
  {
  }

  lemma {:induction false} LeastBefore(e: Env, jobs: map<JobId, Job>, ids: set<JobId>) returns (m: JobId)
    requires ids != {} && ids <= jobs.Keys
    ensures m in ids && forall k :: k in ids && k != m ==> Before(e, m, jobs[m], k, jobs[k])
    decreases |ids|
  {
    m :| m in ids;
    if ids != {m} {
      var rest := ids - {m};
      assert ids == rest + {m};
      var n := LeastBefore(e, jobs, rest);
      if Before(e, n, jobs[n], m, jobs[m]) {
        m := n;
      } else {
        assert Before(e, m, jobs[m], n, jobs[n]);
        forall k | k in ids && k != m ensures Before(e, m, jobs[m], k, jobs[k]) {
          if k != n { BeforeTransitive(e, m, jobs[m], n, jobs[n], k, jobs[k]); }
        }
      }
    }
  }

  ghost predicate NoneWaiting(sh: Shared, now: nat) {
    forall id :: id in sh.jobs ==> !Waiting(sh.jobs[id], now)
  }

  /** If any unexpired job is pending, the admission query finds a row. */
  lemma HeadExists(e: Env, sh: Shared, now: nat)
    ensures NoneWaiting(sh, now) || exists h :: IsHead(e, sh, now, h)
  {
    var ids := set id | id in sh.jobs && Waiting(sh.jobs[id], now);
    if id: JobId :| id in sh.jobs && Waiting(sh.jobs[id], now) {
      assert id in ids;
      var m := LeastBefore(e, sh.jobs, ids);
      forall k | k in sh.jobs && Waiting(sh.jobs[k], now) && k != m ensures Before(e, m, sh.jobs[m], k, sh.jobs[k]) {
        assert k in ids;
      }
      assert IsHead(e, sh, now, m);
    }
  }

  /* ---- pending scans ---- */

  predicate RelScans(r: RelPc) { !r.ZeroRow? }
  predicate FailScans(f: FailPc) { f.FailRelease? && RelScans(f.rel) }

  /** A goroutine that will look at the queue again, or start one that will. */
  predicate WillScan(a: Actor) {
    match a
    case Admit(pc) => !pc.ReserveHead?
    case Finalize(_, pc) => pc.FinFail? && FailScans(pc.fail)
    case Worker(_, pc) => (pc.WorkFail? && FailScans(pc.fail)) || (pc.WorkRelease? && RelScans(pc.rel))
    case Collect(g) => g.WaitExpire? || g.ExpireJob? || g.SweepJob?
    case Recover(_) => Booting(a)
    case _ => false
  }

  ghost predicate ScanPending(s: State) {
    exists t :: 0 <= t < |s.threads| && WillScan(s.threads[t])
  }

  predicate Full(sh: Shared, id: JobId) {
    id in sh.jobs && sh.reserved + sh.jobs[id].size > sh.total
  }

  predicate AtReserve(a: Actor) { a.Admit? && a.adm.ReserveHead? }

  /** The last look at the queue is still good: nobody waited, or the head is
      being reserved, does not fit, or was turned away by the disk check. */
  ghost predicate Settled(e: Env, s: State) {
    && (forall t :: 0 <= t < |s.threads| && AtReserve(s.threads[t]) ==> IsHead(e, s.sh, s.sh.scan.time, s.threads[t].adm.head))
    && (NoneWaiting(s.sh, s.sh.scan.time) || exists h :: IsHead(e, s.sh, s.sh.scan.time, h) && Answered(s, h))
  }

  ghost predicate Answered(s: State, h: JobId) {
    || Full(s.sh, h) || s.sh.scan.refused
    || exists t :: 0 <= t < |s.threads| && s.threads[t] == Admit(ReserveHead(h))
  }

  ghost predicate Attended(e: Env, s: State) {
    s.threads != [] ==> ScanPending(s) || Settled(e, s)
  }

  /* ---- one step ---- */

  ghost predicate ScanGoesOn(o: Outcome) {
    WillScan(o.next) || exists i :: 0 <= i < |o.spawned| && WillScan(o.spawned[i])
  }

  ghost predicate SubScans<T>(o: Sub<T>) { o.spawned == [Admit(WaitAdmission)] }

  lemma RelScanGoesOn(sh: Shared, id: JobId, r: RelPc)
    requires RelScans(r)
    ensures var o := ReleaseStep(sh, id, r); (o.next.Some? && RelScans(o.next.value)) || SubScans(o)
  {
  }

  lemma FailScanGoesOn(sh: Shared, id: JobId, f: FailPc)
    requires FailScans(f) && id in sh.jobs
    ensures var o := FailStep(sh, id, f); (o.next.Some? && FailScans(o.next.value)) || SubScans(o)
  {
    hide ReleaseStep, RelScans;
    RelScanGoesOn(sh, id, f.rel);
  }

  lemma Spawns(o: Outcome)
    requires o.spawned == [Admit(WaitAdmission)]
    ensures ScanGoesOn(o)
  {
    assert WillScan(o.spawned[0]);
  }

  lemma GcScanGoesOn(sh: Shared, g: GcPc, ch: Choice)
    requires g.WaitExpire? || g.ExpireJob? || g.SweepJob?
    ensures var o := GcStep(sh, g, ch);
            (o.next.Some? && (o.next.value.WaitExpire? || o.next.value.ExpireJob? || o.next.value.SweepJob?)) || SubScans(o)
  {
  }

  /** A pending scan stays pending until the queue is looked at. */
  lemma PendingGoesOn(e: Env, sh: Shared, a: Actor, ch: Choice)
    requires ActorInv(e, sh, a) && WillScan(a) && a != Admit(PickHead)
    ensures ScanGoesOn(Step(e, sh, a, ch))
  {
    hide ScanGoesOn, FailInv, RelInv, Manifested, ReadyExcept, Ready, RecInv, AdmitInv, FinalizeStep, WorkerStep, AdmitStep, RecoverStep, CollectStep, FailScans, RelScans;
    match a
    case Admit(pc) => AdmitGoesOn(e, sh, pc, ch);
    case Finalize(id, pc) => FinalizeGoesOn(e, sh, id, pc, ch);
    case Worker(id, pc) => WorkerGoesOn(e, sh, id, pc, ch);
    case Collect(g) => CollectGoesOn(sh, g, ch);
    case Recover(pc) => BootGoesOn(e, sh, pc, ch);
  }

  lemma AdmitGoesOn(e: Env, sh: Shared, pc: AdmitPc, ch: Choice)
    requires !pc.ReserveHead? && !pc.PickHead?
    ensures ScanGoesOn(AdmitStep(e, sh, pc, ch))
  {
    hide FailStep, Truncate;
  }

  lemma FinalizeGoesOn(e: Env, sh: Shared, id: JobId, pc: FinPc, ch: Choice)
    requires id in sh.jobs && pc.FinFail? && FailScans(pc.fail)
    ensures ScanGoesOn(FinalizeStep(e, sh, id, pc, ch))
  {
    hide FailStep, FailScans, SchedStep;
    FailScanGoesOn(sh, id, pc.fail);
    var o := FinalizeStep(e, sh, id, pc, ch);
    if SubScans(FailStep(sh, id, pc.fail)) { Spawns(o); }
  }

  lemma WorkerGoesOn(e: Env, sh: Shared, id: JobId, pc: WorkPc, ch: Choice)
    requires id in sh.jobs && WillScan(Worker(id, pc))
    ensures ScanGoesOn(WorkerStep(e, sh, id, pc, ch))
  {
    hide FailStep, ReleaseStep, FailScans, RelScans, SchedStep, ManifestOf;
    var o := WorkerStep(e, sh, id, pc, ch);
    if pc.WorkFail? {
      FailScanGoesOn(sh, id, pc.fail);
      if SubScans(FailStep(sh, id, pc.fail)) { Spawns(o); }
    } else {
      RelScanGoesOn(sh, id, pc.rel);
      if SubScans(ReleaseStep(sh, id, pc.rel)) { Spawns(o); }
    }
  }

  lemma CollectGoesOn(sh: Shared, g: GcPc, ch: Choice)
    requires WillScan(Collect(g))
    ensures ScanGoesOn(CollectStep(sh, g, ch))
  {
    hide GcStep;
    GcScanGoesOn(sh, g, ch);
    if SubScans(GcStep(sh, g, ch)) { Spawns(CollectStep(sh, g, ch)); }
  }

  lemma BootGoesOn(e: Env, sh: Shared, pc: RecoverPc, ch: Choice)
    requires ActorInv(e, sh, Recover(pc)) && Booting(Recover(pc))
    ensures ScanGoesOn(RecoverStep(e, sh, pc, ch))
  {
    hide GcStep, SchedStep, NextUpload, NextSpool, Listed, InState, Finalizers, ReadyExcept, GcInv;
    var o := RecoverStep(e, sh, pc, ch);
    if pc.Respawn? {
      assert WillScan(o.spawned[|o.spawned| - 1]);
    } else {
      BootStays(e, sh, pc, ch);
    }
  }

  lemma BootStays(e: Env, sh: Shared, pc: RecoverPc, ch: Choice)
    requires ActorInv(e, sh, Recover(pc)) && Booting(Recover(pc)) && !pc.Respawn?
    ensures Booting(RecoverStep(e, sh, pc, ch).next)
  {
    hide GcStep, ReadyExcept, GcInv;
  }

  /** What a goroutine with no pending scan leaves alone: the queue, the last look at it, and the room that is taken. */
  ghost predicate Quiet(sh: Shared, o: Outcome) {
    && o.sh.reserved >= sh.reserved && o.sh.total == sh.total && o.sh.scan == sh.scan && !AtReserve(o.next)
    && forall i :: 0 <= i < |o.spawned| ==> !AtReserve(o.spawned[i])
  }

  lemma RoutineQuiet(sh: Shared, id: JobId, r: RelPc, f: FailPc)
    ensures !RelScans(r) ==> ReleaseStep(sh, id, r).sh.reserved == sh.reserved
    ensures !FailScans(f) ==> FailStep(sh, id, f).sh.reserved == sh.reserved
    ensures ReleaseStep(sh, id, r).sh.(jobs := sh.jobs, reserved := sh.reserved) == sh
    ensures FailStep(sh, id, f).sh.(jobs := sh.jobs, reserved := sh.reserved) == sh
    ensures ReleaseStep(sh, id, r).spawned == [] || SubScans(ReleaseStep(sh, id, r))
    ensures FailStep(sh, id, f).spawned == [] || SubScans(FailStep(sh, id, f))
  {
  }

  lemma SchedQuiet(e: Env, sh: Shared, q: SchedPc, ch: Choice)
    ensures var o := SchedStep(e, sh, q, ch);
            o.sh.(jobs := sh.jobs, sem := sh.sem) == sh && forall i :: 0 <= i < |o.spawned| ==> o.spawned[i].Worker?
  {
    hide IsOldestQueued;
  }

  lemma StepQuiet(e: Env, sh: Shared, a: Actor, ch: Choice)
    requires !WillScan(a) && !AtReserve(a)
    ensures Quiet(sh, Step(e, sh, a, ch))
  {
    hide FinalizeStep, WorkerStep, PutStep, GcStep, SchedStep;
    match a
    case Put(r, pc) => PutQuiet(e, sh, r, pc, ch);
    case Finalize(id, pc) => FinalizeQuiet(e, sh, id, pc, ch);
    case Worker(id, pc) => WorkerQuiet(e, sh, id, pc, ch);
    case Collect(g) => CollectQuiet(sh, g, ch);
    case Recover(pc) => SchedQuiet(e, sh, pc.sched, ch);
    case _ =>
  }

  lemma PutQuiet(e: Env, sh: Shared, r: PutReq, pc: PutPc, ch: Choice)
    ensures Quiet(sh, PutStep(e, sh, r, pc, ch))
  {
    hide Pwrite;
  }

  lemma FinalizeQuiet(e: Env, sh: Shared, id: JobId, pc: FinPc, ch: Choice)
    requires !WillScan(Finalize(id, pc))
    ensures Quiet(sh, FinalizeStep(e, sh, id, pc, ch))
  {
    hide FailStep, SchedStep, FailScans;
    match pc
    case FinSchedule(q) => SchedQuiet(e, sh, q, ch);
    case FinFail(f) => RoutineQuiet(sh, id, DropLedger, f);
    case _ =>
  }

  lemma WorkerQuiet(e: Env, sh: Shared, id: JobId, pc: WorkPc, ch: Choice)
    requires !WillScan(Worker(id, pc))
    ensures Quiet(sh, WorkerStep(e, sh, id, pc, ch))
  {
    hide FailStep, SchedStep, ReleaseStep, FailScans, RelScans, ManifestOf;
    match pc
    case WorkSchedule(q) => SchedQuiet(e, sh, q, ch);
    case WorkFail(f) => RoutineQuiet(sh, id, DropLedger, f);
    case WorkRelease(r) => RoutineQuiet(sh, id, r, FailMark);
    case _ =>
  }

  lemma CollectQuiet(sh: Shared, g: GcPc, ch: Choice)
    requires g.WaitGc? || g.ScanExpired?
    ensures Quiet(sh, CollectStep(sh, g, ch))
  {
  }

  /** The queue looks the same. */
  ghost predicate SameQueue(sh: Shared, sh': Shared) {
    sh'.jobs.Keys == sh.jobs.Keys
    && forall id :: id in sh.jobs && (sh.jobs[id].state == PENDING || sh'.jobs[id].state == PENDING) ==> sh'.jobs[id] == sh.jobs[id]
  }

  lemma NeverPendingAgain(e: Env, a: Actor, id: JobId, j: Job, j': Job)
    requires Permit(e, a, id, j, j') && (AdmissionLock !in Held(e, a) || j' == j)
    ensures j.state == PENDING || j'.state == PENDING ==> j' == j
  {
    hide Held, Owns;
  }

  lemma StepSameQueue(e: Env, sh: Shared, a: Actor, ch: Choice)
    requires EnvOk(e) && DbInv(e, sh) && ActorInv(e, sh, a) && !WillScan(a) && !AtReserve(a)
    ensures SameQueue(sh, Step(e, sh, a, ch).sh)
  {
    hide DbInv, ActorInv, Step, Permit, Held, NewOwner, SpawnOk;
    StepKeeps(e, sh, a, ch);
    NoAdmissionLock(e, sh, a, ch);
    var sh' := Step(e, sh, a, ch).sh;
    forall id | id in sh.jobs ensures sh.jobs[id].state == PENDING || sh'.jobs[id].state == PENDING ==> sh'.jobs[id] == sh.jobs[id] {
      NeverPendingAgain(e, a, id, sh.jobs[id], sh'.jobs[id]);
    }
  }

  lemma NoAdmissionLock(e: Env, sh: Shared, a: Actor, ch: Choice)
    requires !WillScan(a) && !AtReserve(a)
    ensures AdmissionLock !in Held(e, a) || Step(e, sh, a, ch).sh == sh
  {
    hide PutStep, FinalizeStep, WorkerStep, SchedStep;
  }

  lemma SameHead(e: Env, sh: Shared, sh': Shared, now: nat, h: JobId)
    requires SameQueue(sh, sh')
    ensures IsHead(e, sh, now, h) ==> IsHead(e, sh', now, h)
    ensures NoneWaiting(sh, now) ==> NoneWaiting(sh', now)
  {
    hide Before;
  }

  /* ---- the system ---- */

  lemma QuietSettled(e: Env, s: State, t: nat, ch: Choice)
    requires EnvOk(e) && Safe(e, s) && t < |s.threads| && Settled(e, s)
    requires !WillScan(s.threads[t]) && !AtReserve(s.threads[t])
    ensures Settled(e, RunThread(e, s, t, ch))
  {
    hide DbInv, ActorInv, Compatible2, Step, SameQueue, WillScan, IsHead, NoneWaiting;
    var a, o, s' := s.threads[t], Step(e, s.sh, s.threads[t], ch), RunThread(e, s, t, ch);
    var now := s.sh.scan.time;
    assert ActorInv(e, s.sh, a);
    StepQuiet(e, s.sh, a, ch);
    StepSameQueue(e, s.sh, a, ch);
    forall u | 0 <= u < |s'.threads| && AtReserve(s'.threads[u]) ensures IsHead(e, s'.sh, now, s'.threads[u].adm.head) {
      assert u < |s.threads| && s'.threads[u] == s.threads[u];
      SameHead(e, s.sh, s'.sh, now, s'.threads[u].adm.head);
    }
    if NoneWaiting(s.sh, now) {
      SameHead(e, s.sh, s'.sh, now, 0);
    } else {
      var h :| IsHead(e, s.sh, now, h) && Answered(s, h);
      SameHead(e, s.sh, s'.sh, now, h);
      HeadSize(e, s, t, ch, now, h);
      if u :| 0 <= u < |s.threads| && s.threads[u] == Admit(ReserveHead(h)) {
        assert s'.threads[u] == s.threads[u];
      }
      assert Answered(s', h);
    }
  }

  lemma HeadSize(e: Env, s: State, t: nat, ch: Choice, now: nat, h: JobId)
    requires EnvOk(e) && Safe(e, s) && t < |s.threads| && IsHead(e, s.sh, now, h)
    ensures var sh' := RunThread(e, s, t, ch).sh; h in s.sh.jobs && h in sh'.jobs && sh'.jobs[h].size == s.sh.jobs[h].size
  {
    hide DbInv, ActorInv, Compatible2, Step, Permit, Held, NewOwner, SpawnOk, Before;
    StepKeeps(e, s.sh, s.threads[t], ch);
    FixedStep(e, s.threads[t], h, s.sh.jobs[h], RunThread(e, s, t, ch).sh.jobs[h]);
  }

  /** The step that tries to reserve for the head answers it, or goes on to the next scan. */
  lemma ReserveSettled(e: Env, s: State, t: nat, ch: Choice)
    requires Safe(e, s) && t < |s.threads| && Settled(e, s) && AtReserve(s.threads[t])
    ensures ScanPending(RunThread(e, s, t, ch)) || Settled(e, RunThread(e, s, t, ch))
  {
    hide DbInv, Compatible2, IsHead, NoneWaiting;
    var a, o, s' := s.threads[t], Step(e, s.sh, s.threads[t], ch), RunThread(e, s, t, ch);
    var now, h := s.sh.scan.time, a.adm.head;
    assert ActorInv(e, s.sh, a);
    assert s'.threads[t] == o.next;
    if !WillScan(o.next) {
      assert o.next == Done && s'.sh.jobs == s.sh.jobs && s'.sh.scan.time == now && o.spawned == [];
      SameHead(e, s.sh, s'.sh, now, h);
      forall u | 0 <= u < |s'.threads| && AtReserve(s'.threads[u]) ensures IsHead(e, s'.sh, now, s'.threads[u].adm.head) {
        assert s'.threads[u] == s.threads[u];
        SameHead(e, s.sh, s'.sh, now, s'.threads[u].adm.head);
      }
      assert Answered(s', h);
    }
  }

  lemma OneAdmission(e: Env, s: State, t: nat, u: nat)
    requires Safe(e, s) && t < |s.threads| && u < |s.threads| && t != u && s.threads[t] == Admit(PickHead)
    ensures !AtReserve(s.threads[u])
  {
    hide DbInv, ActorInv, Owns;
    assert Compatible2(e, s.threads[t], s.threads[u]);
    assert Conflict(AdmissionLock, AdmissionLock);
  }

  /** A look at the queue settles it. */
  lemma PickSettled(e: Env, s: State, t: nat, ch: Choice)
    requires Safe(e, s) && t < |s.threads| && s.threads[t] == Admit(PickHead)
    ensures ScanPending(RunThread(e, s, t, ch)) || Settled(e, RunThread(e, s, t, ch))
  {
    hide Safe, IsHead, NoneWaiting;
    var o, s' := Step(e, s.sh, s.threads[t], ch), RunThread(e, s, t, ch);
    HeadExists(e, s.sh, s.sh.clock);
    assert s'.threads[t] == o.next;
    forall u | 0 <= u < |s'.threads| && u != t ensures !AtReserve(s'.threads[u]) {
      OneAdmission(e, s, t, u);
    }
    if NoneWaiting(s.sh, s.sh.clock) { SameHead(e, s.sh, s'.sh, s.sh.clock, 0); }
    if AtReserve(o.next) {
      SameHead(e, s.sh, s'.sh, s.sh.clock, o.next.adm.head);
      assert Answered(s', o.next.adm.head);
    }
  }

  lemma ScanHandedOver(s: State, t: nat, o: Outcome, s': State)
    requires t < |s.threads| && s'.threads == s.threads[t := o.next] + o.spawned && ScanGoesOn(o)
    ensures ScanPending(s')
  {
    hide WillScan;
    if WillScan(o.next) {
      assert s'.threads[t] == o.next;
    } else {
      var i :| 0 <= i < |o.spawned| && WillScan(o.spawned[i]);
      assert s'.threads[|s.threads| + i] == o.spawned[i];
    }
  }

  lemma RunAttended(e: Env, s: State, t: nat, ch: Choice)
    requires EnvOk(e) && Safe(e, s) && Enabled(e, s, t, ch) && Attended(e, s)
    ensures Attended(e, RunThread(e, s, t, ch))
  {
    hide DbInv, ActorInv, Compatible2, Step, Exclude, WillScan, Settled, ScanGoesOn;
    var a, o, s' := s.threads[t], Step(e, s.sh, s.threads[t], ch), RunThread(e, s, t, ch);
    if u :| 0 <= u < |s.threads| && u != t && WillScan(s.threads[u]) {
      assert s'.threads[u] == s.threads[u];
    } else if a == Admit(PickHead) {
      PickSettled(e, s, t, ch);
    } else if WillScan(a) {
      PendingGoesOn(e, s.sh, a, ch);
      ScanHandedOver(s, t, o, s');
    } else if AtReserve(a) {
      ReserveSettled(e, s, t, ch);
    } else {
      QuietSettled(e, s, t, ch);
    }
  }

  lemma NextAttended(e: Env, s: State, ev: Event, s': State)
    requires EnvOk(e) && Safe(e, s) && Next(e, s, ev, s') && Attended(e, s)
    ensures Attended(e, s')
  {
    hide Safe, RunThread, Enabled, CrashTo, KeyUsed, Specified, IsHead;
    match ev
    case Run(t, ch) => RunAttended(e, s, t, ch);
    case Create(id, key, req) => assert WillScan(s'.threads[|s.threads|]);
    case Arrive(a) => AddAttended(e, s, s');
    case Tick(_) => AddAttended(e, s, s');
    case Restart(cfg) => assert WillScan(s'.threads[0]);
    case Crash(_) =>
  }

  lemma AddAttended(e: Env, s: State, s': State)
    requires Attended(e, s) && s.threads <= s'.threads && s'.sh == s.sh.(clock := s'.sh.clock) && (s.threads == [] ==> s'.threads == [])
    requires forall i :: |s.threads| <= i < |s'.threads| ==> !AtReserve(s'.threads[i])
    ensures Attended(e, s')
  {
    hide WillScan, IsHead, NoneWaiting;
    if t :| 0 <= t < |s.threads| && WillScan(s.threads[t]) {
      assert s'.threads[t] == s.threads[t];
    } else if s.threads != [] {
      var now := s.sh.scan.time;
      forall u | 0 <= u < |s'.threads| && AtReserve(s'.threads[u]) ensures IsHead(e, s'.sh, now, s'.threads[u].adm.head) {
        assert s'.threads[u] == s.threads[u];
        SameHead(e, s.sh, s'.sh, now, s'.threads[u].adm.head);
      }
      if NoneWaiting(s.sh, now) {
        SameHead(e, s.sh, s'.sh, now, 0);
      } else {
        var h :| IsHead(e, s.sh, now, h) && Answered(s, h);
        SameHead(e, s.sh, s'.sh, now, h);
        if u :| 0 <= u < |s.threads| && s.threads[u] == Admit(ReserveHead(h)) { assert s'.threads[u] == s.threads[u]; }
        assert Answered(s', h);
      }
    }
  }

  lemma {:induction false} ExecutionAttended(e: Env, states: seq<State>, events: seq<Event>, i: nat)
    requires EnvOk(e) && Execution(e, states, events) && Initial(e, states[0]) && i <= |events|
    ensures Attended(e, states[i])
  {
    hide Safe, Next, Settled, ScanPending;
    if i > 0 {
      ExecutionAttended(e, states, events, i - 1);
      ExecutionSafe(e, states, events, i - 1);
      assert Next(e, states[i - 1], events[i - 1], states[i - 1 + 1]);
      NextAttended(e, states[i - 1], events[i - 1], states[i]);
    }
  }

  /** What the admission query compares: time of creation as stored text, then id. */
  lemma HeadMeans(e: Env, sh: Shared, now: nat, h: JobId)
    requires IsHead(e, sh, now, h)
    ensures h in sh.jobs && sh.jobs[h].state == PENDING && sh.jobs[h].deadline.Some? && sh.jobs[h].deadline.value > now
    ensures forall w :: w in sh.jobs && w != h && sh.jobs[w].state == PENDING && sh.jobs[w].deadline.Some? && sh.jobs[w].deadline.value > now ==>
              || e.textKey(sh.jobs[h].created) < e.textKey(sh.jobs[w].created)
              || (e.textKey(sh.jobs[h].created) == e.textKey(sh.jobs[w].created) && h < w)
  {
  }

  /** No lost wake-up: when no admission scan is pending or running and the disk
      check turned nobody away, either nobody was waiting at the last look, or
      the job that was created first does not fit in what is left of the capacity. */
  lemma NoLostAdmission(e: Env, s: State)
    requires EnvOk(e) && Reachable(e, s) && s.threads != [] && !s.sh.scan.refused
    requires forall t :: 0 <= t < |s.threads| ==> !WillScan(s.threads[t]) && !AtReserve(s.threads[t])
    ensures || (forall id :: id in s.sh.jobs && s.sh.jobs[id].state == PENDING ==>
                  s.sh.jobs[id].deadline.None? || s.sh.jobs[id].deadline.value <= s.sh.scan.time)
            || exists h :: IsHead(e, s.sh, s.sh.scan.time, h) && s.sh.reserved + s.sh.jobs[h].size > s.sh.total
  {
    hide Safe, Next, Initial, WillScan, IsHead;
    var states, events :| Execution(e, states, events) && Initial(e, states[0]) && states[|states| - 1] == s;
    ExecutionAttended(e, states, events, |events|);
    if !NoneWaiting(s.sh, s.sh.scan.time) {
      var h :| IsHead(e, s.sh, s.sh.scan.time, h) && Answered(s, h);
      forall t | 0 <= t < |s.threads| ensures s.threads[t] != Admit(ReserveHead(h)) {
        assert !AtReserve(s.threads[t]);
      }
    }
  }

  /* ---- first come, first served ---- */

  /** The admission loop is working on this job. */
  predicate Selected(a: Actor, id: JobId) {
    a.Admit? && (a.adm.ReserveHead? || a.adm.Prepare? || a.adm.MarkAdmitted?) && a.adm.head == id
  }

  lemma StaysApart(e: Env, sh: Shared, a: Actor, ch: Choice)
    requires !a.Admit?
    ensures !Step(e, sh, a, ch).next.Admit?
  {
    hide SchedStep, GcStep, FailStep, ReleaseStep, NextUpload, NextSpool, Listed, InState, Finalizers, Pwrite, ManifestOf;
  }

  lemma SelectionStep(e: Env, sh: Shared, a: Actor, ch: Choice, id: JobId)
    requires Selected(Step(e, sh, a, ch).next, id)
    ensures (a == Admit(PickHead) && IsHead(e, sh, sh.clock, id)) || Selected(a, id)
  {
    hide IsHead, FailStep, FinalizeStep, WorkerStep, PutStep, RecoverStep, CollectStep, CompleteStep;
    if !a.Admit? { StaysApart(e, sh, a, ch); }
  }

  lemma AdmitsSelected(e: Env, sh: Shared, a: Actor, ch: Choice, id: JobId)
    requires a.Admit? && id in sh.jobs && sh.jobs[id].state == PENDING
    requires id in Step(e, sh, a, ch).sh.jobs && Step(e, sh, a, ch).sh.jobs[id].state == ADMITTED
    ensures Selected(a, id)
  {
    hide IsHead, Truncate;
  }

  lemma SelectedInner(id: JobId)
    ensures Inner((a: Actor) => Selected(a, id))
  {
  }

  /** First come, first served: whenever a job is admitted, it had been created
      before every other job that was waiting when it was selected, and the
      goroutine that admits it worked on nothing else in between. */
  lemma AdmittedWasHead(e: Env, states: seq<State>, events: seq<Event>, k: nat, id: JobId) returns (i: nat, t: nat)
    requires EnvOk(e) && Execution(e, states, events) && Initial(e, states[0]) && k < |events|
    requires id in states[k].sh.jobs && states[k].sh.jobs[id].state != ADMITTED
    requires id in states[k + 1].sh.jobs && states[k + 1].sh.jobs[id].state == ADMITTED
    ensures i < k && events[i].Run? && events[i].t == t && t < |states[i].threads| && states[i].threads[t] == Admit(PickHead)
    ensures id in states[i].sh.jobs && states[i].sh.jobs[id].state == PENDING
    ensures states[i].sh.jobs[id].deadline.Some? && states[i].sh.jobs[id].deadline.value > states[i].sh.clock
    ensures var sh := states[i].sh;
            forall w :: w in sh.jobs && w != id && sh.jobs[w].state == PENDING && sh.jobs[w].deadline.Some? && sh.jobs[w].deadline.value > sh.clock ==>
              || e.textKey(sh.jobs[id].created) < e.textKey(sh.jobs[w].created)
              || (e.textKey(sh.jobs[id].created) == e.textKey(sh.jobs[w].created) && id < w)
    ensures events[k].Run? && events[k].t == t
    ensures forall m :: i < m <= k ==> t < |states[m].threads| && Selected(states[m].threads[t], id)
  {
    hide Safe, Step, IsHead, Selected, Exclude, Specified, Arrival, KeyUsed, CrashJob, Inner, Initial;
    ExecutionSafe(e, states, events, k);
    assert Next(e, states[k], events[k], states[k + 1]);
    NextMoves(e, states[k], events[k], states[k + 1], id);
    t := events[k].t;
    AdmitsSelected(e, states[k].sh, states[k].threads[t], events[k].ch, id);
    SelectedInner(id);
    var P := (a: Actor) => Selected(a, id);
    i := Entered(e, states, events, k, t, P);
    SelectionStep(e, states[i].sh, states[i].threads[t], events[i].ch, id);
    HeadMeans(e, states[i].sh, states[i].sh.clock, id);
    forall m | i < m <= k ensures t < |states[m].threads| && Selected(states[m].threads[t], id) { assert In(states[m], t, P); }
  }

  lemma CreatedFixed(e: Env, s: State, ev: Event, s': State, id: JobId)
    requires EnvOk(e) && Safe(e, s) && Next(e, s, ev, s') && id in s.sh.jobs
    ensures id in s'.sh.jobs && s'.sh.jobs[id].created == s.sh.jobs[id].created
  {
    hide DbInv, ActorInv, Compatible2, Step, Exclude, Specified, Arrival, KeyUsed, Permit, SpawnOk, NewOwner, Survives;
    if ev.Run? {
      StepKeeps(e, s.sh, s.threads[ev.t], ev.ch);
      FixedStep(e, s.threads[ev.t], id, s.sh.jobs[id], s'.sh.jobs[id]);
    }
  }

  lemma {:induction false} CreatedKept(e: Env, states: seq<State>, events: seq<Event>, i: nat, k: nat, id: JobId)
    requires EnvOk(e) && Execution(e, states, events) && Initial(e, states[0]) && i <= k <= |events| && id in states[i].sh.jobs
    ensures id in states[k].sh.jobs && states[k].sh.jobs[id].created == states[i].sh.jobs[id].created
    decreases k
  {
    hide Safe, Next, Initial;
    if i < k {
      CreatedKept(e, states, events, i, k - 1, id);
      ExecutionSafe(e, states, events, k - 1);
      assert Next(e, states[k - 1], events[k - 1], states[k - 1 + 1]);
      CreatedFixed(e, states[k - 1], events[k - 1], states[k], id);
    }
  }

  /** No admission loop is already working on the job. */
  ghost predicate Unselected(s: State, id: JobId) {
    forall t :: 0 <= t < |s.threads| ==> !Selected(s.threads[t], id)
  }

  /** No overtaking: from when a job is seen waiting and for as long as it waits,
      no job created after it is admitted unless it had been selected before,
      whatever its size and however little room the waiting job leaves. */
  lemma NoOvertaking(e: Env, states: seq<State>, events: seq<Event>, p: nat, k: nat, first: JobId, second: JobId)
    requires EnvOk(e) && Execution(e, states, events) && Initial(e, states[0]) && p <= k < |events|
    requires first != second && Unselected(states[p], second)
    requires forall m :: p <= m <= k ==>
               && first in states[m].sh.jobs && states[m].sh.jobs[first].state == PENDING
               && states[m].sh.jobs[first].deadline.Some? && states[m].sh.jobs[first].deadline.value > states[m].sh.clock
    requires second in states[k].sh.jobs && states[k].sh.jobs[second].state != ADMITTED
    requires var a, b := e.textKey(states[k].sh.jobs[first].created), e.textKey(states[k].sh.jobs[second].created);
             a < b || (a == b && first < second)
    ensures second in states[k + 1].sh.jobs && states[k + 1].sh.jobs[second].state != ADMITTED
  {
    hide Safe, Next, Initial, Selected;
    CreatedKept(e, states, events, k, k + 1, second);
    if states[k + 1].sh.jobs[second].state == ADMITTED {
      var i, t := AdmittedWasHead(e, states, events, k, second);
      CreatedKept(e, states, events, i, k, second);
      CreatedKept(e, states, events, p, i, first);
      CreatedKept(e, states, events, i, k, first);
    }
  }
}
