/** Every reachable state of the system is safe. */
module SafetySystem {
  import opened Base
  import opened Chunks
  import opened Files
  import opened Spec
  import opened Jobs
  import opened JobSteps
  import opened Engine
  import opened Safety
  import opened SafetySteps
  import opened SafetyRoutines
  import opened SafetyActors
  import opened SafetyStable

  predicate MainLike(a: Actor) { a.Recover? || a.Serving? }

  /** The inductive invariant of the whole system. */
  ghost predicate Safe(e: Env, s: State) {
    && DbInv(e, s.sh)
    && (forall i :: 0 <= i < |s.threads| ==> ActorInv(e, s.sh, s.threads[i]))
    && (forall i, k :: 0 <= i < |s.threads| && 0 <= k < |s.threads| && i != k ==> Compatible2(e, s.threads[i], s.threads[k]))
    && (forall i :: 0 < i < |s.threads| ==> !MainLike(s.threads[i]))
    && (s.threads != [] ==> ConfigOk(s.sh.cfg))
  }

  lemma CompatibleSymmetric(e: Env, a: Actor, b: Actor)
    requires Compatible2(e, a, b)
    ensures Compatible2(e, b, a)
  {
    hide Held, Owns;
    forall x, y | x in Held(e, b) && y in Held(e, a) ensures !Conflict(x, y) {
      assert !Conflict(y, x);
    }
  }

  /** An owner's job is being processed, or was just finished by that owner. */
  lemma OwnerState(e: Env, sh: Shared, b: Actor)
    requires ActorInv(e, sh, b) && Owns(b).Some?
    ensures Owns(b).value in sh.jobs
    ensures Owned(sh.jobs[Owns(b).value].state) || Terminal(sh.jobs[Owns(b).value].state)
  {
    hide ReadyExcept, RelInv, Manifested;
  }

  /** What a step may turn an actor into, and start. */
  lemma Shape(e: Env, sh: Shared, a: Actor, ch: Choice)
    ensures var o := Step(e, sh, a, ch);
            && (Booting(o.next) ==> Booting(a)) && (MainLike(o.next) ==> MainLike(a))
            && (Bystander(a) ==> Bystander(o.next))
    ensures var o := Step(e, sh, a, ch);
            forall i :: 0 <= i < |o.spawned| && (Bystander(a) || Booting(o.next)) ==> Bystander(o.spawned[i])
  {
    hide IsHead, IsOldestQueued, Listed, InState, Finalizers;
    match a
    case Admit(pc) => AdmitShape(e, sh, pc, ch);
    case Recover(pc) => RecoverShape(e, sh, pc, ch);
    case _ =>
  }

  lemma AdmitShape(e: Env, sh: Shared, pc: AdmitPc, ch: Choice)
    ensures var o := AdmitStep(e, sh, pc, ch);
            Bystander(o.next) && forall i :: 0 <= i < |o.spawned| ==> Bystander(o.spawned[i])
  {
    hide IsHead;
  }

  lemma RecoverShape(e: Env, sh: Shared, pc: RecoverPc, ch: Choice)
    ensures var o := RecoverStep(e, sh, pc, ch);
            (Booting(o.next) ==> Booting(Recover(pc))) && (Booting(o.next) ==> forall i :: 0 <= i < |o.spawned| ==> Bystander(o.spawned[i]))
  {
    hide IsOldestQueued, Listed, InState, Finalizers;
  }

  /** A new owner never meets another owner of the same job. */
  lemma OwnersDiffer(e: Env, sh: Shared, a: Actor, b: Actor, n: Actor)
    requires ActorInv(e, sh, b) && Compatible2(e, a, b) && NewOwner(sh, a, n) && Owns(n).Some?
    ensures Owns(b) != Owns(n)
  {
    hide ActorInv, Held;
    if Owns(b) == Owns(n) { OwnerState(e, sh, b); }
  }

  lemma PairNext(e: Env, sh: Shared, a: Actor, ch: Choice, b: Actor)
    requires StepOk(e, sh, a, Step(e, sh, a, ch)) && Compatible2(e, a, b) && ActorInv(e, sh, b)
    requires Exclude(Held(e, Step(e, sh, a, ch).next), Held(e, b))
    ensures Compatible2(e, Step(e, sh, a, ch).next, b)
  {
    hide DbInv, ActorInv, Permitted, Held, Owns, Step, SpawnOk, NewOwner, Exclude;
    Shape(e, sh, a, ch);
    var n := Step(e, sh, a, ch).next;
    if Owns(n).Some? { OwnersDiffer(e, sh, a, b, n); }
  }

  lemma PairSpawn(e: Env, sh: Shared, a: Actor, ch: Choice, i: nat, b: Actor)
    requires StepOk(e, sh, a, Step(e, sh, a, ch)) && i < |Step(e, sh, a, ch).spawned|
    requires ActorInv(e, sh, b) && Compatible2(e, a, b)
    ensures Compatible2(e, Step(e, sh, a, ch).spawned[i], b)
  {
    hide DbInv, ActorInv, Permitted, Held, Owns, Step, NewOwner;
    Shape(e, sh, a, ch);
    var o := Step(e, sh, a, ch);
    var n := o.spawned[i];
    assert SpawnOk(e, sh, a, o, n);
    if Owns(n).Some? { OwnersDiffer(e, sh, a, b, n); }
  }

  lemma PairFamily(e: Env, sh: Shared, a: Actor, ch: Choice, i: nat)
    requires StepOk(e, sh, a, Step(e, sh, a, ch)) && i < |Step(e, sh, a, ch).spawned|
    ensures Compatible2(e, Step(e, sh, a, ch).spawned[i], Step(e, sh, a, ch).next)
    ensures forall k :: 0 <= k < |Step(e, sh, a, ch).spawned| && k != i ==>
              Compatible2(e, Step(e, sh, a, ch).spawned[i], Step(e, sh, a, ch).spawned[k])
  {
    hide DbInv, ActorInv, Permitted, Held, Owns, Step, NewOwner;
    Shape(e, sh, a, ch);
    var o := Step(e, sh, a, ch);
    assert SpawnOk(e, sh, a, o, o.spawned[i]);
    forall k | 0 <= k < |o.spawned| && k != i ensures Compatible2(e, o.spawned[i], o.spawned[k]) {
      assert SpawnOk(e, sh, a, o, o.spawned[k]);
    }
  }

  lemma RunActors(e: Env, s: State, t: nat, ch: Choice)
    requires EnvOk(e) && Safe(e, s) && Enabled(e, s, t, ch)
    ensures var s' := RunThread(e, s, t, ch);
            DbInv(e, s'.sh) && s'.sh.cfg == s.sh.cfg && forall i :: 0 <= i < |s'.threads| ==> ActorInv(e, s'.sh, s'.threads[i])
  {
    hide DbInv, ActorInv, Compatible2, Step, NewOwner, Permit;
    var a, o, s' := s.threads[t], Step(e, s.sh, s.threads[t], ch), RunThread(e, s, t, ch);
    StepKeeps(e, s.sh, a, ch);
    forall i | 0 <= i < |s'.threads| ensures ActorInv(e, s'.sh, s'.threads[i]) {
      if i >= |s.threads| {
        assert SpawnOk(e, s.sh, a, o, o.spawned[i - |s.threads|]);
      } else if i != t {
        Stable(e, s.sh, o.sh, a, s.threads[i]);
      }
    }
  }

  /** One order of every pair of threads after a step. */
  lemma RunPair(e: Env, s: State, t: nat, ch: Choice, i: nat, k: nat)
    requires EnvOk(e) && Safe(e, s) && Enabled(e, s, t, ch) && i != k
    requires i < |RunThread(e, s, t, ch).threads| && k < |RunThread(e, s, t, ch).threads|
    requires i >= |s.threads| || i == t || (k != t && k < |s.threads|)
    ensures Compatible2(e, RunThread(e, s, t, ch).threads[i], RunThread(e, s, t, ch).threads[k])
  {
    hide DbInv, ActorInv, Compatible2, Step, StepOk, Held, Exclude;
    var a, o, n := s.threads[t], Step(e, s.sh, s.threads[t], ch), |s.threads|;
    StepKeeps(e, s.sh, a, ch);
    if i >= n {
      PairFamily(e, s.sh, a, ch, i - n);
      if k < n && k != t { PairSpawn(e, s.sh, a, ch, i - n, s.threads[k]); }
    } else if i == t {
      if k >= n {
        PairFamily(e, s.sh, a, ch, k - n);
        CompatibleSymmetric(e, o.spawned[k - n], o.next);
      } else {
        PairNext(e, s.sh, a, ch, s.threads[k]);
      }
    }
  }

  lemma RunSafe(e: Env, s: State, t: nat, ch: Choice)
    requires EnvOk(e) && Safe(e, s) && Enabled(e, s, t, ch)
    ensures Safe(e, RunThread(e, s, t, ch))
  {
    hide DbInv, ActorInv, Compatible2, Step, Held;
    var s' := RunThread(e, s, t, ch);
    RunActors(e, s, t, ch);
    forall i, k | 0 <= i < |s'.threads| && 0 <= k < |s'.threads| && i != k
      ensures Compatible2(e, s'.threads[i], s'.threads[k])
    {
      if i >= |s.threads| || i == t || (k != t && k < |s.threads|) {
        RunPair(e, s, t, ch, i, k);
      } else {
        RunPair(e, s, t, ch, k, i);
        CompatibleSymmetric(e, s'.threads[k], s'.threads[i]);
      }
    }
    RunMain(e, s, t, ch);
  }

  lemma RunMain(e: Env, s: State, t: nat, ch: Choice)
    requires EnvOk(e) && Safe(e, s) && t < |s.threads|
    ensures var s' := RunThread(e, s, t, ch); forall i :: 0 < i < |s'.threads| ==> !MainLike(s'.threads[i])
  {
    hide DbInv, ActorInv, Compatible2, Step, Held, Owns, NewOwner, Permitted;
    StepKeeps(e, s.sh, s.threads[t], ch);
    Shape(e, s.sh, s.threads[t], ch);
    var o := Step(e, s.sh, s.threads[t], ch);
    assert forall i :: 0 <= i < |o.spawned| ==> SpawnOk(e, s.sh, s.threads[t], o, o.spawned[i]);
  }

  /* ---- events from outside ---- */

  lemma TickSafe(e: Env, s: State, to: nat)
    requires Safe(e, s) && s.sh.clock <= to
    ensures Safe(e, s.(sh := s.sh.(clock := to)))
  {
    hide DbInv, ActorInv, Compatible2, JobInv;
    var sh' := s.sh.(clock := to);
    TickDb(e, s.sh, to);
    forall i | 0 <= i < |s.threads| ensures ActorInv(e, sh', s.threads[i]) { TickActor(e, s.sh, to, s.threads[i]); }
  }

  lemma TickDb(e: Env, sh: Shared, to: nat)
    requires DbInv(e, sh)
    ensures DbInv(e, sh.(clock := to))
  {
    hide JobInv;
  }

  lemma TickActor(e: Env, sh: Shared, to: nat, a: Actor)
    requires ActorInv(e, sh, a) && sh.clock <= to
    ensures ActorInv(e, sh.(clock := to), a)
  {
    hide Ready, PutOpen, PutWritten, PutPlace, Manifested, RelInv;
  }

  /** A new actor that holds nothing, owns nothing and is not the main goroutine. */
  lemma AddSafe(e: Env, s: State, sh': Shared, a: Actor)
    requires Safe(e, s) && s.threads != [] && !Booting(s.threads[0])
    requires DbInv(e, sh') && sh'.cfg == s.sh.cfg && ActorInv(e, sh', a)
    requires Held(e, a) == {} && Owns(a) == None && !MainLike(a)
    requires forall i :: 0 <= i < |s.threads| ==> ActorInv(e, sh', s.threads[i])
    ensures Safe(e, s.(sh := sh', threads := s.threads + [a]))
  {
    hide DbInv, ActorInv, Held, Owns;
    forall i | 0 <= i < |s.threads| ensures Compatible2(e, s.threads[i], a) && Compatible2(e, a, s.threads[i]) {
      assert !Booting(s.threads[i]);
    }
    hide Compatible2;
  }

  lemma ArriveSafe(e: Env, s: State, a: Actor)
    requires Safe(e, s) && Listening(s) && Arrival(s, a)
    ensures Safe(e, s.(threads := s.threads + [a]))
  {
    hide DbInv, Compatible2, ReadyExcept;
    assert ActorInv(e, s.sh, s.threads[0]);
    AddSafe(e, s, s.sh, a);
  }

  lemma NewJobInv(e: Env, id: JobId, sh: Shared, key: string, req: Request)
    requires EnvOk(e) && sh.cfg.chunk > 0 && Specified(e, sh, req).Ok?
    ensures req.input.size > 0
    ensures JobInv(e, id, CreatedJob(e, sh, key, req, Specified(e, sh, req).value))
  {
    AcceptedIsEncodable(req, sh.cfg.limits, e.validName, e.validSha);
    hide Merge, CheckQuality, CheckResolution, CheckEncoder, PresetBase, Compatible, Crf;
  }

  lemma InsertActor(e: Env, sh: Shared, id: JobId, j: Job, a: Actor)
    requires ActorInv(e, sh, a) && id !in sh.jobs && j.state == PENDING && !Booting(a)
    ensures ActorInv(e, Set(sh, id, j), a)
  {
    hide Ready, PutOpen, PutWritten, PutPlace, Manifested, RelInv;
  }

  lemma InsertDb(e: Env, sh: Shared, id: JobId, j: Job)
    requires DbInv(e, sh) && JobInv(e, id, j)
    ensures DbInv(e, Set(sh, id, j))
  {
    hide JobInv;
  }

  lemma CreateSafe(e: Env, s: State, id: JobId, j: Job)
    requires Safe(e, s) && Listening(s) && id !in s.sh.jobs && JobInv(e, id, j) && j.state == PENDING
    ensures Safe(e, s.(sh := Set(s.sh, id, j), threads := s.threads + [Admit(WaitAdmission)]))
  {
    hide DbInv, ActorInv, Compatible2, JobInv;
    InsertDb(e, s.sh, id, j);
    forall i | 0 <= i < |s.threads| ensures ActorInv(e, Set(s.sh, id, j), s.threads[i]) {
      InsertActor(e, s.sh, id, j, s.threads[i]);
    }
    AdmissionStarts(e, Set(s.sh, id, j));
    AddSafe(e, s, Set(s.sh, id, j), Admit(WaitAdmission));
  }

  lemma AdmissionStarts(e: Env, sh: Shared)
    ensures ActorInv(e, sh, Admit(WaitAdmission)) && Held(e, Admit(WaitAdmission)) == {} && Owns(Admit(WaitAdmission)) == None
  {
  }

  /** Verified bytes survive a crash. */
  lemma SurvivesIntact(e: Env, j: Job, f: File, f': File)
    requires j.chunkSize > 0 && RowsFit(j.size, j.chunkSize, j.rows) && FileIntact(e, j, f) && Survives(f, f')
    ensures FileIntact(e, j, f')
  {
    hide Expected, ChunkBytes;
    forall n | n in j.rows ensures RowIntact(e, j, f', n) {
      assert RowIntact(e, j, f, n);
      PositiveChunk(j, n);
      SurvivesRegion(f, f', n * j.chunkSize, j.rows[n].bytes);
    }
  }

  lemma PositiveChunk(j: Job, n: nat)
    requires j.chunkSize > 0 && RowsFit(j.size, j.chunkSize, j.rows) && n in j.rows
    ensures j.rows[n].bytes > 0
  {
    ChunkInside(j.size, j.chunkSize, n);
  }

  /** In a whole upload every byte belongs to a verified chunk. */
  lemma ByteVerified(j: Job, i: nat) returns (n: nat)
    requires j.chunkSize > 0 && j.expected == Expected(j.size, j.chunkSize) && Whole(j) && i < j.size
    ensures n in j.rows && n * j.chunkSize <= i < n * j.chunkSize + j.rows[n].bytes
  {
    hide Expected, ChunkBytes;
    CountersAgree(j.size, j.chunkSize, j.rows);
    n := i / j.chunkSize;
    ChunkOf(j.size, j.chunkSize, i);
    assert n in j.rows.Keys;
  }

  /** A file whose every chunk is verified comes through a crash unchanged. */
  lemma SurvivesWhole(e: Env, j: Job, f: File, f': File)
    requires j.size > 0 && j.chunkSize > 0 && j.expected == Expected(j.size, j.chunkSize) && Whole(j)
    requires FileIntact(e, j, f) && |f.data| == j.size && Survives(f, f')
    ensures f'.data == f.data
  {
    hide Expected, ChunkBytes, Whole;
    forall i | 0 <= i < j.size ensures i !in f.dirty {
      var n := ByteVerified(j, i);
      assert RowIntact(e, j, f, n);
    }
    assert j.size - 1 !in f.dirty;
  }

  lemma CrashRows(e: Env, id: JobId, j: Job, j': Job)
    requires JobInv(e, id, j) && CrashJob(j, j') && !Terminal(j.state)
    ensures RowsIntact(e, j')
  {
    hide Expected, ChunkBytes, Survives;
    if j.state == PENDING {
    } else {
      if j'.part.Some? {
        if j.part.Some? && Survives(j.part.value, j'.part.value) {
          SurvivesIntact(e, j, j.part.value, j'.part.value);
        } else {
          SurvivesIntact(e, j, j.input.value, j'.part.value);
        }
        SameIntactFile(e, j, j', j'.part.value);
      }
      if j'.input.Some? {
        SurvivesIntact(e, j, j.input.value, j'.input.value);
        SameIntactFile(e, j, j', j'.input.value);
      }
    }
  }

  lemma CrashSized(e: Env, id: JobId, j: Job, j': Job)
    requires JobInv(e, id, j) && CrashJob(j, j') && (Owned(j.state) || j.state == QUEUED)
    ensures FilesSized(j')
  {
    hide Expected, ChunkBytes, Survives, FileIntact, Accounted;
    if j'.part.Some? {
      if j.part.Some? && Survives(j.part.value, j'.part.value) {
        SurvivesWhole(e, j, j.part.value, j'.part.value);
      } else {
        SurvivesWhole(e, j, j.input.value, j'.part.value);
      }
    }
    if j'.input.Some? { SurvivesWhole(e, j, j.input.value, j'.input.value); }
  }

  lemma CrashDescribed(e: Env, id: JobId, j: Job, j': Job)
    requires CrashJob(j, j') && j.state == COMPLETED && j.finished.Some? && Described(e, id, j, j.finished.value)
    ensures Described(e, id, j', j.finished.value)
  {
    var data :| j.output.manifest.value == ManifestOf(e, id, j, data, j.finished.value);
    assert j'.output.manifest.value == ManifestOf(e, id, j', data, j.finished.value);
  }

  /** A crash at any point leaves every job's invariant true. */
  lemma CrashJobInv(e: Env, id: JobId, j: Job, j': Job)
    requires JobInv(e, id, j) && CrashJob(j, j')
    ensures JobInv(e, id, j')
  {
    hide RowsIntact, FilesSized, Described, Survives;
    if !Terminal(j.state) { CrashRows(e, id, j, j'); }
    if Owned(j.state) || j.state == QUEUED { CrashSized(e, id, j, j'); }
    if j.state == COMPLETED { CrashDescribed(e, id, j, j'); }
  }

  lemma CrashSafe(e: Env, s: State, after: map<JobId, Job>, leaked: nat)
    requires Safe(e, s) && CrashTo(s, after)
    ensures Safe(e, State(s.sh.(jobs := after, sem := 0), [], leaked))
  {
    hide JobInv, CrashJob, ActorInv, Compatible2;
    forall id | id in after ensures JobInv(e, id, after[id]) {
      CrashJobInv(e, id, s.sh.jobs[id], after[id]);
    }
  }

  lemma RestartSafe(e: Env, s: State, cfg: Config, total: nat)
    requires Safe(e, s) && s.threads == [] && ConfigOk(cfg) && (total == s.sh.total || s.sh.reserved == 0)
    ensures Safe(e, s.(sh := s.sh.(cfg := cfg, total := total), threads := [Recover(Expiring(WaitGc(s.sh.clock)))]))
  {
    hide JobInv;
  }

  /** Every event keeps the system safe. */
  lemma NextSafe(e: Env, s: State, ev: Event, s': State)
    requires EnvOk(e) && Safe(e, s) && Next(e, s, ev, s')
    ensures Safe(e, s')
  {
    hide Safe, RunThread, Enabled, CrashTo, Arrival, KeyUsed, Specified;
    match ev
    case Run(t, ch) => RunSafe(e, s, t, ch);
    case Tick(to) => TickSafe(e, s, to);
    case Create(id, key, req) =>
      NewJobInv(e, id, s.sh, key, req);
      CreateSafe(e, s, id, s'.sh.jobs[id]);
    case Arrive(a) => ArriveSafe(e, s, a);
    case Crash(after) => CrashSafe(e, s, after, s'.leaked);
    case Restart(cfg) => RestartSafe(e, s, cfg, s'.sh.total);
  }

  lemma InitialSafe(e: Env, s: State)
    requires Initial(e, s)
    ensures Safe(e, s)
  {
    hide JobInv, Manifested;
  }

  lemma {:induction false} ExecutionSafe(e: Env, states: seq<State>, events: seq<Event>, i: nat)
    requires EnvOk(e) && Execution(e, states, events) && Initial(e, states[0]) && i <= |events|
    ensures Safe(e, states[i])
  {
    hide Safe, Next, Initial;
    if i == 0 {
      InitialSafe(e, states[0]);
    } else {
      ExecutionSafe(e, states, events, i - 1);
      NextSafe(e, states[i - 1], events[i - 1], states[i]);
    }
  }

  /** Every reachable state is safe. */
  lemma ReachableSafe(e: Env, s: State)
    requires EnvOk(e) && Reachable(e, s)
    ensures Safe(e, s)
  {
    hide Safe, Next, Initial;
    var states, events :| Execution(e, states, events) && Initial(e, states[0]) && states[|states| - 1] == s;
    ExecutionSafe(e, states, events, |events|);
  }
}
