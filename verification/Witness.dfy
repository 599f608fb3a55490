/** Runs that end where the service would rather not be: capacity that a crash
    leaked, and a completed job that still holds its reservation and whose
    artifact the next power loss takes. */
module Witness {
  import opened Base
  import opened Chunks
  import opened Files
  import opened Spec
  import opened Jobs
  import opened Engine
  import opened Safety
  import opened SafetyActors
  import opened SafetySystem
  import opened Disaster
  import opened Manifests
  import opened Traces
  import opened Sequential
  import Server

  /** One request, the file its client uploads, and what its encoder writes. */
  datatype Story = Story(cfg: Config, id: JobId, key: string, req: Request, body: seq<Byte>, encoded: seq<Byte>)

  /** The service accepts the request. */
  ghost predicate Acceptable(e: Env, y: Story) {
    && EnvOk(e) && ConfigOk(y.cfg)
    && Normalize(y.req, y.cfg.limits, e.validName, e.validSha).Ok?
  }

  function SpecOf(e: Env, y: Story): Output
    requires Normalize(y.req, y.cfg.limits, e.validName, e.validSha).Ok?
  {
    Normalize(y.req, y.cfg.limits, e.validName, e.validSha).value
  }

  /** The job as created. */
  ghost function Created(e: Env, y: Story): Job
    requires Acceptable(e, y)
  {
    var input := Lowered(y.req.input);
    NewJob(RequestKey(y.key, RequestDigest(e, input, SpecOf(e, y))), input, SpecOf(e, y), 0, y.cfg.chunk, y.cfg.retention)
  }

  /** The service with this one job. */
  function World(y: Story, j: Job, reserved: nat, sem: nat): Shared {
    Shared(map[y.id := j], y.cfg.limits.capacity, reserved, sem, 0, y.cfg, Scan(0, false))
  }

  /* ---- reaching further ---- */

  lemma ReachNext(e: Env, s: State, ev: Event, s': State)
    requires Reachable(e, s) && Next(e, s, ev, s')
    ensures Reachable(e, s')
  {
    hide Next, Initial;
    var states, events :| Execution(e, states, events) && Initial(e, states[0]) && states[|states| - 1] == s;
    var states', events' := states + [s'], events + [ev];
    forall i | 0 <= i < |events'| ensures Next(e, states'[i], events'[i], states'[i + 1]) {
      if i < |events| { assert Next(e, states[i], events[i], states[i + 1]); }
    }
    assert Execution(e, states', events') && states'[|states'| - 1] == s';
  }

  /** A goroutine that holds no lock and carries nothing. */
  predicate Idle(a: Actor) { a == Serving || a == Done || a == Admit(WaitAdmission) }

  /** A state that some run reaches, in which only the last goroutine may be at work. */
  ghost predicate Poised(e: Env, s: State, sh: Shared, a: Actor) {
    && Reachable(e, s) && s.sh == sh && s.leaked == 0
    && s.threads != [] && s.threads[|s.threads| - 1] == a
    && (s.threads[0] == Serving || (|s.threads| == 1 && a.Recover?))
    && forall t :: 0 <= t < |s.threads| - 1 ==> Idle(s.threads[t])
  }

  /** Thread t runs alone as its trace says. */
  lemma ReachRun(e: Env, s: State, t: nat, tr: Trace, sh: Shared, a: Actor) returns (s': State)
    requires EnvOk(e) && Reachable(e, s) && Alone(e, s, t) && t < |s.threads|
    requires tr.start == s.sh && tr.actor == s.threads[t] && At(e, tr, sh, a)
    ensures Reachable(e, s') && s' == State(sh, s.threads[t := a] + tr.spawned, s.leaked)
  {
    hide Next, Initial, Safe, Step, Alone;
    ReachableSafe(e, s);
    var states0, events0 :| Execution(e, states0, events0) && Initial(e, states0[0]) && states0[|states0| - 1] == s;
    var states1, events1 := WalkIsExecution(e, s, t, tr.choices);
    s' := states1[|events1|];
    var states, events := states0 + states1[1..], events0 + events1;
    forall i | 0 <= i < |events| ensures Next(e, states[i], events[i], states[i + 1]) {
      if i < |events0| {
        assert Next(e, states0[i], events0[i], states0[i + 1]);
      } else {
        assert Next(e, states1[i - |events0|], events1[i - |events0|], states1[i - |events0| + 1]);
      }
    }
    assert Execution(e, states, events) && states[|states| - 1] == s';
  }

  /** The last goroutine runs as its trace says; if it starts another, that one is last. */
  lemma Runs(e: Env, s: State, a: Actor, tr: Trace, sh: Shared, a': Actor) returns (s': State)
    requires EnvOk(e) && Poised(e, s, tr.start, a) && a != Serving && tr.actor == a && At(e, tr, sh, a')
    requires if a.Recover? then a' == Serving && |tr.spawned| == 1 else tr.spawned == [] || (Idle(a') && |tr.spawned| == 1)
    ensures Poised(e, s', sh, if tr.spawned == [] then a' else tr.spawned[0])
  {
    hide Reachable, At;
    s' := ReachRun(e, s, |s.threads| - 1, tr, sh, a');
  }

  /** A request arrives at a service at rest. */
  lemma Arrives(e: Env, s: State, sh: Shared, a: Actor) returns (s': State)
    requires Poised(e, s, sh, Done) && Arrival(s, a)
    ensures Poised(e, s', sh, a)
  {
    hide Reachable;
    s' := s.(threads := s.threads + [a]);
    ReachNext(e, s, Arrive(a), s');
  }

  /** A kill: everything written is still there. */
  lemma Killed(e: Env, s: State, sh: Shared, a: Actor) returns (s': State)
    requires Poised(e, s, sh, a)
    ensures Reachable(e, s') && s' == State(sh.(sem := 0), [], Floating(a))
  {
    hide CrashJob, Reachable;
    forall id | id in sh.jobs ensures CrashJob(sh.jobs[id], sh.jobs[id]) { KeptCrash(sh.jobs[id]); }
    var rest := s.threads[..|s.threads| - 1];
    assert s.threads == rest + [a];
    SumSeqAppend(rest, [a], Floating);
    SumSeqZero(rest, Floating);
    s' := State(sh.(sem := 0), [], Floating(a));
    ReachNext(e, s, Crash(sh.jobs), s');
  }

  /* ---- starting up ---- */

  /** The service before its first job. */
  function Started(y: Story): Shared {
    Shared(map[], y.cfg.limits.capacity, 0, 0, 0, y.cfg, Scan(0, false))
  }

  lemma Boots(e: Env, y: Story) returns (s: State)
    requires Acceptable(e, y)
    ensures Poised(e, s, Started(y), Admit(WaitAdmission))
  {
    hide At, PutStep, CompleteStep, FinalizeStep, WorkerStep, AdmitStep, CollectStep, Reachable, Normalize;
    var s0 := State(Started(y).(total := 0), [], 0);
    NothingReachable(e, s0);
    var sh := Started(y);
    var main := Actor.Recover(Expiring(WaitGc(0)));
    s := State(sh, [main], 0);
    ReachNext(e, s0, Restart(y.cfg), s);
    var t := Starts(e, sh, main);
    t := Moved(e, t, sh, main, Plain, sh, Actor.Recover(Expiring(ScanExpired(0))));
    t := Moved(e, t, sh, Actor.Recover(Expiring(ScanExpired(0))), Plain, sh, Actor.Recover(ListUploads));
    t := Moved(e, t, sh, Actor.Recover(ListUploads), Plain, sh, Actor.Recover(ListSpools));
    t := Moved(e, t, sh, Actor.Recover(ListSpools), Plain, sh, Actor.Recover(Requeue));
    t := Moved(e, t, sh, Actor.Recover(Requeue), Plain, sh, Actor.Recover(Respawn));
    t := Took(e, t, sh, Actor.Recover(Respawn), Plain, Outcome(sh, Actor.Recover(RecSchedule(WaitSched)), [Admit(WaitAdmission)]));
    t := Moved(e, t, sh, Actor.Recover(RecSchedule(WaitSched)), Plain, sh, Actor.Recover(RecSchedule(CheckSlots)));
    t := Moved(e, t, sh, Actor.Recover(RecSchedule(CheckSlots)), Plain, sh, Actor.Recover(RecSchedule(PickJob)));
    t := Moved(e, t, sh, Actor.Recover(RecSchedule(PickJob)), Plain, sh, Serving);
    s := Runs(e, s, main, t, sh, Serving);
  }

  lemma NothingReachable(e: Env, s: State)
    requires Initial(e, s)
    ensures Reachable(e, s)
  {
    hide Initial;
    assert Execution(e, [s], []) && [s][|[s]| - 1] == s;
  }

  lemma Creates(e: Env, y: Story) returns (s: State)
    requires Acceptable(e, y)
    ensures Poised(e, s, World(y, Created(e, y), 0, 0), Admit(WaitAdmission))
  {
    hide Reachable, PresetBase, Merge, CheckOutput, RequestDigest;
    var s0 := Boots(e, y);
    var j := CreatedJob(e, s0.sh, y.key, y.req, SpecOf(e, y));
    assert Set(s0.sh, y.id, j) == World(y, j, 0, 0);
    s := s0.(sh := World(y, j, 0, 0), threads := s0.threads + [Admit(WaitAdmission)]);
    ReachNext(e, s0, Event.Create(y.id, y.key, y.req), s);
  }

  lemma FirstInLine(e: Env, y: Story)
    requires Acceptable(e, y)
    ensures IsHead(e, World(y, Created(e, y), 0, 0), 0, y.id)
  {
    hide PresetBase, Merge, CheckOutput, RequestDigest;
  }

  /** The job is the head of the queue and gets its reservation. */
  lemma Reserves(e: Env, y: Story) returns (t: Trace)
    requires Acceptable(e, y)
    ensures t.start == World(y, Created(e, y), 0, 0) && t.actor == Admit(WaitAdmission) && t.spawned == []
    ensures At(e, t, World(y, Reserve(Created(e, y)), Created(e, y).size, 0), Admit(Prepare(y.id, Created(e, y).size)))
  {
    hide At, PresetBase, Merge, CheckOutput, RequestDigest, PutStep, CompleteStep, FinalizeStep, WorkerStep, RecoverStep, CollectStep, FailStep, IsHead;
    var j := Created(e, y);
    var sh := World(y, j, 0, 0);
    t := Starts(e, sh, Admit(WaitAdmission));
    t := Moved(e, t, sh, Admit(WaitAdmission), Plain, sh, Admit(PickHead));
    FirstInLine(e, y);
    Server.PickFound(e, sh, y.id);
    t := Moved(e, t, sh, Admit(PickHead), Plain, sh, Admit(ReserveHead(y.id)));
    assert Set(sh, y.id, Reserve(j)).(reserved := j.size) == World(y, Reserve(j), j.size, 0);
    t := Moved(e, t, sh, Admit(ReserveHead(y.id)), Plain, World(y, Reserve(j), j.size, 0), Admit(Prepare(y.id, j.size)));
  }

  /* ---- a leak ---- */

  /** For every request the service accepts, a run of the service loses the whole
      reservation for good: the input file cannot be created, and the process dies
      after the failing admission has cleared the job's row and before it has
      given the amount back. The reservation row stays behind. */
  lemma LeakHappens(e: Env, y: Story) returns (s: State)
    requires Acceptable(e, y)
    ensures Reachable(e, s) && s.threads == []
    ensures s.sh.jobs.Keys == {y.id} && s.sh.jobs[y.id].state == PENDING
    ensures s.sh.jobs[y.id].reserved == 0 && s.sh.jobs[y.id].ledger == Some(y.req.input.size as nat)
    ensures s.leaked == s.sh.reserved == y.req.input.size > 0
  {
    hide At, Reachable, PresetBase, Merge, CheckOutput, RequestDigest, PutStep, CompleteStep, FinalizeStep, WorkerStep, RecoverStep, CollectStep;
    s := Creates(e, y);
    var j := Reserve(Created(e, y));
    var sh := World(y, j, j.size, 0);
    var site := InAdmission(y.id);
    var t := Reserves(e, y);
    t := Moved(e, t, sh, Admit(Prepare(y.id, j.size)), Fails, sh, Failing(site, Some(FailLoad)));
    t := Moved(e, t, sh, Failing(site, Some(FailLoad)), Plain, sh, Failing(site, Some(FailRelease(ZeroRow(j.size)))));
    var sh' := World(y, ZeroReserved(j, j.size), j.size, 0);
    assert Set(sh, y.id, ZeroReserved(j, j.size)) == sh';
    var a := Failing(site, Some(FailRelease(FreeCapacity(j.size))));
    t := Moved(e, t, sh, Failing(site, Some(FailRelease(ZeroRow(j.size)))), Plain, sh', a);
    s := Runs(e, s, Admit(WaitAdmission), t, sh', a);
    s := Killed(e, s, sh', a);
  }

  /* ---- a job that completes ---- */

  /** The client uploads the file it announced, and the file is a single chunk. */
  ghost predicate Uploads(e: Env, y: Story) {
    && Acceptable(e, y)
    && |y.body| == y.req.input.size <= y.cfg.chunk
    && |e.sha(y.body)| == 64 && Lower(y.req.input.sha256) in {"", e.sha(y.body)}
  }

  ghost function Ready(e: Env, y: Story): Job
    requires Acceptable(e, y)
  {
    var j := Reserve(Created(e, y));
    Jobs.Admitted(PrepareInput(j), j.size, y.cfg.retention)
  }

  lemma Admits(e: Env, y: Story) returns (s: State)
    requires Acceptable(e, y)
    ensures Poised(e, s, World(y, Ready(e, y), y.req.input.size, 0), Done)
  {
    hide At, Reachable, PresetBase, Merge, CheckOutput, RequestDigest, PutStep, CompleteStep, FinalizeStep, WorkerStep, RecoverStep, CollectStep,
         FailStep, IsHead, Truncate;
    s := Creates(e, y);
    var j := Reserve(Created(e, y));
    var t := Reserves(e, y);
    assert Set(World(y, j, j.size, 0), y.id, PrepareInput(j)) == World(y, PrepareInput(j), j.size, 0);
    t := Moved(e, t, World(y, j, j.size, 0), Admit(Prepare(y.id, j.size)), Plain, World(y, PrepareInput(j), j.size, 0), Admit(MarkAdmitted(y.id, j.size)));
    var sh := World(y, Ready(e, y), j.size, 0);
    assert Set(World(y, PrepareInput(j), j.size, 0), y.id, Ready(e, y)) == sh;
    t := Moved(e, t, World(y, PrepareInput(j), j.size, 0), Admit(MarkAdmitted(y.id, j.size)), Plain, sh, Admit(PickHead));
    Server.PickNone(e, sh);
    t := Moved(e, t, sh, Admit(PickHead), Plain, sh, Done);
    s := Runs(e, s, Admit(WaitAdmission), t, sh, Done);
  }

  ghost function Received(e: Env, y: Story): Job
    requires Uploads(e, y)
  {
    var j := Ready(e, y).(part := Some(Sync(Pwrite(Ready(e, y).part.value, 0, y.body))));
    CommitChunk(j, 0, |y.body|, e.sha(y.body), y.cfg.retention)
  }

  lemma Sends(e: Env, y: Story) returns (s: State)
    requires Uploads(e, y)
    ensures Poised(e, s, World(y, Received(e, y), y.req.input.size, 0), Done)
  {
    hide At, Reachable, PresetBase, Merge, CheckOutput, RequestDigest, CompleteStep, FinalizeStep, WorkerStep, RecoverStep, CollectStep, AdmitStep,
         Truncate, Pwrite;
    s := Admits(e, y);
    var j := Ready(e, y);
    var n := j.size;
    var sh := World(y, j, n, 0);
    var r := PutReq(y.id, 0, e.sha(y.body), n, y.body);
    s := Arrives(e, s, sh, Put(r, WaitLife));
    var t := Starts(e, sh, Put(r, WaitLife));
    t := Moved(e, t, sh, Put(r, WaitLife), Plain, sh, Put(r, WaitChunk));
    t := Moved(e, t, sh, Put(r, WaitChunk), Plain, sh, Put(r, ReadJob));
    ChunkInside(n, j.chunkSize, 0);
    t := Moved(e, t, sh, Put(r, ReadJob), Plain, sh, Put(r, ReadRow(n, 0, true)));
    t := Moved(e, t, sh, Put(r, ReadRow(n, 0, true)), Plain, sh, Put(r, Write(n, 0, 0)));
    assert y.body[0..n] == y.body;
    var j1 := j.(part := Some(Pwrite(j.part.value, 0, y.body)));
    var sh1 := World(y, j1, n, 0);
    assert Set(sh, y.id, j1) == sh1;
    t := Moved(e, t, sh, Put(r, Write(n, 0, 0)), Plain.(count := n), sh1, Put(r, Write(n, 0, n)));
    t := Moved(e, t, sh1, Put(r, Write(n, 0, n)), Plain, sh1, Put(r, SyncFile(n, 0)));
    var j2 := j1.(part := Some(Sync(j1.part.value)));
    var sh2 := World(y, j2, n, 0);
    assert Set(sh1, y.id, j2) == sh2;
    t := Moved(e, t, sh1, Put(r, SyncFile(n, 0)), Plain, sh2, Put(r, Commit(n, 0)));
    var sh3 := World(y, Received(e, y), n, 0);
    assert Set(sh2, y.id, Received(e, y)) == sh3;
    t := Moved(e, t, sh2, Put(r, Commit(n, 0)), Plain, sh3, Done);
    s := Runs(e, s, Put(r, WaitLife), t, sh3, Done);
  }

  /** The whole file in one write. */
  lemma PwriteWhole(f: File, x: seq<Byte>)
    requires |f.data| == |x|
    ensures Pwrite(f, 0, x).data == x
  {
  }

  /** All bytes are there: the client may complete the upload. */
  lemma Completes(e: Env, y: Story) returns (s: State)
    requires Uploads(e, y)
    ensures Completable(Received(e, y))
    ensures Poised(e, s, World(y, CompleteUpload(Received(e, y)), y.req.input.size, 0), Actor.Finalize(y.id, WaitFin))
  {
    hide At, Reachable, PresetBase, Merge, CheckOutput, RequestDigest, PutStep, FinalizeStep, WorkerStep, RecoverStep, CollectStep, AdmitStep,
         Truncate, Pwrite;
    s := Sends(e, y);
    var j := Received(e, y);
    var n := j.size;
    ChunkInside(n, j.chunkSize, 0);
    ChunkInside(n, j.chunkSize, 1);
    assert Completable(j);
    var sh, sh' := World(y, j, n, 0), World(y, CompleteUpload(j), n, 0);
    s := Arrives(e, s, sh, Complete(y.id, false));
    var t := Starts(e, sh, Complete(y.id, false));
    t := Moved(e, t, sh, Complete(y.id, false), Plain, sh, Complete(y.id, true));
    assert Set(sh, y.id, CompleteUpload(j)) == sh';
    var t0 := t;
    t := Took(e, t, sh, Complete(y.id, true), Plain, Outcome(sh', Done, [Actor.Finalize(y.id, WaitFin)]));
    assert t.spawned == [Actor.Finalize(y.id, WaitFin)];
    s := Runs(e, s, Complete(y.id, false), t, sh', Done);
  }

  ghost function Staged(e: Env, y: Story): Job
    requires Uploads(e, y)
  {
    StageInput(RenameInput(CompleteUpload(Received(e, y))), e.sha(y.body))
  }

  lemma InputIsBody(e: Env, y: Story)
    requires Uploads(e, y) && Completable(Received(e, y))
    ensures var j := RenameInput(CompleteUpload(Received(e, y)));
            j.state == FINALIZING && j.part.None? && j.input.Some? && j.input.value.data == y.body && j.inputHash in {"", e.sha(y.body)}
  {
    hide PresetBase, Merge, CheckOutput, RequestDigest, Truncate, Pwrite;
    TruncateSize(EmptyFile, |y.body|);
    PwriteWhole(Ready(e, y).part.value, y.body);
  }

  lemma TruncateSize(f: File, n: nat)
    ensures |Truncate(f, n).data| == n
  {
  }

  /** The finalizer renames the spool file and compares its digest. */
  lemma Stages(e: Env, y: Story) returns (t: Trace)
    requires Uploads(e, y) && Completable(Received(e, y))
    ensures t.start == World(y, CompleteUpload(Received(e, y)), y.req.input.size, 0) && t.actor == Actor.Finalize(y.id, WaitFin) && t.spawned == []
    ensures Staged(e, y).state == STAGED
    ensures At(e, t, World(y, Staged(e, y), y.req.input.size, 0), Actor.Finalize(y.id, MarkProbing))
  {
    hide At, CompleteUpload, Received, PutStep, CompleteStep, WorkerStep, RecoverStep, CollectStep, AdmitStep, SchedStep, FailStep, Acceptable;
    InputIsBody(e, y);
    var j := CompleteUpload(Received(e, y));
    var n, k, h := y.req.input.size, RenameInput(j), e.sha(y.body);
    var sh, sh1, sh2 := World(y, j, n, 0), World(y, k, n, 0), World(y, Staged(e, y), n, 0);
    t := Starts(e, sh, Actor.Finalize(y.id, WaitFin));
    t := Moved(e, t, sh, Actor.Finalize(y.id, WaitFin), Plain, sh, Actor.Finalize(y.id, Rename));
    assert Set(sh, y.id, k) == sh1;
    t := Moved(e, t, sh, Actor.Finalize(y.id, Rename), Plain, sh1, Actor.Finalize(y.id, HashInput));
    t := Moved(e, t, sh1, Actor.Finalize(y.id, HashInput), Plain, sh1, Actor.Finalize(y.id, Stage(h)));
    assert Set(sh1, y.id, Staged(e, y)) == sh2;
    t := Moved(e, t, sh1, Actor.Finalize(y.id, Stage(h)), Plain, sh2, Actor.Finalize(y.id, MarkProbing));
  }

  /** The finalizer probes and queues a staged job. */
  lemma Probes(e: Env, y: Story, t0: Trace, q: Job, n: nat) returns (t: Trace)
    requires q.state == STAGED && At(e, t0, World(y, q, n, 0), Actor.Finalize(y.id, MarkProbing))
    ensures Extends(t0, t) && t.spawned == t0.spawned
    ensures At(e, t, World(y, q.(state := QUEUED), n, 0), Scheduling(AfterFinalize(y.id), Some(WaitSched)))
  {
    hide At, PutStep, CompleteStep, WorkerStep, RecoverStep, CollectStep, AdmitStep, SchedStep, FailStep;
    var w, w1 := World(y, q, n, 0), World(y, q.(state := PROBING), n, 0);
    var w2, w3 := World(y, q.(state := VALIDATED), n, 0), World(y, q.(state := QUEUED), n, 0);
    assert Set(w, y.id, q.(state := PROBING)) == w1;
    t := Moved(e, t0, w, Actor.Finalize(y.id, MarkProbing), Plain, w1, Actor.Finalize(y.id, Probe));
    t := Moved(e, t, w1, Actor.Finalize(y.id, Probe), Plain, w1, Actor.Finalize(y.id, MarkValidated));
    assert Set(w1, y.id, q.(state := VALIDATED)) == w2;
    t := Moved(e, t, w1, Actor.Finalize(y.id, MarkValidated), Plain, w2, Actor.Finalize(y.id, MarkQueued));
    assert Set(w2, y.id, q.(state := QUEUED)) == w3;
    t := Moved(e, t, w2, Actor.Finalize(y.id, MarkQueued), Plain, w3, Scheduling(AfterFinalize(y.id), Some(WaitSched)));
  }

  /** Its call of schedule finds the job and starts its worker. */
  lemma Schedules(e: Env, y: Story, t0: Trace, j: Job, n: nat) returns (t: Trace)
    requires y.cfg.active >= 1 && j.state == QUEUED && At(e, t0, World(y, j, n, 0), Scheduling(AfterFinalize(y.id), Some(WaitSched)))
    ensures Extends(t0, t) && t.spawned == t0.spawned + [Actor.Worker(y.id, Load)]
    ensures At(e, t, World(y, j.(state := STARTING), n, 1), Done)
  {
    hide At, PutStep, CompleteStep, WorkerStep, RecoverStep, CollectStep, AdmitStep, FailStep;
    var c := AfterFinalize(y.id);
    var sh, sh1, sh2 := World(y, j, n, 0), World(y, j.(state := STARTING), n, 0), World(y, j.(state := STARTING), n, 1);
    t := Moved(e, t0, sh, Scheduling(c, Some(WaitSched)), Plain, sh, Scheduling(c, Some(CheckSlots)));
    t := Moved(e, t, sh, Scheduling(c, Some(CheckSlots)), Plain, sh, Scheduling(c, Some(PickJob)));
    t := Moved(e, t, sh, Scheduling(c, Some(PickJob)), Plain.(id := y.id), sh, Scheduling(c, Some(StartJob(y.id))));
    assert Set(sh, y.id, j.(state := STARTING)) == sh1;
    t := Moved(e, t, sh, Scheduling(c, Some(StartJob(y.id))), Plain, sh1, Scheduling(c, Some(Send(y.id))));
    t := Took(e, t, sh1, Scheduling(c, Some(Send(y.id))), Plain, Outcome(sh2, Scheduling(c, Some(CheckSlots)), [Actor.Worker(y.id, Load)]));
    if y.cfg.active > 1 {
      t := Moved(e, t, sh2, Scheduling(c, Some(CheckSlots)), Plain, sh2, Scheduling(c, Some(PickJob)));
      t := Moved(e, t, sh2, Scheduling(c, Some(PickJob)), Plain, sh2, Done);
    } else {
      t := Moved(e, t, sh2, Scheduling(c, Some(CheckSlots)), Plain, sh2, Done);
    }
  }

  /** The job when its worker has recorded it as completed. */
  ghost function Finished(e: Env, y: Story): Job
    requires Uploads(e, y)
  {
    MarkCompleted(WithManifest(e, y.id, Encoded(Staged(e, y).(state := TRANSCODING), Plain.(bytes := y.encoded)), 0), 0)
  }

  /** The worker up to the release of the reservation. */
  lemma Transcodes(e: Env, y: Story, j: Job, n: nat) returns (t: Trace)
    requires j.state == STARTING && j.reserved == n > 0 && j.actualHash != ""
    ensures t.start == World(y, j, n, 1) && t.actor == Actor.Worker(y.id, Load) && t.spawned == []
    ensures var j' := MarkCompleted(WithManifest(e, y.id, Encoded(j.(state := TRANSCODING), Plain.(bytes := y.encoded)), 0), 0);
            At(e, t, World(y, j', n, 1), Actor.Worker(y.id, WorkRelease(ZeroRow(n))))
  {
    hide At, PutStep, CompleteStep, FinalizeStep, RecoverStep, CollectStep, AdmitStep, FailStep, SchedStep, ReleaseStep, ManifestOf;
    var ch := Plain.(bytes := y.encoded);
    var j1 := j.(state := TRANSCODING);
    var j2 := Encoded(j1, ch);
    var j3 := WithManifest(e, y.id, j2, 0);
    var j4 := MarkCompleted(j3, 0);
    var w, w1, w2, w3, w4 := World(y, j, n, 1), World(y, j1, n, 1), World(y, j2, n, 1), World(y, j3, n, 1), World(y, j4, n, 1);
    t := Starts(e, w, Actor.Worker(y.id, Load));
    t := Moved(e, t, w, Actor.Worker(y.id, Load), Plain, w, Actor.Worker(y.id, MakeCgroup(n)));
    t := Moved(e, t, w, Actor.Worker(y.id, MakeCgroup(n)), Plain, w, Actor.Worker(y.id, MarkTranscoding(n)));
    assert Set(w, y.id, j1) == w1;
    t := Moved(e, t, w, Actor.Worker(y.id, MarkTranscoding(n)), Plain, w1, Actor.Worker(y.id, Encode(n)));
    assert Set(w1, y.id, j2) == w2;
    t := Moved(e, t, w1, Actor.Worker(y.id, Encode(n)), ch, w2, Actor.Worker(y.id, WriteManifest(n)));
    assert Set(w2, y.id, j3) == w3;
    t := Moved(e, t, w2, Actor.Worker(y.id, WriteManifest(n)), Plain, w3, Actor.Worker(y.id, Record(n, 0)));
    assert Set(w3, y.id, j4) == w4;
    t := Moved(e, t, w3, Actor.Worker(y.id, Record(n, 0)), Plain, w4, Actor.Worker(y.id, WorkRelease(ZeroRow(n))));
  }

  lemma Works(e: Env, y: Story) returns (s: State)
    requires Uploads(e, y)
    ensures Poised(e, s, World(y, Finished(e, y), y.req.input.size, 1), Actor.Worker(y.id, WorkRelease(ZeroRow(y.req.input.size))))
  {
    hide At, Reachable, Received, CompleteUpload, Step, ManifestOf, Encoded, WithManifest, MarkCompleted, World, Poised;
    s := Completes(e, y);
    var n, q := y.req.input.size, Staged(e, y);
    StagedHolds(e, y);
    var t0 := Stages(e, y);
    var t1 := Probes(e, y, t0, q, n);
    var t := Schedules(e, y, t1, q.(state := QUEUED), n);
    Server.ExtendsOn(t0, t1, t);
    s := Runs(e, s, Actor.Finalize(y.id, WaitFin), t, World(y, q.(state := STARTING), n, 1), Done);
    t := Transcodes(e, y, q.(state := STARTING), n);
    s := Runs(e, s, Actor.Worker(y.id, Load), t, World(y, Finished(e, y), n, 1), Actor.Worker(y.id, WorkRelease(ZeroRow(n))));
  }

  lemma StagedHolds(e: Env, y: Story)
    requires Uploads(e, y) && Completable(Received(e, y))
    ensures Staged(e, y).reserved == y.req.input.size > 0 && Staged(e, y).actualHash != "" && y.cfg.active >= 1
  {
    hide PresetBase, Merge, CheckOutput, RequestDigest, Truncate, Pwrite;
    assert e.validSha(e.sha(y.body));
  }

  lemma FinishedHolds(e: Env, y: Story)
    requires Uploads(e, y)
    ensures var j := Finished(e, y);
            && j.state == COMPLETED && j.reserved == y.req.input.size > 0 && j.finished == Some(0) && Manifested(e, y.id, j, 0)
            && j.output.artifact.value.file.data == y.encoded && Unsynced(j)
  {
    hide PresetBase, Merge, CheckOutput, RequestDigest, Truncate, Pwrite;
  }

  /** A backfill over the database of s reports the manifest of job id as a conflict. */
  ghost predicate OwnConflict(s: State, id: JobId) {
    && id in s.sh.jobs && s.sh.jobs[id].output.manifest.Some?
    && var m := s.sh.jobs[id].output.manifest.value;
       m.inputSize > 0 && m.chunkSize > 0 && StatusOf(Db(s.sh.jobs, s.sh.reserved), m) == CONFLICT
  }

  /** Every accepted upload of one chunk can end completed and keep its
      reservation: the process dies between the update that completes the job and
      the release. From then on a backfill calls the job's own manifest a conflict. */
  lemma ReservationKept(e: Env, y: Story) returns (s: State)
    requires Uploads(e, y)
    ensures Reachable(e, s) && s.threads == [] && s.leaked == 0
    ensures s.sh.jobs.Keys == {y.id} && s.sh.jobs[y.id].state == COMPLETED
    ensures s.sh.jobs[y.id].reserved == s.sh.reserved == y.req.input.size > 0
    ensures Manifested(e, y.id, s.sh.jobs[y.id], 0)
    ensures s.sh.jobs[y.id].output.artifact.value.file.data == y.encoded
    ensures OwnConflict(s, y.id)
  {
    hide Reachable, Finished, Manifested, StatusOf;
    s := Works(e, y);
    FinishedHolds(e, y);
    s := Killed(e, s, s.sh, Actor.Worker(y.id, WorkRelease(ZeroRow(y.req.input.size))));
    OwnManifest(e, s, y.id);
  }

  /** And every such upload whose encoding is not empty can be completed and then
      lost: a power failure truncates the artifact that nobody synced. */
  lemma ArtifactLost(e: Env, y: Story) returns (s: State)
    requires Uploads(e, y) && y.encoded != []
    ensures Reachable(e, s) && y.id in s.sh.jobs && s.sh.jobs[y.id].state == COMPLETED && !Restorable(e, y.id, s.sh.jobs[y.id])
  {
    hide Reachable, Finished, Manifested, Unsynced, Restorable, Safe, Next;
    var s0 := Works(e, y);
    FinishedHolds(e, y);
    ReachableSafe(e, s0);
    var after;
    after, s := LosesAll(e, s0, y.id);
    ReachNext(e, s0, Crash(after), s);
    CrashedJob(e, s0, after, s, y.id);
    assert s.sh.jobs[y.id].state == COMPLETED;
  }
}
