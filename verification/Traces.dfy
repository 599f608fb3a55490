/** Running one actor alone: the traces that sequential code leaves, and the
    single steps they are made of. */
module Traces {
  import opened Base
  import opened Chunks
  import opened Files
  import opened Spec
  import opened Jobs
  import opened Engine
  import opened Safety
  import opened SafetyActors

  /** Running an actor alone through a sequence of outside decisions. */
  ghost function Walk(e: Env, sh: Shared, a: Actor, choices: seq<Choice>): Outcome {
    if choices == [] then Outcome(sh, a, [])
    else
      var o := Walk(e, sh, a, choices[..|choices| - 1]);
      var p := Step(e, o.sh, o.next, choices[|choices| - 1]);
      Outcome(p.sh, p.next, o.spawned + p.spawned)
  }

  /** A run of one actor: where it began, what the outside decided, what it started. */
  datatype Trace = Trace(start: Shared, actor: Actor, choices: seq<Choice>, spawned: seq<Actor>)

  /** The trace has led to this state and this program counter. */
  ghost predicate At(e: Env, t: Trace, sh: Shared, a: Actor) {
    Walk(e, t.start, t.actor, t.choices) == Outcome(sh, a, t.spawned)
  }

  /** t' goes on from t. */
  predicate Extends(t: Trace, t': Trace) {
    t'.start == t.start && t'.actor == t.actor && t.choices <= t'.choices && t.spawned <= t'.spawned
  }

  const Plain := Choice(true, 0, 0, [])
  const Fails := Choice(false, 0, 0, [])

  lemma Starts(e: Env, sh: Shared, a: Actor) returns (t: Trace)
    ensures t.start == sh && t.actor == a && At(e, t, sh, a) && t.spawned == []
  {
    t := Trace(sh, a, [], []);
  }

  /** One more step. */
  lemma Took(e: Env, t: Trace, sh: Shared, a: Actor, ch: Choice, p: Outcome) returns (t': Trace)
    requires At(e, t, sh, a) && Step(e, sh, a, ch) == p
    ensures t' == t.(choices := t.choices + [ch], spawned := t.spawned + p.spawned)
    ensures At(e, t', p.sh, p.next) && Extends(t, t')
  {
    hide Step;
    t' := t.(choices := t.choices + [ch], spawned := t.spawned + p.spawned);
    assert t'.choices[..|t'.choices| - 1] == t.choices;
  }

  /** One more step that starts nothing. */
  lemma Moved(e: Env, t: Trace, sh: Shared, a: Actor, ch: Choice, sh': Shared, a': Actor) returns (t': Trace)
    requires At(e, t, sh, a) && Step(e, sh, a, ch) == Outcome(sh', a', [])
    ensures At(e, t', sh', a') && Extends(t, t') && t'.spawned == t.spawned
  {
    hide Step, At;
    t' := Took(e, t, sh, a, ch, Outcome(sh', a', []));
    assert t.spawned + [] == t.spawned;
  }

  /** Sequential runs keep the database invariant and every actor's rely. */
  lemma {:induction false} WalkKeeps(e: Env, sh: Shared, a: Actor, choices: seq<Choice>)
    requires EnvOk(e) && DbInv(e, sh) && ActorInv(e, sh, a)
    ensures var o := Walk(e, sh, a, choices); DbInv(e, o.sh) && ActorInv(e, o.sh, o.next)
    decreases |choices|
  {
    hide DbInv, ActorInv, Step, Permitted, NewOwner, SpawnOk;
    if choices != [] {
      WalkKeeps(e, sh, a, choices[..|choices| - 1]);
      var o := Walk(e, sh, a, choices[..|choices| - 1]);
      StepKeeps(e, o.sh, o.next, choices[|choices| - 1]);
    }
  }

  /* ---- PUT ---- */

  /** The request does not name a chunk of the job, or announces the wrong length or digest. */
  predicate BadRequest(j: Job, r: PutReq) {
    r.n >= j.expected || r.length != ChunkBytes(j.size, j.chunkSize, r.n) || |r.sum| != 64 || r.length < 0
  }

  function Written(j: Job, at: nat, piece: seq<Byte>): Job
    requires j.part.Some?
  {
    j.(part := Some(Pwrite(j.part.value, at, piece)))
  }

  function Synced(j: Job): Job
    requires j.part.Some?
  {
    j.(part := Some(Sync(j.part.value)))
  }

  function Flat(pieces: seq<seq<Byte>>): seq<Byte> {
    if pieces == [] then [] else Flat(pieces[..|pieces| - 1]) + pieces[|pieces| - 1]
  }

  lemma FlatNone(pieces: seq<seq<Byte>>)
    ensures Flat(pieces[..0]) == []
  {
  }

  /** Writing two pieces one after the other is writing them at once. */
  lemma PwriteTwice(f: File, off: nat, a: seq<Byte>, b: seq<Byte>)
    ensures Pwrite(Pwrite(f, off, a), off + |a|, b) == Pwrite(f, off, a + b)
  {
    if a == [] {
      assert a + b == b;
    } else if b == [] {
      assert a + b == a;
    } else {
      var g, h := Pwrite(Pwrite(f, off, a), off + |a|, b), Pwrite(f, off, a + b);
      assert g.data == h.data;
      assert g.dirty == h.dirty by {
        forall i ensures i in g.dirty <==> i in h.dirty { assert Here(i); }
      }
    }
  }

  /** Where piece i lies in the whole body. */
  lemma {:induction false} FlatSplit(pieces: seq<seq<Byte>>, i: nat)
    requires i < |pieces|
    ensures |Flat(pieces[..i])| + |pieces[i]| <= |Flat(pieces)|
    ensures Flat(pieces)[|Flat(pieces[..i])|..|Flat(pieces[..i])| + |pieces[i]|] == pieces[i]
    ensures Flat(pieces[..i + 1]) == Flat(pieces[..i]) + pieces[i]
    decreases |pieces|
  {
    var less := pieces[..|pieces| - 1];
    assert pieces[..i + 1][..|pieces[..i + 1]| - 1] == pieces[..i];
    if i < |pieces| - 1 {
      FlatSplit(less, i);
      assert less[..i] == pieces[..i];
    } else {
      assert pieces[..i] == less;
    }
  }

  /* ---- release and fail, wherever they are called ---- */

  datatype FailSite = InFinalize(id: JobId) | InWorker(id: JobId) | InAdmission(id: JobId)

  function Failing(c: FailSite, f: Option<FailPc>): Actor {
    match (c, f)
    case (InFinalize(id), Some(p)) => Finalize(id, FinFail(p))
    case (InFinalize(id), None) => Done
    case (InWorker(id), Some(p)) => Worker(id, WorkFail(p))
    case (InWorker(id), None) => Worker(id, CleanSpool)
    case (InAdmission(id), Some(p)) => Admit(AdmitFail(id, p))
    case (InAdmission(id), None) => Admit(PickHead)
  }

  lemma FailSteps(e: Env, sh: Shared, c: FailSite, f: FailPc, ch: Choice)
    requires c.id in sh.jobs
    ensures var o := FailStep(sh, c.id, f); Step(e, sh, Failing(c, Some(f)), ch) == Outcome(o.sh, Failing(c, o.next), o.spawned)
  {
    hide FailStep;
  }

  datatype ReleaseSite = WhileFailing(site: FailSite) | WhenCompleted(id: JobId)

  function Site(c: ReleaseSite): JobId { if c.WhileFailing? then c.site.id else c.id }

  function Releasing(c: ReleaseSite, r: Option<RelPc>): Actor {
    match (c, r)
    case (WhileFailing(s), Some(p)) => Failing(s, Some(FailRelease(p)))
    case (WhileFailing(s), None) => Failing(s, Some(FailMark))
    case (WhenCompleted(id), Some(p)) => Worker(id, WorkRelease(p))
    case (WhenCompleted(id), None) => Worker(id, CleanSpool)
  }

  lemma ReleaseSteps(e: Env, sh: Shared, c: ReleaseSite, r: RelPc, ch: Choice)
    requires Site(c) in sh.jobs
    ensures var o := ReleaseStep(sh, Site(c), r); Step(e, sh, Releasing(c, Some(r)), ch) == Outcome(o.sh, Releasing(c, o.next), o.spawned)
  {
    hide ReleaseStep;
  }

  /* ---- schedule, wherever it is called ---- */

  datatype ScheduleSite = AfterFinalize(id: JobId) | AfterWork(id: JobId) | AtBoot

  function Scheduling(c: ScheduleSite, q: Option<SchedPc>): Actor {
    match (c, q)
    case (AfterFinalize(id), Some(p)) => Finalize(id, FinSchedule(p))
    case (AfterWork(id), Some(p)) => Worker(id, WorkSchedule(p))
    case (AtBoot, Some(p)) => Recover(RecSchedule(p))
    case (AtBoot, None) => Serving
    case (_, None) => Done
  }

  lemma ScheduleSteps(e: Env, sh: Shared, c: ScheduleSite, q: SchedPc, ch: Choice)
    ensures var o := SchedStep(e, sh, q, ch); Step(e, sh, Scheduling(c, Some(q)), ch) == Outcome(o.sh, Scheduling(c, o.next), o.spawned)
  {
    hide SchedStep;
  }

  /* ---- the expiry pass, wherever it is called ---- */

  datatype ExpirySite = OnTick | OnBoot

  function ExpiryAt(c: ExpirySite, g: Option<GcPc>): Actor {
    match (c, g)
    case (OnTick, Some(p)) => Collect(p)
    case (OnTick, None) => Done
    case (OnBoot, Some(p)) => Recover(Expiring(p))
    case (OnBoot, None) => Recover(ListUploads)
  }

  lemma ExpirySteps(e: Env, sh: Shared, c: ExpirySite, g: GcPc, ch: Choice)
    ensures var o := GcStep(sh, g, ch); Step(e, sh, ExpiryAt(c, Some(g)), ch) == Outcome(o.sh, ExpiryAt(c, o.next), o.spawned)
  {
    hide GcStep;
  }
}
