/** The life of a job over whole runs: which transitions exist and who makes
    them, that no lifetime revisits a state, and when an upload may expire. */
module Lifecycle {
  import opened Base
  import opened Chunks
  import opened Files
  import opened Spec
  import opened Jobs
  import opened Engine
  import opened Safety
  import opened SafetySteps
  import opened SafetyActors
  import opened Effects
  import opened SafetyStable
  import opened SafetySystem

  /* ---- the transition table ---- */

  ghost predicate Moves(a: Actor, sh: Shared, sh': Shared, id: JobId) {
    id in sh.jobs && id in sh'.jobs && sh'.jobs[id].state != sh.jobs[id].state ==>
      Edge(a, id, sh.jobs[id].state, sh'.jobs[id].state)
  }

  lemma StepMoves(e: Env, sh: Shared, a: Actor, ch: Choice, k: JobId)
    requires ActorInv(e, sh, a)
    ensures Moves(a, sh, Step(e, sh, a, ch).sh, k)
  {
    hide ActorInv, Step, Edge, RowsEffect, SpoolEffect;
    StepEffect(e, sh, a, ch, k);
  }

  /** The goroutine that an event runs. */
  function Runner(s: State, ev: Event): Actor {
    if ev.Run? && ev.t < |s.threads| then s.threads[ev.t] else Done
  }

  /** In every safe state each event changes a job's state along an edge of the table, or not at all. */
  lemma NextMoves(e: Env, s: State, ev: Event, s': State, id: JobId)
    requires EnvOk(e) && Safe(e, s) && Next(e, s, ev, s') && id in s.sh.jobs
    ensures id in s'.sh.jobs && (s'.sh.jobs[id].state == s.sh.jobs[id].state
            || Edge(Runner(s, ev), id, s.sh.jobs[id].state, s'.sh.jobs[id].state))
  {
    hide DbInv, ActorInv, Compatible2, Step, Specified, Exclude, Arrival, KeyUsed, Permit, Edge, Survives;
    if ev.Run? {
      StepMoves(e, s.sh, s.threads[ev.t], ev.ch, id);
      StepKeeps(e, s.sh, s.threads[ev.t], ev.ch);
    }
  }

  /* ---- no lifetime revisits a state ---- */

  function Rank(s: JobState): nat {
    match s
    case PENDING => 0
    case ADMITTED => 1
    case UPLOADING => 2
    case FINALIZING => 3
    case STAGED => 4
    case PROBING => 5
    case VALIDATED => 6
    case QUEUED => 7
    case STARTING => 8
    case TRANSCODING => 9
    case COMPLETED => 10
    case FAILED => 10
    case EXPIRED => 10
  }

  /** Every edge climbs, except the requeue of a restart. */
  lemma EdgesClimb(a: Actor, id: JobId, from: JobState, to: JobState)
    requires Edge(a, id, from, to)
    ensures Rank(from) < Rank(to) || (a == Recover(Requeue) && from in {STARTING, TRANSCODING} && to == QUEUED)
    ensures !Terminal(from)
  {
  }

  /** How often the job's state changes from states[i] on. */
  ghost function Changes(states: seq<State>, id: JobId): nat {
    if |states| < 2 || id !in states[0].sh.jobs || id !in states[1].sh.jobs then 0
    else (if states[0].sh.jobs[id].state != states[1].sh.jobs[id].state then 1 else 0) + Changes(states[1..], id)
  }

  /** No event of the run is the requeue step of a restart. */
  ghost predicate OneLifetime(states: seq<State>, events: seq<Event>)
    requires |states| == |events| + 1
  {
    forall i :: 0 <= i < |events| ==> Runner(states[i], events[i]) != Recover(Requeue)
  }

  ghost predicate AllSafe(e: Env, states: seq<State>) {
    forall i :: 0 <= i < |states| ==> Safe(e, states[i])
  }

  /** A lifetime changes a job's state at most as often as its rank has room. */
  lemma {:induction false} ChangesBounded(e: Env, states: seq<State>, events: seq<Event>, id: JobId)
    requires EnvOk(e) && Execution(e, states, events) && AllSafe(e, states) && OneLifetime(states, events)
    requires id in states[0].sh.jobs
    ensures id in states[|events|].sh.jobs
    ensures Rank(states[0].sh.jobs[id].state) + Changes(states, id) <= Rank(states[|events|].sh.jobs[id].state)
    decreases |events|
  {
    hide Safe, Next, Edge, Rank;
    if |events| > 0 {
      var s, s' := states[0].sh, states[1].sh;
      assert Next(e, states[0], events[0], states[1]);
      NextMoves(e, states[0], events[0], states[1], id);
      if s'.jobs[id].state != s.jobs[id].state {
        EdgesClimb(Runner(states[0], events[0]), id, s.jobs[id].state, s'.jobs[id].state);
      }
      TailRun(e, states, events);
      ChangesBounded(e, states[1..], events[1..], id);
    }
  }

  lemma TailRun(e: Env, states: seq<State>, events: seq<Event>)
    requires Execution(e, states, events) && AllSafe(e, states) && OneLifetime(states, events) && |events| > 0
    ensures Execution(e, states[1..], events[1..]) && AllSafe(e, states[1..]) && OneLifetime(states[1..], events[1..])
  {
    hide Safe, Next;
    forall i | 0 <= i < |events[1..]| ensures Next(e, states[1..][i], events[1..][i], states[1..][i + 1]) {
      assert Next(e, states[i + 1], events[i + 1], states[i + 2]);
    }
    forall i | 0 <= i < |events[1..]| ensures Runner(states[1..][i], events[1..][i]) != Recover(Requeue) {
      assert Runner(states[i + 1], events[i + 1]) != Recover(Requeue);
    }
  }

  /** Monotone lifecycle: between two restarts the rank never decreases and a
      job changes state at most ten times. */
  lemma MonotoneLifetime(e: Env, states: seq<State>, events: seq<Event>, id: JobId)
    requires EnvOk(e) && Execution(e, states, events) && OneLifetime(states, events)
    requires Reachable(e, states[0]) && id in states[0].sh.jobs
    ensures id in states[|events|].sh.jobs
    ensures Rank(states[0].sh.jobs[id].state) <= Rank(states[|events|].sh.jobs[id].state)
    ensures Changes(states, id) <= 10
  {
    hide Safe, Next, Reachable;
    ReachableSafe(e, states[0]);
    RunSafeAlong(e, states, events);
    ChangesBounded(e, states, events, id);
  }

  lemma RunSafeAlong(e: Env, states: seq<State>, events: seq<Event>)
    requires EnvOk(e) && Execution(e, states, events) && Safe(e, states[0])
    ensures AllSafe(e, states)
  {
    hide Safe, Next;
    forall i | 0 <= i < |states| ensures Safe(e, states[i]) { SafeAt(e, states, events, i); }
  }

  lemma {:induction false} SafeAt(e: Env, states: seq<State>, events: seq<Event>, i: nat)
    requires EnvOk(e) && Execution(e, states, events) && Safe(e, states[0]) && i <= |events|
    ensures Safe(e, states[i])
  {
    hide Safe, Next;
    if i > 0 {
      SafeAt(e, states, events, i - 1);
      assert Next(e, states[i - 1], events[i - 1], states[i - 1 + 1]);
      NextSafe(e, states[i - 1], events[i - 1], states[i]);
    }
  }

  /** What has ended stays ended, and what is past its upload never expires; crashes included. */
  lemma {:induction false} EndsForGood(e: Env, states: seq<State>, events: seq<Event>, i: nat, k: nat, id: JobId)
    requires EnvOk(e) && Execution(e, states, events) && Initial(e, states[0]) && i <= k <= |events|
    requires id in states[i].sh.jobs
    ensures id in states[k].sh.jobs
    ensures Terminal(states[i].sh.jobs[id].state) ==> states[k].sh.jobs[id].state == states[i].sh.jobs[id].state
    ensures !Uploadable(states[i].sh.jobs[id].state) && states[i].sh.jobs[id].state != EXPIRED ==>
              !Uploadable(states[k].sh.jobs[id].state) && states[k].sh.jobs[id].state != EXPIRED
    decreases k
  {
    hide Safe, Next, Edge, Initial;
    if i < k {
      EndsForGood(e, states, events, i, k - 1, id);
      ExecutionSafe(e, states, events, k - 1);
      assert Next(e, states[k - 1], events[k - 1], states[k - 1 + 1]);
      NextMoves(e, states[k - 1], events[k - 1], states[k], id);
      var from, to := states[k - 1].sh.jobs[id].state, states[k].sh.jobs[id].state;
      if from != to { EdgeForward(Runner(states[k - 1], events[k - 1]), id, from, to); }
    }
  }

  lemma EdgeForward(a: Actor, id: JobId, from: JobState, to: JobState)
    requires Edge(a, id, from, to)
    ensures !Terminal(from) && (!Uploadable(from) ==> !Uploadable(to) && to != EXPIRED)
  {
  }

  /* ---- one job per idempotency key ---- */

  ghost predicate KeysUnique(sh: Shared) {
    forall a, b :: a in sh.jobs && b in sh.jobs && a != b && sh.jobs[a].key.Some? ==> !HasKey(sh.jobs[b], sh.jobs[a].key.value.id)
  }

  ghost predicate SameKeys(sh: Shared, sh': Shared) {
    sh'.jobs.Keys == sh.jobs.Keys && forall id :: id in sh.jobs ==> Fixed(sh.jobs[id], sh'.jobs[id])
  }

  /** The stored request digest is that of what the job records of its request. */
  ghost predicate Identified(e: Env, sh: Shared) {
    forall id :: id in sh.jobs && sh.jobs[id].key.Some? ==>
      sh.jobs[id].key.value.digest == RequestDigest(e, InputOf(sh.jobs[id]), sh.jobs[id].spec)
  }

  function InputOf(j: Job): Input { Input(j.filename, j.size, j.inputHash) }

  lemma StepSameKeys(e: Env, sh: Shared, a: Actor, ch: Choice)
    requires EnvOk(e) && DbInv(e, sh) && ActorInv(e, sh, a)
    ensures SameKeys(sh, Step(e, sh, a, ch).sh)
  {
    hide DbInv, ActorInv, Step, Permit, NewOwner, SpawnOk;
    StepKeeps(e, sh, a, ch);
    var sh' := Step(e, sh, a, ch).sh;
    forall id | id in sh.jobs ensures Fixed(sh.jobs[id], sh'.jobs[id]) {
      FixedStep(e, a, id, sh.jobs[id], sh'.jobs[id]);
    }
  }

  /** Creation is idempotent: at most one job answers to a request key, and its
      request digest stays that of its request, through every event. */
  lemma NextKeysUnique(e: Env, s: State, ev: Event, s': State)
    requires EnvOk(e) && Safe(e, s) && Next(e, s, ev, s') && KeysUnique(s.sh) && Identified(e, s.sh)
    ensures KeysUnique(s'.sh) && Identified(e, s'.sh)
  {
    hide DbInv, ActorInv, Compatible2, Step, Specified, Exclude, Arrival, Survives, RequestDigest;
    match ev
    case Run(t, ch) => StepSameKeys(e, s.sh, s.threads[t], ch);
    case Crash(after) => assert SameKeys(s.sh, s'.sh);
    case _ =>
  }

  lemma {:induction false} ExecutionKeysUnique(e: Env, states: seq<State>, events: seq<Event>, i: nat)
    requires EnvOk(e) && Execution(e, states, events) && Initial(e, states[0]) && i <= |events|
    ensures KeysUnique(states[i].sh) && Identified(e, states[i].sh)
  {
    hide Safe, Next;
    if i > 0 {
      ExecutionKeysUnique(e, states, events, i - 1);
      ExecutionSafe(e, states, events, i - 1);
      assert Next(e, states[i - 1], events[i - 1], states[i - 1 + 1]);
      NextKeysUnique(e, states[i - 1], events[i - 1], states[i]);
    }
  }

  /** A replay answers the right request: of all jobs in any reachable state at
      most one answers a request, and it records that request's input and
      specification, unless two different requests have one digest. */
  lemma ReplayIsFaithful(e: Env, s: State, req: Request, key: string, id: JobId)
    requires EnvOk(e) && Reachable(e, s) && id in s.sh.jobs && AnswersTo(e, s.sh, s.sh.jobs[id], key, req)
    ensures forall k :: k in s.sh.jobs && HasKey(s.sh.jobs[k], key) ==> k == id
    ensures var j, input, spec := s.sh.jobs[id], Lowered(req.input), Specified(e, s.sh, req).value;
            (InputOf(j) == input && j.spec == spec)
            || ((InputOf(j), j.spec) != (input, spec) && RequestDigest(e, InputOf(j), j.spec) == RequestDigest(e, input, spec))
  {
    hide Safe, Next, Initial, Specified, RequestDigest;
    var states, events :| Execution(e, states, events) && Initial(e, states[0]) && states[|states| - 1] == s;
    ExecutionKeysUnique(e, states, events, |events|);
  }

  /* ---- uploads in use do not expire ---- */

  /** A job expires only while nobody uploads to it, after its deadline has
      passed; its chunks, its reservation and its share of the capacity go with it. */
  lemma ExpiryIsEarned(e: Env, s: State, ev: Event, s': State, id: JobId)
    requires EnvOk(e) && Safe(e, s) && Next(e, s, ev, s') && id in s.sh.jobs
    requires s.sh.jobs[id].state != EXPIRED && id in s'.sh.jobs && s'.sh.jobs[id].state == EXPIRED
    ensures s.sh.jobs[id].deadline.Some? && s.sh.jobs[id].deadline.value <= s.sh.clock
    ensures forall u :: 0 <= u < |s.threads| && s.threads[u].Put? && s.threads[u].req.jid == id ==> s.threads[u].put.WaitLife?
    ensures s'.sh.jobs[id].rows == map[] && s'.sh.jobs[id].ledger.None?
    ensures s'.sh.reserved == Released(s.sh.reserved, s.sh.jobs[id].reserved)
  {
    hide DbInv, ActorInv, Compatible2, Step, Specified, Exclude, Arrival, KeyUsed, Edge, Survives, Next;
    NextMoves(e, s, ev, s', id);
    ExpirerRuns(e, s, ev, s', id);
    var a := s.threads[ev.t];
    assert ActorInv(e, s.sh, a);
    ExpireEffect(e, s.sh, a, ev.ch, id);
    forall u | 0 <= u < |s.threads| && s.threads[u].Put? && s.threads[u].req.jid == id ensures s.threads[u].put.WaitLife? {
      if u != ev.t { NoPutBeside(e, a, s.threads[u], id); }
    }
  }

  lemma ExpirerRuns(e: Env, s: State, ev: Event, s': State, id: JobId)
    requires Next(e, s, ev, s') && id in s.sh.jobs && id in s'.sh.jobs
    requires Edge(Runner(s, ev), id, s.sh.jobs[id].state, s'.sh.jobs[id].state) && s'.sh.jobs[id].state == EXPIRED
    ensures ev.Run? && ev.t < |s.threads| && Expirer(s.threads[ev.t], id) && s'.sh == Step(e, s.sh, s.threads[ev.t], ev.ch).sh
  {
    hide Step, Exclude, Specified, Arrival, KeyUsed, CrashJob;
  }

  lemma ExpireEffect(e: Env, sh: Shared, a: Actor, ch: Choice, id: JobId)
    requires ActorInv(e, sh, a) && Expirer(a, id) && id in sh.jobs && sh.jobs[id].state != EXPIRED
    requires id in Step(e, sh, a, ch).sh.jobs && Step(e, sh, a, ch).sh.jobs[id].state == EXPIRED
    ensures sh.jobs[id].deadline.Some? && sh.jobs[id].deadline.value <= sh.clock
    ensures Step(e, sh, a, ch).sh.jobs[id].rows == map[] && Step(e, sh, a, ch).sh.jobs[id].ledger.None?
    ensures Step(e, sh, a, ch).sh.reserved == Released(sh.reserved, sh.jobs[id].reserved)
  {
    hide Released, ReadyExcept;
    var g := if a.Collect? then a.gc else a.rec.gc;
    GcExpires(sh, g, ch, id);
  }

  lemma GcExpires(sh: Shared, g: GcPc, ch: Choice, id: JobId)
    requires g.ExpireJob? && g.jid == id && g.now <= sh.clock && id in sh.jobs && sh.jobs[id].state != EXPIRED
    ensures var sh' := GcStep(sh, g, ch).sh;
            id in sh'.jobs && (sh'.jobs[id].state == EXPIRED ==>
              && sh.jobs[id].deadline.Some? && sh.jobs[id].deadline.value <= sh.clock
              && sh'.jobs[id].rows == map[] && sh'.jobs[id].ledger.None?
              && sh'.reserved == Released(sh.reserved, sh.jobs[id].reserved))
  {
    hide Released;
  }

  lemma NoPutBeside(e: Env, a: Actor, b: Actor, id: JobId)
    requires Expirer(a, id) && b.Put? && b.req.jid == id && Compatible2(e, a, b)
    ensures b.put.WaitLife?
  {
    hide Owns;
    assert LifeWrite(e.lifeStripe(id)) in Held(e, a);
    assert !b.put.WaitLife? ==> LifeRead(e.lifeStripe(id)) in Held(e, b);
    assert Conflict(LifeWrite(e.lifeStripe(id)), LifeRead(e.lifeStripe(id)));
  }

  /** While the upload lives, its deadline is at least `at`. */
  ghost predicate LivesUntil(sh: Shared, id: JobId, at: nat) {
    && id in sh.jobs
    && (Uploadable(sh.jobs[id].state) ==> sh.jobs[id].deadline.Some? && sh.jobs[id].deadline.value >= at)
  }

  ghost predicate Extends(sh: Shared, sh': Shared, id: JobId, at: nat) {
    LivesUntil(sh, id, at) && at <= Expiry(sh) ==> LivesUntil(sh', id, at)
  }

  lemma StepExtends(e: Env, sh: Shared, a: Actor, ch: Choice, k: JobId, at: nat)
    requires ActorInv(e, sh, a)
    ensures Extends(sh, Step(e, sh, a, ch).sh, k, at)
  {
    hide ActorInv, Step, RowsEffect, SpoolEffect;
    StepEffect(e, sh, a, ch, k);
  }

  lemma NextExtends(e: Env, s: State, ev: Event, s': State, id: JobId, at: nat)
    requires EnvOk(e) && Safe(e, s) && Next(e, s, ev, s') && LivesUntil(s.sh, id, at) && at <= Expiry(s.sh)
    ensures LivesUntil(s'.sh, id, at)
    ensures s'.sh.jobs[id].state == EXPIRED ==> s.sh.jobs[id].state == EXPIRED || at <= s.sh.clock
  {
    hide Safe, Step, Specified, Exclude, Arrival, KeyUsed, Survives, Edge;
    NextMoves(e, s, ev, s', id);
    if ev.Run? { RelyOf(e, s, ev.t); StepExtends(e, s.sh, s.threads[ev.t], ev.ch, id, at); }
    if s.sh.jobs[id].state != EXPIRED && s'.sh.jobs[id].state == EXPIRED {
      NextMoves(e, s, ev, s', id);
      ExpiryIsEarned(e, s, ev, s', id);
      FromUploadable(Runner(s, ev), id, s.sh.jobs[id].state);
    }
  }

  lemma RelyOf(e: Env, s: State, t: nat)
    requires Safe(e, s) && t < |s.threads|
    ensures ActorInv(e, s.sh, s.threads[t])
  {
    hide ActorInv;
  }

  lemma FromUploadable(a: Actor, id: JobId, from: JobState)
    requires Edge(a, id, from, EXPIRED)
    ensures Uploadable(from)
  {
  }

  /** A clock that never runs backwards. */
  lemma NextClock(e: Env, s: State, ev: Event, s': State)
    requires EnvOk(e) && Safe(e, s) && Next(e, s, ev, s')
    ensures s.sh.clock <= s'.sh.clock
  {
    hide DbInv, ActorInv, Compatible2, Step, Specified, Exclude, Arrival, KeyUsed, CrashJob, Permit, SpawnOk, NewOwner;
    if ev.Run? { StepKeeps(e, s.sh, s.threads[ev.t], ev.ch); }
  }

  /** Live uploads are never expired: a job whose deadline is (at least) a full
      retention period away at states[i], as every PUT that commits leaves it,
      is not expired before that period is over, whatever runs and crashes in between. */
  lemma {:induction false} RetentionHonoured(e: Env, states: seq<State>, events: seq<Event>, i: nat, k: nat, id: JobId, at: nat)
    requires EnvOk(e) && Execution(e, states, events) && Initial(e, states[0]) && i <= k <= |events|
    requires id in states[i].sh.jobs && states[i].sh.jobs[id].state != EXPIRED && LivesUntil(states[i].sh, id, at)
    requires forall m :: i <= m <= k ==> at <= states[i].sh.clock + states[m].sh.cfg.retention
    ensures LivesUntil(states[k].sh, id, at) && states[i].sh.clock <= states[k].sh.clock
    ensures states[k].sh.jobs[id].state == EXPIRED ==> at <= states[k].sh.clock
    decreases k
  {
    hide Safe, Next, Initial;
    if i < k {
      RetentionHonoured(e, states, events, i, k - 1, id, at);
      ExecutionSafe(e, states, events, k - 1);
      assert Next(e, states[k - 1], events[k - 1], states[k - 1 + 1]);
      NextExtends(e, states[k - 1], events[k - 1], states[k], id, at);
      NextClock(e, states[k - 1], events[k - 1], states[k]);
    }
  }

  /** What the two statements that count as upload activity leave behind. */
  lemma ActivityExtends(e: Env, sh: Shared, r: PutReq, pc: PutPc, ch: Choice)
    requires ActorInv(e, sh, Put(r, pc)) && r.jid in sh.jobs && (pc.Commit? || pc.TouchJob?) && Accepting(sh.jobs[r.jid].state)
    ensures LivesUntil(PutStep(e, sh, r, pc, ch).sh, r.jid, Expiry(sh))
    ensures var j' := PutStep(e, sh, r, pc, ch).sh.jobs[r.jid];
            j'.state != EXPIRED && j'.part == sh.jobs[r.jid].part && forall n :: n in sh.jobs[r.jid].rows ==> n in j'.rows && j'.rows[n] == sh.jobs[r.jid].rows[n]
  {
    hide ReadyExcept, Holds, OnDisk, ChunkBytes;
  }
}
