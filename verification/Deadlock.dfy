/** Deadlock freedom: locks are taken in one order, at most one stripe per
    family, so some goroutine can always move. */
module Deadlock {
  import opened Base
  import opened Jobs
  import opened Engine
  import opened Files
  import opened Safety
  import opened SafetySystem

  function Family(l: Lock): nat {
    match l
    case AdmissionLock => 0
    case LifeRead(_) => 1
    case LifeWrite(_) => 1
    case ChunkLock(_) => 2
    case ScheduleLock => 3
  }

  function WantedSched(q: SchedPc): Option<Lock> { if q.WaitSched? then Some(ScheduleLock) else None }

  function WantedGc(e: Env, g: GcPc): Option<Lock> {
    match g
    case WaitGc(_) => Some(AdmissionLock)
    case WaitExpire(_, id, _) => Some(LifeWrite(e.lifeStripe(id)))
    case _ => None
  }

  /** The lock an actor is about to take. */
  function Wanted(e: Env, a: Actor): Option<Lock> {
    match a
    case Put(r, WaitLife) => Some(LifeRead(e.lifeStripe(r.jid)))
    case Put(r, WaitChunk) => Some(ChunkLock(e.chunkStripe(r.jid, r.n)))
    case Complete(id, locked) => if locked then None else Some(LifeWrite(e.lifeStripe(id)))
    case Finalize(id, WaitFin) => Some(LifeWrite(e.lifeStripe(id)))
    case Finalize(_, FinSchedule(q)) => WantedSched(q)
    case Worker(_, WorkSchedule(q)) => WantedSched(q)
    case Admit(WaitAdmission) => Some(AdmissionLock)
    case Collect(g) => WantedGc(e, g)
    case Recover(Expiring(g)) => WantedGc(e, g)
    case Recover(WaitReject(id, _)) => Some(LifeWrite(e.lifeStripe(id)))
    case Recover(RecSchedule(q)) => WantedSched(q)
    case _ => None
  }

  /* ---- the database connection ---- */

  predicate FailQueries(f: FailPc) { !f.FailClean? }
  predicate SchedQueries(q: SchedPc) { q.PickJob? || q.StartJob? }
  predicate GcQueries(g: GcPc) { g.ScanExpired? || g.ExpireJob? }

  /** The next step runs a statement or a transaction on the single database connection. */
  predicate UsesDatabase(a: Actor) {
    match a
    case Done => false
    case Serving => false
    case Put(_, pc) => pc.ReadJob? || pc.ReadRow? || pc.TouchJob? || pc.Commit?
    case Complete(_, locked) => locked
    case Finalize(_, pc) =>
      || pc.HashInput? || pc.Stage? || pc.MarkProbing? || pc.MarkValidated? || pc.MarkQueued?
      || (pc.FinFail? && FailQueries(pc.fail)) || (pc.FinSchedule? && SchedQueries(pc.sched))
    case Worker(_, pc) =>
      || pc.Load? || pc.MarkTranscoding? || pc.Record? || pc.WorkRelease?
      || (pc.WorkFail? && FailQueries(pc.fail)) || (pc.WorkSchedule? && SchedQueries(pc.sched))
    case Admit(pc) => pc.PickHead? || pc.ReserveHead? || pc.MarkAdmitted? || (pc.AdmitFail? && FailQueries(pc.fail))
    case Collect(g) => GcQueries(g)
    case Recover(pc) =>
      || (pc.Expiring? && GcQueries(pc.gc)) || pc.ListUploads? || pc.Reject? || pc.Purge? || pc.Requeue? || pc.Respawn?
      || (pc.RecSchedule? && SchedQueries(pc.sched))
  }

  /** What an actor waits for before its next step: a lock, or the connection. */
  datatype Awaited = Mutex(lock: Lock) | Connection

  function Awaits(e: Env, a: Actor): Option<Awaited> {
    if Wanted(e, a).Some? then Some(Mutex(Wanted(e, a).value)) else if UsesDatabase(a) then Some(Connection) else None
  }

  function Place(w: Awaited): nat { if w.Mutex? then Family(w.lock) else 4 }

  /* ---- the order ---- */

  /** Lock order: whatever a goroutine holds ranks strictly below what it waits
      for; and the connection comes last: a step that uses it takes no lock. */
  lemma LocksInOrder(e: Env, a: Actor)
    ensures Awaits(e, a).Some? ==> forall l :: l in Held(e, a) ==> Family(l) < Place(Awaits(e, a).value)
    ensures UsesDatabase(a) ==> Wanted(e, a).None?
  {
  }

  /** At most one stripe per family. */
  lemma OneStripe(e: Env, a: Actor, l: Lock, m: Lock)
    requires l in Held(e, a) && m in Held(e, a) && Family(l) == Family(m)
    ensures l == m
  {
  }

  /** A step takes no lock but the wanted one. */
  ghost predicate TakesOnlyWanted(e: Env, a: Actor, n: Actor) {
    forall l :: l in Held(e, n) ==> l in Held(e, a) || Wanted(e, a) == Some(l)
  }

  lemma SchedTakes(e: Env, sh: Shared, q: SchedPc, ch: Choice)
    ensures var n := SchedStep(e, sh, q, ch).next;
            n.Some? ==> forall l :: l in HeldSched(n.value) ==> l in HeldSched(q) || WantedSched(q) == Some(l)
  {
    hide IsOldestQueued;
  }

  lemma GcTakes(e: Env, sh: Shared, g: GcPc, ch: Choice)
    ensures var n := GcStep(sh, g, ch).next;
            n.Some? ==> forall l :: l in HeldGc(e, n.value) ==> l in HeldGc(e, g) || WantedGc(e, g) == Some(l)
  {
  }

  lemma StepTakes(e: Env, sh: Shared, a: Actor, ch: Choice)
    ensures TakesOnlyWanted(e, a, Step(e, sh, a, ch).next)
  {
    hide TakesOnlyWanted, FinalizeStep, WorkerStep, PutStep, AdmitStep, RecoverStep, CollectStep;
    match a
    case Put(r, pc) => PutTakes(e, sh, r, pc, ch);
    case Finalize(id, pc) => FinalizeTakes(e, sh, id, pc, ch);
    case Worker(id, pc) => WorkerTakes(e, sh, id, pc, ch);
    case Admit(pc) => AdmitTakes(e, sh, pc, ch);
    case Collect(g) => CollectTakes(e, sh, g, ch);
    case Recover(pc) => RecoverTakes(e, sh, pc, ch);
    case Complete(id, locked) => CompleteTakes(e, sh, id, locked, ch);
    case _ => IdleTakes(e, a);
  }

  lemma IdleTakes(e: Env, a: Actor)
    requires a.Done? || a.Serving?
    ensures TakesOnlyWanted(e, a, a)
  {
  }

  lemma CompleteTakes(e: Env, sh: Shared, id: JobId, locked: bool, ch: Choice)
    ensures TakesOnlyWanted(e, Complete(id, locked), Step(e, sh, Complete(id, locked), ch).next)
  {
  }

  lemma PutTakes(e: Env, sh: Shared, r: PutReq, pc: PutPc, ch: Choice)
    ensures TakesOnlyWanted(e, Put(r, pc), PutStep(e, sh, r, pc, ch).next)
  {
    hide Pwrite;
  }

  lemma FinalizeTakes(e: Env, sh: Shared, id: JobId, pc: FinPc, ch: Choice)
    ensures TakesOnlyWanted(e, Finalize(id, pc), FinalizeStep(e, sh, id, pc, ch).next)
  {
    hide SchedStep, FailStep;
    if pc.FinSchedule? { SchedTakes(e, sh, pc.sched, ch); }
  }

  lemma WorkerTakes(e: Env, sh: Shared, id: JobId, pc: WorkPc, ch: Choice)
    ensures TakesOnlyWanted(e, Worker(id, pc), WorkerStep(e, sh, id, pc, ch).next)
  {
    hide SchedStep, FailStep, ReleaseStep, ManifestOf;
    if pc.WorkSchedule? { SchedTakes(e, sh, pc.sched, ch); }
  }

  lemma AdmitTakes(e: Env, sh: Shared, pc: AdmitPc, ch: Choice)
    ensures TakesOnlyWanted(e, Admit(pc), AdmitStep(e, sh, pc, ch).next)
  {
    hide FailStep, IsHead, Truncate;
  }

  lemma CollectTakes(e: Env, sh: Shared, g: GcPc, ch: Choice)
    ensures TakesOnlyWanted(e, Collect(g), CollectStep(sh, g, ch).next)
  {
    hide GcStep;
    GcTakes(e, sh, g, ch);
  }

  lemma RecoverTakes(e: Env, sh: Shared, pc: RecoverPc, ch: Choice)
    ensures TakesOnlyWanted(e, Recover(pc), RecoverStep(e, sh, pc, ch).next)
  {
    hide GcStep, SchedStep, Listed, InState, Finalizers;
    match pc
    case Expiring(g) => GcTakes(e, sh, g, ch);
    case RecSchedule(q) => SchedTakes(e, sh, q, ch);
    case _ =>
  }

  /* ---- waiting ---- */

  /** Who is first where several wait: the writer that has announced itself on a
      lifecycle stripe, behind which readers and other writers queue even while it
      waits; and the thread whose statement has the database connection. */
  datatype Queues = Queues(writer: nat -> Option<nat>, connection: Option<nat>)

  ghost predicate Announces(e: Env, s: State, w: Queues, t: nat, stripe: nat) {
    (w.writer)(stripe) == Some(t) && t < |s.threads| && Wanted(e, s.threads[t]) == Some(LifeWrite(stripe))
  }

  /** Thread t cannot go on before thread u does. */
  ghost predicate WaitsOn(e: Env, s: State, w: Queues, t: nat, u: nat) {
    && t < |s.threads| && u < |s.threads| && t != u && Awaits(e, s.threads[t]).Some?
    && match Awaits(e, s.threads[t]).value
       case Mutex(l) =>
         || (exists h :: h in Held(e, s.threads[u]) && Conflict(l, h))
         || ((l.LifeRead? || l.LifeWrite?) && Announces(e, s, w, u, l.stripe))
       case Connection => w.connection == Some(u) && UsesDatabase(s.threads[u])
  }

  predicate Idle(a: Actor) { a.Done? || a.Serving? }

  /** How far a thread has come in the order of waiting. */
  ghost function Level(e: Env, s: State, w: Queues, t: nat): nat
    requires t < |s.threads|
  {
    match Awaits(e, s.threads[t])
    case None => 7
    case Some(Mutex(AdmissionLock)) => 0
    case Some(Mutex(LifeRead(_))) => 1
    case Some(Mutex(LifeWrite(x))) => if (w.writer)(x) == Some(t) then 3 else 2
    case Some(Mutex(ChunkLock(_))) => 4
    case Some(Mutex(ScheduleLock)) => 5
    case Some(Connection) => if w.connection == Some(t) then 7 else 6
  }

  lemma ConflictSameFamily(l: Lock, h: Lock)
    requires Conflict(l, h)
    ensures Family(l) == Family(h)
  {
  }

  /** Whoever is waited on is further along: there is no cycle of waits. */
  lemma WaitsClimb(e: Env, s: State, w: Queues, t: nat, u: nat)
    requires WaitsOn(e, s, w, t, u)
    ensures Level(e, s, w, t) < Level(e, s, w, u) && !Idle(s.threads[u])
  {
    hide Held, Conflict, Wanted, UsesDatabase;
    LocksInOrder(e, s.threads[u]);
    if Idle(s.threads[u]) { IdleWantsNothing(e, s.threads[u]); }
    if Awaits(e, s.threads[t]).value.Mutex? {
      var l := Awaits(e, s.threads[t]).value.lock;
      if h :| h in Held(e, s.threads[u]) && Conflict(l, h) { ConflictSameFamily(l, h); }
    }
  }

  lemma IdleWantsNothing(e: Env, a: Actor)
    requires Idle(a)
    ensures Awaits(e, a).None? && Held(e, a) == {} && !UsesDatabase(a)
  {
  }

  /** A chain of threads each waiting on the next. */
  ghost predicate Chain(e: Env, s: State, w: Queues, chain: seq<nat>) {
    forall i :: 0 <= i < |chain| - 1 ==> WaitsOn(e, s, w, chain[i], chain[i + 1])
  }

  lemma {:induction false} ChainClimbs(e: Env, s: State, w: Queues, chain: seq<nat>, i: nat, k: nat)
    requires Chain(e, s, w, chain) && i < k < |chain|
    ensures chain[i] < |s.threads| && chain[k] < |s.threads|
    ensures Level(e, s, w, chain[i]) + (k - i) <= Level(e, s, w, chain[k])
    decreases k - i
  {
    hide WaitsOn, Level;
    assert WaitsOn(e, s, w, chain[k - 1], chain[k - 1 + 1]);
    WaitsBounds(e, s, w, chain[k - 1], chain[k]);
    WaitsClimb(e, s, w, chain[k - 1], chain[k]);
    if i < k - 1 { ChainClimbs(e, s, w, chain, i, k - 1); }
  }

  lemma WaitsBounds(e: Env, s: State, w: Queues, t: nat, u: nat)
    requires WaitsOn(e, s, w, t, u)
    ensures t < |s.threads| && u < |s.threads|
  {
  }

  /** No wait cycle exists in any state, not even one through a writer that blocks
      new readers or through the database connection; a chain of waits has at most
      eight threads. */
  lemma NoWaitCycle(e: Env, s: State, w: Queues, chain: seq<nat>)
    requires Chain(e, s, w, chain) && |chain| > 1
    ensures forall i, k :: 0 <= i < k < |chain| ==> chain[i] != chain[k]
    ensures |chain| <= 8
  {
    hide Chain;
    forall i, k | 0 <= i < k < |chain| ensures chain[i] != chain[k] { ChainClimbs(e, s, w, chain, i, k); }
    ChainClimbs(e, s, w, chain, 0, |chain| - 1);
    LevelBound(e, s, w, chain[|chain| - 1]);
  }

  lemma LevelBound(e: Env, s: State, w: Queues, t: nat)
    requires t < |s.threads|
    ensures Level(e, s, w, t) <= 7
  {
  }

  /* ---- somebody can move ---- */

  /** The threads that have something to do. */
  ghost function Busy(s: State): set<nat> {
    set t | 0 <= t < |s.threads| && !Idle(s.threads[t])
  }

  lemma {:induction false} Furthest(e: Env, s: State, w: Queues, ts: set<nat>) returns (m: nat)
    requires ts != {} && forall t :: t in ts ==> t < |s.threads|
    ensures m in ts && forall t :: t in ts ==> Level(e, s, w, t) <= Level(e, s, w, m)
    decreases |ts|
  {
    hide Level;
    m :| m in ts;
    if ts != {m} {
      var rest := ts - {m};
      assert ts == rest + {m};
      var n := Furthest(e, s, w, rest);
      if Level(e, s, w, m) < Level(e, s, w, n) { m := n; }
    }
  }

  /** A thread that waits on nobody can run, whatever the outside world decides. */
  lemma UnblockedEnabled(e: Env, s: State, w: Queues, t: nat, ch: Choice)
    requires Safe(e, s) && t < |s.threads| && forall u: nat :: !WaitsOn(e, s, w, t, u)
    ensures Enabled(e, s, t, ch)
  {
    hide DbInv, ActorInv, Held, Step, Owns, Wanted, Conflict, Announces, UsesDatabase;
    var a, next := s.threads[t], Step(e, s.sh, s.threads[t], ch).next;
    StepTakes(e, s.sh, a, ch);
    forall u | 0 <= u < |s.threads| && u != t ensures Exclude(Held(e, next), Held(e, s.threads[u])) {
      assert Compatible2(e, a, s.threads[u]);
      forall x, y | x in Held(e, next) && y in Held(e, s.threads[u]) ensures !Conflict(x, y) {
        if x !in Held(e, a) {
          assert Wanted(e, a) == Some(x);
          assert !WaitsOn(e, s, w, t, u);
        }
      }
    }
  }

  /** Deadlock freedom: in every reachable state in which any goroutine still has
      something to do, some goroutine that has something to do waits on nobody,
      and runs whatever the outside world decides. */
  lemma SomebodyMoves(e: Env, s: State, w: Queues) returns (t: nat)
    requires EnvOk(e) && Reachable(e, s) && Busy(s) != {}
    ensures t in Busy(s) && (forall u: nat :: !WaitsOn(e, s, w, t, u)) && forall ch :: Enabled(e, s, t, ch)
  {
    hide Reachable, Safe, WaitsOn, Level, Idle, Enabled;
    ReachableSafe(e, s);
    t := Furthest(e, s, w, Busy(s));
    forall u: nat ensures !WaitsOn(e, s, w, t, u) {
      if WaitsOn(e, s, w, t, u) {
        WaitsBounds(e, s, w, t, u);
        WaitsClimb(e, s, w, t, u);
      }
    }
    forall ch ensures Enabled(e, s, t, ch) { UnblockedEnabled(e, s, w, t, ch); }
  }
}
