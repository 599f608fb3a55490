/** How a goroutine came to its program counter: the event of the run with which
    it entered a stretch of its code. */
module Traceback {
  import opened Base
  import opened Jobs
  import opened Engine
  import opened Safety
  import opened SafetyActors
  import opened SafetySystem

  /** Where goroutines begin. */
  predicate Fresh(a: Actor) {
    || (a.Put? && a.put.WaitLife?) || (a.Complete? && !a.locked) || (a.Finalize? && a.fin.WaitFin?) || (a.Worker? && a.work.Load?)
    || (a.Admit? && a.adm.WaitAdmission?) || (a.Collect? && a.gc.WaitGc?) || (a.Recover? && a.rec.Expiring? && a.rec.gc.WaitGc?)
  }

  /** A stretch of code that does not contain the beginning of any goroutine. */
  ghost predicate Inner(P: Actor -> bool) { forall a :: P(a) ==> !Fresh(a) }

  /** Thread t is there, in the stretch P. */
  ghost predicate In(s: State, t: nat, P: Actor -> bool) { t < |s.threads| && P(s.threads[t]) }

  /** Event i takes thread t from outside the stretch P into it. */
  ghost predicate Enters(e: Env, states: seq<State>, events: seq<Event>, i: nat, t: nat, P: Actor -> bool)
    requires |states| == |events| + 1
  {
    && i < |events| && events[i].Run? && events[i].t == t && t < |states[i].threads| && !P(states[i].threads[t])
    && P(Step(e, states[i].sh, states[i].threads[t], events[i].ch).next)
    && states[i + 1].sh == Step(e, states[i].sh, states[i].threads[t], events[i].ch).sh
  }

  lemma SpawnedFresh(e: Env, sh: Shared, a: Actor, o: Outcome, b: Actor)
    requires SpawnOk(e, sh, a, o, b)
    ensures Fresh(b)
  {
    hide ActorInv, NewOwner;
  }

  lemma ArrivesFresh(s: State, a: Actor)
    requires Arrival(s, a)
    ensures Fresh(a)
  {
  }

  lemma NextIn(e: Env, s: State, ev: Event, s': State, t: nat, P: Actor -> bool)
    requires EnvOk(e) && Safe(e, s) && Next(e, s, ev, s') && Inner(P) && In(s', t, P)
    ensures !ev.Crash?
    ensures In(s, t, P) || (ev.Run? && ev.t == t && t < |s.threads| && P(Step(e, s.sh, s.threads[t], ev.ch).next)
                            && s'.sh == Step(e, s.sh, s.threads[t], ev.ch).sh)
  {
    hide DbInv, ActorInv, Compatible2, Step, Exclude, Specified, KeyUsed, CrashJob, Permitted, NewOwner, SpawnOk, Fresh, Arrival;
    match ev
    case Run(u, ch) =>
      StepKeeps(e, s.sh, s.threads[u], ch);
      var o := Step(e, s.sh, s.threads[u], ch);
      if t >= |s.threads| { SpawnedFresh(e, s.sh, s.threads[u], o, o.spawned[t - |s.threads|]); }
    case Arrive(a) => ArrivesFresh(s, a);
    case Create(id, key, req) => FreshAdmit();
    case Restart(cfg) => FreshRecover(s.sh.clock);
    case _ =>
  }

  lemma FreshAdmit()
    ensures Fresh(Admit(WaitAdmission))
  {
  }

  lemma FreshRecover(now: nat)
    ensures Fresh(Recover(Expiring(WaitGc(now))))
  {
  }

  /** A goroutine inside a stretch of its code entered it with some earlier event
      and has not left it since; so no crash came in between. */
  lemma {:induction false} Entered(e: Env, states: seq<State>, events: seq<Event>, k: nat, t: nat, P: Actor -> bool) returns (i: nat)
    requires EnvOk(e) && Execution(e, states, events) && Initial(e, states[0]) && k <= |events|
    requires Inner(P) && In(states[k], t, P)
    ensures i < k && Enters(e, states, events, i, t, P)
    ensures forall m :: i < m <= k ==> In(states[m], t, P)
    ensures forall m :: i <= m < k ==> !events[m].Crash?
  {
    hide Safe, Next, Inner;
    ExecutionSafe(e, states, events, k - 1);
    assert Next(e, states[k - 1], events[k - 1], states[k - 1 + 1]);
    NextIn(e, states[k - 1], events[k - 1], states[k], t, P);
    if In(states[k - 1], t, P) {
      i := Entered(e, states, events, k - 1, t, P);
    } else {
      i := k - 1;
    }
  }
}
