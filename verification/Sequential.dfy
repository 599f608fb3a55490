/** A goroutine that runs while nobody holds a lock runs as its sequential code
    does: every trace of the service is a run of the whole system. */
module Sequential {
  import opened Base
  import opened Jobs
  import opened Engine
  import opened Safety
  import opened SafetyActors
  import opened SafetySystem
  import opened Traces

  /** Nobody but thread t holds a lock. */
  ghost predicate Alone(e: Env, s: State, t: nat) {
    t < |s.threads| && forall u :: 0 <= u < |s.threads| && u != t ==> Held(e, s.threads[u]) == {}
  }

  /** The system after thread t has run for a while. */
  ghost predicate RanTo(s: State, t: nat, o: Outcome, s': State)
    requires t < |s.threads|
  {
    s'.sh == o.sh && s'.threads == s.threads[t := o.next] + o.spawned && s'.leaked == s.leaked
  }

  lemma RunsOn(e: Env, s: State, t: nat, o: Outcome, s1: State, ch: Choice)
    requires EnvOk(e) && Safe(e, s1) && Alone(e, s1, t) && t < |s.threads| && RanTo(s, t, o, s1)
    ensures var p := Step(e, o.sh, o.next, ch);
            var s2 := RunThread(e, s1, t, ch);
            Next(e, s1, Run(t, ch), s2) && Alone(e, s2, t) && RanTo(s, t, Outcome(p.sh, p.next, o.spawned + p.spawned), s2)
  {
    hide DbInv, ActorInv, Compatible2, Step, Held, Permitted, NewOwner;
    var a := s1.threads[t];
    assert a == o.next;
    StepKeeps(e, s1.sh, a, ch);
    var p := Step(e, s1.sh, a, ch);
    var s2 := RunThread(e, s1, t, ch);
    forall u | 0 <= u < |s2.threads| && u != t ensures Held(e, s2.threads[u]) == {} {
      if u >= |s1.threads| { assert SpawnOk(e, s1.sh, a, p, p.spawned[u - |s1.threads|]); }
    }
    assert (s.threads[t := o.next] + o.spawned)[t := p.next] + p.spawned == s.threads[t := p.next] + (o.spawned + p.spawned);
  }

  /** From any safe state in which only thread t may hold locks, letting t run
      is an execution of the system that ends where the walk of t ends. */
  lemma {:induction false} WalkIsExecution(e: Env, s: State, t: nat, choices: seq<Choice>) returns (states: seq<State>, events: seq<Event>)
    requires EnvOk(e) && Safe(e, s) && Alone(e, s, t)
    ensures Execution(e, states, events) && states[0] == s && |events| == |choices|
    ensures RanTo(s, t, Walk(e, s.sh, s.threads[t], choices), states[|events|])
    ensures Safe(e, states[|events|]) && Alone(e, states[|events|], t)
    decreases |choices|
  {
    hide Safe, Next, Alone, Step;
    AloneHas(e, s, t);
    if choices == [] {
      assert s.threads[t := s.threads[t]] + [] == s.threads;
      states, events := [s], [];
    } else {
      var n: nat := |choices| - 1;
      var states0, events0 := WalkIsExecution(e, s, t, choices[..n]);
      RunsOn(e, s, t, Walk(e, s.sh, s.threads[t], choices[..n]), states0[n], choices[n]);
      var s2 := RunThread(e, states0[n], t, choices[n]);
      NextSafe(e, states0[n], Run(t, choices[n]), s2);
      states, events := states0 + [s2], events0 + [Run(t, choices[n])];
      forall i | 0 <= i < |events| ensures Next(e, states[i], events[i], states[i + 1]) {
        if i < n { assert Next(e, states0[i], events0[i], states0[i + 1]); }
      }
    }
  }

  lemma AloneHas(e: Env, s: State, t: nat)
    requires Alone(e, s, t)
    ensures t < |s.threads|
  {
  }
}
