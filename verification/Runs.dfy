/** Runs of a step system. A system is given by what an action does to a state, if it is enabled there. */
module Runs {
  import opened Wrappers

  /** The states of a run, one more than there are actions. */
  ghost predicate IsRun<S, A>(step: (S, A) -> Option<S>, states: seq<S>, acts: seq<A>) {
    && |states| == |acts| + 1
    && forall i | 0 <= i < |acts| :: Steps(step, states, acts, i)
  }

  ghost predicate Steps<S, A>(step: (S, A) -> Option<S>, states: seq<S>, acts: seq<A>, i: nat)
    requires i < |acts| < |states|
  {
    step(states[i], acts[i]) == Some(states[i + 1])
  }

  lemma StepAt<S, A>(step: (S, A) -> Option<S>, states: seq<S>, acts: seq<A>, i: nat)
    requires IsRun(step, states, acts) && i < |acts|
    ensures step(states[i], acts[i]) == Some(states[i + 1])
  {
    assert Steps(step, states, acts, i);
  }

  /** What holds at first and is kept by every step holds throughout. */
  lemma {:induction false} HoldsThroughout<S, A>(step: (S, A) -> Option<S>, inv: S -> bool, states: seq<S>, acts: seq<A>, i: nat)
    requires IsRun(step, states, acts) && i <= |acts| && inv(states[0])
    requires forall s, a, t | inv(s) && step(s, a) == Some(t) :: inv(t)
    ensures inv(states[i])
  {
    if i > 0 {
      HoldsThroughout(step, inv, states, acts, i - 1);
      StepAt(step, states, acts, i - 1);
    }
  }

  /** The actions lead from one state to another. */
  ghost predicate Leads<S, A>(step: (S, A) -> Option<S>, s: S, acts: seq<A>, t: S)
    decreases |acts|
  {
    if acts == [] then t == s
    else step(s, acts[0]).Some? && Leads(step, step(s, acts[0]).value, acts[1..], t)
  }

  lemma {:induction false} LeadsOn<S, A>(step: (S, A) -> Option<S>, s: S, acts: seq<A>, t: S, more: seq<A>, u: S)
    requires Leads(step, s, acts, t) && Leads(step, t, more, u)
    ensures Leads(step, s, acts + more, u)
    decreases |acts|
  {
    if acts == [] {
      assert acts + more == more;
    } else {
      assert (acts + more)[0] == acts[0] && (acts + more)[1..] == acts[1..] + more;
      LeadsOn(step, step(s, acts[0]).value, acts[1..], t, more, u);
    }
  }

  /** A first action and what it leads on to. */
  lemma LeadsFirst<S, A>(step: (S, A) -> Option<S>, s: S, a: A, t: S, more: seq<A>, u: S)
    requires step(s, a) == Some(t) && Leads(step, t, more, u)
    ensures Leads(step, s, [a] + more, u)
  {
    assert ([a] + more)[1..] == more;
  }

  lemma LeadsOne<S, A>(step: (S, A) -> Option<S>, s: S, a: A, t: S)
    requires step(s, a) == Some(t)
    ensures Leads(step, s, [a], t)
  {
    assert [a][1..] == [];
    assert Leads(step, t, [], t);
  }

  lemma LeadsTwo<S, A>(step: (S, A) -> Option<S>, s: S, a: A, t: S, b: A, u: S)
    requires step(s, a) == Some(t) && step(t, b) == Some(u)
    ensures Leads(step, s, [a, b], u)
  {
    LeadsOne(step, t, b, u);
    LeadsFirst(step, s, a, t, [b], u);
    assert [a] + [b] == [a, b];
  }

  lemma LeadsFour<S, A>(step: (S, A) -> Option<S>, s: S, a: A, t: S, b: A, u: S, c: A, v: S, d: A, w: S)
    requires step(s, a) == Some(t) && step(t, b) == Some(u) && step(u, c) == Some(v) && step(v, d) == Some(w)
    ensures Leads(step, s, [a, b, c, d], w)
  {
    LeadsTwo(step, s, a, t, b, u);
    LeadsTwo(step, u, c, v, d, w);
    LeadsOn(step, s, [a, b], u, [c, d], w);
    assert [a, b] + [c, d] == [a, b, c, d];
  }
}
