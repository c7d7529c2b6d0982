/** Finite runs of a deterministic step function; None means that the action is not enabled. */
module Runs {
  import opened Packets

  /** The actions lead from s to t, each enabled when it is taken. */
  ghost predicate Run<S(!new), A(!new)>(step: (S, A) -> Option<S>, s: S, acts: seq<A>, t: S)
    decreases |acts|
  {
    if acts == [] then s == t
    else step(s, acts[0]).Some? && Run(step, step(s, acts[0]).value, acts[1..], t)
  }

  ghost predicate Leads<S(!new), A(!new)>(step: (S, A) -> Option<S>, s: S, t: S) {
    exists acts :: Run(step, s, acts, t)
  }

  lemma {:induction false} RunAppend<S(!new), A(!new)>(step: (S, A) -> Option<S>, s: S, xs: seq<A>, t: S, ys: seq<A>, u: S)
    requires Run(step, s, xs, t) && Run(step, t, ys, u)
    ensures Run(step, s, xs + ys, u)
    decreases |xs|
  {
    if xs == [] {
      assert xs + ys == ys;
    } else {
      RunAppend(step, step(s, xs[0]).value, xs[1..], t, ys, u);
      assert (xs + ys)[1..] == xs[1..] + ys;
    }
  }

  /** What every step keeps holds at the end of a run. */
  lemma {:induction false} Induction<S(!new), A(!new)>(step: (S, A) -> Option<S>, inv: S -> bool, s: S, acts: seq<A>, t: S)
    requires forall u, a :: inv(u) && step(u, a).Some? ==> inv(step(u, a).value)
    requires inv(s) && Run(step, s, acts, t)
    ensures inv(t)
    decreases |acts|
  {
    if acts != [] {
      Induction(step, inv, step(s, acts[0]).value, acts[1..], t);
    }
  }

  lemma LeadsTransitive<S(!new), A(!new)>(step: (S, A) -> Option<S>, s: S, t: S, u: S)
    requires Leads(step, s, t) && Leads(step, t, u)
    ensures Leads(step, s, u)
  {
    var xs :| Run(step, s, xs, t);
    var ys :| Run(step, t, ys, u);
    RunAppend(step, s, xs, t, ys, u);
  }

  lemma LeadsExtend<S(!new), A(!new)>(step: (S, A) -> Option<S>, s: S, t: S, a: A)
    requires Leads(step, s, t) && step(t, a).Some?
    ensures Leads(step, s, step(t, a).value)
  {
    LeadsStep(step, t, a);
    LeadsTransitive(step, s, t, step(t, a).value);
  }

  lemma LeadsSelf<S(!new), A(!new)>(step: (S, A) -> Option<S>, s: S)
    ensures Leads(step, s, s)
  {
    assert Run(step, s, [], s);
  }

  lemma LeadsStep<S(!new), A(!new)>(step: (S, A) -> Option<S>, s: S, a: A)
    requires step(s, a).Some?
    ensures Leads(step, s, step(s, a).value)
  {
    var t := step(s, a).value;
    assert Run(step, t, [], t);
    assert Run(step, s, [a], t);
  }

  /** n steps of a deterministic loop. */
  function Repeat<S>(step: S -> S, s: S, n: nat): S {
    if n == 0 then s else step(Repeat(step, s, n - 1))
  }

  /** What each turn of a loop carries one further holds after n turns. */
  lemma {:induction false} RepeatKeeps<S(!new)>(step: S -> S, inv: (S, nat) -> bool, s: S, n: nat)
    requires inv(s, 0) && forall t: S, k: nat :: k < n && inv(t, k) ==> inv(step(t), k + 1)
    ensures inv(Repeat(step, s, n), n)
  {
    if n > 0 {
      RepeatKeeps(step, inv, s, n - 1);
    }
  }
}
