/** Runs of the reference model: step-indexed reachability and labelled traces. */
module Runs {
  import opened ModelState
  import opened Events

  /** `t` is reached from `s` in exactly `n` steps. */
  ghost predicate StepsTo(d: Domain, r: Rules, s: State, t: State, n: nat)
    decreases n
  {
    if n == 0 then s == t
    else exists p, l :: StepsTo(d, r, s, p, n - 1) && Step(d, r, p, l, t)
  }

  ghost predicate ReachedIn(d: Domain, r: Rules, s: State, n: nat) {
    StepsTo(d, r, Initial(), s, n)
  }

  ghost predicate Reachable(d: Domain, r: Rules, s: State) {
    exists n: nat :: ReachedIn(d, r, s, n)
  }

  /** `n` is the length of a shortest run to `s`. */
  ghost predicate AtDepth(d: Domain, r: Rules, s: State, n: nat) {
    ReachedIn(d, r, s, n) && forall m: nat | m < n :: !ReachedIn(d, r, s, m)
  }

  lemma OneMore(d: Domain, r: Rules, s: State, p: State, n: nat, l: Label, t: State)
    requires StepsTo(d, r, s, p, n) && Step(d, r, p, l, t)
    ensures StepsTo(d, r, s, t, n + 1)
  {
    hide Step;
  }

  lemma NoSteps(d: Domain, r: Rules, s: State, t: State)
    requires StepsTo(d, r, s, t, 0)
    ensures t == s
  {
  }

  lemma LastStep(d: Domain, r: Rules, s: State, t: State, n: nat) returns (p: State, l: Label)
    requires StepsTo(d, r, s, t, n) && n > 0
    ensures StepsTo(d, r, s, p, n - 1) && Step(d, r, p, l, t)
  {
    hide Step;
    p, l :| StepsTo(d, r, s, p, n - 1) && Step(d, r, p, l, t);
  }

  lemma {:induction false} Concatenate(d: Domain, r: Rules, s: State, p: State, m: nat, t: State, n: nat)
    requires StepsTo(d, r, s, p, m) && StepsTo(d, r, p, t, n)
    ensures StepsTo(d, r, s, t, m + n)
    decreases n
  {
    hide Step;
    if n > 0 {
      var q, l := LastStep(d, r, p, t, n);
      Concatenate(d, r, s, p, m, q, n - 1);
      OneMore(d, r, s, q, m + n - 1, l, t);
    }
  }

  lemma OneFirst(d: Domain, r: Rules, s: State, l: Label, p: State, t: State, n: nat)
    requires Step(d, r, s, l, p) && StepsTo(d, r, p, t, n)
    ensures StepsTo(d, r, s, t, n + 1)
  {
    hide Step;
    OneMore(d, r, s, s, 0, l, p);
    Concatenate(d, r, s, p, 1, t, n);
  }

  /** A labelled run: `states[i] --labels[i]--> states[i + 1]`, from the initial state. */
  datatype Trace = Trace(states: seq<State>, labels: seq<Label>)

  ghost predicate IsRun(d: Domain, r: Rules, run: Trace) {
    && |run.states| == |run.labels| + 1
    && run.states[0] == Initial()
    && forall i | 0 <= i < |run.labels| :: Step(d, r, run.states[i], run.labels[i], run.states[i + 1])
  }

  lemma {:induction false} RunReaches(d: Domain, r: Rules, run: Trace, i: nat)
    requires IsRun(d, r, run) && i < |run.states|
    ensures ReachedIn(d, r, run.states[i], i)
  {
    if i > 0 {
      RunReaches(d, r, run, i - 1);
      OneMore(d, r, Initial(), run.states[i - 1], i - 1, run.labels[i - 1], run.states[i]);
    }
  }
}
