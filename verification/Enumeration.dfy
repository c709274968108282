/** The breadth-first enumeration of the reachable closure. */
module Enumeration {
  import opened Options
  import opened ModelState
  import opened Events
  import opened Checks
  import opened Runs
  import opened EnabledEdges
  import opened StateSpace
  import opened FiniteSets

  datatype Violation =
    | InvariantViolation(check: Check, state: nat)
    | GuardViolation(check: Check, state: nat, event: Label)

  datatype Result = Result(
    states: map<State, nat>,
    transitions: set<(nat, Label, nat)>,
    maxDepth: nat,
    violations: seq<Violation>,
    index: map<State, nat>,
    aborted: bool,
    rules: Rules)

  // --- what a search has established so far ----------------------------------

  /** `order` lists the known states by number, nearest first; those before `done` have been expanded. */
  ghost predicate Frontier(d: Domain, r: Rules, order: seq<State>, done: nat, index: map<State, nat>, depth: map<State, nat>) {
    && Numbered(order, index, depth)
    && done <= |order|
    && 0 < |order| && order[0] == Initial()
    && Measured(d, r, order, depth)
    && Layered(order, done, depth)
    && Expanded(d, r, order, done, depth)
  }

  ghost predicate Measured(d: Domain, r: Rules, order: seq<State>, depth: map<State, nat>) {
    forall s | s in order :: s in depth && AtDepth(d, r, s, depth[s])
  }

  /** Depths do not decrease along `order`, and exceed the depth of the frontier by at most one. */
  ghost predicate Layered(order: seq<State>, done: nat, depth: map<State, nat>)
    requires forall s | s in order :: s in depth
  {
    && (forall i, j | 0 <= i <= j < |order| :: depth[order[i]] <= depth[order[j]])
    && (done < |order| ==> forall s | s in order :: depth[s] <= depth[order[done]] + 1)
  }

  /** Every successor of an expanded state is known, at most one step further. */
  ghost predicate Expanded(d: Domain, r: Rules, order: seq<State>, done: nat, depth: map<State, nat>)
    requires done <= |order| && forall s | s in order :: s in depth
  {
    forall i, l, t | 0 <= i < done && Step(d, r, order[i], l, t) :: t in depth && depth[t] <= depth[order[i]] + 1
  }

  ghost predicate Numbered(order: seq<State>, index: map<State, nat>, depth: map<State, nat>) {
    && index.Keys == depth.Keys
    && (forall s | s in index :: index[s] < |order| && order[index[s]] == s)
    && (forall i | 0 <= i < |order| :: order[i] in index && index[order[i]] == i)
  }

  /** The edge `(i, l, n)` leaves an expanded state, or is among `edges`, the first edges of the state `done`. */
  ghost predicate Recorded(d: Domain, r: Rules, order: seq<State>, done: nat, edges: seq<Edge>, i: nat, l: Label, n: nat) {
    && i < |order| && n < |order| && Step(d, r, order[i], l, order[n])
    && (i < done || (i == done && (l, order[n]) in edges))
  }

  /** A violation by a known state, or by an edge recorded so far. */
  ghost predicate Reported(d: Domain, r: Rules, order: seq<State>, done: nat, edges: seq<Edge>, v: Violation) {
    match v
    case InvariantViolation(c, i) => i < |order| && c in Invariants(d, order[i], RetainsEpoch(r))
    case GuardViolation(c, i, l) =>
      exists n: nat :: Recorded(d, r, order, done, edges, i, l, n) && c in Guards(l, order[i], order[n])
  }

  /** No state nearer than the frontier is unknown. */
  lemma {:induction false} Covered(d: Domain, r: Rules, order: seq<State>, done: nat, index: map<State, nat>,
                                   depth: map<State, nat>, t: State, n: nat)
    requires Frontier(d, r, order, done, index, depth)
    requires done < |order| ==> n <= depth[order[done]]
    requires ReachedIn(d, r, t, n)
    ensures t in index && depth[t] <= n
    decreases n
  {
    hide StepsTo, Step;
    if n == 0 {
      NoSteps(d, r, Initial(), t);
      assert AtDepth(d, r, order[0], depth[order[0]]);
      assert StepsTo(d, r, Initial(), Initial(), 0) by { assert ReachedIn(d, r, t, 0); }
    } else {
      var p, l := LastStep(d, r, Initial(), t, n);
      Covered(d, r, order, done, index, depth, p, n - 1);
      assert order[index[p]] == p;
      assert index[p] < done;
    }
  }

  // --- one step of the search -----------------------------------------------

  /** An unknown successor of the frontier state is one step further than it, and no nearer. */
  lemma DiscoverDepth(d: Domain, r: Rules, order: seq<State>, done: nat, index: map<State, nat>, depth: map<State, nat>,
                      l: Label, t: State)
    requires Frontier(d, r, order, done, index, depth) && done < |order|
    requires Step(d, r, order[done], l, t) && t !in index
    ensures AtDepth(d, r, t, depth[order[done]] + 1)
  {
    hide Step, StepsTo;
    var n := depth[order[done]];
    assert AtDepth(d, r, order[done], n);
    OneMore(d, r, Initial(), order[done], n, l, t);
    forall m: nat | m < n + 1 ensures !ReachedIn(d, r, t, m) {
      if ReachedIn(d, r, t, m) {
        Covered(d, r, order, done, index, depth, t, m);
      }
    }
  }

  lemma DiscoverNumbered(order: seq<State>, index: map<State, nat>, depth: map<State, nat>, t: State, n: nat)
    requires Numbered(order, index, depth) && t !in index
    ensures Numbered(order + [t], index[t := |order|], depth[t := n])
    ensures t !in order && forall s | s in order :: s in depth && depth[t := n][s] == depth[s]
  {
    forall s | s in order ensures s in depth && s != t {
      var i :| 0 <= i < |order| && order[i] == s;
    }
  }

  lemma DiscoverLayered(order: seq<State>, done: nat, depth: map<State, nat>, t: State)
    requires (forall s | s in order :: s in depth) && Layered(order, done, depth) && done < |order| && t !in depth
    ensures Layered(order + [t], done, depth[t := depth[order[done]] + 1])
  {
    var order1 := order + [t];
    var depth1 := depth[t := depth[order[done]] + 1];
    forall i, j | 0 <= i <= j < |order1| ensures depth1[order1[i]] <= depth1[order1[j]] {
      if i < |order| { assert order[i] in order; }
      if j < |order| { assert order[j] in order; }
    }
  }

  lemma DiscoverMeasured(d: Domain, r: Rules, order: seq<State>, depth: map<State, nat>, t: State, n: nat)
    requires Measured(d, r, order, depth) && t !in depth && AtDepth(d, r, t, n)
    ensures Measured(d, r, order + [t], depth[t := n])
  {
    hide AtDepth;
  }

  lemma DiscoverExpanded(d: Domain, r: Rules, order: seq<State>, done: nat, depth: map<State, nat>, t: State, n: nat)
    requires done <= |order| && (forall s | s in order :: s in depth) && Expanded(d, r, order, done, depth) && t !in depth
    ensures forall s | s in order + [t] :: s in depth[t := n]
    ensures Expanded(d, r, order + [t], done, depth[t := n])
  {
    hide Step;
    assert forall i | 0 <= i < done :: (order + [t])[i] == order[i] && order[i] in order;
  }

  lemma Discover(d: Domain, r: Rules, order: seq<State>, done: nat, index: map<State, nat>, depth: map<State, nat>,
                 l: Label, t: State)
    requires Frontier(d, r, order, done, index, depth) && done < |order|
    requires Step(d, r, order[done], l, t) && t !in index
    ensures Frontier(d, r, order + [t], done, index[t := |order|], depth[t := depth[order[done]] + 1])
  {
    hide Step, AtDepth;
    DiscoverDepth(d, r, order, done, index, depth, l, t);
    var n := depth[order[done]] + 1;
    DiscoverNumbered(order, index, depth, t, n);
    DiscoverMeasured(d, r, order, depth, t, n);
    DiscoverLayered(order, done, depth, t);
    DiscoverExpanded(d, r, order, done, depth, t, n);
    hide Numbered, Measured, Layered, Expanded;
    assert (order + [t])[0] == order[0];
  }

  lemma Advance(d: Domain, r: Rules, order: seq<State>, done: nat, index: map<State, nat>, depth: map<State, nat>)
    requires Frontier(d, r, order, done, index, depth) && done < |order|
    requires forall l, t | Step(d, r, order[done], l, t) :: t in index && depth[t] <= depth[order[done]] + 1
    ensures Frontier(d, r, order, done + 1, index, depth)
  {
    hide Step, AtDepth;
  }

  function InvariantReports(found: seq<Check>, i: nat): (vs: seq<Violation>)
    ensures forall v :: v in vs <==> v.InvariantViolation? && v.check in found && v.state == i
  {
    if found == [] then [] else [InvariantViolation(found[0], i)] + InvariantReports(found[1..], i)
  }

  function GuardReports(found: seq<Check>, i: nat, l: Label): (vs: seq<Violation>)
    ensures forall v :: v in vs <==> v.GuardViolation? && v.check in found && v.state == i && v.event == l
  {
    if found == [] then [] else [GuardViolation(found[0], i, l)] + GuardReports(found[1..], i, l)
  }

  /** Exactly the edges and violations of what has been searched: the states before `done`, and `before`. */
  ghost predicate Tallied(d: Domain, r: Rules, order: seq<State>, done: nat, before: seq<Edge>,
                          edges: set<(nat, Label, nat)>, violations: seq<Violation>) {
    && (forall i: nat, l, n: nat :: (i, l, n) in edges <==> Recorded(d, r, order, done, before, i, l, n))
    && (forall v :: v in violations <==> Reported(d, r, order, done, before, v))
  }

  /** A newly numbered state adds no recorded edge. */
  lemma GrowRecorded(d: Domain, r: Rules, order: seq<State>, done: nat, index: map<State, nat>, depth: map<State, nat>,
                     before: seq<Edge>, t: State, i: nat, l: Label, n: nat)
    requires Frontier(d, r, order, done, index, depth) && done < |order| && t !in index
    requires forall e | e in before :: e.1 in index
    ensures Recorded(d, r, order + [t], done, before, i, l, n) <==> Recorded(d, r, order, done, before, i, l, n)
  {
    hide AtDepth, Step;
    if n == |order| && i < |order| && Step(d, r, order[i], l, t) {
      assert i >= done;
    }
  }

  lemma GrowReported(d: Domain, r: Rules, order: seq<State>, done: nat, index: map<State, nat>, depth: map<State, nat>,
                     before: seq<Edge>, t: State, v: Violation)
    requires Frontier(d, r, order, done, index, depth) && done < |order| && t !in index
    requires forall e | e in before :: e.1 in index
    ensures Reported(d, r, order + [t], done, before, v)
            <==> (Reported(d, r, order, done, before, v)
                  || (v.InvariantViolation? && v.state == |order| && v.check in Invariants(d, t, RetainsEpoch(r))))
  {
    if v.GuardViolation? {
      forall n: nat
        ensures Recorded(d, r, order + [t], done, before, v.state, v.event, n)
                <==> Recorded(d, r, order, done, before, v.state, v.event, n)
      {
        GrowRecorded(d, r, order, done, index, depth, before, t, v.state, v.event, n);
      }
    }
    hide Frontier, Step, Invariants, Guards;
  }

  lemma TallyState(d: Domain, r: Rules, order: seq<State>, done: nat, index: map<State, nat>, depth: map<State, nat>,
                   before: seq<Edge>, t: State, edges: set<(nat, Label, nat)>, violations: seq<Violation>)
    requires Frontier(d, r, order, done, index, depth) && done < |order| && t !in index
    requires forall e | e in before :: e.1 in index
    requires Tallied(d, r, order, done, before, edges, violations)
    ensures Tallied(d, r, order + [t], done, before, edges,
                    violations + InvariantReports(Invariants(d, t, RetainsEpoch(r)), |order|))
  {
    hide Frontier, Step, Invariants, Guards, Recorded, Reported, InvariantReports;
    forall i: nat, l, n: nat
      ensures Recorded(d, r, order + [t], done, before, i, l, n) <==> Recorded(d, r, order, done, before, i, l, n)
    {
      GrowRecorded(d, r, order, done, index, depth, before, t, i, l, n);
    }
    forall v
      ensures Reported(d, r, order + [t], done, before, v)
              <==> (Reported(d, r, order, done, before, v)
                    || (v.InvariantViolation? && v.state == |order| && v.check in Invariants(d, t, RetainsEpoch(r))))
    {
      GrowReported(d, r, order, done, index, depth, before, t, v);
    }
  }

  lemma ExtendRecorded(d: Domain, r: Rules, order: seq<State>, done: nat, index: map<State, nat>, depth: map<State, nat>,
                       before: seq<Edge>, e: Edge, i: nat, l: Label, n: nat)
    requires Numbered(order, index, depth) && done < |order| && e.1 in index
    requires Step(d, r, order[done], e.0, e.1)
    ensures Recorded(d, r, order, done, before + [e], i, l, n)
            <==> Recorded(d, r, order, done, before, i, l, n) || (i == done && l == e.0 && n == index[e.1])
  {
    hide Step;
    assert e == (e.0, e.1);
    if n < |order| {
      assert index[order[n]] == n;
    }
  }

  lemma ExtendReported(d: Domain, r: Rules, order: seq<State>, done: nat, index: map<State, nat>, depth: map<State, nat>,
                       before: seq<Edge>, e: Edge, v: Violation)
    requires Numbered(order, index, depth) && done < |order| && e.1 in index
    requires Step(d, r, order[done], e.0, e.1)
    ensures Reported(d, r, order, done, before + [e], v)
            <==> Reported(d, r, order, done, before, v) || v in GuardReports(Guards(e.0, order[done], e.1), done, e.0)
  {
    if v.GuardViolation? {
      forall n: nat
        ensures Recorded(d, r, order, done, before + [e], v.state, v.event, n)
                <==> Recorded(d, r, order, done, before, v.state, v.event, n)
                     || (v.state == done && v.event == e.0 && n == index[e.1])
      {
        ExtendRecorded(d, r, order, done, index, depth, before, e, v.state, v.event, n);
      }
      assert order[index[e.1]] == e.1;
    }
    hide Step, Invariants, Guards, Recorded;
  }

  lemma TallyEdge(d: Domain, r: Rules, order: seq<State>, done: nat, index: map<State, nat>, depth: map<State, nat>,
                  before: seq<Edge>, e: Edge, edges: set<(nat, Label, nat)>, violations: seq<Violation>,
                  reported: seq<Violation>)
    requires Numbered(order, index, depth) && done < |order| && e.1 in index
    requires Step(d, r, order[done], e.0, e.1)
    requires Tallied(d, r, order, done, before, edges, violations)
    requires forall v :: v in reported <==> v in violations || v in GuardReports(Guards(e.0, order[done], e.1), done, e.0)
    ensures Tallied(d, r, order, done, before + [e], edges + {(done, e.0, index[e.1])}, reported)
  {
    hide Step, Invariants, Guards, Numbered, Recorded, Reported;
    forall i: nat, l, n: nat
      ensures Recorded(d, r, order, done, before + [e], i, l, n)
              <==> Recorded(d, r, order, done, before, i, l, n) || (i == done && l == e.0 && n == index[e.1])
    {
      ExtendRecorded(d, r, order, done, index, depth, before, e, i, l, n);
    }
    forall v
      ensures Reported(d, r, order, done, before + [e], v)
              <==> Reported(d, r, order, done, before, v) || v in GuardReports(Guards(e.0, order[done], e.1), done, e.0)
    {
      ExtendReported(d, r, order, done, index, depth, before, e, v);
    }
  }

  lemma TallyClose(d: Domain, r: Rules, order: seq<State>, done: nat, out: seq<Edge>,
                   edges: set<(nat, Label, nat)>, violations: seq<Violation>)
    requires done < |order| && Tallied(d, r, order, done, out, edges, violations)
    requires forall l, t :: (l, t) in out <==> Step(d, r, order[done], l, t)
    ensures Tallied(d, r, order, done + 1, [], edges, violations)
  {
    hide Step, Invariants, Guards;
    forall i: nat, l, n: nat
      ensures Recorded(d, r, order, done, out, i, l, n) <==> Recorded(d, r, order, done + 1, [], i, l, n)
    {
    }
  }

  // --- main results ----------------------------------------------------------

  ghost predicate HasNumber(res: Result, i: nat) {
    exists s :: s in res.index && res.index[s] == i
  }

  /** States are numbered from 0 without gaps, nearest first, and every recorded depth is the true one. */
  ghost predicate TrueDepths(d: Domain, r: Rules, res: Result) {
    && res.rules == r
    && res.index.Keys == res.states.Keys
    && (forall s | s in res.index :: res.index[s] < |res.index| && AtDepth(d, r, s, res.states[s]))
    && (forall i: nat | i < |res.index| :: HasNumber(res, i))
    && (forall s, t | s in res.index && t in res.index && res.index[s] == res.index[t] :: s == t)
    && (forall s, t | s in res.index && t in res.index && res.index[s] <= res.index[t] ::
          res.states[s] <= res.states[t])
    && (forall s | s in res.states :: res.states[s] <= res.maxDepth)
    && (exists s :: s in res.states && res.states[s] == res.maxDepth)
  }

  /** Every reported transition and violation is real. */
  ghost predicate TrueReports(d: Domain, r: Rules, res: Result) {
    && (forall i, l, n | (i, l, n) in res.transitions ::
          exists s, t :: s in res.index && t in res.index && res.index[s] == i && res.index[t] == n && Step(d, r, s, l, t))
    && (forall v | v in res.violations ::
          match v
          case InvariantViolation(c, i) =>
            exists s :: s in res.index && res.index[s] == i && c in Invariants(d, s, RetainsEpoch(r))
          case GuardViolation(c, i, l) =>
            exists s, t :: s in res.index && res.index[s] == i && Step(d, r, s, l, t) && c in Guards(l, s, t))
  }

  /** The whole closure has been explored: all states, all labelled edges, all violations. */
  ghost predicate Exhaustive(d: Domain, r: Rules, res: Result) {
    && (forall s :: s in res.index <==> Reachable(d, r, s))
    && (forall s, l, t | Reachable(d, r, s) && Step(d, r, s, l, t) ::
          t in res.index && (res.index[s], l, res.index[t]) in res.transitions)
    && (forall s, c | Reachable(d, r, s) && c in Invariants(d, s, RetainsEpoch(r)) ::
          InvariantViolation(c, res.index[s]) in res.violations)
    && (forall s, l, t, c | Reachable(d, r, s) && Step(d, r, s, l, t) && c in Guards(l, s, t) ::
          GuardViolation(c, res.index[s], l) in res.violations)
  }

  lemma NumberedSize(order: seq<State>, index: map<State, nat>, depth: map<State, nat>)
    requires Numbered(order, index, depth)
    ensures |index| == |order| && (set s | s in order) == index.Keys
  {
    forall i, j | 0 <= i < j < |order| ensures order[i] != order[j] {
      assert index[order[i]] == i && index[order[j]] == j;
    }
    DistinctSize(order);
    assert (set s | s in order) == index.Keys;
  }

  /** The search cannot know more states than the finite universe holds. */
  lemma KnownBounded(d: Domain, r: Rules, order: seq<State>, done: nat, index: map<State, nat>, depth: map<State, nat>)
    requires Frontier(d, r, order, done, index, depth)
    ensures |order| <= |Universe(d)|
  {
    NumberedSize(order, index, depth);
    forall s | s in index.Keys ensures s in Universe(d) {
      assert AtDepth(d, r, order[index[s]], depth[s]);
      ReachableInUniverse(d, r, s);
    }
    SubsetSize(index.Keys, Universe(d));
  }

  method MaxValue(depth: map<State, nat>) returns (top: nat)
    requires depth != map[]
    ensures forall s | s in depth :: depth[s] <= top
    ensures exists s :: s in depth && depth[s] == top
  {
    var s0 :| s0 in depth;
    top := depth[s0];
    var todo := depth.Keys;
    while todo != {}
      invariant todo <= depth.Keys
      invariant forall s | s in depth && s !in todo :: depth[s] <= top
      invariant exists s :: s in depth && depth[s] == top
    {
      var s :| s in todo;
      if depth[s] > top {
        top := depth[s];
      }
      todo := todo - {s};
    }
  }

  /** What the search knows about the frontier state and about any other known state. */
  lemma FrontierFacts(d: Domain, r: Rules, order: seq<State>, done: nat, index: map<State, nat>, depth: map<State, nat>)
    requires Frontier(d, r, order, done, index, depth) && done < |order|
    ensures Numbered(order, index, depth) && |index| == |order| && index.Keys == depth.Keys
    ensures order[done] in index && index[order[done]] == done
    ensures forall t | t in index :: depth[t] <= depth[order[done]] + 1
  {
    hide Step, AtDepth;
    NumberedSize(order, index, depth);
    forall t | t in index ensures depth[t] <= depth[order[done]] + 1 {
      assert order[index[t]] == t;
    }
  }

  /** Expands the frontier state: numbers its new successors, records its edges and all violations. */
  method Expand(d: Domain, r: Rules, s: State, index0: map<State, nat>, depth0: map<State, nat>,
                edges0: set<(nat, Label, nat)>, violations0: seq<Violation>, ghost order0: seq<State>, ghost done: nat)
    returns (index: map<State, nat>, depth: map<State, nat>, edges: set<(nat, Label, nat)>, violations: seq<Violation>,
             found: seq<State>)
    requires Frontier(d, r, order0, done, index0, depth0) && done < |order0| && order0[done] == s
    requires Tallied(d, r, order0, done, [], edges0, violations0)
    ensures Frontier(d, r, order0 + found, done + 1, index, depth)
    ensures Tallied(d, r, order0 + found, done + 1, [], edges, violations)
  {
    hide Step, Tallied, Frontier, Numbered, Guards, Invariants;
    index, depth, edges, violations, found := index0, depth0, edges0, violations0, [];
    FrontierFacts(d, r, order0, done, index, depth);
    var src := index[s];
    var next := depth[s] + 1;
    var out := Enabled(d, r, s);
    assert order0 + [] == order0;
    for k := 0 to |out|
      invariant Frontier(d, r, order0 + found, done, index, depth)
      invariant s in index && index.Keys == depth.Keys && index[s] == src == done && depth[s] + 1 == next
      invariant forall e | e in out[..k] :: e.1 in index && depth[e.1] <= next
      invariant Tallied(d, r, order0 + found, done, out[..k], edges, violations)
    {
      assert out[k] in out;
      assert out[..k + 1] == out[..k] + [out[k]];
      index, depth, edges, violations, found :=
        Record(d, r, s, out[k], index, depth, edges, violations, found, order0, done, out[..k]);
    }
    assert out[..|out|] == out;
    TallyClose(d, r, order0 + found, done, out, edges, violations);
    Advance(d, r, order0 + found, done, index, depth);
  }

  /** The body of the inner loop: checks one enabled edge, and numbers its target when it is new. */
  method Record(d: Domain, r: Rules, s: State, e: Edge, index0: map<State, nat>, depth0: map<State, nat>,
                edges0: set<(nat, Label, nat)>, violations0: seq<Violation>, found0: seq<State>,
                ghost order0: seq<State>, ghost done: nat, ghost before: seq<Edge>)
    returns (index: map<State, nat>, depth: map<State, nat>, edges: set<(nat, Label, nat)>, violations: seq<Violation>,
             found: seq<State>)
    requires done < |order0| && order0[done] == s && Frontier(d, r, order0 + found0, done, index0, depth0)
    requires Step(d, r, s, e.0, e.1)
    requires forall f | f in before :: f.1 in index0
    requires Tallied(d, r, order0 + found0, done, before, edges0, violations0)
    ensures Frontier(d, r, order0 + found, done, index, depth)
    ensures index0.Keys + {e.1} == index.Keys == depth.Keys && depth0.Keys == index0.Keys
    ensures forall t | t in index0 :: index[t] == index0[t] && depth[t] == depth0[t]
    ensures s in depth && depth[e.1] <= depth[s] + 1
    ensures Tallied(d, r, order0 + found, done, before + [e], edges, violations)
  {
    hide Step, Tallied, Frontier, Numbered, Guards, Invariants;
    ghost var order := order0 + found0;
    FrontierFacts(d, r, order, done, index0, depth0);
    index, depth, found := index0, depth0, found0;
    var (event, nxt) := e;
    ghost var known0 := violations0;
    violations := violations0 + GuardReports(Guards(event, s, nxt), index[s], event);
    if nxt !in index {
      var known := |index|;
      Discover(d, r, order, done, index, depth, event, nxt);
      TallyState(d, r, order, done, index, depth, before, nxt, edges0, known0);
      index, depth := index[nxt := known], depth[nxt := depth[s] + 1];
      known0 := known0 + InvariantReports(Invariants(d, nxt, RetainsEpoch(r)), known);
      violations := violations + InvariantReports(Invariants(d, nxt, RetainsEpoch(r)), known);
      found := found + [nxt];
      order := order + [nxt];
      FrontierFacts(d, r, order, done, index, depth);
    }
    assert order == order0 + found;
    TallyEdge(d, r, order, done, index, depth, before, e, edges0, known0, violations);
    edges := edges0 + {(index[s], event, index[nxt])};
  }

  // --- what a finished search means -------------------------------------------

  lemma FrontierTrueDepths(d: Domain, r: Rules, order: seq<State>, done: nat, res: Result)
    requires Frontier(d, r, order, done, res.index, res.states) && res.rules == r
    requires forall s | s in res.states :: res.states[s] <= res.maxDepth
    requires exists s :: s in res.states && res.states[s] == res.maxDepth
    ensures TrueDepths(d, r, res)
  {
    hide Step, AtDepth;
    NumberedSize(order, res.index, res.states);
    forall s | s in res.index ensures AtDepth(d, r, s, res.states[s]) {
      assert order[res.index[s]] == s;
    }
    forall i: nat | i < |res.index| ensures HasNumber(res, i) {
      assert order[i] in res.index;
    }
    forall s, t | s in res.index && t in res.index && res.index[s] <= res.index[t]
      ensures res.states[s] <= res.states[t]
    {
      assert order[res.index[s]] == s && order[res.index[t]] == t;
    }
  }

  lemma TalliedTrueReports(d: Domain, r: Rules, order: seq<State>, done: nat, res: Result)
    requires Numbered(order, res.index, res.states)
    requires Tallied(d, r, order, done, [], res.transitions, res.violations)
    ensures TrueReports(d, r, res)
  {
    hide Step, Guards, Invariants;
    forall i, l, n | (i, l, n) in res.transitions
      ensures exists s, t :: s in res.index && t in res.index && res.index[s] == i && res.index[t] == n && Step(d, r, s, l, t)
    {
      assert Recorded(d, r, order, done, [], i, l, n);
      assert order[i] in res.index && order[n] in res.index;
    }
    forall v | v in res.violations
      ensures match v
              case InvariantViolation(c, i) =>
                exists s :: s in res.index && res.index[s] == i && c in Invariants(d, s, RetainsEpoch(r))
              case GuardViolation(c, i, l) =>
                exists s, t :: s in res.index && res.index[s] == i && Step(d, r, s, l, t) && c in Guards(l, s, t)
    {
      assert Reported(d, r, order, done, [], v);
      if v.InvariantViolation? {
        assert order[v.state] in res.index;
      } else {
        var n: nat :| Recorded(d, r, order, done, [], v.state, v.event, n) && v.check in Guards(v.event, order[v.state], order[n]);
        assert order[v.state] in res.index;
      }
    }
  }

  lemma FrontierReachable(d: Domain, r: Rules, order: seq<State>, index: map<State, nat>, depth: map<State, nat>, s: State)
    requires Frontier(d, r, order, |order|, index, depth)
    ensures s in index <==> Reachable(d, r, s)
  {
    hide Step, StepsTo;
    if s in index {
      assert AtDepth(d, r, order[index[s]], depth[s]);
    }
    if Reachable(d, r, s) {
      var n: nat :| ReachedIn(d, r, s, n);
      Covered(d, r, order, |order|, index, depth, s, n);
    }
  }

  lemma EdgeRecorded(d: Domain, r: Rules, order: seq<State>, index: map<State, nat>, depth: map<State, nat>,
                     s: State, l: Label, t: State)
    requires Frontier(d, r, order, |order|, index, depth) && s in index && Step(d, r, s, l, t)
    ensures t in index && order[index[s]] == s && order[index[t]] == t
    ensures Recorded(d, r, order, |order|, [], index[s], l, index[t])
  {
    hide Step, AtDepth;
    assert order[index[s]] == s;
  }

  lemma EdgeReported(d: Domain, r: Rules, order: seq<State>, res: Result, s: State, l: Label, t: State)
    requires Frontier(d, r, order, |order|, res.index, res.states) && s in res.index && Step(d, r, s, l, t)
    requires Tallied(d, r, order, |order|, [], res.transitions, res.violations)
    ensures t in res.index && (res.index[s], l, res.index[t]) in res.transitions
    ensures forall c | c in Guards(l, s, t) :: GuardViolation(c, res.index[s], l) in res.violations
  {
    hide Step, Guards, Invariants, Frontier, Recorded;
    EdgeRecorded(d, r, order, res.index, res.states, s, l, t);
    forall c | c in Guards(l, s, t) ensures GuardViolation(c, res.index[s], l) in res.violations {
      assert Reported(d, r, order, |order|, [], GuardViolation(c, res.index[s], l));
    }
  }

  lemma StateReported(d: Domain, r: Rules, order: seq<State>, res: Result, s: State)
    requires Numbered(order, res.index, res.states) && s in res.index
    requires Tallied(d, r, order, |order|, [], res.transitions, res.violations)
    ensures forall c | c in Invariants(d, s, RetainsEpoch(r)) :: InvariantViolation(c, res.index[s]) in res.violations
  {
    hide Guards, Invariants, Recorded;
    assert order[res.index[s]] == s;
    forall c | c in Invariants(d, s, RetainsEpoch(r)) ensures InvariantViolation(c, res.index[s]) in res.violations {
      assert Reported(d, r, order, |order|, [], InvariantViolation(c, res.index[s]));
    }
  }

  lemma FrontierExhaustive(d: Domain, r: Rules, order: seq<State>, res: Result)
    requires Frontier(d, r, order, |order|, res.index, res.states)
    requires Tallied(d, r, order, |order|, [], res.transitions, res.violations)
    ensures Exhaustive(d, r, res)
  {
    assert Numbered(order, res.index, res.states);
    hide Step, Reachable, Guards, Invariants, Frontier, Numbered, Tallied;
    forall s ensures s in res.index <==> Reachable(d, r, s) {
      FrontierReachable(d, r, order, res.index, res.states, s);
    }
    forall s | Reachable(d, r, s)
      ensures forall c | c in Invariants(d, s, RetainsEpoch(r)) :: InvariantViolation(c, res.index[s]) in res.violations
    {
      StateReported(d, r, order, res, s);
    }
    forall s, l, t | Reachable(d, r, s) && Step(d, r, s, l, t)
      ensures t in res.index && (res.index[s], l, res.index[t]) in res.transitions
      ensures forall c | c in Guards(l, s, t) :: GuardViolation(c, res.index[s], l) in res.violations
    {
      EdgeReported(d, r, order, res, s, l, t);
    }
  }

  lemma StartFrontier(d: Domain, r: Rules)
    ensures Frontier(d, r, [Initial()], 0, map[Initial() := 0], map[Initial() := 0])
  {
    assert ReachedIn(d, r, Initial(), 0);
    assert AtDepth(d, r, Initial(), 0);
    hide Step, AtDepth;
  }

  lemma StartTallied(d: Domain, r: Rules)
    ensures Tallied(d, r, [Initial()], 0, [], {}, InvariantReports(Invariants(d, Initial(), RetainsEpoch(r)), 0))
  {
    hide Step, Invariants, Guards;
    assert forall i: nat, l, n: nat :: !Recorded(d, r, [Initial()], 0, [], i, l, n);
  }

  /**
   * The breadth-first search. It terminates on every domain under every reading; what it returns is
   * true even when it gives up early, and complete when it does not.
   */
  method Run(d: Domain, r: Rules, maxStates: Option<nat>) returns (res: Result)
    ensures TrueDepths(d, r, res)
    ensures TrueReports(d, r, res)
    ensures !res.aborted ==> Exhaustive(d, r, res)
    ensures res.aborted <==> maxStates.Some? && |res.index| > maxStates.value
  {
    hide *;
    var start := Initial();
    var depth := map[start := 0];
    var index := map[start := 0];
    var edges: set<(nat, Label, nat)> := {};
    var violations := InvariantReports(Invariants(d, start, RetainsEpoch(r)), 0);
    var queue := [start];
    var aborted := false;
    ghost var order := [start];
    ghost var done := 0;
    StartFrontier(d, r);
    StartTallied(d, r);
    while queue != [] && !aborted
      invariant Frontier(d, r, order, done, index, depth)
      invariant Tallied(d, r, order, done, [], edges, violations)
      invariant done <= |order| && queue == order[done..]
      invariant order != [] && (aborted ==> 0 < done)
      invariant 0 < done ==> (aborted <==> maxStates.Some? && |index| > maxStates.value)
      decreases |Universe(d)| - done
    {
      var s := queue[0];
      var found;
      index, depth, edges, violations, found := Expand(d, r, s, index, depth, edges, violations, order, done);
      queue := queue[1..] + found;
      order, done := order + found, done + 1;
      KnownBounded(d, r, order, done, index, depth);
      if maxStates.Some? && |index| > maxStates.value {
        aborted := true;
      }
    }
    SearchMeaning(d, r, order, done, index, depth);
    var maxDepth := MaxValue(depth);
    res := Result(depth, edges, maxDepth, violations, index, aborted, r);
    FrontierTrueDepths(d, r, order, done, res);
    TalliedTrueReports(d, r, order, done, res);
    if !aborted {
      FrontierExhaustive(d, r, order, res);
    }
  }

  lemma SearchMeaning(d: Domain, r: Rules, order: seq<State>, done: nat, index: map<State, nat>, depth: map<State, nat>)
    requires Frontier(d, r, order, done, index, depth)
    ensures depth != map[] && Numbered(order, index, depth)
  {
    hide Step, AtDepth;
    assert order[0] in depth;
  }
}
