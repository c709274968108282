/** What the enumeration reports, derived from the closed forms instead of from a run of it. */
module SearchResults {
  import opened ModelState
  import opened Events
  import opened Checks
  import opened Runs
  import opened Safety
  import opened Reachability
  import opened ShortestRuns
  import opened Census
  import opened Enumeration
  import opened EdgeCensus
  import opened Transitions
  import opened PublishedEdges

  /** Whatever the reading and the domain, and even when it gives up early, a search reports no violation. */
  lemma NoViolationReported(d: Domain, r: Rules, res: Result)
    requires TrueDepths(d, r, res) && TrueReports(d, r, res)
    ensures res.violations == []
  {
    hide Invariants, Guards, Step, StepsTo;
    if res.violations != [] {
      var v := res.violations[0];
      assert v in res.violations;
      match v
      case InvariantViolation(c, i) =>
        var s :| s in res.index && res.index[s] == i && c in Invariants(d, s, RetainsEpoch(r));
        assert ReachedIn(d, r, s, res.states[s]);
        EveryReadingKeepsInvariants(d, r, s);
      case GuardViolation(c, i, l) =>
        var s, t :| s in res.index && res.index[s] == i && Step(d, r, s, l, t) && c in Guards(l, s, t);
        assert ReachedIn(d, r, s, res.states[s]);
        EveryReadingKeepsGuards(d, r, s, l, t);
    }
  }

  lemma SearchedStates(d: Domain, r: Rules, res: Result)
    requires TrueDepths(d, r, res) && Exhaustive(d, r, res)
    ensures forall s :: s in res.states <==> Reachable(d, r, s)
    ensures forall s | s in res.states :: AtDepth(d, r, s, res.states[s])
    ensures forall s | s in res.states :: res.states[s] <= res.maxDepth
    ensures exists s :: s in res.states && res.states[s] == res.maxDepth
  {
    hide Step, Reachable, AtDepth, Guards, Invariants;
    forall s ensures s in res.states <==> Reachable(d, r, s) {
      assert s in res.states.Keys <==> s in res.index.Keys;
    }
  }

  lemma DepthUnique(d: Domain, r: Rules, s: State, m: nat, n: nat)
    requires AtDepth(d, r, s, m) && AtDepth(d, r, s, n)
    ensures m == n && Reachable(d, r, s)
  {
    hide StepsTo;
    assert ReachedIn(d, r, s, m);
  }

  /** A completed search of a plain reading finds the true depths, and the greatest one. */
  lemma PlainSearch(d: Domain, r: Rules, res: Result)
    requires PlainFlags(r) && TrueDepths(d, r, res) && Exhaustive(d, r, res)
    ensures forall s | s in res.states :: res.states[s] == Depth(s)
    ensures res.maxDepth == MaxDepth(d)
  {
    hide TrueDepths, Exhaustive, Reachable, AtDepth, PlainFlags, Depth, MaxDepth;
    SearchedStates(d, r, res);
    forall s | s in res.states ensures res.states[s] == Depth(s) {
      DepthExactly(d, r, s);
      DepthUnique(d, r, s, res.states[s], Depth(s));
    }
    MaxDepthExactly(d, r);
    var deepest :| AtDepth(d, r, deepest, MaxDepth(d));
    DepthUnique(d, r, deepest, MaxDepth(d), MaxDepth(d));
    DepthUnique(d, r, deepest, MaxDepth(d), res.states[deepest]);
  }

  /** A completed search of the calibrated reading: its states, every depth, and the greatest depth. */
  lemma CalibratedSearch(d: Domain, res: Result)
    requires TrueDepths(d, Calibrated(), res) && Exhaustive(d, Calibrated(), res)
    ensures forall s :: s in res.states <==> Core(d, true, s)
    ensures forall s | s in res.states :: res.states[s] == Depth(s)
    ensures res.maxDepth == MaxDepth(d)
    ensures |res.states| == 16 * Cores(|d.ids|, |d.versions|, d.maxEpoch, 0, 0)
  {
    assert PlainFlags(Calibrated());
    hide Calibrated, PlainFlags, TrueDepths, Exhaustive, Reachable, AtDepth, Core, Cores, Depth, MaxDepth;
    PlainSearch(d, Calibrated(), res);
    SearchedStates(d, Calibrated(), res);
    ClosureSize(d, res.states.Keys);
    forall s ensures s in res.states <==> Core(d, true, s) {
      CalibratedReachable(d, s);
    }
  }

  lemma CalibratedReachable(d: Domain, s: State)
    ensures Reachable(d, Calibrated(), s) <==> Core(d, true, s)
  {
    ReachableExactly(d, Calibrated(), s);
  }

  /** The published numbers of states, labelled transitions, depth and violations, for the shipped domain sizes. */
  lemma PublishedNumbers(d: Domain, res: Result)
    requires |d.ids| == 4 && |d.versions| == 2 && d.maxEpoch == 3
    requires TrueDepths(d, Calibrated(), res) && TrueReports(d, Calibrated(), res) && Exhaustive(d, Calibrated(), res)
    ensures |res.states| == 45824 && |res.transitions| == 307680 && res.maxDepth == 16 && res.violations == []
  {
    hide TrueDepths, TrueReports, Exhaustive, Cores, EdgesAt, AllWeights, Calibrated, Core;
    CalibratedSearch(d, res);
    NoViolationReported(d, Calibrated(), res);
    PublishedCores();
    TransitionsExactly(d, res);
    PublishedEdgeCount();
  }
}
