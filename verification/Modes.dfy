/** Which mode and which indicators each reachable state has, and what they say about the bindings and the run so far. */
module Modes {
  import opened Options
  import opened Lifecycle
  import opened ModelState
  import opened Events
  import opened Runs
  import opened Reachability
  import opened History

  /** A recovery, a detection or a suspension keeps the state from normal classification. */
  predicate Held(s: State) {
    s.recovery || s.detected || s.suspended
  }

  /** Something is down, and no pooled identifier can be served. */
  predicate Cut(s: State) {
    !(s.sq && s.se) && (!s.se || s.pool == {})
  }

  /** When each mode and each indicator holds, whatever the reading. */
  lemma ModesExactly(s: State)
    ensures ModeOf(s) == Recovery <==> s.recovery || s.detected
    ensures ModeOf(s) == Ready <==> !Held(s) && s.sq && s.se
    ensures ModeOf(s) == Buffered <==> !Held(s) && s.se && !s.sq && s.pool != {}
    ensures ModeOf(s) == Suspended <==> !s.recovery && !s.detected && (s.suspended || (Cut(s) && !s.authority))
    ensures ModeOf(s) == BindingHoldover <==> !Held(s) && Cut(s) && s.authority && (s.ke.Some? || s.kv.Some?)
    ensures ModeOf(s) == Exhausted <==> !Held(s) && Cut(s) && s.authority && s.ke.None? && s.kv.None?
    ensures ConsequencesOf(s) == Consequences(s.se, s.se && s.pool != {} && !Held(s), "distinct")
  {
  }

  /** A binding other than that of a session still pending. */
  ghost predicate BoundForGood(s: State) {
    exists b :: b in s.bindings && !(s.kp.Some? && b == Binding(s.kp.value.id, Vpn(s.kp.value.epoch)))
  }

  lemma AuthoritativeExactly(d: Domain, anyFutureEpoch: bool, s: State)
    requires Core(d, anyFutureEpoch, s)
    ensures s.ke.Some? || s.kv.Some? <==> BoundForGood(s)
  {
    if s.ke.Some? {
      var b :| b in s.bindings && b.target == Ekm(s.ke.value);
      assert BoundForGood(s);
    }
    if s.kv.Some? {
      assert Binding(s.kv.value.id, Vpn(s.kv.value.epoch)) in s.bindings;
      assert BoundForGood(s);
    }
  }

  /**
   * In the reachable states of the family of the named readings, whether a cut leaves holdover or exhaustion is decided
   * by the ledger alone: holdover needs a binding that is not that of a session still pending.
   */
  lemma HoldoverExactly(d: Domain, r: Rules, s: State)
    requires EdgeFamily(r) && Reachable(d, r, s)
    ensures ModeOf(s) == BindingHoldover <==> !s.recovery && Cut(s) && s.authority && BoundForGood(s)
    ensures ModeOf(s) == Exhausted <==> !s.recovery && Cut(s) && s.authority && !BoundForGood(s)
    ensures ModeOf(s) == Suspended <==> !s.recovery && Cut(s) && !s.authority
  {
    ReachableExactly(d, r, s);
    AuthoritativeExactly(d, r.allocVpnAnyFutureEpoch, s);
    ModesExactly(s);
    assert !s.detected && !s.suspended;
    hide *;
  }

  /** The source, or the EKM, has gone down and has not come back. */
  ghost predicate SourceLost(run: Trace, n: nat) {
    Since(n, SrcDowns(run), SrcUps(run))
  }

  ghost predicate EkmLost(run: Trace, n: nat) {
    Since(n, EkmDowns(run), EkmUps(run))
  }

  /** Something came back, and no recovery has been completed since. */
  ghost predicate Unreconciled(run: Trace, n: nat) {
    Since(n, SrcUps(run) + EkmUps(run), Recoveries(run))
  }

  /** Some identifier was ingested and has neither expired nor been allocated. */
  ghost predicate Stocked(run: Trace, n: nat) {
    exists k :: Since(n, Ingestions(run, k), Takings(run, k))
  }

  lemma StockedExactly(d: Domain, r: Rules, run: Trace, n: nat)
    requires IsRun(d, r, run) && n < |run.states|
    ensures run.states[n].pool != {} <==> Stocked(run, n)
  {
    hide Step, Since;
    if run.states[n].pool != {} {
      var k :| k in run.states[n].pool;
      PoolFollows(d, r, run, n, k);
    }
    if Stocked(run, n) {
      var k :| Since(n, Ingestions(run, k), Takings(run, k));
      PoolFollows(d, r, run, n, k);
    }
  }

  /** After any run of such a reading the mode, and the fresh allocation indicator, follow from the events alone. */
  lemma ModeFollowsLabels(d: Domain, r: Rules, run: Trace, n: nat)
    requires IsRun(d, r, run) && n < |run.states| && EdgeFamily(r)
    ensures ModeOf(run.states[n]) == Recovery <==> Unreconciled(run, n)
    ensures ModeOf(run.states[n]) == Ready <==> !Unreconciled(run, n) && !SourceLost(run, n) && !EkmLost(run, n)
    ensures ModeOf(run.states[n]) == Buffered
      <==> !Unreconciled(run, n) && SourceLost(run, n) && !EkmLost(run, n) && Stocked(run, n)
    ensures ModeOf(run.states[n]) == Suspended
      <==> (!Unreconciled(run, n) && (EkmLost(run, n) || (SourceLost(run, n) && !Stocked(run, n)))
            && Since(n, Withdrawals(run), Grants(run)))
    ensures ConsequencesOf(run.states[n])
         == Consequences(!EkmLost(run, n), !EkmLost(run, n) && Stocked(run, n) && !Unreconciled(run, n), "distinct")
  {
    var s := run.states[n];
    assert !s.detected && !s.suspended && r.restoreSetsRecovery && !r.restoreRecoveryNeedsFull && !r.restorationDetected by {
      RunReaches(d, r, run, n);
      assert Reachable(d, r, s);
      ReachableExactly(d, r, s);
    }
    hide Step, Since, ModeOf, ConsequencesOf, EdgeFamily, Stocked;
    DependenciesFollow(d, r, run, n);
    RecoveryPending(d, r, run, n);
    StockedExactly(d, r, run, n);
    ModesExactly(s);
    hide IsRun, SrcDowns, SrcUps, EkmDowns, EkmUps, Recoveries, Withdrawals, Grants;
  }
}
