/** From which states READY can be reached again, and in exactly how many steps, for every reading. */
module Recoverability {
  import opened Lifecycle
  import opened ModelState
  import opened Events
  import opened Runs
  import opened FiniteSets

  /** How the recovery fields of reachable states hang together. */
  predicate Tracks(r: Rules, s: State) {
    && (s.suspended ==> r.suspendState)
    && (s.detected ==> r.restorationDetected)
    && (!r.restoreSetsRecovery ==> !s.recovery && !s.detected)
    && (r.restoreSetsRecovery && s.suspended && s.sq && s.se ==> s.recovery || s.detected)
  }

  /** A policy suspension that no event of the reading can clear. */
  predicate Stuck(r: Rules, s: State) {
    s.suspended && !r.restoreSetsRecovery
  }

  /**
   * Steps to READY: one per dependency to restore, then, when a recovery is pending or restoring will
   * make it so, one to promote a detection, one to grant a missing authority, and one to recover.
   */
  function RecoverySteps(r: Rules, s: State): nat {
    var down := One(!s.sq) + One(!s.se);
    var restoring := r.restoreSetsRecovery && down > 0;
    var promote := r.restorationDetected && (s.detected || restoring);
    down + if s.recovery || s.detected || restoring
           then One(promote) + One(r.recoverNeedsAuthority && !s.authority) + 1
           else 0
  }

  /** What one step does to the recovery bookkeeping. */
  ghost predicate Follows(r: Rules, s: State, t: State) {
    && Tracks(r, t)
    && (Stuck(r, s) ==> Stuck(r, t))
    && (!Stuck(r, t) ==> RecoverySteps(r, s) <= RecoverySteps(r, t) + 1)
  }

  /** The fields RECOVERY and SUSPENDED depend on are the same. */
  predicate SameFlags(s: State, t: State) {
    && t.sq == s.sq && t.se == s.se && t.authority == s.authority
    && t.recovery == s.recovery && t.detected == s.detected && t.suspended == s.suspended
  }

  lemma InventoryKeepsFlags(r: Rules, s: State, l: Label)
    requires MovesInventory(l)
    ensures SameFlags(s, InventoryFire(r, s, l))
  {
  }

  lemma SessionKeepsFlags(r: Rules, s: State, l: Label)
    requires MovesSession(l) && SessionEnabled(r, s, l)
    ensures SameFlags(s, SessionFire(r, s, l))
  {
  }

  lemma QuietStep(d: Domain, r: Rules, s: State, l: Label, t: State)
    requires Step(d, r, s, l, t) && (MovesInventory(l) || MovesSession(l))
    ensures SameFlags(s, t)
  {
    hide SameFlags, InventoryEnabled, InventoryFire, SessionEnabled, SessionFire, FlagEnabled, FlagFire;
    if MovesInventory(l) {
      InventoryKeepsFlags(r, s, l);
    } else {
      SessionKeepsFlags(r, s, l);
    }
  }

  lemma SameFlagsFollow(r: Rules, s: State, t: State)
    requires Tracks(r, s) && SameFlags(s, t)
    ensures Follows(r, s, t)
  {
  }

  lemma DependencyStep(r: Rules, s: State, l: Label)
    requires Tracks(r, s) && (l.SrcDown? || l.SrcUp? || l.EkmDown? || l.EkmUp?) && FlagEnabled(r, s, l)
    ensures var t := FlagFire(r, s, l);
            && Follows(r, s, t)
            && (!Stuck(r, s) && ((l.SrcUp? && !s.sq) || (l.EkmUp? && !s.se)) ==>
                  !Stuck(r, t) && RecoverySteps(r, s) == RecoverySteps(r, t) + 1)
  {
  }

  lemma AuthorityStep(r: Rules, s: State, l: Label)
    requires Tracks(r, s) && (l.AuthorityWithdraw? || l.AuthorityGrant? || l.Reconcile? || l.Recover?)
    requires FlagEnabled(r, s, l)
    ensures Follows(r, s, FlagFire(r, s, l))
  {
  }

  lemma StepTracks(d: Domain, r: Rules, s: State, l: Label, t: State)
    requires Tracks(r, s) && Step(d, r, s, l, t)
    ensures Follows(r, s, t)
  {
    hide Tracks, Follows, InventoryEnabled, InventoryFire, SessionEnabled, SessionFire, FlagEnabled, FlagFire;
    if MovesInventory(l) || MovesSession(l) {
      QuietStep(d, r, s, l, t);
      SameFlagsFollow(r, s, t);
    } else if l.SrcDown? || l.SrcUp? || l.EkmDown? || l.EkmUp? {
      DependencyStep(r, s, l);
    } else {
      AuthorityStep(r, s, l);
    }
  }

  lemma {:induction false} RunTracks(d: Domain, r: Rules, s: State, t: State, n: nat)
    requires Tracks(r, s) && StepsTo(d, r, s, t, n)
    ensures Tracks(r, t)
    ensures Stuck(r, s) ==> Stuck(r, t)
    ensures !Stuck(r, t) ==> RecoverySteps(r, s) <= RecoverySteps(r, t) + n
    decreases n
  {
    hide StepsTo, Step, Tracks;
    if n == 0 {
      NoSteps(d, r, s, t);
    } else {
      var p, l := LastStep(d, r, s, t, n);
      RunTracks(d, r, s, p, n - 1);
      StepTracks(d, r, p, l, t);
    }
  }

  /** `s` has a run of exactly `RecoverySteps` events to READY. */
  ghost predicate Recovers(d: Domain, r: Rules, s: State) {
    exists t :: StepsTo(d, r, s, t, RecoverySteps(r, s)) && ModeOf(t) == Ready
  }

  lemma RecoversVia(d: Domain, r: Rules, s: State, l: Label, p: State)
    requires Step(d, r, s, l, p) && Recovers(d, r, p) && RecoverySteps(r, s) == RecoverySteps(r, p) + 1
    ensures Recovers(d, r, s)
  {
    hide Step;
    var t :| StepsTo(d, r, p, t, RecoverySteps(r, p)) && ModeOf(t) == Ready;
    OneFirst(d, r, s, l, p, t, RecoverySteps(r, p));
  }

  lemma AlreadyReady(d: Domain, r: Rules, s: State)
    requires RecoverySteps(r, s) == 0 && ModeOf(s) == Ready
    ensures Recovers(d, r, s)
  {
    hide Step, RecoverySteps;
    NoSteps(d, r, s, s);
  }

  lemma ReadyWhenUp(r: Rules, s: State)
    requires Tracks(r, s) && !Stuck(r, s) && s.sq && s.se && !s.detected && !s.recovery
    ensures RecoverySteps(r, s) == 0 && ModeOf(s) == Ready
  {
  }

  lemma RecoverFires(d: Domain, r: Rules, s: State)
    requires Tracks(r, s) && s.sq && s.se && !s.detected && s.recovery && (s.authority || !r.recoverNeedsAuthority)
    ensures var p := RecoverResult(r, s);
      Step(d, r, s, Label.Recover, p) && RecoverySteps(r, p) == 0 && ModeOf(p) == Ready && RecoverySteps(r, s) == 1
  {
  }

  lemma GrantFires(d: Domain, r: Rules, s: State)
    requires Tracks(r, s) && !Stuck(r, s) && s.sq && s.se && !s.detected && s.recovery
    requires r.recoverNeedsAuthority && !s.authority
    ensures var p := s.(authority := true);
      Step(d, r, s, AuthorityGrant, p) && Tracks(r, p) && !Stuck(r, p) && RecoverySteps(r, s) == RecoverySteps(r, p) + 1
  {
  }

  /** With both dependencies up and no detection open: grant a missing authority, then recover. */
  lemma GrantAndRecover(d: Domain, r: Rules, s: State)
    requires Tracks(r, s) && !Stuck(r, s) && s.sq && s.se && !s.detected
    ensures Recovers(d, r, s)
    decreases !s.authority
  {
    hide *;
    if !s.recovery {
      ReadyWhenUp(r, s);
      AlreadyReady(d, r, s);
    } else if r.recoverNeedsAuthority && !s.authority {
      var p := s.(authority := true);
      GrantFires(d, r, s);
      GrantAndRecover(d, r, p);
      RecoversVia(d, r, s, AuthorityGrant, p);
    } else {
      var p := RecoverResult(r, s);
      RecoverFires(d, r, s);
      AlreadyReady(d, r, p);
      RecoversVia(d, r, s, Label.Recover, p);
    }
  }

  /** A run to READY: restore what is down, promote a detection, then grant and recover. */
  lemma ReachReady(d: Domain, r: Rules, s: State)
    requires Tracks(r, s) && !Stuck(r, s)
    ensures Recovers(d, r, s)
    decreases !s.sq, !s.se
  {
    if !s.sq || !s.se {
      var l := if !s.sq then SrcUp else EkmUp;
      var p := Fire(d, r, s, l);
      DependencyStep(r, s, l);
      ReachReady(d, r, p);
      RecoversVia(d, r, s, l, p);
    } else if s.detected {
      var p := s.(detected := false, recovery := true);
      GrantAndRecover(d, r, p);
      RecoversVia(d, r, s, Reconcile, p);
    } else {
      GrantAndRecover(d, r, s);
    }
  }

  lemma ReachableTracks(d: Domain, r: Rules, s: State)
    requires Reachable(d, r, s)
    ensures Tracks(r, s)
  {
    var n: nat :| ReachedIn(d, r, s, n);
    RunTracks(d, r, Initial(), s, n);
  }

  ghost predicate CanRecover(d: Domain, r: Rules, s: State) {
    exists t, n: nat :: StepsTo(d, r, s, t, n) && ModeOf(t) == Ready
  }

  // --- main results --------------------------------------------------------

  /**
   * For every reading, domain and reachable state: READY can be reached again iff the state is not
   * stuck, and then the shortest way there has exactly `RecoverySteps` events.
   */
  lemma RecoverableExactly(d: Domain, r: Rules, s: State)
    requires Reachable(d, r, s)
    ensures CanRecover(d, r, s) <==> !Stuck(r, s)
    ensures !Stuck(r, s) ==> Recovers(d, r, s)
    ensures forall t, n: nat | StepsTo(d, r, s, t, n) && ModeOf(t) == Ready :: RecoverySteps(r, s) <= n
  {
    ReachableTracks(d, r, s);
    if !Stuck(r, s) {
      ReachReady(d, r, s);
    }
    forall t, n: nat | StepsTo(d, r, s, t, n) && ModeOf(t) == Ready
      ensures !Stuck(r, s) && RecoverySteps(r, s) <= n
    {
      RunTracks(d, r, s, t, n);
    }
  }

  /** At most five events in general, and at most three under the calibrated rules. */
  lemma RecoveryBound(d: Domain, r: Rules, s: State)
    requires Reachable(d, r, s)
    ensures RecoverySteps(r, s) <= 3 + One(r.restorationDetected) + One(r.recoverNeedsAuthority)
    ensures r == Calibrated() ==> RecoverySteps(r, s) <= 3
  {
    ReachableTracks(d, r, s);
  }

  /** READY is recoverable from every reachable state exactly in these readings. */
  lemma RecoverableReadings(d: Domain, r: Rules)
    ensures (forall s | Reachable(d, r, s) :: CanRecover(d, r, s)) <==> r.restoreSetsRecovery || !r.suspendState
  {
    if r.restoreSetsRecovery || !r.suspendState {
      forall s | Reachable(d, r, s) ensures CanRecover(d, r, s) {
        ReachableTracks(d, r, s);
        RecoverableExactly(d, r, s);
      }
    } else {
      var down := Fire(d, r, Initial(), SrcDown);
      var held := Fire(d, r, down, AuthorityWithdraw);
      OneMore(d, r, Initial(), Initial(), 0, SrcDown, down);
      OneMore(d, r, Initial(), down, 1, AuthorityWithdraw, held);
      assert ReachedIn(d, r, held, 2);
      RecoverableExactly(d, r, held);
    }
  }

  /** In the remaining readings a suspended state stays SUSPENDED on every run. */
  lemma SuspendedForEver(d: Domain, r: Rules, s: State, t: State, n: nat)
    requires !r.restoreSetsRecovery
    requires Reachable(d, r, s) && s.suspended && StepsTo(d, r, s, t, n)
    ensures ModeOf(t) == Suspended
  {
    ReachableTracks(d, r, s);
    RunTracks(d, r, s, t, n);
  }
}
