/** The state of the reference model as a history of events: after any run every field is what the labels before it say. */
module History {
  import opened Options
  import opened Lifecycle
  import opened ModelState
  import opened Events
  import opened Checks
  import opened Runs
  import opened Safety
  import Recoverability

  // --- since ------------------------------------------------------------------------

  /** Before `n` there is an index in `starts`, and after it none in `ends`. */
  ghost predicate Since(n: nat, starts: set<nat>, ends: set<nat>) {
    exists i :: i in starts && i < n && forall j | j in ends :: !(i < j < n)
  }

  lemma SinceOneMore(n: nat, starts: set<nat>, ends: set<nat>)
    ensures Since(n + 1, starts, ends) <==> n in starts || (Since(n, starts, ends) && n !in ends)
  {
    if Since(n + 1, starts, ends) {
      var i :| i in starts && i < n + 1 && forall j | j in ends :: !(i < j < n + 1);
      assert i < n ==> forall j | j in ends :: !(i < j < n);
    }
    if Since(n, starts, ends) && n !in ends {
      var i :| i in starts && i < n && forall j | j in ends :: !(i < j < n);
      assert forall j | j in ends :: !(i < j < n + 1);
    }
    if n in starts {
      assert forall j | j in ends :: !(n < j < n + 1);
    }
  }

  /** A condition that an event brings about, or leaves as it was unless it ends it. */
  lemma {:induction false} Tracked(n: nat, holds: set<nat>, starts: set<nat>, ends: set<nat>)
    requires 0 !in holds && forall i: nat | i < n :: i + 1 in holds <==> i in starts || (i in holds && i !in ends)
    ensures n in holds <==> Since(n, starts, ends)
  {
    if n > 0 {
      Tracked(n - 1, holds, starts, ends);
      SinceOneMore(n - 1, starts, ends);
      assert n - 1 + 1 in holds <==> n - 1 in starts || (n - 1 in holds && n - 1 !in ends);
    }
  }

  // --- the dependencies and the authority -----------------------------------------------

  /** Where in a run these events are. */
  function SrcDowns(run: Trace): set<nat> { set i: nat | i < |run.labels| && run.labels[i].SrcDown? }

  function SrcUps(run: Trace): set<nat> { set i: nat | i < |run.labels| && run.labels[i].SrcUp? }

  function EkmDowns(run: Trace): set<nat> { set i: nat | i < |run.labels| && run.labels[i].EkmDown? }

  function EkmUps(run: Trace): set<nat> { set i: nat | i < |run.labels| && run.labels[i].EkmUp? }

  function Withdrawals(run: Trace): set<nat> { set i: nat | i < |run.labels| && run.labels[i].AuthorityWithdraw? }

  function Grants(run: Trace): set<nat> { set i: nat | i < |run.labels| && run.labels[i].AuthorityGrant? }

  function Promotions(run: Trace): set<nat> { set i: nat | i < |run.labels| && run.labels[i].Reconcile? }

  function Recoveries(run: Trace): set<nat> { set i: nat | i < |run.labels| && run.labels[i].Recover? }

  /** A restoration that calls for recovery. */
  predicate Marks(r: Rules, l: Label, t: State) {
    r.restoreSetsRecovery && (l.SrcUp? || l.EkmUp?) && (r.restoreRecoveryNeedsFull ==> t.sq && t.se)
  }

  predicate StartsRecovery(r: Rules, l: Label, t: State) {
    l.Reconcile? || (Marks(r, l, t) && !r.restorationDetected)
  }

  predicate StartsDetection(r: Rules, l: Label, t: State) {
    Marks(r, l, t) && r.restorationDetected
  }

  /** A withdrawal in holdover or exhaustion, where the reading records it. */
  predicate StartsSuspension(r: Rules, s: State, l: Label) {
    l.AuthorityWithdraw? && r.suspendState && (ModeOf(s) == BindingHoldover || ModeOf(s) == Exhausted)
  }

  function RecoveryStarts(r: Rules, run: Trace): set<nat> {
    set i: nat | i < |run.labels| && i + 1 < |run.states| && StartsRecovery(r, run.labels[i], run.states[i + 1])
  }

  function DetectionStarts(r: Rules, run: Trace): set<nat> {
    set i: nat | i < |run.labels| && i + 1 < |run.states| && StartsDetection(r, run.labels[i], run.states[i + 1])
  }

  function SuspensionStarts(r: Rules, run: Trace): set<nat> {
    set i: nat | i < |run.labels| && i < |run.states| && StartsSuspension(r, run.states[i], run.labels[i])
  }

  /** What an event sets and clears among the flags; it leaves every other flag as it was. */
  ghost predicate FlagLaw(r: Rules, s: State, l: Label, t: State) {
    && (t.sq <==> l.SrcUp? || (s.sq && !l.SrcDown?))
    && (t.se <==> l.EkmUp? || (s.se && !l.EkmDown?))
    && (t.authority <==> l.AuthorityGrant? || (s.authority && !l.AuthorityWithdraw?))
    && (t.recovery <==> StartsRecovery(r, l, t) || (s.recovery && !l.Recover?))
    && (t.detected <==> StartsDetection(r, l, t) || (s.detected && !l.Reconcile?))
    && (t.suspended <==> StartsSuspension(r, s, l) || (s.suspended && !l.Recover?))
  }

  lemma QuietFlagLaw(r: Rules, s: State, l: Label, t: State)
    requires (MovesInventory(l) || MovesSession(l)) && Recoverability.SameFlags(s, t)
    ensures FlagLaw(r, s, l, t)
  {
    hide ModeOf;
  }

  lemma DependencyFlagLaw(r: Rules, s: State, l: Label)
    requires l.SrcDown? || l.SrcUp? || l.EkmDown? || l.EkmUp?
    ensures FlagLaw(r, s, l, FlagFire(r, s, l))
  {
    hide ModeOf;
  }

  lemma AuthorityFlagLaw(r: Rules, s: State, l: Label)
    requires l.AuthorityWithdraw? || l.AuthorityGrant? || l.Reconcile? || l.Recover?
    ensures FlagLaw(r, s, l, FlagFire(r, s, l))
  {
    hide ModeOf;
  }

  lemma FlagLawHolds(d: Domain, r: Rules, s: State, l: Label, t: State)
    requires Step(d, r, s, l, t)
    ensures FlagLaw(r, s, l, t)
  {
    hide FlagLaw, InventoryEnabled, InventoryFire, SessionEnabled, SessionFire, FlagEnabled, FlagFire;
    if MovesInventory(l) || MovesSession(l) {
      Recoverability.QuietStep(d, r, s, l, t);
      QuietFlagLaw(r, s, l, t);
    } else if l.SrcDown? || l.SrcUp? || l.EkmDown? || l.EkmUp? {
      DependencyFlagLaw(r, s, l);
    } else {
      AuthorityFlagLaw(r, s, l);
    }
  }

  lemma FlagLawAt(d: Domain, r: Rules, run: Trace)
    requires IsRun(d, r, run)
    ensures forall i: nat | i < |run.labels| :: FlagLaw(r, run.states[i], run.labels[i], run.states[i + 1])
  {
    hide FlagLaw, Step;
    forall i: nat | i < |run.labels| ensures FlagLaw(r, run.states[i], run.labels[i], run.states[i + 1]) {
      FlagLawHolds(d, r, run.states[i], run.labels[i], run.states[i + 1]);
    }
  }

  /** The dependencies and the authority are set by the last event about them. */
  lemma DependenciesFollow(d: Domain, r: Rules, run: Trace, n: nat)
    requires IsRun(d, r, run) && n < |run.states|
    ensures !run.states[n].sq <==> Since(n, SrcDowns(run), SrcUps(run))
    ensures !run.states[n].se <==> Since(n, EkmDowns(run), EkmUps(run))
    ensures !run.states[n].authority <==> Since(n, Withdrawals(run), Grants(run))
  {
    FlagLawAt(d, r, run);
    hide Step, Since, StartsRecovery, StartsDetection, StartsSuspension;
    Tracked(n, (set i: nat | i < |run.states| && !run.states[i].sq), SrcDowns(run), SrcUps(run));
    Tracked(n, (set i: nat | i < |run.states| && !run.states[i].se), EkmDowns(run), EkmUps(run));
    Tracked(n, (set i: nat | i < |run.states| && !run.states[i].authority), Withdrawals(run), Grants(run));
  }

  lemma PendingRecoveryFollows(d: Domain, r: Rules, run: Trace, n: nat)
    requires IsRun(d, r, run) && n < |run.states|
    ensures run.states[n].recovery <==> Since(n, RecoveryStarts(r, run), Recoveries(run))
  {
    FlagLawAt(d, r, run);
    hide Step, Since, StartsRecovery, StartsDetection, StartsSuspension;
    Tracked(n, (set i: nat | i < |run.states| && run.states[i].recovery), RecoveryStarts(r, run), Recoveries(run));
  }

  lemma DetectionFollows(d: Domain, r: Rules, run: Trace, n: nat)
    requires IsRun(d, r, run) && n < |run.states|
    ensures run.states[n].detected <==> Since(n, DetectionStarts(r, run), Promotions(run))
  {
    FlagLawAt(d, r, run);
    hide Step, Since, StartsRecovery, StartsDetection, StartsSuspension;
    Tracked(n, (set i: nat | i < |run.states| && run.states[i].detected), DetectionStarts(r, run), Promotions(run));
  }

  lemma SuspensionFollows(d: Domain, r: Rules, run: Trace, n: nat)
    requires IsRun(d, r, run) && n < |run.states|
    ensures run.states[n].suspended <==> Since(n, SuspensionStarts(r, run), Recoveries(run))
  {
    FlagLawAt(d, r, run);
    hide Step, Since, StartsRecovery, StartsDetection, StartsSuspension;
    Tracked(n, (set i: nat | i < |run.states| && run.states[i].suspended), SuspensionStarts(r, run), Recoveries(run));
  }

  /**
   * A recovery is pending since a restoration that calls for one, or since a detection was promoted, until the next
   * recovery; a detection since such a restoration until it is promoted; and a suspension since the withdrawal that
   * recorded it until the next recovery.
   */
  lemma RecoveryFollows(d: Domain, r: Rules, run: Trace, n: nat)
    requires IsRun(d, r, run) && n < |run.states|
    ensures run.states[n].recovery <==> Since(n, RecoveryStarts(r, run), Recoveries(run))
    ensures run.states[n].detected <==> Since(n, DetectionStarts(r, run), Promotions(run))
    ensures run.states[n].suspended <==> Since(n, SuspensionStarts(r, run), Recoveries(run))
  {
    hide *;
    PendingRecoveryFollows(d, r, run, n);
    DetectionFollows(d, r, run, n);
    SuspensionFollows(d, r, run, n);
  }

  lemma NothingToPromote(d: Domain, r: Rules, s: State, l: Label, t: State)
    requires Step(d, r, s, l, t) && !r.restorationDetected
    ensures !l.Reconcile?
  {
    hide InventoryEnabled, InventoryFire, SessionEnabled, SessionFire, FlagFire;
  }

  /** Under the named readings a recovery is pending exactly when some restoration comes after the last recovery. */
  lemma RecoveryPending(d: Domain, r: Rules, run: Trace, n: nat)
    requires IsRun(d, r, run) && n < |run.states|
    requires r.restoreSetsRecovery && !r.restoreRecoveryNeedsFull && !r.restorationDetected
    ensures run.states[n].recovery <==> Since(n, SrcUps(run) + EkmUps(run), Recoveries(run))
  {
    PendingRecoveryFollows(d, r, run, n);
    hide Since, Step;
    forall i: nat | i < |run.labels| ensures !run.labels[i].Reconcile? {
      NothingToPromote(d, r, run.states[i], run.labels[i], run.states[i + 1]);
    }
    assert RecoveryStarts(r, run) == SrcUps(run) + EkmUps(run);
  }

  // --- pool, retired identifiers and bindings ---------------------------------------------

  function Ingestions(run: Trace, k: Id): set<nat> { set i: nat | i < |run.labels| && run.labels[i] == Ingest(k) }

  /** Where `k` expires or is allocated. */
  function Takings(run: Trace, k: Id): set<nat> { set i: nat | i < |run.labels| && Takes(run.labels[i], k) }

  predicate Takes(l: Label, k: Id) {
    (l.Expire? || l.AllocEkm? || l.AllocVpn?) && l.id == k
  }

  /** The epoch that an allocation binds: the one it names, or the next one. */
  ghost function EpochOf(s: State, l: Label): nat
    requires l.AllocVpn?
  {
    if l.tag.Some? then l.tag.value else NextEpoch(s)
  }

  ghost predicate InventoryLaw(r: Rules, s: State, l: Label, t: State) {
    && (forall k :: k in t.pool <==> l == Ingest(k) || (k in s.pool && !Takes(l, k)))
    && (forall k :: k in t.expired <==> (l == Expire(k) && r.expireMarksUsed) || k in s.expired)
    && (forall b :: b in t.bindings <==> Binds(s, l, b) || b in s.bindings)
  }

  /** The event makes this binding. */
  ghost predicate Binds(s: State, l: Label, b: Binding) {
    || (l.AllocEkm? && b == Binding(l.id, Ekm(l.version)))
    || (l.AllocVpn? && b == Binding(l.id, Vpn(EpochOf(s, l))))
  }

  /** Neither the inventory nor what has come of it moves. */
  predicate SameInventory(s: State, t: State) {
    t.pool == s.pool && t.expired == s.expired && t.bindings == s.bindings && t.order == s.order
  }

  lemma SessionKeepsInventory(r: Rules, s: State, l: Label)
    requires MovesSession(l) && SessionEnabled(r, s, l)
    ensures SameInventory(s, SessionFire(r, s, l))
  {
  }

  lemma FlagKeepsInventory(r: Rules, s: State, l: Label)
    requires !MovesInventory(l) && !MovesSession(l)
    ensures SameInventory(s, FlagFire(r, s, l))
  {
    hide ModeOf;
  }

  lemma InventoryFireLaw(r: Rules, s: State, l: Label)
    requires MovesInventory(l)
    ensures InventoryLaw(r, s, l, InventoryFire(r, s, l))
  {
    hide NextEpoch, Without;
  }

  lemma SameInventoryLaw(r: Rules, s: State, l: Label, t: State)
    requires !MovesInventory(l) && SameInventory(s, t)
    ensures InventoryLaw(r, s, l, t)
  {
    hide NextEpoch;
  }

  lemma InventoryLawHolds(d: Domain, r: Rules, s: State, l: Label, t: State)
    requires Step(d, r, s, l, t)
    ensures InventoryLaw(r, s, l, t)
  {
    hide InventoryLaw, SameInventory, InventoryEnabled, InventoryFire, SessionEnabled, SessionFire, FlagEnabled, FlagFire;
    if MovesInventory(l) {
      InventoryFireLaw(r, s, l);
    } else {
      if MovesSession(l) {
        SessionKeepsInventory(r, s, l);
      } else {
        FlagKeepsInventory(r, s, l);
      }
      SameInventoryLaw(r, s, l, t);
    }
  }

  // --- active version and sessions ----------------------------------------------------------

  /** The session that an event makes active. */
  ghost predicate Activating(r: Rules, s: State, l: Label, x: Session) {
    || (l.ActivateVpn? && s.kp == Some(x))
    || (l.AllocVpn? && r.activateMerged && x == Session(l.id, EpochOf(s, l)))
  }

  ghost predicate MakesPending(r: Rules, s: State, l: Label, x: Session) {
    l.AllocVpn? && !r.activateMerged && x == Session(l.id, EpochOf(s, l))
  }

  predicate EndsPending(r: Rules, l: Label) {
    || l.AllocVpn? || l.ActivateVpn? || l.AbandonPending?
    || (r.downClearsPending && (l.SrcDown? || l.EkmDown?))
    || (r.recoverClearsPending && l.Recover?)
  }

  predicate EndsActive(r: Rules, l: Label) {
    || SetsEpoch(r, l)
    || l.SessionEnd?
    || (r.recoverClearsActive && l.Recover?)
  }

  predicate SetsEpoch(r: Rules, l: Label) {
    || l.ActivateVpn?
    || (r.activateMerged && l.AllocVpn?)
    || (r.abandonConsumesEpoch && l.AbandonPending?)
  }

  /** The event makes this epoch the authoritative one. */
  ghost predicate MakesEpoch(r: Rules, s: State, l: Label, e: nat) {
    || ((l.ActivateVpn? || (r.abandonConsumesEpoch && l.AbandonPending?)) && s.kp.Some? && s.kp.value.epoch == e)
    || (r.activateMerged && l.AllocVpn? && e == EpochOf(s, l))
  }

  predicate EndsVersion(r: Rules, l: Label) {
    l.AllocEkm? || (r.ekmDownClearsActive && l.EkmDown?)
  }

  ghost predicate SessionLaw(r: Rules, s: State, l: Label, t: State) {
    && (forall x :: t.kp == Some(x) <==> MakesPending(r, s, l, x) || (s.kp == Some(x) && !EndsPending(r, l)))
    && (forall x :: t.kv == Some(x) <==> Activating(r, s, l, x) || (s.kv == Some(x) && !EndsActive(r, l)))
    && (if SetsEpoch(r, l) then MakesEpoch(r, s, l, t.epoch) else t.epoch == s.epoch)
    && (forall v :: t.ke == Some(v) <==> (l.AllocEkm? && l.version == v) || (s.ke == Some(v) && !EndsVersion(r, l)))
  }

  lemma AllocationSessionLaw(d: Domain, r: Rules, s: State, l: Label)
    requires MovesInventory(l)
    ensures SessionLaw(r, s, l, InventoryFire(r, s, l))
  {
    hide NextEpoch, Without;
  }

  lemma SessionFireLaw(r: Rules, s: State, l: Label)
    requires MovesSession(l) && SessionEnabled(r, s, l)
    ensures SessionLaw(r, s, l, SessionFire(r, s, l))
  {
    hide NextEpoch;
  }

  lemma DependencySessionLaw(r: Rules, s: State, l: Label)
    requires l.SrcDown? || l.SrcUp? || l.EkmDown? || l.EkmUp?
    ensures SessionLaw(r, s, l, FlagFire(r, s, l))
  {
    hide NextEpoch;
  }

  lemma AuthoritySessionLaw(r: Rules, s: State, l: Label)
    requires l.AuthorityWithdraw? || l.AuthorityGrant? || l.Reconcile? || l.Recover?
    ensures SessionLaw(r, s, l, FlagFire(r, s, l))
  {
    hide ModeOf, NextEpoch;
  }

  lemma SessionLawHolds(d: Domain, r: Rules, s: State, l: Label, t: State)
    requires Step(d, r, s, l, t)
    ensures SessionLaw(r, s, l, t)
  {
    hide SessionLaw, InventoryEnabled, InventoryFire, SessionEnabled, SessionFire, FlagEnabled, FlagFire;
    if MovesInventory(l) {
      AllocationSessionLaw(d, r, s, l);
    } else if MovesSession(l) {
      SessionFireLaw(r, s, l);
    } else if l.SrcDown? || l.SrcUp? || l.EkmDown? || l.EkmUp? {
      DependencySessionLaw(r, s, l);
    } else {
      AuthoritySessionLaw(r, s, l);
    }
  }

  lemma LawsAt(d: Domain, r: Rules, run: Trace)
    requires IsRun(d, r, run)
    ensures forall i: nat | i < |run.labels| ::
      InventoryLaw(r, run.states[i], run.labels[i], run.states[i + 1]) && SessionLaw(r, run.states[i], run.labels[i], run.states[i + 1])
  {
    hide InventoryLaw, SessionLaw, Step;
    forall i: nat | i < |run.labels|
      ensures InventoryLaw(r, run.states[i], run.labels[i], run.states[i + 1])
      ensures SessionLaw(r, run.states[i], run.labels[i], run.states[i + 1])
    {
      InventoryLawHolds(d, r, run.states[i], run.labels[i], run.states[i + 1]);
      SessionLawHolds(d, r, run.states[i], run.labels[i], run.states[i + 1]);
    }
  }

  // --- whole runs -----------------------------------------------------------------------------

  function Expiries(run: Trace, k: Id): set<nat> { set i: nat | i < |run.labels| && run.labels[i] == Expire(k) }

  ghost function BindingSteps(run: Trace, b: Binding): set<nat> {
    set i: nat | i < |run.labels| && i < |run.states| && Binds(run.states[i], run.labels[i], b)
  }

  lemma PoolFollows(d: Domain, r: Rules, run: Trace, n: nat, k: Id)
    requires IsRun(d, r, run) && n < |run.states|
    ensures k in run.states[n].pool <==> Since(n, Ingestions(run, k), Takings(run, k))
  {
    LawsAt(d, r, run);
    hide Step, Since, Binds, Takes, SessionLaw;
    Tracked(n, (set i: nat | i < |run.states| && k in run.states[i].pool), Ingestions(run, k), Takings(run, k));
  }

  lemma ExpiredFollows(d: Domain, r: Rules, run: Trace, n: nat, k: Id)
    requires IsRun(d, r, run) && n < |run.states|
    ensures k in run.states[n].expired <==> r.expireMarksUsed && Since(n, Expiries(run, k), {})
  {
    LawsAt(d, r, run);
    hide Step, Since, Binds, Takes, SessionLaw;
    var starts := if r.expireMarksUsed then Expiries(run, k) else {};
    Tracked(n, (set i: nat | i < |run.states| && k in run.states[i].expired), starts, {});
    NeverSince(n, {});
  }

  lemma BindingsFollow(d: Domain, r: Rules, run: Trace, n: nat, b: Binding)
    requires IsRun(d, r, run) && n < |run.states|
    ensures b in run.states[n].bindings <==> Since(n, BindingSteps(run, b), {})
  {
    LawsAt(d, r, run);
    hide Step, Since, Binds, Takes, SessionLaw;
    Tracked(n, (set i: nat | i < |run.states| && b in run.states[i].bindings), BindingSteps(run, b), {});
  }

  /**
   * An identifier is pooled since it was ingested until it expires or is allocated; it is retired once it has expired,
   * if the reading retires at all; and the bindings are exactly those that allocations have made.
   */
  lemma InventoryFollows(d: Domain, r: Rules, run: Trace, n: nat, k: Id, b: Binding)
    requires IsRun(d, r, run) && n < |run.states|
    ensures k in run.states[n].pool <==> Since(n, Ingestions(run, k), Takings(run, k))
    ensures k in run.states[n].expired <==> r.expireMarksUsed && Since(n, Expiries(run, k), {})
    ensures b in run.states[n].bindings <==> Since(n, BindingSteps(run, b), {})
  {
    hide *;
    PoolFollows(d, r, run, n, k);
    ExpiredFollows(d, r, run, n, k);
    BindingsFollow(d, r, run, n, b);
  }

  lemma NeverSince(n: nat, ends: set<nat>)
    ensures !Since(n, {}, ends)
  {
  }

  ghost function PendingStarts(r: Rules, run: Trace, x: Session): set<nat> {
    set i: nat | i < |run.labels| && i < |run.states| && MakesPending(r, run.states[i], run.labels[i], x)
  }

  function PendingEnds(r: Rules, run: Trace): set<nat> { set i: nat | i < |run.labels| && EndsPending(r, run.labels[i]) }

  ghost function Activations(r: Rules, run: Trace, x: Session): set<nat> {
    set i: nat | i < |run.labels| && i < |run.states| && Activating(r, run.states[i], run.labels[i], x)
  }

  function ActiveEnds(r: Rules, run: Trace): set<nat> { set i: nat | i < |run.labels| && EndsActive(r, run.labels[i]) }

  ghost function EpochStarts(r: Rules, run: Trace, e: nat): set<nat> {
    set i: nat | i < |run.labels| && i < |run.states| && MakesEpoch(r, run.states[i], run.labels[i], e)
  }

  function EpochSteps(r: Rules, run: Trace): set<nat> { set i: nat | i < |run.labels| && SetsEpoch(r, run.labels[i]) }

  function VersionStarts(run: Trace, v: Version): set<nat> {
    set i: nat | i < |run.labels| && run.labels[i].AllocEkm? && run.labels[i].version == v
  }

  function VersionEnds(r: Rules, run: Trace): set<nat> { set i: nat | i < |run.labels| && EndsVersion(r, run.labels[i]) }

  lemma PendingFollows(d: Domain, r: Rules, run: Trace, n: nat, x: Session)
    requires IsRun(d, r, run) && n < |run.states|
    ensures run.states[n].kp == Some(x) <==> Since(n, PendingStarts(r, run, x), PendingEnds(r, run))
  {
    LawsAt(d, r, run);
    hide Step, Since, InventoryLaw, MakesPending, EndsPending, Activating, EndsActive, MakesEpoch, SetsEpoch, EndsVersion;
    Tracked(n, (set i: nat | i < |run.states| && run.states[i].kp == Some(x)), PendingStarts(r, run, x), PendingEnds(r, run));
  }

  lemma ActiveFollows(d: Domain, r: Rules, run: Trace, n: nat, x: Session)
    requires IsRun(d, r, run) && n < |run.states|
    ensures run.states[n].kv == Some(x) <==> Since(n, Activations(r, run, x), ActiveEnds(r, run))
  {
    LawsAt(d, r, run);
    hide Step, Since, InventoryLaw, MakesPending, EndsPending, Activating, EndsActive, MakesEpoch, SetsEpoch, EndsVersion;
    Tracked(n, (set i: nat | i < |run.states| && run.states[i].kv == Some(x)), Activations(r, run, x), ActiveEnds(r, run));
  }

  lemma VersionFollows(d: Domain, r: Rules, run: Trace, n: nat, v: Version)
    requires IsRun(d, r, run) && n < |run.states|
    ensures run.states[n].ke == Some(v) <==> Since(n, VersionStarts(run, v), VersionEnds(r, run))
  {
    LawsAt(d, r, run);
    hide Step, Since, InventoryLaw, MakesPending, EndsPending, Activating, EndsActive, MakesEpoch, SetsEpoch, EndsVersion;
    Tracked(n, (set i: nat | i < |run.states| && run.states[i].ke == Some(v)), VersionStarts(run, v), VersionEnds(r, run));
  }

  /** The pending session, the active session and the active version are the last ones made and not ended since. */
  lemma SessionsFollow(d: Domain, r: Rules, run: Trace, n: nat, x: Session, v: Version)
    requires IsRun(d, r, run) && n < |run.states|
    ensures run.states[n].kp == Some(x) <==> Since(n, PendingStarts(r, run, x), PendingEnds(r, run))
    ensures run.states[n].kv == Some(x) <==> Since(n, Activations(r, run, x), ActiveEnds(r, run))
    ensures run.states[n].ke == Some(v) <==> Since(n, VersionStarts(run, v), VersionEnds(r, run))
  {
    hide *;
    PendingFollows(d, r, run, n, x);
    ActiveFollows(d, r, run, n, x);
    VersionFollows(d, r, run, n, v);
  }

  lemma OneEpoch(r: Rules, s: State, l: Label, e: nat, other: nat)
    requires MakesEpoch(r, s, l, e) && MakesEpoch(r, s, l, other)
    ensures e == other
  {
  }

  lemma EpochLaw(r: Rules, s: State, l: Label, t: State, e: nat)
    requires SessionLaw(r, s, l, t)
    ensures t.epoch == e <==> MakesEpoch(r, s, l, e) || (s.epoch == e && !SetsEpoch(r, l))
  {
    if MakesEpoch(r, s, l, e) && MakesEpoch(r, s, l, t.epoch) {
      OneEpoch(r, s, l, e, t.epoch);
    }
    hide EpochOf;
  }

  /** The authoritative epoch is the last one an activation or a consuming abandonment made so. */
  lemma EpochFollows(d: Domain, r: Rules, run: Trace, n: nat, e: nat)
    requires IsRun(d, r, run) && n < |run.states| && e > 0
    ensures run.states[n].epoch == e <==> Since(n, EpochStarts(r, run, e), EpochSteps(r, run))
  {
    LawsAt(d, r, run);
    hide Step, Since, InventoryLaw, SessionLaw, MakesEpoch, SetsEpoch;
    forall i: nat | i < |run.labels|
      ensures run.states[i + 1].epoch == e
        <==> (MakesEpoch(r, run.states[i], run.labels[i], e) || (run.states[i].epoch == e && !SetsEpoch(r, run.labels[i])))
    {
      EpochLaw(r, run.states[i], run.labels[i], run.states[i + 1], e);
    }
    Tracked(n, (set i: nat | i < |run.states| && run.states[i].epoch == e), EpochStarts(r, run, e), EpochSteps(r, run));
  }

  // --- the epoch of an allocation that names none ---------------------------------------------

  function VpnAllocations(labels: seq<Label>): nat {
    if labels == [] then 0 else VpnAllocations(labels[..|labels| - 1]) + if labels[|labels| - 1].AllocVpn? then 1 else 0
  }

  lemma TopAfter(bindings: set<Binding>, k: Id, e: nat)
    requires TopEpoch(bindings) < e
    ensures TopEpoch(bindings + {Binding(k, Vpn(e))}) == e
  {
    assert Binding(k, Vpn(e)) in bindings + {Binding(k, Vpn(e))};
  }

  lemma TopKept(bindings: set<Binding>, b: Binding)
    requires !b.target.Vpn?
    ensures TopEpoch(bindings + {b}) == TopEpoch(bindings)
  {
    var top, top' := TopEpoch(bindings), TopEpoch(bindings + {b});
    if top > 0 {
      var a :| a in bindings && a.target == Vpn(top);
      assert a in bindings + {b};
    }
    if top' > 0 {
      var a :| a in bindings + {b} && a.target == Vpn(top');
      assert a in bindings;
    }
  }

  /** An epoch that becomes authoritative is bound by then. */
  lemma MadeEpochBound(d: Domain, r: Rules, s: State, l: Label, t: State, e: nat)
    requires !PendingUnbound(d, s) && InventoryLaw(r, s, l, t) && MakesEpoch(r, s, l, e)
    ensures e <= TopEpoch(t.bindings)
  {
    if l.AllocVpn? {
      assert Binding(l.id, Vpn(e)) in t.bindings;
    } else {
      assert Binding(s.kp.value.id, Vpn(e)) in t.bindings;
    }
  }

  lemma TopGrows(a: set<Binding>, b: set<Binding>)
    requires a <= b
    ensures TopEpoch(a) <= TopEpoch(b)
  {
    var top := TopEpoch(a);
    if top > 0 {
      var x :| x in a && x.target == Vpn(top);
      assert x in b;
    }
  }

  /** The authoritative epoch has been bound. */
  lemma EpochStaysBound(d: Domain, r: Rules, s: State, l: Label, t: State)
    requires !PendingUnbound(d, s) && InventoryLaw(r, s, l, t) && SessionLaw(r, s, l, t)
    requires s.epoch <= TopEpoch(s.bindings)
    ensures t.epoch <= TopEpoch(t.bindings)
  {
    hide TopEpoch, MakesEpoch, SetsEpoch;
    assert s.bindings <= t.bindings;
    if SetsEpoch(r, l) {
      MadeEpochBound(d, r, s, l, t, t.epoch);
    } else {
      TopGrows(s.bindings, t.bindings);
    }
  }

  /** With the next epoch always taken, the highest bound epoch is the number of allocations. */
  lemma TopCounts(r: Rules, s: State, l: Label, t: State)
    requires InventoryLaw(r, s, l, t) && s.epoch <= TopEpoch(s.bindings)
    requires l.AllocVpn? ==> l.tag.None?
    ensures TopEpoch(t.bindings) == TopEpoch(s.bindings) + if l.AllocVpn? then 1 else 0
  {
    if l.AllocVpn? {
      assert t.bindings == s.bindings + {Binding(l.id, Vpn(NextEpoch(s)))};
      TopAfter(s.bindings, l.id, NextEpoch(s));
    } else if l.AllocEkm? {
      assert t.bindings == s.bindings + {Binding(l.id, Ekm(l.version))};
      TopKept(s.bindings, Binding(l.id, Ekm(l.version)));
    } else {
      assert t.bindings == s.bindings;
    }
  }

  lemma Untagged(d: Domain, r: Rules, s: State, l: Label, t: State)
    requires Step(d, r, s, l, t) && l.AllocVpn?
    ensures l.tag.Some? == r.allocVpnAnyFutureEpoch
  {
    hide VpnAllocOpen, InventoryFire;
  }

  lemma TopStep(d: Domain, r: Rules, s: State, l: Label, t: State)
    requires Sound(d, r, s) && Step(d, r, s, l, t) && !r.allocVpnAnyFutureEpoch && s.epoch <= TopEpoch(s.bindings)
    ensures t.epoch <= TopEpoch(t.bindings) == TopEpoch(s.bindings) + if l.AllocVpn? then 1 else 0
  {
    hide Step, InventoryLaw, SessionLaw, TopEpoch, OrderAgrees, LedgerSound, PendingUnbound, ActiveMismatch;
    InventoryLawHolds(d, r, s, l, t);
    SessionLawHolds(d, r, s, l, t);
    EpochStaysBound(d, r, s, l, t);
    if l.AllocVpn? {
      Untagged(d, r, s, l, t);
    }
    TopCounts(r, s, l, t);
  }

  lemma CountOneMore(labels: seq<Label>, n: nat)
    requires n < |labels|
    ensures VpnAllocations(labels[..n + 1]) == VpnAllocations(labels[..n]) + if labels[n].AllocVpn? then 1 else 0
  {
    assert labels[..n + 1][..n] == labels[..n];
  }

  lemma {:induction false} TopIsCount(d: Domain, r: Rules, run: Trace, n: nat)
    requires IsRun(d, r, run) && n < |run.states| && !r.allocVpnAnyFutureEpoch
    ensures run.states[n].epoch <= TopEpoch(run.states[n].bindings) == VpnAllocations(run.labels[..n])
  {
    if n > 0 {
      hide Step, Sound, TopEpoch, VpnAllocations, Initial, ReachedIn;
      var m := n - 1;
      TopIsCount(d, r, run, m);
      RunReaches(d, r, run, m);
      ReachedSound(d, r, run.states[m], m);
      assert Step(d, r, run.states[m], run.labels[m], run.states[m + 1]);
      TopStep(d, r, run.states[m], run.labels[m], run.states[n]);
      CountOneMore(run.labels, m);
    }
  }

  /** Where allocations name no epoch, the n-th of them binds epoch n. */
  lemma AllocationsInOrder(d: Domain, r: Rules, run: Trace, i: nat)
    requires IsRun(d, r, run) && i < |run.labels| && !r.allocVpnAnyFutureEpoch && run.labels[i].AllocVpn?
    ensures EpochOf(run.states[i], run.labels[i]) == VpnAllocations(run.labels[..i + 1])
  {
    TopIsCount(d, r, run, i);
    Untagged(d, r, run.states[i], run.labels[i], run.states[i + 1]);
    hide Step, TopEpoch;
    assert run.labels[..i + 1][..i] == run.labels[..i];
  }

  // --- the order of a FIFO pool -------------------------------------------------------------------

  /** `k` has been in the pool since it was ingested at `i`. */
  ghost predicate PooledSince(run: Trace, n: nat, k: Id, i: nat) {
    && i < n <= |run.labels| && run.labels[i] == Ingest(k)
    && forall j: nat | i < j < n :: !Takes(run.labels[j], k)
  }

  /** `a` has been pooled for longer than `b`. */
  ghost predicate Older(run: Trace, n: nat, a: Id, b: Id) {
    exists i, j :: PooledSince(run, n, a, i) && PooledSince(run, n, b, j) && i < j
  }

  ghost predicate OldestFirst(run: Trace, n: nat)
    requires n < |run.states|
  {
    var order := run.states[n].order;
    forall a, b | 0 <= a < b < |order| :: Older(run, n, order[a], order[b])
  }

  /** Taking an identifier out keeps the others in order. */
  lemma {:induction false} WithoutInOrder(order: seq<Id>, k: Id, a: nat, b: nat) returns (a': nat, b': nat)
    requires a < b < |Without(order, k)|
    ensures a' < b' < |order| && order[a'] == Without(order, k)[a] != k && order[b'] == Without(order, k)[b] != k
  {
    if order[0] == k {
      a', b' := WithoutInOrder(order[1..], k, a, b);
      a', b' := a' + 1, b' + 1;
    } else if a > 0 {
      a', b' := WithoutInOrder(order[1..], k, a - 1, b - 1);
      a', b' := a' + 1, b' + 1;
    } else {
      b' := WithoutAt(order[1..], k, b - 1);
      a', b' := 0, b' + 1;
    }
  }

  lemma {:induction false} WithoutAt(order: seq<Id>, k: Id, a: nat) returns (a': nat)
    requires a < |Without(order, k)|
    ensures a' < |order| && order[a'] == Without(order, k)[a] != k
  {
    if order[0] == k {
      a' := WithoutAt(order[1..], k, a);
      a' := a' + 1;
    } else if a > 0 {
      a' := WithoutAt(order[1..], k, a - 1);
      a' := a' + 1;
    } else {
      a' := 0;
    }
  }

  /** What an event does to the order of a FIFO pool. */
  ghost predicate OrderLaw(s: State, l: Label, t: State) {
    t.order == if l.Ingest? then s.order + [l.id]
               else if l.Expire? || l.AllocEkm? || l.AllocVpn? then Without(s.order, l.id)
               else s.order
  }

  lemma InventoryOrderLaw(r: Rules, s: State, l: Label)
    requires MovesInventory(l) && r.fifoPool
    ensures OrderLaw(s, l, InventoryFire(r, s, l))
  {
    hide NextEpoch, Without;
  }

  lemma OrderLawHolds(d: Domain, r: Rules, s: State, l: Label, t: State)
    requires Step(d, r, s, l, t) && r.fifoPool
    ensures OrderLaw(s, l, t)
  {
    hide Without, InventoryEnabled, InventoryFire, SessionEnabled, SessionFire, FlagEnabled, FlagFire;
    if MovesInventory(l) {
      InventoryOrderLaw(r, s, l);
    } else if MovesSession(l) {
      SessionKeepsInventory(r, s, l);
    } else {
      FlagKeepsInventory(r, s, l);
    }
  }

  lemma PooledOneMore(run: Trace, n: nat, k: Id, i: nat)
    requires PooledSince(run, n, k, i) && n < |run.labels| && !Takes(run.labels[n], k)
    ensures PooledSince(run, n + 1, k, i)
  {
  }

  lemma PooledSome(d: Domain, r: Rules, run: Trace, n: nat, k: Id) returns (i: nat)
    requires IsRun(d, r, run) && n < |run.states| && k in run.states[n].pool
    ensures PooledSince(run, n, k, i)
  {
    hide Step;
    PoolFollows(d, r, run, n, k);
    i :| i in Ingestions(run, k) && i < n && forall j | j in Takings(run, k) :: !(i < j < n);
    assert forall j: nat | i < j < n && Takes(run.labels[j], k) :: j in Takings(run, k);
  }

  lemma OldestFirstStep(d: Domain, r: Rules, run: Trace, n: nat)
    requires IsRun(d, r, run) && n < |run.labels| && r.fifoPool && OldestFirst(run, n)
    ensures OldestFirst(run, n + 1)
  {
    var s, l, t := run.states[n], run.labels[n], run.states[n + 1];
    RunReaches(d, r, run, n);
    ReachedSound(d, r, s, n);
    OrderLawHolds(d, r, s, l, t);
    assert forall k | k in s.order :: k in s.pool;
    hide Step, ReachedIn, Older, Sound, Without;
    forall a, b | 0 <= a < b < |t.order| ensures Older(run, n + 1, t.order[a], t.order[b]) {
      if l.Ingest? && b == |s.order| {
        NewestLast(d, r, run, n, s.order[a]);
      } else {
        var a', b' := a, b;
        if l.Expire? || l.AllocEkm? || l.AllocVpn? {
          a', b' := WithoutInOrder(s.order, l.id, a, b);
        }
        OlderStays(run, n, s.order[a'], s.order[b']);
      }
    }
  }

  lemma NewestLast(d: Domain, r: Rules, run: Trace, n: nat, k: Id)
    requires IsRun(d, r, run) && n < |run.labels| && run.labels[n].Ingest? && k in run.states[n].pool
    ensures Older(run, n + 1, k, run.labels[n].id)
  {
    hide Step;
    var i := PooledSome(d, r, run, n, k);
    PooledOneMore(run, n, k, i);
    assert PooledSince(run, n + 1, run.labels[n].id, n);
  }

  lemma OlderStays(run: Trace, n: nat, a: Id, b: Id)
    requires n < |run.labels| && !Takes(run.labels[n], a) && !Takes(run.labels[n], b) && Older(run, n, a, b)
    ensures Older(run, n + 1, a, b)
  {
    hide PooledSince;
    var i, j :| PooledSince(run, n, a, i) && PooledSince(run, n, b, j) && i < j;
    PooledOneMore(run, n, a, i);
    PooledOneMore(run, n, b, j);
  }

  /** A FIFO pool lists its identifiers by how long they have been pooled, and expiry and allocation take the oldest. */
  lemma {:induction false} OrderFollows(d: Domain, r: Rules, run: Trace, n: nat)
    requires IsRun(d, r, run) && n < |run.states| && r.fifoPool
    ensures OldestFirst(run, n)
    ensures forall k | k in Retained(r, run.states[n]) :: run.states[n].order != [] && k == run.states[n].order[0]
  {
    if n > 0 {
      hide Step, OldestFirst;
      OrderFollows(d, r, run, n - 1);
      OldestFirstStep(d, r, run, n - 1);
    }
  }
}
