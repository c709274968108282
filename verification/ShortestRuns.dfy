/** The exact depth of every reachable state, and the exact maximum depth, for all domain sizes. */
module ShortestRuns {
  import opened Options
  import opened ModelState
  import opened Events
  import opened Checks
  import opened Runs
  import opened Safety
  import opened FiniteSets
  import opened Reachability
  import opened NoReplay

  /** Readings of the family in which every flag event costs one step, and only when it changes a flag. */
  predicate PlainFlags(r: Rules) {
    EdgeFamily(r) && !r.depTogglesUnconditional && !r.authorityOnlyWhenDegraded
  }

  lemma PoolDepth(d: Domain, r: Rules, s: State, l: Label)
    requires EdgeFamily(r) && (l.Ingest? || l.Expire?) && InventoryEnabled(d, r, s, l)
    ensures Depth(InventoryFire(r, s, l)) <= Depth(s) + 1
  {
    if l.Expire? {
      RemoveSize(s.pool, l.id);
    }
  }

  lemma BindDepth(d: Domain, s: State, b: Binding)
    requires PoolClosed(d, s) && b.id in s.pool
    ensures |s.pool - {b.id}| == |s.pool| - 1 && |s.bindings + {b}| == |s.bindings| + 1
    ensures |VpnBindings(s.bindings + {b})| == |VpnBindings(s.bindings)| + One(b.target.Vpn?)
  {
    RemoveSize(s.pool, b.id);
    forall a | a in s.bindings ensures a != b {
      assert a.id in Consumed(s);
    }
    if b.target.Vpn? {
      assert VpnBindings(s.bindings + {b}) == VpnBindings(s.bindings) + {b};
    } else {
      assert VpnBindings(s.bindings + {b}) == VpnBindings(s.bindings);
    }
  }

  lemma AllocDepth(d: Domain, r: Rules, s: State, l: Label)
    requires EdgeFamily(r) && Closed(d, r, s) && (l.AllocEkm? || l.AllocVpn?) && InventoryEnabled(d, r, s, l)
    ensures Depth(InventoryFire(r, s, l)) <= Depth(s) + 1
  {
    if l.AllocEkm? {
      var b := Binding(l.id, Ekm(l.version));
      BindDepth(d, s, b);
    } else {
      var b := Binding(l.id, Vpn(if l.tag.Some? then l.tag.value else NextEpoch(s)));
      BindDepth(d, s, b);
    }
  }

  lemma FlagDepth(d: Domain, r: Rules, s: State, l: Label)
    requires PlainFlags(r) && !MovesInventory(l) && Enables(d, r, s, l)
    ensures Depth(Fire(d, r, s, l)) <= Depth(s) + 1
  {
    hide InventoryEnabled, InventoryFire, VpnBindings;
  }

  lemma StepDepth(d: Domain, r: Rules, s: State, l: Label)
    requires PlainFlags(r) && Closed(d, r, s) && Enables(d, r, s, l)
    ensures Depth(Fire(d, r, s, l)) <= Depth(s) + 1
  {
    if MovesInventory(l) {
      hide Closed, Depth, InventoryEnabled, InventoryFire, EdgeFamily;
      if l.Ingest? || l.Expire? {
        PoolDepth(d, r, s, l);
      } else {
        AllocDepth(d, r, s, l);
      }
    } else {
      hide Closed, Depth, Enables, Fire, EdgeFamily;
      FlagDepth(d, r, s, l);
    }
  }

  lemma {:induction false} NoShorter(d: Domain, r: Rules, s: State, n: nat)
    requires PlainFlags(r) && ReachedIn(d, r, s, n)
    ensures Depth(s) <= n
    decreases n
  {
    hide StepsTo, Closed, Enables, Fire, EdgeFamily;
    if n == 0 {
      NoSteps(d, r, Initial(), s);
    } else {
      hide Depth;
      var p, l := LastStep(d, r, Initial(), s, n);
      NoShorter(d, r, p, n - 1);
      ReachedClosed(d, r, p, n - 1);
      StepDepth(d, r, p, l);
    }
  }

  lemma {:induction false} DepthReached(d: Domain, r: Rules, s: State, n: nat)
    requires PlainFlags(r) && Closed(d, r, s) && n == Depth(s)
    ensures ReachedIn(d, r, s, n)
    decreases n
  {
    hide Core, Step, EdgeFamily, Excluded;
    if s != Initial() {
      var p, l := Predecessor(d, r, s);
      DepthPositive(d, r, p);
      hide Depth, Detour, StepsTo;
      DepthReached(d, r, p, n - 1);
      OneMore(d, r, Initial(), p, n - 1, l, s);
    }
  }

  // --- the maximum depth ---------------------------------------------------

  function Min(a: nat, b: nat): nat {
    if a <= b then a else b
  }

  /** Every identifier pooled or bound, as many as possible to epochs, then to versions, and every flag astray. */
  function MaxDepth(d: Domain): nat {
    var n := |d.ids|;
    var sessions := Min(n, d.maxEpoch);
    var versions := Min(n - sessions, |d.versions|);
    5 + n + 2 * sessions + versions
  }

  function VpnTargets(last: nat): set<Target> {
    set e: nat | 1 <= e <= last :: Vpn(e)
  }

  function EkmTargets(versions: set<Version>): set<Target> {
    set v | v in versions :: Ekm(v)
  }

  lemma {:induction false} VpnTargetsSize(last: nat)
    ensures |VpnTargets(last)| == last
  {
    if last > 0 {
      VpnTargetsSize(last - 1);
      assert VpnTargets(last) == VpnTargets(last - 1) + {Vpn(last)};
    } else {
      assert VpnTargets(0) == {};
    }
  }

  lemma {:induction false} EkmTargetsSize(versions: set<Version>)
    ensures |EkmTargets(versions)| == |versions|
  {
    if v :| v in versions {
      EkmTargetsSize(versions - {v});
      assert EkmTargets(versions) == EkmTargets(versions - {v}) + {Ekm(v)};
    } else {
      assert EkmTargets(versions) == {};
    }
  }

  lemma {:induction false} TargetsOfSize(bindings: set<Binding>)
    requires UniqueTargets(bindings)
    ensures |TargetsOf(bindings)| == |bindings|
  {
    if b :| b in bindings {
      TargetsOfSize(bindings - {b});
      assert TargetsOf(bindings) == TargetsOf(bindings - {b}) + {b.target};
      assert b.target !in TargetsOf(bindings - {b});
    } else {
      assert TargetsOf(bindings) == {};
    }
  }

  /** How many bindings of each purpose fit. */
  lemma BindingsFit(d: Domain, s: State)
    requires PoolClosed(d, s)
    ensures |s.pool| + |s.bindings| <= |d.ids|
    ensures |VpnBindings(s.bindings)| <= d.maxEpoch
    ensures |VpnBindings(s.bindings)| <= |s.bindings| <= |VpnBindings(s.bindings)| + |d.versions|
  {
    IdentifiersFit(d, s);
    var vpn := VpnBindings(s.bindings);
    var ekm := s.bindings - vpn;
    assert forall b | b in s.bindings :: BoundInDomain(d, b);
    assert UniqueTargets(vpn) && UniqueTargets(ekm);
    assert s.bindings == vpn + ekm;
    hide PoolClosed;
    VpnFits(d, vpn);
    EkmFits(d, ekm);
  }

  lemma IdentifiersFit(d: Domain, s: State)
    requires PoolClosed(d, s)
    ensures |s.pool| + |s.bindings| <= |d.ids|
  {
    IdsOfSize(s.bindings);
    assert |s.pool + Consumed(s)| == |s.pool| + |Consumed(s)|;
    assert forall b | b in s.bindings :: BoundInDomain(d, b);
    SubsetSize(s.pool + Consumed(s), d.ids);
  }

  lemma VpnFits(d: Domain, vpn: set<Binding>)
    requires UniqueTargets(vpn) && forall b | b in vpn :: b.target.Vpn? && BoundInDomain(d, b)
    ensures |vpn| <= d.maxEpoch
  {
    TargetsOfSize(vpn);
    VpnTargetsSize(d.maxEpoch);
    SubsetSize(TargetsOf(vpn), VpnTargets(d.maxEpoch));
  }

  lemma EkmFits(d: Domain, ekm: set<Binding>)
    requires UniqueTargets(ekm) && forall b | b in ekm :: !b.target.Vpn? && BoundInDomain(d, b)
    ensures |ekm| <= |d.versions|
  {
    TargetsOfSize(ekm);
    EkmTargetsSize(d.versions);
    SubsetSize(TargetsOf(ekm), EkmTargets(d.versions));
  }

  lemma DepthBounded(d: Domain, r: Rules, s: State)
    requires Closed(d, r, s)
    ensures Depth(s) <= MaxDepth(d)
  {
    BindingsFit(d, s);
  }

  lemma FreshId(d: Domain, s: State) returns (k: Id)
    requires PoolClosed(d, s) && |s.bindings| < |d.ids|
    ensures k in d.ids && k !in Consumed(s)
  {
    IdsOfSize(s.bindings);
    assert forall b | b in s.bindings :: BoundInDomain(d, b);
    if d.ids <= Consumed(s) {
      SubsetSize(d.ids, Consumed(s));
    }
    k :| k in d.ids && k !in Consumed(s);
  }

  /** An allocation core without a pending session and with an empty pool. */
  predicate Settled(d: Domain, s: State) {
    Core(d, false, s) && s.kp.None? && s.pool == {}
  }

  lemma AddPending(d: Domain, p: State) returns (s: State)
    requires Settled(d, p) && |p.bindings| < |d.ids| && p.epoch < d.maxEpoch
    ensures Core(d, false, s) && s.pool == {} && s.kp.Some? && s.kp.value.epoch == p.epoch + 1 && s.epoch == p.epoch
    ensures |s.bindings| == |p.bindings| + 1 && |VpnBindings(s.bindings)| == |VpnBindings(p.bindings)| + 1
  {
    var k := FreshId(d, p);
    var pooled := p.(pool := {k});
    var e := p.epoch + 1;
    assert Core(d, false, pooled);
    BindVpnClosed(d, false, pooled, k, e);
    BindDepth(d, pooled, Binding(k, Vpn(e)));
    hide Core, VpnBindings;
    s := pooled.(pool := pooled.pool - {k}, bindings := pooled.bindings + {Binding(k, Vpn(e))}, kp := Some(Session(k, e)));
    assert s.pool == {};
  }

  lemma AddSession(d: Domain, p: State) returns (s: State)
    requires Settled(d, p) && |p.bindings| < |d.ids| && p.epoch < d.maxEpoch
    ensures Settled(d, s) && s.epoch == p.epoch + 1
    ensures |s.bindings| == |p.bindings| + 1 && |VpnBindings(s.bindings)| == |VpnBindings(p.bindings)| + 1
  {
    hide Core, VpnBindings;
    var pending := AddPending(d, p);
    ActivateClosed(d, Base(), pending);
    s := SessionFire(Base(), pending, ActivateVpn);
  }

  lemma AddVersion(d: Domain, p: State, v: Version) returns (s: State)
    requires Settled(d, p) && |p.bindings| < |d.ids| && v in d.versions && Ekm(v) !in Targets(p)
    ensures Settled(d, s) && Targets(s) == Targets(p) + {Ekm(v)}
    ensures |s.bindings| == |p.bindings| + 1 && |VpnBindings(s.bindings)| == |VpnBindings(p.bindings)|
  {
    var k := FreshId(d, p);
    var pooled := p.(pool := {k});
    var b := Binding(k, Ekm(v));
    assert Core(d, false, pooled);
    BindEkmClosed(d, false, pooled, k, v);
    BindDepth(d, pooled, b);
    BindClosed(d, pooled, b);
    hide Core, VpnBindings, PoolClosed, TargetsOf;
    s := pooled.(pool := pooled.pool - {k}, bindings := p.bindings + {b}, ke := Some(v));
    assert s.pool == {};
  }

  /** A core with the first `m` epochs active in turn and nothing else. */
  lemma {:induction false} SessionsOnly(d: Domain, m: nat) returns (s: State)
    requires m <= |d.ids| && m <= d.maxEpoch
    ensures Settled(d, s) && s.epoch == m && |s.bindings| == m && |VpnBindings(s.bindings)| == m
    ensures forall v :: Ekm(v) !in Targets(s)
  {
    if m == 0 {
      s := Initial();
      assert VpnBindings(s.bindings) == {};
    } else {
      var p := SessionsOnly(d, m - 1);
      s := AddSession(d, p);
    }
    assert VpnBindings(s.bindings) == s.bindings by {
      SubsetSize(VpnBindings(s.bindings), s.bindings);
    }
    assert forall b | b in s.bindings :: b in VpnBindings(s.bindings);
  }

  /** ... and `|vs|` versions bound as well. */
  lemma {:induction false} SessionsAndVersions(d: Domain, m: nat, vs: set<Version>) returns (s: State)
    requires m + |vs| <= |d.ids| && m <= d.maxEpoch && vs <= d.versions
    ensures Settled(d, s) && |s.bindings| == m + |vs| && |VpnBindings(s.bindings)| == m
    ensures forall v :: Ekm(v) in Targets(s) ==> v in vs
    decreases |vs|
  {
    if v :| v in vs {
      var p := SessionsAndVersions(d, m, vs - {v});
      s := AddVersion(d, p, v);
    } else {
      s := SessionsOnly(d, m);
    }
  }

  lemma {:induction false} TakeSome<T>(all: set<T>, n: nat) returns (some: set<T>)
    requires n <= |all|
    ensures some <= all && |some| == n
  {
    some := {};
    if n > 0 {
      var x :| x in all;
      some := TakeSome(all - {x}, n - 1);
      some := some + {x};
    }
  }

  /** Pooling every unbound identifier. */
  lemma FillPool(d: Domain, p: State) returns (s: State)
    requires Settled(d, p)
    ensures Core(d, false, s) && s.kp.None? && s.bindings == p.bindings && |s.pool| + |s.bindings| == |d.ids|
  {
    IdsOfSize(p.bindings);
    assert forall b | b in p.bindings :: BoundInDomain(d, b);
    var unbound := d.ids - Consumed(p);
    assert d.ids == unbound + Consumed(p);
    s := p.(pool := unbound);
  }

  lemma DeepestState(d: Domain, r: Rules) returns (s: State)
    requires PlainFlags(r)
    ensures Closed(d, r, s) && Depth(s) == MaxDepth(d)
  {
    var n := |d.ids|;
    var m := Min(n, d.maxEpoch);
    var vs := TakeSome(d.versions, Min(n - m, |d.versions|));
    var p := SessionsAndVersions(d, m, vs);
    var filled := FillPool(d, p);
    assert Core(d, r.allocVpnAnyFutureEpoch, filled);
    hide Core, VpnBindings;
    s := filled.(sq := false, se := false, authority := false, recovery := true);
    CoreIgnoresFlags(d, r.allocVpnAnyFutureEpoch, filled, s);
  }

  // --- main results --------------------------------------------------------

  /** Every reachable state has depth exactly `Depth`: the calibrated reading and every plain edge setting. */
  lemma DepthExactly(d: Domain, r: Rules, s: State)
    requires PlainFlags(r) && Reachable(d, r, s)
    ensures 0 <= Depth(s) && AtDepth(d, r, s, Depth(s))
  {
    var k: nat :| ReachedIn(d, r, s, k);
    ReachedClosed(d, r, s, k);
    DepthPositive(d, r, s);
    DepthReached(d, r, s, Depth(s));
    hide Depth, Closed, StepsTo, PlainFlags;
    forall m: nat | m < Depth(s) ensures !ReachedIn(d, r, s, m) {
      if ReachedIn(d, r, s, m) { NoShorter(d, r, s, m); }
    }
  }

  /** The maximum shortest-path depth has the closed form `MaxDepth`, for every domain. */
  lemma MaxDepthExactly(d: Domain, r: Rules)
    requires PlainFlags(r)
    ensures forall s, n: nat | AtDepth(d, r, s, n) :: n <= MaxDepth(d)
    ensures exists s :: AtDepth(d, r, s, MaxDepth(d))
  {
    var deepest := DeepestState(d, r);
    ReachableExactly(d, r, deepest);
    DepthExactly(d, r, deepest);
    forall s, n: nat | AtDepth(d, r, s, n) ensures n <= MaxDepth(d) {
      ReachedClosed(d, r, s, n);
      DepthExactly(d, r, s);
      DepthBounded(d, r, s);
    }
  }

  /** Four identifiers, two versions and three epochs give the published depth of sixteen. */
  lemma PublishedDepth(d: Domain)
    requires |d.ids| == 4 && |d.versions| == 2 && d.maxEpoch == 3
    ensures forall s, n: nat | AtDepth(d, Calibrated(), s, n) :: n <= 16
    ensures exists s :: AtDepth(d, Calibrated(), s, 16)
  {
    MaxDepthExactly(d, Calibrated());
  }
}
