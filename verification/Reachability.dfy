/** The exact reachable set of the base and the calibrated reading, under every setting of the edge knobs. */
module Reachability {
  import opened Options
  import opened ModelState
  import opened Events
  import opened Checks
  import opened Runs
  import opened Safety
  import opened FiniteSets

  /**
   * The readings that differ from the base one only in the seven edge knobs of the calibration sweep
   * and in the two knobs of the calibrated reading.
   */
  predicate EdgeFamily(r: Rules) {
    && r.restoreSetsRecovery && !r.restoreRecoveryNeedsFull && !r.allocVpnNeedsNoActive
    && !r.vpnPendingReplaceable && !r.recoverClearsPending && !r.activateMerged && !r.ekmDownClearsActive
    && !r.expireMarksUsed && !r.suspendState && !r.restorationDetected && !r.abandonPending
    && !r.abandonConsumesEpoch && !r.downClearsPending && !r.sessionEnd && !r.recoverClearsActive && !r.fifoPool
  }

  lemma NamedReadingsInFamily()
    ensures EdgeFamily(Base()) && EdgeFamily(Calibrated())
  {
  }

  // --- the closed form -----------------------------------------------------

  /** `active` and `epoch` name the highest bound activation epoch of `bindings`, or nothing and 0. */
  predicate IsTop(bindings: set<Binding>, active: Option<Session>, epoch: nat) {
    && (forall b | b in bindings && b.target.Vpn? :: b.target.epoch <= epoch)
    && match active
       case None => epoch == 0
       case Some(x) => x.epoch == epoch && Binding(x.id, Vpn(epoch)) in bindings
  }

  predicate SessionsClosed(s: State) {
    match s.kp
    case None => IsTop(s.bindings, s.kv, s.epoch)
    case Some(x) =>
      var pending := Binding(x.id, Vpn(x.epoch));
      pending in s.bindings && s.epoch < x.epoch && IsTop(s.bindings - {pending}, s.kv, s.epoch)
  }

  predicate VersionClosed(s: State) {
    match s.ke
    case None => forall b | b in s.bindings :: b.target.Vpn?
    case Some(v) => Ekm(v) in Targets(s)
  }

  /** Bound epochs have no gap below them. */
  predicate Consecutive(bindings: set<Binding>) {
    forall b, e: nat | b in bindings && b.target.Vpn? && 1 <= e < b.target.epoch :: Vpn(e) in TargetsOf(bindings)
  }

  predicate PoolClosed(d: Domain, s: State) {
    && UniqueIds(s.bindings)
    && UniqueTargets(s.bindings)
    && (forall b | b in s.bindings :: BoundInDomain(d, b))
    && s.pool <= d.ids
    && s.pool !! Consumed(s)
    && s.expired == {} && !s.suspended && !s.detected && s.order == []
  }

  /** The allocation core: everything but the four flags, which stay arbitrary. */
  predicate Core(d: Domain, anyFutureEpoch: bool, s: State) {
    && PoolClosed(d, s)
    && VersionClosed(s)
    && SessionsClosed(s)
    && (!anyFutureEpoch ==> Consecutive(s.bindings))
  }

  /** The one flag combination two of the edge knobs exclude together. */
  predicate Excluded(r: Rules, s: State) {
    r.authorityOnlyWhenDegraded && r.recoverNeedsAuthority && s.sq && s.se && !s.authority && !s.recovery
  }

  predicate Closed(d: Domain, r: Rules, s: State) {
    Core(d, r.allocVpnAnyFutureEpoch, s) && !Excluded(r, s)
  }

  // --- every step stays inside ---------------------------------------------

  lemma TopUnique(bindings: set<Binding>, active: Option<Session>, epoch: nat)
    requires IsTop(bindings, active, epoch)
    ensures TopEpoch(bindings) == epoch
  {
  }

  lemma BindClosed(d: Domain, s: State, b: Binding)
    requires PoolClosed(d, s) && b.id in s.pool && b.target !in Targets(s) && BoundInDomain(d, b)
    ensures PoolClosed(d, s.(pool := s.pool - {b.id}, bindings := s.bindings + {b}))
    ensures TargetsOf(s.bindings + {b}) == Targets(s) + {b.target}
    ensures b !in s.bindings
  {
    var bound := s.bindings + {b};
    assert IdsOf(bound) == IdsOf(s.bindings) + {b.id};
    assert TargetsOf(bound) == TargetsOf(s.bindings) + {b.target};
    forall a | a in s.bindings ensures a.id != b.id && a.target != b.target {
      assert a.id in IdsOf(s.bindings) && a.target in TargetsOf(s.bindings);
    }
  }

  lemma AllocEkmClosed(d: Domain, r: Rules, s: State, k: Id, v: Version)
    requires EdgeFamily(r) && Core(d, r.allocVpnAnyFutureEpoch, s) && InventoryEnabled(d, r, s, AllocEkm(k, v))
    ensures Core(d, r.allocVpnAnyFutureEpoch, InventoryFire(r, s, AllocEkm(k, v)))
  {
    BindEkmClosed(d, r.allocVpnAnyFutureEpoch, s, k, v);
    hide Core;
  }

  /** Binding a pooled identifier to an unused version, which becomes the active one. */
  lemma BindEkmClosed(d: Domain, anyFutureEpoch: bool, s: State, k: Id, v: Version)
    requires Core(d, anyFutureEpoch, s) && k in s.pool && v in d.versions && Ekm(v) !in Targets(s)
    ensures Core(d, anyFutureEpoch,
                 s.(pool := s.pool - {k}, bindings := s.bindings + {Binding(k, Ekm(v))}, ke := Some(v)))
  {
    var b := Binding(k, Ekm(v));
    var t := s.(pool := s.pool - {k}, bindings := s.bindings + {b}, ke := Some(v));
    BindClosed(d, s, b);
    hide PoolClosed;
    if s.kp.Some? {
      var pending := Binding(s.kp.value.id, Vpn(s.kp.value.epoch));
      assert t.bindings - {pending} == s.bindings - {pending} + {b};
    }
    assert SessionsClosed(t);
    assert PoolClosed(d, t) by {
      assert PoolClosed(d, s.(pool := s.pool - {k}, bindings := s.bindings + {b}));
      PoolClosedIgnores(d, s.(pool := s.pool - {k}, bindings := s.bindings + {b}), t);
    }
  }

  lemma PoolClosedIgnores(d: Domain, s: State, t: State)
    requires PoolClosed(d, s)
    requires t == s.(ke := t.ke, kp := t.kp, kv := t.kv, epoch := t.epoch)
    ensures PoolClosed(d, t)
  {
  }

  /** Binding the epoch after the authoritative one leaves no gap. */
  lemma AppendConsecutive(s: State, b: Binding)
    requires IsTop(s.bindings, s.kv, s.epoch) && Consecutive(s.bindings) && b.target == Vpn(s.epoch + 1)
    ensures Consecutive(s.bindings + {b})
  {
    assert TargetsOf(s.bindings + {b}) == TargetsOf(s.bindings) + {b.target};
    forall a, e: nat | a in s.bindings + {b} && a.target.Vpn? && 1 <= e < a.target.epoch
      ensures Vpn(e) in TargetsOf(s.bindings + {b})
    {
      if a == b && e == s.epoch {
        assert Binding(s.kv.value.id, Vpn(e)) in s.bindings;
      } else if a == b {
        assert Vpn(e) in TargetsOf(s.bindings) by {
          assert Binding(s.kv.value.id, Vpn(s.epoch)) in s.bindings;
        }
      }
    }
  }

  /** Binding a pooled identifier to a later epoch, pending. */
  lemma BindVpnClosed(d: Domain, anyFutureEpoch: bool, s: State, k: Id, e: nat)
    requires Core(d, anyFutureEpoch, s) && s.kp.None? && k in s.pool
    requires s.epoch < e <= d.maxEpoch && (!anyFutureEpoch ==> e == s.epoch + 1)
    ensures Core(d, anyFutureEpoch,
                 s.(pool := s.pool - {k}, bindings := s.bindings + {Binding(k, Vpn(e))}, kp := Some(Session(k, e))))
  {
    var b := Binding(k, Vpn(e));
    BindClosed(d, s, b);
    assert s.bindings + {b} - {b} == s.bindings;
    if !anyFutureEpoch {
      AppendConsecutive(s, b);
    }
  }

  lemma AllocVpnClosed(d: Domain, r: Rules, s: State, k: Id, tag: Option<nat>)
    requires EdgeFamily(r) && Core(d, r.allocVpnAnyFutureEpoch, s) && InventoryEnabled(d, r, s, AllocVpn(k, tag))
    ensures Core(d, r.allocVpnAnyFutureEpoch, InventoryFire(r, s, AllocVpn(k, tag)))
  {
    TopUnique(s.bindings, s.kv, s.epoch);
    BindVpnClosed(d, r.allocVpnAnyFutureEpoch, s, k, if tag.Some? then tag.value else NextEpoch(s));
  }

  lemma ActivateClosed(d: Domain, r: Rules, s: State)
    requires Core(d, r.allocVpnAnyFutureEpoch, s) && SessionEnabled(r, s, ActivateVpn)
    ensures Core(d, r.allocVpnAnyFutureEpoch, SessionFire(r, s, ActivateVpn))
  {
    var pending := Binding(s.kp.value.id, Vpn(s.kp.value.epoch));
    forall b | b in s.bindings && b.target.Vpn?
      ensures b.target.epoch <= s.kp.value.epoch
    {
      if b != pending {
        assert b in s.bindings - {pending};
      }
    }
  }

  lemma PoolStepClosed(d: Domain, r: Rules, s: State, l: Label)
    requires EdgeFamily(r) && Core(d, r.allocVpnAnyFutureEpoch, s)
    requires (l.Ingest? || l.Expire?) && InventoryEnabled(d, r, s, l)
    ensures Core(d, r.allocVpnAnyFutureEpoch, InventoryFire(r, s, l))
  {
  }

  lemma CoreIgnoresFlags(d: Domain, anyFutureEpoch: bool, s: State, t: State)
    requires t == s.(sq := t.sq, se := t.se, authority := t.authority, recovery := t.recovery)
    requires Core(d, anyFutureEpoch, s)
    ensures Core(d, anyFutureEpoch, t)
  {
  }

  lemma FlagStepShape(r: Rules, s: State, l: Label)
    requires EdgeFamily(r) && !s.suspended && !s.detected
    requires !MovesInventory(l) && !MovesSession(l) && FlagEnabled(r, s, l)
    ensures var t := FlagFire(r, s, l);
            t == s.(sq := t.sq, se := t.se, authority := t.authority, recovery := t.recovery)
  {
  }

  lemma FlagStepIncluded(r: Rules, s: State, l: Label)
    requires EdgeFamily(r) && !s.suspended && !s.detected && !Excluded(r, s)
    requires !MovesInventory(l) && !MovesSession(l) && FlagEnabled(r, s, l)
    ensures !Excluded(r, FlagFire(r, s, l))
  {
  }

  lemma FlagStepClosed(d: Domain, r: Rules, s: State, l: Label)
    requires EdgeFamily(r) && Closed(d, r, s)
    requires !MovesInventory(l) && !MovesSession(l) && FlagEnabled(r, s, l)
    ensures Closed(d, r, FlagFire(r, s, l))
  {
    assert !s.suspended && !s.detected;
    hide Core, FlagEnabled, FlagFire, EdgeFamily, Excluded;
    FlagStepShape(r, s, l);
    FlagStepIncluded(r, s, l);
    CoreIgnoresFlags(d, r.allocVpnAnyFutureEpoch, s, FlagFire(r, s, l));
  }

  lemma InventoryStepClosed(d: Domain, r: Rules, s: State, l: Label)
    requires EdgeFamily(r) && Core(d, r.allocVpnAnyFutureEpoch, s)
    requires MovesInventory(l) && InventoryEnabled(d, r, s, l)
    ensures Core(d, r.allocVpnAnyFutureEpoch, InventoryFire(r, s, l))
  {
    hide Core, EdgeFamily;
    match l
    case AllocEkm(k, v) => AllocEkmClosed(d, r, s, k, v);
    case AllocVpn(k, tag) => AllocVpnClosed(d, r, s, k, tag);
    case _ => PoolStepClosed(d, r, s, l);
  }

  lemma InventoryKeepsFlags(r: Rules, s: State, l: Label)
    requires MovesInventory(l)
    ensures var t := InventoryFire(r, s, l);
            t.sq == s.sq && t.se == s.se && t.authority == s.authority && t.recovery == s.recovery
  {
    hide NextEpoch, PoolAdd, ExpireResult, AllocEkmResult, AllocVpnResult;
    match l
    case Ingest(k) => FlagsKept(r, s, k);
    case Expire(k) => FlagsKept(r, s, k);
    case AllocEkm(k, v) => FlagsKeptByEkm(r, s, k, v);
    case AllocVpn(k, tag) => FlagsKeptByVpn(r, s, k, if tag.Some? then tag.value else NextEpoch(s));
  }

  predicate SameFlags(s: State, t: State) {
    t.sq == s.sq && t.se == s.se && t.authority == s.authority && t.recovery == s.recovery
  }

  lemma FlagsKept(r: Rules, s: State, k: Id)
    ensures SameFlags(s, PoolAdd(r, s, k)) && SameFlags(s, ExpireResult(r, s, k))
  {
  }

  lemma FlagsKeptByEkm(r: Rules, s: State, k: Id, v: Version)
    ensures SameFlags(s, AllocEkmResult(r, s, k, v))
  {
  }

  lemma FlagsKeptByVpn(r: Rules, s: State, k: Id, e: nat)
    ensures SameFlags(s, AllocVpnResult(r, s, k, e))
  {
  }

  lemma StepClosed(d: Domain, r: Rules, s: State, l: Label)
    requires EdgeFamily(r) && Closed(d, r, s) && Enables(d, r, s, l)
    ensures Closed(d, r, Fire(d, r, s, l))
  {
    hide Core, InventoryEnabled, InventoryFire, FlagEnabled, FlagFire;
    if MovesInventory(l) {
      hide EdgeFamily;
      InventoryStepClosed(d, r, s, l);
      InventoryKeepsFlags(r, s, l);
    } else if MovesSession(l) {
      if l.ActivateVpn? {
        ActivateClosed(d, r, s);
      }
    } else {
      hide EdgeFamily;
      FlagStepClosed(d, r, s, l);
    }
  }

  lemma InitialClosed(d: Domain, r: Rules)
    ensures Closed(d, r, Initial())
  {
  }

  lemma {:induction false} ReachedClosed(d: Domain, r: Rules, s: State, n: nat)
    requires EdgeFamily(r) && ReachedIn(d, r, s, n)
    ensures Closed(d, r, s)
    decreases n
  {
    hide StepsTo, Closed, Enables, Fire, EdgeFamily;
    if n == 0 {
      NoSteps(d, r, Initial(), s);
      InitialClosed(d, r);
    } else {
      var p, l := LastStep(d, r, Initial(), s, n);
      ReachedClosed(d, r, p, n - 1);
      StepClosed(d, r, p, l);
    }
  }

  // --- every closed state has a predecessor nearer to the initial state -----

  function VpnBindings(bindings: set<Binding>): set<Binding> {
    set b | b in bindings && b.target.Vpn?
  }

  function FlagCost(s: State): nat {
    One(!s.sq) + One(!s.se) + One(!s.authority) + 2 * One(s.recovery)
  }

  /** The depth of a closed state, in closed form. */
  function Depth(s: State): int {
    |s.pool| + 2 * |s.bindings| + |VpnBindings(s.bindings)| - One(s.kp.Some?) + FlagCost(s)
  }

  /** A state reached through RECOVERY although no flag shows it costs a detour. */
  function Detour(s: State): nat {
    3 * One(s.sq && s.se && !s.authority && !s.recovery)
  }

  /** `p --l--> s`, and `p` is nearer. */
  ghost predicate Before(d: Domain, r: Rules, p: State, l: Label, s: State) {
    && Closed(d, r, p)
    && Step(d, r, p, l, s)
    && Depth(p) + Detour(p) < Depth(s) + Detour(s)
    && (!r.authorityOnlyWhenDegraded ==> Depth(p) + 1 == Depth(s))
  }

  lemma RemoveSize<T>(a: set<T>, x: T)
    requires x in a
    ensures |a - {x}| == |a| - 1
  {
  }

  lemma UnbindClosed(d: Domain, s: State, b: Binding)
    requires PoolClosed(d, s) && b in s.bindings
    ensures PoolClosed(d, s.(pool := s.pool + {b.id}, bindings := s.bindings - {b}))
    ensures b.target !in TargetsOf(s.bindings - {b}) && b.id !in s.pool
  {
    assert b.id in Consumed(s);
    assert BoundInDomain(d, b);
    forall a | a in s.bindings - {b} ensures a.id != b.id && a.target != b.target && a.id in Consumed(s) {
    }
  }

  lemma UnbindSizes(s: State, b: Binding)
    requires b in s.bindings && b.id !in s.pool
    ensures s.bindings - {b} + {b} == s.bindings && s.pool + {b.id} - {b.id} == s.pool
    ensures |s.pool + {b.id}| == |s.pool| + 1 && |s.bindings - {b}| == |s.bindings| - 1
    ensures |VpnBindings(s.bindings - {b})| == |VpnBindings(s.bindings)| - One(b.target.Vpn?)
  {
    RemoveSize(s.bindings, b);
    if b.target.Vpn? {
      assert VpnBindings(s.bindings - {b}) == VpnBindings(s.bindings) - {b};
    } else {
      assert VpnBindings(s.bindings - {b}) == VpnBindings(s.bindings);
    }
  }

  /** Without its highest epoch, a set of bindings without gaps still has none. */
  lemma DropTopConsecutive(bindings: set<Binding>, top: Binding)
    requires Consecutive(bindings) && top in bindings && top.target.Vpn?
    requires forall b | b in bindings - {top} && b.target.Vpn? :: b.target.epoch < top.target.epoch
    ensures Consecutive(bindings - {top})
    ensures top.target.epoch > 1 ==> exists b | b in bindings - {top} :: b.target == Vpn(top.target.epoch - 1)
  {
    forall a, e: nat | a in bindings - {top} && a.target.Vpn? && 1 <= e < a.target.epoch
      ensures Vpn(e) in TargetsOf(bindings - {top})
    {
      assert Vpn(e) in TargetsOf(bindings);
      var b :| b in bindings && b.target == Vpn(e);
      assert b in bindings - {top};
    }
    if top.target.epoch > 1 {
      var e: nat := top.target.epoch - 1;
      assert Vpn(e) in TargetsOf(bindings);
      var b :| b in bindings && b.target == Vpn(e);
      assert b in bindings - {top};
    }
  }

  predicate AllUp(s: State) {
    s.sq && s.se && s.authority && !s.recovery
  }

  lemma UnpendClosed(d: Domain, anyFutureEpoch: bool, s: State)
    requires Core(d, anyFutureEpoch, s) && s.kp.Some?
    ensures var x := s.kp.value;
            var b := Binding(x.id, Vpn(x.epoch));
            && Core(d, anyFutureEpoch, s.(pool := s.pool + {b.id}, bindings := s.bindings - {b}, kp := None))
            && b in s.bindings && b.id !in s.pool && IsTop(s.bindings - {b}, s.kv, s.epoch)
            && s.epoch < x.epoch <= d.maxEpoch
            && (!anyFutureEpoch ==> x.epoch == s.epoch + 1)
  {
    var x := s.kp.value;
    var b := Binding(x.id, Vpn(x.epoch));
    UnbindClosed(d, s, b);
    assert BoundInDomain(d, b);
    if !anyFutureEpoch {
      DropTopConsecutive(s.bindings, b);
    }
    if s.ke.Some? {
      var a :| a in s.bindings && a.target == Ekm(s.ke.value);
      assert a in s.bindings - {b};
    }
  }

  lemma AllocVpnStep(d: Domain, r: Rules, p: State, x: Session) returns (l: Label)
    requires EdgeFamily(r) && AllUp(p) && p.kp.None? && IsTop(p.bindings, p.kv, p.epoch)
    requires x.id in p.pool && p.epoch < x.epoch <= d.maxEpoch
    requires !r.allocVpnAnyFutureEpoch ==> x.epoch == p.epoch + 1
    ensures Step(d, r, p, l,
                 p.(pool := p.pool - {x.id}, bindings := p.bindings + {Binding(x.id, Vpn(x.epoch))}, kp := Some(x)))
  {
    TopUnique(p.bindings, p.kv, p.epoch);
    hide TopEpoch;
    l := AllocVpn(x.id, if r.allocVpnAnyFutureEpoch then Some(x.epoch) else None);
  }

  /** A pending session was allocated last. */
  lemma BeforePending(d: Domain, r: Rules, s: State) returns (p: State, l: Label)
    requires EdgeFamily(r) && Closed(d, r, s) && AllUp(s) && s.kp.Some?
    ensures Before(d, r, p, l, s)
  {
    hide Core, IsTop, Step, VpnBindings;
    var x := s.kp.value;
    var b := Binding(x.id, Vpn(x.epoch));
    p := s.(pool := s.pool + {b.id}, bindings := s.bindings - {b}, kp := None);
    UnpendClosed(d, r.allocVpnAnyFutureEpoch, s);
    UnbindSizes(s, b);
    l := AllocVpnStep(d, r, p, x);
    assert s == p.(pool := p.pool - {x.id}, bindings := p.bindings + {b}, kp := Some(x));
  }

  lemma ReactivateClosed(d: Domain, anyFutureEpoch: bool, s: State) returns (second: Option<Session>, epoch: nat)
    requires Core(d, anyFutureEpoch, s) && s.kp.None? && s.kv.Some?
    ensures Core(d, anyFutureEpoch, s.(kp := s.kv, kv := second, epoch := epoch)) && epoch < s.epoch
    ensures s.kv.value.epoch == s.epoch
  {
    var b := Binding(s.kv.value.id, Vpn(s.epoch));
    var rest := s.bindings - {b};
    assert BoundInDomain(d, b);
    second, epoch := None, TopEpoch(rest);
    if epoch > 0 {
      var a :| a in rest && a.target == Vpn(epoch);
      second := Some(Session(a.id, epoch));
    }
    forall a | a in rest && a.target.Vpn? ensures a.target.epoch <= epoch && a.target.epoch < s.epoch {
      assert BoundInDomain(d, a);
    }
  }

  /** An active session was activated last. */
  lemma BeforeActive(d: Domain, r: Rules, s: State) returns (p: State, l: Label)
    requires EdgeFamily(r) && Closed(d, r, s) && AllUp(s) && s.kp.None? && s.kv.Some?
    ensures Before(d, r, p, l, s)
  {
    var second, epoch := ReactivateClosed(d, r.allocVpnAnyFutureEpoch, s);
    p, l := s.(kp := s.kv, kv := second, epoch := epoch), ActivateVpn;
    hide Core;
  }

  lemma UnversionClosed(d: Domain, anyFutureEpoch: bool, s: State) returns (b: Binding, ke: Option<Version>)
    requires Core(d, anyFutureEpoch, s) && s.kp.None? && s.kv.None? && s.ke.Some?
    ensures b in s.bindings && b.target == Ekm(s.ke.value) && b.id !in s.pool && b.target.version in d.versions
    ensures b.target !in TargetsOf(s.bindings - {b})
    ensures Core(d, anyFutureEpoch, s.(pool := s.pool + {b.id}, bindings := s.bindings - {b}, ke := ke))
    ensures ke != s.ke
  {
    b :| b in s.bindings && b.target == Ekm(s.ke.value);
    assert BoundInDomain(d, b);
    var rest := s.bindings - {b};
    UnbindClosed(d, s, b);
    ke := None;
    assert forall a | a in s.bindings :: a.target.Ekm? by {
      forall a | a in s.bindings ensures a.target.Ekm? { assert BoundInDomain(d, a); }
    }
    if other :| other in rest {
      ke := Some(other.target.version);
      assert other.target in TargetsOf(rest);
    }
  }

  lemma AllocEkmStep(d: Domain, r: Rules, p: State, k: Id, v: Version)
    requires EdgeFamily(r) && AllUp(p) && k in p.pool && v in d.versions && p.ke != Some(v) && Ekm(v) !in Targets(p)
    ensures Step(d, r, p, AllocEkm(k, v),
                 p.(pool := p.pool - {k}, bindings := p.bindings + {Binding(k, Ekm(v))}, ke := Some(v)))
  {
  }

  /** Without sessions, the active version was allocated last. */
  lemma BeforeVersion(d: Domain, r: Rules, s: State) returns (p: State, l: Label)
    requires EdgeFamily(r) && Closed(d, r, s) && AllUp(s) && s.kp.None? && s.kv.None? && s.ke.Some?
    ensures Before(d, r, p, l, s)
  {
    hide Core, Step, VpnBindings, TargetsOf;
    var b, ke := UnversionClosed(d, r.allocVpnAnyFutureEpoch, s);
    UnbindSizes(s, b);
    p := s.(pool := s.pool + {b.id}, bindings := s.bindings - {b}, ke := ke);
    l := AllocEkm(b.id, s.ke.value);
    AllocEkmStep(d, r, p, b.id, s.ke.value);
    assert s == p.(pool := p.pool - {b.id}, bindings := p.bindings + {b}, ke := s.ke);
  }

  /** Without bindings, some pooled identifier was ingested last. */
  lemma BeforePooled(d: Domain, r: Rules, s: State) returns (p: State, l: Label)
    requires EdgeFamily(r) && Closed(d, r, s) && AllUp(s) && s.kp.None? && s.kv.None? && s.ke.None? && s != Initial()
    ensures Before(d, r, p, l, s)
  {
    assert s.bindings == {};
    assert s.pool != {};
    var k :| k in s.pool;
    RemoveSize(s.pool, k);
    assert s.pool - {k} + {k} == s.pool;
    p := s.(pool := s.pool - {k});
    l := Ingest(k);
  }

  /** `p --l--> s` changes flags only, towards normal going back. */
  ghost predicate FlagBefore(d: Domain, r: Rules, p: State, l: Label, s: State) {
    && s == p.(sq := s.sq, se := s.se, authority := s.authority, recovery := s.recovery)
    && Step(d, r, p, l, s)
    && !Excluded(r, p)
    && FlagCost(p) + Detour(p) < FlagCost(s) + Detour(s)
    && (!r.authorityOnlyWhenDegraded ==> FlagCost(p) + 1 == FlagCost(s))
  }

  /** A withdrawn authority was withdrawn last, unless only a recovery could have led here. */
  lemma BeforeWithdrawn(d: Domain, r: Rules, s: State) returns (p: State, l: Label)
    requires EdgeFamily(r) && !Excluded(r, s) && !s.authority && !s.suspended && !s.detected
    ensures FlagBefore(d, r, p, l, s)
  {
    if s.sq && s.se && !s.recovery && r.authorityOnlyWhenDegraded {
      p, l := s.(recovery := true), Label.Recover;
    } else {
      p, l := s.(authority := true), AuthorityWithdraw;
    }
  }

  /** With authority held, a missing dependency went down last; otherwise the source came back last. */
  lemma BeforeOutage(d: Domain, r: Rules, s: State) returns (p: State, l: Label)
    requires EdgeFamily(r) && !AllUp(s) && s.authority
    ensures FlagBefore(d, r, p, l, s)
  {
    if !s.sq {
      p, l := s.(sq := true), SrcDown;
    } else if !s.se {
      p, l := s.(se := true), EkmDown;
    } else {
      p, l := s.(sq := false, recovery := false), SrcUp;
    }
  }

  lemma FlagBeforeIsBefore(d: Domain, r: Rules, p: State, l: Label, s: State)
    requires FlagBefore(d, r, p, l, s) && Closed(d, r, s)
    ensures Before(d, r, p, l, s)
  {
    hide Core, Excluded, Step, Detour, FlagCost, VpnBindings;
    CoreIgnoresFlags(d, r.allocVpnAnyFutureEpoch, s, p);
  }

  /** A flag away from normal was the last thing to change. */
  lemma BeforeFlags(d: Domain, r: Rules, s: State) returns (p: State, l: Label)
    requires EdgeFamily(r) && Closed(d, r, s) && !AllUp(s)
    ensures Before(d, r, p, l, s)
  {
    assert !s.suspended && !s.detected && !Excluded(r, s);
    hide *;
    if !s.authority {
      p, l := BeforeWithdrawn(d, r, s);
    } else {
      p, l := BeforeOutage(d, r, s);
    }
    FlagBeforeIsBefore(d, r, p, l, s);
  }

  lemma Predecessor(d: Domain, r: Rules, s: State) returns (p: State, l: Label)
    requires EdgeFamily(r) && Closed(d, r, s) && s != Initial()
    ensures Before(d, r, p, l, s)
  {
    hide Before, Closed, EdgeFamily;
    if !AllUp(s) {
      p, l := BeforeFlags(d, r, s);
    } else if s.kp.Some? {
      p, l := BeforePending(d, r, s);
    } else if s.kv.Some? {
      p, l := BeforeActive(d, r, s);
    } else if s.ke.Some? {
      p, l := BeforeVersion(d, r, s);
    } else {
      p, l := BeforePooled(d, r, s);
    }
  }

  lemma DepthPositive(d: Domain, r: Rules, s: State)
    requires Closed(d, r, s)
    ensures 0 <= Depth(s)
  {
    if s.kp.Some? {
      assert Binding(s.kp.value.id, Vpn(s.kp.value.epoch)) in VpnBindings(s.bindings);
    }
  }

  lemma {:induction false} ClosedReached(d: Domain, r: Rules, s: State)
    requires EdgeFamily(r) && Closed(d, r, s)
    ensures Reachable(d, r, s)
    decreases Depth(s) + Detour(s)
  {
    DepthPositive(d, r, s);
    hide Core, Step, EdgeFamily, Excluded, Depth, Detour;
    if s == Initial() {
      assert ReachedIn(d, r, s, 0);
    } else {
      var p, l := Predecessor(d, r, s);
      ClosedReached(d, r, p);
      hide Closed, StepsTo;
      var n: nat :| ReachedIn(d, r, p, n);
      OneMore(d, r, Initial(), p, n, l, s);
      assert ReachedIn(d, r, s, n + 1);
    }
  }

  // --- main result ---------------------------------------------------------

  /**
   * For any domain, the reachable states are exactly the closed ones, under every setting of the seven
   * edge knobs and of the two calibrated knobs. The edge knobs enter only through `Excluded`.
   */
  lemma ReachableExactly(d: Domain, r: Rules, s: State)
    requires EdgeFamily(r)
    ensures Reachable(d, r, s) <==> Core(d, r.allocVpnAnyFutureEpoch, s) && !Excluded(r, s)
  {
    if Reachable(d, r, s) {
      var n: nat :| ReachedIn(d, r, s, n);
      ReachedClosed(d, r, s, n);
    }
    if Closed(d, r, s) {
      ClosedReached(d, r, s);
    }
  }

  /** The comment "edge knobs never change which states are reachable" holds iff these two are not both on. */
  lemma EdgeKnobsKeepReachableSet(d: Domain, r: Rules)
    requires EdgeFamily(r) && !r.allocVpnAnyFutureEpoch
    ensures (forall s :: Reachable(d, r, s) <==> Reachable(d, Base(), s))
            <==> !(r.authorityOnlyWhenDegraded && r.recoverNeedsAuthority)
  {
    forall s ensures Reachable(d, r, s) <==> Core(d, false, s) && !Excluded(r, s) {
      ReachableExactly(d, r, s);
    }
    forall s ensures Reachable(d, Base(), s) <==> Core(d, false, s) {
      ReachableExactly(d, Base(), s);
    }
    var lost := Initial().(authority := false);
    assert Core(d, false, lost);
    if r.authorityOnlyWhenDegraded && r.recoverNeedsAuthority {
      assert Excluded(r, lost);
      assert Reachable(d, Base(), lost) && !Reachable(d, r, lost);
    }
  }
}
