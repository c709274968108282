/** Every reading of the rules, over every domain, keeps I1-I9 and G1-G4; no run replays an identifier or an epoch. */
module Safety {
  import opened Options
  import opened ModelState
  import opened Events
  import opened Checks
  import opened Runs

  predicate Distinct(order: seq<Id>) {
    forall i, j | 0 <= i < j < |order| :: order[i] != order[j]
  }

  /** The order behind a FIFO pool lists the pool; without FIFO it stays empty. */
  predicate OrderAgrees(r: Rules, s: State) {
    if r.fifoPool then Distinct(s.order) && (set k | k in s.order) == s.pool else s.order == []
  }

  predicate BoundInDomain(d: Domain, b: Binding) {
    && b.id in d.ids
    && match b.target
       case Ekm(v) => v in d.versions
       case Vpn(e) => 1 <= e <= d.maxEpoch
  }

  /** What the pool, the retired identifiers and the bindings keep. */
  predicate LedgerSound(d: Domain, s: State) {
    && UniqueIds(s.bindings)
    && UniqueTargets(s.bindings)
    && s.pool !! Consumed(s)
    && s.expired !! (s.pool + Consumed(s))
    && s.pool + s.expired <= d.ids
    && forall b | b in s.bindings :: BoundInDomain(d, b)
  }

  /** What the active version and the sessions keep. */
  predicate PointersSound(d: Domain, r: Rules, s: State) {
    && (s.ke.Some? ==> Ekm(s.ke.value) in Targets(s))
    && !PendingUnbound(d, s)
    && !ActiveMismatch(s, RetainsEpoch(r))
    && s.epoch <= d.maxEpoch
  }

  /** The inductive invariant behind I1-I9: the checks themselves, plus the domains and the FIFO order. */
  predicate Sound(d: Domain, r: Rules, s: State) {
    OrderAgrees(r, s) && LedgerSound(d, s) && PointersSound(d, r, s)
  }

  // --- the FIFO order ------------------------------------------------------

  lemma {:induction false} WithoutKeeps(order: seq<Id>, k: Id)
    requires Distinct(order)
    ensures Distinct(Without(order, k))
    ensures forall x :: x in Without(order, k) <==> x in order && x != k
  {
    if order != [] {
      WithoutKeeps(order[1..], k);
      var rest := Without(order[1..], k);
      assert order == [order[0]] + order[1..];
      if order[0] != k {
        assert order[0] !in order[1..];
        assert order[0] !in rest;
      }
    }
  }

  lemma {:induction false} DistinctAsMultiset(order: seq<Id>)
    requires Distinct(order)
    ensures multiset(order) == multiset(set k | k in order)
  {
    if order != [] {
      var rest := order[1..];
      DistinctAsMultiset(rest);
      assert order == [order[0]] + rest;
      assert (set k | k in order) == (set k | k in rest) + {order[0]};
      assert order[0] !in rest;
    }
  }

  lemma TakeAgrees(r: Rules, s: State, k: Id)
    requires OrderAgrees(r, s) && k in Retained(r, s)
    ensures k in s.pool && OrderAgrees(r, PoolTake(r, s, k))
  {
    if r.fifoPool {
      WithoutKeeps(s.order, k);
    }
  }

  // --- one step ------------------------------------------------------------

  /** Binding a retained identifier to a fresh target keeps the ledger. */
  lemma BindSound(d: Domain, r: Rules, s: State, b: Binding)
    requires OrderAgrees(r, s) && LedgerSound(d, s)
    requires b.id in Retained(r, s) && b.target !in Targets(s) && BoundInDomain(d, b)
    ensures var t := PoolTake(r, s, b.id).(bindings := s.bindings + {b});
            OrderAgrees(r, t) && LedgerSound(d, t) && Targets(t) == Targets(s) + {b.target}
  {
    TakeAgrees(r, s, b.id);
    var t := PoolTake(r, s, b.id).(bindings := s.bindings + {b});
    assert IdsOf(t.bindings) == IdsOf(s.bindings) + {b.id};
    assert TargetsOf(t.bindings) == TargetsOf(s.bindings) + {b.target};
    forall a | a in s.bindings
      ensures a.id != b.id && a.target != b.target
    {
      assert a.id in IdsOf(s.bindings) && a.target in TargetsOf(s.bindings);
    }
  }

  lemma VersionMoves(d: Domain, r: Rules, s: State, ke: Option<Version>)
    requires OrderAgrees(r, s) && LedgerSound(d, s)
    ensures OrderAgrees(r, s.(ke := ke)) && LedgerSound(d, s.(ke := ke))
  {
  }

  lemma AllocEkmSound(d: Domain, r: Rules, s: State, k: Id, v: Version)
    requires Sound(d, r, s) && InventoryEnabled(d, r, s, AllocEkm(k, v))
    ensures Sound(d, r, AllocEkmResult(r, s, k, v))
  {
    BindSound(d, r, s, Binding(k, Ekm(v)));
    var t := PoolTake(r, s, k).(bindings := s.bindings + {Binding(k, Ekm(v))});
    VersionMoves(d, r, t, Some(v));
    hide OrderAgrees, LedgerSound;
  }

  lemma NextEpochUnbound(s: State, e: nat)
    requires NextEpoch(s) <= e
    ensures Vpn(e) !in Targets(s)
  {
  }

  lemma AllocVpnSound(d: Domain, r: Rules, s: State, k: Id, e: nat)
    requires Sound(d, r, s) && k in Retained(r, s) && NextEpoch(s) <= e <= d.maxEpoch
    ensures Sound(d, r, AllocVpnResult(r, s, k, e))
  {
    NextEpochUnbound(s, e);
    BindSound(d, r, s, Binding(k, Vpn(e)));
  }

  lemma PoolStepSound(d: Domain, r: Rules, s: State, l: Label)
    requires Sound(d, r, s) && (l.Ingest? || l.Expire?) && InventoryEnabled(d, r, s, l)
    ensures Sound(d, r, InventoryFire(r, s, l))
  {
    if l.Expire? {
      TakeAgrees(r, s, l.id);
    }
  }

  lemma SessionStepSound(d: Domain, r: Rules, s: State, l: Label)
    requires Sound(d, r, s) && MovesSession(l) && SessionEnabled(r, s, l)
    ensures Sound(d, r, SessionFire(r, s, l))
  {
  }

  /** `t` differs from `s` in flags only, or has dropped a session or the active version. */
  predicate OnlyClears(r: Rules, s: State, t: State) {
    && t.pool == s.pool && t.bindings == s.bindings && t.expired == s.expired && t.order == s.order
    && t.epoch == s.epoch
    && (t.ke == s.ke || t.ke.None?)
    && (t.kp == s.kp || t.kp.None?)
    && (t.kv == s.kv || (t.kv.None? && RetainsEpoch(r)))
  }

  lemma ClearsSound(d: Domain, r: Rules, s: State, t: State)
    requires Sound(d, r, s) && OnlyClears(r, s, t)
    ensures Sound(d, r, t)
  {
  }

  lemma FlagStepClears(r: Rules, s: State, l: Label)
    requires !MovesInventory(l) && !MovesSession(l)
    ensures OnlyClears(r, s, FlagFire(r, s, l))
  {
  }

  lemma FlagStepSound(d: Domain, r: Rules, s: State, l: Label)
    requires Sound(d, r, s) && !MovesInventory(l) && !MovesSession(l)
    ensures Sound(d, r, FlagFire(r, s, l))
  {
    hide Sound, FlagFire, OnlyClears;
    FlagStepClears(r, s, l);
    ClearsSound(d, r, s, FlagFire(r, s, l));
  }

  lemma InventoryStepSound(d: Domain, r: Rules, s: State, l: Label)
    requires Sound(d, r, s) && MovesInventory(l) && InventoryEnabled(d, r, s, l)
    ensures Sound(d, r, InventoryFire(r, s, l))
  {
    hide Sound;
    match l
    case AllocEkm(k, v) => AllocEkmSound(d, r, s, k, v);
    case AllocVpn(k, tag) => AllocVpnSound(d, r, s, k, if tag.Some? then tag.value else NextEpoch(s));
    case _ => PoolStepSound(d, r, s, l);
  }

  lemma StepSound(d: Domain, r: Rules, s: State, l: Label)
    requires Sound(d, r, s) && Enables(d, r, s, l)
    ensures Sound(d, r, Fire(d, r, s, l))
  {
    hide Sound, InventoryEnabled, InventoryFire, SessionEnabled, SessionFire, FlagEnabled, FlagFire;
    if MovesInventory(l) {
      InventoryStepSound(d, r, s, l);
    } else if MovesSession(l) {
      SessionStepSound(d, r, s, l);
    } else {
      FlagStepSound(d, r, s, l);
    }
  }

  lemma InitialSound(d: Domain, r: Rules)
    ensures Sound(d, r, Initial())
  {
  }

  lemma {:induction false} ReachedSound(d: Domain, r: Rules, s: State, n: nat)
    requires ReachedIn(d, r, s, n)
    ensures Sound(d, r, s)
    decreases n
  {
    hide StepsTo, Sound, Enables, Fire;
    if n == 0 {
      NoSteps(d, r, Initial(), s);
      InitialSound(d, r);
    } else {
      var p, l := LastStep(d, r, Initial(), s, n);
      ReachedSound(d, r, p, n - 1);
      StepSound(d, r, p, l);
    }
  }

  // --- main results --------------------------------------------------------

  /** Under all 2^25 readings and all domain sizes, no reachable state violates I1-I9. */
  lemma EveryReadingKeepsInvariants(d: Domain, r: Rules, s: State)
    requires Reachable(d, r, s)
    ensures Invariants(d, s, RetainsEpoch(r)) == []
  {
    var n: nat :| ReachedIn(d, r, s, n);
    ReachedSound(d, r, s, n);
    if r.fifoPool {
      DistinctAsMultiset(s.order);
    }
  }

  /** ... and no enabled edge out of a reachable state violates G1-G4. */
  lemma EveryReadingKeepsGuards(d: Domain, r: Rules, s: State, l: Label, t: State)
    requires Reachable(d, r, s) && Step(d, r, s, l, t)
    ensures Guards(l, s, t) == []
  {
    var n: nat :| ReachedIn(d, r, s, n);
    ReachedSound(d, r, s, n);
    hide *;
    SoundKeepsGuards(d, r, s, l, t);
  }

  lemma SoundKeepsGuards(d: Domain, r: Rules, s: State, l: Label, t: State)
    requires Sound(d, r, s) && Step(d, r, s, l, t)
    ensures Guards(l, s, t) == []
  {
    hide PointersSound, LedgerSound, PoolTake;
    if l.AllocEkm? || l.AllocVpn? {
      TakeAgrees(r, s, l.id);
    }
  }
}
