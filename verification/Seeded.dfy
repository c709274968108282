/** What each check detects: the exact condition of every property and guard, and the seeded cases that only it catches. */
module Seeded {
  import opened Options
  import opened ModelState
  import opened Events
  import opened Checks
  import opened Safety

  // --- what the checks say -------------------------------------------------------------

  /** The order lists every pooled identifier once, and nothing else. */
  predicate Lists(order: seq<Id>, pool: set<Id>) {
    Distinct(order) && (forall k | k in order :: k in pool) && (forall k | k in pool :: k in order)
  }

  lemma ListsExactly(order: seq<Id>, pool: set<Id>)
    ensures Lists(order, pool) <==> multiset(order) == multiset(pool)
  {
    if Lists(order, pool) {
      assert pool == set k | k in order;
      DistinctAsMultiset(order);
    }
    if multiset(order) == multiset(pool) {
      forall k ensures k in order <==> k in pool {
        assert multiset(order)[k] == multiset(pool)[k];
      }
      forall i, j | 0 <= i < j < |order| ensures order[i] != order[j] {
        assert multiset(pool)[order[i]] <= 1;
        if order[i] == order[j] {
          OccursTwice(order, i, j);
          assert false;
        }
      }
    }
  }

  lemma OccursTwice(order: seq<Id>, i: nat, j: nat)
    requires i < j < |order| && order[i] == order[j]
    ensures multiset(order)[order[i]] >= 2
  {
    assert order == order[..j] + [order[j]] + order[j + 1..];
    assert order[..j][i] == order[i];
  }

  /** The list of violations names exactly the checks whose condition is met. */
  lemma Listed(i1: bool, i2: bool, i3: bool, i4: bool, i5: bool, i6: bool, i7: bool, i9: bool, c: Check)
    ensures c in When(i1, I1) + When(i2, I2) + When(i3, I3) + When(i4, I4) + When(i5, I5) + When(i6, I6) + When(i7, I7) + When(i9, I9)
      <==> match c
           case I1 => i1 case I2 => i2 case I3 => i3 case I4 => i4
           case I5 => i5 case I6 => i6 case I7 => i7 case I9 => i9
           case _ => false
  {
    assert c in When(i1, I1) <==> i1 && c == I1;
    assert c in When(i2, I2) <==> i2 && c == I2;
    assert c in When(i3, I3) <==> i3 && c == I3;
    assert c in When(i4, I4) <==> i4 && c == I4;
    assert c in When(i5, I5) <==> i5 && c == I5;
    assert c in When(i6, I6) <==> i6 && c == I6;
    assert c in When(i7, I7) <==> i7 && c == I7;
    assert c in When(i9, I9) <==> i9 && c == I9;
    hide When;
  }

  lemma ListedAt(d: Domain, s: State, retainedEpoch: bool, c: Check)
    ensures c in Invariants(d, s, retainedEpoch)
      <==> match c
           case I1 => s.order != [] && multiset(s.order) != multiset(s.pool)
           case I2 => !UniqueIds(s.bindings)
           case I3 => s.pool * Consumed(s) != {} || s.expired * (s.pool + Consumed(s)) != {}
           case I4 => !UniqueTargets(s.bindings)
           case I5 => s.ke.Some? && Ekm(s.ke.value) !in Targets(s)
           case I6 => PendingUnbound(d, s)
           case I7 => ActiveMismatch(s, retainedEpoch)
           case _ => false
  {
    assert !ConsequencesBad(s);
    hide When, UniqueIds, UniqueTargets, PendingUnbound, ActiveMismatch, ConsequencesBad, Consumed, Targets;
    Listed(s.order != [] && multiset(s.order) != multiset(s.pool), !UniqueIds(s.bindings),
           s.pool * Consumed(s) != {} || s.expired * (s.pool + Consumed(s)) != {}, !UniqueTargets(s.bindings),
           s.ke.Some? && Ekm(s.ke.value) !in Targets(s), PendingUnbound(d, s), ActiveMismatch(s, retainedEpoch),
           ConsequencesBad(s), c);
  }

  lemma Apart(a: set<Id>, b: set<Id>)
    ensures a * b == {} <==> a !! b
  {
    if a * b == {} {
      forall k | k in a ensures k !in b {
        assert k in b ==> k in a * b;
      }
    }
  }

  /** I1 to I4: the pool and the ledger of bindings. */
  lemma LedgerChecksExactly(d: Domain, s: State, retainedEpoch: bool)
    ensures I1 in Invariants(d, s, retainedEpoch) <==> s.order != [] && !Lists(s.order, s.pool)
    ensures I2 in Invariants(d, s, retainedEpoch)
      <==> exists k, x, y :: Binding(k, x) in s.bindings && Binding(k, y) in s.bindings && x != y
    ensures I3 in Invariants(d, s, retainedEpoch)
      <==> !(s.pool !! Consumed(s) && s.expired !! s.pool && s.expired !! Consumed(s))
    ensures I4 in Invariants(d, s, retainedEpoch)
      <==> exists k, j, x :: Binding(k, x) in s.bindings && Binding(j, x) in s.bindings && k != j
  {
    ListedAt(d, s, retainedEpoch, I1);
    ListedAt(d, s, retainedEpoch, I2);
    ListedAt(d, s, retainedEpoch, I3);
    ListedAt(d, s, retainedEpoch, I4);
    ListsExactly(s.order, s.pool);
    Apart(s.pool, Consumed(s));
    Apart(s.expired, s.pool + Consumed(s));
    hide Invariants, Lists, Consumed, PendingUnbound, ActiveMismatch;
    if !UniqueIds(s.bindings) {
      var a, b :| a in s.bindings && b in s.bindings && a.id == b.id && a != b;
      assert a == Binding(a.id, a.target) && b == Binding(a.id, b.target);
    }
    if !UniqueTargets(s.bindings) {
      var a, b :| a in s.bindings && b in s.bindings && a.target == b.target && a != b;
      assert a == Binding(a.id, a.target) && b == Binding(b.id, a.target);
    }
  }

  /** I5 to I7: every active or pending version and session resolves to its binding, and the epochs are in order. */
  lemma PointerChecksExactly(d: Domain, s: State, retainedEpoch: bool)
    ensures I5 in Invariants(d, s, retainedEpoch)
      <==> s.ke.Some? && forall b | b in s.bindings :: b.target != Ekm(s.ke.value)
    ensures I6 in Invariants(d, s, retainedEpoch)
      <==> s.kp.Some? && !(Binding(s.kp.value.id, Vpn(s.kp.value.epoch)) in s.bindings && s.epoch < s.kp.value.epoch <= d.maxEpoch)
    ensures I7 in Invariants(d, s, retainedEpoch)
      <==> !(s.kv.Some? && Binding(s.kv.value.id, Vpn(s.epoch)) in s.bindings && s.kv.value.epoch == s.epoch)
           && !(s.kv.None? && (s.epoch == 0 || retainedEpoch))
  {
    ListedAt(d, s, retainedEpoch, I5);
    ListedAt(d, s, retainedEpoch, I6);
    ListedAt(d, s, retainedEpoch, I7);
    hide Invariants;
  }

  /** I8 and I9 can only fail where a mode or indicators are stored; where they are derived they hold. */
  lemma DerivedChecksHold(d: Domain, s: State, retainedEpoch: bool)
    ensures I8 !in Invariants(d, s, retainedEpoch) && I9 !in Invariants(d, s, retainedEpoch)
  {
    hide *;
    ListedAt(d, s, retainedEpoch, I8);
    ListedAt(d, s, retainedEpoch, I9);
  }

  /** An edge violates no guard exactly when each kind of event keeps to its own. */
  lemma GuardsExactly(l: Label, s: State, t: State)
    ensures Guards(l, s, t) == [] <==>
      match l
      case Ingest(_) => s.sq
      case AllocEkm(k, _) => s.se && k in s.pool
      case AllocVpn(k, _) => s.se && k in s.pool
      case RejectStale(_) => t == s
      case Recover => s.sq && s.se && s.recovery
      case _ => true
  {
  }

  // --- the seeded cases -----------------------------------------------------------------

  function ActiveVpn(): State {
    Initial().(bindings := {Binding("k1", Vpn(1))}, kv := Some(Session("k1", 1)), epoch := 1)
  }

  /** A hand-made inconsistent state for each check that a state can fail here. */
  function SeededState(c: Check): State {
    match c
    case I1 => Initial().(pool := {"k1"}, order := ["k1", "k1"])
    case I2 => ActiveVpn().(bindings := {Binding("k1", Ekm("v1")), Binding("k1", Vpn(1))}, ke := Some("v1"))
    case I3 => Initial().(pool := {"k1"}, bindings := {Binding("k1", Ekm("v1"))}, ke := Some("v1"))
    case I4 => Initial().(bindings := {Binding("k1", Ekm("v1")), Binding("k2", Ekm("v1"))}, ke := Some("v1"))
    case I5 => Initial().(ke := Some("v1"))
    case I6 => ActiveVpn().(kp := Some(Session("k1", 1)))
    case I7 => ActiveVpn().(epoch := 2)
    case _ => Initial()
  }

  /** Each seeded state fails its own check and no other. */
  lemma SeededStatesDetected(d: Domain, c: Check, other: Check)
    requires c in {I1, I2, I3, I4, I5, I6, I7}
    ensures other in Invariants(d, SeededState(c), false) <==> other == c
  {
    var s := SeededState(c);
    LedgerChecksExactly(d, s, false);
    PointerChecksExactly(d, s, false);
    ListedAt(d, s, false, other);
    hide Invariants;
    if c == I1 {
      assert s.order[0] == s.order[1];
    }
    if c == I2 {
      assert Binding("k1", Ekm("v1")) in s.bindings && Binding("k1", Vpn(1)) in s.bindings;
    }
    if c == I4 {
      assert Binding("k1", Ekm("v1")) in s.bindings && Binding("k2", Ekm("v1")) in s.bindings;
    }
  }

  /** A seeded invalid transition for each guard. */
  function SeededEdge(c: Check): (Label, State, State) {
    match c
    case G1 => (Ingest("k1"), Initial().(sq := false), Initial().(sq := false, pool := {"k1"}))
    case G2 => (AllocEkm("k1", "v1"), Initial().(se := false, pool := {"k1"}),
                Initial().(se := false, bindings := {Binding("k1", Ekm("v1"))}, ke := Some("v1")))
    case G3 => (RejectStale(None), ActiveVpn(), ActiveVpn().(epoch := 2))
    case _ => (Label.Recover, Initial().(sq := false), Initial().(sq := false))
  }

  /** Each seeded transition fails its own guard and no other. */
  lemma SeededEdgesDetected(c: Check)
    requires c in {G1, G2, G3, G4}
    ensures var (l, s, t) := SeededEdge(c); Guards(l, s, t) == [c]
  {
  }
}
