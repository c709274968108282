/** A finite set that holds every reachable state, so that an exhaustive search must stop. */
module StateSpace {
  import opened Options
  import opened ModelState
  import opened Events
  import opened Runs
  import opened Safety
  import opened FiniteSets

  ghost function Powerset<T>(all: set<T>): set<set<T>> {
    set some: set<T> | some <= all
  }

  ghost function Pairs<A, B>(a: set<A>, b: set<B>): set<(A, B)> {
    set x, y | x in a && y in b :: (x, y)
  }

  lemma PairIn<A, B>(a: set<A>, b: set<B>, x: A, y: B)
    requires x in a && y in b
    ensures (x, y) in Pairs(a, b)
  {
  }

  ghost function Optional<T>(all: set<T>): set<Option<T>> {
    (set x | x in all :: Some(x)) + {None}
  }

  ghost function Numbers(last: nat): (all: set<nat>)
    ensures forall e: nat :: e in all <==> e <= last
  {
    if last == 0 then {0} else Numbers(last - 1) + {last}
  }

  /** Sequences over `ids` of at most `n` elements. */
  ghost function Sequences(ids: set<Id>, n: nat): set<seq<Id>> {
    if n == 0 then {[]}
    else (set p | p in Pairs(ids, Sequences(ids, n - 1)) :: [p.0] + p.1) + {[]}
  }

  ghost function Bindings(d: Domain): set<Binding> {
    (set p | p in Pairs(d.ids, d.versions) :: Binding(p.0, Ekm(p.1)))
    + (set p | p in Pairs(d.ids, Numbers(d.maxEpoch)) :: Binding(p.0, Vpn(p.1)))
  }

  ghost function Sessions(d: Domain): set<Option<Session>> {
    Optional(set p | p in Pairs(d.ids, Numbers(d.maxEpoch)) :: Session(p.0, p.1))
  }

  datatype Ledger = Ledger(pool: set<Id>, bindings: set<Binding>, expired: set<Id>, order: seq<Id>)
  datatype Pointers = Pointers(ke: Option<Version>, kp: Option<Session>, kv: Option<Session>, epoch: nat)
  datatype Flags = Flags(sq: bool, se: bool, authority: bool, recovery: bool, suspended: bool, detected: bool)

  function Assemble(l: Ledger, p: Pointers, f: Flags): State {
    State(f.sq, f.se, l.pool, l.bindings, p.ke, p.kp, p.kv, p.epoch, f.authority, f.recovery, l.expired,
          f.suspended, f.detected, l.order)
  }

  ghost function Ledgers(d: Domain): set<Ledger> {
    var sets := Pairs(Powerset(d.ids), Powerset(d.ids));
    var rest := Pairs(Powerset(Bindings(d)), Sequences(d.ids, |d.ids|));
    set q | q in Pairs(sets, rest) :: Ledger(q.0.0, q.1.0, q.0.1, q.1.1)
  }

  ghost function AllPointers(d: Domain): set<Pointers> {
    var sessions := Pairs(Sessions(d), Sessions(d));
    var rest := Pairs(Optional(d.versions), Numbers(d.maxEpoch));
    set q | q in Pairs(sessions, rest) :: Pointers(q.1.0, q.0.0, q.0.1, q.1.1)
  }

  ghost function AllFlags(): set<Flags> {
    set a: bool, b: bool, c: bool, e: bool, f: bool, g: bool :: Flags(a, b, c, e, f, g)
  }

  ghost function Universe(d: Domain): set<State> {
    set q | q in Pairs(Pairs(Ledgers(d), AllPointers(d)), AllFlags()) :: Assemble(q.0.0, q.0.1, q.1)
  }

  lemma {:induction false} InSequences(ids: set<Id>, order: seq<Id>, n: nat)
    requires |order| <= n && forall k | k in order :: k in ids
    ensures order in Sequences(ids, n)
  {
    if order != [] {
      InSequences(ids, order[1..], n - 1);
      assert (order[0], order[1..]) in Pairs(ids, Sequences(ids, n - 1));
      assert order == [order[0]] + order[1..];
    }
  }

  lemma OrderInSequences(d: Domain, r: Rules, s: State)
    requires Sound(d, r, s)
    ensures s.order in Sequences(d.ids, |d.ids|)
  {
    if r.fifoPool {
      DistinctAsMultiset(s.order);
      assert |s.order| == |multiset(s.order)| == |s.pool|;
      SubsetSize(s.pool, d.ids);
      assert forall k | k in s.order :: k in s.pool;
    }
    InSequences(d.ids, s.order, |d.ids|);
  }

  lemma BindingIn(d: Domain, b: Binding)
    requires BoundInDomain(d, b)
    ensures b in Bindings(d)
    ensures b.target.Vpn? ==> Some(Session(b.id, b.target.epoch)) in Sessions(d)
  {
    match b.target
    case Ekm(v) => assert (b.id, v) in Pairs(d.ids, d.versions);
    case Vpn(e) => assert (b.id, e) in Pairs(d.ids, Numbers(d.maxEpoch));
  }

  lemma LedgerIn(d: Domain, r: Rules, s: State)
    requires Sound(d, r, s)
    ensures Ledger(s.pool, s.bindings, s.expired, s.order) in Ledgers(d)
  {
    OrderInSequences(d, r, s);
    forall b | b in s.bindings ensures b in Bindings(d) {
      BindingIn(d, b);
    }
    hide Sequences, Bindings;
    assert (s.pool, s.expired) in Pairs(Powerset(d.ids), Powerset(d.ids));
    assert (s.bindings, s.order) in Pairs(Powerset(Bindings(d)), Sequences(d.ids, |d.ids|));
    assert ((s.pool, s.expired), (s.bindings, s.order)) in
        Pairs(Pairs(Powerset(d.ids), Powerset(d.ids)), Pairs(Powerset(Bindings(d)), Sequences(d.ids, |d.ids|)));
  }

  lemma SessionIn(d: Domain, r: Rules, s: State, session: Option<Session>)
    requires Sound(d, r, s) && (session == s.kp || session == s.kv)
    ensures session in Sessions(d)
  {
    if session.Some? {
      BindingIn(d, Binding(session.value.id, Vpn(session.value.epoch)));
    }
  }

  lemma VersionIn(d: Domain, r: Rules, s: State)
    requires Sound(d, r, s)
    ensures s.ke in Optional(d.versions)
  {
    if s.ke.Some? {
      var b :| b in s.bindings && b.target == Ekm(s.ke.value);
      assert BoundInDomain(d, b);
    }
  }

  lemma PointersIn(d: Domain, r: Rules, s: State)
    requires Sound(d, r, s)
    ensures Pointers(s.ke, s.kp, s.kv, s.epoch) in AllPointers(d)
  {
    SessionIn(d, r, s, s.kp);
    SessionIn(d, r, s, s.kv);
    VersionIn(d, r, s);
    hide Sessions, Optional;
    assert (s.kp, s.kv) in Pairs(Sessions(d), Sessions(d));
    assert (s.ke, s.epoch) in Pairs(Optional(d.versions), Numbers(d.maxEpoch));
    assert ((s.kp, s.kv), (s.ke, s.epoch)) in
        Pairs(Pairs(Sessions(d), Sessions(d)), Pairs(Optional(d.versions), Numbers(d.maxEpoch)));
  }

  lemma FlagsIn(f: Flags)
    ensures f in AllFlags()
  {
    assert f == Flags(f.sq, f.se, f.authority, f.recovery, f.suspended, f.detected);
  }

  lemma SoundInUniverse(d: Domain, r: Rules, s: State)
    requires Sound(d, r, s)
    ensures s in Universe(d)
  {
    hide Ledgers, AllPointers, AllFlags, Sound, Pairs;
    LedgerIn(d, r, s);
    PointersIn(d, r, s);
    var l := Ledger(s.pool, s.bindings, s.expired, s.order);
    var p := Pointers(s.ke, s.kp, s.kv, s.epoch);
    var f := Flags(s.sq, s.se, s.authority, s.recovery, s.suspended, s.detected);
    var q := ((l, p), f);
    FlagsIn(f);
    PairIn(Ledgers(d), AllPointers(d), l, p);
    PairIn(Pairs(Ledgers(d), AllPointers(d)), AllFlags(), (l, p), f);
    assert s == Assemble(q.0.0, q.0.1, q.1);
  }

  /** Every reachable state of every reading lies in one finite set, which depends on the domain only. */
  lemma ReachableInUniverse(d: Domain, r: Rules, s: State)
    requires Reachable(d, r, s)
    ensures s in Universe(d)
  {
    hide Sound, Universe, StepsTo;
    var n: nat :| ReachedIn(d, r, s, n);
    ReachedSound(d, r, s, n);
    SoundInUniverse(d, r, s);
  }
}
