/** How many states the calibrated reading reaches, for every domain size. */
module Census {
  import opened Options
  import opened ModelState
  import opened Events
  import opened Checks
  import opened Runs
  import opened Safety
  import opened FiniteSets
  import opened FiniteSums
  import opened Reachability
  import opened ShortestRuns

  // --- the closed form -------------------------------------------------------

  /** Choices of the active version and of the sessions, once `ekm` versions and `vpn` epochs are bound. */
  function Choices(ekm: nat, vpn: nat): nat {
    (if ekm > 0 then ekm else 1) * (if vpn > 0 then 2 else 1)
  }

  /**
   * Allocation cores with `n` identifiers still to place, `versions` and `epochs` still unbound: each
   * identifier is absent, pooled, bound to one of the versions or bound to one of the epochs.
   */
  function Cores(n: nat, versions: nat, epochs: nat, ekm: nat, vpn: nat): nat {
    if n == 0 then Choices(ekm, vpn)
    else
      2 * Cores(n - 1, versions, epochs, ekm, vpn)
      + (if versions > 0 then versions * Cores(n - 1, versions - 1, epochs, ekm + 1, vpn) else 0)
      + (if epochs > 0 then epochs * Cores(n - 1, versions, epochs - 1, ekm, vpn + 1) else 0)
  }

  lemma OneMoreIdentifier(n: nat, versions: nat, epochs: nat, ekm: nat, vpn: nat)
    ensures Cores(n + 1, versions, epochs, ekm, vpn)
         == 2 * Cores(n, versions, epochs, ekm, vpn)
            + (if versions > 0 then versions * Cores(n, versions - 1, epochs, ekm + 1, vpn) else 0)
            + (if epochs > 0 then epochs * Cores(n, versions, epochs - 1, ekm, vpn + 1) else 0)
  {
  }

  lemma PublishedOne()
    ensures Cores(1, 2, 3, 0, 0) == 10
         && Cores(1, 2, 2, 0, 1) == 12
         && Cores(1, 2, 1, 0, 2) == 10
         && Cores(1, 2, 0, 0, 3) == 8
         && Cores(1, 1, 3, 1, 0) == 10
         && Cores(1, 1, 2, 1, 1) == 12
         && Cores(1, 1, 1, 1, 2) == 10
         && Cores(1, 0, 3, 2, 0) == 16
         && Cores(1, 0, 2, 2, 1) == 16
  {
  }

  lemma PublishedTwo()
    ensures Cores(2, 2, 3, 0, 0) == 76
         && Cores(2, 2, 2, 0, 1) == 68
         && Cores(2, 2, 1, 0, 2) == 48
         && Cores(2, 1, 3, 1, 0) == 72
         && Cores(2, 1, 2, 1, 1) == 60
         && Cores(2, 0, 3, 2, 0) == 80
  {
    hide Cores;
    PublishedOne();
    OneMoreIdentifier(1, 2, 3, 0, 0);
    OneMoreIdentifier(1, 2, 2, 0, 1);
    OneMoreIdentifier(1, 2, 1, 0, 2);
    OneMoreIdentifier(1, 1, 3, 1, 0);
    OneMoreIdentifier(1, 1, 2, 1, 1);
    OneMoreIdentifier(1, 0, 3, 2, 0);
  }

  lemma PublishedThree()
    ensures Cores(3, 2, 3, 0, 0) == 500
         && Cores(3, 2, 2, 0, 1) == 352
         && Cores(3, 1, 3, 1, 0) == 404
  {
    hide Cores;
    PublishedTwo();
    OneMoreIdentifier(2, 2, 3, 0, 0);
    OneMoreIdentifier(2, 2, 2, 0, 1);
    OneMoreIdentifier(2, 1, 3, 1, 0);
  }

  lemma PublishedCores()
    ensures Cores(4, 2, 3, 0, 0) == 2864
  {
    hide Cores;
    PublishedThree();
    OneMoreIdentifier(3, 2, 3, 0, 0);
  }

  // --- counting a family of disjoint sets of one size --------------------------

  lemma UnionSize<I(!new), T(!new)>(idx: set<I>, part: I -> set<T>, size: nat)
    requires forall i | i in idx :: |part(i)| == size
    requires forall i, j | i in idx && j in idx && i != j :: part(i) !! part(j)
    ensures |Union(idx, part)| == |idx| * size
  {
    var v := (_: I) => size;
    UnionCount(idx, part, v);
    SumConstant(idx, v, size);
  }

  // --- cores with a given pool and given bindings ------------------------------

  /** The four flags of a state, as one value. */
  type FourFlags = (bool, bool, bool, bool)

  function FlagsOf(s: State): FourFlags {
    (s.sq, s.se, s.authority, s.recovery)
  }

  /** `cores` holds exactly the closed states with the flags `f`. */
  ghost predicate AllCores(d: Domain, f: FourFlags, cores: set<State>) {
    forall s :: s in cores <==> Core(d, true, s) && FlagsOf(s) == f
  }

  /** A placement of some identifiers that leaves `open` undecided. */
  predicate Placed(d: Domain, open: set<Id>, pool: set<Id>, bindings: set<Binding>) {
    && UniqueIds(bindings)
    && UniqueTargets(bindings)
    && (forall b | b in bindings :: BoundInDomain(d, b))
    && open <= d.ids && pool <= d.ids
    && open !! pool
    && IdsOf(bindings) !! (open + pool)
  }

  /** The session that is active when none is pending. */
  ghost function Active(bindings: set<Binding>): Option<Session> {
    var top := TopEpoch(bindings);
    if top == 0 then None else
      var b :| b in bindings && b.target == Vpn(top);
      Some(Session(b.id, top))
  }

  lemma ActiveUnique(bindings: set<Binding>, active: Option<Session>, epoch: nat)
    requires UniqueTargets(bindings) && (forall b | b in bindings && b.target.Vpn? :: b.target.epoch > 0)
    ensures IsTop(bindings, active, epoch) <==> active == Active(bindings) && epoch == TopEpoch(bindings)
  {
    if IsTop(bindings, active, epoch) {
      TopUnique(bindings, active, epoch);
    }
  }

  function Build(f: FourFlags, pool: set<Id>, bindings: set<Binding>, ke: Option<Version>,
                 kp: Option<Session>, kv: Option<Session>, epoch: nat): State
  {
    State(f.0, f.1, pool, bindings, ke, kp, kv, epoch, f.2, f.3, {}, false, false, [])
  }

  /** The highest bound epoch is active. */
  ghost function Activated(f: FourFlags, pool: set<Id>, bindings: set<Binding>, ke: Option<Version>): State {
    Build(f, pool, bindings, ke, None, Active(bindings), TopEpoch(bindings))
  }

  /** The highest bound epoch is pending, the second highest active. */
  ghost function Pending(f: FourFlags, pool: set<Id>, bindings: set<Binding>, ke: Option<Version>): State
    requires Active(bindings).Some?
  {
    var x := Active(bindings).value;
    var rest := bindings - {Binding(x.id, Vpn(x.epoch))};
    Build(f, pool, bindings, ke, Some(x), Active(rest), TopEpoch(rest))
  }

  ghost function SessionStates(f: FourFlags, pool: set<Id>, bindings: set<Binding>, ke: Option<Version>): set<State> {
    {Activated(f, pool, bindings, ke)} + (if Active(bindings).Some? then {Pending(f, pool, bindings, ke)} else {})
  }

  ghost function VersionChoices(bindings: set<Binding>): set<Option<Version>> {
    var ekm := bindings - VpnBindings(bindings);
    if ekm == {} then {None} else set b | b in ekm :: Some(b.target.version)
  }

  /** Every other bound epoch is below the highest one. */
  lemma PendingBelow(bindings: set<Binding>, top: Binding)
    requires UniqueTargets(bindings) && top in bindings && top.target == Vpn(TopEpoch(bindings))
    requires forall b | b in bindings && b.target.Vpn? :: b.target.epoch > 0
    ensures TopEpoch(bindings - {top}) < TopEpoch(bindings)
  {
    var rest := bindings - {top};
    if TopEpoch(rest) > 0 {
      var a :| a in rest && a.target == Vpn(TopEpoch(rest));
    }
  }

  lemma ActiveBound(bindings: set<Binding>, x: Session)
    requires Active(bindings) == Some(x)
    ensures Binding(x.id, Vpn(x.epoch)) in bindings && x.epoch == TopEpoch(bindings)
  {
    hide TopEpoch;
  }

  lemma PendingAbove(bindings: set<Binding>, x: Session, active: Option<Session>, epoch: nat)
    requires UniqueTargets(bindings) && forall b | b in bindings && b.target.Vpn? :: b.target.epoch > 0
    requires var b := Binding(x.id, Vpn(x.epoch)); b in bindings && epoch < x.epoch && IsTop(bindings - {b}, active, epoch)
    ensures Active(bindings) == Some(x)
  {
    var b := Binding(x.id, Vpn(x.epoch));
    ActiveUnique(bindings, Some(x), x.epoch);
    hide Active, TopEpoch;
    forall a | a in bindings && a.target.Vpn? ensures a.target.epoch <= x.epoch {
      if a != b { assert a in bindings - {b}; }
    }
  }

  lemma PendingUnique(bindings: set<Binding>, x: Session, active: Option<Session>, epoch: nat)
    requires UniqueTargets(bindings) && forall b | b in bindings && b.target.Vpn? :: b.target.epoch > 0
    ensures var b := Binding(x.id, Vpn(x.epoch));
            (b in bindings && epoch < x.epoch && IsTop(bindings - {b}, active, epoch))
            <==> (Active(bindings) == Some(x) && active == Active(bindings - {b}) && epoch == TopEpoch(bindings - {b}))
  {
    var b := Binding(x.id, Vpn(x.epoch));
    ActiveUnique(bindings - {b}, active, epoch);
    if b in bindings && epoch < x.epoch && IsTop(bindings - {b}, active, epoch) {
      PendingAbove(bindings, x, active, epoch);
    }
    if Active(bindings) == Some(x) {
      ActiveBound(bindings, x);
      PendingBelow(bindings, b);
    }
    hide *;
  }

  /** The session fields of a closed state, in terms of the unique active and pending sessions. */
  ghost predicate SessionsDetermined(s: State) {
    match s.kp
    case None => s.kv == Active(s.bindings) && s.epoch == TopEpoch(s.bindings)
    case Some(x) =>
      var rest := s.bindings - {Binding(x.id, Vpn(x.epoch))};
      Active(s.bindings) == Some(x) && s.kv == Active(rest) && s.epoch == TopEpoch(rest)
  }

  lemma SessionsClosedIff(d: Domain, s: State)
    requires PoolClosed(d, s)
    ensures SessionsClosed(s) <==> SessionsDetermined(s)
  {
    assert forall b | b in s.bindings && b.target.Vpn? :: b.target.epoch > 0 by {
      assert forall b | b in s.bindings :: BoundInDomain(d, b);
    }
    hide Active, TopEpoch, IsTop;
    if s.kp.None? {
      ActiveUnique(s.bindings, s.kv, s.epoch);
    } else {
      PendingUnique(s.bindings, s.kp.value, s.kv, s.epoch);
    }
  }

  lemma DeterminedIff(f: FourFlags, s: State)
    requires FlagsOf(s) == f && s.expired == {} && !s.suspended && !s.detected && s.order == []
    ensures SessionsDetermined(s) <==> s in SessionStates(f, s.pool, s.bindings, s.ke)
  {
    hide Active, TopEpoch;
  }

  lemma SessionStatesExactly(d: Domain, f: FourFlags, s: State)
    requires PoolClosed(d, s) && FlagsOf(s) == f
    ensures SessionsClosed(s) <==> s in SessionStates(f, s.pool, s.bindings, s.ke)
  {
    hide SessionsClosed, SessionsDetermined, SessionStates;
    SessionsClosedIff(d, s);
    DeterminedIff(f, s);
  }

  lemma VersionChoicesExactly(d: Domain, s: State)
    requires PoolClosed(d, s)
    ensures VersionClosed(s) <==> s.ke in VersionChoices(s.bindings)
  {
    var ekm := s.bindings - VpnBindings(s.bindings);
    hide PoolClosed;
    match s.ke
    case None =>
      if b :| b in ekm {
        assert b in s.bindings && !b.target.Vpn?;
      } else {
        forall b | b in s.bindings ensures b.target.Vpn? {
          assert b !in ekm;
        }
      }
    case Some(v) =>
      if s.ke in VersionChoices(s.bindings) {
        var b :| b in ekm && Some(b.target.version) == s.ke;
        assert b.target == Ekm(v) && b in s.bindings;
      }
      if Ekm(v) in Targets(s) {
        var b :| b in s.bindings && b.target == Ekm(v);
        assert b in ekm;
      }
  }

  lemma VersionChoicesSize(bindings: set<Binding>)
    requires UniqueTargets(bindings)
    ensures var ekm := |bindings - VpnBindings(bindings)|;
            |VersionChoices(bindings)| == if ekm > 0 then ekm else 1
  {
    var ekm := bindings - VpnBindings(bindings);
    EkmVersionsSize(ekm);
  }

  lemma {:induction false} EkmVersionsSize(ekm: set<Binding>)
    requires UniqueTargets(ekm) && forall b | b in ekm :: b.target.Ekm?
    ensures |set b | b in ekm :: Some(b.target.version)| == |ekm|
    decreases |ekm|
  {
    if b :| b in ekm {
      var rest := ekm - {b};
      EkmVersionsSize(rest);
      assert (set a | a in ekm :: Some(a.target.version)) == (set a | a in rest :: Some(a.target.version)) + {Some(b.target.version)};
      assert Some(b.target.version) !in (set a | a in rest :: Some(a.target.version));
    }
  }

  // --- the family of cores that extend a placement -----------------------------

  function Outside(bindings: set<Binding>, open: set<Id>): set<Binding> {
    set b | b in bindings && b.id !in open
  }

  /** The cores that agree with the placement on every identifier that is not open. */
  ghost function Family(cores: set<State>, open: set<Id>, pool: set<Id>, bindings: set<Binding>): set<State> {
    set s | s in cores && s.pool - open == pool && Outside(s.bindings, open) == bindings
  }

  lemma CoreIff(d: Domain, f: FourFlags, s: State)
    requires PoolClosed(d, s) && FlagsOf(s) == f
    ensures Core(d, true, s) <==> s.ke in VersionChoices(s.bindings) && s in SessionStates(f, s.pool, s.bindings, s.ke)
  {
    SessionStatesExactly(d, f, s);
    VersionChoicesExactly(d, s);
  }

  ghost function ByVersion(f: FourFlags, pool: set<Id>, bindings: set<Binding>): Option<Version> -> set<State> {
    ke => SessionStates(f, pool, bindings, ke)
  }

  lemma InUnion(f: FourFlags, pool: set<Id>, bindings: set<Binding>, s: State)
    ensures s in Union(VersionChoices(bindings), ByVersion(f, pool, bindings))
            <==> s.ke in VersionChoices(bindings) && s in SessionStates(f, pool, bindings, s.ke)
    ensures s in SessionStates(f, pool, bindings, s.ke) ==>
              s.pool == pool && s.bindings == bindings && FlagsOf(s) == f
              && s.expired == {} && !s.suspended && !s.detected && s.order == []
  {
    hide Active, TopEpoch, VersionChoices;
    assert ByVersion(f, pool, bindings)(s.ke) == SessionStates(f, pool, bindings, s.ke);
    assert forall ke | s in ByVersion(f, pool, bindings)(ke) :: s.ke == ke;
  }

  /** Nothing open: the family differs in the active version and in the sessions only. */
  lemma FamilyClosed(d: Domain, f: FourFlags, cores: set<State>, pool: set<Id>, bindings: set<Binding>)
    requires AllCores(d, f, cores) && Placed(d, {}, pool, bindings)
    ensures Family(cores, {}, pool, bindings) == Union(VersionChoices(bindings), ByVersion(f, pool, bindings))
  {
    forall s ensures s in Family(cores, {}, pool, bindings)
                     <==> s in Union(VersionChoices(bindings), ByVersion(f, pool, bindings))
    {
      InUnion(f, pool, bindings, s);
      hide Union, VersionChoices, SessionStates;
      assert s.pool - {} == s.pool && Outside(s.bindings, {}) == s.bindings;
      if s in cores || s in SessionStates(f, pool, bindings, s.ke) {
        if s.pool == pool && s.bindings == bindings {
          assert PoolClosed(d, s) && FlagsOf(s) == f;
          CoreIff(d, f, s);
        }
      }
    }
  }

  lemma ActiveIff(d: Domain, bindings: set<Binding>)
    requires forall b | b in bindings :: BoundInDomain(d, b)
    ensures Active(bindings).Some? <==> VpnBindings(bindings) != {}
  {
    if TopEpoch(bindings) > 0 {
      var b :| b in bindings && b.target == Vpn(TopEpoch(bindings));
      assert b in VpnBindings(bindings);
    }
    if b :| b in VpnBindings(bindings) {
      assert BoundInDomain(d, b);
    }
  }

  lemma SessionStatesSize(f: FourFlags, pool: set<Id>, bindings: set<Binding>, ke: Option<Version>)
    ensures |SessionStates(f, pool, bindings, ke)| == if Active(bindings).Some? then 2 else 1
  {
    hide Active, TopEpoch;
    if Active(bindings).Some? {
      assert Activated(f, pool, bindings, ke) != Pending(f, pool, bindings, ke);
    }
  }

  lemma ByVersionDisjoint(f: FourFlags, pool: set<Id>, bindings: set<Binding>, a: Option<Version>, b: Option<Version>)
    requires a != b
    ensures ByVersion(f, pool, bindings)(a) !! ByVersion(f, pool, bindings)(b)
  {
    hide Active, TopEpoch;
    assert forall s | s in SessionStates(f, pool, bindings, a) :: s.ke == a;
    assert forall s | s in SessionStates(f, pool, bindings, b) :: s.ke == b;
  }

  lemma FamilyClosedSize(d: Domain, f: FourFlags, cores: set<State>, pool: set<Id>, bindings: set<Binding>)
    requires AllCores(d, f, cores) && Placed(d, {}, pool, bindings)
    ensures |Family(cores, {}, pool, bindings)|
            == Choices(|bindings - VpnBindings(bindings)|, |VpnBindings(bindings)|)
  {
    FamilyClosed(d, f, cores, pool, bindings);
    ActiveIff(d, bindings);
    VersionChoicesSize(bindings);
    hide Active, AllCores, Family, VersionChoices, Union, SessionStates, Placed, VpnBindings;
    var part := ByVersion(f, pool, bindings);
    var two := if |VpnBindings(bindings)| > 0 then 2 else 1;
    forall ke | ke in VersionChoices(bindings) ensures |part(ke)| == two {
      SessionStatesSize(f, pool, bindings, ke);
    }
    forall a, b | a in VersionChoices(bindings) && b in VersionChoices(bindings) && a != b ensures part(a) !! part(b) {
      ByVersionDisjoint(f, pool, bindings, a, b);
    }
    UnionSize(VersionChoices(bindings), part, two);
  }

  // --- deciding one more identifier ----------------------------------------------

  function FreeVersions(d: Domain, bindings: set<Binding>): set<Target> {
    EkmTargets(d.versions) - TargetsOf(bindings)
  }

  function FreeEpochs(d: Domain, bindings: set<Binding>): set<Target> {
    VpnTargets(d.maxEpoch) - TargetsOf(bindings)
  }

  /** The family in which `k` is bound to a given target. */
  ghost function ByTarget(cores: set<State>, open: set<Id>, pool: set<Id>, bindings: set<Binding>, k: Id): Target -> set<State> {
    t => Family(cores, open, pool, bindings + {Binding(k, t)})
  }

  function BindingsOf(bindings: set<Binding>, k: Id): set<Binding> {
    set b | b in bindings && b.id == k
  }

  lemma OutsideLess(bindings: set<Binding>, open: set<Id>, k: Id)
    requires k in open
    ensures Outside(bindings, open - {k}) == Outside(bindings, open) + BindingsOf(bindings, k)
    ensures Outside(bindings, open) !! BindingsOf(bindings, k)
  {
  }

  /** Where a core puts `k`: nowhere, in the pool, or under exactly one binding to a free target. */
  lemma Whereabouts(d: Domain, s: State, open: set<Id>, bindings: set<Binding>, k: Id)
    requires PoolClosed(d, s) && k in open && Outside(s.bindings, open) == bindings
    ensures k in s.pool ==> BindingsOf(s.bindings, k) == {}
    ensures BindingsOf(s.bindings, k) != {} ==>
              exists t :: t in FreeVersions(d, bindings) + FreeEpochs(d, bindings) && BindingsOf(s.bindings, k) == {Binding(k, t)}
  {
    if b :| b in BindingsOf(s.bindings, k) {
      assert b.id in Consumed(s);
      assert BoundInDomain(d, b);
      assert BindingsOf(s.bindings, k) == {Binding(k, b.target)};
      assert b.target !in TargetsOf(bindings) by {
        assert b !in bindings;
        assert forall a | a in bindings :: a in s.bindings;
      }
    }
  }

  /** The four ways to decide `k`. */
  ghost function Decided(d: Domain, cores: set<State>, rest: set<Id>, pool: set<Id>, bindings: set<Binding>, k: Id): set<State> {
    Family(cores, rest, pool, bindings) + Family(cores, rest, pool + {k}, bindings)
    + Union(FreeVersions(d, bindings), ByTarget(cores, rest, pool, bindings, k))
    + Union(FreeEpochs(d, bindings), ByTarget(cores, rest, pool, bindings, k))
  }

  lemma InByTarget(cores: set<State>, rest: set<Id>, pool: set<Id>, bindings: set<Binding>, k: Id, ts: set<Target>, s: State)
    requires k !in IdsOf(bindings)
    ensures s in Union(ts, ByTarget(cores, rest, pool, bindings, k))
            <==> exists t :: t in ts && s in Family(cores, rest, pool, bindings + {Binding(k, t)})
  {
    hide Family;
    if t :| t in ts && s in Family(cores, rest, pool, bindings + {Binding(k, t)}) {
      assert s in ByTarget(cores, rest, pool, bindings, k)(t);
    }
  }

  lemma SplitMember(d: Domain, f: FourFlags, cores: set<State>, open: set<Id>, k: Id, pool: set<Id>, bindings: set<Binding>, s: State)
    requires AllCores(d, f, cores) && Placed(d, open, pool, bindings) && k in open && s in cores
    ensures s in Family(cores, open, pool, bindings) ==> s in Decided(d, cores, open - {k}, pool, bindings, k)
  {
    var rest := open - {k};
    if s in Family(cores, open, pool, bindings) {
      OutsideLess(s.bindings, open, k);
      Whereabouts(d, s, open, bindings, k);
      if k in s.pool {
        assert s.pool - rest == pool + {k};
      } else {
        assert s.pool - rest == pool;
        if BindingsOf(s.bindings, k) != {} {
          var t :| t in FreeVersions(d, bindings) + FreeEpochs(d, bindings) && BindingsOf(s.bindings, k) == {Binding(k, t)};
          assert s in Family(cores, rest, pool, bindings + {Binding(k, t)});
          InByTarget(cores, rest, pool, bindings, k, FreeVersions(d, bindings), s);
          InByTarget(cores, rest, pool, bindings, k, FreeEpochs(d, bindings), s);
        }
      }
    }
  }

  /** Forgetting a decision about `k` leads back into the family. */
  lemma MergeMember(cores: set<State>, open: set<Id>, k: Id, pool: set<Id>, bindings: set<Binding>,
                    pool1: set<Id>, bindings1: set<Binding>, s: State)
    requires k in open && k !in pool && k !in IdsOf(bindings)
    requires s in Family(cores, open - {k}, pool1, bindings1)
    requires pool1 - {k} == pool && bindings1 - BindingsOf(bindings1, k) == bindings
    ensures s in Family(cores, open, pool, bindings)
    ensures (k in s.pool <==> k in pool1) && BindingsOf(s.bindings, k) == BindingsOf(bindings1, k)
  {
    OutsideLess(s.bindings, open, k);
    assert s.pool - open == (s.pool - (open - {k})) - {k};
    assert BindingsOf(Outside(s.bindings, open - {k}), k) == BindingsOf(s.bindings, k);
  }

  lemma NoBindings(bindings: set<Binding>, k: Id, t: Target)
    requires k !in IdsOf(bindings)
    ensures BindingsOf(bindings, k) == {} && BindingsOf(bindings + {Binding(k, t)}, k) == {Binding(k, t)}
    ensures bindings - {} == bindings && bindings + {Binding(k, t)} - {Binding(k, t)} == bindings
  {
    assert forall b | b in bindings :: b.id in IdsOf(bindings);
  }

  /** What each way of deciding `k` says about a core, and that it stays in the family. */
  lemma DecidedMember(cores: set<State>, open: set<Id>, k: Id, pool: set<Id>, bindings: set<Binding>, t: Target, s: State)
    requires k in open && k !in pool && k !in IdsOf(bindings)
    ensures s in Family(cores, open - {k}, pool, bindings) ==>
              s in Family(cores, open, pool, bindings) && k !in s.pool && BindingsOf(s.bindings, k) == {}
    ensures s in Family(cores, open - {k}, pool + {k}, bindings) ==>
              s in Family(cores, open, pool, bindings) && k in s.pool && BindingsOf(s.bindings, k) == {}
    ensures s in Family(cores, open - {k}, pool, bindings + {Binding(k, t)}) ==>
              s in Family(cores, open, pool, bindings) && k !in s.pool && BindingsOf(s.bindings, k) == {Binding(k, t)}
  {
    NoBindings(bindings, k, t);
    assert pool - {k} == pool && pool + {k} - {k} == pool;
    hide Family, BindingsOf;
    if s in Family(cores, open - {k}, pool, bindings) {
      MergeMember(cores, open, k, pool, bindings, pool, bindings, s);
    }
    if s in Family(cores, open - {k}, pool + {k}, bindings) {
      MergeMember(cores, open, k, pool, bindings, pool + {k}, bindings, s);
    }
    if s in Family(cores, open - {k}, pool, bindings + {Binding(k, t)}) {
      MergeMember(cores, open, k, pool, bindings, pool, bindings + {Binding(k, t)}, s);
    }
  }

  lemma TargetMember(cores: set<State>, open: set<Id>, k: Id, pool: set<Id>, bindings: set<Binding>, ts: set<Target>, s: State)
    requires k in open && k !in pool && k !in IdsOf(bindings)
    requires s in Union(ts, ByTarget(cores, open - {k}, pool, bindings, k))
    ensures s in Family(cores, open, pool, bindings) && k !in s.pool
    ensures exists t :: t in ts && BindingsOf(s.bindings, k) == {Binding(k, t)}
  {
    hide Family, BindingsOf;
    InByTarget(cores, open - {k}, pool, bindings, k, ts, s);
    var t :| t in ts && s in Family(cores, open - {k}, pool, bindings + {Binding(k, t)});
    DecidedMember(cores, open, k, pool, bindings, t, s);
  }

  lemma FourSizes<T>(all: set<T>, a: set<T>, b: set<T>, c: set<T>, e: set<T>)
    requires all == a + b + c + e && a !! b && (a + b) !! c && (a + b + c) !! e
    ensures |all| == |a| + |b| + |c| + |e|
  {
    assert |a + b + c| == |a + b| + |c|;
  }

  lemma FamilyDecided(d: Domain, f: FourFlags, cores: set<State>, open: set<Id>, k: Id, pool: set<Id>, bindings: set<Binding>)
    requires AllCores(d, f, cores) && Placed(d, open, pool, bindings) && k in open && k !in pool && k !in IdsOf(bindings)
    ensures Family(cores, open, pool, bindings) == Decided(d, cores, open - {k}, pool, bindings, k)
  {
    hide Union, BindingsOf, Placed;
    forall s | s in Family(cores, open, pool, bindings) ensures s in Decided(d, cores, open - {k}, pool, bindings, k) {
      SplitMember(d, f, cores, open, k, pool, bindings, s);
    }
    hide AllCores, Family;
    forall s | s in Decided(d, cores, open - {k}, pool, bindings, k) ensures s in Family(cores, open, pool, bindings) {
      if s in Union(FreeVersions(d, bindings), ByTarget(cores, open - {k}, pool, bindings, k)) {
        TargetMember(cores, open, k, pool, bindings, FreeVersions(d, bindings), s);
      } else if s in Union(FreeEpochs(d, bindings), ByTarget(cores, open - {k}, pool, bindings, k)) {
        TargetMember(cores, open, k, pool, bindings, FreeEpochs(d, bindings), s);
      } else {
        DecidedMember(cores, open, k, pool, bindings, Vpn(0), s);
      }
    }
  }

  lemma DecidedDisjoint(d: Domain, cores: set<State>, open: set<Id>, k: Id, pool: set<Id>, bindings: set<Binding>)
    requires k in open && k !in pool && k !in IdsOf(bindings)
    ensures var rest := open - {k};
            var a, b := Family(cores, rest, pool, bindings), Family(cores, rest, pool + {k}, bindings);
            var c := Union(FreeVersions(d, bindings), ByTarget(cores, rest, pool, bindings, k));
            var e := Union(FreeEpochs(d, bindings), ByTarget(cores, rest, pool, bindings, k));
            a !! b && (a + b) !! c && (a + b + c) !! e
  {
    var rest := open - {k};
    var a, b := Family(cores, rest, pool, bindings), Family(cores, rest, pool + {k}, bindings);
    var c := Union(FreeVersions(d, bindings), ByTarget(cores, rest, pool, bindings, k));
    var e := Union(FreeEpochs(d, bindings), ByTarget(cores, rest, pool, bindings, k));
    hide Family, Union, BindingsOf;
    forall s | s in a || s in b ensures BindingsOf(s.bindings, k) == {} && (s in a ==> s !in b) {
      DecidedMember(cores, open, k, pool, bindings, Vpn(0), s);
    }
    forall s | s in c ensures OnVersion(s, k) && BindingsOf(s.bindings, k) != {} {
      TargetMember(cores, open, k, pool, bindings, FreeVersions(d, bindings), s);
      var t :| t in FreeVersions(d, bindings) && BindingsOf(s.bindings, k) == {Binding(k, t)};
      assert Binding(k, t) in BindingsOf(s.bindings, k);
    }
    forall s | s in e ensures !OnVersion(s, k) && BindingsOf(s.bindings, k) != {} {
      TargetMember(cores, open, k, pool, bindings, FreeEpochs(d, bindings), s);
    }
    hide OnVersion;
  }

  predicate OnVersion(s: State, k: Id) {
    exists b | b in BindingsOf(s.bindings, k) :: b.target.Ekm?
  }

  /** The four ways are disjoint and together are the family. */
  lemma FamilySplit(d: Domain, f: FourFlags, cores: set<State>, open: set<Id>, k: Id, pool: set<Id>, bindings: set<Binding>)
    requires AllCores(d, f, cores) && Placed(d, open, pool, bindings) && k in open && k !in pool && k !in IdsOf(bindings)
    ensures |Family(cores, open, pool, bindings)|
            == |Family(cores, open - {k}, pool, bindings)| + |Family(cores, open - {k}, pool + {k}, bindings)|
               + |Union(FreeVersions(d, bindings), ByTarget(cores, open - {k}, pool, bindings, k))|
               + |Union(FreeEpochs(d, bindings), ByTarget(cores, open - {k}, pool, bindings, k))|
  {
    FamilyDecided(d, f, cores, open, k, pool, bindings);
    DecidedDisjoint(d, cores, open, k, pool, bindings);
    hide Family, Union, AllCores, Placed;
    FourSizes(Family(cores, open, pool, bindings),
              Family(cores, open - {k}, pool, bindings), Family(cores, open - {k}, pool + {k}, bindings),
              Union(FreeVersions(d, bindings), ByTarget(cores, open - {k}, pool, bindings, k)),
              Union(FreeEpochs(d, bindings), ByTarget(cores, open - {k}, pool, bindings, k)));
  }

  // --- the induction over identifiers ------------------------------------------

  lemma FreeVersionsSize(d: Domain, bindings: set<Binding>)
    requires UniqueTargets(bindings) && forall b | b in bindings :: BoundInDomain(d, b)
    ensures |FreeVersions(d, bindings)| + |bindings - VpnBindings(bindings)| == |d.versions|
  {
    var ekm := bindings - VpnBindings(bindings);
    TargetsOfSize(ekm);
    EkmTargetsSize(d.versions);
    hide UniqueTargets;
    assert TargetsOf(ekm) <= EkmTargets(d.versions);
    forall v | Ekm(v) in TargetsOf(bindings) ensures Ekm(v) in TargetsOf(ekm) {
      var b :| b in bindings && b.target == Ekm(v);
      assert b in ekm;
    }
    assert EkmTargets(d.versions) == FreeVersions(d, bindings) + TargetsOf(ekm);
  }

  lemma FreeEpochsSize(d: Domain, bindings: set<Binding>)
    requires UniqueTargets(bindings) && forall b | b in bindings :: BoundInDomain(d, b)
    ensures |FreeEpochs(d, bindings)| + |VpnBindings(bindings)| == d.maxEpoch
  {
    var vpn := VpnBindings(bindings);
    TargetsOfSize(vpn);
    VpnTargetsSize(d.maxEpoch);
    hide UniqueTargets;
    assert TargetsOf(vpn) <= VpnTargets(d.maxEpoch);
    forall e: nat | Vpn(e) in TargetsOf(bindings) ensures Vpn(e) in TargetsOf(vpn) {
      var b :| b in bindings && b.target == Vpn(e);
      assert b in vpn;
    }
    assert VpnTargets(d.maxEpoch) == FreeEpochs(d, bindings) + TargetsOf(vpn);
  }

  lemma FreeSizes(d: Domain, bindings: set<Binding>)
    requires UniqueTargets(bindings) && forall b | b in bindings :: BoundInDomain(d, b)
    ensures |FreeVersions(d, bindings)| + |bindings - VpnBindings(bindings)| == |d.versions|
    ensures |FreeEpochs(d, bindings)| + |VpnBindings(bindings)| == d.maxEpoch
  {
    hide FreeVersions, FreeEpochs, VpnBindings;
    FreeVersionsSize(d, bindings);
    FreeEpochsSize(d, bindings);
  }

  lemma PlacedSizes(d: Domain, open: set<Id>, pool: set<Id>, bindings: set<Binding>)
    requires Placed(d, open, pool, bindings)
    ensures |FreeVersions(d, bindings)| + |bindings - VpnBindings(bindings)| == |d.versions|
    ensures |FreeEpochs(d, bindings)| + |VpnBindings(bindings)| == d.maxEpoch
  {
    FreeSizes(d, bindings);
  }

  lemma BindPlaced(d: Domain, open: set<Id>, pool: set<Id>, bindings: set<Binding>, k: Id, t: Target)
    requires Placed(d, open, pool, bindings) && k in open
    requires t in FreeVersions(d, bindings) || t in FreeEpochs(d, bindings)
    ensures Placed(d, open - {k}, pool, bindings + {Binding(k, t)}) && Binding(k, t) !in bindings
  {
    var bound := bindings + {Binding(k, t)};
    assert IdsOf(bound) == IdsOf(bindings) + {k};
    forall a | a in bindings ensures a.id != k && a.target != t {
      assert a.id in IdsOf(bindings) && a.target in TargetsOf(bindings);
    }
  }

  lemma BoundSizes(bindings: set<Binding>, b: Binding)
    requires b !in bindings
    ensures |bindings + {b} - VpnBindings(bindings + {b})| == |bindings - VpnBindings(bindings)| + One(b.target.Ekm?)
    ensures |VpnBindings(bindings + {b})| == |VpnBindings(bindings)| + One(b.target.Vpn?)
  {
    var bound := bindings + {b};
    if b.target.Vpn? {
      assert VpnBindings(bound) == VpnBindings(bindings) + {b};
      assert bound - VpnBindings(bound) == bindings - VpnBindings(bindings);
    } else {
      assert VpnBindings(bound) == VpnBindings(bindings);
      assert bound - VpnBindings(bound) == (bindings - VpnBindings(bindings)) + {b};
    }
  }

  lemma ByTargetDisjoint(cores: set<State>, open: set<Id>, k: Id, pool: set<Id>, bindings: set<Binding>, t: Target, u: Target)
    requires k in open && k !in pool && k !in IdsOf(bindings) && t != u
    ensures ByTarget(cores, open - {k}, pool, bindings, k)(t) !! ByTarget(cores, open - {k}, pool, bindings, k)(u)
  {
    hide Family, BindingsOf;
    forall s | s in Family(cores, open - {k}, pool, bindings + {Binding(k, t)})
      ensures s !in Family(cores, open - {k}, pool, bindings + {Binding(k, u)})
    {
      DecidedMember(cores, open, k, pool, bindings, t, s);
      DecidedMember(cores, open, k, pool, bindings, u, s);
      assert Binding(k, t) in {Binding(k, t)} && Binding(k, t) !in {Binding(k, u)};
    }
  }

  lemma TargetsSize(cores: set<State>, open: set<Id>, k: Id, pool: set<Id>, bindings: set<Binding>, ts: set<Target>, size: nat)
    requires k in open && k !in pool && k !in IdsOf(bindings)
    requires forall t | t in ts :: |Family(cores, open - {k}, pool, bindings + {Binding(k, t)})| == size
    ensures |Union(ts, ByTarget(cores, open - {k}, pool, bindings, k))| == |ts| * size
  {
    hide Family, Union;
    var part := ByTarget(cores, open - {k}, pool, bindings, k);
    forall t, u | t in ts && u in ts && t != u ensures part(t) !! part(u) {
      ByTargetDisjoint(cores, open, k, pool, bindings, t, u);
    }
    UnionSize(ts, part, size);
  }

  /** The closed form for a placement with `n` identifiers open. */
  ghost function CoresFrom(d: Domain, n: nat, bindings: set<Binding>): nat {
    Cores(n, |FreeVersions(d, bindings)|, |FreeEpochs(d, bindings)|, |bindings - VpnBindings(bindings)|, |VpnBindings(bindings)|)
  }

  /** What one more binding does to the closed form. */
  lemma BindCores(d: Domain, open: set<Id>, pool: set<Id>, bindings: set<Binding>, k: Id, t: Target, n: nat)
    requires Placed(d, open, pool, bindings) && k in open
    requires t in FreeVersions(d, bindings) || t in FreeEpochs(d, bindings)
    ensures Placed(d, open - {k}, pool, bindings + {Binding(k, t)})
    ensures var v, e := |FreeVersions(d, bindings)|, |FreeEpochs(d, bindings)|;
            var ekm, vpn := |bindings - VpnBindings(bindings)|, |VpnBindings(bindings)|;
            CoresFrom(d, n, bindings + {Binding(k, t)})
            == if t.Ekm? then (if v > 0 then Cores(n, v - 1, e, ekm + 1, vpn) else 0)
               else (if e > 0 then Cores(n, v, e - 1, ekm, vpn + 1) else 0)
  {
    hide Cores, VpnBindings, Placed, FreeVersions, FreeEpochs;
    BindPlaced(d, open, pool, bindings, k, t);
    BoundSizes(bindings, Binding(k, t));
    PlacedSizes(d, open, pool, bindings);
    PlacedSizes(d, open - {k}, pool, bindings + {Binding(k, t)});
  }

  lemma RestPlaced(d: Domain, open: set<Id>, k: Id, pool: set<Id>, bindings: set<Binding>)
    requires Placed(d, open, pool, bindings) && k in open
    ensures Placed(d, open - {k}, pool, bindings) && Placed(d, open - {k}, pool + {k}, bindings)
    ensures k !in pool && k !in IdsOf(bindings) && |open - {k}| == |open| - 1
  {
  }

  lemma {:induction false} FamilySize(d: Domain, f: FourFlags, cores: set<State>, open: set<Id>, pool: set<Id>, bindings: set<Binding>)
    requires AllCores(d, f, cores) && Placed(d, open, pool, bindings)
    ensures |Family(cores, open, pool, bindings)| == CoresFrom(d, |open|, bindings)
    decreases |open|
  {
    hide Family, Union, Placed, AllCores, FreeVersions, FreeEpochs, VpnBindings;
    if k :| k in open {
      var rest := open - {k};
      RestPlaced(d, open, k, pool, bindings);
      FamilySplit(d, f, cores, open, k, pool, bindings);
      FamilySize(d, f, cores, rest, pool, bindings);
      FamilySize(d, f, cores, rest, pool + {k}, bindings);
      FamilySizeBound(d, f, cores, open, k, pool, bindings);
    } else {
      assert open == {};
      FamilyClosedSize(d, f, cores, pool, bindings);
    }
  }

  lemma {:induction false} FamilySizeBound(d: Domain, f: FourFlags, cores: set<State>, open: set<Id>, k: Id, pool: set<Id>, bindings: set<Binding>)
    requires AllCores(d, f, cores) && Placed(d, open, pool, bindings) && k in open
    ensures var n, v, e := |open| - 1, |FreeVersions(d, bindings)|, |FreeEpochs(d, bindings)|;
            var ekm, vpn := |bindings - VpnBindings(bindings)|, |VpnBindings(bindings)|;
            && |Union(FreeVersions(d, bindings), ByTarget(cores, open - {k}, pool, bindings, k))|
               == v * (if v > 0 then Cores(n, v - 1, e, ekm + 1, vpn) else 0)
            && |Union(FreeEpochs(d, bindings), ByTarget(cores, open - {k}, pool, bindings, k))|
               == e * (if e > 0 then Cores(n, v, e - 1, ekm, vpn + 1) else 0)
    decreases |open|, 0
  {
    var rest := open - {k};
    var n, v, e := |rest|, |FreeVersions(d, bindings)|, |FreeEpochs(d, bindings)|;
    var ekm, vpn := |bindings - VpnBindings(bindings)|, |VpnBindings(bindings)|;
    RestPlaced(d, open, k, pool, bindings);
    assert (forall t | t in FreeVersions(d, bindings) :: t.Ekm?) && (forall t | t in FreeEpochs(d, bindings) :: t.Vpn?);
    hide Cores, Family, Union, AllCores, Placed, FreeVersions, FreeEpochs, VpnBindings, CoresFrom;
    var c1 := if v > 0 then Cores(n, v - 1, e, ekm + 1, vpn) else 0;
    var c2 := if e > 0 then Cores(n, v, e - 1, ekm, vpn + 1) else 0;
    forall t | t in FreeVersions(d, bindings) || t in FreeEpochs(d, bindings)
      ensures |Family(cores, rest, pool, bindings + {Binding(k, t)})| == if t.Ekm? then c1 else c2
    {
      BindCores(d, open, pool, bindings, k, t, n);
      FamilySize(d, f, cores, rest, pool, bindings + {Binding(k, t)});
    }
    TargetsSize(cores, open, k, pool, bindings, FreeVersions(d, bindings), c1);
    TargetsSize(cores, open, k, pool, bindings, FreeEpochs(d, bindings), c2);
  }

  // --- main results --------------------------------------------------------------

  /** With fixed flags, the allocation cores over any domain number exactly `Cores`. */
  lemma CoresExactly(d: Domain, f: FourFlags, cores: set<State>)
    requires AllCores(d, f, cores)
    ensures |cores| == Cores(|d.ids|, |d.versions|, d.maxEpoch, 0, 0)
  {
    hide Cores, Placed, Family, AllCores, CoresFrom;
    NothingPlaced(d, |d.ids|);
    FamilySize(d, f, cores, d.ids, {}, {});
    WholeFamily(d, f, cores);
  }

  lemma NothingPlaced(d: Domain, n: nat)
    ensures Placed(d, d.ids, {}, {})
    ensures CoresFrom(d, n, {}) == Cores(n, |d.versions|, d.maxEpoch, 0, 0)
  {
    hide Cores;
    assert VpnBindings({}) == {};
    FreeSizes(d, {});
  }

  lemma WholeFamily(d: Domain, f: FourFlags, cores: set<State>)
    requires AllCores(d, f, cores)
    ensures Family(cores, d.ids, {}, {}) == cores
  {
    forall s | s in cores ensures s in Family(cores, d.ids, {}, {}) {
      NothingOutside(d, s);
    }
  }

  lemma NothingOutside(d: Domain, s: State)
    requires PoolClosed(d, s)
    ensures s.pool - d.ids == {} && Outside(s.bindings, d.ids) == {}
  {
    assert forall b | b in s.bindings :: BoundInDomain(d, b);
  }

  function FlagChoices(): set<FourFlags> {
    {
      (true, true, true, true), (true, true, true, false), (true, true, false, true), (true, true, false, false),
      (true, false, true, true), (true, false, true, false), (true, false, false, true), (true, false, false, false),
      (false, true, true, true), (false, true, true, false), (false, true, false, true), (false, true, false, false),
      (false, false, true, true), (false, false, true, false), (false, false, false, true), (false, false, false, false)
    }
  }

  lemma FlagChoicesSize()
    ensures |FlagChoices()| == 16
    ensures forall f: FourFlags :: f in FlagChoices()
  {
    forall f: FourFlags ensures f in FlagChoices() {
      var (a, b, c, e) := f;
      assert (a, b, c, e) in FlagChoices();
    }
  }

  ghost function ByFlags(all: set<State>): FourFlags -> set<State> {
    f => set s | s in all && FlagsOf(s) == f
  }

  lemma FlagPartSize(d: Domain, all: set<State>, f: FourFlags)
    requires forall s :: s in all <==> Reachable(d, Calibrated(), s)
    ensures |ByFlags(all)(f)| == Cores(|d.ids|, |d.versions|, d.maxEpoch, 0, 0)
  {
    hide Reachable, Core, Cores;
    forall s ensures s in ByFlags(all)(f) <==> Core(d, true, s) && FlagsOf(s) == f {
      ReachableExactly(d, Calibrated(), s);
    }
    CoresExactly(d, f, ByFlags(all)(f));
  }

  lemma FlagPartition(all: set<State>)
    ensures Union(FlagChoices(), ByFlags(all)) == all
    ensures forall f, g: FourFlags | f != g :: ByFlags(all)(f) !! ByFlags(all)(g)
  {
    FlagChoicesSize();
    hide FlagChoices;
    forall s | s in all ensures s in Union(FlagChoices(), ByFlags(all)) {
      assert s in ByFlags(all)(FlagsOf(s));
    }
  }

  /** Any finite set that is the calibrated closure has sixteen times `Cores` elements. */
  lemma ClosureSize(d: Domain, all: set<State>)
    requires forall s :: s in all <==> Reachable(d, Calibrated(), s)
    ensures |all| == 16 * Cores(|d.ids|, |d.versions|, d.maxEpoch, 0, 0)
  {
    hide FlagChoices, Cores, Reachable, ByFlags, Union;
    FlagChoicesSize();
    FlagPartition(all);
    forall f: FourFlags ensures |ByFlags(all)(f)| == Cores(|d.ids|, |d.versions|, d.maxEpoch, 0, 0) {
      FlagPartSize(d, all, f);
    }
    UnionSize(FlagChoices(), ByFlags(all), Cores(|d.ids|, |d.versions|, d.maxEpoch, 0, 0));
  }
}
