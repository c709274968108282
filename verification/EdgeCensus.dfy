/** How many labelled transitions the calibrated closure has: out-degrees summed over every placement of identifiers. */
module EdgeCensus {
  import opened Options
  import opened ModelState
  import opened Checks
  import opened Safety
  import opened FiniteSums
  import opened Reachability
  import opened Census

  // --- the closed form ----------------------------------------------------------

  /** What one unused or pooled identifier, one free version, one free epoch and so on add to an out-degree. */
  datatype Weights = Weights(unused: nat, pooled: nat, version: nat, epoch: nat, pending: nat, stale: nat, fixed: nat)

  function Minus(a: nat, b: nat): nat {
    if b < a then a - b else 0
  }

  function Times(a: nat, b: nat): nat {
    a * b
  }

  function Higher(a: nat, b: nat): nat {
    if a < b then b else a
  }

  /** The out-degree of a core: `kp` says whether a session is pending, `epoch` is the authoritative one. */
  function Degree(w: Weights, last: nat, unused: nat, pooled: nat, versions: nat, top: nat, kp: bool, epoch: nat): nat {
    w.unused * unused + w.pooled * pooled + w.version * (pooled * versions)
    + (if kp then w.pending else w.epoch * (pooled * Minus(last, top)))
    + w.stale * epoch + w.fixed
  }

  /** The choices of the active version and of the sessions, once every identifier is placed. */
  function Leaf(w: Weights, last: nat, unused: nat, pooled: nat, versions: nat, ekm: nat, top: nat, second: nat): nat {
    (if ekm > 0 then ekm else 1)
    * (Degree(w, last, unused, pooled, versions, top, false, top)
       + if top > 0 then Degree(w, last, unused, pooled, versions, top, true, second) else 0)
  }

  /**
   * The out-degrees of all cores with `n` identifiers still to place, of which `versions` and `free` epochs may still
   * be bound, when `top` and `second` are the two highest bound epochs.
   */
  function Edges(w: Weights, last: nat, n: nat, unused: nat, pooled: nat, versions: nat, ekm: nat, free: nat, top: nat, second: nat): nat
    decreases n, 0, 0
  {
    if n == 0 then Leaf(w, last, unused, pooled, versions, ekm, top, second)
    else
      Edges(w, last, n - 1, unused + 1, pooled, versions, ekm, free, top, second)
      + Edges(w, last, n - 1, unused, pooled + 1, versions, ekm, free, top, second)
      + Times(versions, Edges(w, last, n - 1, unused, pooled, Minus(versions, 1), ekm + 1, free, top, second))
      + Between(w, last, n - 1, unused, pooled, versions, ekm, free, top, second, top, last)
      + Between(w, last, n - 1, unused, pooled, versions, ekm, free, top, second, second, Minus(top, 1))
      + Times(Minus(Minus(free, Minus(last, top)), Minus(Minus(top, 1), second)),
              Edges(w, last, n - 1, unused, pooled, versions, ekm, Minus(free, 1), top, second))
  }

  /** One more identifier bound to an epoch above `low`, up to `high`. */
  function Between(w: Weights, last: nat, n: nat, unused: nat, pooled: nat, versions: nat, ekm: nat, free: nat, top: nat, second: nat,
                   low: nat, high: nat): nat
    decreases n, 1, high
  {
    if high <= low then 0
    else
      Between(w, last, n, unused, pooled, versions, ekm, free, top, second, low, high - 1)
      + Edges(w, last, n, unused, pooled, versions, ekm, Minus(free, 1), Higher(top, high), NextSecond(top, second, high))
  }

  /** The second highest epoch once `e` is bound too. */
  function NextSecond(top: nat, second: nat, e: nat): nat {
    if top < e then top else Higher(second, e)
  }

  // --- the two highest bound epochs ---------------------------------------------------

  function Below(bindings: set<Binding>, e: nat): set<Binding> {
    set b | b in bindings && b.target.Vpn? && b.target.epoch < e
  }

  ghost function Second(bindings: set<Binding>): nat {
    TopEpoch(Below(bindings, TopEpoch(bindings)))
  }

  lemma TopIs(bindings: set<Binding>, n: nat)
    requires forall b | b in bindings && b.target.Vpn? :: b.target.epoch <= n
    requires n == 0 || exists b | b in bindings :: b.target == Vpn(n)
    ensures TopEpoch(bindings) == n
  {
  }

  lemma TopOfMore(bindings: set<Binding>, b: Binding)
    ensures TopEpoch(bindings + {b}) == if b.target.Vpn? then Higher(TopEpoch(bindings), b.target.epoch) else TopEpoch(bindings)
  {
    var top := TopEpoch(bindings);
    if top > 0 {
      var a :| a in bindings && a.target == Vpn(top);
      assert a in bindings + {b};
    }
    assert b in bindings + {b};
    TopIs(bindings + {b}, if b.target.Vpn? then Higher(top, b.target.epoch) else top);
  }

  lemma TopAttained(bindings: set<Binding>) returns (b: Binding)
    requires TopEpoch(bindings) > 0
    ensures b in bindings && b.target == Vpn(TopEpoch(bindings))
  {
    b :| b in bindings && b.target == Vpn(TopEpoch(bindings));
  }

  lemma SecondOfMore(bindings: set<Binding>, b: Binding)
    requires b.target !in TargetsOf(bindings)
    ensures Second(bindings + {b})
         == if b.target.Vpn? then NextSecond(TopEpoch(bindings), Second(bindings), b.target.epoch) else Second(bindings)
  {
    hide TopEpoch;
    var top := TopEpoch(bindings);
    TopOfMore(bindings, b);
    if !b.target.Vpn? {
      assert Below(bindings + {b}, top) == Below(bindings, top);
    } else if top < b.target.epoch {
      SecondBecomesTop(bindings, b);
    } else {
      if top > 0 {
        var a := TopAttained(bindings);
        assert a.target in TargetsOf(bindings);
      }
      assert b.target.epoch != top || top == 0;
      SecondGrows(bindings, b);
    }
  }

  lemma SecondBecomesTop(bindings: set<Binding>, b: Binding)
    requires b.target.Vpn? && TopEpoch(bindings) < b.target.epoch
    ensures Second(bindings + {b}) == TopEpoch(bindings)
  {
    TopOfMore(bindings, b);
    var top := TopEpoch(bindings);
    var all := Below(bindings + {b}, b.target.epoch);
    assert forall a | a in bindings && a.target.Vpn? :: a.target.epoch <= top;
    if top > 0 {
      var a := TopAttained(bindings);
      assert a in all;
    }
    hide TopEpoch;
    TopIs(all, top);
  }

  lemma BelowMore(bindings: set<Binding>, b: Binding, e: nat)
    requires b.target.Vpn? && b.target.epoch < e
    ensures Below(bindings + {b}, e) == Below(bindings, e) + {b}
  {
  }

  lemma BelowZero(bindings: set<Binding>)
    ensures Below(bindings, 0) == {}
  {
  }

  lemma SecondGrows(bindings: set<Binding>, b: Binding)
    requires b.target.Vpn? && b.target.epoch <= TopEpoch(bindings)
    requires b.target.epoch == TopEpoch(bindings) ==> b.target.epoch == 0
    ensures Second(bindings + {b}) == Higher(Second(bindings), b.target.epoch)
  {
    hide TopEpoch, Below;
    var top := TopEpoch(bindings);
    TopOfMore(bindings, b);
    if top > 0 {
      BelowMore(bindings, b, top);
      TopOfMore(Below(bindings, top), b);
    } else {
      BelowZero(bindings);
      BelowZero(bindings + {b});
      TopIs({}, 0);
    }
  }

  /** Without the highest binding, the second highest epoch is the highest. */
  lemma TopOfRest(bindings: set<Binding>, b: Binding)
    requires UniqueTargets(bindings) && b in bindings && b.target == Vpn(TopEpoch(bindings))
    ensures TopEpoch(bindings - {b}) == Second(bindings)
  {
    var top := TopEpoch(bindings);
    var rest, low := bindings - {b}, Below(bindings, top);
    assert forall a | a in rest && a.target.Vpn? :: a.target != b.target;
    if TopEpoch(low) > 0 {
      var a :| a in low && a.target == Vpn(TopEpoch(low));
      assert a in rest;
    }
    forall a | a in rest && a.target.Vpn? ensures a.target.epoch <= TopEpoch(low) {
      assert a in low;
    }
    TopIs(rest, TopEpoch(low));
  }

  // --- the out-degree of a core -------------------------------------------------------

  function Unused(d: Domain, pool: set<Id>, bindings: set<Binding>): set<Id> {
    d.ids - pool - IdsOf(bindings)
  }

  /** The out-degree, under the weights, of a state with this pool, these bindings and these session fields. */
  ghost function DegreeFrom(w: Weights, d: Domain, pool: set<Id>, bindings: set<Binding>, kp: bool, epoch: nat): nat {
    Degree(w, d.maxEpoch, |Unused(d, pool, bindings)|, |pool|, |FreeVersions(d, bindings)|, TopEpoch(bindings), kp, epoch)
  }

  ghost function DegreeOf(w: Weights, d: Domain): State -> nat {
    (s: State) => DegreeFrom(w, d, s.pool, s.bindings, s.kp.Some?, s.epoch)
  }

  // --- everything placed ----------------------------------------------------------------

  /** What the out-degrees of one placement with one active version come to. */
  ghost function SessionsDegree(w: Weights, d: Domain, pool: set<Id>, bindings: set<Binding>): nat {
    DegreeFrom(w, d, pool, bindings, false, TopEpoch(bindings))
    + if TopEpoch(bindings) > 0 then DegreeFrom(w, d, pool, bindings, true, Second(bindings)) else 0
  }

  lemma IdleSession(w: Weights, d: Domain, f: FourFlags, pool: set<Id>, bindings: set<Binding>, ke: Option<Version>)
    ensures DegreeOf(w, d)(Activated(f, pool, bindings, ke)) == DegreeFrom(w, d, pool, bindings, false, TopEpoch(bindings))
  {
    hide TopEpoch, Active, DegreeFrom;
  }

  lemma BusySession(w: Weights, d: Domain, f: FourFlags, pool: set<Id>, bindings: set<Binding>, ke: Option<Version>)
    requires UniqueTargets(bindings) && Active(bindings).Some?
    ensures DegreeOf(w, d)(Pending(f, pool, bindings, ke)) == DegreeFrom(w, d, pool, bindings, true, Second(bindings))
    ensures Pending(f, pool, bindings, ke) != Activated(f, pool, bindings, ke)
  {
    var x := Active(bindings).value;
    assert Binding(x.id, Vpn(x.epoch)) in bindings && x.epoch == TopEpoch(bindings);
    hide DegreeFrom, Active, TopEpoch, UniqueTargets;
    TopOfRest(bindings, Binding(x.id, Vpn(x.epoch)));
    hide Second;
  }

  lemma ActiveTop(bindings: set<Binding>)
    ensures Active(bindings).Some? <==> TopEpoch(bindings) > 0
  {
  }

  /** The sum over the sessions a placement with one active version allows. */
  lemma SessionsSum(w: Weights, d: Domain, f: FourFlags, pool: set<Id>, bindings: set<Binding>, ke: Option<Version>)
    requires UniqueTargets(bindings)
    ensures Sum(SessionStates(f, pool, bindings, ke), DegreeOf(w, d)) == SessionsDegree(w, d, pool, bindings)
  {
    hide TopEpoch, Active, DegreeFrom, DegreeOf, UniqueTargets, Activated, Pending, Second, Sum;
    var weight := DegreeOf(w, d);
    var idle := Activated(f, pool, bindings, ke);
    ActiveTop(bindings);
    IdleSession(w, d, f, pool, bindings, ke);
    SumOne(idle, weight);
    if Active(bindings).Some? {
      var busy := Pending(f, pool, bindings, ke);
      BusySession(w, d, f, pool, bindings, ke);
      SumOne(busy, weight);
      SumDisjoint({idle}, {busy}, weight);
    } else {
      assert {idle} + {} == {idle};
    }
  }

  /** The closed form of a placement with `n` identifiers open. */
  ghost function EdgesFrom(w: Weights, d: Domain, open: set<Id>, pool: set<Id>, bindings: set<Binding>): nat {
    Edges(w, d.maxEpoch, |open|, |Unused(d, pool, bindings) - open|, |pool|, |FreeVersions(d, bindings)|,
          |bindings - VpnBindings(bindings)|, |FreeEpochs(d, bindings)|, TopEpoch(bindings), Second(bindings))
  }

  lemma LeafForm(w: Weights, d: Domain, pool: set<Id>, bindings: set<Binding>)
    ensures EdgesFrom(w, d, {}, pool, bindings)
         == (if |bindings - VpnBindings(bindings)| > 0 then |bindings - VpnBindings(bindings)| else 1)
            * SessionsDegree(w, d, pool, bindings)
  {
    hide TopEpoch, Second, FreeVersions, FreeEpochs, VpnBindings, Degree, Unused;
    assert Unused(d, pool, bindings) - {} == Unused(d, pool, bindings);
  }

  lemma LeafSum(w: Weights, d: Domain, f: FourFlags, cores: set<State>, pool: set<Id>, bindings: set<Binding>)
    requires AllCores(d, f, cores) && Placed(d, {}, pool, bindings)
    ensures Sum(Family(cores, {}, pool, bindings), DegreeOf(w, d)) == EdgesFrom(w, d, {}, pool, bindings)
  {
    assert UniqueTargets(bindings);
    hide AllCores, Family, VersionChoices, Union, SessionStates, Placed, UniqueTargets, VpnBindings, EdgesFrom,
      SessionsDegree, DegreeOf, Sum;
    FamilyClosed(d, f, cores, pool, bindings);
    VersionChoicesSize(bindings);
    LeafForm(w, d, pool, bindings);
    var part := ByVersion(f, pool, bindings);
    var one := SessionsDegree(w, d, pool, bindings);
    var same := (_: Option<Version>) => one;
    forall ke | ke in VersionChoices(bindings) ensures Sum(part(ke), DegreeOf(w, d)) == same(ke) {
      SessionsSum(w, d, f, pool, bindings, ke);
    }
    forall a, b | a in VersionChoices(bindings) && b in VersionChoices(bindings) && a != b ensures part(a) !! part(b) {
      ByVersionDisjoint(f, pool, bindings, a, b);
    }
    UnionSum(VersionChoices(bindings), part, DegreeOf(w, d), same);
    SumConstant(VersionChoices(bindings), same, one);
  }

  // --- one more identifier placed -------------------------------------------------------

  lemma SplitSum(w: Weights, d: Domain, f: FourFlags, cores: set<State>, open: set<Id>, k: Id, pool: set<Id>, bindings: set<Binding>)
    requires AllCores(d, f, cores) && Placed(d, open, pool, bindings) && k in open && k !in pool && k !in IdsOf(bindings)
    ensures var weight := DegreeOf(w, d);
      Sum(Family(cores, open, pool, bindings), weight)
      == Sum(Family(cores, open - {k}, pool, bindings), weight) + Sum(Family(cores, open - {k}, pool + {k}, bindings), weight)
         + Sum(Union(FreeVersions(d, bindings), ByTarget(cores, open - {k}, pool, bindings, k)), weight)
         + Sum(Union(FreeEpochs(d, bindings), ByTarget(cores, open - {k}, pool, bindings, k)), weight)
  {
    hide Family, Union, AllCores, Placed, Sum, DegreeOf, FreeVersions, FreeEpochs, ByTarget;
    FamilyDecided(d, f, cores, open, k, pool, bindings);
    DecidedDisjoint(d, cores, open, k, pool, bindings);
    var a, b := Family(cores, open - {k}, pool, bindings), Family(cores, open - {k}, pool + {k}, bindings);
    var c := Union(FreeVersions(d, bindings), ByTarget(cores, open - {k}, pool, bindings, k));
    var e := Union(FreeEpochs(d, bindings), ByTarget(cores, open - {k}, pool, bindings, k));
    SumDisjoint(a, b, DegreeOf(w, d));
    SumDisjoint(a + b, c, DegreeOf(w, d));
    SumDisjoint(a + b + c, e, DegreeOf(w, d));
  }

  /** The numbers the closed form is about. */
  datatype Numbers = Numbers(unused: nat, pooled: nat, versions: nat, ekm: nat, free: nat, top: nat, second: nat)

  ghost function NumbersOf(d: Domain, open: set<Id>, pool: set<Id>, bindings: set<Binding>): Numbers {
    Numbers(|Unused(d, pool, bindings) - open|, |pool|, |FreeVersions(d, bindings)|, |bindings - VpnBindings(bindings)|,
            |FreeEpochs(d, bindings)|, TopEpoch(bindings), Second(bindings))
  }

  function EdgesAt(w: Weights, last: nat, n: nat, x: Numbers): nat {
    Edges(w, last, n, x.unused, x.pooled, x.versions, x.ekm, x.free, x.top, x.second)
  }

  /** One more identifier bound above the highest epoch, or between the two highest. */
  function High(w: Weights, last: nat, n: nat, x: Numbers): nat {
    Between(w, last, n, x.unused, x.pooled, x.versions, x.ekm, x.free, x.top, x.second, x.top, last)
  }

  function Mid(w: Weights, last: nat, n: nat, x: Numbers): nat {
    Between(w, last, n, x.unused, x.pooled, x.versions, x.ekm, x.free, x.top, x.second, x.second, Minus(x.top, 1))
  }

  /** How many free epochs there are below both. */
  function Low(last: nat, x: Numbers): nat {
    Minus(Minus(x.free, Minus(last, x.top)), Minus(Minus(x.top, 1), x.second))
  }

  function VersionBound(x: Numbers): Numbers {
    x.(versions := Minus(x.versions, 1), ekm := x.ekm + 1)
  }

  function LowBound(x: Numbers): Numbers {
    x.(free := Minus(x.free, 1))
  }

  lemma UnboundNumbers(d: Domain, open: set<Id>, k: Id, pool: set<Id>, bindings: set<Binding>)
    requires Placed(d, open, pool, bindings) && k in open
    ensures var x := NumbersOf(d, open, pool, bindings);
      && NumbersOf(d, open - {k}, pool, bindings) == x.(unused := x.unused + 1)
      && NumbersOf(d, open - {k}, pool + {k}, bindings) == x.(pooled := x.pooled + 1)
  {
    RestPlaced(d, open, k, pool, bindings);
    hide TopEpoch, Second, FreeVersions, FreeEpochs, VpnBindings;
    assert k in d.ids;
    assert Unused(d, pool, bindings) - (open - {k}) == Unused(d, pool, bindings) - open + {k};
    assert Unused(d, pool + {k}, bindings) - (open - {k}) == Unused(d, pool, bindings) - open;
  }

  lemma BoundNumbers(d: Domain, open: set<Id>, k: Id, pool: set<Id>, bindings: set<Binding>, t: Target)
    requires Placed(d, open, pool, bindings) && k in open
    requires t in FreeVersions(d, bindings) || t in FreeEpochs(d, bindings)
    ensures Placed(d, open - {k}, pool, bindings + {Binding(k, t)})
    ensures var x := NumbersOf(d, open, pool, bindings);
      NumbersOf(d, open - {k}, pool, bindings + {Binding(k, t)})
      == if t.Ekm? then VersionBound(x)
         else x.(free := Minus(x.free, 1), top := Higher(x.top, t.epoch), second := NextSecond(x.top, x.second, t.epoch))
  {
    var b := Binding(k, t);
    assert t !in TargetsOf(bindings);
    BindPlaced(d, open, pool, bindings, k, t);
    StillUnused(d, open, k, pool, bindings, t);
    hide Placed, TopEpoch, Second, FreeVersions, FreeEpochs, VpnBindings, Unused;
    BoundSizes(bindings, b);
    PlacedSizes(d, open, pool, bindings);
    PlacedSizes(d, open - {k}, pool, bindings + {b});
    TopOfMore(bindings, b);
    SecondOfMore(bindings, b);
  }

  lemma StillUnused(d: Domain, open: set<Id>, k: Id, pool: set<Id>, bindings: set<Binding>, t: Target)
    requires k in open
    ensures Unused(d, pool, bindings + {Binding(k, t)}) - (open - {k}) == Unused(d, pool, bindings) - open
  {
    assert IdsOf(bindings + {Binding(k, t)}) == IdsOf(bindings) + {k};
  }

  // --- the free epochs ---------------------------------------------------------------------

  function Range(low: nat, high: nat): set<Target> {
    set e: nat | low < e <= high :: Vpn(e)
  }

  /** What binding one more identifier to an epoch leads to. */
  function AfterEpoch(w: Weights, last: nat, n: nat, x: Numbers): Target -> nat {
    (t: Target) => if t.Ekm? then 0 else
      EdgesAt(w, last, n, x.(free := Minus(x.free, 1), top := Higher(x.top, t.epoch), second := NextSecond(x.top, x.second, t.epoch)))
  }

  lemma {:induction false} RangeSum(w: Weights, last: nat, n: nat, x: Numbers, low: nat, high: nat)
    ensures Sum(Range(low, high), AfterEpoch(w, last, n, x))
         == Between(w, last, n, x.unused, x.pooled, x.versions, x.ekm, x.free, x.top, x.second, low, high)
    ensures |Range(low, high)| == Minus(high, low)
    decreases high
  {
    hide Edges, Sum, NextSecond, Higher;
    if high <= low {
      assert Range(low, high) == {};
      SumNothing(AfterEpoch(w, last, n, x));
    } else {
      RangeSum(w, last, n, x, low, high - 1);
      assert Range(low, high) == Range(low, high - 1) + {Vpn(high)};
      assert Vpn(high) !in Range(low, high - 1);
      SumOne(Vpn(high), AfterEpoch(w, last, n, x));
      SumDisjoint(Range(low, high - 1), {Vpn(high)}, AfterEpoch(w, last, n, x));
    }
  }

  lemma SumNothing<T(!new)>(v: T -> nat)
    ensures Sum({}, v) == 0
  {
  }

  /** Which epochs are bound: the highest, the second highest, and otherwise only ones below both. */
  lemma BoundEpochs(d: Domain, bindings: set<Binding>, e: nat)
    requires forall b | b in bindings :: BoundInDomain(d, b)
    ensures var top, second := TopEpoch(bindings), Second(bindings);
      && second <= top <= d.maxEpoch
      && (Vpn(e) in TargetsOf(bindings) ==> e <= second || e == top)
      && (0 < e && (e == top || e == second) ==> Vpn(e) in TargetsOf(bindings))
  {
    var top, second := TopEpoch(bindings), Second(bindings);
    if top > 0 {
      var a := TopAttained(bindings);
      assert BoundInDomain(d, a);
    }
    if second > 0 {
      var a := TopAttained(Below(bindings, top));
      assert a in bindings;
    }
    if Vpn(e) in TargetsOf(bindings) {
      var a :| a in bindings && a.target == Vpn(e);
      if e != top {
        assert a in Below(bindings, top);
      }
    }
  }

  /** Above the highest bound epoch, and between the two highest, every epoch is free; binding any other changes neither. */
  lemma FreeRanges(d: Domain, bindings: set<Binding>)
    requires forall b | b in bindings :: BoundInDomain(d, b)
    ensures var top, second := TopEpoch(bindings), Second(bindings);
      && Range(top, d.maxEpoch) <= FreeEpochs(d, bindings)
      && Range(second, Minus(top, 1)) <= FreeEpochs(d, bindings)
      && Range(top, d.maxEpoch) !! Range(second, Minus(top, 1))
      && forall t | t in FreeEpochs(d, bindings) - Range(top, d.maxEpoch) - Range(second, Minus(top, 1)) ::
           t.Vpn? && Higher(top, t.epoch) == top && NextSecond(top, second, t.epoch) == second
  {
    hide TopEpoch, Second;
    forall e: nat
      ensures var top, second := TopEpoch(bindings), Second(bindings);
        && second <= top <= d.maxEpoch
        && (Vpn(e) in TargetsOf(bindings) ==> e <= second || e == top)
        && (0 < e && (e == top || e == second) ==> Vpn(e) in TargetsOf(bindings))
    {
      hide BoundInDomain;
      BoundEpochs(d, bindings, e);
    }
    hide TargetsOf, BoundInDomain;
  }

  /** A sum over two parts, and over a rest on which the weight is constant. */
  lemma SumOfParts<T(!new)>(all: set<T>, a: set<T>, b: set<T>, v: T -> nat, each: nat)
    requires a <= all && b <= all && a !! b
    requires forall x | x in all - a - b :: v(x) == each
    ensures |all - a - b| == Minus(Minus(|all|, |a|), |b|)
    ensures Sum(all, v) == Sum(a, v) + Sum(b, v) + Times(|all - a - b|, each)
  {
    var rest := all - a - b;
    assert all == a + b + rest;
    assert |a + b + rest| == |a + b| + |rest| && |a + b| == |a| + |b|;
    SumDisjoint(a, b, v);
    SumDisjoint(a + b, rest, v);
    SumConstant(rest, v, each);
  }

  /** Binding an epoch below the two highest bound ones changes only how many are free. */
  lemma LowConstant(w: Weights, last: nat, n: nat, x: Numbers, t: Target)
    requires t.Vpn? && Higher(x.top, t.epoch) == x.top && NextSecond(x.top, x.second, t.epoch) == x.second
    ensures AfterEpoch(w, last, n, x)(t) == EdgesAt(w, last, n, LowBound(x))
  {
    hide EdgesAt, Higher, NextSecond, Minus;
  }

  lemma EpochsSum(w: Weights, d: Domain, n: nat, x: Numbers, bindings: set<Binding>)
    requires forall b | b in bindings :: BoundInDomain(d, b)
    requires x.free == |FreeEpochs(d, bindings)| && x.top == TopEpoch(bindings) && x.second == Second(bindings)
    ensures var last := d.maxEpoch;
      Sum(FreeEpochs(d, bindings), AfterEpoch(w, last, n, x))
      == High(w, last, n, x) + Mid(w, last, n, x) + Times(Low(last, x), EdgesAt(w, last, n, LowBound(x)))
  {
    hide TopEpoch, Second, Edges, EdgesAt, AfterEpoch, Between, Sum, FreeEpochs, Range, Higher, NextSecond, Minus, Times, BoundInDomain;
    FreeRanges(d, bindings);
    var last, v := d.maxEpoch, AfterEpoch(w, d.maxEpoch, n, x);
    var all, above, mid := FreeEpochs(d, bindings), Range(x.top, last), Range(x.second, Minus(x.top, 1));
    var each := EdgesAt(w, last, n, LowBound(x));
    RangeSum(w, last, n, x, x.top, last);
    RangeSum(w, last, n, x, x.second, Minus(x.top, 1));
    forall t | t in all - above - mid ensures v(t) == each {
      LowConstant(w, last, n, x, t);
    }
    SumOfParts(all, above, mid, v, each);
  }

  // --- the induction over identifiers ------------------------------------------------------

  lemma TargetsSum(w: Weights, d: Domain, cores: set<State>, open: set<Id>, k: Id, pool: set<Id>, bindings: set<Binding>,
                    ts: set<Target>, v: Target -> nat)
    requires k in open && k !in pool && k !in IdsOf(bindings)
    requires forall t | t in ts :: Sum(Family(cores, open - {k}, pool, bindings + {Binding(k, t)}), DegreeOf(w, d)) == v(t)
    ensures Sum(Union(ts, ByTarget(cores, open - {k}, pool, bindings, k)), DegreeOf(w, d)) == Sum(ts, v)
  {
    hide Family, Union, Sum, DegreeOf;
    var part := ByTarget(cores, open - {k}, pool, bindings, k);
    forall t, u | t in ts && u in ts && t != u ensures part(t) !! part(u) {
      ByTargetDisjoint(cores, open, k, pool, bindings, t, u);
    }
    UnionSum(ts, part, DegreeOf(w, d), v);
  }

  lemma EdgesStep(w: Weights, last: nat, n: nat, x: Numbers)
    ensures EdgesAt(w, last, n + 1, x)
         == EdgesAt(w, last, n, x.(unused := x.unused + 1)) + EdgesAt(w, last, n, x.(pooled := x.pooled + 1))
            + Times(x.versions, EdgesAt(w, last, n, VersionBound(x)))
            + High(w, last, n, x) + Mid(w, last, n, x) + Times(Low(last, x), EdgesAt(w, last, n, LowBound(x)))
  {
    hide Times, Minus, Between, Leaf;
  }

  lemma {:induction false} FamilySum(w: Weights, d: Domain, f: FourFlags, cores: set<State>, open: set<Id>, pool: set<Id>, bindings: set<Binding>)
    requires AllCores(d, f, cores) && Placed(d, open, pool, bindings)
    ensures Sum(Family(cores, open, pool, bindings), DegreeOf(w, d))
         == EdgesAt(w, d.maxEpoch, |open|, NumbersOf(d, open, pool, bindings))
    decreases |open|, 1
  {
    hide Family, Union, Placed, AllCores, NumbersOf, EdgesAt, Sum, DegreeOf, Times, Between, Minus;
    if k :| k in open {
      var n, x := |open| - 1, NumbersOf(d, open, pool, bindings);
      RestPlaced(d, open, k, pool, bindings);
      SplitSum(w, d, f, cores, open, k, pool, bindings);
      UnboundNumbers(d, open, k, pool, bindings);
      FamilySum(w, d, f, cores, open - {k}, pool, bindings);
      FamilySum(w, d, f, cores, open - {k}, pool + {k}, bindings);
      BoundVersions(w, d, f, cores, open, k, pool, bindings);
      BoundEpochsSum(w, d, f, cores, open, k, pool, bindings);
      EdgesStep(w, d.maxEpoch, n, x);
    } else {
      assert open == {};
      LeafSum(w, d, f, cores, pool, bindings);
      FormsAgree(w, d, {}, pool, bindings);
    }
  }

  lemma FormsAgree(w: Weights, d: Domain, open: set<Id>, pool: set<Id>, bindings: set<Binding>)
    ensures EdgesFrom(w, d, open, pool, bindings) == EdgesAt(w, d.maxEpoch, |open|, NumbersOf(d, open, pool, bindings))
  {
    hide Edges, Unused, FreeVersions, FreeEpochs, VpnBindings, TopEpoch, Second;
  }

  lemma {:induction false} BoundVersions(w: Weights, d: Domain, f: FourFlags, cores: set<State>, open: set<Id>, k: Id,
                                         pool: set<Id>, bindings: set<Binding>)
    requires AllCores(d, f, cores) && Placed(d, open, pool, bindings) && k in open
    ensures var n, x := |open| - 1, NumbersOf(d, open, pool, bindings);
      Sum(Union(FreeVersions(d, bindings), ByTarget(cores, open - {k}, pool, bindings, k)), DegreeOf(w, d))
      == Times(x.versions, EdgesAt(w, d.maxEpoch, n, VersionBound(x)))
    decreases |open|, 0
  {
    var n, x := |open| - 1, NumbersOf(d, open, pool, bindings);
    assert forall t | t in FreeVersions(d, bindings) :: t.Ekm?;
    assert x.versions == |FreeVersions(d, bindings)|;
    RestPlaced(d, open, k, pool, bindings);
    hide Family, Union, Placed, AllCores, NumbersOf, EdgesAt, Sum, DegreeOf, FreeVersions, FreeEpochs, Minus;
    var value := EdgesAt(w, d.maxEpoch, n, VersionBound(x));
    var v := (_: Target) => value;
    forall t | t in FreeVersions(d, bindings)
      ensures Sum(Family(cores, open - {k}, pool, bindings + {Binding(k, t)}), DegreeOf(w, d)) == v(t)
    {
      BoundNumbers(d, open, k, pool, bindings, t);
      FamilySum(w, d, f, cores, open - {k}, pool, bindings + {Binding(k, t)});
    }
    TargetsSum(w, d, cores, open, k, pool, bindings, FreeVersions(d, bindings), v);
    SumConstant(FreeVersions(d, bindings), v, value);
  }

  lemma {:induction false} BoundEpochsSum(w: Weights, d: Domain, f: FourFlags, cores: set<State>, open: set<Id>, k: Id,
                                          pool: set<Id>, bindings: set<Binding>)
    requires AllCores(d, f, cores) && Placed(d, open, pool, bindings) && k in open
    ensures var last, n, x := d.maxEpoch, |open| - 1, NumbersOf(d, open, pool, bindings);
      Sum(Union(FreeEpochs(d, bindings), ByTarget(cores, open - {k}, pool, bindings, k)), DegreeOf(w, d))
      == High(w, last, n, x) + Mid(w, last, n, x) + Times(Low(last, x), EdgesAt(w, last, n, LowBound(x)))
    decreases |open|, 0
  {
    var n, x := |open| - 1, NumbersOf(d, open, pool, bindings);
    assert forall t | t in FreeEpochs(d, bindings) :: t.Vpn?;
    assert x.free == |FreeEpochs(d, bindings)| && x.top == TopEpoch(bindings) && x.second == Second(bindings);
    assert forall b | b in bindings :: BoundInDomain(d, b);
    RestPlaced(d, open, k, pool, bindings);
    hide Family, Union, Placed, AllCores, NumbersOf, EdgesAt, Sum, DegreeOf, FreeVersions, FreeEpochs, Minus, Times, Between,
      TopEpoch, Second, Higher, NextSecond, BoundInDomain;
    var v := AfterEpoch(w, d.maxEpoch, n, x);
    forall t | t in FreeEpochs(d, bindings)
      ensures Sum(Family(cores, open - {k}, pool, bindings + {Binding(k, t)}), DegreeOf(w, d)) == v(t)
    {
      BoundNumbers(d, open, k, pool, bindings, t);
      FamilySum(w, d, f, cores, open - {k}, pool, bindings + {Binding(k, t)});
    }
    TargetsSum(w, d, cores, open, k, pool, bindings, FreeEpochs(d, bindings), v);
    EpochsSum(w, d, n, x, bindings);
  }

  /** With fixed flags, the weighted out-degrees of the allocation cores of any domain sum up to the closed form. */
  lemma CoresSum(w: Weights, d: Domain, f: FourFlags, cores: set<State>)
    requires AllCores(d, f, cores)
    ensures Sum(cores, DegreeOf(w, d)) == Edges(w, d.maxEpoch, |d.ids|, 0, 0, |d.versions|, 0, d.maxEpoch, 0, 0)
  {
    hide Placed, Family, AllCores, Edges, Sum, DegreeOf, Cores, CoresFrom;
    NothingPlaced(d, 0);
    WholeFamily(d, f, cores);
    FamilySum(w, d, f, cores, d.ids, {}, {});
    NoNumbers(d);
  }

  lemma NoNumbers(d: Domain)
    ensures NumbersOf(d, d.ids, {}, {}) == Numbers(0, 0, |d.versions|, 0, d.maxEpoch, 0, 0)
  {
    FreeSizes(d, {});
    assert VpnBindings({}) == {} && Unused(d, {}, {}) - d.ids == {};
    TopIs({}, 0);
    assert Below({}, 0) == {};
  }

  // --- adding weights -----------------------------------------------------------------------

  function Plus(a: Weights, b: Weights): Weights {
    Weights(a.unused + b.unused, a.pooled + b.pooled, a.version + b.version, a.epoch + b.epoch, a.pending + b.pending,
            a.stale + b.stale, a.fixed + b.fixed)
  }

  lemma TimesPlus(a: nat, b: nat, c: nat)
    ensures Times(a + b, c) == Times(a, c) + Times(b, c)
    ensures Times(c, a + b) == Times(c, a) + Times(c, b)
  {
    assert (a + b) * c == a * c + b * c;
  }

  lemma DegreePlus(a: Weights, b: Weights, last: nat, unused: nat, pooled: nat, versions: nat, top: nat, kp: bool, epoch: nat)
    ensures Degree(Plus(a, b), last, unused, pooled, versions, top, kp, epoch)
         == Degree(a, last, unused, pooled, versions, top, kp, epoch) + Degree(b, last, unused, pooled, versions, top, kp, epoch)
  {
    var ahead := pooled * Minus(last, top);
    TimesPlus(a.unused, b.unused, unused);
    TimesPlus(a.pooled, b.pooled, pooled);
    TimesPlus(a.version, b.version, pooled * versions);
    TimesPlus(a.epoch, b.epoch, ahead);
    TimesPlus(a.stale, b.stale, epoch);
  }

  lemma LeafPlus(a: Weights, b: Weights, last: nat, unused: nat, pooled: nat, versions: nat, ekm: nat, top: nat, second: nat)
    ensures Leaf(Plus(a, b), last, unused, pooled, versions, ekm, top, second)
         == Leaf(a, last, unused, pooled, versions, ekm, top, second) + Leaf(b, last, unused, pooled, versions, ekm, top, second)
  {
    DegreePlus(a, b, last, unused, pooled, versions, top, false, top);
    DegreePlus(a, b, last, unused, pooled, versions, top, true, second);
    hide Degree, Plus;
    var x := Degree(a, last, unused, pooled, versions, top, false, top)
             + if top > 0 then Degree(a, last, unused, pooled, versions, top, true, second) else 0;
    var y := Degree(b, last, unused, pooled, versions, top, false, top)
             + if top > 0 then Degree(b, last, unused, pooled, versions, top, true, second) else 0;
    TimesPlus(x, y, if ekm > 0 then ekm else 1);
  }

  /** Additive levels stay additive with one more identifier to place. */
  lemma StepPlus(a: Weights, b: Weights, c: Weights, last: nat, m: nat, x: Numbers)
    requires forall y | y in {x.(unused := x.unused + 1), x.(pooled := x.pooled + 1), VersionBound(x), LowBound(x)} ::
      EdgesAt(c, last, m, y) == EdgesAt(a, last, m, y) + EdgesAt(b, last, m, y)
    requires High(c, last, m, x) == High(a, last, m, x) + High(b, last, m, x)
    requires Mid(c, last, m, x) == Mid(a, last, m, x) + Mid(b, last, m, x)
    ensures EdgesAt(c, last, m + 1, x) == EdgesAt(a, last, m + 1, x) + EdgesAt(b, last, m + 1, x)
  {
    hide EdgesAt, Times, High, Mid, Low, VersionBound, LowBound;
    var low, unused, pooled, bound, free := Low(last, x), x.(unused := x.unused + 1), x.(pooled := x.pooled + 1), VersionBound(x), LowBound(x);
    EdgesStep(c, last, m, x);
    EdgesStep(a, last, m, x);
    EdgesStep(b, last, m, x);
    TimesPlus(EdgesAt(a, last, m, bound), EdgesAt(b, last, m, bound), x.versions);
    TimesPlus(EdgesAt(a, last, m, free), EdgesAt(b, last, m, free), low);
  }

  lemma {:induction false} EdgesPlus(a: Weights, b: Weights, last: nat, n: nat, x: Numbers)
    ensures EdgesAt(Plus(a, b), last, n, x) == EdgesAt(a, last, n, x) + EdgesAt(b, last, n, x)
    decreases n, 0, 0
  {
    if n == 0 {
      hide Plus, Leaf;
      LeafPlus(a, b, last, x.unused, x.pooled, x.versions, x.ekm, x.top, x.second);
    } else {
      hide Plus, EdgesAt, Minus, Between, VersionBound, LowBound;
      EdgesPlus(a, b, last, n - 1, x.(unused := x.unused + 1));
      EdgesPlus(a, b, last, n - 1, x.(pooled := x.pooled + 1));
      EdgesPlus(a, b, last, n - 1, VersionBound(x));
      EdgesPlus(a, b, last, n - 1, LowBound(x));
      BetweenPlus(a, b, last, n - 1, x, x.top, last);
      BetweenPlus(a, b, last, n - 1, x, x.second, Minus(x.top, 1));
      StepPlus(a, b, Plus(a, b), last, n - 1, x);
    }
  }

  lemma {:induction false} BetweenPlus(a: Weights, b: Weights, last: nat, n: nat, x: Numbers, low: nat, high: nat)
    ensures Between(Plus(a, b), last, n, x.unused, x.pooled, x.versions, x.ekm, x.free, x.top, x.second, low, high)
         == Between(a, last, n, x.unused, x.pooled, x.versions, x.ekm, x.free, x.top, x.second, low, high)
            + Between(b, last, n, x.unused, x.pooled, x.versions, x.ekm, x.free, x.top, x.second, low, high)
    decreases n, 1, high
  {
    hide Plus, Edges, Minus, Higher, NextSecond;
    if low < high {
      BetweenPlus(a, b, last, n, x, low, high - 1);
      EdgesPlus(a, b, last, n, x.(free := Minus(x.free, 1), top := Higher(x.top, high), second := NextSecond(x.top, x.second, high)));
    }
  }
}
