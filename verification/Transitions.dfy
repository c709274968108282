/** The number of labelled transitions of the calibrated closure. */
module Transitions {
  import opened Options
  import opened ModelState
  import opened Events
  import opened Checks
  import opened Runs
  import opened FiniteSets
  import opened FiniteSums
  import opened Reachability
  import opened Census
  import opened EdgeCensus
  import opened Enumeration

  // --- the labels enabled in a core -----------------------------------------------------

  function IngestLabel(k: Id): Label {
    Ingest(k)
  }

  function ExpireLabel(k: Id): Label {
    Expire(k)
  }

  function EkmLabel(k: Id, t: Target): Label {
    AllocEkm(k, if t.Ekm? then t.version else "")
  }

  function VpnLabel(k: Id, t: Target): Label {
    AllocVpn(k, if t.Vpn? then Some(t.epoch) else None)
  }

  function StaleLabel(t: Target): Label {
    RejectStale(if t.Vpn? then Some(t.epoch) else None)
  }

  ghost function IngestLabels(d: Domain, s: State): set<Label> {
    if s.sq then Image(Unused(d, s.pool, s.bindings), IngestLabel) else {}
  }

  ghost function ExpireLabels(s: State): set<Label> {
    Image(s.pool, ExpireLabel)
  }

  ghost function EkmLabels(d: Domain, s: State): set<Label> {
    if s.se then PairImage(s.pool, FreeVersions(d, s.bindings), EkmLabel) else {}
  }

  ghost function VpnLabels(d: Domain, s: State): set<Label> {
    if s.se && s.kp.None? then PairImage(s.pool, Range(TopEpoch(s.bindings), d.maxEpoch), VpnLabel) else {}
  }

  function SessionLabels(s: State): set<Label> {
    if s.kp.Some? then {ActivateVpn} else {}
  }

  ghost function StaleLabels(s: State): set<Label> {
    Image(Range(0, s.epoch), StaleLabel)
  }

  function ToggleLabels(s: State): set<Label> {
    {if s.sq then SrcDown else SrcUp, if s.se then EkmDown else EkmUp, if s.authority then AuthorityWithdraw else AuthorityGrant}
  }

  function RecoverLabels(s: State): set<Label> {
    if s.sq && s.se && s.recovery then {Label.Recover} else {}
  }

  ghost function LabelsOf(d: Domain, s: State): set<Label> {
    IngestLabels(d, s) + ExpireLabels(s) + EkmLabels(d, s) + VpnLabels(d, s)
    + SessionLabels(s) + StaleLabels(s) + ToggleLabels(s) + RecoverLabels(s)
  }

  /** In a core without a pending session the authoritative epoch is the highest bound one. */
  lemma CoreSessions(d: Domain, s: State)
    requires Core(d, true, s)
    ensures s.kp.None? ==> s.epoch == TopEpoch(s.bindings)
    ensures s.kp.Some? ==> s.epoch < s.kp.value.epoch
    ensures s.epoch > 0 ==> s.kv.Some?
    ensures s.ke.Some? ==> Ekm(s.ke.value) in Targets(s)
  {
    if s.kp.None? {
      TopUnique(s.bindings, s.kv, s.epoch);
    }
  }

  lemma PoolLabelsExactly(d: Domain, s: State, l: Label)
    requires Core(d, true, s)
    ensures l in IngestLabels(d, s) <==> l.Ingest? && InventoryEnabled(d, Calibrated(), s, l)
    ensures l in ExpireLabels(s) <==> l.Expire? && InventoryEnabled(d, Calibrated(), s, l)
  {
    assert s.expired == {};
    hide Core, TopEpoch;
    if l.Ingest? || l.Expire? {
      assert IngestLabel(l.id) == Ingest(l.id) && ExpireLabel(l.id) == Expire(l.id);
    }
  }

  lemma EkmLabelsExactly(d: Domain, s: State, l: Label)
    requires Core(d, true, s)
    ensures l in EkmLabels(d, s) <==> l.AllocEkm? && InventoryEnabled(d, Calibrated(), s, l)
  {
    CoreSessions(d, s);
    hide Core, TopEpoch, PairImage;
    InPairImage(s.pool, FreeVersions(d, s.bindings), EkmLabel, l);
    if l.AllocEkm? && InventoryEnabled(d, Calibrated(), s, l) {
      assert Ekm(l.version) in FreeVersions(d, s.bindings) && l == EkmLabel(l.id, Ekm(l.version));
    }
  }

  lemma VpnLabelsExactly(d: Domain, s: State, l: Label)
    requires Core(d, true, s)
    ensures l in VpnLabels(d, s) <==> l.AllocVpn? && InventoryEnabled(d, Calibrated(), s, l)
  {
    CoreSessions(d, s);
    hide Core, TopEpoch, PairImage;
    InPairImage(s.pool, Range(TopEpoch(s.bindings), d.maxEpoch), VpnLabel, l);
    if l.AllocVpn? && InventoryEnabled(d, Calibrated(), s, l) {
      assert Vpn(l.tag.value) in Range(TopEpoch(s.bindings), d.maxEpoch) && l == VpnLabel(l.id, Vpn(l.tag.value));
    }
  }

  lemma StaleLabelsExactly(d: Domain, s: State, l: Label)
    requires Core(d, true, s)
    ensures l in StaleLabels(s) <==> l.RejectStale? && Enables(d, Calibrated(), s, l)
  {
    CoreSessions(d, s);
    hide Core, TopEpoch;
    if l.RejectStale? && l.tag.Some? {
      assert l == StaleLabel(Vpn(l.tag.value));
      assert Vpn(l.tag.value) in Range(0, s.epoch) <==> 0 < l.tag.value <= s.epoch;
    }
  }

  lemma SessionLabelsExactly(d: Domain, s: State, l: Label)
    requires Core(d, true, s)
    ensures l in SessionLabels(s) <==> MovesSession(l) && !l.RejectStale? && SessionEnabled(Calibrated(), s, l)
  {
    CoreSessions(d, s);
    hide Core, TopEpoch;
  }

  lemma ToggleLabelsExactly(s: State, l: Label)
    ensures l in ToggleLabels(s)
      <==> !MovesInventory(l) && !MovesSession(l) && !l.Reconcile? && !l.Recover? && FlagEnabled(Calibrated(), s, l)
  {
  }

  lemma RecoverLabelsExactly(s: State, l: Label)
    ensures l in RecoverLabels(s)
      <==> !MovesInventory(l) && !MovesSession(l) && (l.Reconcile? || l.Recover?) && FlagEnabled(Calibrated(), s, l)
  {
  }

  /** The labels of a core are exactly the enabled ones. */
  lemma LabelsExactly(d: Domain, s: State, l: Label)
    requires Core(d, true, s)
    ensures Enables(d, Calibrated(), s, l) <==> l in LabelsOf(d, s)
  {
    hide Core, Calibrated, InventoryEnabled, SessionEnabled, FlagEnabled, IngestLabels, ExpireLabels, EkmLabels, VpnLabels,
      SessionLabels, StaleLabels, ToggleLabels, RecoverLabels;
    PoolLabelsExactly(d, s, l);
    EkmLabelsExactly(d, s, l);
    VpnLabelsExactly(d, s, l);
    StaleLabelsExactly(d, s, l);
    SessionLabelsExactly(d, s, l);
    ToggleLabelsExactly(s, l);
    RecoverLabelsExactly(s, l);
  }

  // --- how many there are -----------------------------------------------------------------

  function FlagWeights(f: FourFlags): Weights {
    Weights(One(f.0), 1, One(f.1), One(f.1), 1, 1, 3 + One(f.0 && f.1 && f.3))
  }

  lemma InventorySizes(d: Domain, s: State)
    ensures |IngestLabels(d, s)| == One(s.sq) * |Unused(d, s.pool, s.bindings)|
    ensures |ExpireLabels(s)| == |s.pool|
  {
    hide Unused;
    ImageSize(Unused(d, s.pool, s.bindings), IngestLabel);
    ImageSize(s.pool, ExpireLabel);
  }

  lemma EkmSize(d: Domain, s: State)
    ensures |EkmLabels(d, s)| == One(s.se) * (|s.pool| * |FreeVersions(d, s.bindings)|)
  {
    assert forall t | t in FreeVersions(d, s.bindings) :: t.Ekm?;
    hide FreeVersions, PairImage;
    PairImageSize(s.pool, FreeVersions(d, s.bindings), EkmLabel);
  }

  lemma VpnSize(d: Domain, s: State)
    ensures |VpnLabels(d, s)|
         == if s.kp.Some? then 0 else One(s.se) * (|s.pool| * Minus(d.maxEpoch, TopEpoch(s.bindings)))
  {
    var epochs := Range(TopEpoch(s.bindings), d.maxEpoch);
    assert forall t | t in epochs :: t.Vpn?;
    RangeSize(TopEpoch(s.bindings), d.maxEpoch);
    hide Range, PairImage, TopEpoch;
    PairImageSize(s.pool, epochs, VpnLabel);
  }

  lemma RangeSize(low: nat, high: nat)
    ensures |Range(low, high)| == Minus(high, low)
  {
    RangeSum(Weights(0, 0, 0, 0, 0, 0, 0), 0, 0, Numbers(0, 0, 0, 0, 0, 0, 0), low, high);
  }

  lemma StaleSize(s: State)
    ensures |StaleLabels(s)| == s.epoch
  {
    assert forall t | t in Range(0, s.epoch) :: t.Vpn?;
    RangeSize(0, s.epoch);
    hide Range;
    ImageSize(Range(0, s.epoch), StaleLabel);
  }

  /** What kind of event a label names; the labels of one set are all of one kind. */
  function Kind(l: Label): nat {
    match l
    case Ingest(_) => 0
    case Expire(_) => 1
    case AllocEkm(_, _) => 2
    case AllocVpn(_, _) => 3
    case RejectStale(_) => 5
    case ActivateVpn => 4
    case Recover => 7
    case _ => 6
  }

  ghost predicate AllOf(labels: set<Label>, kind: nat) {
    forall l | l in labels :: Kind(l) == kind
  }

  lemma KindsApart(d: Domain, s: State)
    ensures AllOf(IngestLabels(d, s), 0) && AllOf(ExpireLabels(s), 1) && AllOf(EkmLabels(d, s), 2) && AllOf(VpnLabels(d, s), 3)
    ensures AllOf(SessionLabels(s), 4) && AllOf(StaleLabels(s), 5) && AllOf(ToggleLabels(s), 6) && AllOf(RecoverLabels(s), 7)
  {
    hide PairImage, Unused, FreeVersions, Range, TopEpoch;
    forall l | l in EkmLabels(d, s) ensures Kind(l) == 2 {
      InPairImage(s.pool, FreeVersions(d, s.bindings), EkmLabel, l);
    }
    forall l | l in VpnLabels(d, s) ensures Kind(l) == 3 {
      InPairImage(s.pool, Range(TopEpoch(s.bindings), d.maxEpoch), VpnLabel, l);
    }
  }

  /** Sets of different kinds are disjoint. */
  lemma AddKind(a: set<Label>, b: set<Label>, kind: nat)
    requires (forall l | l in a :: Kind(l) < kind) && AllOf(b, kind)
    ensures |a + b| == |a| + |b| && forall l | l in a + b :: Kind(l) < kind + 1
  {
    hide Kind;
    assert a !! b;
  }

  lemma KindsCount(d: Domain, s: State)
    ensures |LabelsOf(d, s)|
         == |IngestLabels(d, s)| + |ExpireLabels(s)| + |EkmLabels(d, s)| + |VpnLabels(d, s)|
            + |SessionLabels(s)| + |StaleLabels(s)| + |ToggleLabels(s)| + |RecoverLabels(s)|
  {
    KindsApart(d, s);
    hide IngestLabels, ExpireLabels, EkmLabels, VpnLabels, SessionLabels, StaleLabels, ToggleLabels, RecoverLabels, Kind;
    var a, b, c, e := IngestLabels(d, s), ExpireLabels(s), EkmLabels(d, s), VpnLabels(d, s);
    var f, g, h, i := SessionLabels(s), StaleLabels(s), ToggleLabels(s), RecoverLabels(s);
    AddKind(a, b, 1);
    AddKind(a + b, c, 2);
    AddKind(a + b + c, e, 3);
    AddKind(a + b + c + e, f, 4);
    AddKind(a + b + c + e + f, g, 5);
    AddKind(a + b + c + e + f + g, h, 6);
    AddKind(a + b + c + e + f + g + h, i, 7);
  }

  /** The out-degree of a state is the closed form with the weights of its flags. */
  lemma DegreeExactly(d: Domain, s: State)
    ensures |LabelsOf(d, s)| == DegreeOf(FlagWeights(FlagsOf(s)), d)(s)
  {
    InventorySizes(d, s);
    EkmSize(d, s);
    VpnSize(d, s);
    StaleSize(s);
    KindsCount(d, s);
    ToggleSize(s);
    DegreeForm(d, s);
    hide LabelsOf, IngestLabels, ExpireLabels, EkmLabels, VpnLabels, StaleLabels, ToggleLabels, TopEpoch, Unused, FreeVersions,
      DegreeOf;
  }

  lemma ToggleSize(s: State)
    ensures |ToggleLabels(s)| == 3
  {
  }

  lemma DegreeForm(d: Domain, s: State)
    ensures var ahead := Minus(d.maxEpoch, TopEpoch(s.bindings));
      DegreeOf(FlagWeights(FlagsOf(s)), d)(s)
      == One(s.sq) * |Unused(d, s.pool, s.bindings)| + |s.pool| + One(s.se) * (|s.pool| * |FreeVersions(d, s.bindings)|)
         + (if s.kp.Some? then 1 else One(s.se) * (|s.pool| * ahead)) + s.epoch + 3 + One(s.sq && s.se && s.recovery)
  {
    hide TopEpoch, Unused, FreeVersions, Minus;
  }

  // --- the flags --------------------------------------------------------------------------

  ghost function Total(w: Weights, d: Domain): nat {
    EdgesAt(w, d.maxEpoch, |d.ids|, Numbers(0, 0, |d.versions|, 0, d.maxEpoch, 0, 0))
  }

  predicate SourceUp(f: FourFlags) {
    f.0
  }

  predicate EkmReachable(f: FourFlags) {
    f.1
  }

  predicate Recovering(f: FourFlags) {
    f.0 && f.1 && f.3
  }

  function Having(flags: set<FourFlags>, p: FourFlags -> bool): set<FourFlags> {
    set f: FourFlags | f in flags && p(f)
  }

  /** The weights of all these flags together. */
  function TotalWeights(flags: set<FourFlags>): Weights {
    var source, ekm, n := |Having(flags, SourceUp)|, |Having(flags, EkmReachable)|, |flags|;
    Weights(source, n, ekm, ekm, n, n, 3 * n + |Having(flags, Recovering)|)
  }

  lemma OneMoreHaving(flags: set<FourFlags>, f: FourFlags, p: FourFlags -> bool)
    requires f in flags
    ensures |Having(flags, p)| == One(p(f)) + |Having(flags - {f}, p)|
  {
    assert Having(flags, p) == Having(flags - {f}, p) + if p(f) then {f} else {};
  }

  lemma MoreWeights(flags: set<FourFlags>, f: FourFlags)
    requires f in flags
    ensures TotalWeights(flags) == Plus(FlagWeights(f), TotalWeights(flags - {f}))
  {
    hide Having;
    OneMoreHaving(flags, f, SourceUp);
    OneMoreHaving(flags, f, EkmReachable);
    OneMoreHaving(flags, f, Recovering);
    assert |flags| == |flags - {f}| + 1;
  }

  ghost function TotalOf(d: Domain): FourFlags -> nat {
    (f: FourFlags) => Total(FlagWeights(f), d)
  }

  lemma {:induction false} FlagsSum(d: Domain, flags: set<FourFlags>)
    ensures Sum(flags, TotalOf(d)) == Total(TotalWeights(flags), d)
    decreases |flags|
  {
    hide TotalWeights, FlagWeights, EdgesAt, Plus;
    var x := Numbers(0, 0, |d.versions|, 0, d.maxEpoch, 0, 0);
    if f :| f in flags {
      FlagsSum(d, flags - {f});
      SumWithout(flags, TotalOf(d), f);
      MoreWeights(flags, f);
      EdgesPlus(FlagWeights(f), TotalWeights(flags - {f}), d.maxEpoch, |d.ids|, x);
    } else {
      assert flags == {};
      SumNothing(TotalOf(d));
      NoWeights(flags);
      EdgesPlus(TotalWeights(flags), TotalWeights(flags), d.maxEpoch, |d.ids|, x);
    }
  }

  lemma NoneHaving(flags: set<FourFlags>, p: FourFlags -> bool)
    requires flags == {}
    ensures |Having(flags, p)| == 0
  {
    assert Having(flags, p) == {};
  }

  lemma NoWeights(flags: set<FourFlags>)
    requires flags == {}
    ensures Plus(TotalWeights(flags), TotalWeights(flags)) == TotalWeights(flags)
  {
    NothingTotal(flags);
    hide TotalWeights;
  }

  lemma NothingTotal(flags: set<FourFlags>)
    requires flags == {}
    ensures TotalWeights(flags) == Weights(0, 0, 0, 0, 0, 0, 0)
  {
    hide Having;
    NoneHaving(flags, SourceUp);
    NoneHaving(flags, EkmReachable);
    NoneHaving(flags, Recovering);
  }

  function AllWeights(): Weights {
    Weights(8, 16, 8, 8, 16, 16, 50)
  }

  function SourceChoices(): set<FourFlags> {
    {(true, true, true, true), (true, true, true, false), (true, true, false, true), (true, true, false, false),
     (true, false, true, true), (true, false, true, false), (true, false, false, true), (true, false, false, false)}
  }

  function EkmChoices(): set<FourFlags> {
    {(true, true, true, true), (true, true, true, false), (true, true, false, true), (true, true, false, false),
     (false, true, true, true), (false, true, true, false), (false, true, false, true), (false, true, false, false)}
  }

  lemma ChoicesSizes()
    ensures |SourceChoices()| == 8 && |EkmChoices()| == 8
  {
  }

  lemma FlagsWithSource()
    ensures Having(FlagChoices(), SourceUp) == SourceChoices()
  {
    FlagChoicesSize();
    hide FlagChoices;
    forall f: FourFlags ensures f in FlagChoices() && f.0 <==> f in SourceChoices() {
      var (a, b, c, e) := f;
      assert (a, b, c, e) in SourceChoices() <==> a;
    }
  }

  lemma FlagsWithEkm()
    ensures Having(FlagChoices(), EkmReachable) == EkmChoices()
  {
    FlagChoicesSize();
    hide FlagChoices;
    forall f: FourFlags ensures f in FlagChoices() && f.1 <==> f in EkmChoices() {
      var (a, b, c, e) := f;
      assert (a, b, c, e) in EkmChoices() <==> b;
    }
  }

  lemma FlagsRecovering()
    ensures |Having(FlagChoices(), Recovering)| == 2
  {
    var both: set<FourFlags> := {(true, true, true, true), (true, true, false, true)};
    forall f: FourFlags ensures f in FlagChoices() && f.0 && f.1 && f.3 <==> f in both {
      var (a, b, c, e) := f;
      assert (a, b, c, e) in both <==> a && b && e;
    }
    assert Having(FlagChoices(), Recovering) == both;
  }

  lemma AllFlagsWeigh()
    ensures TotalWeights(FlagChoices()) == AllWeights()
  {
    FlagChoicesSize();
    FlagsWithSource();
    FlagsWithEkm();
    FlagsRecovering();
    ChoicesSizes();
    hide FlagChoices, SourceChoices, EkmChoices, Having;
  }

  // --- the closure ------------------------------------------------------------------------

  ghost function OutDegree(d: Domain): State -> nat {
    (s: State) => |LabelsOf(d, s)|
  }

  lemma FlagPartSum(d: Domain, all: set<State>, f: FourFlags)
    requires forall s :: s in all <==> Reachable(d, Calibrated(), s)
    ensures Sum(ByFlags(all)(f), OutDegree(d)) == TotalOf(d)(f)
  {
    hide Reachable, Core, LabelsOf, DegreeOf, Sum, Edges, FlagWeights, FlagsOf;
    var part := ByFlags(all)(f);
    forall s ensures s in part <==> Core(d, true, s) && FlagsOf(s) == f {
      ReachableExactly(d, Calibrated(), s);
    }
    forall s | s in part ensures OutDegree(d)(s) == DegreeOf(FlagWeights(f), d)(s) {
      DegreeExactly(d, s);
    }
    SumSame(part, OutDegree(d), DegreeOf(FlagWeights(f), d));
    CoresSum(FlagWeights(f), d, f, part);
  }

  /** The out-degrees of the calibrated closure sum up to the closed form, over any domain. */
  lemma ClosureDegrees(d: Domain, all: set<State>)
    requires forall s :: s in all <==> Reachable(d, Calibrated(), s)
    ensures Sum(all, OutDegree(d)) == Total(AllWeights(), d)
  {
    hide FlagChoices, Reachable, ByFlags, Union, Sum, OutDegree, TotalOf, Total, TotalWeights, AllWeights;
    FlagPartition(all);
    forall f: FourFlags ensures Sum(ByFlags(all)(f), OutDegree(d)) == TotalOf(d)(f) {
      FlagPartSum(d, all, f);
    }
    UnionSum(FlagChoices(), ByFlags(all), OutDegree(d), TotalOf(d));
    FlagsSum(d, FlagChoices());
    AllFlagsWeigh();
  }

  // --- the transitions a search reports -------------------------------------------------------

  ghost function From(res: Result): State -> set<(nat, Label, nat)> {
    (s: State) => set e | e in res.transitions && s in res.index && e.0 == res.index[s]
  }

  ghost function LabelOf(): ((nat, Label, nat)) -> Label {
    (e: (nat, Label, nat)) => e.1
  }

  /** The transitions reported out of one state carry exactly its labels, each once. */
  lemma FromState(d: Domain, res: Result, s: State)
    requires TrueDepths(d, Calibrated(), res) && TrueReports(d, Calibrated(), res) && Exhaustive(d, Calibrated(), res)
    requires s in res.index
    ensures |From(res)(s)| == OutDegree(d)(s)
  {
    hide LabelsOf, Core, Reachable, AtDepth, Enables, Fire, Invariants, Guards, Calibrated;
    var part := From(res)(s);
    assert Reachable(d, Calibrated(), s);
    CalibratedCore(d, s);
    forall l ensures l in LabelsOf(d, s) <==> Enables(d, Calibrated(), s, l) {
      LabelsExactly(d, s, l);
    }
    forall e | e in part ensures Enables(d, Calibrated(), s, e.1) && Fire(d, Calibrated(), s, e.1) in res.index
      && e.2 == res.index[Fire(d, Calibrated(), s, e.1)]
    {
      var (i, l, n) := e;
      assert (i, l, n) in res.transitions;
      var p, t :| p in res.index && t in res.index && res.index[p] == i && res.index[t] == n && Step(d, Calibrated(), p, l, t);
      assert p == s;
    }
    forall l | Enables(d, Calibrated(), s, l) ensures l in Image(part, LabelOf()) {
      var t := Fire(d, Calibrated(), s, l);
      assert Step(d, Calibrated(), s, l, t);
      var e := (res.index[s], l, res.index[t]);
      assert e in part && LabelOf()(e) == l;
    }
    assert Image(part, LabelOf()) == LabelsOf(d, s);
    ImageSize(part, LabelOf());
  }

  lemma CalibratedCore(d: Domain, s: State)
    requires Reachable(d, Calibrated(), s)
    ensures Core(d, true, s)
  {
    ReachableExactly(d, Calibrated(), s);
  }

  lemma TransitionsCovered(d: Domain, r: Rules, res: Result)
    requires TrueReports(d, r, res)
    ensures Union(res.index.Keys, From(res)) == res.transitions
  {
    hide Step, Guards, Invariants;
    forall e: (nat, Label, nat) ensures e in Union(res.index.Keys, From(res)) <==> e in res.transitions {
      if e in res.transitions {
        var (i, l, n) := e;
        assert (i, l, n) in res.transitions;
        var s, t :| s in res.index && t in res.index && res.index[s] == i && res.index[t] == n && Step(d, r, s, l, t);
        assert e in From(res)(s);
      }
    }
    assert Union(res.index.Keys, From(res)) == res.transitions;
  }

  /** A complete search of the calibrated reading reports as many labelled transitions as the closed form says. */
  lemma TransitionsExactly(d: Domain, res: Result)
    requires TrueDepths(d, Calibrated(), res) && TrueReports(d, Calibrated(), res) && Exhaustive(d, Calibrated(), res)
    ensures |res.transitions| == Total(AllWeights(), d)
  {
    assert forall s :: s in res.index.Keys <==> Reachable(d, Calibrated(), s);
    assert forall s, t | s in res.index.Keys && t in res.index.Keys && s != t :: From(res)(s) !! From(res)(t);
    TransitionsCovered(d, Calibrated(), res);
    hide Union, Total, AllWeights, OutDegree, Reachable, Sum, From;
    forall s | s in res.index.Keys ensures |From(res)(s)| == OutDegree(d)(s) {
      FromState(d, res, s);
    }
    hide TrueDepths, TrueReports, Exhaustive;
    UnionCount(res.index.Keys, From(res), OutDegree(d));
    ClosureDegrees(d, res.index.Keys);
  }
}
