/** What holds along whole runs of the reference model, for every reading of the rules. */
module NoReplay {
  import opened ModelState
  import opened Events
  import opened Checks
  import opened Runs
  import opened Safety
  import opened FiniteSets

  /** The step makes an epoch the authoritative one. */
  predicate Activates(r: Rules, l: Label) {
    l.ActivateVpn? || (l.AllocVpn? && r.activateMerged)
  }

  /** What one step can never undo. */
  predicate Grows(s: State, t: State) {
    s.bindings <= t.bindings && s.epoch <= t.epoch && s.expired <= t.expired
  }

  lemma InventoryGrows(d: Domain, r: Rules, s: State, l: Label)
    requires MovesInventory(l) && InventoryEnabled(d, r, s, l)
    ensures Grows(s, InventoryFire(r, s, l))
    ensures Activates(r, l) ==> s.epoch < InventoryFire(r, s, l).epoch
  {
    hide TopEpoch;
  }

  lemma SessionGrows(d: Domain, r: Rules, s: State, l: Label)
    requires PointersSound(d, r, s) && MovesSession(l) && SessionEnabled(r, s, l)
    ensures Grows(s, SessionFire(r, s, l))
    ensures Activates(r, l) ==> s.epoch < SessionFire(r, s, l).epoch
  {
  }

  lemma FlagGrows(r: Rules, s: State, l: Label)
    requires !MovesInventory(l) && !MovesSession(l)
    ensures Grows(s, FlagFire(r, s, l)) && !Activates(r, l)
  {
  }

  lemma StepGrows(d: Domain, r: Rules, s: State, l: Label, t: State)
    requires Sound(d, r, s) && Step(d, r, s, l, t)
    ensures Grows(s, t)
    ensures Activates(r, l) ==> s.epoch < t.epoch
  {
    hide Grows, Activates, MovesInventory, MovesSession, InventoryEnabled, InventoryFire, SessionEnabled, SessionFire,
      FlagEnabled, FlagFire, PointersSound, LedgerSound, OrderAgrees;
    if MovesInventory(l) {
      InventoryGrows(d, r, s, l);
    } else if MovesSession(l) {
      SessionGrows(d, r, s, l);
    } else {
      FlagGrows(r, s, l);
    }
  }

  lemma RunSound(d: Domain, r: Rules, run: Trace, i: nat)
    requires IsRun(d, r, run) && i < |run.states|
    ensures Sound(d, r, run.states[i])
  {
    RunReaches(d, r, run, i);
    ReachedSound(d, r, run.states[i], i);
  }

  lemma {:induction false} RunGrows(d: Domain, r: Rules, run: Trace, i: nat, j: nat)
    requires IsRun(d, r, run) && i <= j < |run.states|
    ensures Grows(run.states[i], run.states[j])
    decreases j
  {
    hide Step, Sound;
    if i < j {
      RunGrows(d, r, run, i, j - 1);
      RunSound(d, r, run, j - 1);
      StepGrows(d, r, run.states[j - 1], run.labels[j - 1], run.states[j]);
    }
  }

  /**
   * Along every run, whatever the reading: nothing bound is unbound, the authoritative epoch never
   * decreases, and an identifier once consumed or retired is never available again.
   */
  lemma ConsumedStaysConsumed(d: Domain, r: Rules, run: Trace, i: nat, j: nat)
    requires IsRun(d, r, run) && i <= j < |run.states|
    ensures run.states[i].bindings <= run.states[j].bindings
    ensures run.states[i].epoch <= run.states[j].epoch
    ensures run.states[j].pool !! Consumed(run.states[i]) + run.states[i].expired
  {
    RunGrows(d, r, run, i, j);
    RunSound(d, r, run, j);
    assert Consumed(run.states[i]) <= Consumed(run.states[j]);
  }

  /** Two activations in one run make different epochs authoritative, the later one the larger. */
  lemma EpochActivatedOnce(d: Domain, r: Rules, run: Trace, i: nat, j: nat)
    requires IsRun(d, r, run) && i < j < |run.labels|
    requires Activates(r, run.labels[i]) && Activates(r, run.labels[j])
    ensures run.states[i + 1].epoch < run.states[j + 1].epoch
  {
    RunGrows(d, r, run, i + 1, j);
    RunSound(d, r, run, j);
    StepGrows(d, r, run.states[j], run.labels[j], run.states[j + 1]);
  }

  /** The binding an allocation step creates. */
  ghost function NewBinding(s: State, l: Label): Binding
    requires l.AllocEkm? || l.AllocVpn?
  {
    match l
    case AllocEkm(k, v) => Binding(k, Ekm(v))
    case AllocVpn(k, tag) => Binding(k, Vpn(if tag.Some? then tag.value else NextEpoch(s)))
  }

  /** Two allocations in one run never share an identifier, and never share a purpose and object. */
  lemma AllocatedOnce(d: Domain, r: Rules, run: Trace, i: nat, j: nat)
    requires IsRun(d, r, run) && i < j < |run.labels|
    requires run.labels[i].AllocEkm? || run.labels[i].AllocVpn?
    requires run.labels[j].AllocEkm? || run.labels[j].AllocVpn?
    ensures var a := NewBinding(run.states[i], run.labels[i]);
            var b := NewBinding(run.states[j], run.labels[j]);
            a.id != b.id && a.target != b.target
  {
    var a := NewBinding(run.states[i], run.labels[i]);
    var s := run.states[j];
    assert Step(d, r, run.states[i], run.labels[i], run.states[i + 1]);
    assert Step(d, r, s, run.labels[j], run.states[j + 1]);
    assert a in run.states[i + 1].bindings;
    RunGrows(d, r, run, i + 1, j);
    RunSound(d, r, run, j);
    assert a.id in IdsOf(s.bindings) && a.target in TargetsOf(s.bindings);
    TakeAgrees(r, s, run.labels[j].id);
    if run.labels[j].AllocVpn? {
      NextEpochUnbound(s, NewBinding(s, run.labels[j]).target.epoch);
    }
  }

  lemma {:induction false} IdsOfSize(bindings: set<Binding>)
    requires UniqueIds(bindings)
    ensures |IdsOf(bindings)| == |bindings|
  {
    if bindings != {} {
      var b :| b in bindings;
      IdsOfSize(bindings - {b});
      assert IdsOf(bindings) == IdsOf(bindings - {b}) + {b.id};
      assert b.id !in IdsOf(bindings - {b});
    }
  }

  /** Identifiers are conserved: pooled, bound and retired ones never outnumber the domain. */
  lemma IdentifiersConserved(d: Domain, r: Rules, s: State)
    requires Reachable(d, r, s)
    ensures |s.pool| + |s.bindings| + |s.expired| <= |d.ids|
  {
    var n: nat :| ReachedIn(d, r, s, n);
    ReachedSound(d, r, s, n);
    IdsOfSize(s.bindings);
    var used := s.pool + Consumed(s) + s.expired;
    assert |used| == |s.pool| + |Consumed(s)| + |s.expired|;
    forall k | k in used ensures k in d.ids {
    }
    SubsetSize(used, d.ids);
  }
}
