/** What each knob of the rules means for which events may fire, all other knobs left as they are. */
module Knobs {
  import opened Options
  import opened Lifecycle
  import opened ModelState
  import opened Events
  import opened Safety

  // --- which knobs matter to which events -------------------------------------------------

  /** Both readings have the same knobs about ingestion, expiry and allocation. */
  predicate SameInventoryKnobs(r: Rules, q: Rules) {
    && r.ingestNeedsEkm == q.ingestNeedsEkm && r.expireNeedsSourceDown == q.expireNeedsSourceDown
    && r.allocEkmNeedsSource == q.allocEkmNeedsSource && r.allocVpnNeedsNoActive == q.allocVpnNeedsNoActive
    && r.vpnPendingReplaceable == q.vpnPendingReplaceable && r.fifoPool == q.fifoPool
    && r.allocVpnAnyFutureEpoch == q.allocVpnAnyFutureEpoch
  }

  predicate SameSessionKnobs(r: Rules, q: Rules) {
    && r.activateMerged == q.activateMerged && r.abandonPending == q.abandonPending && r.sessionEnd == q.sessionEnd
    && r.rejectStaleNeedsActive == q.rejectStaleNeedsActive && r.rejectStalePerEpoch == q.rejectStalePerEpoch
  }

  predicate SameFlagKnobs(r: Rules, q: Rules) {
    && r.depTogglesUnconditional == q.depTogglesUnconditional && r.authorityOnlyWhenDegraded == q.authorityOnlyWhenDegraded
    && r.restorationDetected == q.restorationDetected && r.recoverNeedsAuthority == q.recoverNeedsAuthority
  }

  lemma InventoryKnobsOnly(d: Domain, r: Rules, q: Rules, s: State, l: Label)
    requires MovesInventory(l) && SameInventoryKnobs(r, q)
    ensures InventoryEnabled(d, r, s, l) <==> InventoryEnabled(d, q, s, l)
  {
    hide NextEpoch;
  }

  lemma SessionKnobsOnly(r: Rules, q: Rules, s: State, l: Label)
    requires MovesSession(l) && SameSessionKnobs(r, q)
    ensures SessionEnabled(r, s, l) <==> SessionEnabled(q, s, l)
  {
  }

  lemma FlagKnobsOnly(r: Rules, q: Rules, s: State, l: Label)
    requires !MovesInventory(l) && !MovesSession(l) && SameFlagKnobs(r, q)
    ensures FlagEnabled(r, s, l) <==> FlagEnabled(q, s, l)
  {
    hide ModeOf;
  }

  /** Every event asks only the knobs of its kind when it may fire; nine knobs are asked by none. */
  lemma KnobsMatterToTheirKind(d: Domain, r: Rules, q: Rules, s: State, l: Label)
    requires MovesInventory(l) ==> SameInventoryKnobs(r, q)
    requires MovesSession(l) ==> SameSessionKnobs(r, q)
    requires !MovesInventory(l) && !MovesSession(l) ==> SameFlagKnobs(r, q)
    ensures Enables(d, r, s, l) <==> Enables(d, q, s, l)
  {
    hide SameInventoryKnobs, SameSessionKnobs, SameFlagKnobs, MovesInventory, MovesSession,
      InventoryEnabled, SessionEnabled, FlagEnabled;
    if MovesInventory(l) {
      InventoryKnobsOnly(d, r, q, s, l);
    } else if MovesSession(l) {
      SessionKnobsOnly(r, q, s, l);
    } else {
      FlagKnobsOnly(r, q, s, l);
    }
  }

  // --- what each knob asks ----------------------------------------------------------------

  /** What the knobs add to the condition of an event about the inventory, on top of the literal reading. */
  lemma InventoryKnobs(d: Domain, r: Rules, s: State, l: Label)
    requires MovesInventory(l) && !r.fifoPool && !r.allocVpnAnyFutureEpoch
    ensures InventoryEnabled(d, r, s, l) <==>
      && InventoryEnabled(d, Base().(vpnPendingReplaceable := true), s, l)
      && (l.Ingest? && r.ingestNeedsEkm ==> s.se)
      && (l.Expire? && r.expireNeedsSourceDown ==> !s.sq)
      && (l.AllocEkm? && r.allocEkmNeedsSource ==> s.sq)
      && (l.AllocVpn? && r.allocVpnNeedsNoActive ==> s.kv.None?)
      && (l.AllocVpn? && !r.vpnPendingReplaceable ==> s.kp.None?)
  {
    hide NextEpoch;
  }

  /** A FIFO pool gives up its oldest identifier only; where the order lists the pool nothing else changes. */
  lemma FifoKnob(d: Domain, r: Rules, q: Rules, s: State, l: Label)
    requires MovesInventory(l) && r.fifoPool && q == r.(fifoPool := false) && OrderAgrees(r, s)
    ensures InventoryEnabled(d, r, s, l) <==>
      InventoryEnabled(d, q, s, l) && (!l.Ingest? ==> s.order != [] && l.id == s.order[0])
  {
    hide NextEpoch;
  }

  /** An allocation may name any epoch from the next one on exactly when one that names none could take the next. */
  lemma EpochKnob(d: Domain, r: Rules, q: Rules, s: State, k: Id, e: nat)
    requires r.allocVpnAnyFutureEpoch && q == r.(allocVpnAnyFutureEpoch := false)
    ensures InventoryEnabled(d, r, s, AllocVpn(k, Some(e)))
      <==> InventoryEnabled(d, q, s, AllocVpn(k, None)) && NextEpoch(s) <= e <= d.maxEpoch
    ensures !InventoryEnabled(d, r, s, AllocVpn(k, None)) && !InventoryEnabled(d, q, s, AllocVpn(k, Some(e)))
  {
    hide NextEpoch;
  }

  /** Which events about sessions a reading has, and when. */
  lemma SessionKnobs(r: Rules, s: State, l: Label)
    requires MovesSession(l) && !l.RejectStale?
    ensures SessionEnabled(r, s, l) <==>
      match l
      case ActivateVpn => !r.activateMerged && SessionEnabled(Base(), s, l)
      case AbandonPending => r.abandonPending && s.kp.Some?
      case _ => r.sessionEnd && s.kv.Some?
  {
  }

  /** A rejection names one of the epochs so far exactly when one that names none is offered. */
  lemma StaleKnobs(r: Rules, q: Rules, s: State, e: nat)
    requires r.rejectStalePerEpoch && q == r.(rejectStalePerEpoch := false)
    ensures SessionEnabled(r, s, RejectStale(Some(e))) <==> SessionEnabled(q, s, RejectStale(None)) && 1 <= e <= s.epoch
    ensures !SessionEnabled(r, s, RejectStale(None)) && !SessionEnabled(q, s, RejectStale(Some(e)))
    ensures SessionEnabled(q, s, RejectStale(None)) <==> if r.rejectStaleNeedsActive then s.kv.Some? else s.epoch > 0
  {
  }

  /** The event changes the dependency or the authority it is about. */
  predicate Toggles(s: State, l: Label) {
    match l
    case SrcDown => s.sq
    case SrcUp => !s.sq
    case EkmDown => s.se
    case EkmUp => !s.se
    case AuthorityWithdraw => s.authority
    case AuthorityGrant => !s.authority
    case _ => true
  }

  /** What the knobs ask of an event about dependencies, authority or recovery. */
  lemma FlagKnobs(r: Rules, s: State, l: Label)
    requires !MovesInventory(l) && !MovesSession(l)
    ensures FlagEnabled(r, s, l) <==>
      && (!r.depTogglesUnconditional ==> Toggles(s, l))
      && ((l.AuthorityWithdraw? || l.AuthorityGrant?) && r.authorityOnlyWhenDegraded ==> ModeOf(s) != Ready)
      && (l.Reconcile? ==> r.restorationDetected && s.detected)
      && (l.Recover? ==> s.recovery && (r.recoverNeedsAuthority ==> s.authority))
      && (l.Reconcile? || l.Recover? ==> s.sq && s.se)
  {
    hide ModeOf;
  }
}
