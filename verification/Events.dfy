/** The labelled transition relation of the reference model, under every reading of its rules. */
module Events {
  import opened Options
  import opened Lifecycle
  import opened ModelState

  /** The 25 semantic knobs; `Base()` and `Calibrated()` are the two readings the repository names. */
  datatype Rules = Rules(
    rejectStaleNeedsActive: bool,
    ingestNeedsEkm: bool,
    expireNeedsSourceDown: bool,
    allocEkmNeedsSource: bool,
    restoreSetsRecovery: bool,
    restoreRecoveryNeedsFull: bool,
    authorityOnlyWhenDegraded: bool,
    allocVpnNeedsNoActive: bool,
    vpnPendingReplaceable: bool,
    recoverClearsPending: bool,
    recoverNeedsAuthority: bool,
    depTogglesUnconditional: bool,
    activateMerged: bool,
    ekmDownClearsActive: bool,
    expireMarksUsed: bool,
    suspendState: bool,
    restorationDetected: bool,
    abandonPending: bool,
    abandonConsumesEpoch: bool,
    downClearsPending: bool,
    sessionEnd: bool,
    recoverClearsActive: bool,
    fifoPool: bool,
    allocVpnAnyFutureEpoch: bool,
    rejectStalePerEpoch: bool)

  function Base(): Rules {
    Rules(true, false, false, false, true, false, false, false, false, false, false, false, false, false,
          false, false, false, false, false, false, false, false, false, false, false)
  }

  function Calibrated(): Rules {
    Base().(allocVpnAnyFutureEpoch := true, rejectStalePerEpoch := true)
  }

  /** Event labels. The optional number is the epoch suffix some readings put on a label. */
  datatype Label =
    | Ingest(id: Id)
    | Expire(id: Id)
    | AllocEkm(id: Id, version: Version)
    | AllocVpn(id: Id, tag: Option<nat>)
    | ActivateVpn
    | AbandonPending
    | SessionEnd
    | RejectStale(tag: Option<nat>)
    | SrcDown
    | SrcUp
    | EkmDown
    | EkmUp
    | AuthorityWithdraw
    | AuthorityGrant
    | Reconcile
    | Recover

  type Edge = (Label, State)

  /** `order` without the identifier `k`. */
  function Without(order: seq<Id>, k: Id): seq<Id> {
    if order == [] then []
    else if order[0] == k then Without(order[1..], k)
    else [order[0]] + Without(order[1..], k)
  }

  function PoolAdd(r: Rules, s: State, k: Id): State {
    s.(pool := s.pool + {k}, order := if r.fifoPool then s.order + [k] else s.order)
  }

  function PoolTake(r: Rules, s: State, k: Id): State {
    s.(pool := s.pool - {k}, order := if r.fifoPool then Without(s.order, k) else s.order)
  }

  /** Identifiers eligible for expiry or allocation: only the oldest one under FIFO. */
  function Retained(r: Rules, s: State): set<Id> {
    if r.fifoPool then (if s.order == [] then {} else {s.order[0]}) else s.pool
  }

  function Interrupt(r: Rules, s: State): State {
    s.(kp := if r.downClearsPending then None else s.kp)
  }

  function Restore(r: Rules, s: State): State {
    var marks := r.restoreSetsRecovery && (!r.restoreRecoveryNeedsFull || (s.sq && s.se));
    s.(detected := s.detected || (marks && r.restorationDetected),
       recovery := s.recovery || (marks && !r.restorationDetected))
  }

  /** The first epoch a fresh VPN allocation may bind. */
  ghost function NextEpoch(s: State): nat {
    var top := TopEpoch(s.bindings);
    (if top > s.epoch then top else s.epoch) + 1
  }

  function ExpireResult(r: Rules, s: State, k: Id): State {
    PoolTake(r, s, k).(expired := if r.expireMarksUsed then s.expired + {k} else s.expired)
  }

  function AllocEkmResult(r: Rules, s: State, k: Id, v: Version): State {
    PoolTake(r, s, k).(bindings := s.bindings + {Binding(k, Ekm(v))}, ke := Some(v))
  }

  function AllocVpnResult(r: Rules, s: State, k: Id, e: nat): State {
    PoolTake(r, s, k).(
      bindings := s.bindings + {Binding(k, Vpn(e))},
      kp := if r.activateMerged then None else Some(Session(k, e)),
      kv := if r.activateMerged then Some(Session(k, e)) else s.kv,
      epoch := if r.activateMerged then e else s.epoch)
  }

  function AbandonResult(r: Rules, s: State): State
    requires s.kp.Some?
  {
    s.(kp := None,
       epoch := if r.abandonConsumesEpoch then s.kp.value.epoch else s.epoch,
       kv := if r.abandonConsumesEpoch then None else s.kv)
  }

  function EkmDownResult(r: Rules, s: State): State {
    Interrupt(r, s.(se := false)).(ke := if r.ekmDownClearsActive then None else s.ke)
  }

  function WithdrawResult(r: Rules, s: State): State {
    var records := r.suspendState && (ModeOf(s) == BindingHoldover || ModeOf(s) == Exhausted);
    s.(authority := false, suspended := s.suspended || records)
  }

  function RecoverResult(r: Rules, s: State): State {
    s.(recovery := false, suspended := false,
       kp := if r.recoverClearsPending then None else s.kp,
       kv := if r.recoverClearsActive then None else s.kv)
  }

  predicate StaleOffered(r: Rules, s: State) {
    if r.rejectStaleNeedsActive then s.kv.Some? else s.epoch > 0
  }

  predicate AuthorityMayChange(r: Rules, s: State) {
    !r.authorityOnlyWhenDegraded || ModeOf(s) != Ready
  }

  ghost predicate VpnAllocOpen(d: Domain, r: Rules, s: State) {
    && s.se
    && NextEpoch(s) <= d.maxEpoch
    && (s.kp.None? || r.vpnPendingReplaceable)
    && (s.kv.None? || !r.allocVpnNeedsNoActive)
  }

  /** Events that move identifiers: ingestion, expiry and the two allocations. */
  predicate MovesInventory(l: Label) {
    l.Ingest? || l.Expire? || l.AllocEkm? || l.AllocVpn?
  }

  /** Events about a pending or active session. */
  predicate MovesSession(l: Label) {
    l.ActivateVpn? || l.AbandonPending? || l.SessionEnd? || l.RejectStale?
  }

  ghost predicate InventoryEnabled(d: Domain, r: Rules, s: State, l: Label)
    requires MovesInventory(l)
  {
    match l
    case Ingest(k) =>
      && s.sq && (s.se || !r.ingestNeedsEkm)
      && k in d.ids && k !in s.pool && k !in Consumed(s) && k !in s.expired
    case Expire(k) => (!r.expireNeedsSourceDown || !s.sq) && k in Retained(r, s)
    case AllocEkm(k, v) =>
      && s.se && (s.sq || !r.allocEkmNeedsSource)
      && k in Retained(r, s) && v in d.versions && Some(v) != s.ke && Ekm(v) !in Targets(s)
    case AllocVpn(k, tag) =>
      && VpnAllocOpen(d, r, s) && k in Retained(r, s)
      && tag.Some? == r.allocVpnAnyFutureEpoch
      && (tag.Some? ==> NextEpoch(s) <= tag.value <= d.maxEpoch)
  }

  predicate SessionEnabled(r: Rules, s: State, l: Label)
    requires MovesSession(l)
  {
    match l
    case ActivateVpn => !r.activateMerged && s.kp.Some? && s.kp.value.epoch > s.epoch
    case AbandonPending => r.abandonPending && s.kp.Some?
    case SessionEnd => r.sessionEnd && s.kv.Some?
    case RejectStale(tag) =>
      && StaleOffered(r, s)
      && tag.Some? == r.rejectStalePerEpoch
      && (tag.Some? ==> 1 <= tag.value <= s.epoch)
  }

  predicate FlagEnabled(r: Rules, s: State, l: Label)
    requires !MovesInventory(l) && !MovesSession(l)
  {
    match l
    case SrcDown => s.sq || r.depTogglesUnconditional
    case SrcUp => !s.sq || r.depTogglesUnconditional
    case EkmDown => s.se || r.depTogglesUnconditional
    case EkmUp => !s.se || r.depTogglesUnconditional
    case AuthorityWithdraw => AuthorityMayChange(r, s) && (s.authority || r.depTogglesUnconditional)
    case AuthorityGrant => AuthorityMayChange(r, s) && (!s.authority || r.depTogglesUnconditional)
    case Reconcile => r.restorationDetected && s.detected && s.sq && s.se
    case Recover => s.sq && s.se && s.recovery && (s.authority || !r.recoverNeedsAuthority)
  }

  ghost function InventoryFire(r: Rules, s: State, l: Label): State
    requires MovesInventory(l)
  {
    match l
    case Ingest(k) => PoolAdd(r, s, k)
    case Expire(k) => ExpireResult(r, s, k)
    case AllocEkm(k, v) => AllocEkmResult(r, s, k, v)
    case AllocVpn(k, tag) => AllocVpnResult(r, s, k, if tag.Some? then tag.value else NextEpoch(s))
  }

  function SessionFire(r: Rules, s: State, l: Label): State
    requires MovesSession(l) && SessionEnabled(r, s, l)
  {
    match l
    case ActivateVpn => s.(kv := s.kp, epoch := s.kp.value.epoch, kp := None)
    case AbandonPending => AbandonResult(r, s)
    case SessionEnd => s.(kv := None)
    case RejectStale(_) => s
  }

  function FlagFire(r: Rules, s: State, l: Label): State
    requires !MovesInventory(l) && !MovesSession(l)
  {
    match l
    case SrcDown => Interrupt(r, s.(sq := false))
    case SrcUp => Restore(r, s.(sq := true))
    case EkmDown => EkmDownResult(r, s)
    case EkmUp => Restore(r, s.(se := true))
    case AuthorityWithdraw => WithdrawResult(r, s)
    case AuthorityGrant => s.(authority := true)
    case Reconcile => s.(detected := false, recovery := true)
    case Recover => RecoverResult(r, s)
  }

  /** When `l` may fire in `s`. */
  ghost predicate Enables(d: Domain, r: Rules, s: State, l: Label) {
    if MovesInventory(l) then InventoryEnabled(d, r, s, l)
    else if MovesSession(l) then SessionEnabled(r, s, l)
    else FlagEnabled(r, s, l)
  }

  /** The state `l` leads to when it fires in `s`. */
  ghost function Fire(d: Domain, r: Rules, s: State, l: Label): State
    requires Enables(d, r, s, l)
  {
    if MovesInventory(l) then InventoryFire(r, s, l)
    else if MovesSession(l) then SessionFire(r, s, l)
    else FlagFire(r, s, l)
  }

  /** The transition relation: `s --l--> t`. */
  ghost predicate Step(d: Domain, r: Rules, s: State, l: Label, t: State) {
    Enables(d, r, s, l) && t == Fire(d, r, s, l)
  }
}
