/** The lifecycle control state of the reference model, over arbitrary finite domains. */
module ModelState {
  import opened Options
  import opened Lifecycle

  type Id = string
  type Version = string

  /** A purpose together with its object: an external key version, or a VPN activation epoch. */
  datatype Target = Ekm(version: Version) | Vpn(epoch: nat)

  /** A persistent purpose binding of one identifier. */
  datatype Binding = Binding(id: Id, target: Target)

  /** The `(identifier, epoch)` pair of a pending or active VPN session. */
  datatype Session = Session(id: Id, epoch: nat)

  datatype State = State(
    sq: bool,
    se: bool,
    pool: set<Id>,
    bindings: set<Binding>,
    ke: Option<Version>,
    kp: Option<Session>,
    kv: Option<Session>,
    epoch: nat,
    authority: bool,
    recovery: bool,
    expired: set<Id>,
    suspended: bool,
    detected: bool,
    order: seq<Id>)

  /** The finite abstraction: identifiers, external key versions and the last activation epoch. */
  datatype Domain = Domain(ids: set<Id>, versions: set<Version>, maxEpoch: nat)

  function Initial(): State {
    State(true, true, {}, {}, None, None, None, 0, true, false, {}, false, false, [])
  }

  function IdsOf(bindings: set<Binding>): set<Id> {
    set b | b in bindings :: b.id
  }

  function TargetsOf(bindings: set<Binding>): set<Target> {
    set b | b in bindings :: b.target
  }

  /** Identifiers that carry a persistent binding. */
  function Consumed(s: State): set<Id> {
    IdsOf(s.bindings)
  }

  /** The purpose-and-object pairs that are bound. */
  function Targets(s: State): set<Target> {
    TargetsOf(s.bindings)
  }

  function DerivedOf(s: State): Derived {
    Derive(s.sq, s.se, |s.pool|, s.ke.Some? || s.kv.Some?, s.authority, s.recovery || s.detected, s.suspended)
  }

  function ModeOf(s: State): Mode {
    DerivedOf(s).mode
  }

  function ConsequencesOf(s: State): Consequences {
    DerivedOf(s).consequences
  }

  /** The highest bound activation epoch, 0 when there is none. */
  ghost function TopEpoch(bindings: set<Binding>): (top: nat)
    ensures forall b | b in bindings :: b.target.Vpn? ==> b.target.epoch <= top
    ensures top == 0 || exists b | b in bindings :: b.target == Vpn(top)
  {
    if bindings == {} then 0
    else
      var b :| b in bindings;
      var rest := TopEpoch(bindings - {b});
      if b.target.Vpn? && b.target.epoch > rest then b.target.epoch else rest
  }
}
