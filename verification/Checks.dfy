/** The state properties I1-I9 and the transition guards G1-G4, written on state fields only. */
module Checks {
  import opened ModelState
  import opened Events

  datatype Check = I1 | I2 | I3 | I4 | I5 | I6 | I7 | I8 | I9 | G1 | G2 | G3 | G4

  function When(bad: bool, c: Check): seq<Check> {
    if bad then [c] else []
  }

  predicate UniqueIds(bindings: set<Binding>) {
    forall a, b | a in bindings && b in bindings && a.id == b.id :: a == b
  }

  predicate UniqueTargets(bindings: set<Binding>) {
    forall a, b | a in bindings && b in bindings && a.target == b.target :: a == b
  }

  /** Some pending activation lacks a matching fresh binding. */
  predicate PendingUnbound(d: Domain, s: State) {
    && s.kp.Some?
    && (Binding(s.kp.value.id, Vpn(s.kp.value.epoch)) !in s.bindings || !(s.epoch < s.kp.value.epoch <= d.maxEpoch))
  }

  predicate ActiveMismatch(s: State, retainedEpoch: bool) {
    if s.kv.Some? then
      Binding(s.kv.value.id, Vpn(s.kv.value.epoch)) !in s.bindings || s.kv.value.epoch != s.epoch
    else s.epoch != 0 && !retainedEpoch
  }

  predicate ConsequencesBad(s: State) {
    var c := ConsequencesOf(s);
    c.establishedVpn != "distinct" || c.storage != s.se
  }

  /**
   * Names of the state properties violated by `s`. A pool is a set and a mode is one of six
   * constructors, so the halves of I1 and I8 that guard against other representations are absent.
   */
  function Invariants(d: Domain, s: State, retainedEpoch: bool): seq<Check> {
      When(s.order != [] && multiset(s.order) != multiset(s.pool), I1)
    + When(!UniqueIds(s.bindings), I2)
    + When(s.pool * Consumed(s) != {} || s.expired * (s.pool + Consumed(s)) != {}, I3)
    + When(!UniqueTargets(s.bindings), I4)
    + When(s.ke.Some? && Ekm(s.ke.value) !in Targets(s), I5)
    + When(PendingUnbound(d, s), I6)
    + When(ActiveMismatch(s, retainedEpoch), I7)
    + When(ConsequencesBad(s), I9)
  }

  /** Names of the transition guards violated by `s --l--> t`. */
  function Guards(l: Label, s: State, t: State): seq<Check> {
      When(l.Ingest? && !s.sq, G1)
    + When((l.AllocEkm? || l.AllocVpn?) && (!s.se || s.pool == {} || l.id !in s.pool), G2)
    + When(l.RejectStale? && t != s, G3)
    + When(l.Recover? && !(s.sq && s.se && s.recovery), G4)
  }

  /** The reading of I7 an enumeration with rules `r` uses. */
  function RetainsEpoch(r: Rules): bool {
    r.sessionEnd || r.recoverClearsActive || r.abandonConsumesEpoch
  }
}
