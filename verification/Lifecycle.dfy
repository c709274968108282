/** The mode derivation shared by the reference model and the running EKM. */
module Lifecycle {

  datatype Mode = Ready | Buffered | BindingHoldover | Exhausted | Recovery | Suspended

  /** The three consequence indicators reported next to the mode. */
  datatype Consequences = Consequences(storage: bool, freshAllocation: bool, establishedVpn: string)

  datatype Derived = Derived(mode: Mode, consequences: Consequences)

  function Derive(sourceAvailable: bool, ekmReachable: bool, poolSize: nat, hasAuthoritativeBinding: bool,
                  continuityAuthority: bool, recoveryPending: bool, policySuspended: bool): Derived
  {
    var mode :=
      if recoveryPending then Recovery
      else if policySuspended then Suspended
      else if sourceAvailable && ekmReachable then Ready
      else if ekmReachable && poolSize > 0 then Buffered
      else if !continuityAuthority then Suspended
      else if hasAuthoritativeBinding then BindingHoldover
      else Exhausted;
    Derived(mode,
            Consequences(ekmReachable,
                         ekmReachable && poolSize > 0 && mode != Suspended && mode != Recovery,
                         "distinct"))
  }
}
