/** The operation state machine: the transition table and the sets derived from it. */
module States {

  datatype OpState =
    | Requested
    | Validated
    | Signing
    | Signed
    | Broadcasting
    | Broadcast
    | Confirmed
    | Failed
    | Rejected

  function Transitions(s: OpState): set<OpState> {
    match s
    case Requested => {Validated, Rejected}
    case Validated => {Signing, Rejected}
    case Signing => {Signed, Failed}
    case Signed => {Broadcasting, Signing}
    case Broadcasting => {Broadcast, Signing, Failed}
    case Broadcast => {Confirmed, Signing, Failed}
    case Confirmed => {}
    case Failed => {}
    case Rejected => {}
  }

  predicate Terminal(s: OpState) {
    Transitions(s) == {}
  }

  const CLAIMABLE: set<OpState> := {Requested, Validated, Signing, Signed, Broadcasting, Broadcast}

  /** A write may stay in its state or follow an edge of the table. */
  predicate CanTransition(src: OpState, dst: OpState) {
    src == dst || dst in Transitions(src)
  }
}
