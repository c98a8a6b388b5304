/**
 * The severity vocabulary shared by the analyzer, the API and the MQTT bridge:
 * alert levels (`INFO`, `WARNING`, `CRITICAL`) and station risk levels
 * (`LOW` < `MEDIUM` < `HIGH` < `EXTREME`, plus `UNKNOWN` after an error).
 */
module Levels {

  datatype AlertLevel = Info | Warning | Critical

  datatype Risk = Low | Medium | High | Extreme | Unknown

  /** The order of the known risk levels; `UNKNOWN` sits below them all. */
  function Rank(r: Risk): int {
    match r
    case Unknown => -1
    case Low => 0
    case Medium => 1
    case High => 2
    case Extreme => 3
  }

  /** The levels the code treats as dangerous (`level in ['WARNING', 'CRITICAL']`). */
  predicate IsDangerous(l: AlertLevel) {
    l == Warning || l == Critical
  }
}
