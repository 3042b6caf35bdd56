/** The engine's states and the guarded transition (bypsseng/engine/state_machine.py). */
module StateMachine {

  datatype EngineState =
    | INIT | BASELINE | DIAGNOSING | DIAGNOSIS_READY | SELECTING | STARTING
    | VERIFYING | ACTIVE | MONITORING | DEGRADED | RESELECTING

  function Allowed(s: EngineState): set<EngineState> {
    match s
    case INIT => {BASELINE}
    case BASELINE => {DIAGNOSING, RESELECTING}
    case DIAGNOSING => {DIAGNOSIS_READY, RESELECTING}
    case DIAGNOSIS_READY => {SELECTING, RESELECTING}
    case SELECTING => {STARTING, RESELECTING}
    case STARTING => {VERIFYING, DEGRADED}
    case VERIFYING => {ACTIVE, DEGRADED}
    case ACTIVE => {MONITORING, DEGRADED}
    case MONITORING => {DEGRADED, RESELECTING}
    case DEGRADED => {RESELECTING}
    case RESELECTING => {DIAGNOSING}
  }

  /** Which states each state is entered from: the table read the other way round. */
  function Sources(s: EngineState): set<EngineState> {
    match s
    case INIT => {}
    case BASELINE => {INIT}
    case DIAGNOSING => {BASELINE, RESELECTING}
    case DIAGNOSIS_READY => {DIAGNOSING}
    case SELECTING => {DIAGNOSIS_READY}
    case STARTING => {SELECTING}
    case VERIFYING => {STARTING}
    case ACTIVE => {VERIFYING}
    case MONITORING => {ACTIVE}
    case DEGRADED => {STARTING, VERIFYING, ACTIVE, MONITORING}
    case RESELECTING => {BASELINE, DIAGNOSING, DIAGNOSIS_READY, SELECTING, MONITORING, DEGRADED}
  }

  lemma EnteredFrom(s: EngineState, t: EngineState)
    ensures t in Allowed(s) <==> s in Sources(t)
  {
  }

  class Machine {
    var state: EngineState

    constructor ()
      ensures state == INIT
    {
      state := INIT;
    }

    /** An illegal request forces DEGRADED, from any state. */
    method Transition(to: EngineState) returns (accepted: bool)
      modifies this
      ensures accepted == (to in Allowed(old(state)))
      ensures state == if accepted then to else DEGRADED
    {
      if to in Allowed(state) {
        state := to;
        return true;
      }
      if state != DEGRADED { state := DEGRADED; }
      return false;
    }
  }
}
