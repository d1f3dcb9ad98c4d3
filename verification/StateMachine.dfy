/** The case state machine (packages/core/src/state-machine.ts). */
module StateMachine {

  datatype CaseState =
    | Detected
    | Diagnosing
    | Planning
    | AwaitingApproval
    | Executing
    | Observing
    | Scheduled
    | SuppressedByIncident
    | Recovered
    | Unrecoverable
    | Cancelled
    | Disputed
    | OptedOut
    | StoppedHuman

  /** Terminal for the agent; a suppressed case is not, its incident can release it. */
  predicate IsTerminal(s: CaseState) {
    || s.Recovered? || s.Unrecoverable? || s.Cancelled?
    || s.Disputed? || s.OptedOut? || s.StoppedHuman?
  }

  type TerminalState = s: CaseState | IsTerminal(s) witness Recovered

  /** The non-terminal successors written down for each state. */
  function Legal(from: CaseState): set<CaseState> {
    match from
    case Detected => {Diagnosing, SuppressedByIncident}
    case Diagnosing => {Planning, SuppressedByIncident}
    case Planning => {AwaitingApproval, Executing, Scheduled, SuppressedByIncident}
    case AwaitingApproval => {Executing, SuppressedByIncident}
    case Executing => {Observing, SuppressedByIncident}
    case Observing => {Diagnosing, Scheduled, Planning, SuppressedByIncident}
    case Scheduled => {Diagnosing, Executing, SuppressedByIncident}
    case SuppressedByIncident => {Scheduled, Diagnosing}
    case _ => {}
  }

  predicate CanTransition(from: CaseState, to: CaseState) {
    if from == to then true
    else if IsTerminal(from) then false
    else if IsTerminal(to) then true
    else to in Legal(from)
  }

  /** The machine read backwards: from where a case can come to each state. */
  lemma ComesFrom(from: CaseState, to: CaseState)
    ensures CanTransition(from, from)
    ensures from != to ==>
              (CanTransition(from, to) <==>
               match to
               case Detected => false
               case Diagnosing => from in {Detected, Observing, Scheduled, SuppressedByIncident}
               case Planning => from in {Diagnosing, Observing}
               case AwaitingApproval => from.Planning?
               case Executing => from in {Planning, AwaitingApproval, Scheduled}
               case Observing => from.Executing?
               case Scheduled => from in {Planning, Observing, SuppressedByIncident}
               case _ => from !in {Recovered, Unrecoverable, Cancelled, Disputed, OptedOut, StoppedHuman})
  {
  }
}
