/** The persisted job statuses and the declared lifecycle table. */
module Lifecycle {

  datatype Status = Queued | Scheduled | Running | Retrying | Completed | Dead | Cancelled

  /** The targets that the lifecycle table lists for each status. */
  function Edges(from: Status): set<Status> {
    match from
    case Queued => {Running, Cancelled}
    case Scheduled => {Queued, Cancelled}
    case Running => {Completed, Retrying, Queued, Dead}
    case Retrying => {Queued, Cancelled}
    case Completed => {}
    case Dead => {Queued}
    case Cancelled => {}
  }

  predicate CanTransition(from: Status, to: Status) {
    to in Edges(from)
  }

  predicate IsTerminal(s: Status) {
    s in {Completed, Dead, Cancelled}
  }

  /** The statuses outside the partial dedupe index do not hold a dedupe key. */
  predicate HoldsKey(s: Status) {
    s !in {Completed, Dead}
  }
}
