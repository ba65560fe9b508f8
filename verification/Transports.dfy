/** What loops over a packet transport observe at its await points, and what a turn of
    such a loop decides. */
module Transports {
  import opened Prelude

  /** What a transport has for its reader. */
  datatype Poll = NothingYet | Packet(bytes: Bytes) | EndOfStream | Failed

  /** How a send goes, if one is made: it succeeds, it fails, or the whole loop is
      dropped while it is under way. */
  datatype Delivery = Delivered | SendFailed | Dropped

  /** What a turn does with its loop. */
  datatype Verdict<+Outcome> = GoesOn | Stops(outcome: Outcome) | Abandoned

  function ResultOf<Outcome>(v: Verdict<Outcome>): Option<Outcome> {
    match v
    case Stops(outcome) => Some(outcome)
    case _ => None
  }
}
