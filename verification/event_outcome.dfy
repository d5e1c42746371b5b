/** `EventOutcome`: the announced result of one sports event. */
module Outcomes {
  import opened Wrappers
  import opened JavaLang

  /**
   * The constructor copies its three arguments and checks nothing: blank
   * fields are accepted at this level.
   */
  datatype EventOutcome = EventOutcome(eventId: string, eventName: string, eventWinnerId: string)

  /** Lombok's `equals` with only `eventId` included. */
  predicate SameEvent(a: EventOutcome, b: EventOutcome) {
    a.eventId == b.eventId
  }

  /** Lombok's `hashCode` with only `eventId` included. */
  function HashCode(o: EventOutcome): Int32 {
    LombokHashCode(Some(StringHashCode(o.eventId)))
  }

  /** Two outcomes of one event are equal, and hash alike, even when they name different winners. */
  lemma IdentityIsTheEventId(a: EventOutcome, b: EventOutcome)
    requires a.eventId == b.eventId
    ensures SameEvent(a, b) && HashCode(a) == HashCode(b)
  {
  }
}
