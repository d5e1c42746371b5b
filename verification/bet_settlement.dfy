/** `BetSettlement`: the message announcing how one bet was settled. */
module Settlements {
  import opened Wrappers
  import opened JavaLang
  import opened Statuses

  /**
   * A settlement record; `payoutAmount` is in cents. The status is nullable
   * because a record read off the broker may lack it, and the consumer has to
   * cope with that.
   */
  datatype BetSettlement = BetSettlement(
    betId: Option<int>,
    userId: string,
    settlementStatus: Option<BetStatus>,
    payoutAmount: int,
    settlementTime: Timestamp,
    eventId: string)

  /** The all-arguments (`@JsonCreator`) constructor: a null time becomes the current time. */
  function NewSettlement(betId: Option<int>, userId: string, settlementStatus: Option<BetStatus>,
                         payoutAmount: int, settlementTime: Option<Timestamp>, eventId: string,
                         now: Timestamp): (s: BetSettlement)
    ensures s.betId == betId && s.userId == userId && s.settlementStatus == settlementStatus
    ensures s.payoutAmount == payoutAmount && s.eventId == eventId
    ensures settlementTime.Some? ==> s.settlementTime == settlementTime.value
    ensures settlementTime.None? ==> s.settlementTime == now
  {
    BetSettlement(betId, userId, settlementStatus, payoutAmount, settlementTime.GetOr(now), eventId)
  }

  /** `BetSettlement.builder()...build()`: an unset time takes its `@Builder.Default`, the current time. */
  function Build(betId: Option<int>, userId: string, settlementStatus: Option<BetStatus>,
                 payoutAmount: int, settlementTime: Option<Timestamp>, eventId: string,
                 now: Timestamp): BetSettlement
  {
    BetSettlement(betId, userId, settlementStatus, payoutAmount, settlementTime.GetOr(now), eventId)
  }

  /** With or without a time, the builder and the constructor agree. */
  lemma BuilderAgreesWithConstructor(betId: Option<int>, userId: string, settlementStatus: Option<BetStatus>,
                                     payoutAmount: int, settlementTime: Option<Timestamp>, eventId: string,
                                     now: Timestamp)
    ensures Build(betId, userId, settlementStatus, payoutAmount, settlementTime, eventId, now)
         == NewSettlement(betId, userId, settlementStatus, payoutAmount, settlementTime, eventId, now)
  {
  }

  /** Lombok's `equals` with only `betId` included. */
  predicate SameSettlement(a: BetSettlement, b: BetSettlement) {
    a.betId == b.betId
  }

  /** Lombok's `hashCode` with only `betId` included. */
  function HashCode(s: BetSettlement): Int32 {
    LombokHashCode(if s.betId.None? then None else Some(LongHashCode(s.betId.value)))
  }

  /** Two settlements of one bet are equal and hash alike whatever their status, payout or time. */
  lemma IdentityIsTheBetId(a: BetSettlement, b: BetSettlement)
    requires a.betId == b.betId
    ensures SameSettlement(a, b) && HashCode(a) == HashCode(b)
  {
  }
}
