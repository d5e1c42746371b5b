/** The `Bet` entity: a wager as stored in the `bets` table. */
module Bets {
  import opened Wrappers
  import opened JavaLang
  import opened Statuses

  /**
   * One bet. Amounts are integer cents. `betId` is null (`None`) until the
   * store assigns it on save.
   */
  datatype Bet = Bet(
    betId: Option<int>,
    userId: string,
    eventId: string,
    eventMarketId: string,
    eventWinnerId: string,
    betAmount: int,
    status: BetStatus,
    createdAt: Timestamp)

  /** The largest amount a `DECIMAL(10, 2)` column holds, 99,999,999.99, in cents. */
  const MaxStoredAmount: int := 99_999_999_99

  /**
   * The entity's field constraints: four `@NotBlank` strings, a `@NotNull
   * @Positive` amount, and the column's precision of 10 digits with 2 after
   * the point. `status` and `createdAt` are never null here by construction.
   */
  predicate SatisfiesConstraints(b: Bet) {
    && !IsBlank(Some(b.userId))
    && !IsBlank(Some(b.eventId))
    && !IsBlank(Some(b.eventMarketId))
    && !IsBlank(Some(b.eventWinnerId))
    && 0 < b.betAmount <= MaxStoredAmount
  }

  /**
   * A bet meets its constraints exactly when each of its four strings has a
   * character above U+0020 and its amount lies in (0, 99,999,999.99].
   */
  lemma ConstraintsByCharacter(b: Bet)
    ensures SatisfiesConstraints(b) <==>
      && HasContent(Some(b.userId)) && HasContent(Some(b.eventId))
      && HasContent(Some(b.eventMarketId)) && HasContent(Some(b.eventWinnerId))
      && 0 < b.betAmount <= MaxStoredAmount
  {
    BlankIffAllTrimmable(b.userId);
    BlankIffAllTrimmable(b.eventId);
    BlankIffAllTrimmable(b.eventMarketId);
    BlankIffAllTrimmable(b.eventWinnerId);
  }

  /** The business constructor: copies the five fields, starts PENDING, stamps the creation time. */
  function NewBet(userId: string, eventId: string, eventMarketId: string, eventWinnerId: string,
                  betAmount: int, now: Timestamp): (b: Bet)
    ensures b.betId.None? && b.status == Pending && b.createdAt == now
    ensures b.userId == userId && b.eventId == eventId && b.eventMarketId == eventMarketId
    ensures b.eventWinnerId == eventWinnerId && b.betAmount == betAmount
  {
    Bet(None, userId, eventId, eventMarketId, eventWinnerId, betAmount, Pending, now)
  }

  /**
   * `Bet.builder()...build()`: a field left unset (`None`) takes its
   * `@Builder.Default`, PENDING for the status and the current time for `createdAt`.
   */
  function Build(betId: Option<int>, userId: string, eventId: string, eventMarketId: string,
                 eventWinnerId: string, betAmount: int, status: Option<BetStatus>,
                 createdAt: Option<Timestamp>, now: Timestamp): Bet
  {
    Bet(betId, userId, eventId, eventMarketId, eventWinnerId, betAmount,
        status.GetOr(Pending), createdAt.GetOr(now))
  }

  /** A builder given only the five business fields makes what the business constructor makes. */
  lemma BuilderDefaultsAgreeWithConstructor(userId: string, eventId: string, eventMarketId: string,
                                            eventWinnerId: string, betAmount: int, now: Timestamp)
    ensures Build(None, userId, eventId, eventMarketId, eventWinnerId, betAmount, None, None, now)
         == NewBet(userId, eventId, eventMarketId, eventWinnerId, betAmount, now)
    ensures Build(None, userId, eventId, eventMarketId, eventWinnerId, betAmount, None, None, now).status == Pending
  {
  }

  /** Lombok's `equals` with only `betId` included: two bets are equal when their ids are (both null counts). */
  predicate SameBet(a: Bet, b: Bet) {
    a.betId == b.betId
  }

  /** Lombok's `hashCode` with only `betId` included. */
  function HashCode(b: Bet): Int32 {
    LombokHashCode(if b.betId.None? then None else Some(LongHashCode(b.betId.value)))
  }

  /** Equal bets hash alike, and neither equality nor hash sees the status or any other field. */
  lemma IdentityIsTheId(a: Bet, b: Bet, s: BetStatus)
    ensures SameBet(a, b) ==> HashCode(a) == HashCode(b)
    ensures SameBet(a, a.(status := s)) && HashCode(a) == HashCode(a.(status := s))
    ensures a.betId == b.betId ==> SameBet(a, b)
  {
  }
}
