/**
 * The two request bodies and their Jakarta Bean Validation constraints,
 * as the set of violations a validator reports. Every field may be null.
 */
module Requests {
  import opened Wrappers
  import opened JavaLang

  /** One failed constraint, named after the field it is declared on. */
  datatype Violation =
    | UserIdRequired | EventIdRequired | EventMarketIdRequired | EventWinnerIdRequired
    | BetAmountRequired | BetAmountNotPositive | EventNameRequired | OutcomeWinnerIdRequired

  /** The message each constraint declares. */
  function Message(v: Violation): string {
    match v
    case UserIdRequired => "User ID is required"
    case EventIdRequired => "Event ID is required"
    case EventMarketIdRequired => "Event Market ID is required"
    case EventWinnerIdRequired => "Event Winner ID is required"
    case BetAmountRequired => "Bet amount is required"
    case BetAmountNotPositive => "Bet amount must be positive"
    case EventNameRequired => "Event name is required"
    case OutcomeWinnerIdRequired => "Event winner ID is required"
  }

  /**
   * No two constraints share a message, so a reported message names the
   * violated constraint (the two `eventId` fields share one constraint).
   */
  lemma MessagesIdentifyViolations(v: Violation, w: Violation)
    ensures Message(v) == Message(w) <==> v == w
  {
  }

  /** The body of a bet-placement request; the amount is in cents. */
  datatype CreateBetRequest = CreateBetRequest(
    userId: Option<string>,
    eventId: Option<string>,
    eventMarketId: Option<string>,
    eventWinnerId: Option<string>,
    betAmount: Option<int>)

  /** The body of an outcome submission. */
  datatype EventOutcomeRequest = EventOutcomeRequest(
    eventId: Option<string>,
    eventName: Option<string>,
    eventWinnerId: Option<string>)

  /** `@NotBlank` on one field. */
  function NotBlank(value: Option<string>, v: Violation): set<Violation> {
    if IsBlank(value) then {v} else {}
  }

  /**
   * `@NotNull` and `@Positive` on the amount. `@Positive` accepts null, so a
   * missing amount reports only the `@NotNull` message.
   */
  function AmountViolations(amount: Option<int>): set<Violation> {
    if amount.None? then {BetAmountRequired}
    else if amount.value <= 0 then {BetAmountNotPositive}
    else {}
  }

  function CreateBetViolations(r: CreateBetRequest): set<Violation> {
    NotBlank(r.userId, UserIdRequired)
    + NotBlank(r.eventId, EventIdRequired)
    + NotBlank(r.eventMarketId, EventMarketIdRequired)
    + NotBlank(r.eventWinnerId, EventWinnerIdRequired)
    + AmountViolations(r.betAmount)
  }

  function EventOutcomeViolations(r: EventOutcomeRequest): set<Violation> {
    NotBlank(r.eventId, EventIdRequired)
    + NotBlank(r.eventName, EventNameRequired)
    + NotBlank(r.eventWinnerId, OutcomeWinnerIdRequired)
  }

  predicate IsValidCreateBet(r: CreateBetRequest) {
    CreateBetViolations(r) == {}
  }

  predicate IsValidEventOutcome(r: EventOutcomeRequest) {
    EventOutcomeViolations(r) == {}
  }

  /** A field passes `@NotBlank` exactly when it is present and has a character above U+0020. */
  lemma NotBlankIffContent(value: Option<string>)
    ensures !IsBlank(value) <==> HasContent(value)
  {
    if value.Some? {
      BlankIffAllTrimmable(value.value);
    }
  }

  /** A bet request has no violation exactly when no field is blank and the amount is positive. */
  lemma CreateBetValidIffNoBlank(r: CreateBetRequest)
    ensures IsValidCreateBet(r) <==>
      && !IsBlank(r.userId) && !IsBlank(r.eventId) && !IsBlank(r.eventMarketId) && !IsBlank(r.eventWinnerId)
      && r.betAmount.Some? && r.betAmount.value > 0
  {
  }

  /** Each blank field of a bet request is reported under its own violation. */
  lemma CreateBetViolationsByField(r: CreateBetRequest)
    ensures UserIdRequired in CreateBetViolations(r) <==> IsBlank(r.userId)
    ensures EventIdRequired in CreateBetViolations(r) <==> IsBlank(r.eventId)
    ensures EventMarketIdRequired in CreateBetViolations(r)
        <==> IsBlank(r.eventMarketId)
    ensures EventWinnerIdRequired in CreateBetViolations(r)
        <==> IsBlank(r.eventWinnerId)
  {
  }

  /**
   * A bet request is accepted exactly when its four strings each carry a
   * character above U+0020 and its amount is present and positive; each
   * blank field is reported under its own message.
   */
  lemma CreateBetValidity(r: CreateBetRequest)
    ensures IsValidCreateBet(r) <==>
      && HasContent(r.userId) && HasContent(r.eventId)
      && HasContent(r.eventMarketId) && HasContent(r.eventWinnerId)
      && r.betAmount.Some? && r.betAmount.value > 0
    ensures UserIdRequired in CreateBetViolations(r) <==> !HasContent(r.userId)
    ensures EventIdRequired in CreateBetViolations(r) <==> !HasContent(r.eventId)
    ensures EventMarketIdRequired in CreateBetViolations(r)
        <==> !HasContent(r.eventMarketId)
    ensures EventWinnerIdRequired in CreateBetViolations(r)
        <==> !HasContent(r.eventWinnerId)
  {
    CreateBetValidIffNoBlank(r);
    CreateBetViolationsByField(r);
    NotBlankIffContent(r.userId);
    NotBlankIffContent(r.eventId);
    NotBlankIffContent(r.eventMarketId);
    NotBlankIffContent(r.eventWinnerId);
  }

  /** An outcome request is accepted exactly when all three strings carry a character above U+0020. */
  lemma EventOutcomeValidity(r: EventOutcomeRequest)
    ensures IsValidEventOutcome(r) <==>
      HasContent(r.eventId) && HasContent(r.eventName) && HasContent(r.eventWinnerId)
    ensures EventIdRequired in EventOutcomeViolations(r) <==> !HasContent(r.eventId)
    ensures EventNameRequired in EventOutcomeViolations(r)
        <==> !HasContent(r.eventName)
    ensures OutcomeWinnerIdRequired in EventOutcomeViolations(r)
        <==> !HasContent(r.eventWinnerId)
  {
    NotBlankIffContent(r.eventId);
    NotBlankIffContent(r.eventName);
    NotBlankIffContent(r.eventWinnerId);
    var e := NotBlank(r.eventId, EventIdRequired);
    var n := NotBlank(r.eventName, EventNameRequired);
    var w := NotBlank(r.eventWinnerId, OutcomeWinnerIdRequired);
    assert EventOutcomeViolations(r) == e + n + w;
    assert e <= EventOutcomeViolations(r) && n <= EventOutcomeViolations(r) && w <= EventOutcomeViolations(r);
  }
}
