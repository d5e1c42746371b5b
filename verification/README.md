# Sports bet settlement, modelled in Dafny

This project models the settlement pipeline of the SportsBettingSettlementApp
service (Java package `com.sportygroup`). Bets are placed on sports events and
stored with status PENDING. When the outcome of an event is announced, the
matching engine does three things:

- it loads that event's PENDING bets;
- it settles each one as WON or LOST by comparing the predicted winner with
  the announced one, and writes the new status to the store;
- it hands one `BetSettlement` per bet to the settlement dispatcher.

The dispatcher works in one of two modes:

- **mock mode**: it serialises the settlement and processes it on the spot;
- **real mode**: it sends the settlement to a message-broker topic, and a
  consumer processes it from there.

Modules, one per source unit:

| module | file | models |
|---|---|---|
| `Statuses` | `bet_status.dfy` | `BetStatus` and its persisted names |
| `Bets` | `bet.dfy` | the `Bet` entity, its constraints, constructor, builder, identity |
| `Settlements` | `bet_settlement.dfy` | the `BetSettlement` message |
| `Outcomes` | `event_outcome.dfy` | the `EventOutcome` record |
| `Requests` | `requests.dfy` | the two request bodies and their validation constraints |
| `Repository` | `bet_repository.dfy` | the four finders of `BetRepository` |
| `BetStore` | `bet_service.dfy` | `BetService` as a class over a table of bets |
| `Dispatch` | `bet_settlement_service.dfy` | `BetSettlementService` and `BetSettlementConsumer` |
| `Matching` | `bet_matching_service.dfy` | `BetMatchingService` |
| `JavaLang` | `java_lang.dfy` | `String.trim`, `Long`/`String` hash codes, Lombok's single-field `hashCode` |
| `Wrappers` | `wrappers.dfy` | `Option` (Java's null) and `Result` (a thrown exception) |
| `Scenarios` | `scenarios.dfy` | the seeded sample bets settled by one outcome |

Conventions:

- **Money** is integer cents. The fixed odds of 2.0 are 20 tenths, which is
  exact on cents.
- **Time** (`LocalDateTime.now()`) is a `Timestamp` supplied by the caller.
- **The store** is a map from id to bet plus the next identity value. A scan
  returns the rows in increasing id order.
- **The serialiser and the broker** are a script of fault bits, one per call,
  telling which calls fail. Two logs record what the broker accepted (`sent`)
  and which branch processing took (`handled`).

### Batch behaviour

- **A publish failure ends the batch.** `processEventOutcome` has no handler
  around its publish loop (`BetMatchingService.java`, lines 58-60), so the
  first exception ends the call. The statuses already written stay, including
  those of bets whose settlement was never published.
- **Every status write comes before every publish.** The first loop writes
  all the statuses (lines 48-55); only then does the second loop publish the
  settlements (lines 58-60). `Matching.BetMatchingService.ProcessEventOutcome`
  states this order through its ghost journal `effects`.

## Model

| member | source | states |
|---|---|---|
| Statuses.FourDistinctStatuses | src/main/java/com/sportygroup/model/BetStatus.java:6-11 | every status is one of PENDING, WON, LOST, VOID; these are four pairwise distinct values |
| Statuses.Parse | src/main/java/com/sportygroup/model/BetStatus.java:6-11 | `valueOf` returns a status exactly when the given string is that status's name; any other string has no status |
| Statuses.NameRoundTrip | src/main/java/com/sportygroup/model/BetStatus.java:6-11 | a status stored by name reads back as itself, and every name that reads back is a status's name (a bijection) |
| Bets.NewBet | src/main/java/com/sportygroup/model/Bet.java:60-68 | the business constructor copies user, event, market, predicted winner and amount verbatim, starts PENDING, stamps the creation time, and leaves the id unassigned |
| Bets.BuilderDefaultsAgreeWithConstructor | src/main/java/com/sportygroup/model/Bet.java:50-57 | a builder given only the business fields defaults the status to PENDING and builds what the constructor builds |
| Bets.ConstraintsByCharacter | src/main/java/com/sportygroup/model/Bet.java:29-48 | a bet meets the entity constraints (`SatisfiesConstraints`) exactly when its four strings each have a character above U+0020 and its amount lies in (0, 99,999,999.99] cents, the range of a `DECIMAL(10,2)` column |
| Bets.IdentityIsTheId | src/main/java/com/sportygroup/model/Bet.java:21-27 | equality and hash code depend on the id alone: equal bets hash alike, and changing the status changes neither |
| Settlements.NewSettlement | src/main/java/com/sportygroup/model/BetSettlement.java:29-41 | the constructor stores id, user, status, payout and event verbatim; a null settlement time becomes the current time, a non-null one is kept |
| Settlements.BuilderAgreesWithConstructor | src/main/java/com/sportygroup/model/BetSettlement.java:24-25 | the builder's default time is the current time, so builder and constructor agree with or without a time |
| Settlements.IdentityIsTheBetId | src/main/java/com/sportygroup/model/BetSettlement.java:16-20 | two settlements of one bet are equal and hash alike whatever their status, payout or time |
| Outcomes.IdentityIsTheEventId | src/main/java/com/sportygroup/model/EventOutcome.java:13-17 | two outcomes of one event are equal and hash alike even when they name different winners |
| Requests.NotBlankIffContent | src/main/java/com/sportygroup/dto/CreateBetRequest.java:19-20 | `@NotBlank` passes exactly when the value is present and has a character above U+0020 |
| Requests.MessagesIdentifyViolations | src/main/java/com/sportygroup/dto/CreateBetRequest.java:19-33 | two constraints report the same message exactly when they are the same constraint, so a message names the violated constraint |
| Requests.CreateBetValidIffNoBlank | src/main/java/com/sportygroup/dto/CreateBetRequest.java:19-33 | a bet request has no violation exactly when none of its four strings is blank and the amount is present and positive |
| Requests.CreateBetViolationsByField | src/main/java/com/sportygroup/dto/CreateBetRequest.java:19-29 | each of the four string fields is reported under its own violation exactly when it is blank |
| Requests.CreateBetValidity | src/main/java/com/sportygroup/dto/CreateBetRequest.java:19-33 | the same acceptance condition and per-field reports, stated by characters: valid iff each string has a character above U+0020 and the amount is present and positive |
| Requests.EventOutcomeValidity | src/main/java/com/sportygroup/dto/EventOutcomeRequest.java:15-22 | an outcome request is valid iff its three strings all have content, and each blank one is reported under its own violation |
| Repository.FindByEventIdAndStatus | src/main/java/com/sportygroup/repository/BetRepository.java:21 | returns exactly the rows on the event in the status, in table order |
| Repository.FindByUserId | src/main/java/com/sportygroup/repository/BetRepository.java:26 | returns exactly the rows of the user, in table order |
| Repository.FindWinningBets | src/main/java/com/sportygroup/repository/BetRepository.java:31-34 | returns exactly the rows on the event, in the status, that predicted the given winner, in table order |
| Repository.FindLosingBets | src/main/java/com/sportygroup/repository/BetRepository.java:39-42 | returns exactly the rows on the event, in the status, that predicted another winner, in table order |
| Repository.WinningAndLosingPartition | src/main/java/com/sportygroup/repository/BetRepository.java:21-42 | winning and losing rows together hold each row of the event-and-status query exactly as often as it does (a multiset equality), so their sizes add up |
| Repository.WinningAndLosingDisjoint | src/main/java/com/sportygroup/repository/BetRepository.java:31-42 | no row is both winning and losing |
| Repository.NothingMatchesNothingSelected | src/main/java/com/sportygroup/repository/BetRepository.java:21 | a query none of whose rows match returns the empty list |
| BetStore.RequestedBet | src/main/java/com/sportygroup/service/BetService.java:30-36 | a bet is built exactly when all five request fields are present; it copies them, starts PENDING with no id, and carries the creation time |
| BetStore.StorableIffValidAndFits | src/main/java/com/sportygroup/service/BetService.java:30-38 | the save accepts the bet built from a request exactly when the request passes validation and its amount fits the `DECIMAL(10,2)` column |
| BetStore.WithStatus | src/main/java/com/sportygroup/service/BetService.java:92-94 | a status write keeps the same ids, sets the status of that one bet, and leaves every other bet unchanged |
| BetStore.StatusWriteOverwrites | src/main/java/com/sportygroup/service/BetService.java:93 | there is no transition check: any status replaces the current one, and writing it twice is writing it once |
| BetStore.BetService.CreateBet | src/main/java/com/sportygroup/service/BetService.java:27-41 | a storable request adds exactly one bet under the next id, with the request's fields and status PENDING, and returns it; otherwise the save fails and the table is unchanged; the table invariant is kept |
| BetStore.BetService.GetAllBets | src/main/java/com/sportygroup/service/BetService.java:47-49 | returns exactly the stored bets, in increasing id order |
| BetStore.BetService.GetBetById | src/main/java/com/sportygroup/service/BetService.java:54-56 | finds a bet exactly for ids already handed out, and the bet found is the one stored under that id |
| BetStore.BetService.GetBetsByUserId | src/main/java/com/sportygroup/service/BetService.java:61-63 | returns exactly the stored bets of the user, in id order |
| BetStore.BetService.GetPendingBetsForEvent | src/main/java/com/sportygroup/service/BetService.java:68-70 | returns exactly the stored bets on the event that are PENDING, in id order |
| BetStore.BetService.GetWinningBets | src/main/java/com/sportygroup/service/BetService.java:75-77 | returns exactly the PENDING bets on the event that predicted the winner |
| BetStore.BetService.GetLosingBets | src/main/java/com/sportygroup/service/BetService.java:82-84 | returns exactly the PENDING bets on the event that predicted another winner |
| BetStore.PendingSplitsIntoWinningAndLosing | src/main/java/com/sportygroup/service/BetService.java:68-84 | the winning and losing queries together are the pending query for the event (as multisets) |
| BetStore.BetService.UpdateBetStatus | src/main/java/com/sportygroup/service/BetService.java:89-100 | on a stored id it overwrites that bet's status only and returns the updated bet; on an unknown id it fails with "bet not found" and changes nothing |
| Dispatch.ProcessBetSettlement | src/main/java/com/sportygroup/service/BetSettlementService.java:82-115 | changes nothing; throws exactly when the status is null; otherwise takes the branch of the settlement's own status for its own bet, the warning branch exactly for PENDING, and credits exactly the settlement's payout to its user on WON |
| Dispatch.BetSettlementService.constructor | src/main/java/com/sportygroup/service/BetSettlementService.java:26-27 | an unset mock flag means mock mode; both logs start empty |
| Dispatch.BetSettlementService.PublishBetSettlement | src/main/java/com/sportygroup/service/BetSettlementService.java:35-41 | takes exactly one path, chosen by the flag |
| Dispatch.BetSettlementService.MockPublishBetSettlement | src/main/java/com/sportygroup/service/BetSettlementService.java:46-58 | a serialisation failure is swallowed and nothing is processed; otherwise the settlement is processed once, and an exception from processing is passed on |
| Dispatch.BetSettlementService.RealPublishBetSettlement | src/main/java/com/sportygroup/service/BetSettlementService.java:63-77 | a successful send adds the settlement to the broker log and processes nothing; a failed send is rethrown as a publish failure |
| Dispatch.MockPublishMissingStatus | src/main/java/com/sportygroup/service/BetSettlementService.java:46-58 | on the mock path a settlement without a status is never handled and never sent; its processing exception is passed on unless serialisation failed first, in which case the call succeeds |
| Dispatch.MockPublishAll | src/main/java/com/sportygroup/service/BetSettlementService.java:46-58 | in mock mode a batch whose settlements all have a status never throws and never reaches the broker; exactly the settlements that serialise are processed, in order, each once |
| Dispatch.SerialisedWithoutFaults | src/main/java/com/sportygroup/service/BetSettlementService.java:48-53 | when no serialisation fails, every settlement of the batch is processed, in order |
| Dispatch.RealPublishAll | src/main/java/com/sportygroup/service/BetSettlementService.java:63-77 | in real mode nothing is processed locally; the broker receives the batch in order up to the first failing send; the batch succeeds iff no send fails, and otherwise fails for that settlement |
| Dispatch.BetSettlementConsumer.OnMessage | src/main/java/com/sportygroup/service/BetSettlementService.java:136-145 | never throws and never touches the broker; a settlement that processes is handled once, and one whose processing throws leaves no handling |
| Matching.Payout | src/main/java/com/sportygroup/service/BetMatchingService.java:78 | the stake times the odds 2.0 is exactly twice the stake |
| Matching.Verdict | src/main/java/com/sportygroup/service/BetMatchingService.java:73-84 | WON iff the predicted winner equals the announced one (exact string equality), LOST otherwise |
| Matching.CreateBetSettlement | src/main/java/com/sportygroup/service/BetMatchingService.java:68-94 | carries the bet's id and user and the outcome's event; WON iff the winners match, else LOST, never VOID or PENDING; WON pays twice the stake, LOST pays 0; for a positive stake the payout is non-negative and positive exactly when WON |
| Matching.SettlementsFor | src/main/java/com/sportygroup/service/BetMatchingService.java:45-50 | one settlement per bet, in the same order, each with a status |
| Matching.Settle | src/main/java/com/sportygroup/service/BetMatchingService.java:48-55 | same ids; only the status may change; only this event's PENDING bets change, each to WON iff its prediction matches and LOST otherwise; afterwards no bet of the event is PENDING |
| Matching.SettleKeepsTable | src/main/java/com/sportygroup/service/BetMatchingService.java:48-55 | settling keeps every row under its own id and within the entity constraints |
| Matching.RedeliveryFindsNothing | src/main/java/com/sportygroup/service/BetMatchingService.java:37-43 | after settling, the pending query for the event is empty, and settling again with the same outcome changes nothing |
| Matching.NothingPendingNothingSettled | src/main/java/com/sportygroup/service/BetMatchingService.java:40-43 | with no PENDING bet on the event, the table is left as it is |
| Matching.SettlementsAgreeWithTheStore | src/main/java/com/sportygroup/service/BetMatchingService.java:48-55 | every settlement names a stored bet, its status is the status that bet now carries, and a WON settlement pays twice that bet's stake |
| Matching.MatcherBatchOnMockPath | src/main/java/com/sportygroup/service/BetMatchingService.java:58-60 | in mock mode the matcher's batch never throws; each processed settlement is a payout of twice the stake or a forfeited stake, never an unknown status |
| Matching.BetMatchingService.ProcessEventOutcome | src/main/java/com/sportygroup/service/BetMatchingService.java:33-63 | the store ends settled and keeps its invariant even when publishing throws; no bet of the event is PENDING afterwards; the dispatcher ends as if the settlements were published in id order, stopping at the first exception, which is returned; with nothing pending nothing changes; the journal shows every status write before every publish |
| Matching.BetMatchingService.SettleBets | src/main/java/com/sportygroup/service/BetMatchingService.java:45-55 | the first loop: builds the settlements of the pending bets in order and leaves the store settled, one status write per bet |
| Matching.BetMatchingService.PublishSettlements | src/main/java/com/sportygroup/service/BetMatchingService.java:57-60 | the second loop: publishes in order and stops at the first exception, journalling each call made |
| Scenarios.SampleTable | src/main/java/com/sportygroup/config/DataLoader.java:34-83 | the five seeded bets, saved in order, form a well-formed table under ids 1 to 5 |
| Scenarios.SampleEvent001 | src/main/java/com/sportygroup/config/DataLoader.java:34-83 | with team1 winning event001, the 100.00 and 75.00 team1 bets are WON paying 200.00 and 150.00, the team2 bet is LOST paying 0, and the event002 bets are untouched |

## Left out

- Logging, the topic name and the JSON payload text are not modelled. The serialiser and the broker appear only as the fault script and the `sent` log.
- The broker does not deliver messages between the `sent` log and `BetSettlementConsumer.OnMessage`. Each is modelled on its own.
- Matching.BetMatchingService.ProcessEventOutcome: one `now` serves the whole call, so every settlement of a batch carries the same time. Java reads the clock once per settlement.
- BetStore.BetService.CreateBet: a refused save consumes no id. A real identity column may skip one. The refusal itself (a bean-validation error or a precision overflow on save) is one error value.
- Amounts are whole cents. `BigDecimal` scale (200.000 against 200.00) and amounts with more than two fractional digits are not represented.
- Null strings are modelled for the request fields and a settlement's status. Entity and outcome strings are never null in the model.
- An outcome with a null `eventId` or `eventWinnerId` is outside the model. `EventOutcomeConsumer` hands the broker's payload to `processEventOutcome` without validation. With a null winner, `equals(null)` is false, so the code settles every PENDING bet of the event as LOST. With a null event id, the pending query finds no bet and the call returns early.
- Query results come back in increasing id order. JPA leaves the order unspecified; the model fixes the order of a table scan.
- A `Bet` is a value stored in a map entry, and a status update replaces it. Managed-entity identity and aliasing between a query's list and the store are not modelled. From the listed bets the matcher reads the id, user, amount and predicted winner, none of which a status write changes.
- `updateBetStatus` never fails inside `processEventOutcome`, since the ids come from the store. The model ignores its result there.
- Concurrency, transactions and rollback are out of scope: one call runs at a time and each save is atomic.
- The HTTP controllers, the Kafka configuration and producer (`EventOutcomeService`), `EventOutcomeConsumer` and the application bootstrap are not part of this model. `EventOutcomeConsumer` catches whatever `processEventOutcome` throws.
- Hash codes are computed for `Long` ids and `String` event ids. Only their agreement with equality is proved; no particular hash value is.
