/**
 * `BetService` together with the table it owns: a map from id to bet and the
 * next identity value. `createBet` and `updateBetStatus` change the table;
 * the getters are queries over it.
 */
module BetStore {
  import opened Wrappers
  import opened JavaLang
  import opened Statuses
  import opened Bets
  import opened Requests
  import opened Repository

  /** What the service's callers may see thrown. */
  datatype ServiceError =
    | BetNotFound(betId: int)  // "Bet not found with ID: " + betId
    | SaveRejected             // the entity constraints refused the row on save

  /** A table whose identity column has handed out 1 .. nextId - 1, each row keyed by its own id. */
  ghost predicate IsTable(m: map<int, Bet>, nextId: int) {
    && 1 <= nextId
    && (forall id :: id in m <==> 1 <= id < nextId)
    && (forall id :: id in m ==> m[id].betId == Some(id))
  }

  /** The rows in id order, as a scan of the table returns them. */
  function Rows(m: map<int, Bet>, nextId: int): (r: seq<Bet>)
    requires IsTable(m, nextId)
  {
    seq(nextId - 1, i requires 0 <= i < nextId - 1 => m[i + 1])
  }

  /** The table holds this bet, under its own id. */
  predicate IsStored(m: map<int, Bet>, b: Bet) {
    b.betId.Some? && b.betId.value in m && m[b.betId.value] == b
  }

  /** The scan holds each stored bet, and nothing else, in strictly increasing id order. */
  lemma RowsAreTheStoredBets(m: map<int, Bet>, nextId: int)
    requires IsTable(m, nextId)
    ensures IdOrdered(Rows(m, nextId))
    ensures forall b :: b in Rows(m, nextId) <==> IsStored(m, b)
  {
    var rows := Rows(m, nextId);
    forall b ensures b in rows <==> IsStored(m, b) {
      if b in rows {
        var i :| 0 <= i < |rows| && rows[i] == b;
        assert m[i + 1] == b;
      }
      if IsStored(m, b) {
        assert rows[b.betId.value - 1] == b;
      }
    }
  }

  /** The entity `createBet` builds from a request; `None` when a field is null. */
  function RequestedBet(request: CreateBetRequest, now: Timestamp): (r: Option<Bet>)
    ensures r.Some? <==> request.userId.Some? && request.eventId.Some? && request.eventMarketId.Some?
                         && request.eventWinnerId.Some? && request.betAmount.Some?
    ensures r.Some? ==>
      && r.value.betId.None? && r.value.status == Pending && r.value.createdAt == now
      && Some(r.value.userId) == request.userId && Some(r.value.eventId) == request.eventId
      && Some(r.value.eventMarketId) == request.eventMarketId
      && Some(r.value.eventWinnerId) == request.eventWinnerId && Some(r.value.betAmount) == request.betAmount
  {
    if request.userId.Some? && request.eventId.Some? && request.eventMarketId.Some?
       && request.eventWinnerId.Some? && request.betAmount.Some?
    then Some(NewBet(request.userId.value, request.eventId.value, request.eventMarketId.value,
                     request.eventWinnerId.value, request.betAmount.value, now))
    else None
  }

  /** Whether `save` accepts the bet built from this request. */
  predicate Storable(request: CreateBetRequest, now: Timestamp) {
    RequestedBet(request, now).Some? && SatisfiesConstraints(RequestedBet(request, now).value)
  }

  /**
   * A request the validator accepts yields a bet meeting every entity
   * constraint, except that the validator sets no upper bound on the amount:
   * the save succeeds exactly for valid requests whose amount fits the
   * `DECIMAL(10, 2)` column.
   */
  lemma StorableIffValidAndFits(request: CreateBetRequest, now: Timestamp)
    ensures Storable(request, now) <==>
      IsValidCreateBet(request) && request.betAmount.value <= MaxStoredAmount
  {
    CreateBetValidIffNoBlank(request);
  }

  /** A status write on one row, leaving every other row and field as it was. */
  function WithStatus(m: map<int, Bet>, id: int, status: BetStatus): (m': map<int, Bet>)
    requires id in m
    ensures m'.Keys == m.Keys && m'[id].status == status
    ensures forall k :: k in m && k != id ==> m'[k] == m[k]
  {
    m[id := m[id].(status := status)]
  }

  /**
   * `updateBetStatus` enforces no forward-only rule: any status, PENDING
   * included, replaces the current one, and writing a status twice is
   * writing it once.
   */
  lemma StatusWriteOverwrites(m: map<int, Bet>, id: int, status: BetStatus)
    requires id in m
    ensures WithStatus(WithStatus(m, id, status), id, status) == WithStatus(m, id, status)
    ensures WithStatus(m, id, status)[id] == m[id].(status := status)
  {
  }

  class BetService {
    var bets: map<int, Bet>
    var nextId: int

    ghost predicate Valid()
      reads this
    {
      IsTable(bets, nextId) && forall id :: id in bets ==> SatisfiesConstraints(bets[id])
    }

    /** An empty table. */
    constructor()
      ensures Valid() && bets == map[] && nextId == 1
    {
      bets := map[];
      nextId := 1;
    }

    /**
     * `createBet`: builds the bet with the business constructor and saves
     * it, which assigns the next id. A row the entity constraints refuse
     * is not stored and the save throws.
     */
    method CreateBet(request: CreateBetRequest, now: Timestamp) returns (r: Result<Bet, ServiceError>)
      requires Valid()
      modifies this
      ensures Valid()
      ensures Storable(request, now) ==>
        && r == Success(RequestedBet(request, now).value.(betId := Some(old(nextId))))
        && bets == old(bets)[old(nextId) := r.value]
        && nextId == old(nextId) + 1
      ensures !Storable(request, now) ==>
        r == Failure(SaveRejected) && bets == old(bets) && nextId == old(nextId)
    {
      var candidate := RequestedBet(request, now);
      if candidate.Some? && SatisfiesConstraints(candidate.value) {
        var saved := candidate.value.(betId := Some(nextId));
        bets := bets[nextId := saved];
        nextId := nextId + 1;
        r := Success(saved);
      } else {
        r := Failure(SaveRejected);
      }
    }

    /** `getAllBets`: every stored bet, in id order. */
    function GetAllBets(): (r: seq<Bet>)
      reads this
      requires Valid()
      ensures IdOrdered(r)
      ensures forall b :: b in r <==> IsStored(bets, b)
    {
      RowsAreTheStoredBets(bets, nextId);
      Rows(bets, nextId)
    }

    /** `getBetById`: the bet stored under this id, if any. */
    function GetBetById(betId: int): (r: Option<Bet>)
      reads this
      requires Valid()
      ensures r.Some? <==> 1 <= betId < nextId
      ensures r.Some? ==> IsStored(bets, r.value) && r.value.betId == Some(betId)
    {
      if betId in bets then Some(bets[betId]) else None
    }

    /** `getBetsByUserId`: exactly the stored bets this user placed. */
    function GetBetsByUserId(userId: string): (r: seq<Bet>)
      reads this
      requires Valid()
      ensures IdOrdered(r)
      ensures forall b :: b in r <==> IsStored(bets, b) && b.userId == userId
    {
      FindByUserId(GetAllBets(), userId)
    }

    /** `getPendingBetsForEvent`: exactly the stored bets on this event still PENDING. */
    function GetPendingBetsForEvent(eventId: string): (r: seq<Bet>)
      reads this
      requires Valid()
      ensures IdOrdered(r)
      ensures forall b :: b in r <==> IsStored(bets, b) && b.eventId == eventId && b.status == Pending
    {
      FindByEventIdAndStatus(GetAllBets(), eventId, Pending)
    }

    /** `getWinningBets`: the PENDING bets on this event that predicted this winner. */
    function GetWinningBets(eventId: string, winnerId: string): (r: seq<Bet>)
      reads this
      requires Valid()
      ensures IdOrdered(r)
      ensures forall b :: b in r <==> IsStored(bets, b) && b.eventId == eventId
                                      && b.eventWinnerId == winnerId && b.status == Pending
    {
      FindWinningBets(GetAllBets(), eventId, winnerId, Pending)
    }

    /** `getLosingBets`: the PENDING bets on this event that predicted another winner. */
    function GetLosingBets(eventId: string, winnerId: string): (r: seq<Bet>)
      reads this
      requires Valid()
      ensures IdOrdered(r)
      ensures forall b :: b in r <==> IsStored(bets, b) && b.eventId == eventId
                                      && b.eventWinnerId != winnerId && b.status == Pending
    {
      FindLosingBets(GetAllBets(), eventId, winnerId, Pending)
    }

    /**
     * `updateBetStatus`: overwrites the status of the bet with this id and
     * returns it; an unknown id throws and leaves the table alone.
     */
    method UpdateBetStatus(betId: int, status: BetStatus) returns (r: Result<Bet, ServiceError>)
      requires Valid()
      modifies this
      ensures Valid() && nextId == old(nextId)
      ensures betId in old(bets) ==>
        && bets == WithStatus(old(bets), betId, status)
        && r == Success(old(bets)[betId].(status := status))
      ensures betId !in old(bets) ==> bets == old(bets) && r == Failure(BetNotFound(betId))
    {
      var found := GetBetById(betId);
      if found.Some? {
        var updated := found.value.(status := status);
        bets := bets[betId := updated];
        r := Success(updated);
      } else {
        r := Failure(BetNotFound(betId));
      }
    }
  }

  /** The service's winning and losing queries split its pending query for the same event. */
  lemma PendingSplitsIntoWinningAndLosing(store: BetService, eventId: string, winnerId: string)
    requires store.Valid()
    ensures multiset(store.GetWinningBets(eventId, winnerId)) + multiset(store.GetLosingBets(eventId, winnerId))
         == multiset(store.GetPendingBetsForEvent(eventId))
  {
    WinningAndLosingPartition(store.GetAllBets(), eventId, winnerId, Pending);
  }
}
