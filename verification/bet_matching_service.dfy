/**
 * `BetMatchingService`: settles every PENDING bet on an event once its
 * outcome is known. The status of each bet is written to the store first;
 * then the settlements are handed, in order, to the dispatcher.
 */
module Matching {
  import opened Wrappers
  import opened JavaLang
  import opened Statuses
  import opened Bets
  import opened Settlements
  import opened Outcomes
  import opened Repository
  import opened BetStore
  import opened Dispatch

  /** The fixed odds applied to every winning bet, 2.0, in tenths. */
  const DefaultWinningOddsTenths := 20

  /** The payout of a winning stake: the stake times the default odds, exact in cents. */
  function Payout(stake: int): (p: int)
    ensures p == 2 * stake
  {
    stake * DefaultWinningOddsTenths / 10
  }

  /** A bet wins exactly when it picked the announced winner. */
  function Verdict(b: Bet, o: EventOutcome): (s: BetStatus)
    ensures s == Won <==> b.eventWinnerId == o.eventWinnerId
    ensures s == Lost <==> b.eventWinnerId != o.eventWinnerId
  {
    if b.eventWinnerId == o.eventWinnerId then Won else Lost
  }

  /** `createBetSettlement`: the settlement message for one bet under this outcome. */
  function CreateBetSettlement(b: Bet, o: EventOutcome, now: Timestamp): (s: BetSettlement)
    ensures s.betId == b.betId && s.userId == b.userId && s.eventId == o.eventId && s.settlementTime == now
    ensures s.settlementStatus.Some? && IsConcluded(s.settlementStatus.value) && s.settlementStatus != Some(Void)
    ensures s.settlementStatus == Some(Won) <==> b.eventWinnerId == o.eventWinnerId
    ensures s.settlementStatus == Some(Lost) <==> b.eventWinnerId != o.eventWinnerId
    ensures s.settlementStatus == Some(Won) ==> s.payoutAmount == 2 * b.betAmount
    ensures s.settlementStatus == Some(Lost) ==> s.payoutAmount == 0
    ensures b.betAmount > 0 ==> 0 <= s.payoutAmount && (0 < s.payoutAmount <==> s.settlementStatus == Some(Won))
  {
    var status := Verdict(b, o);
    NewSettlement(b.betId, b.userId, Some(status), if status == Won then Payout(b.betAmount) else 0,
                  Some(now), o.eventId, now)
  }

  /** The settlements for a list of bets, one per bet, in the same order. */
  function SettlementsFor(bets: seq<Bet>, o: EventOutcome, now: Timestamp): (ss: seq<BetSettlement>)
    ensures |ss| == |bets|
    ensures forall i :: 0 <= i < |bets| ==> ss[i] == CreateBetSettlement(bets[i], o, now)
    ensures forall s :: s in ss ==> s.settlementStatus.Some?
  {
    seq(|bets|, i requires 0 <= i < |bets| => CreateBetSettlement(bets[i], o, now))
  }

  lemma SettlementsForGrows(bets: seq<Bet>, b: Bet, o: EventOutcome, now: Timestamp)
    ensures SettlementsFor(bets + [b], o, now) == SettlementsFor(bets, o, now) + [CreateBetSettlement(b, o, now)]
  {
  }

  /** The bet is on this event and not yet settled. */
  predicate PendingFor(b: Bet, eventId: string) {
    b.eventId == eventId && b.status == Pending
  }

  /**
   * The table after the outcome: each PENDING bet on the event carries its
   * verdict; every other row is as it was.
   */
  function Settle(m: map<int, Bet>, o: EventOutcome): (m': map<int, Bet>)
    ensures m'.Keys == m.Keys
    ensures forall id :: id in m ==> m'[id].(status := m[id].status) == m[id]
    ensures forall id :: id in m && !PendingFor(m[id], o.eventId) ==> m'[id] == m[id]
    ensures forall id :: id in m && PendingFor(m[id], o.eventId) ==>
      && (m'[id].status == Won <==> m[id].eventWinnerId == o.eventWinnerId)
      && (m'[id].status == Lost <==> m[id].eventWinnerId != o.eventWinnerId)
    ensures forall id :: id in m ==> !PendingFor(m'[id], o.eventId)
  {
    map id | id in m :: if PendingFor(m[id], o.eventId) then m[id].(status := Verdict(m[id], o)) else m[id]
  }

  /** The table once the bets in `done` have been given their verdicts, and no other. */
  function SettledSoFar(m: map<int, Bet>, done: seq<Bet>, o: EventOutcome): map<int, Bet> {
    map id | id in m :: if m[id] in done then m[id].(status := Verdict(m[id], o)) else m[id]
  }

  /** Writing the verdict of one more stored bet extends the settled part by that bet. */
  lemma SettleOneMore(m: map<int, Bet>, nextId: int, done: seq<Bet>, b: Bet, o: EventOutcome)
    requires IsTable(m, nextId) && IsStored(m, b)
    ensures b.betId.value in SettledSoFar(m, done, o)
    ensures WithStatus(SettledSoFar(m, done, o), b.betId.value, Verdict(b, o)) == SettledSoFar(m, done + [b], o)
  {
    var before := SettledSoFar(m, done, o);
    var after := SettledSoFar(m, done + [b], o);
    var written := WithStatus(before, b.betId.value, Verdict(b, o));
    forall id | id in m
      ensures written[id] == after[id]
    {
      if id != b.betId.value {
        assert m[id] != b by { assert m[id].betId == Some(id); }
        assert m[id] in done + [b] <==> m[id] in done;
      }
    }
  }

  /** Once every PENDING bet of the event is done, the table is the settled table. */
  lemma AllPendingDone(m: map<int, Bet>, nextId: int, pending: seq<Bet>, o: EventOutcome)
    requires IsTable(m, nextId)
    requires forall b :: b in pending <==> IsStored(m, b) && PendingFor(b, o.eventId)
    ensures SettledSoFar(m, pending, o) == Settle(m, o)
  {
    forall id | id in m
      ensures SettledSoFar(m, pending, o)[id] == Settle(m, o)[id]
    {
      assert IsStored(m, m[id]);
    }
  }

  /**
   * Settling leaves a valid table: the same ids, each row still under its
   * own id and still meeting the entity constraints.
   */
  lemma SettleKeepsTable(m: map<int, Bet>, nextId: int, o: EventOutcome)
    requires IsTable(m, nextId) && forall id :: id in m ==> SatisfiesConstraints(m[id])
    ensures IsTable(Settle(m, o), nextId)
    ensures forall id :: id in Settle(m, o) ==> SatisfiesConstraints(Settle(m, o)[id])
  {
    var m' := Settle(m, o);
    forall id | id in m'
      ensures m'[id].betId == Some(id) && SatisfiesConstraints(m'[id])
    {
      assert m'[id].(status := m[id].status) == m[id];
    }
  }

  /**
   * A second delivery of the same outcome finds nothing to do: no PENDING
   * bet of the event is left in the settled table, and settling again
   * changes nothing.
   */
  lemma RedeliveryFindsNothing(m: map<int, Bet>, nextId: int, o: EventOutcome)
    requires IsTable(m, nextId)
    ensures IsTable(Settle(m, o), nextId)
    ensures FindByEventIdAndStatus(Rows(Settle(m, o), nextId), o.eventId, Pending) == []
    ensures Settle(Settle(m, o), o) == Settle(m, o)
  {
    var m' := Settle(m, o);
    forall id | id in m' ensures m'[id].betId == Some(id) {
      assert m'[id].(status := m[id].status) == m[id];
    }
    RowsAreTheStoredBets(m', nextId);
    NothingMatchesNothingSelected(Rows(m', nextId), ByEventIdAndStatus(o.eventId, Pending));
  }

  /** With no PENDING bet on the event, settling changes nothing. */
  lemma NothingPendingNothingSettled(m: map<int, Bet>, nextId: int, o: EventOutcome)
    requires IsTable(m, nextId)
    requires forall b :: !(IsStored(m, b) && PendingFor(b, o.eventId))
    ensures Settle(m, o) == m
  {
    forall id | id in m ensures Settle(m, o)[id] == m[id] {
      assert IsStored(m, m[id]);
    }
  }

  /**
   * Each settlement of a batch names a stored bet, and its status is the
   * status that bet carries in the settled table; a win pays twice the stake.
   */
  lemma SettlementsAgreeWithTheStore(m: map<int, Bet>, pending: seq<Bet>, o: EventOutcome, now: Timestamp)
    requires forall b :: b in pending <==> IsStored(m, b) && PendingFor(b, o.eventId)
    ensures forall s :: s in SettlementsFor(pending, o, now) ==>
      && s.betId.Some? && s.betId.value in Settle(m, o)
      && Some(Settle(m, o)[s.betId.value].status) == s.settlementStatus
      && (s.settlementStatus == Some(Won) ==> s.payoutAmount == Payout(m[s.betId.value].betAmount))
  {
    var ss := SettlementsFor(pending, o, now);
    forall s | s in ss
      ensures s.betId.Some? && s.betId.value in Settle(m, o)
      ensures Some(Settle(m, o)[s.betId.value].status) == s.settlementStatus
      ensures s.settlementStatus == Some(Won) ==> s.payoutAmount == Payout(m[s.betId.value].betAmount)
    {
      var i :| 0 <= i < |ss| && ss[i] == s;
      assert pending[i] in pending;
    }
  }

  /**
   * On the mock path a batch from the matcher never throws and reaches no
   * broker; each settlement that serialises is processed as a payout of
   * twice the stake or a forfeited stake, never as an unknown status.
   */
  lemma MatcherBatchOnMockPath(c: Channel, bets: seq<Bet>, o: EventOutcome, now: Timestamp)
    ensures var ss := SettlementsFor(bets, o, now);
      && PublishAll(true, c, ss).0 == Success(())
      && PublishAll(true, c, ss).1 == Channel(Skip(c.faults, |ss|), c.sent, c.handled + Handlings(Serialised(ss, c.faults)))
    ensures forall b :: b in bets ==>
      ProcessBetSettlement(CreateBetSettlement(b, o, now)) ==
        Success(if b.eventWinnerId == o.eventWinnerId then CreditPayout(b.betId, b.userId, 2 * b.betAmount)
                else ForfeitStake(b.betId, b.userId))
  {
    MockPublishAll(c, SettlementsFor(bets, o, now));
  }

  /** The calls the matcher makes on its two collaborators, in the order it makes them. */
  datatype Effect =
    | StatusWritten(settlement: BetSettlement)  // `updateBetStatus` with the settlement's bet and status
    | PublishCalled(settlement: BetSettlement)  // `publishBetSettlement` with the settlement

  function StatusWrites(ss: seq<BetSettlement>): (r: seq<Effect>)
    ensures |r| == |ss|
  {
    seq(|ss|, i requires 0 <= i < |ss| => StatusWritten(ss[i]))
  }

  function PublishCalls(ss: seq<BetSettlement>): (r: seq<Effect>)
    ensures |r| == |ss|
  {
    seq(|ss|, i requires 0 <= i < |ss| => PublishCalled(ss[i]))
  }

  lemma JournalGrows(ss: seq<BetSettlement>, s: BetSettlement)
    ensures StatusWrites(ss + [s]) == StatusWrites(ss) + [StatusWritten(s)]
    ensures PublishCalls(ss + [s]) == PublishCalls(ss) + [PublishCalled(s)]
  {
  }

  class BetMatchingService {
    const betService: BetService
    const betSettlementService: BetSettlementService
    /** A journal of the calls made so far; it exists only to state their order. */
    ghost var effects: seq<Effect>

    constructor(betService: BetService, betSettlementService: BetSettlementService)
      ensures this.betService == betService && this.betSettlementService == betSettlementService
      ensures effects == []
    {
      this.betService := betService;
      this.betSettlementService := betSettlementService;
      effects := [];
    }

    /**
     * `processEventOutcome`: every PENDING bet of the event gets its
     * verdict in the store, then the settlements are published in id
     * order. The first publish that throws ends the batch; the status
     * writes already made stay.
     */
    method ProcessEventOutcome(o: EventOutcome, now: Timestamp) returns (r: Result<(), DispatchError>)
      requires betService.Valid()
      modifies this, betService, betSettlementService
      ensures betService.Valid() && betService.nextId == old(betService.nextId)
      ensures betService.bets == Settle(old(betService.bets), o)
      ensures betService.GetPendingBetsForEvent(o.eventId) == []
      ensures (r, betSettlementService.State()) ==
        PublishAll(betSettlementService.mockRocketMQ, old(betSettlementService.State()),
                   SettlementsFor(old(betService.GetPendingBetsForEvent(o.eventId)), o, now))
      ensures old(betService.GetPendingBetsForEvent(o.eventId)) == [] ==>
        && betService.bets == old(betService.bets)
        && betSettlementService.State() == old(betSettlementService.State())
        && r == Success(())
        && effects == old(effects)
      ensures var ss := SettlementsFor(old(betService.GetPendingBetsForEvent(o.eventId)), o, now);
        effects == old(effects) + StatusWrites(ss)
                   + PublishCalls(ss[..Attempted(betSettlementService.mockRocketMQ, old(betSettlementService.State()), ss)])
    {
      ghost var m := betService.bets;
      ghost var nextId := betService.nextId;
      var pending := betService.GetPendingBetsForEvent(o.eventId);
      if |pending| == 0 {
        NothingPendingNothingSettled(m, nextId, o);
        RedeliveryFindsNothing(m, nextId, o);
        r := Success(());
        return;
      }
      var settlements := SettleBets(pending, o, now);
      RedeliveryFindsNothing(m, nextId, o);
      r := PublishSettlements(settlements);
    }

    /**
     * The first loop of `processEventOutcome`: builds the settlement of
     * each pending bet and writes its status to the store.
     */
    method SettleBets(pending: seq<Bet>, o: EventOutcome, now: Timestamp) returns (settlements: seq<BetSettlement>)
      requires betService.Valid()
      requires forall b :: b in pending <==> IsStored(betService.bets, b) && PendingFor(b, o.eventId)
      modifies this, betService
      ensures betService.Valid() && betService.nextId == old(betService.nextId)
      ensures betService.bets == Settle(old(betService.bets), o)
      ensures settlements == SettlementsFor(pending, o, now)
      ensures effects == old(effects) + StatusWrites(settlements)
    {
      ghost var m := betService.bets;
      ghost var nextId := betService.nextId;
      settlements := [];
      var i := 0;
      while i < |pending|
        invariant 0 <= i <= |pending|
        invariant betService.Valid() && betService.nextId == nextId
        invariant betService.bets == SettledSoFar(m, pending[..i], o)
        invariant settlements == SettlementsFor(pending[..i], o, now)
        invariant effects == old(effects) + StatusWrites(settlements)
      {
        var bet := pending[i];
        assert bet in pending;
        var settlement := CreateBetSettlement(bet, o, now);
        assert pending[..i + 1] == pending[..i] + [bet];
        SettlementsForGrows(pending[..i], bet, o, now);
        JournalGrows(settlements, settlement);
        SettleOneMore(m, nextId, pending[..i], bet, o);
        settlements := settlements + [settlement];
        var _ := betService.UpdateBetStatus(bet.betId.value, settlement.settlementStatus.value);
        effects := effects + [StatusWritten(settlement)];
        i := i + 1;
      }
      assert pending[..i] == pending;
      AllPendingDone(m, nextId, pending, o);
    }

    /**
     * The second loop of `processEventOutcome`: publishes the settlements
     * in order; an exception from a publish ends the loop and is passed on.
     */
    method PublishSettlements(settlements: seq<BetSettlement>) returns (r: Result<(), DispatchError>)
      modifies this, betSettlementService
      ensures (r, betSettlementService.State()) ==
        PublishAll(betSettlementService.mockRocketMQ, old(betSettlementService.State()), settlements)
      ensures effects == old(effects)
        + PublishCalls(settlements[..Attempted(betSettlementService.mockRocketMQ, old(betSettlementService.State()), settlements)])
    {
      var svc := betSettlementService;
      ghost var c0 := svc.State();
      r := Success(());
      var j := 0;
      while j < |settlements|
        invariant 0 <= j <= |settlements|
        invariant r == Success(())
        invariant Attempted(svc.mockRocketMQ, c0, settlements)
               == j + Attempted(svc.mockRocketMQ, svc.State(), settlements[j..])
        invariant PublishAll(svc.mockRocketMQ, c0, settlements)
               == PublishAll(svc.mockRocketMQ, svc.State(), settlements[j..])
        modifies svc
      {
        ghost var before := svc.State();
        r := svc.PublishBetSettlement(settlements[j]);
        PublishLoopStep(svc.mockRocketMQ, c0, before, svc.State(), r, settlements, j);
        j := j + 1;
        if r.Failure? {
          break;
        }
      }
      effects := effects + PublishCalls(settlements[..j]);
    }
  }
}
