/**
 * The sample bets the application seeds at start-up, settled by the
 * outcome of their first event.
 */
module Scenarios {
  import opened Wrappers
  import opened Statuses
  import opened Bets
  import opened Settlements
  import opened Outcomes
  import opened BetStore
  import opened Matching

  /** The five seeded bets, as the store holds them after saving them in order; amounts in cents. */
  function SampleTable(createdAt: int): (m: map<int, Bet>)
    ensures IsTable(m, 6)
  {
    map[
      1 := Bet(Some(1), "user123", "event001", "match-winner", "team1", 100_00, Pending, createdAt),
      2 := Bet(Some(2), "user456", "event001", "match-winner", "team2", 50_00, Pending, createdAt),
      3 := Bet(Some(3), "user789", "event001", "over-under", "team1", 75_00, Pending, createdAt),
      4 := Bet(Some(4), "user123", "event002", "match-winner", "teamA", 200_00, Pending, createdAt),
      5 := Bet(Some(5), "user456", "event002", "match-winner", "teamB", 150_00, Pending, createdAt)]
  }

  /**
   * team1 winning event001 settles bets 1 and 3 as WON, paying 200.00 and
   * 150.00, and bet 2 as LOST with nothing paid; the event002 bets stay PENDING.
   */
  lemma SampleEvent001(createdAt: int, now: int)
    ensures var o := EventOutcome("event001", "Match 1", "team1");
      var m := SampleTable(createdAt);
      && Settle(m, o)[1].status == Won && Settle(m, o)[2].status == Lost && Settle(m, o)[3].status == Won
      && Settle(m, o)[4] == m[4] && Settle(m, o)[5] == m[5]
      && CreateBetSettlement(m[1], o, now).payoutAmount == 200_00
      && CreateBetSettlement(m[2], o, now).payoutAmount == 0
      && CreateBetSettlement(m[3], o, now).payoutAmount == 150_00
  {
  }
}
