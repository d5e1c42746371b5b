/**
 * `BetRepository`'s finders, as order-preserving filters over the rows of the
 * `bets` table. The table itself, and `save`, belong to the store.
 */
module Repository {
  import opened Wrappers
  import opened Statuses
  import opened Bets

  /** The four queries the repository declares, by their parameters. */
  datatype Query =
    | ByEventIdAndStatus(eventId: string, status: BetStatus)
    | ByUserId(userId: string)
    | Winning(eventId: string, winnerId: string, status: BetStatus)
    | Losing(eventId: string, winnerId: string, status: BetStatus)

  /** The `WHERE` clause of each query. */
  predicate Matches(q: Query, b: Bet) {
    match q
    case ByEventIdAndStatus(e, s) => b.eventId == e && b.status == s
    case ByUserId(u) => b.userId == u
    case Winning(e, w, s) => b.eventId == e && b.eventWinnerId == w && b.status == s
    case Losing(e, w, s) => b.eventId == e && b.eventWinnerId != w && b.status == s
  }

  /** Every row has an id, and the ids strictly increase: the order of a table scan. */
  predicate IdOrdered(rows: seq<Bet>) {
    && (forall i :: 0 <= i < |rows| ==> rows[i].betId.Some?)
    && (forall i, j :: 0 <= i < j < |rows| ==> rows[i].betId.value < rows[j].betId.value)
  }

  /** The rows a query returns: exactly the matching ones, in table order. */
  function Select(rows: seq<Bet>, q: Query): (r: seq<Bet>)
    ensures |r| <= |rows|
    ensures forall b :: b in r <==> b in rows && Matches(q, b)
    ensures IdOrdered(rows) ==> IdOrdered(r)
  {
    if rows == [] then []
    else if Matches(q, rows[0]) then
      var rest := Select(rows[1..], q);
      if IdOrdered(rows) then PrependKeepsOrder(rows, rest); [rows[0]] + rest
      else [rows[0]] + rest
    else Select(rows[1..], q)
  }

  /** The first row of an id-ordered table can head any selection of the rows after it. */
  lemma PrependKeepsOrder(rows: seq<Bet>, rest: seq<Bet>)
    requires rows != [] && IdOrdered(rows) && IdOrdered(rest)
    requires forall b :: b in rest ==> b in rows[1..]
    ensures IdOrdered([rows[0]] + rest)
  {
    var r := [rows[0]] + rest;
    forall i, j | 0 <= i < j < |r| ensures r[i].betId.value < r[j].betId.value {
      if i == 0 {
        assert r[j] in rows[1..];
        var k :| 0 <= k < |rows[1..]| && rows[1..][k] == r[j];
        assert rows[k + 1] == r[j];
      }
    }
  }

  /** A query none of whose rows match returns nothing. */
  lemma {:induction false} NothingMatchesNothingSelected(rows: seq<Bet>, q: Query)
    requires forall b :: b in rows ==> !Matches(q, b)
    ensures Select(rows, q) == []
  {
    if rows != [] {
      assert rows[0] in rows;
      assert forall b :: b in rows[1..] ==> b in rows;
      NothingMatchesNothingSelected(rows[1..], q);
    }
  }

  /** `findByEventIdAndStatus`: the bets on this event that are in this status. */
  function FindByEventIdAndStatus(rows: seq<Bet>, eventId: string, status: BetStatus): (r: seq<Bet>)
    ensures forall b :: b in r <==> b in rows && b.eventId == eventId && b.status == status
    ensures IdOrdered(rows) ==> IdOrdered(r)
  {
    Select(rows, ByEventIdAndStatus(eventId, status))
  }

  /** `findByUserId`: the bets this user placed. */
  function FindByUserId(rows: seq<Bet>, userId: string): (r: seq<Bet>)
    ensures forall b :: b in r <==> b in rows && b.userId == userId
    ensures IdOrdered(rows) ==> IdOrdered(r)
  {
    Select(rows, ByUserId(userId))
  }

  /** `findWinningBets`: the bets on this event, in this status, that predicted this winner. */
  function FindWinningBets(rows: seq<Bet>, eventId: string, winnerId: string, status: BetStatus): (r: seq<Bet>)
    ensures forall b :: b in r <==> b in rows && b.eventId == eventId && b.eventWinnerId == winnerId && b.status == status
    ensures IdOrdered(rows) ==> IdOrdered(r)
  {
    Select(rows, Winning(eventId, winnerId, status))
  }

  /** `findLosingBets`: the bets on this event, in this status, that predicted another winner. */
  function FindLosingBets(rows: seq<Bet>, eventId: string, winnerId: string, status: BetStatus): (r: seq<Bet>)
    ensures forall b :: b in r <==> b in rows && b.eventId == eventId && b.eventWinnerId != winnerId && b.status == status
    ensures IdOrdered(rows) ==> IdOrdered(r)
  {
    Select(rows, Losing(eventId, winnerId, status))
  }

  /**
   * The winning and the losing bets of one event and status split that
   * event's bets in that status: together they hold each such row exactly
   * as often as the event query does, so they are disjoint and cover it.
   * (The winner column is never null, so `!=` is the negation of `=`.)
   */
  lemma {:induction false} WinningAndLosingPartition(rows: seq<Bet>, eventId: string, winnerId: string, status: BetStatus)
    ensures multiset(FindWinningBets(rows, eventId, winnerId, status)) + multiset(FindLosingBets(rows, eventId, winnerId, status))
         == multiset(FindByEventIdAndStatus(rows, eventId, status))
    ensures |FindWinningBets(rows, eventId, winnerId, status)| + |FindLosingBets(rows, eventId, winnerId, status)|
         == |FindByEventIdAndStatus(rows, eventId, status)|
  {
    if rows != [] {
      WinningAndLosingPartition(rows[1..], eventId, winnerId, status);
    }
    assert |multiset(FindByEventIdAndStatus(rows, eventId, status))| == |FindByEventIdAndStatus(rows, eventId, status)|;
  }

  /** No bet is both winning and losing. */
  lemma WinningAndLosingDisjoint(rows: seq<Bet>, eventId: string, winnerId: string, status: BetStatus, b: Bet)
    ensures !(b in FindWinningBets(rows, eventId, winnerId, status) && b in FindLosingBets(rows, eventId, winnerId, status))
  {
  }
}
