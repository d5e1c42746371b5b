/** `BetStatus`: the four states of a bet, persisted by name. */
module Statuses {
  import opened Wrappers

  datatype BetStatus = Pending | Won | Lost | Void

  /** Every status, in declaration order. */
  const AllStatuses: seq<BetStatus> := [Pending, Won, Lost, Void]

  lemma FourDistinctStatuses()
    ensures forall s: BetStatus :: s in AllStatuses
    ensures |AllStatuses| == 4
    ensures forall i, j :: 0 <= i < j < |AllStatuses| ==> AllStatuses[i] != AllStatuses[j]
  {
    forall s: BetStatus ensures s in AllStatuses {
      match s
      case Pending => assert AllStatuses[0] == s;
      case Won => assert AllStatuses[1] == s;
      case Lost => assert AllStatuses[2] == s;
      case Void => assert AllStatuses[3] == s;
    }
  }

  /** `Enum.name()`, the column value written by `@Enumerated(EnumType.STRING)`. */
  function Name(s: BetStatus): string {
    match s
    case Pending => "PENDING"
    case Won => "WON"
    case Lost => "LOST"
    case Void => "VOID"
  }

  /** `Enum.valueOf`: the status with this exact name; `None` where Java throws `IllegalArgumentException`. */
  function Parse(name: string): (r: Option<BetStatus>)
    ensures forall s :: r == Some(s) <==> Name(s) == name
  {
    if name == "PENDING" then Some(Pending)
    else if name == "WON" then Some(Won)
    else if name == "LOST" then Some(Lost)
    else if name == "VOID" then Some(Void)
    else None
  }

  /** The name mapping is a bijection onto the four names, so a persisted status reads back unchanged. */
  lemma NameRoundTrip(s: BetStatus, name: string)
    ensures Parse(Name(s)) == Some(s)
    ensures Parse(name).Some? ==> Name(Parse(name).value) == name
  {
  }

  /** The outcome states (WON, LOST, VOID): everything except the initial PENDING. */
  predicate IsConcluded(s: BetStatus) {
    s != Pending
  }
}
