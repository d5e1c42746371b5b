/**
 * `BetSettlementService` and its `BetSettlementConsumer`. Publishing takes
 * one of two paths fixed by configuration: the mock path serialises the
 * settlement and processes it on the spot; the real path hands it to the
 * broker's settlements topic. The serialiser and the broker are foreign: a
 * script of fault bits says which of their successive calls fail, and two
 * logs record what the broker accepted and what processing did.
 */
module Dispatch {
  import opened Wrappers
  import opened Statuses
  import opened Settlements

  /** What `processBetSettlement` does with one settlement: the branch of its `switch` it logs. */
  datatype Handling =
    | CreditPayout(betId: Option<int>, userId: string, payout: int)  // WON: the user receives the payout
    | ForfeitStake(betId: Option<int>, userId: string)               // LOST: the stake is kept, no payout
    | RefundStake(betId: Option<int>, userId: string)                // VOID: the stake is refunded
    | UnknownStatus(betId: Option<int>, status: BetStatus)           // default: a warning only

  /** What a publish call or processing can throw. */
  datatype DispatchError =
    | StatusMissing(betId: Option<int>)  // the `switch` on a null status throws NullPointerException
    | PublishFailed(betId: Option<int>)  // "Failed to publish bet settlement", wrapping the broker's exception

  /** The status a handling was chosen for. */
  function HandledStatus(h: Handling): BetStatus {
    match h
    case CreditPayout(_, _, _) => Won
    case ForfeitStake(_, _) => Lost
    case RefundStake(_, _) => Void
    case UnknownStatus(_, s) => s
  }

  /**
   * `processBetSettlement`: chooses the branch for the settlement's status.
   * It changes nothing; the model returns the branch taken.
   */
  function ProcessBetSettlement(s: BetSettlement): (r: Result<Handling, DispatchError>)
    ensures r.Failure? <==> s.settlementStatus.None?
    ensures r.Failure? ==> r.error == StatusMissing(s.betId)
    ensures r.Success? ==> HandledStatus(r.value) == s.settlementStatus.value && r.value.betId == s.betId
    ensures r.Success? ==> (r.value.UnknownStatus? <==> s.settlementStatus == Some(Pending))
    ensures r.Success? && r.value.CreditPayout? ==> r.value.payout == s.payoutAmount && r.value.userId == s.userId
  {
    match s.settlementStatus
    case None => Failure(StatusMissing(s.betId))
    case Some(Won) => Success(CreditPayout(s.betId, s.userId, s.payoutAmount))
    case Some(Lost) => Success(ForfeitStake(s.betId, s.userId))
    case Some(Void) => Success(RefundStake(s.betId, s.userId))
    case Some(Pending) => Success(UnknownStatus(s.betId, Pending))
  }

  /** The observable state of the service: the fault script still to come and the two logs. */
  datatype Channel = Channel(faults: seq<bool>, sent: seq<BetSettlement>, handled: seq<Handling>)

  /** Whether the next foreign call (serialise, or send) fails. Once the script runs out, calls succeed. */
  predicate NextCallFails(faults: seq<bool>) {
    faults != [] && faults[0]
  }

  function AfterCall(faults: seq<bool>): seq<bool> {
    if faults == [] then [] else faults[1..]
  }

  /**
   * `mockPublishBetSettlement`: serialise, then process. A serialisation
   * failure is logged and swallowed; an exception from processing is not
   * caught here.
   */
  function MockPublish(c: Channel, s: BetSettlement): (Result<(), DispatchError>, Channel) {
    var c' := c.(faults := AfterCall(c.faults));
    if NextCallFails(c.faults) then (Success(()), c')
    else match ProcessBetSettlement(s)
      case Failure(e) => (Failure(e), c')
      case Success(h) => (Success(()), c'.(handled := c.handled + [h]))
  }

  /** `realPublishBetSettlement`: send to the topic; any failure is rethrown as `PublishFailed`. */
  function RealPublish(c: Channel, s: BetSettlement): (Result<(), DispatchError>, Channel) {
    var c' := c.(faults := AfterCall(c.faults));
    if NextCallFails(c.faults) then (Failure(PublishFailed(s.betId)), c')
    else (Success(()), c'.(sent := c.sent + [s]))
  }

  /** `publishBetSettlement`: exactly one of the two paths, chosen by the flag. */
  function Publish(mock: bool, c: Channel, s: BetSettlement): (Result<(), DispatchError>, Channel) {
    if mock then MockPublish(c, s) else RealPublish(c, s)
  }

  /** Publishing a batch in order, as a loop without a handler: the first exception ends it. */
  function PublishAll(mock: bool, c: Channel, ss: seq<BetSettlement>): (Result<(), DispatchError>, Channel)
    decreases |ss|
  {
    if ss == [] then (Success(()), c)
    else
      var step := Publish(mock, c, ss[0]);
      if step.0.Failure? then step else PublishAll(mock, step.1, ss[1..])
  }

  /** How many publish calls a batch makes: all of them, or up to and including the one that throws. */
  function Attempted(mock: bool, c: Channel, ss: seq<BetSettlement>): (n: nat)
    ensures n <= |ss|
    ensures PublishAll(mock, c, ss).0.Success? ==> n == |ss|
    ensures PublishAll(mock, c, ss).0.Failure? ==> 0 < n
    decreases |ss|
  {
    if ss == [] then 0
    else
      var step := Publish(mock, c, ss[0]);
      if step.0.Failure? then 1 else 1 + Attempted(mock, step.1, ss[1..])
  }

  /** A batch's first call: it either throws, ending the batch, or leaves the rest to publish. */
  lemma PublishAllStep(mock: bool, c: Channel, ss: seq<BetSettlement>)
    requires ss != []
    ensures var step := Publish(mock, c, ss[0]);
      PublishAll(mock, c, ss) == if step.0.Failure? then step else PublishAll(mock, step.1, ss[1..])
  {
  }

  /** A batch's first call counts as one attempt; the rest count only if it did not throw. */
  lemma AttemptedStep(mock: bool, c: Channel, ss: seq<BetSettlement>)
    requires ss != []
    ensures var step := Publish(mock, c, ss[0]);
      Attempted(mock, c, ss) == if step.0.Failure? then 1 else 1 + Attempted(mock, step.1, ss[1..])
  {
  }

  /**
   * Publishing a batch one call at a time: after the call for `ss[j]`, the
   * batch has either ended with that call's exception, after `j + 1`
   * attempts, or has the rest of the batch still to publish.
   */
  lemma PublishLoopStep(mock: bool, c0: Channel, before: Channel, after: Channel, r: Result<(), DispatchError>,
                        ss: seq<BetSettlement>, j: nat)
    requires j < |ss|
    requires PublishAll(mock, c0, ss) == PublishAll(mock, before, ss[j..])
    requires Attempted(mock, c0, ss) == j + Attempted(mock, before, ss[j..])
    requires (r, after) == Publish(mock, before, ss[j])
    ensures r.Failure? ==> (r, after) == PublishAll(mock, c0, ss) && Attempted(mock, c0, ss) == j + 1
    ensures r.Success? ==>
      && PublishAll(mock, c0, ss) == PublishAll(mock, after, ss[j + 1..])
      && Attempted(mock, c0, ss) == j + 1 + Attempted(mock, after, ss[j + 1..])
  {
    assert ss[j..][0] == ss[j] && ss[j..][1..] == ss[j + 1..];
    PublishAllStep(mock, before, ss[j..]);
    AttemptedStep(mock, before, ss[j..]);
  }

  /** The settlements whose serialisation succeeds under this fault script, in order. */
  function Serialised(ss: seq<BetSettlement>, faults: seq<bool>): (r: seq<BetSettlement>)
    ensures |r| <= |ss|
    ensures forall s :: s in r ==> s in ss
    decreases |ss|
  {
    if ss == [] then []
    else (if NextCallFails(faults) then [] else [ss[0]]) + Serialised(ss[1..], AfterCall(faults))
  }

  /** The handling of each settlement in turn; every one of them has a status. */
  function Handlings(ss: seq<BetSettlement>): (r: seq<Handling>)
    requires forall s :: s in ss ==> s.settlementStatus.Some?
    ensures |r| == |ss|
    ensures forall i :: 0 <= i < |ss| ==> Success(r[i]) == ProcessBetSettlement(ss[i])
  {
    seq(|ss|, i requires 0 <= i < |ss| => ProcessBetSettlement(ss[i]).value)
  }

  /** The fault script after `n` calls. */
  function Skip(faults: seq<bool>, n: nat): seq<bool> {
    if n == 0 then faults else Skip(AfterCall(faults), n - 1)
  }

  /** How many calls of a batch of `n` succeed before the first scripted fault. */
  function FirstFault(faults: seq<bool>, n: nat): (k: nat)
    ensures k <= n
    ensures forall i :: 0 <= i < k && i < |faults| ==> !faults[i]
    ensures k < n ==> k < |faults| && faults[k]
  {
    if n == 0 || NextCallFails(faults) then 0 else 1 + FirstFault(AfterCall(faults), n - 1)
  }

  /** The handlings the mock path records for a batch under this fault script, settlement by settlement. */
  function MockHandled(ss: seq<BetSettlement>, faults: seq<bool>): seq<Handling>
    requires forall s :: s in ss ==> s.settlementStatus.Some?
    decreases |ss|
  {
    if ss == [] then []
    else
      assert ss[0] in ss;
      assert forall s :: s in ss[1..] ==> s in ss;
      (if NextCallFails(faults) then [] else [ProcessBetSettlement(ss[0]).value])
        + MockHandled(ss[1..], AfterCall(faults))
  }

  /** One call on the mock path, for a settlement that has a status. */
  lemma MockPublishStep(c: Channel, s: BetSettlement)
    requires s.settlementStatus.Some?
    ensures Publish(true, c, s) == (Success(()),
      Channel(AfterCall(c.faults), c.sent,
              c.handled + (if NextCallFails(c.faults) then [] else [ProcessBetSettlement(s).value])))
  {
    if NextCallFails(c.faults) {
      assert c.handled + [] == c.handled;
    }
  }

  /**
   * One call on the mock path, for a settlement without a status: unless
   * serialisation fails first, the processing exception is passed on; either
   * way nothing is handled and nothing reaches the broker.
   */
  lemma MockPublishMissingStatus(c: Channel, s: BetSettlement)
    requires s.settlementStatus.None?
    ensures Publish(true, c, s).1 == Channel(AfterCall(c.faults), c.sent, c.handled)
    ensures Publish(true, c, s).0 == if NextCallFails(c.faults) then Success(()) else Failure(StatusMissing(s.betId))
  {
  }

  lemma {:induction false} MockPublishAllSteps(c: Channel, ss: seq<BetSettlement>)
    requires forall s :: s in ss ==> s.settlementStatus.Some?
    ensures PublishAll(true, c, ss) ==
      (Success(()), Channel(Skip(c.faults, |ss|), c.sent, c.handled + MockHandled(ss, c.faults)))
    decreases |ss|
  {
    if ss == [] {
      assert c.handled + [] == c.handled;
    } else {
      assert ss[0] in ss;
      assert forall s :: s in ss[1..] ==> s in ss;
      var first := if NextCallFails(c.faults) then [] else [ProcessBetSettlement(ss[0]).value];
      MockPublishStep(c, ss[0]);
      PublishAllStep(true, c, ss);
      var c1 := Channel(AfterCall(c.faults), c.sent, c.handled + first);
      MockPublishAllSteps(c1, ss[1..]);
      assert c1.handled + MockHandled(ss[1..], AfterCall(c.faults)) == c.handled + MockHandled(ss, c.faults);
    }
  }

  /** What the mock path records is the handling of each settlement that serialised, in order. */
  lemma {:induction false} MockHandledIsSerialisedHandlings(ss: seq<BetSettlement>, faults: seq<bool>)
    requires forall s :: s in ss ==> s.settlementStatus.Some?
    ensures MockHandled(ss, faults) == Handlings(Serialised(ss, faults))
    decreases |ss|
  {
    if ss != [] {
      assert ss[0] in ss;
      assert forall s :: s in ss[1..] ==> s in ss;
      MockHandledIsSerialisedHandlings(ss[1..], AfterCall(faults));
      var first := if NextCallFails(faults) then [] else [ss[0]];
      var rest := Serialised(ss[1..], AfterCall(faults));
      assert Serialised(ss, faults) == first + rest;
      HandlingsAppend(first, rest);
      if !NextCallFails(faults) {
        assert Handlings([ss[0]]) == [ProcessBetSettlement(ss[0]).value];
      }
    }
  }

  /**
   * The mock path never throws for settlements that carry a status, never
   * touches the broker, and processes, in order, exactly those whose
   * serialisation succeeded; one call of the script is spent per settlement.
   */
  lemma MockPublishAll(c: Channel, ss: seq<BetSettlement>)
    requires forall s :: s in ss ==> s.settlementStatus.Some?
    ensures PublishAll(true, c, ss).0 == Success(())
    ensures PublishAll(true, c, ss).1 ==
      Channel(Skip(c.faults, |ss|), c.sent, c.handled + Handlings(Serialised(ss, c.faults)))
  {
    MockPublishAllSteps(c, ss);
    MockHandledIsSerialisedHandlings(ss, c.faults);
  }

  lemma HandlingsAppend(a: seq<BetSettlement>, b: seq<BetSettlement>)
    requires forall s :: s in a + b ==> s.settlementStatus.Some?
    ensures Handlings(a + b) == Handlings(a) + Handlings(b)
  {
    assert forall s :: s in a ==> s in a + b;
    assert forall s :: s in b ==> s in a + b;
  }

  /** With no fault scripted for the batch, the mock path processes every settlement, in order. */
  lemma {:induction false} SerialisedWithoutFaults(ss: seq<BetSettlement>, faults: seq<bool>)
    requires forall i :: 0 <= i < |ss| && i < |faults| ==> !faults[i]
    ensures Serialised(ss, faults) == ss
    decreases |ss|
  {
    if ss != [] {
      SerialisedWithoutFaults(ss[1..], AfterCall(faults));
    }
  }

  /** The real path leaves the processing log alone and sends the batch up to the first failing send. */
  lemma {:induction false} RealPublishAllLogs(c: Channel, ss: seq<BetSettlement>)
    ensures PublishAll(false, c, ss).1.handled == c.handled
    ensures PublishAll(false, c, ss).1.sent == c.sent + ss[..FirstFault(c.faults, |ss|)]
    decreases |ss|
  {
    if ss != [] {
      PublishAllStep(false, c, ss);
      if !NextCallFails(c.faults) {
        var c1 := Channel(AfterCall(c.faults), c.sent + [ss[0]], c.handled);
        RealPublishAllLogs(c1, ss[1..]);
        var k1 := FirstFault(c1.faults, |ss| - 1);
        assert ss[..1 + k1] == [ss[0]] + ss[1..][..k1];
      }
    }
  }

  /** The real path throws exactly when a send fails, and then for that settlement. */
  lemma {:induction false} RealPublishAllResult(c: Channel, ss: seq<BetSettlement>)
    ensures PublishAll(false, c, ss).0.Success? <==> FirstFault(c.faults, |ss|) == |ss|
    ensures FirstFault(c.faults, |ss|) < |ss| ==>
      PublishAll(false, c, ss).0 == Failure(PublishFailed(ss[FirstFault(c.faults, |ss|)].betId))
    decreases |ss|
  {
    if ss != [] {
      PublishAllStep(false, c, ss);
      if !NextCallFails(c.faults) {
        var c1 := Channel(AfterCall(c.faults), c.sent + [ss[0]], c.handled);
        RealPublishAllResult(c1, ss[1..]);
      }
    }
  }

  /**
   * The real path processes nothing locally; it sends the batch in order up
   * to the first failing send, which it rethrows, and sends nothing after it.
   */
  lemma RealPublishAll(c: Channel, ss: seq<BetSettlement>)
    ensures var k := FirstFault(c.faults, |ss|);
      && PublishAll(false, c, ss).1.handled == c.handled
      && PublishAll(false, c, ss).1.sent == c.sent + ss[..k]
      && (PublishAll(false, c, ss).0.Success? <==> k == |ss|)
      && (k < |ss| ==> PublishAll(false, c, ss).0 == Failure(PublishFailed(ss[k].betId)))
  {
    RealPublishAllLogs(c, ss);
    RealPublishAllResult(c, ss);
  }

  class BetSettlementService {
    /** `app.mock.rocketmq`, read once at construction. */
    const mockRocketMQ: bool
    var faults: seq<bool>
    var sent: seq<BetSettlement>
    var handled: seq<Handling>

    function State(): Channel
      reads this
    {
      Channel(faults, sent, handled)
    }

    /** An unset `app.mock.rocketmq` means the mock path. */
    constructor(mockSetting: Option<bool>, faults: seq<bool>)
      ensures mockRocketMQ == mockSetting.GetOr(true)
      ensures State() == Channel(faults, [], [])
    {
      mockRocketMQ := mockSetting.GetOr(true);
      this.faults := faults;
      sent := [];
      handled := [];
    }

    method PublishBetSettlement(s: BetSettlement) returns (r: Result<(), DispatchError>)
      modifies this
      ensures (r, State()) == Publish(mockRocketMQ, old(State()), s)
    {
      if mockRocketMQ {
        r := MockPublishBetSettlement(s);
      } else {
        r := RealPublishBetSettlement(s);
      }
    }

    method MockPublishBetSettlement(s: BetSettlement) returns (r: Result<(), DispatchError>)
      modifies this
      ensures (r, State()) == MockPublish(old(State()), s)
    {
      var serialisationFails := NextCallFails(faults);
      faults := AfterCall(faults);
      if serialisationFails {
        r := Success(());
      } else {
        var processed := ProcessBetSettlement(s);
        if processed.Failure? {
          r := Failure(processed.error);
        } else {
          handled := handled + [processed.value];
          r := Success(());
        }
      }
    }

    method RealPublishBetSettlement(s: BetSettlement) returns (r: Result<(), DispatchError>)
      modifies this
      ensures (r, State()) == RealPublish(old(State()), s)
    {
      var sendFails := NextCallFails(faults);
      faults := AfterCall(faults);
      if sendFails {
        r := Failure(PublishFailed(s.betId));
      } else {
        sent := sent + [s];
        r := Success(());
      }
    }
  }

  /** The listener on the settlements topic: it processes each message it receives and catches whatever processing throws. */
  class BetSettlementConsumer {
    const service: BetSettlementService

    constructor(service: BetSettlementService)
      ensures this.service == service
    {
      this.service := service;
    }

    /** `onMessage`: never throws; a settlement whose processing fails leaves no handling behind. */
    method OnMessage(s: BetSettlement)
      modifies service
      ensures service.faults == old(service.faults) && service.sent == old(service.sent)
      ensures ProcessBetSettlement(s).Success? ==>
        service.handled == old(service.handled) + [ProcessBetSettlement(s).value]
      ensures ProcessBetSettlement(s).Failure? ==> service.handled == old(service.handled)
    {
      var processed := ProcessBetSettlement(s);
      if processed.Success? {
        service.handled := service.handled + [processed.value];
      }
    }
  }
}
