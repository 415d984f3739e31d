/** Concrete runs in which a row that was read before the lock names another attempt, or no capture
    yet: a balance and a refund request on the wrong charge, and captured money nobody hears of. */
module BillingRaces {
  import opened BillingTypes
  import opened BillingSteps
  import opened BillingWorld
  import opened BillingRuns
  import BillingFulfilment
  import opened BillingExamples

  const SECOND: GatewayId := 10
  const SECOND_CAPTURE := Report(SECOND, ORDER, 100, 0, RCaptured, None)

  /** The first attempt was authorized, and a second one was captured. */
  function Retaken(end: (Time, Calendar.Cycle) -> Time): World {
    var w := Paid(end);
    w.(db := w.db.(payments := map[ORDER := CAPTURED.(gatewayId := Some(SECOND))]), charges := map[CHARGE := ORDER, SECOND := ORDER])
  }

  lemma SecondSettles(end: (Time, Calendar.Cycle) -> Time)
    ensures Settle(Paying(end, map[]).db, SECOND_CAPTURE, 0, 0) == Retaken(end).db
  {
    var db := Paying(end, map[]).db;
    var updated := db.(payments := db.payments[ORDER := SettleRow(AUTHORIZED, SECOND_CAPTURE, 0)]);
    assert CancelLive(db.subscriptions, 1, 0) == map[];
    assert Activate(updated, ORDER, 0, 0).subscriptions == Retaken(end).db.subscriptions;
  }

  lemma RetakenIsReachable(end: (Time, Calendar.Cycle) -> Time)
    ensures Reachable(Retaken(end))
  {
    hide Reachable, Settle;
    PayingIsReachable(end, map[]);
    var w := Paying(end, map[]);
    ReachableStep(w, ChargeAppears(SECOND, ORDER));
    var two := w.(charges := map[CHARGE := ORDER, SECOND := ORDER]);
    assert Apply(w, ChargeAppears(SECOND, ORDER)) == two;
    ReachableStep(two, SettleStep(SECOND_CAPTURE, 0));
    SecondSettles(end);
    assert Apply(two, SettleStep(SECOND_CAPTURE, 0)) == Retaken(end);
  }

  /** The provider returns something of the first attempt. */
  lemma ReturnIsReachable(w: World, refund: ProviderRefund)
    requires Reachable(w) && CHARGE in w.charges && w.processed == map[]
    ensures Reachable(w.(processed := map[CHARGE := [refund]]))
  {
    hide Reachable;
    ReachableStep(w, RefundProcessed(CHARGE, refund));
    assert ProcessedOf(w, CHARGE) + [refund] == [refund];
    assert Apply(w, RefundProcessed(CHARGE, refund)) == w.(processed := map[CHARGE := [refund]]);
  }

  /** What it returned is recorded from the row as it was before any capture. */
  lemma EarlyBalance(w: World, refund: ProviderRefund)
    requires ORDER in w.db.payments && BillingPreservation.PaymentPast(AUTHORIZED, w.db.payments[ORDER])
    requires CHARGE in w.charges && w.charges[CHARGE] == ORDER && w.processed == map[CHARGE := [refund]] && refund.amount <= 100
    ensures var step := ReconcileStep(ORDER, AUTHORIZED, 1, None);
            && Enabled(w, step)
            && Apply(w, step) == w.(db := RecordTotal(w.db, ORDER, AUTHORIZED, refund.amount, w.now))
  {
    hide RecordTotal, BillingPreservation.PaymentPast;
    assert ProcessedOf(w, CHARGE)[..1] == [refund];
    assert Total([refund]) == refund.amount;
  }

  /** A refund of the first attempt is recorded from a row read while it named that attempt: the
      payment says it was returned in full, and nothing was returned of the charge it names. */
  lemma RefundedElsewhere(end: (Time, Calendar.Cycle) -> Time) returns (w: World)
    ensures Reachable(w) && ORDER in w.db.payments && w.db.payments[ORDER].status == PRefunded
    ensures w.db.payments[ORDER].refunded == 100 && w.db.payments[ORDER].gatewayId == Some(SECOND)
    ensures ProcessedOf(w, SECOND) == []
  {
    hide Reachable, Enabled, Apply, Run;
    RetakenIsReachable(end);
    ReturnIsReachable(Retaken(end), REFUND);
    var back := Retaken(end).(processed := map[CHARGE := [REFUND]]);
    EarlyBalance(back, REFUND);
    w := Apply(back, ReconcileStep(ORDER, AUTHORIZED, 1, None));
    ReachableStep(back, ReconcileStep(ORDER, AUTHORIZED, 1, None));
  }

  const PART := ProviderRefund(3, 40)

  /** The authorized payment after a part of it was returned and recorded. */
  function PartlyBack(end: (Time, Calendar.Cycle) -> Time): World {
    var w := Paying(end, map[]);
    w.(db := w.db.(payments := map[ORDER := AUTHORIZED.(refunded := 40, status := PPartiallyRefunded)]), processed := map[CHARGE := [PART]])
  }

  lemma PartlyBackIsReachable(end: (Time, Calendar.Cycle) -> Time)
    ensures Reachable(PartlyBack(end))
  {
    hide Reachable, Enabled, Apply, Run;
    PayingIsReachable(end, map[]);
    ReturnIsReachable(Paying(end, map[]), PART);
    var back := Paying(end, map[]).(processed := map[CHARGE := [PART]]);
    EarlyBalance(back, PART);
    assert back.(db := RecordTotal(back.db, ORDER, AUTHORIZED, 40, 0)) == PartlyBack(end);
    ReachableStep(back, ReconcileStep(ORDER, AUTHORIZED, 1, None));
  }

  /** The refund notice overtook the capture: the report of the capture changes nothing, no plan is
      granted, nobody is asked to look, and the checkout stays open. */
  lemma CaptureIsLost(end: (Time, Calendar.Cycle) -> Time) returns (w: World)
    ensures Reachable(w) && BillingFulfilment.Lost(w, ORDER) && Enabled(w, SettleStep(CAPTURE, 0)) && Apply(w, SettleStep(CAPTURE, 0)) == w
    ensures w.db.payments[ORDER].status == PPartiallyRefunded && w.db.payments[ORDER].refunded == 40
    ensures 1 in w.db.checkouts && Open(w.db.checkouts[1])
  {
    hide Reachable;
    PartlyBackIsReachable(end);
    w := PartlyBack(end);
    assert w.db.payments[ORDER := w.db.payments[ORDER]] == w.db.payments;
  }

  /** The refund record of the captured payment. */
  function Record(key: nat): Refund {
    Refund(key, 1, 100, Requested, None)
  }

  function Asked(end: (Time, Calendar.Cycle) -> Time, key: nat): World {
    Retaken(end).(db := Retaken(end).db.(refunds := map[ORDER := Record(key)]))
  }

  lemma AskedIsReachable(end: (Time, Calendar.Cycle) -> Time, key: nat)
    ensures Reachable(Asked(end, key))
  {
    hide Reachable;
    RetakenIsReachable(end);
    var taken := Retaken(end);
    assert RefundRequest(taken.db, 1, ORDER, false, key, 0) == BillingPolicy.Ok(Some(Record(key)));
    ReachableStep(taken, RequestRefundStep(1, ORDER, false, key));
    assert Apply(taken, RequestRefundStep(1, ORDER, false, key)) == Asked(end, key);
  }

  lemma ReadEarlier()
    ensures BillingPreservation.PaymentPast(AUTHORIZED, CAPTURED.(gatewayId := Some(SECOND)))
  {
  }

  lemma ReadNow(r: Refund)
    ensures BillingHistory.RefundPast(r, r)
  {
  }

  lemma AskedCanSubmit(end: (Time, Calendar.Cycle) -> Time, key: nat)
    ensures var w, step := Asked(end, key), SubmitStep(ORDER, AUTHORIZED, Record(key), None);
            Enabled(w, step) && Apply(w, step) == w.(submissions := {Submission(ORDER, Some(CHARGE), key, 100)})
  {
    hide BillingPreservation.PaymentPast, BillingHistory.RefundPast;
    assert BillingPreservation.PaymentPast(AUTHORIZED, CAPTURED.(gatewayId := Some(SECOND))) by {
      ReadEarlier();
    }
    assert BillingHistory.RefundPast(Record(key), Record(key)) by {
      ReadNow(Record(key));
    }
  }

  /** A refund of the captured payment is asked of the first attempt. */
  lemma SubmittedElsewhere(end: (Time, Calendar.Cycle) -> Time, key: nat) returns (w: World)
    ensures Reachable(w) && ORDER in w.db.payments && w.db.payments[ORDER].gatewayId == Some(SECOND)
    ensures w.submissions == {Submission(ORDER, Some(CHARGE), key, 100)}
  {
    hide Reachable, Enabled, Apply, Run;
    AskedIsReachable(end, key);
    AskedCanSubmit(end, key);
    w := Apply(Asked(end, key), SubmitStep(ORDER, AUTHORIZED, Record(key), None));
    ReachableStep(Asked(end, key), SubmitStep(ORDER, AUTHORIZED, Record(key), None));
  }
}
