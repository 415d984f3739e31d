/** Concrete runs from a fresh installation: a full refund that leaves its plan active, a purchase
    that is undone, and one that is not. */
module BillingExamples {
  import opened Calendar
  import opened BillingTypes
  import opened BillingSteps
  import opened BillingWorld
  import opened BillingRuns
  import opened BillingUndo

  // A refund that leaves its plan active: a notice reads the payment while it is only authorized, the
  // capture is settled in between, and the refund is then recorded from what was read.

  const ORDER := GatewayOrder(5)
  const CHARGE: GatewayId := 9
  const PLAN := Plan(true, false, 0, 100, None, None)
  const INPUT := OrderInput(1, 7, 1, Monthly, None, None)
  const RESERVED := Checkout(1, 7, (1, Monthly, None), 1, Monthly, 100, 0, None, Creating, None, 0)
  const AUTHORIZED := Payment(1, 1, Monthly, 100, 0, PAuthorized, Some(CHARGE), 0, None, Some(1), None, None, NotFulfilled, {}, None, 0)
  const CAPTURED := AUTHORIZED.(status := PCaptured, subscription := Some(0), fulfillment := Active, paidAt := Some(0))

  function Start(end: (Time, Cycle) -> Time, given: map<SubId, Subscription>): World {
    World(Ledger(end, map[1 := PLAN], map[], map[], map[], map[], given, map[]), 0,
          {}, multiset{}, map[], {}, {}, map[], map[], {}, {}, multiset{}, map[])
  }

  /** The order was requested and has arrived. */
  function Ordered(end: (Time, Cycle) -> Time, given: map<SubId, Subscription>): World {
    var w := Start(end, given);
    w.(db := w.db.(checkouts := map[1 := RESERVED]), sent := multiset{1}, orders := map[ORDER := ProviderOrder(1, 100, 0)])
  }

  /** The customer is paying: the charge is authorized. */
  function Paying(end: (Time, Cycle) -> Time, given: map<SubId, Subscription>): World {
    var w := Ordered(end, given);
    w.(db := w.db.(checkouts := map[1 := RESERVED.(status := Authorized, payment := Some(ORDER))], payments := map[ORDER := AUTHORIZED]),
       charges := map[CHARGE := ORDER])
  }

  function FirstPlan(end: (Time, Cycle) -> Time): Subscription {
    Subscription(1, 1, Monthly, SActive, 0, Some(end(0, Monthly)), false, None, Some(ORDER))
  }

  function Paid(end: (Time, Cycle) -> Time): World {
    var w := Paying(end, map[]);
    w.(db := w.db.(checkouts := map[1 := RESERVED.(status := Captured, payment := Some(ORDER))],
                   payments := map[ORDER := CAPTURED], subscriptions := map[0 := FirstPlan(end)]))
  }

  function PaidBack(end: (Time, Cycle) -> Time): World {
    Paid(end).(processed := map[CHARGE := [ProviderRefund(3, 100)]])
  }

  lemma StartIsReachable(end: (Time, Cycle) -> Time, given: map<SubId, Subscription>)
    requires BillingInvariant.OneLive(given) && forall s :: s in given ==> given[s].order.None?
    ensures Reachable(Start(end, given))
  {
    var w := Start(end, given);
    assert Init(w) && CanRun(w, []) && Run(w, []) == w;
  }

  lemma OrderedIsReachable(end: (Time, Cycle) -> Time, given: map<SubId, Subscription>)
    requires BillingInvariant.OneLive(given) && (forall s :: s in given ==> given[s].order.None?) && 0 !in given
    ensures Reachable(Ordered(end, given))
  {
    hide Reachable;
    StartIsReachable(end, given);
    var w := Start(end, given);
    assert Reserve(w.db, INPUT, 0, true) == Reserved(RESERVED);
    ReachableStep(w, ReserveStep(INPUT, true, 1));
    var reserved := w.(db := w.db.(checkouts := map[1 := RESERVED]), unsent := {1});
    assert Apply(w, ReserveStep(INPUT, true, 1)) == reserved;
    ReachableStep(reserved, SendOrder(1));
    var sent := reserved.(unsent := {}, sent := multiset{1});
    assert Apply(reserved, SendOrder(1)) == sent;
    ReachableStep(sent, OrderArrives(ORDER, ProviderOrder(1, 100, 0)));
    assert Apply(sent, OrderArrives(ORDER, ProviderOrder(1, 100, 0))) == Ordered(end, given);
  }

  lemma PayingIsReachable(end: (Time, Cycle) -> Time, given: map<SubId, Subscription>)
    requires BillingInvariant.OneLive(given) && (forall s :: s in given ==> given[s].order.None?) && 0 !in given
    ensures Reachable(Paying(end, given))
  {
    hide Reachable;
    OrderedIsReachable(end, given);
    var w := Ordered(end, given);
    ReachableStep(w, SaveOrderStep(1, ORDER, 0));
    var saved := w.(db := w.db.(checkouts := map[1 := RESERVED.(status := Ready, payment := Some(ORDER))],
                                payments := map[ORDER := NewPayment(RESERVED, 1, 0)]));
    assert Apply(w, SaveOrderStep(1, ORDER, 0)) == saved;
    ReachableStep(saved, ChargeAppears(CHARGE, ORDER));
    var charged := saved.(charges := map[CHARGE := ORDER]);
    assert Apply(saved, ChargeAppears(CHARGE, ORDER)) == charged;
    AuthorizedIsReachable(end, given, charged);
  }

  lemma AuthorizedIsReachable(end: (Time, Cycle) -> Time, given: map<SubId, Subscription>, w: World)
    requires Reachable(w) && 0 !in given
    requires w == Ordered(end, given).(db := Ordered(end, given).db.(
                    checkouts := map[1 := RESERVED.(status := Ready, payment := Some(ORDER))],
                    payments := map[ORDER := NewPayment(RESERVED, 1, 0)]),
                  charges := map[CHARGE := ORDER])
    ensures Reachable(Paying(end, given))
  {
    hide Reachable, Settle;
    var e := Report(CHARGE, ORDER, 100, 0, RAuthorized, None);
    ReachableStep(w, SettleStep(e, 0));
    AuthorizedSettles(end, given, w.db);
    assert Apply(w, SettleStep(e, 0)) == Paying(end, given);
  }

  lemma AuthorizedSettles(end: (Time, Cycle) -> Time, given: map<SubId, Subscription>, db: Ledger)
    requires db == Ordered(end, given).db.(checkouts := map[1 := RESERVED.(status := Ready, payment := Some(ORDER))],
                                           payments := map[ORDER := NewPayment(RESERVED, 1, 0)])
    ensures Settle(db, Report(CHARGE, ORDER, 100, 0, RAuthorized, None), 0, 0) == Paying(end, given).db
  {
    hide Activate;
  }

  lemma PaidIsReachable(end: (Time, Cycle) -> Time)
    ensures Reachable(Paid(end))
  {
    hide Reachable;
    PayingIsReachable(end, map[]);
    hide Enabled, Apply;
    FirstBuys(end);
    ReachableStep(Paying(end, map[]), SettleStep(CAPTURE, 0));
  }

  const REFUND := ProviderRefund(3, 100)

  lemma PaidBackIsReachable(end: (Time, Cycle) -> Time)
    ensures Reachable(PaidBack(end))
  {
    hide Reachable;
    PaidIsReachable(end);
    var w := Paid(end);
    ReachableStep(w, RefundProcessed(CHARGE, REFUND));
    assert ProcessedOf(w, CHARGE) + [REFUND] == [REFUND];
    assert Apply(w, RefundProcessed(CHARGE, REFUND)) == PaidBack(end);
  }

  /** The plan is used although its charge was returned in full, until it expires. */
  lemma RefundedAndActive(end: (Time, Cycle) -> Time) returns (w: World)
    ensures Reachable(w) && ORDER in w.db.payments && w.db.payments[ORDER].status == PRefunded
    ensures w.db.payments[ORDER].subscription == Some(0) && 0 in w.db.subscriptions && w.db.subscriptions[0].status == SActive
  {
    hide Reachable;
    PaidBackIsReachable(end);
    var back := PaidBack(end);
    assert ProcessedOf(back, CHARGE)[..1] == [REFUND];
    var step := ReconcileStep(ORDER, AUTHORIZED, 1, None);
    ReachableStep(back, step);
    w := Apply(back, step);
    RefundEndsPlan(back.db, ORDER, 0, AUTHORIZED, 100, 0);
  }

  // Two runs of the undo theorem: a first purchase is undone, and a plan without a payment is lost

  const CAPTURE := Report(CHARGE, ORDER, 100, 0, RCaptured, None)

  /** An account that was given another plan until `GIVEN_END`. */
  const GIVEN_END: Time := 50
  const GIVEN := Subscription(1, 2, Monthly, SActive, 0, Some(GIVEN_END), false, None, None)

  function PaidOver(end: (Time, Cycle) -> Time): World {
    var w := Paying(end, map[5 := GIVEN]);
    w.(db := w.db.(checkouts := map[1 := RESERVED.(status := Captured, payment := Some(ORDER))],
                   payments := map[ORDER := CAPTURED.(previous := Some(5))],
                   subscriptions := map[5 := GIVEN.(status := SCanceled, canceledAt := Some(0)), 0 := FirstPlan(end)]))
  }

  lemma GivenIsActive()
    ensures ActiveOf(map[5 := GIVEN], 1) == Some(5)
  {
    assert IsActiveOf(map[5 := GIVEN], 1, 5);
  }

  lemma PaidOverSettles(end: (Time, Cycle) -> Time)
    ensures Settle(Paying(end, map[5 := GIVEN]).db, CAPTURE, 0, 0) == PaidOver(end).db
  {
    GivenIsActive();
    var db := Paying(end, map[5 := GIVEN]).db;
    var updated := db.(payments := db.payments[ORDER := SettleRow(AUTHORIZED, CAPTURE, 0)]);
    assert CancelLive(db.subscriptions, 1, 0) == map[5 := GIVEN.(status := SCanceled, canceledAt := Some(0))];
    assert Activate(updated, ORDER, 0, 0).subscriptions == PaidOver(end).db.subscriptions;
  }

  /** After the capture of a world `w` the charge is returned in full. */
  function Return(w: World): World {
    w.(processed := map[CHARGE := [REFUND]])
  }

  lemma ReturnRuns(w: World)
    requires w.charges == map[CHARGE := ORDER] && w.processed == map[]
    ensures CanRun(w, [RefundProcessed(CHARGE, REFUND)]) && Run(w, [RefundProcessed(CHARGE, REFUND)]) == Return(w)
  {
    hide Inv;
    var step := RefundProcessed(CHARGE, REFUND);
    assert ProcessedOf(w, CHARGE) + [REFUND] == [REFUND];
    assert Apply(w, step) == Return(w);
    assert [step][1..] == [];
  }

  lemma FirstSettles(end: (Time, Cycle) -> Time)
    ensures Settle(Paying(end, map[]).db, CAPTURE, 0, 0) == Paid(end).db
  {
    var db := Paying(end, map[]).db;
    var updated := db.(payments := db.payments[ORDER := SettleRow(AUTHORIZED, CAPTURE, 0)]);
    assert CancelLive(db.subscriptions, 1, 0) == map[];
    assert Activate(updated, ORDER, 0, 0).subscriptions == Paid(end).db.subscriptions;
  }

  lemma FirstBuys(end: (Time, Cycle) -> Time)
    ensures Buys(Paying(end, map[]), CAPTURE, 0) && Bought(Paying(end, map[]), CAPTURE, 0) == Paid(end)
  {
    hide Settle;
    FirstSettles(end);
  }

  lemma GivenBuys(end: (Time, Cycle) -> Time)
    ensures Buys(Paying(end, map[5 := GIVEN]), CAPTURE, 0) && Bought(Paying(end, map[5 := GIVEN]), CAPTURE, 0) == PaidOver(end)
  {
    hide Settle;
    PaidOverSettles(end);
  }

  /** The whole charge is returned while the plan it paid for is active. */
  lemma WholeIsReturned(u: World, paid: Payment)
    requires u.charges == map[CHARGE := ORDER] && u.processed == map[CHARGE := [REFUND]]
    requires u.db.payments == map[ORDER := paid] && 0 in u.db.subscriptions && u.db.subscriptions[0].status == SActive
    requires paid.gatewayId == Some(CHARGE) && paid.amount == 100 && paid.refunded == 0 && paid.subscription == Some(0)
    ensures Returns(u, ORDER, 0, paid, 1, None)
  {
    assert ProcessedOf(u, CHARGE)[..1] == [REFUND];
    assert Total([REFUND]) == 100;
  }

  lemma FreeBefore(end: (Time, Cycle) -> Time)
    ensures EntitlementOf(Paying(end, map[]).db, 1, 0) == Entitlement(FREE, None)
    ensures CanBeUndone(Paying(end, map[]).db, PaidBack(end).db, 1, 0)
  {
    assert ActiveOf(map[], 1) == None;
  }

  lemma GivenCannotBeUndone(end: (Time, Cycle) -> Time)
    ensures !CanBeUndone(Paying(end, map[5 := GIVEN]).db, Return(PaidOver(end)).db, 1, 0)
  {
    GivenIsActive();
  }

  /** The undo of a first purchase: the account is back on the Free plan it would have. */
  lemma FirstPurchaseIsUndone(end: (Time, Cycle) -> Time)
    ensures var w, u := Paying(end, map[]), PaidBack(end);
            && Reachable(w) && Buys(w, CAPTURE, 0) && Returns(u, ORDER, 0, CAPTURED, 1, None)
            && EntitlementOf(Returned(u, ORDER, CAPTURED, 1, None).db, 1, 0) == EntitlementOf(w.db, 1, 0) == Entitlement(FREE, None)
  {
    hide Reachable, Inv, Buys, Bought, Returns, Returned, CanRun, Run, EntitlementOf, CanBeUndone;
    var w, u := Paying(end, map[]), PaidBack(end);
    PayingIsReachable(end, map[]);
    ReachableHasInv(w);
    FirstBuys(end);
    ReturnRuns(Paid(end));
    WholeIsReturned(u, CAPTURED);
    FreeBefore(end);
    RefundUndoesPurchase(w, CAPTURE, 0, [RefundProcessed(CHARGE, REFUND)], u, CAPTURED, 1, None);
  }

  /** A given plan with time left is not restored: nobody paid for it. */
  lemma GivenPlanIsLost(end: (Time, Cycle) -> Time)
    ensures var w, u, paid := Paying(end, map[5 := GIVEN]), Return(PaidOver(end)), CAPTURED.(previous := Some(5));
            && Reachable(w) && Buys(w, CAPTURE, 0) && Returns(u, ORDER, 0, paid, 1, None)
            && EntitlementOf(Returned(u, ORDER, paid, 1, None).db, 1, 0) != EntitlementOf(w.db, 1, 0)
  {
    hide Reachable, Inv, Buys, Bought, Returns, Returned, CanRun, Run, EntitlementOf, CanBeUndone;
    var w, u, paid := Paying(end, map[5 := GIVEN]), Return(PaidOver(end)), CAPTURED.(previous := Some(5));
    PayingIsReachable(end, map[5 := GIVEN]);
    ReachableHasInv(w);
    GivenBuys(end);
    ReturnRuns(PaidOver(end));
    WholeIsReturned(u, paid);
    GivenCannotBeUndone(end);
    RefundUndoesPurchase(w, CAPTURE, 0, [RefundProcessed(CHARGE, REFUND)], u, paid, 1, None);
  }
}
