/** What one step of the billing world does to one payment row. Only a report about its order and a
    recorded balance touch a row once it is there. */
module BillingRows {
  import opened BillingTypes
  import opened BillingSteps
  import opened BillingPreservation
  import opened BillingWorld
  import BillingSafety

  // Steps that write no payment

  predicate WritesPayments(step: Step) {
    step.SaveOrderStep? || step.RecoverStep? || step.RecoverFreeStep? || step.SettleStep? || step.ReconcileStep?
  }

  /** The provider, the clock and requests on the way write no table. */
  predicate IsOutside(step: Step) {
    step.Tick? || step.SendOrder? || step.OrderArrives? || step.ProviderRejects? || step.LookupEmpty?
    || step.ChargeAppears? || step.RefundProcessed? || step.SubmitStep? || step.ProviderRefuses?
  }

  lemma OutsideWritesNothing(w: World, step: Step)
    requires Enabled(w, step) && IsOutside(step)
    ensures Apply(w, step).db == w.db
  {
    hide Reserve, CanReconcile, CanSubmit, RefundRequest, ScheduleChange;
  }

  /** Steps that write refund records, subscriptions or checkouts alone. */
  predicate WritesRefunds(step: Step) {
    step.RequestRefundStep? || step.MarkProcessingStep? || step.RefundFailedStep? || step.SaveRefundStep? || step.FinishRefundStep?
  }

  predicate WritesSubscriptions(step: Step) {
    step.PastDueStep? || step.ExpireStep? || step.ScheduleStep?
  }

  predicate WritesCheckouts(step: Step) {
    step.ReserveStep? || step.OrderFailedStep? || step.ReleaseStep?
  }

  ghost predicate OnlyRefunds(w: World, step: Step)
    requires Enabled(w, step)
  {
    Apply(w, step).db == w.db.(refunds := Apply(w, step).db.refunds)
  }

  ghost predicate OnlySubscriptions(w: World, step: Step)
    requires Enabled(w, step)
  {
    Apply(w, step).db == w.db.(subscriptions := Apply(w, step).db.subscriptions)
  }

  ghost predicate OnlyCheckouts(w: World, step: Step)
    requires Enabled(w, step)
  {
    Apply(w, step).db == w.db.(checkouts := Apply(w, step).db.checkouts)
  }

  lemma RequestFrame(w: World, user: UserId, o: OrderId, administrator: bool, key: nat)
    requires Enabled(w, RequestRefundStep(user, o, administrator, key))
    ensures OnlyRefunds(w, RequestRefundStep(user, o, administrator, key))
  {
    hide RefundRequest;
  }

  lemma MarkFrame(w: World, o: OrderId)
    requires Enabled(w, MarkProcessingStep(o))
    ensures OnlyRefunds(w, MarkProcessingStep(o))
  {
  }

  lemma FailureFrame(w: World, o: OrderId, rejection: bool)
    requires Enabled(w, RefundFailedStep(o, rejection))
    ensures OnlyRefunds(w, RefundFailedStep(o, rejection))
  {
  }

  lemma SaveFrame(w: World, o: OrderId, e: RefundEntity)
    requires Enabled(w, SaveRefundStep(o, e))
    ensures OnlyRefunds(w, SaveRefundStep(o, e))
  {
  }

  lemma FinishFrame(w: World, o: OrderId)
    requires Enabled(w, FinishRefundStep(o))
    ensures OnlyRefunds(w, FinishRefundStep(o))
  {
  }

  lemma RefundsFrame(w: World, step: Step)
    requires Enabled(w, step) && WritesRefunds(step)
    ensures OnlyRefunds(w, step)
  {
    hide Enabled, Apply, OnlyRefunds;
    match step
    case RequestRefundStep(user, o, administrator, key) => RequestFrame(w, user, o, administrator, key);
    case MarkProcessingStep(o) => MarkFrame(w, o);
    case RefundFailedStep(o, rejection) => FailureFrame(w, o, rejection);
    case SaveRefundStep(o, e) => SaveFrame(w, o, e);
    case FinishRefundStep(o) => FinishFrame(w, o);
  }

  lemma PastDueFrame(w: World, s: SubId, scan: Time)
    requires Enabled(w, PastDueStep(s, scan))
    ensures OnlySubscriptions(w, PastDueStep(s, scan))
  {
  }

  lemma ExpireOnly(db: Ledger, s: SubId, scan: Time, now: Time, newSub: SubId)
    requires s in db.subscriptions
    ensures var r := Expire(db, s, scan, now, newSub); r == db.(subscriptions := r.subscriptions)
  {
    hide Entitled;
  }

  lemma ExpiryFrame(w: World, s: SubId, scan: Time, newSub: SubId)
    requires Enabled(w, ExpireStep(s, scan, newSub))
    ensures OnlySubscriptions(w, ExpireStep(s, scan, newSub))
  {
    hide Expire;
    ExpireOnly(w.db, s, scan, w.now, newSub);
  }

  lemma ScheduleOnly(db: Ledger, user: UserId, cancel: bool, now: Time)
    requires ScheduleChange(db, user, cancel, now).Some?
    ensures var r := ScheduleChange(db, user, cancel, now).value; r == db.(subscriptions := r.subscriptions)
  {
    hide Entitled, HasPendingRefund;
  }

  lemma ScheduleFrame(w: World, user: UserId, cancel: bool)
    requires Enabled(w, ScheduleStep(user, cancel))
    ensures OnlySubscriptions(w, ScheduleStep(user, cancel))
  {
    hide ScheduleChange;
    ScheduleOnly(w.db, user, cancel, w.now);
  }

  lemma SubscriptionsFrame(w: World, step: Step)
    requires Enabled(w, step) && WritesSubscriptions(step)
    ensures OnlySubscriptions(w, step)
  {
    hide Enabled, Apply, OnlySubscriptions;
    match step
    case PastDueStep(s, scan) => PastDueFrame(w, s, scan);
    case ExpireStep(s, scan, newSub) => ExpiryFrame(w, s, scan, newSub);
    case ScheduleStep(user, cancel) => ScheduleFrame(w, user, cancel);
  }

  lemma ReserveFrame(w: World, input: OrderInput, configured: bool, c: CheckoutId)
    requires Enabled(w, ReserveStep(input, configured, c))
    ensures OnlyCheckouts(w, ReserveStep(input, configured, c))
  {
    hide Reserve;
  }

  lemma OrderFailedFrame(w: World, c: CheckoutId, rejection: bool)
    requires Enabled(w, OrderFailedStep(c, rejection))
    ensures OnlyCheckouts(w, OrderFailedStep(c, rejection))
  {
  }

  lemma ReleaseFrame(w: World, c: CheckoutId)
    requires Enabled(w, ReleaseStep(c))
    ensures OnlyCheckouts(w, ReleaseStep(c))
  {
  }

  lemma CheckoutsFrame(w: World, step: Step)
    requires Enabled(w, step) && WritesCheckouts(step)
    ensures OnlyCheckouts(w, step)
  {
    hide Enabled, Apply, OnlyCheckouts;
    match step
    case ReserveStep(input, configured, c) => ReserveFrame(w, input, configured, c);
    case OrderFailedStep(c, rejection) => OrderFailedFrame(w, c, rejection);
    case ReleaseStep(c) => ReleaseFrame(w, c);
  }

  lemma QuietStep(w: World, step: Step)
    requires Enabled(w, step) && !WritesPayments(step)
    ensures Apply(w, step).db.payments == w.db.payments && Apply(w, step).db.redemptions == w.db.redemptions
  {
    hide Enabled, Apply;
    if IsOutside(step) {
      OutsideWritesNothing(w, step);
    } else if WritesRefunds(step) {
      RefundsFrame(w, step);
    } else if WritesSubscriptions(step) {
      SubscriptionsFrame(w, step);
    } else {
      CheckoutsFrame(w, step);
    }
  }

  // Steps that write another payment

  lemma AttachElsewhere(db: Ledger, c: CheckoutId, p: OrderId, now: Time, o: OrderId)
    requires c in db.checkouts
    ensures var r := Attach(db, c, p, now);
            && (o in db.payments ==> o in r.payments && r.payments[o] == db.payments[o])
            && (o !in db.payments && o in r.payments ==> o == p && r.payments[o] == NewPayment(db.checkouts[c], c, now))
  {
  }

  lemma SaveFreeElsewhere(w: World, c: CheckoutId, newSub: SubId, o: OrderId)
    requires Inv(w) && c in w.db.checkouts && w.db.checkouts[c].amount == 0 && newSub !in w.db.subscriptions
    ensures var r := SaveOrder(w.db, c, FreeOrder(c), w.now, newSub);
            && (o in w.db.payments ==> o in r.payments && r.payments[o] == w.db.payments[o])
            && (o !in w.db.payments && o in r.payments ==> o == FreeOrder(c))
  {
    if FreeOrder(c) in w.db.payments {
      SaveFreeAgain(w.db, c, w.now, newSub);
    } else {
      FreeGranted(w.db, c, w.now, newSub);
    }
  }

  /** As `NewPayment` writes it for an order that costs something. */
  predicate JustCreated(p: Payment) {
    && p.status == PCreated && p.gatewayId.None? && p.refunded == 0 && p.subscription.None?
    && p.fulfillment == NotFulfilled && p.duplicates == {}
  }

  lemma NewIsJustCreated(row: Checkout, c: CheckoutId, now: Time)
    requires row.amount > 0
    ensures JustCreated(NewPayment(row, c, now))
  {
  }

  lemma SaveOrderRow(w: World, c: CheckoutId, p: OrderId, newSub: SubId, o: OrderId)
    requires Inv(w) && Enabled(w, SaveOrderStep(c, p, newSub))
    ensures var r := Apply(w, SaveOrderStep(c, p, newSub)).db;
            && (o in w.db.payments ==> o in r.payments && r.payments[o] == w.db.payments[o])
            && (o !in w.db.payments && o in r.payments && o.GatewayOrder? ==> JustCreated(r.payments[o]))
  {
    hide Inv, Attach, NewPayment, JustCreated;
    if w.db.checkouts[c].amount == 0 {
      SaveFreeElsewhere(w, c, newSub, o);
    } else {
      AttachElsewhere(w.db, c, p, w.now, o);
      NewIsJustCreated(w.db.checkouts[c], c, w.now);
    }
  }

  lemma RecoverRow(w: World, p: OrderId, o: OrderId)
    requires Inv(w) && Enabled(w, RecoverStep(p))
    ensures var r := Apply(w, RecoverStep(p)).db;
            && (o in w.db.payments ==> o in r.payments && r.payments[o] == w.db.payments[o])
            && (o !in w.db.payments && o in r.payments ==> JustCreated(r.payments[o]))
  {
    hide Inv, Attach, Attachable, NewPayment, JustCreated;
    var c := w.orders[p].checkout;
    BillingSafety.ProviderOrderAttaches(w, p);
    AttachElsewhere(w.db, c, p, w.now, o);
    NewIsJustCreated(w.db.checkouts[c], c, w.now);
  }

  lemma RecoverFreeRow(w: World, c: CheckoutId, newSub: SubId, o: OrderId)
    requires Inv(w) && Enabled(w, RecoverFreeStep(c, newSub))
    ensures var r := Apply(w, RecoverFreeStep(c, newSub)).db;
            && (o in w.db.payments ==> o in r.payments && r.payments[o] == w.db.payments[o])
            && (o !in w.db.payments && o in r.payments ==> o.FreeOrder?)
  {
    hide Inv, BillingInvariant.LedgerInv, RecoverFree, SaveOrder;
    BillingSafety.LedgerOf(w);
    RecoverFreeIsSaveOrder(w.db, c, w.now, newSub);
    SaveFreeElsewhere(w, c, newSub, o);
  }

  lemma SettleElsewhere(w: World, e: Report, newSub: SubId, o: OrderId)
    requires Enabled(w, SettleStep(e, newSub)) && e.order != o
    ensures var r := Apply(w, SettleStep(e, newSub)).db;
            && (o in w.db.payments ==> o in r.payments && r.payments[o] == w.db.payments[o])
            && (o in r.payments ==> o in w.db.payments)
  {
    if MatchesOrder(w.db.payments[e.order], e) {
      BillingSafety.SettleFrame(w.db, e, w.now, newSub);
    }
  }

  lemma ReconcileElsewhere(w: World, p: OrderId, paid: Payment, listed: nat, expected: Option<RefundId>, o: OrderId)
    requires Enabled(w, ReconcileStep(p, paid, listed, expected)) && o != p
    ensures var r := Apply(w, ReconcileStep(p, paid, listed, expected)).db;
            && (o in w.db.payments ==> o in r.payments && r.payments[o] == w.db.payments[o])
            && (o in r.payments ==> o in w.db.payments)
  {
    RecordTotalFrame(w.db, p, paid, Total(ProcessedOf(w, paid.gatewayId.value)[..listed]), w.now);
  }

  // The row itself

  /** Neither a report about the order nor a balance for it. */
  predicate Elsewhere(step: Step, o: OrderId) {
    !(step.SettleStep? && step.report.order == o) && !(step.ReconcileStep? && step.o == o)
  }

  /** A row changes only by a report about its order or a balance recorded for it. */
  lemma OtherRow(w: World, step: Step, o: OrderId)
    requires Inv(w) && Enabled(w, step) && o in w.db.payments && Elsewhere(step, o)
    ensures o in Apply(w, step).db.payments && Apply(w, step).db.payments[o] == w.db.payments[o]
  {
    hide Inv, Enabled, Apply;
    match step
    case SaveOrderStep(c, p, newSub) => SaveOrderRow(w, c, p, newSub, o);
    case RecoverStep(p) => RecoverRow(w, p, o);
    case RecoverFreeStep(c, newSub) => RecoverFreeRow(w, c, newSub, o);
    case SettleStep(e, newSub) => SettleElsewhere(w, e, newSub, o);
    case ReconcileStep(p, paid, listed, expected) => ReconcileElsewhere(w, p, paid, listed, expected, o);
    case _ => QuietStep(w, step);
  }

  /** A payment row of a provider order that is not there before is unpaid when it is there after. */
  predicate BeginsUnpaid(before: Ledger, after: Ledger, o: OrderId) {
    o !in before.payments && o in after.payments && o.GatewayOrder? ==> JustCreated(after.payments[o])
  }

  lemma NewRow(w: World, step: Step, o: OrderId)
    requires Inv(w) && Enabled(w, step)
    ensures BeginsUnpaid(w.db, Apply(w, step).db, o)
  {
    hide Inv, Enabled, Apply, JustCreated, MatchesOrder, SettleRow, CanReconcile, Settled, BillingInvariant.SameCharge;
    match step
    case SaveOrderStep(c, p, newSub) => SaveOrderRow(w, c, p, newSub, o);
    case RecoverStep(p) => RecoverRow(w, p, o);
    case RecoverFreeStep(c, newSub) => RecoverFreeRow(w, c, newSub, o);
    case SettleStep(e, newSub) => SettledRow(w, e, newSub, o);
    case ReconcileStep(p, paid, listed, expected) =>
      ReconciledRow(w, p, paid, listed, expected);
      if p != o {
        ReconcileElsewhere(w, p, paid, listed, expected, o);
      }
    case _ => QuietStep(w, step);
  }

  /** What a reconciliation adds up. */
  function Listed(w: World, paid: Payment, listed: nat): nat
    requires paid.gatewayId.Some? && listed <= |ProcessedOf(w, paid.gatewayId.value)|
  {
    Total(ProcessedOf(w, paid.gatewayId.value)[..listed])
  }

  /** The row after a balance was recorded. */
  lemma ReconciledRow(w: World, o: OrderId, paid: Payment, listed: nat, expected: Option<RefundId>)
    requires Inv(w) && Enabled(w, ReconcileStep(o, paid, listed, expected))
    ensures o in w.db.payments && CanReconcile(w, o, paid, listed, expected)
    ensures o in Apply(w, ReconcileStep(o, paid, listed, expected)).db.payments
    ensures var p, q := w.db.payments[o], Apply(w, ReconcileStep(o, paid, listed, expected)).db.payments[o];
            var amount := Max(Listed(w, paid, listed), p.refunded);
            && (amount == 0 ==> q == p)
            && (amount > 0 ==> q == p.(refunded := amount, status := q.status) && Settled(q) && q.status != PCaptured)
  {
    hide Inv, RevokeAccess;
    var amount := Max(Listed(w, paid, listed), w.db.payments[o].refunded);
    RecordTotalFrame(w.db, o, paid, Listed(w, paid, listed), w.now);
    if amount > 0 {
      var q := w.db.payments[o].(refunded := amount, status := if amount == paid.amount then PRefunded else PPartiallyRefunded);
      RevokeFrame(w.db.(payments := w.db.payments[o := q]), paid, w.now);
    }
  }

  /** The row after a report about its order. */
  lemma SettledRow(w: World, e: Report, newSub: SubId, o: OrderId)
    requires Enabled(w, SettleStep(e, newSub))
    ensures e.order in w.db.payments && e.order in Apply(w, SettleStep(e, newSub)).db.payments
    ensures o in Apply(w, SettleStep(e, newSub)).db.payments <==> o in w.db.payments
    ensures var p, q := w.db.payments[e.order], Apply(w, SettleStep(e, newSub)).db.payments[e.order];
            && (!MatchesOrder(p, e) ==> q == p)
            && (MatchesOrder(p, e) ==> BillingInvariant.SameCharge(SettleRow(p, e, w.now), q))
  {
    if MatchesOrder(w.db.payments[e.order], e) {
      BillingSafety.SettleFrame(w.db, e, w.now, newSub);
    }
  }
}
