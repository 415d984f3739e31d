/** What a checkout shows: over every run it follows its payment, and what ends it. */
module BillingMirror {
  import opened BillingTypes
  import opened BillingSteps
  import opened BillingWorld
  import BillingPrices
  import BillingRows
  import BillingRuns
  import BillingSafety

  /** What a checkout shows of a payment of which nothing was returned. */
  predicate Mirrors(shown: CheckoutStatus, status: PaymentStatus) {
    match status
    case PCreated => shown == Ready || shown == Created
    case PAuthorized => shown == Authorized
    case PFailed => shown == Failed
    case PCaptured => shown == Captured
    case _ => true
  }

  ghost predicate Mirrored(checkouts: map<CheckoutId, Checkout>, payments: map<OrderId, Payment>) {
    forall o :: o in payments && payments[o].checkout.Some? && payments[o].checkout.value in checkouts ==>
      Mirrors(checkouts[payments[o].checkout.value].status, payments[o].status)
  }

  // Tables

  /** A checkout without a payment is no payment's. */
  lemma UnpaidRowKeeps(checkouts: map<CheckoutId, Checkout>, payments: map<OrderId, Payment>, c: CheckoutId, row: Checkout)
    requires BillingInvariant.Links(checkouts, payments) && Mirrored(checkouts, payments)
    requires c in checkouts ==> checkouts[c].payment.None?
    ensures Mirrored(checkouts[c := row], payments)
  {
    forall o | o in payments && payments[o].checkout.Some?
      ensures payments[o].checkout.value != c
    {
    }
  }

  /** A payment and its checkout move together. */
  lemma PairKeeps(checkouts: map<CheckoutId, Checkout>, payments: map<OrderId, Payment>, o: OrderId, q: Payment, c: CheckoutId, row: Checkout)
    requires BillingInvariant.Links(checkouts, payments) && Mirrored(checkouts, payments)
    requires q.checkout == Some(c) && Mirrors(row.status, q.status)
    requires c in checkouts && (checkouts[c].payment.None? || checkouts[c].payment == Some(o))
    requires o in payments ==> payments[o].checkout == Some(c)
    ensures Mirrored(checkouts[c := row], payments[o := q])
  {
    forall p | p in payments && p != o && payments[p].checkout.Some?
      ensures payments[p].checkout.value != c
    {
    }
  }

  /** A payment alone moves to a status its checkout shows already, or of which nothing is said. */
  lemma PaymentKeeps(checkouts: map<CheckoutId, Checkout>, payments: map<OrderId, Payment>, o: OrderId, q: Payment)
    requires Mirrored(checkouts, payments) && o in payments && q.checkout == payments[o].checkout
    requires q.status == payments[o].status || q.status == PRefunded || q.status == PPartiallyRefunded
    ensures Mirrored(checkouts, payments[o := q])
  {
  }

  lemma MirrorStatusMirrors(status: PaymentStatus, created: CheckoutStatus)
    requires created == Ready || created == Created
    ensures Mirrors(MirrorStatus(status, created), status)
  {
  }

  // Transactions

  lemma AttachMirrors(db: Ledger, c: CheckoutId, o: OrderId, now: Time)
    requires BillingPreservation.Attachable(db, c, o) && BillingInvariant.Links(db.checkouts, db.payments)
    requires Mirrored(db.checkouts, db.payments)
    ensures var r := Attach(db, c, o, now); Mirrored(r.checkouts, r.payments)
  {
    hide Mirrored, Mirrors, MirrorStatus, BillingInvariant.Links;
    var row := db.checkouts[c];
    var saved := if o in db.payments then db.payments[o] else NewPayment(row, c, now);
    LinkedBack(db, o);
    MirrorStatusMirrors(saved.status, Ready);
    PairKeeps(db.checkouts, db.payments, o, saved, c, row.(status := MirrorStatus(saved.status, Ready), payment := Some(o)));
  }

  lemma LinkedBack(db: Ledger, o: OrderId)
    requires BillingInvariant.Links(db.checkouts, db.payments)
    ensures o in db.payments && db.payments[o].checkout.Some? ==>
      db.payments[o].checkout.value in db.checkouts && db.checkouts[db.payments[o].checkout.value].payment == Some(o)
  {
  }

  lemma SettleMirrors(db: Ledger, e: Report, now: Time, newSub: SubId)
    requires e.order in db.payments && BillingInvariant.Links(db.checkouts, db.payments) && Mirrored(db.checkouts, db.payments)
    ensures var r := Settle(db, e, now, newSub); Mirrored(r.checkouts, r.payments)
  {
    hide Mirrored, Mirrors, MirrorStatus, Activate, SettleRow, Settled, MatchesOrder, BillingInvariant.Granted;
    var o := e.order;
    var p, q := db.payments[o], SettleRow(db.payments[o], e, now);
    SettleRowKeeps(p, e, now);
    if !MatchesOrder(p, e) {
    } else if Settled(p) {
      PaymentKeeps(db.checkouts, db.payments, o, q);
    } else {
      var updated := db.(payments := db.payments[o := q]);
      var granted := updated;
      if e.status == RCaptured {
        granted := Activate(updated, o, now, newSub);
        BillingInvariant.ActivateFrame(updated, o, now, newSub);
        GrantedRow(updated, granted, o);
      }
      MirrorsAfter(db, o, granted);
    }
  }

  lemma GrantedRow(db: Ledger, r: Ledger, o: OrderId)
    requires o in db.payments && o in r.payments && BillingInvariant.Granted(db, r, o)
    ensures r.checkouts == db.checkouts && r.payments == db.payments[o := r.payments[o]]
    ensures r.payments[o].checkout == db.payments[o].checkout
  {
  }

  lemma SettleRowKeeps(p: Payment, e: Report, now: Time)
    ensures var q := SettleRow(p, e, now); q.checkout == p.checkout && (Settled(p) ==> q.status == p.status)
  {
  }

  lemma MirrorsAfter(db: Ledger, o: OrderId, granted: Ledger)
    requires o in db.payments && BillingInvariant.Links(db.checkouts, db.payments) && Mirrored(db.checkouts, db.payments)
    requires o in granted.payments && granted.checkouts == db.checkouts && granted.payments == db.payments[o := granted.payments[o]]
    requires granted.payments[o].checkout == db.payments[o].checkout
    ensures var r := MirrorCheckout(granted, o); Mirrored(r.checkouts, r.payments)
  {
    hide MirrorStatus;
    var q := granted.payments[o];
    MirrorStatusMirrors(q.status, Created);
    if q.checkout.Some? && q.checkout.value in db.checkouts {
      var c := q.checkout.value;
      PairKeeps(db.checkouts, db.payments, o, q, c, db.checkouts[c].(status := MirrorStatus(q.status, Created)));
    }
  }

  lemma BalanceMirrors(db: Ledger, o: OrderId, paid: Payment, total: nat, now: Time)
    requires o in db.payments && Mirrored(db.checkouts, db.payments)
    ensures var r := RecordTotal(db, o, paid, total, now); Mirrored(r.checkouts, r.payments)
  {
    hide Mirrored, RevokeAccess;
    var p := db.payments[o];
    var amount := Max(total, p.refunded);
    var q := p.(refunded := amount, status := if amount == paid.amount then PRefunded else PPartiallyRefunded);
    PaymentKeeps(db.checkouts, db.payments, o, q);
    BillingPreservation.RevokeFrame(db.(payments := db.payments[o := q]), paid, now);
  }

  lemma FreeAgainMirrors(w: World, c: CheckoutId, newSub: SubId)
    requires Inv(w) && c in w.db.checkouts && w.db.checkouts[c].amount == 0 && FreeOrder(c) in w.db.payments
    requires Mirrored(w.db.checkouts, w.db.payments)
    ensures var r := SaveOrder(w.db, c, FreeOrder(c), w.now, newSub); Mirrored(r.checkouts, r.payments)
  {
    hide SaveOrder, Mirrored, Inv, BillingInvariant.LedgerInv, BillingInvariant.Links;
    var o := FreeOrder(c);
    BillingSafety.LedgerOf(w);
    LinksOf(w);
    FreeIsOwn(w, c);
    BillingPreservation.SaveFreeAgain(w.db, c, w.now, newSub);
    assert w.db.payments == w.db.payments[o := w.db.payments[o]];
    PairKeeps(w.db.checkouts, w.db.payments, o, w.db.payments[o], c, w.db.checkouts[c].(status := Captured, payment := Some(o)));
  }

  lemma FreeFirstMirrors(w: World, c: CheckoutId, newSub: SubId)
    requires Inv(w) && c in w.db.checkouts && w.db.checkouts[c].amount == 0 && newSub !in w.db.subscriptions && FreeOrder(c) !in w.db.payments
    requires Mirrored(w.db.checkouts, w.db.payments)
    ensures var r := SaveOrder(w.db, c, FreeOrder(c), w.now, newSub); Mirrored(r.checkouts, r.payments)
  {
    hide SaveOrder, Mirrored, Inv, BillingInvariant.Links, NewPayment, BillingInvariant.SameCharge;
    var o := FreeOrder(c);
    LinksOf(w);
    FreeIsOwn(w, c);
    LedgerForFree(w);
    BillingPreservation.FreeGranted(w.db, c, w.now, newSub);
    var q := SaveOrder(w.db, c, o, w.now, newSub).payments[o];
    FirstIsCaptured(w.db.checkouts[c], c, w.now, q);
    PairKeeps(w.db.checkouts, w.db.payments, o, q, c, w.db.checkouts[c].(status := Captured, payment := Some(o)));
  }

  lemma LedgerForFree(w: World)
    requires Inv(w)
    ensures BillingInvariant.OneLive(w.db.subscriptions) && BillingInvariant.Purchases(w.db.subscriptions, w.db.payments)
    ensures BillingInvariant.Dated(w.db.payments, w.now)
  {
  }

  /** A free order is captured and its checkout shows it. */
  lemma FreeMirrors(w: World, c: CheckoutId, newSub: SubId)
    requires Inv(w) && c in w.db.checkouts && w.db.checkouts[c].amount == 0 && newSub !in w.db.subscriptions
    requires Mirrored(w.db.checkouts, w.db.payments)
    ensures var r := SaveOrder(w.db, c, FreeOrder(c), w.now, newSub); Mirrored(r.checkouts, r.payments)
  {
    hide SaveOrder, Mirrored, Inv;
    if FreeOrder(c) in w.db.payments {
      FreeAgainMirrors(w, c, newSub);
    } else {
      FreeFirstMirrors(w, c, newSub);
    }
  }

  lemma FirstIsCaptured(row: Checkout, c: CheckoutId, now: Time, q: Payment)
    requires row.amount == 0 && BillingInvariant.SameCharge(NewPayment(row, c, now), q)
    ensures q.status == PCaptured && q.checkout == Some(c)
  {
  }

  lemma FreeIsOwn(w: World, c: CheckoutId)
    requires Inv(w) && c in w.db.checkouts && w.db.checkouts[c].amount == 0
    ensures w.db.checkouts[c].payment.None? || w.db.checkouts[c].payment == Some(FreeOrder(c))
    ensures FreeOrder(c) in w.db.payments ==> w.db.payments[FreeOrder(c)].checkout == Some(c) && w.db.payments[FreeOrder(c)].status == PCaptured
  {
    assert BillingInvariant.FreeRows(w.db.checkouts, w.db.payments);
  }

  lemma LinksOf(w: World)
    requires Inv(w)
    ensures BillingInvariant.Links(w.db.checkouts, w.db.payments)
  {
  }

  // Steps and runs

  ghost predicate StepMirrors(w: World, step: Step)
    requires Enabled(w, step)
  {
    Mirrored(Apply(w, step).db.checkouts, Apply(w, step).db.payments)
  }

  lemma ReserveMirrors(w: World, input: OrderInput, configured: bool, c: CheckoutId)
    requires Inv(w) && Enabled(w, ReserveStep(input, configured, c)) && Mirrored(w.db.checkouts, w.db.payments)
    ensures StepMirrors(w, ReserveStep(input, configured, c))
  {
    hide Inv, Reserve, Mirrored, BillingInvariant.Links;
    LinksOf(w);
    UnpaidRowKeeps(w.db.checkouts, w.db.payments, c, Reserve(w.db, input, w.now, configured).row);
  }

  lemma FailedMirrors(db: Ledger, c: CheckoutId, rejection: bool)
    requires BillingInvariant.Links(db.checkouts, db.payments) && Mirrored(db.checkouts, db.payments) && c in db.checkouts
    ensures var r := OrderFailed(db, c, rejection); Mirrored(r.checkouts, r.payments)
    ensures var r := Release(db, c); Mirrored(r.checkouts, r.payments)
  {
    hide Mirrored, BillingInvariant.Links;
    if db.checkouts[c].payment.None? {
      UnpaidRowKeeps(db.checkouts, db.payments, c, db.checkouts[c].(status := if rejection then Failed else Unknown));
      UnpaidRowKeeps(db.checkouts, db.payments, c, db.checkouts[c].(status := Failed));
    }
  }

  lemma FailureMirrors(w: World, c: CheckoutId, rejection: bool)
    requires Inv(w) && Enabled(w, OrderFailedStep(c, rejection)) && Mirrored(w.db.checkouts, w.db.payments)
    ensures StepMirrors(w, OrderFailedStep(c, rejection))
  {
    hide Inv, Mirrored, BillingInvariant.Links, OrderFailed, Release;
    LinksOf(w);
    FailedMirrors(w.db, c, rejection);
  }

  lemma ReleaseMirrors(w: World, c: CheckoutId)
    requires Inv(w) && Enabled(w, ReleaseStep(c)) && Mirrored(w.db.checkouts, w.db.payments)
    ensures StepMirrors(w, ReleaseStep(c))
  {
    hide Inv, Mirrored, BillingInvariant.Links, OrderFailed, Release;
    LinksOf(w);
    FailedMirrors(w.db, c, true);
  }

  lemma SaveMirrors(w: World, c: CheckoutId, o: OrderId, newSub: SubId)
    requires Inv(w) && Enabled(w, SaveOrderStep(c, o, newSub)) && Mirrored(w.db.checkouts, w.db.payments)
    ensures StepMirrors(w, SaveOrderStep(c, o, newSub))
  {
    hide Inv, Mirrored, BillingInvariant.Links, Attach, BillingPreservation.Attachable;
    LinksOf(w);
    if w.db.checkouts[c].amount == 0 {
      FreeMirrors(w, c, newSub);
    } else {
      BillingSafety.ProviderOrderAttaches(w, o);
      AttachMirrors(w.db, c, o, w.now);
    }
  }

  lemma RecoverMirrors(w: World, o: OrderId)
    requires Inv(w) && Enabled(w, RecoverStep(o)) && Mirrored(w.db.checkouts, w.db.payments)
    ensures StepMirrors(w, RecoverStep(o))
  {
    hide Inv, Mirrored, BillingInvariant.Links, Attach, BillingPreservation.Attachable;
    LinksOf(w);
    BillingSafety.ProviderOrderAttaches(w, o);
    AttachMirrors(w.db, w.orders[o].checkout, o, w.now);
  }

  lemma RecoverFreeMirrors(w: World, c: CheckoutId, newSub: SubId)
    requires Inv(w) && Enabled(w, RecoverFreeStep(c, newSub)) && Mirrored(w.db.checkouts, w.db.payments)
    ensures StepMirrors(w, RecoverFreeStep(c, newSub))
  {
    hide Inv, BillingInvariant.LedgerInv, Mirrored, SaveOrder, RecoverFree;
    BillingSafety.LedgerOf(w);
    BillingPreservation.RecoverFreeIsSaveOrder(w.db, c, w.now, newSub);
    FreeMirrors(w, c, newSub);
  }

  lemma ReportMirrors(w: World, e: Report, newSub: SubId)
    requires Inv(w) && Enabled(w, SettleStep(e, newSub)) && Mirrored(w.db.checkouts, w.db.payments)
    ensures StepMirrors(w, SettleStep(e, newSub))
  {
    hide Inv, Mirrored, Settle, BillingInvariant.Links;
    LinksOf(w);
    SettleMirrors(w.db, e, w.now, newSub);
  }

  lemma ReconcileMirrors(w: World, o: OrderId, paid: Payment, listed: nat, expected: Option<RefundId>)
    requires Enabled(w, ReconcileStep(o, paid, listed, expected)) && Mirrored(w.db.checkouts, w.db.payments)
    ensures StepMirrors(w, ReconcileStep(o, paid, listed, expected))
  {
    hide Mirrored, RecordTotal;
    BalanceMirrors(w.db, o, paid, Total(ProcessedOf(w, paid.gatewayId.value)[..listed]), w.now);
  }

  lemma QuietMirrors(w: World, step: Step)
    requires Enabled(w, step) && Mirrored(w.db.checkouts, w.db.payments)
    requires BillingRows.IsOutside(step) || BillingRows.WritesRefunds(step) || BillingRows.WritesSubscriptions(step)
    ensures StepMirrors(w, step)
  {
    hide Mirrored, Enabled, Apply;
    if BillingRows.IsOutside(step) {
      BillingRows.OutsideWritesNothing(w, step);
    } else if BillingRows.WritesRefunds(step) {
      BillingRows.RefundsFrame(w, step);
    } else {
      BillingRows.SubscriptionsFrame(w, step);
    }
  }

  lemma StepKeepsMirrored(w: World, step: Step)
    requires Inv(w) && Enabled(w, step) && Mirrored(w.db.checkouts, w.db.payments)
    ensures StepMirrors(w, step)
  {
    hide Inv, Enabled, Apply, Mirrored, StepMirrors;
    match step
    case ReserveStep(input, configured, c) => ReserveMirrors(w, input, configured, c);
    case OrderFailedStep(c, rejection) => FailureMirrors(w, c, rejection);
    case ReleaseStep(c) => ReleaseMirrors(w, c);
    case SaveOrderStep(c, o, newSub) => SaveMirrors(w, c, o, newSub);
    case RecoverStep(o) => RecoverMirrors(w, o);
    case RecoverFreeStep(c, newSub) => RecoverFreeMirrors(w, c, newSub);
    case SettleStep(e, newSub) => ReportMirrors(w, e, newSub);
    case ReconcileStep(o, paid, listed, expected) => ReconcileMirrors(w, o, paid, listed, expected);
    case _ => QuietMirrors(w, step);
  }

  lemma {:induction false} RunKeepsMirrored(w: World, run: seq<Step>)
    requires Inv(w) && CanRun(w, run) && Mirrored(w.db.checkouts, w.db.payments)
    ensures Mirrored(Run(w, run).db.checkouts, Run(w, run).db.payments)
    decreases |run|
  {
    hide Inv, Enabled, Apply, Mirrored;
    if run != [] {
      BillingSafety.StepKeepsInv(w, run[0]);
      StepKeepsMirrored(w, run[0]);
      RunKeepsMirrored(Apply(w, run[0]), run[1..]);
    }
  }

  lemma NothingMirrored(start: World)
    requires Init(start)
    ensures Mirrored(start.db.checkouts, start.db.payments)
  {
  }

  /** In every reachable state a checkout shows what its payment is, as long as nothing of it was returned:
      ready or created while it is new, authorized, failed, captured. */
  lemma CheckoutShowsPayment(w: World, o: OrderId)
    requires BillingRuns.Reachable(w) && o in w.db.payments
    ensures w.db.payments[o].checkout.Some? && w.db.payments[o].checkout.value in w.db.checkouts
    ensures Mirrors(w.db.checkouts[w.db.payments[o].checkout.value].status, w.db.payments[o].status)
  {
    hide Inv, CanRun, Run, Init, Mirrors;
    var start: World, run: seq<Step> :| Init(start) && CanRun(start, run) && Run(start, run) == w;
    InitHasInv(start);
    NothingMirrored(start);
    RunKeepsMirrored(start, run);
    BillingPrices.PaymentIsPriced(w, o);
  }

  // What ends a checkout that has no payment

  /** A definite rejection, or an empty lookup of an order that was never saved, gives the user free to
      order again; a failure that leaves doubt keeps the checkout open. */
  lemma FailureCloses(w: World, c: CheckoutId, rejection: bool)
    requires Enabled(w, OrderFailedStep(c, rejection)) && w.db.checkouts[c].payment.None? && w.db.checkouts[c].status == Creating
    ensures var v := Apply(w, OrderFailedStep(c, rejection));
            c in v.db.checkouts && v.db.checkouts[c].payment.None? && (Open(v.db.checkouts[c]) <==> !rejection)
  {
  }

  lemma ReleaseCloses(w: World, c: CheckoutId)
    requires Enabled(w, ReleaseStep(c))
    ensures var v := Apply(w, ReleaseStep(c));
            && c in v.db.checkouts && v.db.checkouts[c].payment == w.db.checkouts[c].payment
            && (w.db.checkouts[c].payment.None? ==> !Open(v.db.checkouts[c]))
            && (w.db.checkouts[c].payment.Some? ==> v.db == w.db)
  {
  }

  // What a saved order and a report write

  /** A saved order gets a payment of what its checkout ordered, new and dated now, unless it has one. */
  lemma SavedOrderIs(w: World, c: CheckoutId, o: OrderId, newSub: SubId)
    requires Enabled(w, SaveOrderStep(c, o, newSub)) && w.db.checkouts[c].amount > 0
    ensures var v, row := Apply(w, SaveOrderStep(c, o, newSub)), w.db.checkouts[c];
            && c in v.db.checkouts && v.db.checkouts[c].payment == Some(o) && o in v.db.payments
            && v.db.payments[o] == if o in w.db.payments then w.db.payments[o]
               else Payment(row.user, row.plan, row.cycle, row.amount, row.currency, PCreated, None, 0, None, Some(c), row.coupon,
                            None, NotFulfilled, {}, None, w.now)
  {
  }

  /** An unsettled payment takes its charge from the report that authorizes or captures it, and a report
      of a failure takes back no authorization. A settled one keeps its charge and counts another that
      was captured for review. */
  lemma ReportIsTaken(w: World, e: Report, newSub: SubId)
    requires Enabled(w, SettleStep(e, newSub))
    requires e.amount == w.db.payments[e.order].amount && e.currency == w.db.payments[e.order].currency
    ensures e.order in Apply(w, SettleStep(e, newSub)).db.payments
    ensures var p, q := w.db.payments[e.order], Apply(w, SettleStep(e, newSub)).db.payments[e.order];
            if p.status in {PCaptured, PRefunded, PPartiallyRefunded} then
              && q.status == p.status && q.gatewayId == p.gatewayId
              && (if e.status == RCaptured && p.gatewayId != Some(e.id)
                  then q.duplicates == p.duplicates + {e.id} && q.fulfillment == ReviewRequired else q == p)
            else match e.status
              case RCaptured => q.status == PCaptured && q.gatewayId == Some(e.id)
              case RAuthorized => q.status == PAuthorized && q.gatewayId == Some(e.id)
              case RFailed => q.gatewayId == p.gatewayId && q.status == (if p.status == PAuthorized then PAuthorized else PFailed)
              case ROther => q.gatewayId == p.gatewayId && q.status == p.status
  {
    hide Settle, SettleRow;
    SettledAs(w.db, e, w.now, newSub);
  }

  lemma SettledAs(db: Ledger, e: Report, now: Time, newSub: SubId)
    requires e.order in db.payments && e.amount == db.payments[e.order].amount && e.currency == db.payments[e.order].currency
    ensures e.order in Settle(db, e, now, newSub).payments
    ensures var p, q := db.payments[e.order], Settle(db, e, now, newSub).payments[e.order];
            if p.status in {PCaptured, PRefunded, PPartiallyRefunded} then
              && q.status == p.status && q.gatewayId == p.gatewayId
              && (if e.status == RCaptured && p.gatewayId != Some(e.id)
                  then q.duplicates == p.duplicates + {e.id} && q.fulfillment == ReviewRequired else q == p)
            else match e.status
              case RCaptured => q.status == PCaptured && q.gatewayId == Some(e.id)
              case RAuthorized => q.status == PAuthorized && q.gatewayId == Some(e.id)
              case RFailed => q.gatewayId == p.gatewayId && q.status == (if p.status == PAuthorized then PAuthorized else PFailed)
              case ROther => q.gatewayId == p.gatewayId && q.status == p.status
  {
    hide Activate, MirrorCheckout, BillingInvariant.Granted;
    BillingSafety.SettleFrame(db, e, now, newSub);
  }
}
