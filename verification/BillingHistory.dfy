/** What a row says later, given what it said once. Every transaction moves the tables forward in
    this order, which is why a value read before a lock is taken can still be relied on. */
module BillingHistory {
  import opened BillingTypes
  import opened BillingSteps
  import opened BillingInvariant
  import opened BillingPreservation

  /** A closed checkout never reopens, and a checkout never changes its payment. */
  ghost predicate CheckoutPast(a: Checkout, b: Checkout) {
    && SameRequest(a, b)
    && (a.payment.Some? ==> b.payment == a.payment)
    && (!Open(a) ==> !Open(b))
  }

  /** A provider reference is never replaced and PROCESSED is final. */
  ghost predicate RefundPast(a: Refund, b: Refund) {
    && b.key == a.key && b.user == a.user && b.amount == a.amount
    && (a.gatewayRefundId.Some? ==> b.gatewayRefundId == a.gatewayRefundId)
    && (a.status == Processed ==> b.status == Processed)
  }

  /** Some payment for this subscription was refunded in full. */
  ghost predicate BoughtBack(payments: map<OrderId, Payment>, s: SubId) {
    exists o :: o in payments && payments[o].subscription == Some(s) && payments[o].status == PRefunded
  }

  /** Only a full refund changes what was sold. */
  ghost predicate SubscriptionPast(a: Subscription, b: Subscription, boughtBack: bool) {
    && b.user == a.user && b.plan == a.plan && b.cycle == a.cycle && b.startedAt == a.startedAt && b.order == a.order
    && (b.periodEnd == a.periodEnd || boughtBack)
  }

  ghost predicate CheckoutsAdvance(a: map<CheckoutId, Checkout>, b: map<CheckoutId, Checkout>) {
    forall c :: c in a ==> c in b && CheckoutPast(a[c], b[c])
  }

  ghost predicate PaymentsAdvance(a: map<OrderId, Payment>, b: map<OrderId, Payment>) {
    forall o :: o in a ==> o in b && PaymentPast(a[o], b[o])
  }

  ghost predicate RefundsAdvance(a: map<OrderId, Refund>, b: map<OrderId, Refund>) {
    forall o :: o in a ==> o in b && RefundPast(a[o], b[o])
  }

  ghost predicate SubscriptionsAdvance(a: map<SubId, Subscription>, b: map<SubId, Subscription>, payments: map<OrderId, Payment>) {
    forall s :: s in a ==> s in b && SubscriptionPast(a[s], b[s], BoughtBack(payments, s))
  }

  ghost predicate CouponsAdvance(a: map<CouponId, Coupon>, b: map<CouponId, Coupon>) {
    b.Keys == a.Keys && forall k :: k in a ==> b[k] == a[k].(redeemed := b[k].redeemed) && a[k].redeemed <= b[k].redeemed
  }

  ghost predicate RedemptionsAdvance(a: map<Redemption, OrderId>, b: map<Redemption, OrderId>) {
    forall r :: r in a ==> r in b && b[r] == a[r]
  }

  ghost predicate Advance(a: Ledger, b: Ledger) {
    && b.plans == a.plans && b.periodEnd == a.periodEnd
    && CouponsAdvance(a.coupons, b.coupons)
    && RedemptionsAdvance(a.redemptions, b.redemptions)
    && CheckoutsAdvance(a.checkouts, b.checkouts)
    && PaymentsAdvance(a.payments, b.payments)
    && RefundsAdvance(a.refunds, b.refunds)
    && SubscriptionsAdvance(a.subscriptions, b.subscriptions, b.payments)
  }

  lemma SubscriptionsAdvanceTransitive(a: Ledger, b: Ledger, c: Ledger)
    requires SubscriptionsAdvance(a.subscriptions, b.subscriptions, b.payments)
    requires SubscriptionsAdvance(b.subscriptions, c.subscriptions, c.payments)
    requires PaymentsAdvance(b.payments, c.payments)
    ensures SubscriptionsAdvance(a.subscriptions, c.subscriptions, c.payments)
  {
    forall s | s in a.subscriptions
      ensures s in c.subscriptions && SubscriptionPast(a.subscriptions[s], c.subscriptions[s], BoughtBack(c.payments, s))
    {
      assert SubscriptionPast(b.subscriptions[s], c.subscriptions[s], BoughtBack(c.payments, s));
      if BoughtBack(b.payments, s) {
        var o :| o in b.payments && b.payments[o].subscription == Some(s) && b.payments[o].status == PRefunded;
        assert PaymentPast(b.payments[o], c.payments[o]);
      }
    }
  }

  lemma CheckoutsAdvanceTransitive(a: map<CheckoutId, Checkout>, b: map<CheckoutId, Checkout>, c: map<CheckoutId, Checkout>)
    requires CheckoutsAdvance(a, b) && CheckoutsAdvance(b, c)
    ensures CheckoutsAdvance(a, c)
  {
    forall k | k in a
      ensures k in c && CheckoutPast(a[k], c[k])
    {
      assert CheckoutPast(a[k], b[k]) && CheckoutPast(b[k], c[k]);
    }
  }

  lemma PaymentsAdvanceTransitive(a: map<OrderId, Payment>, b: map<OrderId, Payment>, c: map<OrderId, Payment>)
    requires PaymentsAdvance(a, b) && PaymentsAdvance(b, c)
    ensures PaymentsAdvance(a, c)
  {
    forall k | k in a
      ensures k in c && PaymentPast(a[k], c[k])
    {
      assert PaymentPast(a[k], b[k]) && PaymentPast(b[k], c[k]);
    }
  }

  lemma RefundsAdvanceTransitive(a: map<OrderId, Refund>, b: map<OrderId, Refund>, c: map<OrderId, Refund>)
    requires RefundsAdvance(a, b) && RefundsAdvance(b, c)
    ensures RefundsAdvance(a, c)
  {
    forall k | k in a
      ensures k in c && RefundPast(a[k], c[k])
    {
      assert RefundPast(a[k], b[k]) && RefundPast(b[k], c[k]);
    }
  }

  lemma AdvanceTransitive(a: Ledger, b: Ledger, c: Ledger)
    requires Advance(a, b) && Advance(b, c)
    ensures Advance(a, c)
  {
    CheckoutsAdvanceTransitive(a.checkouts, b.checkouts, c.checkouts);
    PaymentsAdvanceTransitive(a.payments, b.payments, c.payments);
    RefundsAdvanceTransitive(a.refunds, b.refunds, c.refunds);
    SubscriptionsAdvanceTransitive(a, b, c);
  }

  // One table at a time

  lemma OnlyCheckouts(a: Ledger, checkouts: map<CheckoutId, Checkout>)
    requires CheckoutsAdvance(a.checkouts, checkouts)
    ensures Advance(a, a.(checkouts := checkouts))
  {
  }

  lemma OnlySubscriptions(a: Ledger, subs: map<SubId, Subscription>)
    requires SubscriptionsAdvance(a.subscriptions, subs, a.payments)
    ensures Advance(a, a.(subscriptions := subs))
  {
  }

  lemma OneCheckout(a: Ledger, c: CheckoutId, row: Checkout)
    requires c in a.checkouts ==> CheckoutPast(a.checkouts[c], row)
    ensures Advance(a, a.(checkouts := a.checkouts[c := row]))
  {
  }

  lemma OneRefund(a: Ledger, o: OrderId, row: Refund)
    requires o in a.refunds ==> RefundPast(a.refunds[o], row)
    ensures Advance(a, a.(refunds := a.refunds[o := row]))
  {
  }

  lemma OneSubscription(a: Ledger, s: SubId, row: Subscription)
    requires s in a.subscriptions ==> SubscriptionPast(a.subscriptions[s], row, BoughtBack(a.payments, s))
    ensures Advance(a, a.(subscriptions := a.subscriptions[s := row]))
  {
  }

  lemma Unchanged(a: Ledger)
    ensures Advance(a, a)
  {
  }

  lemma OnlyPayments(a: Ledger, payments: map<OrderId, Payment>)
    requires PaymentsAdvance(a.payments, payments)
    ensures Advance(a, a.(payments := payments))
  {
  }

  // The transactions

  lemma ReserveAdvances(db: Ledger, c: CheckoutId, row: Checkout)
    requires c !in db.checkouts
    ensures Advance(db, AddCheckout(db, c, row))
  {
    hide Advance;
    OneCheckout(db, c, row);
  }

  lemma OrderFailedAdvances(db: Ledger, c: CheckoutId, rejected: bool)
    requires c in db.checkouts
    ensures Advance(db, OrderFailed(db, c, rejected))
  {
    hide Advance;
    Unchanged(db);
    var row := db.checkouts[c];
    if row.status == Creating && row.payment.None? {
      OneCheckout(db, c, row.(status := if rejected then Failed else Unknown));
    }
  }

  lemma ReleaseAdvances(db: Ledger, c: CheckoutId)
    requires c in db.checkouts
    ensures Advance(db, Release(db, c))
  {
    hide Advance;
    Unchanged(db);
    if db.checkouts[c].payment.None? {
      OneCheckout(db, c, db.checkouts[c].(status := Failed));
    }
  }

  lemma AttachAdvances(db: Ledger, c: CheckoutId, o: OrderId, now: Time)
    requires LedgerInv(db, now) && Attachable(db, c, o) && db.checkouts[c].amount > 0
    ensures Advance(db, Attach(db, c, o, now))
  {
    AttachedRow(db, c, o, now);
    AttachTables(db, c, o, now);
  }

  lemma AttachTables(db: Ledger, c: CheckoutId, o: OrderId, now: Time)
    requires c in db.checkouts && (db.checkouts[c].payment.Some? ==> db.checkouts[c].payment == Some(o))
    requires Open(Attach(db, c, o, now).checkouts[c]) ==> Open(db.checkouts[c])
    ensures Advance(db, Attach(db, c, o, now))
  {
    var r := Attach(db, c, o, now);
    OnlyPayments(db, r.payments);
    OnlyCheckouts(db.(payments := r.payments), r.checkouts);
    AdvanceTransitive(db, db.(payments := r.payments), r);
  }

  lemma GrantAdvances(db: Ledger, o: OrderId, now: Time, newSub: SubId, active: Option<SubId>)
    requires o in db.payments && (active.Some? ==> active.value in db.subscriptions) && newSub !in db.subscriptions
    requires db.payments[o].subscription.None?
    ensures Advance(db, Grant(db, o, now, newSub, active))
  {
    var r := Grant(db, o, now, newSub, active);
    OnlySubscriptions(db, r.subscriptions);
    OnlyPayments(db.(subscriptions := r.subscriptions), r.payments);
    AdvanceTransitive(db, db.(subscriptions := r.subscriptions), r);
  }

  lemma RedeemAdvances(db: Ledger, p: Payment, o: OrderId)
    ensures Advance(db, Redeem(db, p, o))
  {
    hide Redeem, PaymentPast, CheckoutPast, RefundPast, SubscriptionPast;
    RedeemFrame(db, p, o);
    RedeemOnlyAdds(db, p, o);
    Unchanged(db);
  }

  lemma OneCoupon(coupons: map<CouponId, Coupon>, k: CouponId)
    requires k in coupons
    ensures CouponsAdvance(coupons, coupons[k := coupons[k].(redeemed := coupons[k].redeemed + 1)])
  {
  }

  lemma OneRedemption(redemptions: map<Redemption, OrderId>, r: Redemption, o: OrderId)
    requires r !in redemptions
    ensures RedemptionsAdvance(redemptions, redemptions[r := o])
  {
  }

  lemma RedeemOnlyAdds(db: Ledger, p: Payment, o: OrderId)
    ensures CouponsAdvance(db.coupons, Redeem(db, p, o).coupons)
    ensures RedemptionsAdvance(db.redemptions, Redeem(db, p, o).redemptions)
  {
    if Redeem(db, p, o) != db {
      hide CouponsAdvance, RedemptionsAdvance;
      OneCoupon(db.coupons, p.coupon.value);
      OneRedemption(db.redemptions, Redemption(p.coupon.value, p.user), o);
    }
  }

  lemma ActivateAdvances(db: Ledger, o: OrderId, now: Time, newSub: SubId)
    requires o in db.payments && newSub !in db.subscriptions
    ensures Advance(db, Activate(db, o, now, newSub))
  {
    var p := db.payments[o];
    var active := ActiveOf(db.subscriptions, p.user);
    if p.subscription.Some? {
      OnlyPayments(db, db.payments);
    } else if Superseded(db, p, active) {
      OnlyPayments(db, db.payments[o := p.(fulfillment := ReviewRequired)]);
    } else {
      var granted := Grant(db, o, now, newSub, active);
      GrantAdvances(db, o, now, newSub, active);
      RedeemAdvances(granted, p, o);
      AdvanceTransitive(db, granted, Redeem(granted, p, o));
    }
  }

  lemma FreePaymentIsOwn(db: Ledger, c: CheckoutId, now: Time)
    requires LedgerInv(db, now) && c in db.checkouts && db.checkouts[c].amount == 0
    ensures db.checkouts[c].payment.Some? ==> db.checkouts[c].payment == Some(FreeOrder(c))
  {
  }

  lemma SaveFreeAdvances(db: Ledger, c: CheckoutId, now: Time, newSub: SubId)
    requires LedgerInv(db, now) && c in db.checkouts && db.checkouts[c].amount == 0 && newSub !in db.subscriptions
    ensures Advance(db, SaveOrder(db, c, FreeOrder(c), now, newSub))
  {
    hide Advance, LedgerInv, Activate;
    var o := FreeOrder(c);
    var closed := db.checkouts[c].(status := Captured, payment := Some(o));
    assert CheckoutPast(db.checkouts[c], closed) by {
      FreePaymentIsOwn(db, c, now);
    }
    OneCheckout(db, c, closed);
    if o in db.payments {
      SaveFreeAgain(db, c, now, newSub);
    } else {
      AttachFree(db, c, now);
      var saved := Attach(db, c, o, now);
      OnlyPayments(db.(checkouts := saved.checkouts), saved.payments);
      AdvanceTransitive(db, db.(checkouts := saved.checkouts), saved);
      ActivateAdvances(saved, o, now, newSub);
      AdvanceTransitive(db, saved, Activate(saved, o, now, newSub));
    }
  }

  lemma MirrorAdvances(db: Ledger, o: OrderId, c: CheckoutId)
    requires o in db.payments && c in db.checkouts && db.payments[o].checkout == Some(c) && Open(db.checkouts[c])
    ensures Advance(db, MirrorCheckout(db, o))
  {
    hide Advance;
    OneCheckout(db, c, db.checkouts[c].(status := MirrorStatus(db.payments[o].status, Created)));
  }

  lemma SettleAdvances(db: Ledger, e: Report, now: Time, newSub: SubId)
    requires Links(db.checkouts, db.payments) && ClosedIsSettled(db.checkouts, db.payments) && Balances(db.payments)
    requires e.order in db.payments && newSub !in db.subscriptions
    ensures Advance(db, Settle(db, e, now, newSub))
  {
    hide Advance, Activate, MirrorCheckout, SettleRow, Links, ClosedIsSettled;
    var o := e.order;
    var p := db.payments[o];
    Unchanged(db);
    if MatchesOrder(p, e) {
      var q := SettleRow(p, e, now);
      var updated := db.(payments := db.payments[o := q]);
      SettleRowKeeps(p, e, now);
      SettleRowIsLater(p, e, now);
      RecordAdvances(db, o, q);
      if !Settled(p) {
        if p.checkout.Some? {
          StillOpen(db, o);
        }
        GrantedAdvances(db, updated, o, e.status == RCaptured, now, newSub);
      }
    }
  }

  lemma SettleRowIsLater(p: Payment, e: Report, now: Time)
    requires Balanced(p)
    ensures PaymentPast(p, SettleRow(p, e, now))
  {
    SettleRowKeeps(p, e, now);
  }

  lemma GrantedAdvances(db: Ledger, updated: Ledger, o: OrderId, captured: bool, now: Time, newSub: SubId)
    requires o in updated.payments && newSub !in updated.subscriptions && Advance(db, updated)
    requires updated.payments[o].checkout.Some? ==>
      updated.payments[o].checkout.value in updated.checkouts && Open(updated.checkouts[updated.payments[o].checkout.value])
    ensures o in Activate(updated, o, now, newSub).payments
    ensures Advance(db, MirrorCheckout(if captured then Activate(updated, o, now, newSub) else updated, o))
  {
    hide Advance, Activate, MirrorCheckout;
    ActivateFrame(updated, o, now, newSub);
    var granted := updated;
    if captured {
      granted := Activate(updated, o, now, newSub);
      ActivateAdvances(updated, o, now, newSub);
      AdvanceTransitive(db, updated, granted);
    }
    if granted.payments[o].checkout.Some? {
      MirrorAdvances(granted, o, granted.payments[o].checkout.value);
      AdvanceTransitive(db, granted, MirrorCheckout(granted, o));
    } else {
      MirrorNothing(granted, o);
    }
  }

  lemma MirrorNothing(db: Ledger, o: OrderId)
    requires o in db.payments && db.payments[o].checkout.None?
    ensures MirrorCheckout(db, o) == db
  {
  }

  lemma RevokeAdvances(db: Ledger, o: OrderId, snapshot: Payment, now: Time)
    requires o in db.payments && db.payments[o].status == PRefunded
    requires snapshot.subscription.Some? ==> db.payments[o].subscription == snapshot.subscription
    ensures Advance(db, RevokeAccess(db, snapshot, now))
  {
    var r := RevokeAccess(db, snapshot, now);
    Unchanged(db);
    if r != db {
      var s := snapshot.subscription.value;
      assert BoughtBack(db.payments, s);
      var ended := db.subscriptions[s].(status := SCanceled, canceledAt := Some(now), periodEnd := Some(now));
      var revoked := db.(subscriptions := db.subscriptions[s := ended]);
      OneSubscription(db, s, ended);
      if r != revoked {
        var t := snapshot.previous.value;
        OneSubscription(revoked, t, revoked.subscriptions[t].(status := SActive, canceledAt := None));
        AdvanceTransitive(db, revoked, r);
      }
    }
  }

  lemma RecordAdvances(db: Ledger, o: OrderId, q: Payment)
    requires o in db.payments && PaymentPast(db.payments[o], q)
    ensures Advance(db, db.(payments := db.payments[o := q]))
  {
    OnlyPayments(db, db.payments[o := q]);
  }

  lemma RecordTotalAdvances(db: Ledger, o: OrderId, snapshot: Payment, total: nat, now: Time)
    requires o in db.payments && Balanced(db.payments[o]) && PaymentPast(snapshot, db.payments[o]) && total <= snapshot.amount
    ensures Advance(db, RecordTotal(db, o, snapshot, total, now))
  {
    var p := db.payments[o];
    var amount := Max(total, p.refunded);
    Unchanged(db);
    if amount > 0 {
      var q := p.(refunded := amount, status := if amount == snapshot.amount then PRefunded else PPartiallyRefunded);
      var recorded := db.(payments := db.payments[o := q]);
      RecordAdvances(db, o, q);
      if amount == snapshot.amount {
        RevokeAdvances(recorded, o, snapshot, now);
        AdvanceTransitive(db, recorded, RevokeAccess(recorded, snapshot, now));
      }
    }
  }

  lemma RefundStatusAdvances(db: Ledger, o: OrderId, r: Refund)
    requires o in db.refunds && RefundPast(db.refunds[o], r)
    ensures Advance(db, db.(refunds := db.refunds[o := r]))
  {
    hide Advance;
    OneRefund(db, o, r);
  }

  lemma AddRefundAdvances(db: Ledger, o: OrderId, r: Refund)
    requires o !in db.refunds
    ensures Advance(db, AddRefund(db, o, r))
  {
    hide Advance;
    OneRefund(db, o, r);
  }

  lemma MarkPastDueAdvances(db: Ledger, s: SubId, scan: Time)
    requires s in db.subscriptions
    ensures Advance(db, MarkPastDue(db, s, scan))
  {
    Unchanged(db);
    OneSubscription(db, s, db.subscriptions[s].(status := SPastDue));
  }

  lemma ExpireAdvances(db: Ledger, s: SubId, scan: Time, now: Time, newSub: SubId)
    requires s in db.subscriptions && newSub !in db.subscriptions
    ensures Advance(db, Expire(db, s, scan, now, newSub))
  {
    var r := Expire(db, s, scan, now, newSub);
    Unchanged(db);
    if r != db {
      var ended := db.subscriptions[s].(status := SExpired, canceledAt := Some(now));
      var expired := db.(subscriptions := db.subscriptions[s := ended]);
      OneSubscription(db, s, ended);
      if r != expired {
        OneSubscription(expired, newSub, r.subscriptions[newSub]);
        AdvanceTransitive(db, expired, r);
      }
    }
  }

  lemma ScheduleChangeAdvances(db: Ledger, user: UserId, cancel: bool, now: Time)
    requires ScheduleChange(db, user, cancel, now).Some?
    ensures Advance(db, ScheduleChange(db, user, cancel, now).value)
  {
    OnlySubscriptions(db, ScheduleChange(db, user, cancel, now).value.subscriptions);
  }
}
