/** Every transaction of the billing service keeps the ledger invariant. */
module BillingPreservation {
  import opened BillingTypes
  import opened BillingSteps
  import opened BillingInvariant

  // Replacing one row

  /** Columns of a payment that nothing writes after its creation. */
  predicate SamePurchase(p: Payment, q: Payment) {
    q.user == p.user && q.plan == p.plan && q.cycle == p.cycle && q.amount == p.amount && q.currency == p.currency
    && q.checkout == p.checkout && q.coupon == p.coupon && q.createdAt == p.createdAt
  }

  /** Columns of a checkout that nothing writes after its creation. */
  predicate SameRequest(a: Checkout, b: Checkout) {
    b.(status := a.status, payment := a.payment) == a
  }

  lemma SwapPaymentLinks(db: Ledger, o: OrderId, q: Payment)
    requires o in db.payments && SamePurchase(db.payments[o], q)
    requires Links(db.checkouts, db.payments)
    ensures Links(db.checkouts, db.payments[o := q])
  {
  }

  lemma SwapPaymentClosed(db: Ledger, o: OrderId, q: Payment)
    requires o in db.payments && (Settled(db.payments[o]) ==> Settled(q))
    requires ClosedIsSettled(db.checkouts, db.payments)
    ensures ClosedIsSettled(db.checkouts, db.payments[o := q])
  {
  }

  lemma SwapPaymentFree(db: Ledger, o: OrderId, q: Payment)
    requires o in db.payments && o.GatewayOrder? && FreeRows(db.checkouts, db.payments)
    ensures FreeRows(db.checkouts, db.payments[o := q])
  {
  }

  lemma SwapPaymentRefunds(db: Ledger, o: OrderId, q: Payment)
    requires o in db.payments && (Settled(db.payments[o]) ==> Settled(q)) && db.payments[o].refunded <= q.refunded
    requires db.payments[o].gatewayId.Some? ==> q.gatewayId.Some?
    requires RefundRows(db.refunds, db.payments)
    ensures RefundRows(db.refunds, db.payments[o := q])
  {
  }

  lemma SwapPaymentPurchases(subs: map<SubId, Subscription>, payments: map<OrderId, Payment>, o: OrderId, q: Payment)
    requires o in payments && q.subscription == payments[o].subscription && q.user == payments[o].user
    requires Purchases(subs, payments)
    ensures Purchases(subs, payments[o := q])
  {
  }

  lemma SwapPayment(db: Ledger, o: OrderId, q: Payment, now: Time)
    requires LedgerInv(db, now) && o in db.payments && o.GatewayOrder?
    requires SamePurchase(db.payments[o], q) && q.subscription == db.payments[o].subscription
    requires (Settled(db.payments[o]) ==> Settled(q)) && (db.payments[o].gatewayId.Some? ==> q.gatewayId.Some?)
    requires db.payments[o].refunded <= q.refunded && Balanced(q)
    ensures LedgerInv(db.(payments := db.payments[o := q]), now)
  {
    SwapPaymentLinks(db, o, q);
    SwapPaymentClosed(db, o, q);
    SwapPaymentFree(db, o, q);
    SwapPaymentRefunds(db, o, q);
    SwapPaymentPurchases(db.subscriptions, db.payments, o, q);
  }

  lemma SwapCheckoutLinks(checkouts: map<CheckoutId, Checkout>, payments: map<OrderId, Payment>, c: CheckoutId, row: Checkout)
    requires c in checkouts && SameRequest(checkouts[c], row) && row.payment == checkouts[c].payment
    requires Links(checkouts, payments)
    ensures Links(checkouts[c := row], payments)
  {
  }

  lemma SwapCheckoutUnique(checkouts: map<CheckoutId, Checkout>, c: CheckoutId, row: Checkout)
    requires c in checkouts && SameRequest(checkouts[c], row) && (Open(row) ==> Open(checkouts[c]))
    requires OneOpen(checkouts) && OneKey(checkouts)
    ensures OneOpen(checkouts[c := row]) && OneKey(checkouts[c := row])
  {
  }

  lemma SwapCheckoutRows(checkouts: map<CheckoutId, Checkout>, payments: map<OrderId, Payment>, c: CheckoutId, row: Checkout)
    requires c in checkouts && SameRequest(checkouts[c], row) && row.payment == checkouts[c].payment
    requires ClosedIsSettled(checkouts, payments) && FreeRows(checkouts, payments)
    requires !Open(row) && row.payment.Some? ==> row.payment.value in payments && Settled(payments[row.payment.value])
    requires row.amount == 0 && row.payment.None? ==> row.status == Creating
    ensures ClosedIsSettled(checkouts[c := row], payments) && FreeRows(checkouts[c := row], payments)
  {
  }

  lemma SwapCheckout(db: Ledger, c: CheckoutId, row: Checkout, now: Time)
    requires LedgerInv(db, now) && c in db.checkouts
    requires SameRequest(db.checkouts[c], row) && row.payment == db.checkouts[c].payment
    requires Open(row) ==> Open(db.checkouts[c])
    requires !Open(row) && row.payment.Some? ==> row.payment.value in db.payments && Settled(db.payments[row.payment.value])
    requires row.amount == 0 && row.payment.None? ==> row.status == Creating
    ensures LedgerInv(db.(checkouts := db.checkouts[c := row]), now)
  {
    SwapCheckoutLinks(db.checkouts, db.payments, c, row);
    SwapCheckoutUnique(db.checkouts, c, row);
    SwapCheckoutRows(db.checkouts, db.payments, c, row);
    HoldersShrink(db.coupons, db.redemptions, db.checkouts, c, row);
  }

  // Orders

  /** A new reservation takes the only open place of its user and a free place of its coupon. */
  lemma ReserveKeepsInv(db: Ledger, input: OrderInput, now: Time, configured: bool, c: CheckoutId)
    requires LedgerInv(db, now) && c !in db.checkouts
    requires Reserve(db, input, now, configured).Reserved?
    ensures LedgerInv(AddCheckout(db, c, Reserve(db, input, now, configured).row), now)
  {
    var row := Reserve(db, input, now, configured).row;
    ReservedRow(db, input, now, configured);
    AddKeepsUnique(db.checkouts, c, row);
    AddKeepsRows(db, c, row);
    AddKeepsCoupons(db, c, row);
  }

  lemma ReservedRow(db: Ledger, input: OrderInput, now: Time, configured: bool)
    requires Reserve(db, input, now, configured).Reserved?
    ensures var row := Reserve(db, input, now, configured).row;
            && row.user == input.user && row.requestKey == input.key && row.coupon == input.coupon
            && row.status == Creating && row.payment.None? && row.createdAt == now
            && (forall d :: !IsOpenOf(db.checkouts, input.user, d))
            && (forall d :: !IsKeyOf(db.checkouts, input.user, input.key, d))
            && (row.coupon.Some? ==>
                  && row.coupon.value in db.coupons
                  && var k := db.coupons[row.coupon.value];
                     k.limit.Some? ==> k.redeemed + |Holders(db.checkouts, row.coupon.value)| < k.limit.value)
  {
  }

  lemma AddKeepsUnique(checkouts: map<CheckoutId, Checkout>, c: CheckoutId, row: Checkout)
    requires OneOpen(checkouts) && OneKey(checkouts) && c !in checkouts
    requires forall d :: !IsOpenOf(checkouts, row.user, d)
    requires forall d :: !IsKeyOf(checkouts, row.user, row.requestKey, d)
    ensures OneOpen(checkouts[c := row]) && OneKey(checkouts[c := row])
  {
    forall d | d in checkouts
      ensures !(Open(checkouts[d]) && checkouts[d].user == row.user)
      ensures !(checkouts[d].user == row.user && checkouts[d].requestKey == row.requestKey)
    {
      assert !IsOpenOf(checkouts, row.user, d) && !IsKeyOf(checkouts, row.user, row.requestKey, d);
    }
  }

  lemma AddKeepsRows(db: Ledger, c: CheckoutId, row: Checkout)
    requires Links(db.checkouts, db.payments) && ClosedIsSettled(db.checkouts, db.payments) && FreeRows(db.checkouts, db.payments)
    requires c !in db.checkouts && row.status == Creating && row.payment.None?
    ensures Links(db.checkouts[c := row], db.payments) && ClosedIsSettled(db.checkouts[c := row], db.payments)
    ensures FreeRows(db.checkouts[c := row], db.payments)
  {
  }

  lemma HoldersOfAdded(checkouts: map<CheckoutId, Checkout>, c: CheckoutId, row: Checkout, k: CouponId)
    requires c !in checkouts
    ensures |Holders(checkouts[c := row], k)| == |Holders(checkouts, k)| + if row.coupon == Some(k) && Open(row) then 1 else 0
  {
    if row.coupon == Some(k) && Open(row) {
      assert Holders(checkouts[c := row], k) == Holders(checkouts, k) + {c};
    } else {
      assert Holders(checkouts[c := row], k) == Holders(checkouts, k);
    }
  }

  lemma AddKeepsCoupons(db: Ledger, c: CheckoutId, row: Checkout)
    requires CouponsWithin(db.coupons, db.redemptions, db.checkouts) && CouponRefs(db.coupons, db.checkouts, db.redemptions)
    requires c !in db.checkouts
    requires row.coupon.Some? ==>
      && row.coupon.value in db.coupons
      && (db.coupons[row.coupon.value].limit.Some? ==>
            db.coupons[row.coupon.value].redeemed + |Holders(db.checkouts, row.coupon.value)| < db.coupons[row.coupon.value].limit.value)
    ensures CouponsWithin(db.coupons, db.redemptions, db.checkouts[c := row])
    ensures CouponRefs(db.coupons, db.checkouts[c := row], db.redemptions)
  {
    hide Holders, RedemptionsOf, Open;
    forall k | k in db.coupons
      ensures CouponWithin(db.coupons, db.redemptions, db.checkouts[c := row], k)
    {
      assert CouponWithin(db.coupons, db.redemptions, db.checkouts, k);
      HoldersOfAdded(db.checkouts, c, row, k);
    }
  }

  /** Line 106 and lines 152-156 close only checkouts that have no payment and cost something. */
  lemma OrderFailedKeepsInv(db: Ledger, c: CheckoutId, rejected: bool, now: Time)
    requires LedgerInv(db, now) && c in db.checkouts && db.checkouts[c].amount > 0
    ensures LedgerInv(OrderFailed(db, c, rejected), now)
  {
    var row := db.checkouts[c];
    if row.status == Creating && row.payment.None? {
      SwapCheckout(db, c, row.(status := if rejected then Failed else Unknown), now);
    }
  }

  lemma ReleaseKeepsInv(db: Ledger, c: CheckoutId, now: Time)
    requires LedgerInv(db, now) && c in db.checkouts && db.checkouts[c].amount > 0
    ensures LedgerInv(Release(db, c), now)
  {
    var row := db.checkouts[c];
    if row.payment.None? {
      SwapCheckout(db, c, row.(status := Failed), now);
    }
  }

  /** The order belongs to the checkout and to no other, and a checkout without a payment is open. */
  ghost predicate Attachable(db: Ledger, c: CheckoutId, o: OrderId) {
    && c in db.checkouts
    && (o in db.payments ==> db.payments[o].checkout == Some(c))
    && (o !in db.payments ==> db.checkouts[c].payment.None? && Open(db.checkouts[c]))
  }

  /** What `Attach` writes into the checkout never opens it. */
  lemma AttachedRow(db: Ledger, c: CheckoutId, o: OrderId, now: Time)
    requires Links(db.checkouts, db.payments) && ClosedIsSettled(db.checkouts, db.payments) && Attachable(db, c, o)
    requires db.checkouts[c].amount > 0 || o in db.payments
    ensures var r := Attach(db, c, o, now);
            && (Open(r.checkouts[c]) ==> Open(db.checkouts[c]))
            && (!Open(r.checkouts[c]) ==> Settled(r.payments[o]))
  {
    if o in db.payments {
      assert db.checkouts[c].payment == Some(o);
    }
  }

  lemma NewLinks(checkouts: map<CheckoutId, Checkout>, payments: map<OrderId, Payment>, c: CheckoutId, row: Checkout, o: OrderId, p: Payment)
    requires Links(checkouts, payments) && c in checkouts && o !in payments && checkouts[c].payment.None?
    requires SameRequest(checkouts[c], row) && row.payment == Some(o)
    requires p.checkout == Some(c) && CopiedFrom(p, row)
    ensures Links(checkouts[c := row], payments[o := p])
  {
  }

  lemma NewPaymentPurchases(subs: map<SubId, Subscription>, payments: map<OrderId, Payment>, o: OrderId, p: Payment)
    requires Purchases(subs, payments) && o !in payments && p.subscription.None?
    ensures Purchases(subs, payments[o := p])
  {
  }

  lemma NewPaymentRefunds(refunds: map<OrderId, Refund>, payments: map<OrderId, Payment>, o: OrderId, p: Payment)
    requires RefundRows(refunds, payments) && o !in payments
    ensures RefundRows(refunds, payments[o := p])
  {
  }

  lemma NewPaymentClosed(db: Ledger, c: CheckoutId, row: Checkout, o: OrderId, p: Payment)
    requires ClosedIsSettled(db.checkouts, db.payments) && o !in db.payments && row.payment == Some(o)
    requires !Open(row) ==> Settled(p)
    ensures ClosedIsSettled(db.checkouts[c := row], db.payments[o := p])
  {
  }

  lemma NewPaymentFree(db: Ledger, c: CheckoutId, row: Checkout, o: OrderId, p: Payment)
    requires FreeRows(db.checkouts, db.payments) && row.payment == Some(o)
    requires if row.amount == 0 then
        o == FreeOrder(c) && p.checkout == Some(c) && p.amount == 0 && p.refunded == 0 && p.status == PCaptured && p.subscription.Some?
      else o.GatewayOrder?
    ensures FreeRows(db.checkouts[c := row], db.payments[o := p])
  {
  }

  lemma AttachNew(db: Ledger, c: CheckoutId, o: OrderId, now: Time)
    requires LedgerInv(db, now) && Attachable(db, c, o) && o.GatewayOrder? && db.checkouts[c].amount > 0
    requires o !in db.payments
    ensures LedgerInv(Attach(db, c, o, now), now)
  {
    hide OneLive, OneOpen, OneKey, Links, ClosedIsSettled, FreeRows, Purchases, RefundRows, CouponsWithin, CouponRefs;
    var r := Attach(db, c, o, now);
    var row, p := r.checkouts[c], r.payments[o];
    NewLinks(db.checkouts, db.payments, c, row, o, p);
    NewPaymentPurchases(db.subscriptions, db.payments, o, p);
    NewPaymentRefunds(db.refunds, db.payments, o, p);
    NewPaymentClosed(db, c, row, o, p);
    NewPaymentFree(db, c, row, o, p);
    SwapCheckoutUnique(db.checkouts, c, row);
    HoldersShrink(db.coupons, db.redemptions, db.checkouts, c, row);
  }

  /** Lines 109-113 and 124-128 for an order that costs something. */
  lemma AttachKeepsInv(db: Ledger, c: CheckoutId, o: OrderId, now: Time)
    requires LedgerInv(db, now) && Attachable(db, c, o) && o.GatewayOrder? && db.checkouts[c].amount > 0
    ensures LedgerInv(Attach(db, c, o, now), now)
  {
    AttachedRow(db, c, o, now);
    var r := Attach(db, c, o, now);
    if o in db.payments {
      assert r.payments == db.payments;
      SwapCheckout(db, c, r.checkouts[c], now);
    } else {
      AttachNew(db, c, o, now);
    }
  }

  // Free orders

  /** A payment created now is never older than another, so it is granted at once. */
  lemma NewestIsGranted(db: Ledger, o: OrderId, now: Time, newSub: SubId)
    requires o in db.payments && db.payments[o].createdAt == now && Dated(db.payments, now)
    ensures Activate(db, o, now, newSub).payments[o].subscription.Some?
  {
    ActivateFrame(db, o, now, newSub);
    var active := ActiveOf(db.subscriptions, db.payments[o].user);
    if active.Some? {
      assert !HasNewerPayment(db.payments, active.value, now);
    }
  }

  lemma FreeRowsSaved(db: Ledger, c: CheckoutId, row: Checkout, p: Payment, now: Time)
    requires LedgerInv(db, now) && c in db.checkouts && db.checkouts[c].amount == 0 && db.checkouts[c].payment.None?
    requires FreeOrder(c) !in db.payments && SameRequest(db.checkouts[c], row) && row.payment == Some(FreeOrder(c))
    requires row.status == Captured && SameCharge(NewPayment(db.checkouts[c], c, now), p) && p.subscription.Some?
    ensures var checkouts, payments := db.checkouts[c := row], db.payments[FreeOrder(c) := p];
            && Links(checkouts, payments) && ClosedIsSettled(checkouts, payments) && FreeRows(checkouts, payments)
            && RefundRows(db.refunds, payments)
  {
    var o := FreeOrder(c);
    NewLinks(db.checkouts, db.payments, c, row, o, p);
    NewPaymentRefunds(db.refunds, db.payments, o, p);
    NewPaymentClosed(db, c, row, o, p);
    NewPaymentFree(db, c, row, o, p);
  }

  lemma AttachFree(db: Ledger, c: CheckoutId, now: Time)
    requires c in db.checkouts && db.checkouts[c].amount == 0 && FreeOrder(c) !in db.payments
    ensures var row := db.checkouts[c];
            Attach(db, c, FreeOrder(c), now) ==
            db.(payments := db.payments[FreeOrder(c) := NewPayment(row, c, now)],
                checkouts := db.checkouts[c := row.(status := Captured, payment := Some(FreeOrder(c)))])
  {
  }

  /** The tables after a free order was attached and its plan granted. */
  lemma FreeOrderSaved(db: Ledger, c: CheckoutId, granted: Ledger, p: Payment, row: Checkout, now: Time)
    requires LedgerInv(db, now) && c in db.checkouts && db.checkouts[c].amount == 0 && db.checkouts[c].payment.None?
    requires FreeOrder(c) !in db.payments
    requires row == db.checkouts[c].(status := Captured, payment := Some(FreeOrder(c)))
    requires SameCharge(NewPayment(db.checkouts[c], c, now), p) && p.subscription.Some?
    requires granted.payments == db.payments[FreeOrder(c) := p] && granted.checkouts == db.checkouts[c := row]
    requires granted.refunds == db.refunds
    requires granted.coupons == Redeem(db, NewPayment(db.checkouts[c], c, now), FreeOrder(c)).coupons
    requires granted.redemptions == Redeem(db, NewPayment(db.checkouts[c], c, now), FreeOrder(c)).redemptions
    requires OneLive(granted.subscriptions) && Purchases(granted.subscriptions, granted.payments)
    ensures LedgerInv(granted, now)
  {
    hide CouponsWithin, CouponRefs, OneOpen, OneKey, Redeem;
    SwapCheckoutUnique(db.checkouts, c, row);
    FreeRowsSaved(db, c, row, p, now);
    RedeemAndClose(db, NewPayment(db.checkouts[c], c, now), FreeOrder(c), c, row);
  }

  lemma FreeGranted(db: Ledger, c: CheckoutId, now: Time, newSub: SubId)
    requires OneLive(db.subscriptions) && Purchases(db.subscriptions, db.payments) && Dated(db.payments, now)
    requires c in db.checkouts && db.checkouts[c].amount == 0
    requires FreeOrder(c) !in db.payments && newSub !in db.subscriptions
    ensures var o, r := FreeOrder(c), SaveOrder(db, c, FreeOrder(c), now, newSub);
            var first := NewPayment(db.checkouts[c], c, now);
            && o in r.payments && r.payments == db.payments[o := r.payments[o]]
            && SameCharge(first, r.payments[o]) && r.payments[o].subscription.Some?
            && r.checkouts == db.checkouts[c := db.checkouts[c].(status := Captured, payment := Some(o))]
            && r.refunds == db.refunds
            && r.coupons == Redeem(db, first, o).coupons && r.redemptions == Redeem(db, first, o).redemptions
            && OneLive(r.subscriptions) && Purchases(r.subscriptions, r.payments)
  {
    var o := FreeOrder(c);
    var saved := Attach(db, c, o, now);
    AttachFree(db, c, now);
    NewPaymentPurchases(db.subscriptions, db.payments, o, saved.payments[o]);
    ActivateKeepsSubscriptions(saved, o, now, newSub);
    ActivateFrame(saved, o, now, newSub);
    NewestIsGranted(saved, o, now, newSub);
    RedeemLocal(db, saved, saved.payments[o], o);
  }

  lemma SaveFreeNew(db: Ledger, c: CheckoutId, now: Time, newSub: SubId)
    requires LedgerInv(db, now) && c in db.checkouts && db.checkouts[c].amount == 0
    requires FreeOrder(c) !in db.payments && newSub !in db.subscriptions
    ensures LedgerInv(SaveOrder(db, c, FreeOrder(c), now, newSub), now)
  {
    FreeGranted(db, c, now, newSub);
    var r := SaveOrder(db, c, FreeOrder(c), now, newSub);
    FreeOrderSaved(db, c, r, r.payments[FreeOrder(c)], r.checkouts[c], now);
  }

  lemma SaveFreeKeepsInv(db: Ledger, c: CheckoutId, now: Time, newSub: SubId)
    requires LedgerInv(db, now) && c in db.checkouts && db.checkouts[c].amount == 0 && newSub !in db.subscriptions
    ensures LedgerInv(SaveOrder(db, c, FreeOrder(c), now, newSub), now)
  {
    var o := FreeOrder(c);
    if o in db.payments {
      SaveFreeAgain(db, c, now, newSub);
      var row := db.checkouts[c];
      SwapCheckout(db, c, row.(status := Captured, payment := Some(o)), now);
    } else {
      SaveFreeNew(db, c, now, newSub);
    }
  }

  /** Once a free order is saved, saving it again only repeats the checkout's status. */
  lemma SaveFreeAgain(db: Ledger, c: CheckoutId, now: Time, newSub: SubId)
    requires LedgerInv(db, now) && c in db.checkouts && db.checkouts[c].amount == 0 && FreeOrder(c) in db.payments
    ensures db.checkouts[c].payment == Some(FreeOrder(c))
    ensures SaveOrder(db, c, FreeOrder(c), now, newSub) ==
            db.(checkouts := db.checkouts[c := db.checkouts[c].(status := Captured, payment := Some(FreeOrder(c)))])
  {
    assert db.payments == db.payments[FreeOrder(c) := db.payments[FreeOrder(c)]];
  }

  lemma GrantIgnoresCheckouts(db: Ledger, checkouts: map<CheckoutId, Checkout>, o: OrderId, now: Time, newSub: SubId, active: Option<SubId>)
    requires o in db.payments && (active.Some? ==> active.value in db.subscriptions)
    ensures Grant(db.(checkouts := checkouts), o, now, newSub, active) == Grant(db, o, now, newSub, active).(checkouts := checkouts)
  {
  }

  lemma RedeemIgnoresCheckouts(db: Ledger, checkouts: map<CheckoutId, Checkout>, p: Payment, o: OrderId)
    ensures Redeem(db.(checkouts := checkouts), p, o) == Redeem(db, p, o).(checkouts := checkouts)
  {
    var other := db.(checkouts := checkouts);
    RedeemFrame(db, p, o);
    RedeemFrame(other, p, o);
    RedeemLocal(db, other, p, o);
  }

  lemma ActivateIgnoresCheckouts(db: Ledger, checkouts: map<CheckoutId, Checkout>, o: OrderId, now: Time, newSub: SubId)
    requires o in db.payments
    ensures Activate(db.(checkouts := checkouts), o, now, newSub) == Activate(db, o, now, newSub).(checkouts := checkouts)
  {
    var p := db.payments[o];
    var active := ActiveOf(db.subscriptions, p.user);
    if p.subscription.None? && !Superseded(db, p, active) {
      GrantIgnoresCheckouts(db, checkouts, o, now, newSub, active);
      RedeemIgnoresCheckouts(Grant(db, o, now, newSub, active), checkouts, p, o);
    }
  }

  lemma FreePaymentIsCaptured(db: Ledger, c: CheckoutId, now: Time)
    requires LedgerInv(db, now) && c in db.checkouts
    ensures FreeOrder(c) in db.payments ==> db.payments[FreeOrder(c)].status == PCaptured
  {
  }

  lemma GrantedCheckouts(db: Ledger, r: Ledger, o: OrderId)
    requires o in db.payments && o in r.payments && Granted(db, r, o)
    ensures r.checkouts == db.checkouts
  {
  }

  /** The recovery of a free checkout (lines 137-142) and the request that created it
      (lines 109-113) do the same thing, whichever comes first and however often. */
  lemma RecoverFreeIsSaveOrder(db: Ledger, c: CheckoutId, now: Time, newSub: SubId)
    requires LedgerInv(db, now) && c in db.checkouts && db.checkouts[c].amount == 0
    ensures RecoverFree(db, c, now, newSub) == SaveOrder(db, c, FreeOrder(c), now, newSub)
  {
    hide LedgerInv, Activate, Granted;
    FreePaymentIsCaptured(db, c, now);
    var o := FreeOrder(c);
    var row := db.checkouts[c];
    var saved := if o in db.payments then db.payments[o] else NewPayment(row, c, now);
    var bare := db.(payments := db.payments[o := saved]);
    var checkouts := db.checkouts[c := row.(status := Captured, payment := Some(o))];
    ActivateFrame(bare, o, now, newSub);
    GrantedCheckouts(bare, Activate(bare, o, now, newSub), o);
    ActivateIgnoresCheckouts(bare, checkouts, o, now, newSub);
    assert Attach(db, c, o, now) == bare.(checkouts := checkouts);
  }

  // Settling

  /** Reports about a charge that was taken already, and all reports but captures, change no plan. */
  lemma SettleRowKeeps(p: Payment, e: Report, now: Time)
    requires Balanced(p)
    ensures var q := SettleRow(p, e, now);
            && SamePurchase(p, q) && q.subscription == p.subscription && q.previous == p.previous
            && q.refunded == p.refunded && Balanced(q) && (Settled(p) ==> q.status == p.status)
            && (Settled(q) <==> Settled(p) || e.status == RCaptured)
            && (p.gatewayId.Some? || (!Settled(p) && e.status == RCaptured) ==> q.gatewayId.Some?)
  {
  }

  lemma SettleWithoutCapture(db: Ledger, e: Report, now: Time, newSub: SubId)
    requires LedgerInv(db, now) && e.order in db.payments && e.order.GatewayOrder?
    requires Settled(db.payments[e.order]) || e.status != RCaptured
    ensures LedgerInv(Settle(db, e, now, newSub), now)
  {
    var o := e.order;
    var p := db.payments[o];
    if MatchesOrder(p, e) {
      SettleRowKeeps(p, e, now);
      var q := SettleRow(p, e, now);
      SwapPayment(db, o, q, now);
      if !Settled(p) && p.checkout.Some? {
        var updated := db.(payments := db.payments[o := q]);
        var row := db.checkouts[p.checkout.value];
        SwapCheckout(updated, p.checkout.value, row.(status := MirrorStatus(q.status, Created)), now);
      }
    }
  }

  /** The row a first capture leaves, before its plan is granted. */
  ghost predicate FirstCapture(db: Ledger, o: OrderId, q: Payment) {
    && o in db.payments && o.GatewayOrder? && !Settled(db.payments[o])
    && q.status == PCaptured && SamePurchase(db.payments[o], q)
    && q.refunded == db.payments[o].refunded && q.subscription == db.payments[o].subscription && Balanced(q)
    && q.gatewayId.Some?
  }

  /** The checkout of a payment that was not captured is open. */
  lemma StillOpen(db: Ledger, o: OrderId)
    requires Links(db.checkouts, db.payments) && ClosedIsSettled(db.checkouts, db.payments)
    requires o in db.payments && !Settled(db.payments[o]) && db.payments[o].checkout.Some?
    ensures db.payments[o].checkout.value in db.checkouts && Open(db.checkouts[db.payments[o].checkout.value])
  {
  }

  lemma RedeemNothing(db: Ledger, p: Payment, o: OrderId)
    requires p.coupon.None?
    ensures Redeem(db, p, o) == db
  {
  }

  /** The tables after a first capture: one payment and, if it has one, its checkout. */
  lemma PaidTables(db: Ledger, o: OrderId, q: Payment, granted: Ledger)
    requires FirstCapture(db, o, q) && Links(db.checkouts, db.payments)
    requires o in granted.payments && Granted(db.(payments := db.payments[o := q]), granted, o)
    ensures var r, p, c := MirrorCheckout(granted, o), granted.payments[o], db.payments[o].checkout;
            && r.payments == db.payments[o := p] && r.refunds == db.refunds
            && r.coupons == granted.coupons && r.redemptions == granted.redemptions
            && SamePurchase(db.payments[o], p) && Settled(p) && Balanced(p) && p.refunded == db.payments[o].refunded
            && p.gatewayId.Some?
            && (c.None? ==> r.checkouts == db.checkouts)
            && (c.Some? ==>
                  && c.value in db.checkouts && db.checkouts[c.value].payment == Some(o) && CopiedFrom(p, db.checkouts[c.value])
                  && r.checkouts == db.checkouts[c.value := db.checkouts[c.value].(status := Captured)])
  {
    assert granted.payments == db.payments[o := granted.payments[o]];
  }

  lemma PaidCoupons(db: Ledger, o: OrderId, q: Payment, granted: Ledger)
    requires CouponsWithin(db.coupons, db.redemptions, db.checkouts) && CouponRefs(db.coupons, db.checkouts, db.redemptions)
    requires Links(db.checkouts, db.payments) && ClosedIsSettled(db.checkouts, db.payments) && FirstCapture(db, o, q)
    requires o in granted.payments && Granted(db.(payments := db.payments[o := q]), granted, o)
    ensures var r := MirrorCheckout(granted, o);
            CouponsWithin(r.coupons, r.redemptions, r.checkouts) && CouponRefs(r.coupons, r.checkouts, r.redemptions)
  {
    hide CouponsWithin, CouponRefs, Redeem, ClosedIsSettled, Open;
    PaidTables(db, o, q, granted);
    RedeemLocal(db, db.(payments := db.payments[o := q]), q, o);
    if q.checkout.Some? {
      var c := q.checkout.value;
      var row := db.checkouts[c].(status := Captured);
      StillOpen(db, o);
      assert !Open(row) by {
        CapturedIsClosed(row);
      }
      RedeemAndClose(db, q, o, c, row);
      HoldersShrink(db.coupons, db.redemptions, db.checkouts, c, row);
    } else {
      RedeemNothing(db, q, o);
    }
  }

  lemma CapturedIsClosed(row: Checkout)
    requires row.status == Captured
    ensures !Open(row)
  {
  }

  lemma PaidRows(db: Ledger, o: OrderId, q: Payment, granted: Ledger, now: Time)
    requires OneOpen(db.checkouts) && OneKey(db.checkouts) && Links(db.checkouts, db.payments)
    requires ClosedIsSettled(db.checkouts, db.payments) && FreeRows(db.checkouts, db.payments)
    requires Balances(db.payments) && RefundRows(db.refunds, db.payments) && Dated(db.payments, now) && FirstCapture(db, o, q)
    requires o in granted.payments && Granted(db.(payments := db.payments[o := q]), granted, o)
    ensures var r := MirrorCheckout(granted, o);
            && OneOpen(r.checkouts) && OneKey(r.checkouts) && Links(r.checkouts, r.payments)
            && ClosedIsSettled(r.checkouts, r.payments) && FreeRows(r.checkouts, r.payments)
            && Balances(r.payments) && RefundRows(r.refunds, r.payments) && Dated(r.payments, now)
  {
    hide OneOpen, OneKey, Links, ClosedIsSettled, FreeRows, RefundRows, Granted, MirrorCheckout, Open;
    PaidTables(db, o, q, granted);
    var p := granted.payments[o];
    SwapPaymentLinks(db, o, p);
    SwapPaymentClosed(db, o, p);
    SwapPaymentFree(db, o, p);
    SwapPaymentRefunds(db, o, p);
    if p.checkout.Some? {
      var c := p.checkout.value;
      var row := db.checkouts[c].(status := Captured);
      StillOpen(db, o);
      PaidCostsSomething(db, o, c);
      SwapCheckoutLinks(db.checkouts, db.payments[o := p], c, row);
      SwapCheckoutUnique(db.checkouts, c, row);
      SwapCheckoutRows(db.checkouts, db.payments[o := p], c, row);
    }
  }

  lemma PaidCostsSomething(db: Ledger, o: OrderId, c: CheckoutId)
    requires FreeRows(db.checkouts, db.payments) && c in db.checkouts && db.checkouts[c].payment == Some(o) && o.GatewayOrder?
    ensures db.checkouts[c].amount > 0
  {
  }

  /** A first capture closes the checkout it pays and takes the place its coupon held. */
  lemma SettleCapture(db: Ledger, e: Report, now: Time, newSub: SubId)
    requires LedgerInv(db, now) && e.order in db.payments && e.order.GatewayOrder? && newSub !in db.subscriptions
    requires !Settled(db.payments[e.order]) && e.status == RCaptured && MatchesOrder(db.payments[e.order], e)
    ensures LedgerInv(Settle(db, e, now, newSub), now)
  {
    var o := e.order;
    var q := SettleRow(db.payments[o], e, now);
    SettleRowKeeps(db.payments[o], e, now);
    var updated := db.(payments := db.payments[o := q]);
    SwapPaymentPurchases(db.subscriptions, db.payments, o, q);
    ActivateKeepsSubscriptions(updated, o, now, newSub);
    ActivateFrame(updated, o, now, newSub);
    var granted := Activate(updated, o, now, newSub);
    PaidCoupons(db, o, q, granted);
    PaidRows(db, o, q, granted, now);
  }

  lemma SettleKeepsInv(db: Ledger, e: Report, now: Time, newSub: SubId)
    requires LedgerInv(db, now) && e.order in db.payments && e.order.GatewayOrder? && newSub !in db.subscriptions
    ensures LedgerInv(Settle(db, e, now, newSub), now)
  {
    var p := db.payments[e.order];
    if !Settled(p) && e.status == RCaptured && MatchesOrder(p, e) {
      SettleCapture(db, e, now, newSub);
    } else if Settled(p) || e.status != RCaptured {
      SettleWithoutCapture(db, e, now, newSub);
    }
  }

  // Subscriptions

  /** Ids, owners and orders of the rows stay, and a new row was not bought. */
  ghost predicate SameOwners(a: map<SubId, Subscription>, b: map<SubId, Subscription>) {
    && (forall s :: s in a ==> s in b && b[s].user == a[s].user && b[s].order == a[s].order)
    && (forall s :: s in b && s !in a ==> b[s].order.None?)
  }

  lemma SameOwnersPurchases(a: map<SubId, Subscription>, b: map<SubId, Subscription>, payments: map<OrderId, Payment>)
    requires Purchases(a, payments) && SameOwners(a, b)
    ensures Purchases(b, payments)
  {
  }

  lemma SwapSubscriptions(db: Ledger, subs: map<SubId, Subscription>, now: Time)
    requires LedgerInv(db, now) && OneLive(subs) && SameOwners(db.subscriptions, subs)
    ensures LedgerInv(db.(subscriptions := subs), now)
  {
    SameOwnersPurchases(db.subscriptions, subs, db.payments);
  }

  /** A row that does not become live. */
  lemma SwapSubscription(subs: map<SubId, Subscription>, s: SubId, row: Subscription)
    requires OneLive(subs) && s in subs && row.user == subs[s].user && row.order == subs[s].order
    requires Live(row) ==> Live(subs[s])
    ensures OneLive(subs[s := row]) && SameOwners(subs, subs[s := row])
  {
  }

  /** After the only live row of a user has ended, another may take its place. */
  lemma ReplaceSubscription(subs: map<SubId, Subscription>, s: SubId, ended: Subscription, t: SubId, row: Subscription)
    requires OneLive(subs) && s in subs && Live(subs[s])
    requires ended.user == row.user == subs[s].user && ended.order == subs[s].order && !Live(ended)
    requires if t in subs[s := ended] then row.user == subs[s := ended][t].user && row.order == subs[s := ended][t].order else row.order.None?
    ensures OneLive(subs[s := ended][t := row]) && SameOwners(subs, subs[s := ended][t := row])
  {
  }

  lemma MarkPastDueKeepsInv(db: Ledger, s: SubId, scan: Time, now: Time)
    requires LedgerInv(db, now) && s in db.subscriptions
    ensures LedgerInv(MarkPastDue(db, s, scan), now)
  {
    var row := db.subscriptions[s];
    SwapSubscription(db.subscriptions, s, row);
    if MarkPastDue(db, s, scan) != db {
      SwapSubscription(db.subscriptions, s, row.(status := SPastDue));
      SwapSubscriptions(db, db.subscriptions[s := row.(status := SPastDue)], now);
    }
  }

  /** The rows an expiry may leave. */
  lemma ExpireWrites(db: Ledger, s: SubId, scan: Time, now: Time, newSub: SubId)
    requires s in db.subscriptions
    ensures var r := Expire(db, s, scan, now, newSub);
            var row := db.subscriptions[s];
            var ended := db.subscriptions[s := row.(status := SExpired, canceledAt := Some(now))];
            && r == db.(subscriptions := r.subscriptions)
            && (r.subscriptions == db.subscriptions
                || (row.status in {SActive, SPastDue}
                    && (r.subscriptions == ended
                        || r.subscriptions == ended[newSub := Subscription(row.user, FREE, Calendar.Monthly, SActive, now, None, false, None, None)])))
  {
  }

  lemma ExpireTables(db: Ledger, s: SubId, scan: Time, now: Time, newSub: SubId)
    requires OneLive(db.subscriptions) && s in db.subscriptions && newSub !in db.subscriptions
    ensures var r := Expire(db, s, scan, now, newSub);
            && r == db.(subscriptions := r.subscriptions)
            && OneLive(r.subscriptions) && SameOwners(db.subscriptions, r.subscriptions)
  {
    hide OneLive, Expire;
    ExpireWrites(db, s, scan, now, newSub);
    var row := db.subscriptions[s];
    var ended := row.(status := SExpired, canceledAt := Some(now));
    if row.status in {SActive, SPastDue} {
      SwapSubscription(db.subscriptions, s, ended);
      ReplaceSubscription(db.subscriptions, s, ended, newSub, Subscription(row.user, FREE, Calendar.Monthly, SActive, now, None, false, None, None));
    }
  }

  lemma ExpireKeepsInv(db: Ledger, s: SubId, scan: Time, now: Time, newSub: SubId)
    requires LedgerInv(db, now) && s in db.subscriptions && newSub !in db.subscriptions
    ensures LedgerInv(Expire(db, s, scan, now, newSub), now)
  {
    ExpireTables(db, s, scan, now, newSub);
    SwapSubscriptions(db, Expire(db, s, scan, now, newSub).subscriptions, now);
  }

  lemma ScheduleChangeKeepsInv(db: Ledger, user: UserId, cancel: bool, now: Time)
    requires LedgerInv(db, now) && ScheduleChange(db, user, cancel, now).Some?
    ensures LedgerInv(ScheduleChange(db, user, cancel, now).value, now)
  {
    SwapSubscriptions(db, ScheduleChange(db, user, cancel, now).value.subscriptions, now);
  }

  /** Restoring the previous subscription needs the refunded one to have been the live one. */
  lemma RevokeAccessTables(db: Ledger, snapshot: Payment, now: Time)
    requires OneLive(db.subscriptions)
    ensures var r := RevokeAccess(db, snapshot, now);
            && r == db.(subscriptions := r.subscriptions)
            && OneLive(r.subscriptions) && SameOwners(db.subscriptions, r.subscriptions)
  {
    var r := RevokeAccess(db, snapshot, now);
    if r != db {
      var s := snapshot.subscription.value;
      var ended := db.subscriptions[s].(status := SCanceled, canceledAt := Some(now), periodEnd := Some(now));
      var subs := db.subscriptions[s := ended];
      SwapSubscription(db.subscriptions, s, ended);
      if r.subscriptions != subs {
        var t := snapshot.previous.value;
        ReplaceSubscription(db.subscriptions, s, ended, t, subs[t].(status := SActive, canceledAt := None));
      }
    }
  }

  lemma RevokeAccessKeepsInv(db: Ledger, snapshot: Payment, now: Time)
    requires LedgerInv(db, now)
    ensures LedgerInv(RevokeAccess(db, snapshot, now), now)
  {
    RevokeAccessTables(db, snapshot, now);
    SwapSubscriptions(db, RevokeAccess(db, snapshot, now).subscriptions, now);
  }

  // Refunds

  /** An earlier reading of a payment row: what it says is still so, or was not decided then. */
  ghost predicate PaymentPast(a: Payment, b: Payment) {
    && SamePurchase(a, b)
    && (a.subscription.Some? ==> b.subscription == a.subscription && b.previous == a.previous)
    && a.refunded <= b.refunded
    && (Settled(a) ==> Settled(b) && b.gatewayId == a.gatewayId)
    && (a.gatewayId.Some? ==> b.gatewayId.Some?)
    && (a.status == PRefunded ==> b.status == PRefunded)
    && a.duplicates <= b.duplicates
  }

  lemma TotalOfPrefix(list: seq<ProviderRefund>, n: nat)
    requires n <= |list|
    ensures Total(list[..n]) <= Total(list)
  {
    if n > 0 {
      assert list[..n][1..] == list[1..][..n - 1];
      TotalOfPrefix(list[1..], n - 1);
    }
  }

  lemma TotalOfMember(list: seq<ProviderRefund>, r: ProviderRefund)
    requires r in list
    ensures r.amount <= Total(list)
  {
    if list[0] != r {
      TotalOfMember(list[1..], r);
    }
  }

  lemma TotalGrows(list: seq<ProviderRefund>, r: ProviderRefund)
    ensures Total(list) <= Total(list + [r])
  {
    assert (list + [r])[..|list|] == list;
    TotalOfPrefix(list + [r], |list|);
  }

  lemma RevokeFrame(db: Ledger, paid: Payment, now: Time)
    ensures var r := RevokeAccess(db, paid, now); r == db.(subscriptions := r.subscriptions)
  {
    hide Restorable;
  }

  /** What `RecordTotal` leaves of the payment table. */
  lemma RecordTotalFrame(db: Ledger, o: OrderId, paid: Payment, total: nat, now: Time)
    requires o in db.payments
    ensures var r := RecordTotal(db, o, paid, total, now);
            && r.checkouts == db.checkouts && r.refunds == db.refunds && o in r.payments
            && r.payments == db.payments[o := r.payments[o]]
            && r.payments[o] == db.payments[o].(refunded := Max(total, db.payments[o].refunded), status := r.payments[o].status)
  {
    var p := db.payments[o];
    var amount := Max(total, p.refunded);
    var status := if amount == paid.amount then PRefunded else PPartiallyRefunded;
    RevokeFrame(db.(payments := db.payments[o := p.(refunded := amount, status := status)]), paid, now);
    assert db.payments == db.payments[o := p];
  }

  lemma RecordTotalKeepsInv(db: Ledger, o: OrderId, snapshot: Payment, total: nat, now: Time)
    requires LedgerInv(db, now) && o in db.payments && o.GatewayOrder?
    requires PaymentPast(snapshot, db.payments[o]) && total <= snapshot.amount
    ensures LedgerInv(RecordTotal(db, o, snapshot, total, now), now)
  {
    var p := db.payments[o];
    var amount := Max(total, p.refunded);
    if amount > 0 {
      var q := p.(refunded := amount, status := if amount == snapshot.amount then PRefunded else PPartiallyRefunded);
      SwapPayment(db, o, q, now);
      RevokeAccessKeepsInv(db.(payments := db.payments[o := q]), snapshot, now);
    }
  }

  lemma SwapRefund(db: Ledger, o: OrderId, r: Refund, now: Time)
    requires LedgerInv(db, now) && o in db.refunds && r.key == db.refunds[o].key
    requires r.status == Processed ==> r.amount <= db.payments[o].refunded
    ensures LedgerInv(db.(refunds := db.refunds[o := r]), now)
  {
  }

  lemma AddRefundKeepsInv(db: Ledger, o: OrderId, r: Refund, now: Time)
    requires LedgerInv(db, now) && o in db.payments && Settled(db.payments[o]) && db.payments[o].gatewayId.Some? && o !in db.refunds
    requires r.status == Requested && forall q :: q in db.refunds ==> db.refunds[q].key != r.key
    ensures LedgerInv(AddRefund(db, o, r), now)
  {
  }
}
