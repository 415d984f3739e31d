/** What the billing tables satisfy between transactions, and that granting a plan, the one
    change that touches four tables, keeps it. */
module BillingInvariant {
  import opened BillingTypes
  import opened BillingSteps

  /** At most one subscription of a user is ACTIVE, PAST_DUE or TRIALING. */
  ghost predicate OneLive(subs: map<SubId, Subscription>) {
    forall s, t :: s in subs && t in subs && Live(subs[s]) && Live(subs[t]) && subs[s].user == subs[t].user ==> s == t
  }

  /** A payment and the subscription it bought name each other, so no payment buys two. */
  ghost predicate Purchases(subs: map<SubId, Subscription>, payments: map<OrderId, Payment>) {
    && (forall o :: o in payments && payments[o].subscription.Some? ==>
          && payments[o].subscription.value in subs
          && subs[payments[o].subscription.value].order == Some(o)
          && subs[payments[o].subscription.value].user == payments[o].user)
    && (forall s :: s in subs && subs[s].order.Some? ==>
          subs[s].order.value in payments && payments[subs[s].order.value].subscription == Some(s))
  }

  ghost predicate OneOpen(checkouts: map<CheckoutId, Checkout>) {
    forall c, d | c in checkouts && d in checkouts && Open(checkouts[c]) && Open(checkouts[d]) ::
      checkouts[c].user == checkouts[d].user ==> c == d
  }

  ghost predicate OneKey(checkouts: map<CheckoutId, Checkout>) {
    forall c, d | c in checkouts && d in checkouts && checkouts[c].requestKey == checkouts[d].requestKey ::
      checkouts[c].user == checkouts[d].user ==> c == d
  }

  predicate CopiedFrom(p: Payment, row: Checkout) {
    p.user == row.user && p.plan == row.plan && p.cycle == row.cycle && p.amount == row.amount
    && p.currency == row.currency && p.coupon == row.coupon
  }

  /** A checkout and its payment name each other and agree on what is bought. */
  ghost predicate Links(checkouts: map<CheckoutId, Checkout>, payments: map<OrderId, Payment>) {
    && (forall o :: o in payments && payments[o].checkout.Some? ==>
          && payments[o].checkout.value in checkouts
          && checkouts[payments[o].checkout.value].payment == Some(o)
          && CopiedFrom(payments[o], checkouts[payments[o].checkout.value]))
    && (forall c :: c in checkouts && checkouts[c].payment.Some? ==>
          checkouts[c].payment.value in payments && payments[checkouts[c].payment.value].checkout == Some(c))
    && (forall o :: o in payments && payments[o].coupon.Some? ==> payments[o].checkout.Some?)
  }

  /** A closed checkout with a payment was paid. */
  ghost predicate ClosedIsSettled(checkouts: map<CheckoutId, Checkout>, payments: map<OrderId, Payment>) {
    forall c :: c in checkouts && !Open(checkouts[c]) && checkouts[c].payment.Some? ==>
      checkouts[c].payment.value in payments && Settled(payments[checkouts[c].payment.value])
  }

  /** Free checkouts never fail, and their payment is granted in the transaction that creates it. */
  ghost predicate FreeRows(checkouts: map<CheckoutId, Checkout>, payments: map<OrderId, Payment>) {
    && (forall o :: o in payments && o.FreeOrder? ==>
          && payments[o].checkout == Some(o.checkout) && payments[o].amount == 0 && payments[o].refunded == 0
          && payments[o].status == PCaptured && payments[o].subscription.Some?)
    && (forall c :: c in checkouts && checkouts[c].amount == 0 && checkouts[c].payment.None? ==> checkouts[c].status == Creating)
    && (forall c :: c in checkouts && checkouts[c].payment.Some? ==>
          if checkouts[c].amount == 0 then checkouts[c].payment == Some(FreeOrder(c)) else checkouts[c].payment.value.GatewayOrder?)
  }

  ghost predicate CouponRefs(coupons: map<CouponId, Coupon>, checkouts: map<CheckoutId, Checkout>, redemptions: map<Redemption, OrderId>) {
    && (forall c :: c in checkouts && checkouts[c].coupon.Some? ==> checkouts[c].coupon.value in coupons)
    && (forall r :: r in redemptions ==> r.coupon in coupons)
  }

  /** `times_redeemed` counts the redemption rows, and together with the places that open
      checkouts hold it stays within the limit. */
  ghost predicate CouponWithin(coupons: map<CouponId, Coupon>, redemptions: map<Redemption, OrderId>,
                               checkouts: map<CheckoutId, Checkout>, k: CouponId)
    requires k in coupons
  {
    && coupons[k].redeemed == |RedemptionsOf(redemptions, k)|
    && (coupons[k].limit.Some? ==> coupons[k].redeemed + |Holders(checkouts, k)| <= coupons[k].limit.value)
  }

  ghost predicate CouponsWithin(coupons: map<CouponId, Coupon>, redemptions: map<Redemption, OrderId>,
                                checkouts: map<CheckoutId, Checkout>) {
    forall k :: k in coupons ==> CouponWithin(coupons, redemptions, checkouts, k)
  }

  /** What was returned never exceeds what was paid, and the status says which it is. */
  ghost predicate Balanced(p: Payment) {
    && p.refunded <= p.amount
    && (p.status == PRefunded <==> p.refunded == p.amount && 0 < p.amount)
    && (p.status == PPartiallyRefunded <==> 0 < p.refunded < p.amount)
  }

  ghost predicate Balances(payments: map<OrderId, Payment>) {
    forall o :: o in payments ==> Balanced(payments[o])
  }

  ghost predicate RefundRows(refunds: map<OrderId, Refund>, payments: map<OrderId, Payment>) {
    && (forall o :: o in refunds ==>
          && o in payments && Settled(payments[o]) && payments[o].gatewayId.Some?
          && (refunds[o].status == Processed ==> refunds[o].amount <= payments[o].refunded))
    && (forall o, q :: o in refunds && q in refunds && refunds[o].key == refunds[q].key ==> o == q)
  }

  /** No row is dated after `now`. */
  ghost predicate Dated(payments: map<OrderId, Payment>, now: Time) {
    forall o :: o in payments ==> payments[o].createdAt <= now
  }

  ghost predicate LedgerInv(db: Ledger, now: Time) {
    && OneLive(db.subscriptions)
    && Purchases(db.subscriptions, db.payments)
    && OneOpen(db.checkouts)
    && OneKey(db.checkouts)
    && Links(db.checkouts, db.payments)
    && ClosedIsSettled(db.checkouts, db.payments)
    && FreeRows(db.checkouts, db.payments)
    && CouponRefs(db.coupons, db.checkouts, db.redemptions)
    && CouponsWithin(db.coupons, db.redemptions, db.checkouts)
    && Balances(db.payments)
    && RefundRows(db.refunds, db.payments)
    && Dated(db.payments, now)
  }

  lemma LedgerKeys(db: Ledger, now: Time)
    requires LedgerInv(db, now)
    ensures OneKey(db.checkouts) && OneOpen(db.checkouts) && OneLive(db.subscriptions) && Purchases(db.subscriptions, db.payments)
  {
  }

  lemma LedgerRows(db: Ledger, now: Time)
    requires LedgerInv(db, now)
    ensures ClosedIsSettled(db.checkouts, db.payments) && Balances(db.payments) && RefundRows(db.refunds, db.payments)
  {
  }

  // Row changes that all the table invariants except Purchases are blind to

  /** Equal up to what granting a plan writes. */
  predicate SameCharge(p: Payment, q: Payment) {
    q.(subscription := p.subscription, fulfillment := p.fulfillment, previous := p.previous) == p
  }

  // Granting a plan

  lemma RedeemFrame(db: Ledger, p: Payment, o: OrderId)
    ensures var r := Redeem(db, p, o); r == db.(coupons := r.coupons, redemptions := r.redemptions)
  {
  }

  /** `Redeem` depends on the coupon tables alone. */
  lemma RedeemLocal(db: Ledger, other: Ledger, p: Payment, o: OrderId)
    requires db.coupons == other.coupons && db.redemptions == other.redemptions
    ensures Redeem(db, p, o).coupons == Redeem(other, p, o).coupons
    ensures Redeem(db, p, o).redemptions == Redeem(other, p, o).redemptions
  {
  }

  /** What `Activate` may do to the tables other than subscriptions. */
  ghost predicate Granted(db: Ledger, r: Ledger, o: OrderId)
    requires o in db.payments && o in r.payments
  {
    && r.checkouts == db.checkouts && r.refunds == db.refunds && r.plans == db.plans && r.periodEnd == db.periodEnd
    && r.payments == db.payments[o := r.payments[o]]
    && SameCharge(db.payments[o], r.payments[o])
    && (if db.payments[o].subscription == r.payments[o].subscription
        then r.coupons == db.coupons && r.redemptions == db.redemptions
        else db.payments[o].subscription.None? && r.payments[o].subscription.Some?
             && r.coupons == Redeem(db, db.payments[o], o).coupons
             && r.redemptions == Redeem(db, db.payments[o], o).redemptions)
  }

  lemma GrantFrame(db: Ledger, o: OrderId, now: Time, newSub: SubId, active: Option<SubId>)
    requires o in db.payments && (active.Some? ==> active.value in db.subscriptions)
    ensures var r := Grant(db, o, now, newSub, active);
            && r == db.(subscriptions := r.subscriptions, payments := db.payments[o := r.payments[o]])
            && SameCharge(db.payments[o], r.payments[o]) && r.payments[o].subscription == Some(newSub)
            && Redeem(r, db.payments[o], o).coupons == Redeem(db, db.payments[o], o).coupons
            && Redeem(r, db.payments[o], o).redemptions == Redeem(db, db.payments[o], o).redemptions
  {
    RedeemLocal(db, Grant(db, o, now, newSub, active), db.payments[o], o);
  }

  lemma ActivateFrame(db: Ledger, o: OrderId, now: Time, newSub: SubId)
    requires o in db.payments
    ensures var r := Activate(db, o, now, newSub); o in r.payments && Granted(db, r, o)
  {
    var p := db.payments[o];
    var active := ActiveOf(db.subscriptions, p.user);
    if p.subscription.None? && !Superseded(db, p, active) {
      GrantFrame(db, o, now, newSub, active);
      RedeemFrame(Grant(db, o, now, newSub, active), p, o);
    }
  }

  lemma CancelLiveLeavesNone(subs: map<SubId, Subscription>, user: UserId, now: Time)
    ensures var r := CancelLive(subs, user, now);
            && r.Keys == subs.Keys
            && (forall s :: s in subs ==> r[s].order == subs[s].order && r[s].user == subs[s].user)
            && (forall s :: s in subs && subs[s].user == user ==> !Live(r[s]))
            && (forall s :: s in subs && subs[s].user != user ==> r[s] == subs[s])
  {
  }

  lemma GrantKeepsOneLive(db: Ledger, o: OrderId, now: Time, newSub: SubId, active: Option<SubId>)
    requires o in db.payments && (active.Some? ==> active.value in db.subscriptions)
    requires OneLive(db.subscriptions) && newSub !in db.subscriptions
    ensures OneLive(Grant(db, o, now, newSub, active).subscriptions)
  {
    CancelLiveLeavesNone(db.subscriptions, db.payments[o].user, now);
  }

  /** Relinking tables in which only `o` and `newSub` are new to each other. */
  lemma PurchaseLinked(subs: map<SubId, Subscription>, payments: map<OrderId, Payment>,
                       subs': map<SubId, Subscription>, o: OrderId, p: Payment, newSub: SubId)
    requires Purchases(subs, payments) && newSub !in subs && newSub in subs'
    requires forall s :: s in subs' <==> s in subs || s == newSub
    requires forall s :: s in subs ==> subs'[s].order == subs[s].order && subs'[s].user == subs[s].user
    requires o in payments && payments[o].subscription.None? && p.subscription == Some(newSub)
    requires subs'[newSub].order == Some(o) && subs'[newSub].user == p.user
    ensures Purchases(subs', payments[o := p])
  {
  }

  lemma GrantKeepsPurchases(db: Ledger, o: OrderId, now: Time, newSub: SubId, active: Option<SubId>)
    requires o in db.payments && (active.Some? ==> active.value in db.subscriptions)
    requires Purchases(db.subscriptions, db.payments) && newSub !in db.subscriptions
    requires db.payments[o].subscription.None?
    ensures var r := Grant(db, o, now, newSub, active); Purchases(r.subscriptions, r.payments)
  {
    CancelLiveLeavesNone(db.subscriptions, db.payments[o].user, now);
    var r := Grant(db, o, now, newSub, active);
    PurchaseLinked(db.subscriptions, db.payments, r.subscriptions, o, r.payments[o], newSub);
  }

  /** A purchase replaces whatever was live, and ties the new subscription to its payment. */
  lemma ActivateKeepsSubscriptions(db: Ledger, o: OrderId, now: Time, newSub: SubId)
    requires o in db.payments && newSub !in db.subscriptions
    requires OneLive(db.subscriptions) && Purchases(db.subscriptions, db.payments)
    ensures var r := Activate(db, o, now, newSub);
            OneLive(r.subscriptions) && Purchases(r.subscriptions, r.payments)
  {
    var p := db.payments[o];
    var active := ActiveOf(db.subscriptions, p.user);
    if p.subscription.None? && !Superseded(db, p, active) {
      GrantKeepsOneLive(db, o, now, newSub, active);
      GrantKeepsPurchases(db, o, now, newSub, active);
      RedeemFrame(Grant(db, o, now, newSub, active), p, o);
    }
  }

  /** One more redemption row is one more redemption counted, and no other coupon moves. */
  lemma RedeemCounts(db: Ledger, p: Payment, o: OrderId, k: CouponId)
    requires k in db.coupons && db.coupons[k].redeemed == |RedemptionsOf(db.redemptions, k)|
    ensures var r := Redeem(db, p, o);
            && r.coupons.Keys == db.coupons.Keys
            && r.coupons[k].redeemed == |RedemptionsOf(r.redemptions, k)|
            && r.coupons[k] == db.coupons[k].(redeemed := r.coupons[k].redeemed)
            && db.coupons[k].redeemed <= r.coupons[k].redeemed <= db.coupons[k].redeemed + 1
            && (r.coupons[k].redeemed != db.coupons[k].redeemed ==> p.coupon == Some(k))
  {
    var r := Redeem(db, p, o);
    if r != db && p.coupon == Some(k) {
      assert RedemptionsOf(r.redemptions, k) == RedemptionsOf(db.redemptions, k) + {Redemption(k, p.user)};
    } else {
      assert RedemptionsOf(r.redemptions, k) == RedemptionsOf(db.redemptions, k);
    }
  }

  lemma HoldersOfClosed(checkouts: map<CheckoutId, Checkout>, c: CheckoutId, row: Checkout, k: CouponId)
    requires c in checkouts && Open(checkouts[c]) && !Open(row)
    ensures |Holders(checkouts[c := row], k)| == |Holders(checkouts, k)| - if checkouts[c].coupon == Some(k) then 1 else 0
  {
    if checkouts[c].coupon == Some(k) {
      assert Holders(checkouts, k) == Holders(checkouts[c := row], k) + {c};
    } else {
      assert Holders(checkouts, k) == Holders(checkouts[c := row], k);
    }
  }

  lemma RedeemRefs(db: Ledger, p: Payment, o: OrderId, c: CheckoutId, row: Checkout)
    requires CouponRefs(db.coupons, db.checkouts, db.redemptions)
    requires c in db.checkouts && row.coupon == db.checkouts[c].coupon
    ensures var r := Redeem(db, p, o); r.coupons.Keys == db.coupons.Keys && CouponRefs(r.coupons, db.checkouts[c := row], r.redemptions)
  {
  }

  /** Closing the paying checkout gives up the place that the redemption takes. */
  lemma RedeemAndClose(db: Ledger, p: Payment, o: OrderId, c: CheckoutId, row: Checkout)
    requires CouponsWithin(db.coupons, db.redemptions, db.checkouts)
    requires CouponRefs(db.coupons, db.checkouts, db.redemptions)
    requires c in db.checkouts && row.coupon == db.checkouts[c].coupon == p.coupon && !Open(row)
    requires Open(db.checkouts[c])
    ensures var r := Redeem(db, p, o);
            && CouponsWithin(r.coupons, r.redemptions, db.checkouts[c := row])
            && CouponRefs(r.coupons, db.checkouts[c := row], r.redemptions)
  {
    hide Redeem, Holders, RedemptionsOf, Open, CouponRefs;
    RedeemRefs(db, p, o, c, row);
    var r := Redeem(db, p, o);
    forall k | k in r.coupons
      ensures CouponWithin(r.coupons, r.redemptions, db.checkouts[c := row], k)
    {
      assert CouponWithin(db.coupons, db.redemptions, db.checkouts, k);
      RedeemCounts(db, p, o, k);
      HoldersOfClosed(db.checkouts, c, row, k);
    }
  }

  /** A row that does not start to hold a place leaves every coupon within its limit. */
  lemma HoldersShrink(coupons: map<CouponId, Coupon>, redemptions: map<Redemption, OrderId>,
                      checkouts: map<CheckoutId, Checkout>, c: CheckoutId, row: Checkout)
    requires CouponsWithin(coupons, redemptions, checkouts) && CouponRefs(coupons, checkouts, redemptions)
    requires c in checkouts && row.coupon == checkouts[c].coupon
    requires Open(row) ==> Open(checkouts[c])
    ensures CouponsWithin(coupons, redemptions, checkouts[c := row])
    ensures CouponRefs(coupons, checkouts[c := row], redemptions)
  {
    forall k | k in coupons
      ensures CouponWithin(coupons, redemptions, checkouts[c := row], k)
    {
      assert CouponWithin(coupons, redemptions, checkouts, k);
      var before, after := Holders(checkouts, k), Holders(checkouts[c := row], k);
      assert after <= before;
      SubsetCardinality(after, before);
    }
  }

  lemma SubsetCardinality<T>(a: set<T>, b: set<T>)
    requires a <= b
    ensures |a| <= |b|
  {
    assert b == a + (b - a);
  }
}
