/** Who has used a coupon: over every run, exactly the users of its fulfilled purchases. */
module BillingCoupons {
  import opened BillingTypes
  import opened BillingSteps
  import opened BillingWorld
  import BillingRows
  import BillingRuns
  import BillingSafety

  /** A redemption stands for a fulfilled purchase with the coupon by its user, and every such purchase
      has one. */
  ghost predicate Redeemed(redemptions: map<Redemption, OrderId>, payments: map<OrderId, Payment>) {
    && (forall r :: r in redemptions ==>
          && redemptions[r] in payments && payments[redemptions[r]].subscription.Some?
          && payments[redemptions[r]].coupon == Some(r.coupon) && payments[redemptions[r]].user == r.user)
    && (forall o :: o in payments && payments[o].subscription.Some? && payments[o].coupon.Some? ==>
          Redemption(payments[o].coupon.value, payments[o].user) in redemptions)
  }

  /** A row that stays as it is for its coupon, or a new one that bought nothing. */
  lemma RowKeepsRedeemed(redemptions: map<Redemption, OrderId>, payments: map<OrderId, Payment>, o: OrderId, q: Payment)
    requires Redeemed(redemptions, payments)
    requires if o in payments
             then q.coupon == payments[o].coupon && q.user == payments[o].user && q.subscription == payments[o].subscription
             else q.subscription.None?
    ensures Redeemed(redemptions, payments[o := q])
  {
  }

  lemma GrantKeepsRedeemed(db: Ledger, r: Ledger, o: OrderId)
    requires Redeemed(db.redemptions, db.payments) && o in db.payments && o in r.payments && BillingInvariant.Granted(db, r, o)
    requires db.payments[o].coupon.Some? ==> db.payments[o].coupon.value in db.coupons
    ensures Redeemed(r.redemptions, r.payments)
  {
    hide BillingInvariant.Granted;
    assert r.payments == db.payments[o := r.payments[o]] && BillingInvariant.SameCharge(db.payments[o], r.payments[o]) by {
      GrantedRow(db, r, o);
    }
    GrantedRow(db, r, o);
    if db.payments[o].subscription != r.payments[o].subscription {
      RedeemMarks(db.redemptions, db.payments, o, r.payments[o], r.redemptions);
    }
  }

  lemma GrantedRow(db: Ledger, r: Ledger, o: OrderId)
    requires o in db.payments && o in r.payments && BillingInvariant.Granted(db, r, o)
    requires db.payments[o].coupon.Some? ==> db.payments[o].coupon.value in db.coupons
    ensures r.payments == db.payments[o := r.payments[o]]
    ensures r.payments[o].coupon == db.payments[o].coupon && r.payments[o].user == db.payments[o].user
    ensures BillingInvariant.SameCharge(db.payments[o], r.payments[o])
    ensures if db.payments[o].subscription == r.payments[o].subscription then r.redemptions == db.redemptions
            else db.payments[o].subscription.None? && r.payments[o].subscription.Some? &&
                 r.redemptions == match db.payments[o].coupon
                   case None => db.redemptions
                   case Some(k) => if Redemption(k, db.payments[o].user) in db.redemptions then db.redemptions
                                   else db.redemptions[Redemption(k, db.payments[o].user) := o]
  {
  }

  lemma RedeemMarks(before: map<Redemption, OrderId>, payments: map<OrderId, Payment>, o: OrderId, q: Payment, after: map<Redemption, OrderId>)
    requires Redeemed(before, payments) && o in payments && payments[o].subscription.None? && q.subscription.Some?
    requires q.coupon == payments[o].coupon && q.user == payments[o].user
    requires after == match q.coupon
      case None => before
      case Some(k) => if Redemption(k, q.user) in before then before else before[Redemption(k, q.user) := o]
    ensures Redeemed(after, payments[o := q])
  {
  }

  // The transactions that write payments

  lemma SettleKeepsRedeemed(db: Ledger, e: Report, now: Time, newSub: SubId)
    requires e.order in db.payments && Redeemed(db.redemptions, db.payments)
    requires db.payments[e.order].coupon.Some? ==> db.payments[e.order].coupon.value in db.coupons
    ensures var r := Settle(db, e, now, newSub); Redeemed(r.redemptions, r.payments)
  {
    hide Redeemed, Activate, MirrorCheckout, SettleRow, Settled, MatchesOrder, BillingInvariant.Granted;
    var p := db.payments[e.order];
    if MatchesOrder(p, e) {
      var q := SettleRow(p, e, now);
      SettledCoupon(p, e, now);
      RowKeepsRedeemed(db.redemptions, db.payments, e.order, q);
      if !Settled(p) {
        var updated := db.(payments := db.payments[e.order := q]);
        BillingInvariant.ActivateFrame(updated, e.order, now, newSub);
        GrantKeepsRedeemed(updated, Activate(updated, e.order, now, newSub), e.order);
        BillingSafety.MirrorFrame(if e.status == RCaptured then Activate(updated, e.order, now, newSub) else updated, e.order);
      }
    }
  }

  lemma SettledCoupon(p: Payment, e: Report, now: Time)
    ensures var q := SettleRow(p, e, now); q.coupon == p.coupon && q.user == p.user && q.subscription == p.subscription
  {
  }

  lemma SaveKeepsRedeemed(db: Ledger, c: CheckoutId, o: OrderId, now: Time, newSub: SubId)
    requires c in db.checkouts && Redeemed(db.redemptions, db.payments)
    requires db.checkouts[c].coupon.Some? ==> db.checkouts[c].coupon.value in db.coupons
    requires o in db.payments && db.payments[o].coupon.Some? ==> db.payments[o].coupon.value in db.coupons
    ensures var r := SaveOrder(db, c, o, now, newSub); Redeemed(r.redemptions, r.payments)
  {
    hide Redeemed, Activate, BillingInvariant.Granted;
    var saved := Attach(db, c, o, now);
    RowKeepsRedeemed(db.redemptions, db.payments, o, saved.payments[o]);
    if db.checkouts[c].amount == 0 {
      BillingInvariant.ActivateFrame(saved, o, now, newSub);
      GrantKeepsRedeemed(saved, Activate(saved, o, now, newSub), o);
    }
  }

  lemma BalanceKeepsRedeemed(db: Ledger, o: OrderId, paid: Payment, total: nat, now: Time)
    requires o in db.payments && Redeemed(db.redemptions, db.payments)
    ensures var r := RecordTotal(db, o, paid, total, now); Redeemed(r.redemptions, r.payments)
  {
    hide Redeemed, RevokeAccess;
    var p := db.payments[o];
    var amount := Max(total, p.refunded);
    var q := p.(refunded := amount, status := if amount == paid.amount then PRefunded else PPartiallyRefunded);
    RowKeepsRedeemed(db.redemptions, db.payments, o, q);
    BillingPreservation.RevokeFrame(db.(payments := db.payments[o := q]), paid, now);
  }

  // Steps and runs

  lemma CouponsKnown(w: World)
    requires Inv(w)
    ensures forall c :: c in w.db.checkouts && w.db.checkouts[c].coupon.Some? ==> w.db.checkouts[c].coupon.value in w.db.coupons
    ensures forall o :: o in w.db.payments && w.db.payments[o].coupon.Some? ==> w.db.payments[o].coupon.value in w.db.coupons
  {
    BillingSafety.LedgerOf(w);
    LedgerCoupons(w.db, w.now);
  }

  lemma LedgerCoupons(db: Ledger, now: Time)
    requires BillingInvariant.LedgerInv(db, now)
    ensures forall c :: c in db.checkouts && db.checkouts[c].coupon.Some? ==> db.checkouts[c].coupon.value in db.coupons
    ensures forall o :: o in db.payments && db.payments[o].coupon.Some? ==> db.payments[o].coupon.value in db.coupons
  {
    assert BillingInvariant.CouponRefs(db.coupons, db.checkouts, db.redemptions) && BillingInvariant.Links(db.checkouts, db.payments);
  }

  lemma RecoverKeepsRedeemed(db: Ledger, c: CheckoutId, o: OrderId, now: Time)
    requires c in db.checkouts && Redeemed(db.redemptions, db.payments)
    ensures var r := Attach(db, c, o, now); Redeemed(r.redemptions, r.payments)
  {
    hide Redeemed;
    RowKeepsRedeemed(db.redemptions, db.payments, o, Attach(db, c, o, now).payments[o]);
  }

  lemma StepKeepsRedeemed(w: World, step: Step)
    requires Inv(w) && Enabled(w, step) && Redeemed(w.db.redemptions, w.db.payments)
    ensures var r := Apply(w, step).db; Redeemed(r.redemptions, r.payments)
  {
    hide Redeemed, Inv, Attach, SaveOrder, RecoverFree, Settle, RecordTotal, Reserve, CanReconcile, CanSubmit, RefundRequest,
         Expire, ScheduleChange, Confirm, BillingInvariant.LedgerInv;
    CouponsKnown(w);
    if !BillingRows.WritesPayments(step) {
      BillingRows.QuietStep(w, step);
    } else {
      WriteKeepsRedeemed(w, step);
    }
  }

  lemma WriteKeepsRedeemed(w: World, step: Step)
    requires Inv(w) && Enabled(w, step) && BillingRows.WritesPayments(step) && Redeemed(w.db.redemptions, w.db.payments)
    requires forall c :: c in w.db.checkouts && w.db.checkouts[c].coupon.Some? ==> w.db.checkouts[c].coupon.value in w.db.coupons
    requires forall o :: o in w.db.payments && w.db.payments[o].coupon.Some? ==> w.db.payments[o].coupon.value in w.db.coupons
    ensures var r := Apply(w, step).db; Redeemed(r.redemptions, r.payments)
  {
    hide Redeemed, Inv, Attach, SaveOrder, RecoverFree, Settle, RecordTotal, Confirm, Reserve, CanSubmit, RefundRequest, ScheduleChange;
    match step
    case SaveOrderStep(c, o, newSub) => SaveKeepsRedeemed(w.db, c, o, w.now, newSub);
    case RecoverStep(o) => RecoverKeepsRedeemed(w.db, w.orders[o].checkout, o, w.now);
    case RecoverFreeStep(c, newSub) =>
      BillingSafety.LedgerOf(w);
      BillingPreservation.RecoverFreeIsSaveOrder(w.db, c, w.now, newSub);
      SaveKeepsRedeemed(w.db, c, FreeOrder(c), w.now, newSub);
    case SettleStep(e, newSub) => SettleKeepsRedeemed(w.db, e, w.now, newSub);
    case ReconcileStep(o, paid, listed, expected) =>
      BalanceKeepsRedeemed(w.db, o, paid, Total(ProcessedOf(w, paid.gatewayId.value)[..listed]), w.now);
  }

  lemma {:induction false} RunKeepsRedeemed(w: World, run: seq<Step>)
    requires Inv(w) && CanRun(w, run) && Redeemed(w.db.redemptions, w.db.payments)
    ensures Redeemed(Run(w, run).db.redemptions, Run(w, run).db.payments)
    decreases |run|
  {
    hide Inv, Enabled, Apply, Redeemed;
    if run != [] {
      BillingSafety.StepKeepsInv(w, run[0]);
      StepKeepsRedeemed(w, run[0]);
      RunKeepsRedeemed(Apply(w, run[0]), run[1..]);
    }
  }

  /** In every reachable state the redemptions of a coupon are those of the users who have a fulfilled
      purchase with it, `times_redeemed` is their number, and each names such a purchase. */
  lemma RedeemedByPurchase(w: World, k: CouponId, user: UserId)
    requires BillingRuns.Reachable(w) && k in w.db.coupons
    ensures Redemption(k, user) in w.db.redemptions <==>
      exists o :: o in w.db.payments && w.db.payments[o].user == user && w.db.payments[o].coupon == Some(k) && w.db.payments[o].subscription.Some?
    ensures Redemption(k, user) in w.db.redemptions ==>
      var o := w.db.redemptions[Redemption(k, user)];
      o in w.db.payments && w.db.payments[o].user == user && w.db.payments[o].coupon == Some(k) && w.db.payments[o].subscription.Some?
    ensures w.db.coupons[k].redeemed == |BillingTypes.RedemptionsOf(w.db.redemptions, k)|
  {
    hide Inv, CanRun, Run, Init;
    BillingRuns.CouponsNeverOversold(w, k);
    var start: World, run: seq<Step> :| Init(start) && CanRun(start, run) && Run(start, run) == w;
    InitHasInv(start);
    NothingRedeemed(start);
    RunKeepsRedeemed(start, run);
  }

  lemma NothingRedeemed(start: World)
    requires Init(start)
    ensures Redeemed(start.db.redemptions, start.db.payments)
  {
  }
}
