/** The billing service itself: the rows of its tables are changed one after another inside each
    transaction, and every transaction is proved to do to the ledger what BillingSteps says.
    The clock and new row ids are parameters; the provider's answers arrive as arguments. */
module BillingService {
  import opened Calendar
  import opened BillingTypes
  import Gateway
  import opened BillingPolicy
  import opened BillingSteps
  import opened BillingInvariant
  import opened BillingPreservation

  class BillingService {
    var plans: map<PlanId, Plan>
    var coupons: map<CouponId, Coupon>
    var redemptions: map<Redemption, OrderId>
    var checkouts: map<CheckoutId, Checkout>
    var payments: map<OrderId, Payment>
    var subscriptions: map<SubId, Subscription>
    var refunds: map<OrderId, Refund>

    /** The tables as one value. */
    ghost function Db(): Ledger
      reads this
    {
      Ledger(PeriodEndAt, plans, coupons, redemptions, checkouts, payments, subscriptions, refunds)
    }

    /** A fresh installation with the given price list and accounts. */
    constructor (plans: map<PlanId, Plan>, coupons: map<CouponId, Coupon>, subscriptions: map<SubId, Subscription>, now: Time)
      requires OneLive(subscriptions) && forall s :: s in subscriptions ==> subscriptions[s].order.None?
      requires forall k :: k in coupons ==> coupons[k].redeemed == 0
      ensures LedgerInv(Db(), now)
      ensures Db() == Ledger(PeriodEndAt, plans, coupons, map[], map[], map[], subscriptions, map[])
    {
      this.plans, this.coupons, this.subscriptions := plans, coupons, subscriptions;
      redemptions, checkouts, payments, refunds := map[], map[], map[], map[];
      new;
      forall k | k in coupons
        ensures CouponWithin(coupons, redemptions, checkouts, k)
      {
        assert RedemptionsOf(redemptions, k) == {} && Holders(checkouts, k) == {};
      }
    }

    // Queries

    /** Line 33: the active subscription of a user. */
    method FindActive(user: UserId) returns (active: Option<SubId>)
      requires OneLive(subscriptions)
      ensures active == ActiveOf(subscriptions, user)
    {
      if s :| s in subscriptions && subscriptions[s].user == user && subscriptions[s].status == SActive {
        assert IsActiveOf(subscriptions, user, s);
        return Some(s);
      } else {
        assert forall s :: !IsActiveOf(subscriptions, user, s);
        return None;
      }
    }

    /** Line 33: when the newest payment for a subscription was made. */
    method NewestPayment(s: SubId) returns (newest: Option<Time>)
      ensures newest.None? ==> forall q :: q in payments ==> payments[q].subscription != Some(s)
      ensures newest.Some? ==>
        && (exists q :: q in payments && payments[q].subscription == Some(s) && payments[q].createdAt == newest.value)
        && (forall q :: q in payments && payments[q].subscription == Some(s) ==> payments[q].createdAt <= newest.value)
    {
      newest := None;
      var rest := payments.Keys;
      while rest != {}
        invariant rest <= payments.Keys
        invariant newest.None? ==> forall q :: q in payments && q !in rest ==> payments[q].subscription != Some(s)
        invariant newest.Some? ==>
          && (exists q :: q in payments && payments[q].subscription == Some(s) && payments[q].createdAt == newest.value)
          && (forall q :: q in payments && q !in rest && payments[q].subscription == Some(s) ==> payments[q].createdAt <= newest.value)
        decreases |rest|
      {
        var q :| q in rest;
        rest := rest - {q};
        if payments[q].subscription == Some(s) && (newest.None? || payments[q].createdAt > newest.value) {
          newest := Some(payments[q].createdAt);
        }
      }
    }

    /** Line 71: the newest fulfilled purchase of a user. */
    method LatestPurchase(user: UserId) returns (latest: Option<OrderId>)
      ensures forall expected :: expected == latest <==> ExpectedIsLatest(payments, user, expected)
    {
      latest := None;
      var rest := payments.Keys;
      while rest != {}
        invariant rest <= payments.Keys
        invariant latest.None? ==> forall o :: o in payments && o !in rest ==> !IsPurchase(payments, user, o)
        invariant latest.Some? ==>
          && IsPurchase(payments, user, latest.value)
          && forall o :: o in payments && o !in rest && IsPurchase(payments, user, o) && o != latest.value ==> Older(payments, o, latest.value)
        decreases |rest|
      {
        var o :| o in rest;
        rest := rest - {o};
        if payments[o].user == user && payments[o].subscription.Some? && (latest.None? || !Older(payments, o, latest.value)) {
          latest := Some(o);
        }
      }
      forall expected
        ensures expected == latest <==> ExpectedIsLatest(payments, user, expected)
      {
        LatestIsUnique(payments, user, latest, expected);
      }
    }

    // Granting a plan, lines 30-52

    /** Lines 42-50: one redemption per user and coupon. */
    method RedeemCoupon(p: Payment, o: OrderId)
      modifies this`coupons, this`redemptions
      ensures Db() == Redeem(old(Db()), p, o)
    {
      if p.coupon.Some? && p.coupon.value in coupons {
        var code := p.coupon.value;
        if Redemption(code, p.user) !in redemptions {
          redemptions := redemptions[Redemption(code, p.user) := o];
          coupons := coupons[code := coupons[code].(redeemed := coupons[code].redeemed + 1)];
        }
      }
    }

    /** Lines 38-41: the paid period follows on a running one of the same plan, and every live
        subscription of the buyer gives way to it. */
    method StartPeriod(o: OrderId, now: Time, newSub: SubId, active: Option<SubId>)
      requires o in payments && (active.Some? ==> active.value in subscriptions)
      modifies this`subscriptions
      ensures subscriptions == Grant(old(Db()), o, now, newSub, active).subscriptions
    {
      hide PeriodEndAt, DateOf;
      var p := payments[o];
      var start := now;
      if active.Some? && subscriptions[active.value].plan == p.plan
         && subscriptions[active.value].periodEnd.Some? && subscriptions[active.value].periodEnd.value > now {
        start := subscriptions[active.value].periodEnd.value;
      }
      subscriptions := map s | s in subscriptions ::
        if subscriptions[s].user == p.user && Live(subscriptions[s])
        then subscriptions[s].(status := SCanceled, canceledAt := Some(now)) else subscriptions[s];
      subscriptions := subscriptions[newSub :=
        Subscription(p.user, p.plan, p.cycle, SActive, now, Some(PeriodEndAt(start, p.cycle)), false, None, Some(o))];
    }

    method Activate(o: OrderId, now: Time, newSub: SubId)
      requires o in payments && OneLive(subscriptions)
      modifies this
      ensures Db() == BillingSteps.Activate(old(Db()), o, now, newSub)
    {
      hide PeriodEndAt, DateOf, CancelLive, PeriodStart;
      var p := payments[o];
      if p.subscription.Some? {
        return;
      }
      var active := FindActive(p.user);
      assert active.Some? ==> IsActiveOf(subscriptions, p.user, active.value);
      if active.Some? {
        var newest := NewestPayment(active.value);
        if newest.Some? && newest.value > p.createdAt {
          payments := payments[o := p.(fulfillment := ReviewRequired)];
          return;
        }
      }
      StartPeriod(o, now, newSub, active);
      RedeemCoupon(p, o);
      payments := payments[o := p.(subscription := Some(newSub), fulfillment := Active, previous := active)];
      ghost var granted := Grant(old(Db()), o, now, newSub, active);
      RedeemLocal(old(Db()), granted, p, o);
      RedeemFrame(granted, p, o);
    }

    // Creating an order, lines 60-116

    /** Line 65: `user_id` and `request_key` are unique together. */
    method FindByKey(user: UserId, key: nat) returns (row: Option<CheckoutId>)
      requires OneKey(checkouts)
      ensures row == KeyOf(checkouts, user, key)
    {
      if c :| c in checkouts && checkouts[c].user == user && checkouts[c].requestKey == key {
        assert IsKeyOf(checkouts, user, key, c);
        return Some(c);
      } else {
        assert forall c :: !IsKeyOf(checkouts, user, key, c);
        return None;
      }
    }

    /** Line 75. */
    method FindOpen(user: UserId) returns (row: Option<CheckoutId>)
      requires OneOpen(checkouts)
      ensures row == OpenOf(checkouts, user)
    {
      if c :| c in checkouts && checkouts[c].user == user && Open(checkouts[c]) {
        assert IsOpenOf(checkouts, user, c);
        return Some(c);
      } else {
        assert forall c :: !IsOpenOf(checkouts, user, c);
        return None;
      }
    }

    /** Line 73. */
    method FindPendingRefund(user: UserId) returns (pending: bool)
      ensures pending == HasPendingRefund(refunds, user)
    {
      if o :| o in refunds && refunds[o].user == user && Unresolved(refunds[o]) {
        return true;
      } else {
        return false;
      }
    }

    /** Lines 80-96. */
    method PriceCheckout(input: OrderInput, now: Time, configured: bool) returns (r: Reservation)
      ensures r == PriceReservation(Db(), input, now, configured)
    {
      hide PeriodEndAt, DateOf;
      if input.plan !in plans || !plans[input.plan].active || plans[input.plan].free {
        return Declined(PlanUnavailable);
      }
      var coupon: Option<Coupon> := None;
      if input.coupon.Some? {
        var checked := CheckCoupon(input.coupon.value, input.plan, input.user, now);
        if checked.Refused? {
          return Declined(checked.why);
        }
        coupon := Some(checked.value);
        if checked.value.limit.Some? {
          var reserved := |Holders(checkouts, input.coupon.value)|;
          if checked.value.redeemed + reserved >= checked.value.limit.value {
            return Declined(CouponReserved);
          }
        }
      }
      var full := PlanAmount(plans[input.plan], input.cycle);
      if full.Refused? {
        return Declined(full.why);
      }
      var amount := DiscountedAmount(full.value, coupon);
      if amount.Refused? {
        return Declined(amount.why);
      }
      if amount.value > 0 && !configured {
        return Declined(PaymentsUnavailable);
      }
      return Reserved(Checkout(input.user, input.key, Fingerprint(input), input.plan, input.cycle, amount.value,
                               plans[input.plan].currency, input.coupon, Creating, None, now));
    }

    /** Lines 19-28 for what was typed; `codes` is the unique index on the code. */
    method CheckCode(text: Option<string>, codes: map<string, CouponId>, plan: PlanId, user: UserId, now: Time) returns (r: Result<Coupon>)
      ensures r == ValidateCode(Db(), codes, text, plan, user, now)
    {
      if text.None? || JsText.Trim(text.value) == "" || |text.value| > 64 {
        return Refused(CodeUnreadable);
      }
      var code := JsText.Upper(JsText.Trim(text.value));
      if code !in codes {
        return Refused(CouponInvalid);
      }
      r := CheckCoupon(codes[code], plan, user, now);
    }

    /** Lines 22-27. */
    method CheckCoupon(code: CouponId, plan: PlanId, user: UserId, now: Time) returns (r: Result<Coupon>)
      ensures r == ValidateCoupon(Db(), code, plan, user, now)
    {
      if code !in coupons {
        return Refused(CouponInvalid);
      }
      var coupon := coupons[code];
      if !coupon.active || coupon.validFrom > now || (coupon.validUntil.Some? && coupon.validUntil.value <= now) {
        return Refused(CouponInvalid);
      }
      if coupon.limit.Some? && coupon.redeemed >= coupon.limit.value {
        return Refused(CouponExhausted);
      }
      if coupon.plans != {} && plan !in coupon.plans {
        return Refused(CouponNotApplicable);
      }
      if Redemption(code, user) in redemptions {
        return Refused(CouponUsed);
      }
      return Ok(coupon);
    }

    /** Lines 65-96: the checks, in their order. */
    method DecideReservation(input: OrderInput, now: Time, configured: bool) returns (r: Reservation)
      requires OneKey(checkouts) && OneOpen(checkouts)
      ensures r == Reserve(Db(), input, now, configured)
    {
      hide PeriodEndAt, DateOf, PriceReservation, ExpectedIsLatest, Open;
      var previous := FindByKey(input.user, input.key);
      if previous.Some? {
        var row := checkouts[previous.value];
        if row.fingerprint != Fingerprint(input) {
          return Declined(KeyReused);
        }
        if row.status == Failed && row.payment.None? {
          return Declined(CheckoutRejected);
        }
        return Existing(previous.value);
      }
      var latest := LatestPurchase(input.user);
      if input.expected != latest {
        return Declined(PurchaseChanged);
      }
      var pending := FindPendingRefund(input.user);
      if pending {
        return Declined(RefundPending);
      }
      var open := FindOpen(input.user);
      if open.Some? {
        if checkouts[open.value].fingerprint == Fingerprint(input) && checkouts[open.value].payment.Some? {
          return Existing(open.value);
        }
        return Declined(CheckoutInProgress(open.value));
      }
      r := PriceCheckout(input, now, configured);
    }

    /** Lines 64-99: a granted reservation becomes a checkout row. */
    method ReserveCheckout(input: OrderInput, now: Time, configured: bool, c: CheckoutId) returns (r: Reservation)
      requires LedgerInv(Db(), now) && c !in checkouts
      modifies this`checkouts
      ensures r == Reserve(old(Db()), input, now, configured)
      ensures Db() == if r.Reserved? then AddCheckout(old(Db()), c, r.row) else old(Db())
      ensures LedgerInv(Db(), now)
    {
      hide LedgerInv, PeriodEndAt, DateOf, Reserve;
      LedgerKeys(Db(), now);
      r := DecideReservation(input, now, configured);
      if r.Reserved? {
        ReserveKeepsInv(Db(), input, now, configured, c);
        checkouts := checkouts[c := r.row];
      }
    }

    /** Line 106: the order request was turned down or its result is in doubt; a free order is not
        requested. A checkout that is still being created is closed by the first and kept open by the
        second. */
    method MarkOrderFailed(c: CheckoutId, outcome: Gateway.Outcome, now: Time)
      requires LedgerInv(Db(), now) && c in checkouts && checkouts[c].amount > 0 && outcome != Gateway.Answered
      modifies this`checkouts
      ensures Db() == OrderFailed(old(Db()), c, outcome == Gateway.TurnedDown)
      ensures c in checkouts
      ensures old(checkouts)[c].status == Creating && old(checkouts)[c].payment.None? ==> (Open(checkouts[c]) <==> outcome != Gateway.TurnedDown)
      ensures old(checkouts)[c].status != Creating || old(checkouts)[c].payment.Some? ==> checkouts == old(checkouts)
      ensures LedgerInv(Db(), now)
    {
      hide LedgerInv, PeriodEndAt, DateOf;
      OrderFailedKeepsInv(Db(), c, outcome == Gateway.TurnedDown, now);
      var row := checkouts[c];
      if row.status == Creating && row.payment.None? {
        checkouts := checkouts[c := row.(status := if outcome == Gateway.TurnedDown then Failed else Unknown)];
      }
    }

    /** Lines 110 and 125: insert the payment of an order unless it is there. */
    method UpsertPayment(c: CheckoutId, o: OrderId, now: Time) returns (saved: Payment)
      requires c in checkouts
      modifies this`payments
      ensures saved == (if o in old(payments) then old(payments)[o] else NewPayment(checkouts[c], c, now))
      ensures payments == old(payments)[o := saved]
    {
      if o in payments {
        saved := payments[o];
        assert payments == payments[o := saved];
      } else {
        saved := NewPayment(checkouts[c], c, now);
        payments := payments[o := saved];
      }
    }

    /** Lines 124-128, and the first half of lines 109-113. */
    method AttachOrder(c: CheckoutId, o: OrderId, now: Time)
      requires c in checkouts
      modifies this`payments, this`checkouts
      ensures Db() == Attach(old(Db()), c, o, now)
    {
      hide PeriodEndAt, DateOf;
      var saved := UpsertPayment(c, o, now);
      checkouts := checkouts[c := checkouts[c].(status := MirrorStatus(saved.status, Ready), payment := Some(o))];
    }

    /** Lines 109-113: the order exists; a free one is granted in the same transaction. */
    method SaveCreatedOrder(c: CheckoutId, o: OrderId, now: Time, newSub: SubId)
      requires LedgerInv(Db(), now) && c in checkouts && newSub !in subscriptions
      requires if checkouts[c].amount == 0 then o == FreeOrder(c) else o.GatewayOrder? && Attachable(Db(), c, o)
      modifies this
      ensures Db() == SaveOrder(old(Db()), c, o, now, newSub)
      ensures LedgerInv(Db(), now)
    {
      hide LedgerInv, PeriodEndAt, DateOf, Attach, Attachable;
      var amount := checkouts[c].amount;
      LedgerKeys(Db(), now);
      AttachFrame(Db(), c, o, now);
      if amount == 0 {
        SaveFreeKeepsInv(Db(), c, now, newSub);
      } else {
        AttachKeepsInv(Db(), c, o, now);
      }
      AttachOrder(c, o, now);
      if amount == 0 {
        Activate(o, now, newSub);
      }
    }

    /** Lines 118-131: an order that the provider reports, with the checkout, amount and currency it
        names. `missing` is what line 119 found. Every provider order is attachable:
        `BillingSafety.ProviderOrderAttaches`. */
    method RecoverPayment(o: OrderId, missing: bool, c: Option<CheckoutId>, amount: nat, currency: nat, now: Time) returns (r: Result<OrderId>)
      requires LedgerInv(Db(), now) && o.GatewayOrder? && (!missing ==> o in payments)
      requires Names(checkouts, c, amount, currency) ==> Attachable(Db(), c.value, o) && checkouts[c.value].amount > 0
      modifies this`payments, this`checkouts
      ensures r == if !missing || Names(old(checkouts), c, amount, currency) then Ok(o) else Refused(UnknownOrder)
      ensures Db() == if missing && r.Ok? then Attach(old(Db()), c.value, o, now) else old(Db())
      ensures r.Ok? ==> o in payments
      ensures LedgerInv(Db(), now)
    {
      hide LedgerInv, PeriodEndAt, DateOf, Attach, Attachable;
      if !missing {
        return Ok(o);
      }
      if c.None? || c.value !in checkouts || amount != checkouts[c.value].amount || currency != checkouts[c.value].currency {
        return Refused(UnknownOrder);
      }
      AttachKeepsInv(Db(), c.value, o, now);
      AttachFrame(Db(), c.value, o, now);
      AttachOrder(c.value, o, now);
      return Ok(o);
    }

    /** Lines 137-142. */
    method RecoverFreeCheckout(c: CheckoutId, now: Time, newSub: SubId)
      requires LedgerInv(Db(), now) && c in checkouts && checkouts[c].amount == 0 && newSub !in subscriptions
      modifies this
      ensures Db() == RecoverFree(old(Db()), c, now, newSub)
      ensures LedgerInv(Db(), now)
    {
      hide LedgerInv, PeriodEndAt, DateOf, BillingSteps.Activate, SaveOrder;
      LedgerKeys(Db(), now);
      RecoverFreeIsSaveOrder(Db(), c, now, newSub);
      SaveFreeKeepsInv(Db(), c, now, newSub);
      var row := checkouts[c];
      var saved := UpsertPayment(c, FreeOrder(c), now);
      ghost var bare := Db();
      Activate(FreeOrder(c), now, newSub);
      assert checkouts == bare.checkouts by {
        ActivateFrame(bare, FreeOrder(c), now, newSub);
      }
      checkouts := checkouts[c := row.(status := Captured, payment := Some(FreeOrder(c)))];
    }

    /** Lines 152-158: the provider has no order for this receipt, a minute after it was asked. */
    method ReleaseReservation(c: CheckoutId, now: Time) returns (raced: Option<OrderId>)
      requires LedgerInv(Db(), now) && c in checkouts && checkouts[c].amount > 0
      modifies this`checkouts
      ensures Db() == Release(old(Db()), c) && c in checkouts && raced == old(checkouts)[c].payment == checkouts[c].payment
      ensures if raced.None? then !Open(checkouts[c]) else checkouts == old(checkouts)
      ensures LedgerInv(Db(), now)
    {
      hide LedgerInv, PeriodEndAt, DateOf;
      ReleaseKeepsInv(Db(), c, now);
      raced := checkouts[c].payment;
      if raced.None? {
        checkouts := checkouts[c := checkouts[c].(status := Failed)];
      }
    }

    // Settling, lines 165-194

    /** Lines 179-186: the report on a row whose charge was not taken yet. */
    method RecordReport(e: Report, now: Time)
      requires e.order in payments && !Settled(payments[e.order])
      modifies this`payments
      ensures payments == old(payments)[e.order := SettleRow(old(payments)[e.order], e, now)]
    {
      var p := payments[e.order];
      if e.status == RCaptured {
        var paidAt := now;
        if e.createdAt.Some? && e.createdAt.value > 0 {
          paidAt := if e.createdAt.value > now then now else e.createdAt.value;
        }
        p := p.(status := PCaptured, gatewayId := Some(e.id), paidAt := Some(paidAt));
      } else if e.status == RAuthorized {
        p := p.(status := PAuthorized, gatewayId := Some(e.id));
      } else if e.status == RFailed && p.status != PAuthorized {
        p := p.(status := PFailed);
      }
      payments := payments[e.order := p];
    }

    /** Lines 179-190: a report on a charge that was not taken yet. */
    method SettleOpenPayment(e: Report, now: Time, newSub: SubId)
      requires e.order in payments && !Settled(payments[e.order]) && MatchesOrder(payments[e.order], e)
      requires OneLive(subscriptions) && newSub !in subscriptions
      modifies this
      ensures Db() == Settle(old(Db()), e, now, newSub) && e.order in payments
    {
      hide PeriodEndAt, DateOf, BillingSteps.Activate, SettleRow;
      RecordReport(e, now);
      if e.status == RCaptured {
        ActivateFrame(Db(), e.order, now, newSub);
        Activate(e.order, now, newSub);
      }
      if payments[e.order].checkout.Some? && payments[e.order].checkout.value in checkouts {
        var c := payments[e.order].checkout.value;
        checkouts := checkouts[c := checkouts[c].(status := MirrorStatus(payments[e.order].status, Created))];
      }
    }

    /** Lines 168-192. A charge beyond the first is kept for review and never grants a plan. */
    method SettlePayment(e: Report, now: Time, newSub: SubId) returns (r: Result<Payment>)
      requires LedgerInv(Db(), now) && e.order in payments && e.order.GatewayOrder? && newSub !in subscriptions
      modifies this
      ensures Db() == Settle(old(Db()), e, now, newSub)
      ensures r.Refused? <==> e.amount != old(payments)[e.order].amount || e.currency != old(payments)[e.order].currency
      ensures r.Refused? ==> Db() == old(Db())
      ensures r.Ok? ==> e.order in payments && r.value == payments[e.order]
      ensures LedgerInv(Db(), now)
    {
      hide LedgerInv, PeriodEndAt, DateOf, BillingSteps.Activate, MirrorCheckout;
      SettleKeepsInv(Db(), e, now, newSub);
      LedgerKeys(Db(), now);
      var p := payments[e.order];
      if e.amount != p.amount || e.currency != p.currency {
        return Refused(AmountMismatch);
      }
      if p.status in {PCaptured, PRefunded, PPartiallyRefunded} {
        if e.status == RCaptured && p.gatewayId != Some(e.id) {
          p := p.(duplicates := p.duplicates + {e.id}, fulfillment := ReviewRequired);
        }
        payments := payments[e.order := p];
        return Ok(p);
      }
      SettleOpenPayment(e, now, newSub);
      r := Ok(payments[e.order]);
    }

    // Refunds, lines 228-323

    /** Line 231: the reduction over the provider's list. */
    method SumRefunds(listed: seq<ProviderRefund>) returns (total: nat)
      ensures total == Total(listed)
    {
      total := 0;
      var i := |listed|;
      while i > 0
        invariant 0 <= i <= |listed| && total == Total(listed[i..])
      {
        i := i - 1;
        assert listed[i..][1..] == listed[i + 1..];
        total := total + listed[i].amount;
      }
    }

    /** Lines 229-232. */
    method CheckListed(listed: seq<ProviderRefund>, expected: Option<RefundId>, amount: nat) returns (r: Result<nat>)
      ensures r == CheckTotals(listed, expected, amount)
      ensures r.Ok? <==> (expected.Some? ==> exists x :: x in listed && x.id == expected.value) && Total(listed) <= amount && Total(listed) <= MAX_SAFE
      ensures r.Ok? ==> r.value == Total(listed)
      ensures r == Refused(NotReflected) <==> expected.Some? && forall x :: x in listed ==> x.id != expected.value
    {
      if expected.Some? {
        var found := false;
        for i := 0 to |listed|
          invariant found <==> exists k :: 0 <= k < i && listed[k].id == expected.value
        {
          found := found || listed[i].id == expected.value;
        }
        assert found <==> exists x :: x in listed && x.id == expected.value;
        if !found {
          return Refused(NotReflected);
        }
      }
      var total := SumRefunds(listed);
      if total > MAX_SAFE || total > amount {
        return Refused(TotalsNeedReview);
      }
      return Ok(total);
    }

    /** Lines 239-247. */
    method RevokePlan(snapshot: Payment, now: Time)
      requires OneLive(subscriptions)
      modifies this`subscriptions
      ensures Db() == RevokeAccess(old(Db()), snapshot, now)
    {
      hide PeriodEndAt, DateOf;
      if snapshot.subscription.None? || snapshot.subscription.value !in subscriptions
         || subscriptions[snapshot.subscription.value].user != snapshot.user {
        return;
      }
      var s := snapshot.subscription.value;
      var linked := subscriptions[s].status == SActive;
      subscriptions := subscriptions[s := subscriptions[s].(status := SCanceled, canceledAt := Some(now), periodEnd := Some(now))];
      if linked && snapshot.previous.Some? {
        var previous := snapshot.previous.value;
        if previous in subscriptions && subscriptions[previous].user == snapshot.user
           && subscriptions[previous].periodEnd.Some? && subscriptions[previous].periodEnd.value > now {
          if q :| q in payments && payments[q].subscription == Some(previous) && payments[q].status == PCaptured {
            subscriptions := subscriptions[previous := subscriptions[previous].(status := SActive, canceledAt := None)];
          }
        }
      }
    }

    /** Lines 228-250, from the provider's complete list; `snapshot` was read before the lock. */
    method ReconcileRefundBalance(o: OrderId, snapshot: Payment, listed: seq<ProviderRefund>, expected: Option<RefundId>, now: Time)
      returns (r: Result<nat>)
      requires LedgerInv(Db(), now) && o in payments && o.GatewayOrder? && PaymentPast(snapshot, payments[o])
      modifies this
      ensures r == CheckTotals(listed, expected, snapshot.amount)
      ensures Db() == if r.Ok? then RecordTotal(old(Db()), o, snapshot, r.value, now) else old(Db())
      ensures LedgerInv(Db(), now)
    {
      hide LedgerInv, PeriodEndAt, DateOf, RevokeAccess;
      r := CheckListed(listed, expected, snapshot.amount);
      if r.Refused? {
        return;
      }
      RecordTotalKeepsInv(Db(), o, snapshot, r.value, now);
      LedgerKeys(Db(), now);
      var row := payments[o];
      var amount := Max(r.value, row.refunded);
      if amount == 0 {
        return;
      }
      payments := payments[o := row.(refunded := amount, status := if amount == snapshot.amount then PRefunded else PPartiallyRefunded)];
      if amount == snapshot.amount {
        RevokePlan(snapshot, now);
      }
    }

    /** Lines 256-261: what the provider says of a refund, before its effect on the balance. */
    method SaveRefundEntity(o: OrderId, e: RefundEntity, now: Time) returns (r: Result<Refund>)
      requires LedgerInv(Db(), now) && o in refunds
      modifies this`refunds
      ensures r.Ok? <==> SaveRefund(old(Db()), o, e).Ok?
      ensures r.Ok? ==> Db() == SaveRefund(old(Db()), o, e).value && o in refunds && r.value == refunds[o]
      ensures r.Refused? ==> Db() == old(Db())
      ensures LedgerInv(Db(), now)
    {
      hide LedgerInv, PeriodEndAt, DateOf;
      var row := refunds[o];
      if row.status == Processed {
        return Ok(row);
      }
      if row.gatewayRefundId.Some? && row.gatewayRefundId.value != e.id {
        return Refused(ReferenceMismatch);
      }
      var saved := row.(gatewayRefundId := Some(e.id), status := if e.status == Rejected then Rejected else Pending);
      SwapRefund(Db(), o, saved, now);
      refunds := refunds[o := saved];
      return Ok(saved);
    }

    /** Lines 252-268 in one go: a processed refund is only recorded as such once the balance that
        the provider reports covers it. */
    method SaveRefundResult(o: OrderId, paid: Payment, requested: Refund, e: RefundEntity, listed: seq<ProviderRefund>, now: Time)
      returns (r: Result<Refund>)
      requires LedgerInv(Db(), now) && o in refunds && o in payments && o.GatewayOrder? && PaymentPast(paid, payments[o])
      requires requested.amount == refunds[o].amount
      requires e.status == Processed ==> forall x :: x in listed && x.id == e.id ==> x.amount == e.amount
      modifies this
      ensures r.Ok? ==> o in refunds && o in payments && r.value == refunds[o]
      ensures r.Ok? && r.value.status == Processed ==> r.value.amount <= payments[o].refunded
      ensures r.Ok? && e.status == Processed ==> r.value.status == Processed
      ensures LedgerInv(Db(), now)
    {
      hide PeriodEndAt, DateOf, LedgerInv, RecordTotal;
      LedgerRows(Db(), now);
      if Some(e.payment) != paid.gatewayId || e.amount != requested.amount {
        return Refused(ResponseNeedsReview);
      }
      r := SaveRefundEntity(o, e, now);
      LedgerRows(Db(), now);
      if r.Refused? || r.value.status == Processed || e.status != Processed {
        return;
      }
      ghost var before := Db();
      var totals := ReconcileRefundBalance(o, paid, listed, Some(e.id), now);
      if totals.Refused? {
        return Refused(totals.why);
      }
      ghost var found :| found in listed && found.id == e.id;
      TotalOfMember(listed, found);
      RecordTotalFrame(before, o, paid, totals.value, now);
      SwapRefund(Db(), o, refunds[o].(status := Processed), now);
      refunds := refunds[o := refunds[o].(status := Processed)];
      r := Ok(refunds[o]);
    }

    /** Lines 270-286: the one refund record of a payment, once the request itself is in order. */
    method RequestRefund(user: UserId, o: OrderId, reason: string, note: string, acceptedTerms: bool, configured: bool,
                         administrator: bool, key: nat, now: Time)
      returns (r: Result<Option<Refund>>)
      requires LedgerInv(Db(), now) && forall q :: q in refunds ==> refunds[q].key != key
      modifies this`refunds
      ensures r == if !RefundTermsMet(reason, note, acceptedTerms) then Refused(RefundTermsNotMet)
                   else if !configured then Refused(RefundsUnavailable)
                   else RefundRequest(old(Db()), user, o, administrator, key, now)
      ensures r == Refused(RefundTermsNotMet) <==> |JsText.Trim(reason)| < 3 || |reason| > 200 || |note| > 1000 || !acceptedTerms
      ensures Db() == if r.Ok? && r.value.Some? then AddRefund(old(Db()), o, r.value.value) else old(Db())
      ensures LedgerInv(Db(), now)
    {
      hide LedgerInv, PeriodEndAt, DateOf;
      if |JsText.Trim(reason)| < 3 || |reason| > 200 || |note| > 1000 || !acceptedTerms {
        return Refused(RefundTermsNotMet);
      }
      if !configured {
        return Refused(RefundsUnavailable);
      }
      if o !in payments || payments[o].user != user {
        return Refused(NotFound);
      }
      if o in refunds {
        return Ok(None);
      }
      var p := payments[o];
      var why := RefundEligibility(p, o, false, now);
      if why.Some? && !(administrator && p.status in {PCaptured, PPartiallyRefunded} && Remaining(p) > 0 && Refundable(p, o)) {
        return Refused(why.value);
      }
      var refund := Refund(key, user, Remaining(p), Requested, None);
      AddRefundKeepsInv(Db(), o, refund, now);
      refunds := refunds[o := refund];
      return Ok(Some(refund));
    }

    /** Lines 299-307: what to ask the provider for. `paid` and `requested` were read earlier; the key
        and the amount that go out are those of the record, and the charge is that of the reading:
        the payment's own, if the reading was of a captured one. */
    method BeginSubmission(o: OrderId, paid: Payment, requested: Refund, now: Time) returns (next: Submission)
      requires LedgerInv(Db(), now) && o in refunds && o in payments && PaymentPast(paid, payments[o])
      requires requested.key == refunds[o].key && requested.amount == refunds[o].amount
      modifies this`refunds
      ensures Db() == if next.Post? then MarkProcessing(old(Db()), o) else old(Db())
      ensures o in refunds && match next
        case Post(charge, key, amount) =>
          && key == refunds[o].key && amount == refunds[o].amount && refunds[o].gatewayRefundId.None?
          && charge == paid.gatewayId && (Settled(paid) ==> charge == payments[o].gatewayId)
        case Fetch(id) => refunds[o].gatewayRefundId == Some(id)
        case Done => refunds[o].status == Processed || refunds[o].status == Rejected
      ensures LedgerInv(Db(), now)
    {
      hide LedgerInv, PeriodEndAt, DateOf;
      var row := refunds[o];
      if row.status in {Processed, Rejected} {
        return Done;
      }
      if row.gatewayRefundId.Some? {
        return Fetch(row.gatewayRefundId.value);
      }
      if row.status in {Requested, Uncertain, Processing} {
        SwapRefund(Db(), o, row.(status := Processing), now);
        refunds := refunds[o := row.(status := Processing)];
      }
      return Post(paid.gatewayId, requested.key, requested.amount);
    }

    /** Line 309: a running request without a provider reference has failed if the provider turned it down;
        otherwise its result is in doubt, and it can be sent again. */
    method SubmissionFailed(o: OrderId, outcome: Gateway.Outcome, now: Time)
      requires LedgerInv(Db(), now) && o in refunds && outcome != Gateway.Answered
      modifies this`refunds
      ensures Db() == RefundFailed(old(Db()), o, outcome == Gateway.TurnedDown)
      ensures o in refunds
      ensures old(refunds)[o].status == Processing && old(refunds)[o].gatewayRefundId.None? ==>
        if outcome == Gateway.TurnedDown then refunds[o].status == Rejected
        else Unresolved(refunds[o]) && refunds[o].gatewayRefundId.None? && refunds[o].key == old(refunds)[o].key
      ensures old(refunds)[o].status != Processing || old(refunds)[o].gatewayRefundId.Some? ==> refunds == old(refunds)
      ensures LedgerInv(Db(), now)
    {
      hide LedgerInv, PeriodEndAt, DateOf;
      var row := refunds[o];
      if row.status == Processing && row.gatewayRefundId.None? {
        SwapRefund(Db(), o, row.(status := if outcome == Gateway.TurnedDown then Rejected else Uncertain), now);
        refunds := refunds[o := row.(status := if outcome == Gateway.TurnedDown then Rejected else Uncertain)];
      }
    }

    // Expiry: backend/worker/index.js, lines 496-565

    /** Lines 520-561 for one row of the scan, `seen` being what the scan read. */
    method ProcessExpired(s: SubId, seen: Subscription, scan: Time, now: Time, newSub: SubId)
      requires LedgerInv(Db(), now) && s in subscriptions && newSub !in subscriptions && seen.periodEnd.Some?
      modifies this`subscriptions
      ensures Db() ==
        if scan < seen.periodEnd.value + GRACE
        then (if seen.status == SPastDue then old(Db()) else MarkPastDue(old(Db()), s, scan))
        else Expire(old(Db()), s, scan, now, newSub)
      ensures LedgerInv(Db(), now)
    {
      hide LedgerInv, PeriodEndAt, DateOf;
      if scan < seen.periodEnd.value + GRACE {
        MarkPastDueKeepsInv(Db(), s, scan, now);
        var row := subscriptions[s];
        if seen.status != SPastDue && row.status == SActive && row.periodEnd.Some? && row.periodEnd.value < scan {
          subscriptions := subscriptions[s := row.(status := SPastDue)];
        }
      } else {
        ExpireKeepsInv(Db(), s, scan, now, newSub);
        ExpireUnderLock(s, scan, now, newSub);
      }
    }

    /** Lines 535-561. */
    method ExpireUnderLock(s: SubId, scan: Time, now: Time, newSub: SubId)
      requires s in subscriptions
      modifies this`subscriptions
      ensures Db() == Expire(old(Db()), s, scan, now, newSub)
    {
      hide PeriodEndAt, DateOf;
      var row := subscriptions[s];
      if !(row.status in {SActive, SPastDue} && row.periodEnd.Some? && row.periodEnd.value < scan) {
        return;
      }
      subscriptions := subscriptions[s := row.(status := SExpired, canceledAt := Some(now))];
      if t :| t in subscriptions && subscriptions[t].user == row.user && Entitled(subscriptions[t], scan) {
        return;
      }
      subscriptions := subscriptions[newSub := Subscription(row.user, FREE, Monthly, SActive, now, None, false, None, None)];
    }

    /** The whole scan, undisturbed: a plan that ended is past due for three days, then expired, and
        no account is left without a plan. */
    method ProcessDunning(scan: Time, now: Time, firstId: SubId)
      requires LedgerInv(Db(), now) && forall s :: s in subscriptions ==> s < firstId
      modifies this`subscriptions
      ensures forall s :: s in old(subscriptions) ==> s in subscriptions && Dunned(old(subscriptions)[s], subscriptions[s], scan, now)
      ensures forall s :: s in old(subscriptions) && Lapsed(old(subscriptions)[s], scan) ==>
        HasPlan(subscriptions, old(subscriptions)[s].user, scan)
      ensures forall t :: t in subscriptions && t !in old(subscriptions) ==> FreePlan(subscriptions[t])
      ensures LedgerInv(Db(), now)
    {
      hide LedgerInv, PeriodEndAt, DateOf, MarkPastDue, Expire, Dunned, HasPlan, Lapsed;
      ghost var before := subscriptions;
      var expired := set s | s in subscriptions && EndedBefore(subscriptions[s], scan);
      forall s | s in before && !EndedBefore(before[s], scan)
        ensures Dunned(before[s], subscriptions[s], scan, now) && !Lapsed(before[s], scan)
      {
        StillRunning(before[s], scan, now);
      }
      var nextId := firstId;
      while expired != {}
        invariant expired <= before.Keys <= subscriptions.Keys
        invariant forall s :: s in subscriptions ==> s < nextId
        invariant forall s :: s in expired ==> subscriptions[s] == before[s] && EndedBefore(before[s], scan)
        invariant forall s :: s in before && s !in expired ==> Dunned(before[s], subscriptions[s], scan, now)
        invariant forall s :: s in before && s !in expired && Lapsed(before[s], scan) ==> HasPlan(subscriptions, before[s].user, scan)
        invariant forall t :: t in subscriptions && t !in before ==> FreePlan(subscriptions[t])
        invariant LedgerInv(Db(), now)
        decreases |expired|
      {
        var s :| s in expired;
        expired := expired - {s};
        ghost var db := Db();
        ProcessExpired(s, subscriptions[s], scan, now, nextId);
        OneDunned(db, subscriptions, s, scan, now, nextId);
        forall q | q in before && q !in expired && Lapsed(before[q], scan)
          ensures HasPlan(subscriptions, before[q].user, scan)
        {
          if q != s {
            PlanStays(db.subscriptions, subscriptions, before[q].user, s, scan);
          }
        }
        nextId := nextId + 1;
      }
    }

    // backend/src/controllers/subscription.controller.js, lines 41-53, and planLimitService.js, lines 57-86

    method FindEntitled(user: UserId, now: Time) returns (s: Option<SubId>)
      ensures s.Some? ==> IsEntitledOf(subscriptions, user, now, s.value)
      ensures s.None? ==> !exists t :: IsEntitledOf(subscriptions, user, now, t)
    {
      if t :| t in subscriptions && subscriptions[t].user == user && Entitled(subscriptions[t], now) {
        return Some(t);
      } else {
        assert forall t :: !IsEntitledOf(subscriptions, user, now, t);
        return None;
      }
    }

    /** A cancellation or its withdrawal; nothing changes when it is refused. */
    method ChangeSchedule(user: UserId, cancel: bool, now: Time) returns (done: bool)
      requires LedgerInv(Db(), now)
      modifies this`subscriptions
      ensures done == ScheduleChange(old(Db()), user, cancel, now).Some?
      ensures Db() == if done then ScheduleChange(old(Db()), user, cancel, now).value else old(Db())
      ensures LedgerInv(Db(), now)
    {
      hide LedgerInv, PeriodEndAt, DateOf, Entitled, OneLive, HasPendingRefund, ScheduleChange;
      LedgerKeys(Db(), now);
      var pending := FindPendingRefund(user);
      if pending {
        ScheduleRefused(Db(), user, cancel, now);
        return false;
      }
      var active := FindEntitled(user, now);
      if active.None? {
        ScheduleRefused(Db(), user, cancel, now);
        return false;
      }
      ScheduleOf(Db(), user, cancel, now, active.value);
      var row := subscriptions[active.value];
      if (row.plan in plans && plans[row.plan].free) || (cancel && row.periodEnd.None?) {
        return false;
      }
      ScheduleChangeKeepsInv(Db(), user, cancel, now);
      subscriptions := subscriptions[active.value := row.(cancelAtPeriodEnd := cancel, canceledAt := if cancel then Some(now) else None)];
      return true;
    }

    method GetActiveSubscription(user: UserId, now: Time) returns (entitlement: Entitlement)
      requires OneLive(subscriptions)
      ensures entitlement == EntitlementOf(Db(), user, now)
    {
      hide PeriodEndAt, DateOf;
      var active := FindEntitled(user, now);
      if active.Some? {
        EntitledIsUnique(subscriptions, user, now, active.value);
        return Entitlement(subscriptions[active.value].plan, subscriptions[active.value].periodEnd);
      }
      return Entitlement(FREE, None);
    }
  }

  /** Line 123: the provider's order is for this checkout. */
  predicate Names(checkouts: map<CheckoutId, Checkout>, c: Option<CheckoutId>, amount: nat, currency: nat) {
    c.Some? && c.value in checkouts && amount == checkouts[c.value].amount && currency == checkouts[c.value].currency
  }

  /** What a refund submission does next. */
  datatype Submission = Done | Fetch(id: RefundId) | Post(charge: Option<GatewayId>, key: nat, amount: nat)

  // The expiry scan

  predicate EndedBefore(s: Subscription, scan: Time) {
    s.status in {SActive, SPastDue} && s.periodEnd.Some? && s.periodEnd.value < scan
  }

  /** Ended, and three more days are over too. */
  predicate Lapsed(s: Subscription, scan: Time) {
    EndedBefore(s, scan) && s.periodEnd.value + 259200000 <= scan
  }

  /** Why a plan is not cancelled or resumed: a refund is pending, no plan is in force, it is free, or it
      has no end to be cancelled at. */
  ghost predicate Unchangeable(db: Ledger, user: UserId, cancel: bool, now: Time) {
    || (exists o :: o in db.refunds && db.refunds[o].user == user && Unresolved(db.refunds[o]))
    || (forall s | s in db.subscriptions && db.subscriptions[s].user == user && db.subscriptions[s].status == SActive ::
          || (db.subscriptions[s].periodEnd.Some? && db.subscriptions[s].periodEnd.value <= now)
          || (db.subscriptions[s].plan in db.plans && db.plans[db.subscriptions[s].plan].free)
          || (cancel && db.subscriptions[s].periodEnd.None?))
  }

  predicate Dunned(before: Subscription, after: Subscription, scan: Time, now: Time) {
    after == if !EndedBefore(before, scan) then before
             else if Lapsed(before, scan) then before.(status := SExpired, canceledAt := Some(now))
             else before.(status := SPastDue)
  }

  lemma StillRunning(s: Subscription, scan: Time, now: Time)
    requires !EndedBefore(s, scan)
    ensures Dunned(s, s, scan, now) && !Lapsed(s, scan)
  {
  }

  predicate FreePlan(s: Subscription) {
    s.status == SActive && s.plan == FREE && s.periodEnd.None?
  }

  predicate HasPlan(subs: map<SubId, Subscription>, user: UserId, scan: Time) {
    exists t :: t in subs && subs[t].user == user && Entitled(subs[t], scan)
  }

  /** One row of the scan: it is dunned, no other row moves, and its owner is left with a plan. */
  lemma OneDunned(db: Ledger, after: map<SubId, Subscription>, s: SubId, scan: Time, now: Time, newSub: SubId)
    requires s in db.subscriptions && EndedBefore(db.subscriptions[s], scan) && newSub !in db.subscriptions
    requires var row := db.subscriptions[s];
             after == (if scan < row.periodEnd.value + GRACE
                       then (if row.status == SPastDue then db else MarkPastDue(db, s, scan))
                       else Expire(db, s, scan, now, newSub)).subscriptions
    ensures s in after && Dunned(db.subscriptions[s], after[s], scan, now)
    ensures forall t :: t in db.subscriptions && t != s ==> t in after && after[t] == db.subscriptions[t]
    ensures forall t :: t in after && t !in db.subscriptions ==> t == newSub && FreePlan(after[t])
    ensures Lapsed(db.subscriptions[s], scan) ==> HasPlan(after, db.subscriptions[s].user, scan)
  {
    var row := db.subscriptions[s];
    if Lapsed(row, scan) {
      var expired := db.subscriptions[s := row.(status := SExpired, canceledAt := Some(now))];
      if t :| t in expired && expired[t].user == row.user && Entitled(expired[t], scan) {
        assert after == expired;
      } else {
        assert newSub in after && Entitled(after[newSub], scan);
      }
    }
  }

  /** The order of line 71: by creation time, then by id. */
  predicate Older(payments: map<OrderId, Payment>, a: OrderId, b: OrderId)
    requires a in payments && b in payments
  {
    payments[a].createdAt < payments[b].createdAt || (payments[a].createdAt == payments[b].createdAt && IdBelow(a, b))
  }

  lemma PlanStays(subs: map<SubId, Subscription>, after: map<SubId, Subscription>, user: UserId, s: SubId, scan: Time)
    requires HasPlan(subs, user, scan) && (s in subs ==> !Entitled(subs[s], scan))
    requires forall t :: t in subs && t != s ==> t in after && after[t] == subs[t]
    ensures HasPlan(after, user, scan)
  {
    var t :| t in subs && subs[t].user == user && Entitled(subs[t], scan);
    assert t in after && after[t] == subs[t];
  }

  lemma EntitledIsUnique(subs: map<SubId, Subscription>, user: UserId, now: Time, s: SubId)
    requires OneLive(subs) && IsEntitledOf(subs, user, now, s)
    ensures forall t :: IsEntitledOf(subs, user, now, t) ==> t == s
  {
    forall t | IsEntitledOf(subs, user, now, t) ensures t == s {
      assert Live(subs[t]) && Live(subs[s]);
    }
  }

  lemma ScheduleRefused(db: Ledger, user: UserId, cancel: bool, now: Time)
    requires HasPendingRefund(db.refunds, user) || !exists s :: IsEntitledOf(db.subscriptions, user, now, s)
    ensures ScheduleChange(db, user, cancel, now).None?
  {
  }

  /** The change, once the one entitled subscription is known. */
  lemma ScheduleOf(db: Ledger, user: UserId, cancel: bool, now: Time, s: SubId)
    requires OneLive(db.subscriptions) && IsEntitledOf(db.subscriptions, user, now, s) && !HasPendingRefund(db.refunds, user)
    ensures var row := db.subscriptions[s];
            ScheduleChange(db, user, cancel, now) ==
            if (row.plan in db.plans && db.plans[row.plan].free) || (cancel && row.periodEnd.None?) then None
            else Some(db.(subscriptions := db.subscriptions[s :=
              row.(cancelAtPeriodEnd := cancel, canceledAt := if cancel then Some(now) else None)]))
  {
    hide OneLive, HasPendingRefund, Entitled;
    EntitledIsUnique(db.subscriptions, user, now, s);
  }

  /** A plan in force is cancelled or resumed if and only if nothing speaks against it; then its row says
      so, and nothing else changes. */
  lemma ScheduledExactly(db: Ledger, user: UserId, cancel: bool, now: Time)
    requires OneLive(db.subscriptions)
    ensures ScheduleChange(db, user, cancel, now).None? <==> Unchangeable(db, user, cancel, now)
    ensures ScheduleChange(db, user, cancel, now).Some? ==>
      exists s ::
        && s in db.subscriptions && db.subscriptions[s].user == user && db.subscriptions[s].status == SActive
        && (db.subscriptions[s].periodEnd.Some? ==> now < db.subscriptions[s].periodEnd.value)
        && ScheduleChange(db, user, cancel, now).value == db.(subscriptions := db.subscriptions[s :=
             db.subscriptions[s].(cancelAtPeriodEnd := cancel, canceledAt := if cancel then Some(now) else None)])
  {
    hide ScheduleChange, OneLive;
    assert HasPendingRefund(db.refunds, user) <==> exists o :: o in db.refunds && db.refunds[o].user == user && Unresolved(db.refunds[o]);
    if HasPendingRefund(db.refunds, user) || !exists s :: IsEntitledOf(db.subscriptions, user, now, s) {
      ScheduleRefused(db, user, cancel, now);
      forall s | s in db.subscriptions && db.subscriptions[s].user == user && db.subscriptions[s].status == SActive
        ensures HasPendingRefund(db.refunds, user) || (db.subscriptions[s].periodEnd.Some? && db.subscriptions[s].periodEnd.value <= now)
      {
        assert !HasPendingRefund(db.refunds, user) ==> !IsEntitledOf(db.subscriptions, user, now, s);
      }
    } else {
      var s :| IsEntitledOf(db.subscriptions, user, now, s);
      ScheduleOf(db, user, cancel, now, s);
      OnlyEntitled(db, user, cancel, now, s);
    }
  }

  lemma OnlyEntitled(db: Ledger, user: UserId, cancel: bool, now: Time, s: SubId)
    requires OneLive(db.subscriptions) && IsEntitledOf(db.subscriptions, user, now, s) && !HasPendingRefund(db.refunds, user)
    ensures Unchangeable(db, user, cancel, now) <==>
      (db.subscriptions[s].plan in db.plans && db.plans[db.subscriptions[s].plan].free) || (cancel && db.subscriptions[s].periodEnd.None?)
  {
    forall t | t in db.subscriptions && db.subscriptions[t].user == user && db.subscriptions[t].status == SActive
      ensures t == s
    {
      assert Live(db.subscriptions[t]) && Live(db.subscriptions[s]);
    }
  }

  /** Resuming a cancelled plan while it lasts gives back the tables as they were before. */
  lemma ResumeUndoesCancel(db: Ledger, user: UserId, now: Time, later: Time)
    requires OneLive(db.subscriptions) && ScheduleChange(db, user, true, now).Some?
    requires forall s :: s in db.subscriptions && db.subscriptions[s].user == user && db.subscriptions[s].status == SActive ==>
      !db.subscriptions[s].cancelAtPeriodEnd && db.subscriptions[s].canceledAt.None?
      && db.subscriptions[s].periodEnd.Some? && later < db.subscriptions[s].periodEnd.value
    ensures ScheduleChange(ScheduleChange(db, user, true, now).value, user, false, later) == Some(db)
  {
    hide ScheduleChange, OneLive;
    ScheduleSome(db, user, true, now);
    var s :| IsEntitledOf(db.subscriptions, user, now, s);
    ScheduleOf(db, user, true, now, s);
    var r := ScheduleChange(db, user, true, now).value;
    assert OneLive(r.subscriptions) by {
      SameLive(db.subscriptions, s, r.subscriptions[s]);
    }
    assert IsEntitledOf(r.subscriptions, user, later, s);
    ScheduleOf(r, user, false, later, s);
    assert r.subscriptions[s := db.subscriptions[s]] == db.subscriptions;
  }

  lemma ScheduleSome(db: Ledger, user: UserId, cancel: bool, now: Time)
    requires ScheduleChange(db, user, cancel, now).Some?
    ensures !HasPendingRefund(db.refunds, user) && exists s :: IsEntitledOf(db.subscriptions, user, now, s)
  {
  }

  lemma SameLive(subs: map<SubId, Subscription>, s: SubId, row: Subscription)
    requires OneLive(subs) && s in subs && row.user == subs[s].user && row.status == subs[s].status
    ensures OneLive(subs[s := row])
  {
  }

  lemma AttachFrame(db: Ledger, c: CheckoutId, o: OrderId, now: Time)
    requires c in db.checkouts
    ensures var r := Attach(db, c, o, now);
            o in r.payments && r.subscriptions == db.subscriptions && r.checkouts.Keys == db.checkouts.Keys
  {
  }

  lemma LatestIsUnique(payments: map<OrderId, Payment>, user: UserId, latest: Option<OrderId>, expected: Option<OrderId>)
    requires ExpectedIsLatest(payments, user, latest)
    ensures expected == latest <==> ExpectedIsLatest(payments, user, expected)
  {
  }
}
