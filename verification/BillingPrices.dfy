/** What an order costs and when it is granted, said from the columns of the tables: the exact
    condition of a reservation, and over every run the amount of every payment. */
module BillingPrices {
  import opened BillingTypes
  import opened BillingPolicy
  import opened BillingSteps
  import opened BillingWorld
  import BillingRefunds
  import BillingRows
  import BillingRuns
  import BillingSafety

  // The price of a period

  /** The column that holds the price of a period of so many months, if the plan has one. */
  function StoredPrice(plan: Plan, months: int): Option<int> {
    if months == 12 then plan.yearly
    else if months == 3 then plan.quarterly
    else if months == 1 then Some(plan.monthly)
    else None
  }

  /** The stored price of the paid period, or that of its months one by one. */
  function ListPrice(plan: Plan, cycle: Calendar.Cycle): int {
    var months := Calendar.Months(cycle);
    match StoredPrice(plan, months)
    case Some(price) => price
    case None => months * plan.monthly
  }

  /** What is left of a price: all of it; or what exceeds a flat discount; or the share that a
      percentage leaves, rounded to the unit with a half discounted in full. */
  predicate IsCharge(price: int, coupon: Option<Coupon>, amount: int) {
    match coupon
    case None => amount == price
    case Some(k) =>
      && 0 <= amount <= price
      && (k.kind == Flat ==> amount == Max(0, price - k.value))
      && (k.kind == Percent ==> -50 <= 100 * amount - price * (100 - k.value) < 50)
  }

  predicate Costless(price: int, coupon: Option<Coupon>) {
    || price == 0
    || (coupon.Some? && if coupon.value.kind == Flat then price <= coupon.value.value else price * (100 - coupon.value.value) <= 50)
  }

  function CouponIn(db: Ledger, coupon: Option<CouponId>): Option<Coupon> {
    if coupon.Some? && coupon.value in db.coupons then Some(db.coupons[coupon.value]) else None
  }

  lemma AmountIsListed(plan: Plan, cycle: Calendar.Cycle)
    ensures PlanAmount(plan, cycle) ==
            if 0 <= ListPrice(plan, cycle) <= MAX_SAFE then Ok(ListPrice(plan, cycle)) else Refused(InvalidPrice)
  {
  }

  lemma ShareLeft(price: nat, value: nat)
    requires value <= 100
    ensures var left := price - RoundPercent(price * value);
            0 <= left <= price && -50 <= 100 * left - price * (100 - value) < 50 && (left <= 0 <==> price * (100 - value) <= 50)
  {
    RoundedShare(price, value);
    assert price * (100 - value) == 100 * price - price * value;
  }

  lemma DiscountIsCharge(price: nat, coupon: Option<Coupon>)
    ensures var r := DiscountedAmount(price, coupon);
            && (r.Ok? <==> coupon.Some? ==> 0 <= coupon.value.value <= MAX_SAFE && (coupon.value.kind == Percent ==> coupon.value.value <= 100))
            && (r.Ok? ==> IsCharge(price, coupon, r.value) && (r.value == 0 <==> Costless(price, coupon)))
  {
    hide RoundPercent;
    if coupon.Some? && coupon.value.kind == Percent && 0 <= coupon.value.value <= 100 {
      ShareLeft(price, coupon.value.value);
    }
  }

  // When an order is granted

  /** Lines 84-95 with lines 22-26: the coupon runs, fits, is new to the user, its value makes sense,
      and its redemptions and open checkouts leave a place. */
  predicate CouponFits(db: Ledger, k: CouponId, plan: PlanId, user: UserId, now: Time) {
    && k in db.coupons
    && var coupon := db.coupons[k];
    && coupon.active && coupon.validFrom <= now && (coupon.validUntil.Some? ==> now < coupon.validUntil.value)
    && (coupon.plans != {} ==> plan in coupon.plans)
    && Redemption(k, user) !in db.redemptions
    && 0 <= coupon.value <= MAX_SAFE && (coupon.kind == Percent ==> coupon.value <= 100)
    && (coupon.limit.Some? ==> coupon.redeemed + |Holders(db.checkouts, k)| < coupon.limit.value)
  }

  /** Lines 80-97: what is sold, and that it can be paid for. */
  predicate Priceable(db: Ledger, input: OrderInput, now: Time, configured: bool) {
    && input.plan in db.plans && db.plans[input.plan].active && !db.plans[input.plan].free
    && var price := ListPrice(db.plans[input.plan], input.cycle);
    && 0 <= price <= MAX_SAFE
    && (input.coupon.Some? ==> CouponFits(db, input.coupon.value, input.plan, input.user, now))
    && (configured || Costless(price, CouponIn(db, input.coupon)))
  }

  /** Lines 65-79: the user has sent no such request, has seen the latest purchase, waits for no refund
      and has no checkout that can still be paid. */
  ghost predicate FreeToBuy(db: Ledger, input: OrderInput) {
    && (forall c | c in db.checkouts && db.checkouts[c].user == input.user ::
          && db.checkouts[c].requestKey != input.key
          && (db.checkouts[c].status in {Captured, PartiallyRefunded, Refunded}
              || (db.checkouts[c].status == Failed && db.checkouts[c].payment.None?)))
    && (forall o | o in db.refunds && db.refunds[o].user == input.user :: db.refunds[o].status in {Processed, Rejected})
    && (match input.expected
        case None => forall o | o in db.payments && db.payments[o].user == input.user :: db.payments[o].subscription.None?
        case Some(e) =>
          && e in db.payments && db.payments[e].user == input.user && db.payments[e].subscription.Some?
          && forall o | o in db.payments && db.payments[o].user == input.user && db.payments[o].subscription.Some? && o != e ::
               || db.payments[o].createdAt < db.payments[e].createdAt
               || (db.payments[o].createdAt == db.payments[e].createdAt && IdBelow(o, e)))
  }

  lemma PricedExactly(db: Ledger, input: OrderInput, now: Time, configured: bool)
    ensures PriceReservation(db, input, now, configured).Reserved? <==> Priceable(db, input, now, configured)
    ensures PriceReservation(db, input, now, configured).Reserved? ==>
      var row := PriceReservation(db, input, now, configured).row;
      && row == Checkout(input.user, input.key, (input.plan, input.cycle, input.coupon), input.plan, input.cycle, row.amount,
                         db.plans[input.plan].currency, input.coupon, Creating, None, now)
      && IsCharge(ListPrice(db.plans[input.plan], input.cycle), CouponIn(db, input.coupon), row.amount)
  {
    hide PlanAmount, DiscountedAmount, ListPrice, IsCharge, Costless, Holders;
    if input.plan in db.plans {
      AmountIsListed(db.plans[input.plan], input.cycle);
      var price := ListPrice(db.plans[input.plan], input.cycle);
      if 0 <= price {
        DiscountIsCharge(price, CouponIn(db, input.coupon));
      }
    }
  }

  lemma NoCheckout(db: Ledger, user: UserId, key: nat)
    ensures KeyOf(db.checkouts, user, key).None? && OpenOf(db.checkouts, user).None? <==>
      forall c | c in db.checkouts && db.checkouts[c].user == user ::
        && db.checkouts[c].requestKey != key
        && (db.checkouts[c].status in {Captured, PartiallyRefunded, Refunded}
            || (db.checkouts[c].status == Failed && db.checkouts[c].payment.None?))
  {
    forall c | c in db.checkouts && db.checkouts[c].user == user
      ensures IsKeyOf(db.checkouts, user, key, c) <==> db.checkouts[c].requestKey == key
      ensures !IsOpenOf(db.checkouts, user, c) <==>
        db.checkouts[c].status in {Captured, PartiallyRefunded, Refunded} || (db.checkouts[c].status == Failed && db.checkouts[c].payment.None?)
    {
    }
    if k: CheckoutId :| KeyOf(db.checkouts, user, key) == Some(k) {
      assert k in db.checkouts;
    } else if k: CheckoutId :| OpenOf(db.checkouts, user) == Some(k) {
      assert k in db.checkouts;
    }
  }

  lemma NoRefund(refunds: map<OrderId, Refund>, user: UserId)
    ensures !HasPendingRefund(refunds, user) <==>
      forall o | o in refunds && refunds[o].user == user :: refunds[o].status in {Processed, Rejected}
  {
    forall o | o in refunds
      ensures Unresolved(refunds[o]) <==> !(refunds[o].status in {Processed, Rejected})
    {
      BillingRefunds.EndedOrNot(refunds[o]);
    }
  }

  lemma NothingOpen(db: Ledger, input: OrderInput)
    ensures FreeToBuy(db, input) <==>
      && KeyOf(db.checkouts, input.user, input.key).None? && OpenOf(db.checkouts, input.user).None?
      && ExpectedIsLatest(db.payments, input.user, input.expected) && !HasPendingRefund(db.refunds, input.user)
  {
    hide HasPendingRefund, KeyOf, OpenOf;
    NoCheckout(db, input.user, input.key);
    NoRefund(db.refunds, input.user);
  }

  /** A new order is granted if and only if the user is free to buy and the purchase can be priced and
      paid for. The row says what was ordered, by whom and when, and its amount is the price of the
      ordered period less the discount. */
  lemma ReservedExactly(db: Ledger, input: OrderInput, now: Time, configured: bool)
    ensures Reserve(db, input, now, configured).Reserved? <==> FreeToBuy(db, input) && Priceable(db, input, now, configured)
    ensures Reserve(db, input, now, configured).Reserved? ==>
      var row := Reserve(db, input, now, configured).row;
      && row == Checkout(input.user, input.key, (input.plan, input.cycle, input.coupon), input.plan, input.cycle, row.amount,
                         db.plans[input.plan].currency, input.coupon, Creating, None, now)
      && IsCharge(ListPrice(db.plans[input.plan], input.cycle), CouponIn(db, input.coupon), row.amount)
  {
    hide PriceReservation, Priceable, FreeToBuy, ExpectedIsLatest, HasPendingRefund, IsCharge;
    NothingOpen(db, input);
    PricedExactly(db, input, now, configured);
  }

  /** What a refusal of a new order says of the tables. */
  ghost predicate Explains(why: Refusal, db: Ledger, input: OrderInput, now: Time, configured: bool) {
    match why
    case KeyReused =>
      exists c :: c in db.checkouts && db.checkouts[c].user == input.user && db.checkouts[c].requestKey == input.key
                  && db.checkouts[c].fingerprint != (input.plan, input.cycle, input.coupon)
    case CheckoutRejected =>
      exists c :: c in db.checkouts && db.checkouts[c].user == input.user && db.checkouts[c].requestKey == input.key
                  && db.checkouts[c].status == Failed && db.checkouts[c].payment.None?
    case PurchaseChanged => !ExpectedIsLatest(db.payments, input.user, input.expected)
    case RefundPending => exists o :: o in db.refunds && db.refunds[o].user == input.user && Unresolved(db.refunds[o])
    case CheckoutInProgress(c) => c in db.checkouts && db.checkouts[c].user == input.user && Open(db.checkouts[c])
    case PlanUnavailable => input.plan !in db.plans || !db.plans[input.plan].active || db.plans[input.plan].free
    case InvalidPrice => input.plan in db.plans && !(0 <= ListPrice(db.plans[input.plan], input.cycle) <= MAX_SAFE)
    case InvalidDiscount =>
      && CouponIn(db, input.coupon).Some?
      && var coupon := CouponIn(db, input.coupon).value;
      !(0 <= coupon.value <= MAX_SAFE) || (coupon.kind == Percent && coupon.value > 100)
    case PaymentsUnavailable => !configured && input.plan in db.plans && !Costless(ListPrice(db.plans[input.plan], input.cycle), CouponIn(db, input.coupon))
    case CouponReserved =>
      && CouponIn(db, input.coupon).Some? && CouponIn(db, input.coupon).value.limit.Some?
      && CouponIn(db, input.coupon).value.limit.value <= CouponIn(db, input.coupon).value.redeemed + |Holders(db.checkouts, input.coupon.value)|
    case _ => input.coupon.Some? && CouponExplains(why, db, input.coupon.value, input.plan, input.user, now)
  }

  /** What a refusal of a coupon says of it. */
  predicate CouponExplains(why: Refusal, db: Ledger, k: CouponId, plan: PlanId, user: UserId, now: Time) {
    match why
    case CouponInvalid =>
      || k !in db.coupons || !db.coupons[k].active || now < db.coupons[k].validFrom
      || (db.coupons[k].validUntil.Some? && db.coupons[k].validUntil.value <= now)
    case CouponExhausted => k in db.coupons && db.coupons[k].limit.Some? && db.coupons[k].limit.value <= db.coupons[k].redeemed
    case CouponNotApplicable => k in db.coupons && db.coupons[k].plans != {} && plan !in db.coupons[k].plans
    case CouponUsed => Redemption(k, user) in db.redemptions
    case _ => false
  }

  lemma CouponRefusalIsTrue(db: Ledger, k: CouponId, plan: PlanId, user: UserId, now: Time)
    ensures var r := ValidateCoupon(db, k, plan, user, now); r.Refused? ==> CouponExplains(r.why, db, k, plan, user, now)
  {
  }

  lemma PriceRefusalIsTrue(db: Ledger, input: OrderInput, now: Time, configured: bool)
    ensures var r := PriceReservation(db, input, now, configured); r.Declined? ==> Explains(r.why, db, input, now, configured)
    ensures !PriceReservation(db, input, now, configured).Existing?
  {
    hide PlanAmount, DiscountedAmount, ListPrice, IsCharge, Costless, Holders, ValidateCoupon;
    if input.coupon.Some? {
      CouponRefusalIsTrue(db, input.coupon.value, input.plan, input.user, now);
      CouponKnown(db, input.coupon.value, input.plan, input.user, now);
    }
    if input.plan in db.plans {
      AmountIsListed(db.plans[input.plan], input.cycle);
      var price := ListPrice(db.plans[input.plan], input.cycle);
      if 0 <= price {
        DiscountIsCharge(price, CouponIn(db, input.coupon));
        DiscountRefuses(price, CouponIn(db, input.coupon));
      }
    }
  }

  lemma DiscountRefuses(price: nat, coupon: Option<Coupon>)
    ensures var r := DiscountedAmount(price, coupon); r.Refused? ==> r.why == InvalidDiscount
  {
  }

  lemma CouponKnown(db: Ledger, k: CouponId, plan: PlanId, user: UserId, now: Time)
    ensures var r := ValidateCoupon(db, k, plan, user, now); r.Ok? ==> k in db.coupons && r.value == db.coupons[k]
  {
  }

  /** The answer to a new order is true: a refusal gives a reason that holds, and an existing checkout is
      the user's own for the same purchase, either of the same request or one that can still be paid. */
  lemma AnswerIsTrue(db: Ledger, input: OrderInput, now: Time, configured: bool)
    ensures var r := Reserve(db, input, now, configured);
            && (r.Declined? ==> Explains(r.why, db, input, now, configured))
            && (r.Existing? ==>
                  && r.id in db.checkouts && db.checkouts[r.id].user == input.user
                  && db.checkouts[r.id].fingerprint == (input.plan, input.cycle, input.coupon)
                  && (db.checkouts[r.id].requestKey == input.key || (Open(db.checkouts[r.id]) && db.checkouts[r.id].payment.Some?)))
  {
    hide PriceReservation, ExpectedIsLatest, Open, Unresolved, ListPrice, Costless, CouponExplains, Holders;
    PriceRefusalIsTrue(db, input, now, configured);
  }

  // Over runs

  /** The amount of a checkout is the price of its plan and period less its discount. */
  predicate Priced(db: Ledger, row: Checkout) {
    && row.plan in db.plans && row.currency == db.plans[row.plan].currency && !db.plans[row.plan].free
    && (row.coupon.Some? ==> row.coupon.value in db.coupons)
    && IsCharge(ListPrice(db.plans[row.plan], row.cycle), CouponIn(db, row.coupon), row.amount)
  }

  ghost predicate AllPriced(db: Ledger) {
    forall c :: c in db.checkouts ==> Priced(db, db.checkouts[c])
  }

  lemma SettleAddsNoCheckout(w: World, e: Report, newSub: SubId)
    requires Enabled(w, SettleStep(e, newSub))
    ensures Apply(w, SettleStep(e, newSub)).db.checkouts.Keys == w.db.checkouts.Keys
  {
    if MatchesOrder(w.db.payments[e.order], e) {
      BillingSafety.SettleFrame(w.db, e, w.now, newSub);
    }
  }

  lemma SaveAddsNoCheckout(w: World, c: CheckoutId, o: OrderId, newSub: SubId)
    requires Enabled(w, SaveOrderStep(c, o, newSub))
    ensures Apply(w, SaveOrderStep(c, o, newSub)).db.checkouts.Keys == w.db.checkouts.Keys
  {
    hide Activate;
    BillingInvariant.ActivateFrame(Attach(w.db, c, o, w.now), o, w.now, newSub);
  }

  lemma RecoverFreeAddsNoCheckout(w: World, c: CheckoutId, newSub: SubId)
    requires BillingWorld.Inv(w) && Enabled(w, RecoverFreeStep(c, newSub))
    ensures Apply(w, RecoverFreeStep(c, newSub)).db.checkouts.Keys == w.db.checkouts.Keys
  {
    hide BillingInvariant.LedgerInv, SaveOrder, RecoverFree;
    BillingSafety.LedgerOf(w);
    BillingPreservation.RecoverFreeIsSaveOrder(w.db, c, w.now, newSub);
    SaveAddsNoCheckout(w, c, FreeOrder(c), newSub);
  }

  lemma ReconcileAddsNoCheckout(w: World, o: OrderId, paid: Payment, listed: nat, expected: Option<RefundId>)
    requires Enabled(w, ReconcileStep(o, paid, listed, expected))
    ensures Apply(w, ReconcileStep(o, paid, listed, expected)).db.checkouts == w.db.checkouts
  {
    BillingPreservation.RecordTotalFrame(w.db, o, paid, Total(ProcessedOf(w, paid.gatewayId.value)[..listed]), w.now);
  }

  lemma FailureAddsNoCheckout(w: World, c: CheckoutId, rejection: bool)
    requires Enabled(w, OrderFailedStep(c, rejection))
    ensures Apply(w, OrderFailedStep(c, rejection)).db.checkouts.Keys == w.db.checkouts.Keys
  {
  }

  lemma RecoveryAddsNoCheckout(w: World, o: OrderId)
    requires Enabled(w, RecoverStep(o))
    ensures Apply(w, RecoverStep(o)).db.checkouts.Keys == w.db.checkouts.Keys
  {
    hide NewPayment;
  }

  lemma ReleaseAddsNoCheckout(w: World, c: CheckoutId)
    requires Enabled(w, ReleaseStep(c))
    ensures Apply(w, ReleaseStep(c)).db.checkouts.Keys == w.db.checkouts.Keys
  {
  }

  lemma OnlyReservationsAdd(w: World, step: Step)
    requires Inv(w) && Enabled(w, step) && !step.ReserveStep?
    ensures Apply(w, step).db.checkouts.Keys == w.db.checkouts.Keys
  {
    hide Inv, Enabled, Apply;
    if BillingRows.IsOutside(step) {
      BillingRows.OutsideWritesNothing(w, step);
    } else if BillingRows.WritesRefunds(step) {
      BillingRows.RefundsFrame(w, step);
    } else if BillingRows.WritesSubscriptions(step) {
      BillingRows.SubscriptionsFrame(w, step);
    } else {
      match step
      case SaveOrderStep(c, o, newSub) => SaveAddsNoCheckout(w, c, o, newSub);
      case RecoverFreeStep(c, newSub) => RecoverFreeAddsNoCheckout(w, c, newSub);
      case SettleStep(e, newSub) => SettleAddsNoCheckout(w, e, newSub);
      case ReconcileStep(o, paid, listed, expected) => ReconcileAddsNoCheckout(w, o, paid, listed, expected);
      case OrderFailedStep(c, rejection) => FailureAddsNoCheckout(w, c, rejection);
      case RecoverStep(o) => RecoveryAddsNoCheckout(w, o);
      case ReleaseStep(c) => ReleaseAddsNoCheckout(w, c);
    }
  }

  lemma ReservationAddsPriced(w: World, input: OrderInput, configured: bool, c: CheckoutId)
    requires Enabled(w, ReserveStep(input, configured, c)) && AllPriced(w.db)
    ensures AllPriced(Apply(w, ReserveStep(input, configured, c)).db)
  {
    hide Reserve, IsCharge, ListPrice, FreeToBuy;
    ReservedExactly(w.db, input, w.now, configured);
  }

  /** Prices are fixed when the order is made. */
  lemma PricedStays(a: Ledger, b: Ledger)
    requires BillingHistory.Advance(a, b) && AllPriced(a) && b.checkouts.Keys == a.checkouts.Keys
    ensures AllPriced(b)
  {
    hide ListPrice;
    forall c | c in b.checkouts
      ensures Priced(b, b.checkouts[c])
    {
      assert Priced(a, a.checkouts[c]) && BillingHistory.CheckoutPast(a.checkouts[c], b.checkouts[c]);
    }
  }

  lemma {:induction false} RunKeepsPriced(w: World, run: seq<Step>)
    requires Inv(w) && CanRun(w, run) && AllPriced(w.db)
    ensures AllPriced(Run(w, run).db)
    decreases |run|
  {
    hide Inv, Enabled, Apply, AllPriced;
    if run != [] {
      BillingSafety.StepKeepsInv(w, run[0]);
      if run[0].ReserveStep? {
        ReservationAddsPriced(w, run[0].input, run[0].configured, run[0].c);
      } else {
        OnlyReservationsAdd(w, run[0]);
        PricedStays(w.db, Apply(w, run[0]).db);
      }
      RunKeepsPriced(Apply(w, run[0]), run[1..]);
    }
  }

  /** In every reachable state a payment costs what its plan's columns say for its period, in the plan's
      currency, less the discount of its coupon; and it is its checkout's. */
  lemma PaymentIsPriced(w: World, o: OrderId)
    requires BillingRuns.Reachable(w) && o in w.db.payments
    ensures var p := w.db.payments[o];
            && p.plan in w.db.plans && p.currency == w.db.plans[p.plan].currency && !w.db.plans[p.plan].free
            && IsCharge(ListPrice(w.db.plans[p.plan], p.cycle), CouponIn(w.db, p.coupon), p.amount)
            && (o.FreeOrder? ==> p.amount == 0)
    ensures var p := w.db.payments[o];
            p.checkout.Some? && p.checkout.value in w.db.checkouts && w.db.checkouts[p.checkout.value].amount == p.amount
  {
    hide CanRun, Run, Init, IsCharge, ListPrice;
    var start: World, run: seq<Step> :| Init(start) && CanRun(start, run) && Run(start, run) == w;
    InitHasInv(start);
    NothingPriced(start);
    RunKeepsPriced(start, run);
    BillingRuns.ReachableHasInv(w);
    HasCheckout(w, o);
    assert Priced(w.db, w.db.checkouts[w.db.payments[o].checkout.value]);
  }

  lemma NothingPriced(start: World)
    requires Init(start)
    ensures AllPriced(start.db)
  {
  }

  lemma HasCheckout(w: World, o: OrderId)
    requires Inv(w) && o in w.db.payments
    ensures var p := w.db.payments[o];
            && p.checkout.Some? && p.checkout.value in w.db.checkouts
            && BillingInvariant.CopiedFrom(p, w.db.checkouts[p.checkout.value]) && (o.FreeOrder? ==> p.amount == 0)
  {
    BillingInvariant.LedgerRows(w.db, w.now);
    assert BillingInvariant.FreeRows(w.db.checkouts, w.db.payments);
  }
}
