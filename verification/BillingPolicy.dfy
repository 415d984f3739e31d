/** Prices, discounts, coupon checks and the refund window: backend/src/services/billingPolicy.js,
    lines 3-45, and `validateBillingCoupon` in billing.service.js, lines 19-28. Codes are texts
    where they are typed and ids afterwards. */
module BillingPolicy {
  import opened BillingTypes
  import opened JsText

  datatype Refusal =
    | KeyReused | CheckoutRejected | PurchaseChanged | RefundPending | CheckoutInProgress(open: CheckoutId)
    | PlanUnavailable | InvalidPrice | InvalidDiscount | PaymentsUnavailable
    | CodeUnreadable | CouponInvalid | CouponExhausted | CouponNotApplicable | CouponUsed | CouponReserved
    | NotFound | NoRefundableCharge | NotCaptured | NoBalance | WindowEnded | AlreadyRequested
    | RefundTermsNotMet | RefundsUnavailable
    | AmountMismatch | UnknownOrder | TotalsNeedReview | NotReflected | ReferenceMismatch | ResponseNeedsReview

  datatype Result<+T> = Ok(value: T) | Refused(why: Refusal)

  const MAX_SAFE := 0x1F_FFFF_FFFF_FFFF
  const REFUND_WINDOW := 14 * 24 * 60 * 60 * 1000

  /** Lines 18-24. */
  function PlanAmount(plan: Plan, cycle: Calendar.Cycle): Result<nat> {
    var amount := match cycle
      case Monthly => plan.monthly
      case Quarterly => if plan.quarterly.Some? then plan.quarterly.value else plan.monthly * 3
      case Yearly => if plan.yearly.Some? then plan.yearly.value else plan.monthly * 12;
    if 0 <= amount <= MAX_SAFE then Ok(amount) else Refused(InvalidPrice)
  }

  /** `Math.round(n / 100)` of a non-negative `n`. */
  function RoundPercent(n: int): int { (n + 50) / 100 }

  /** Lines 26-33. */
  function DiscountedAmount(amount: nat, coupon: Option<Coupon>): Result<nat> {
    if coupon.None? then Ok(amount)
    else
      var value := coupon.value.value;
      if !(0 <= value <= MAX_SAFE) || (coupon.value.kind == Percent && value > 100) then Refused(InvalidDiscount)
      else Ok(Max(0, amount - if coupon.value.kind == Percent then RoundPercent(amount * value) else value))
  }

  lemma RoundedShare(amount: nat, value: nat)
    requires value <= 100
    ensures 0 <= RoundPercent(amount * value) <= amount
    ensures -50 < 100 * RoundPercent(amount * value) - amount * value <= 50
  {
    assert amount * value <= amount * 100;
    assert amount * value >= 0;
  }

  /** What a discount leaves to pay: a percentage of the price to within half a minor unit,
      or the price less a flat amount, and never less than nothing or more than the price. */
  lemma DiscountMeaning(amount: nat, coupon: Coupon)
    ensures var r := DiscountedAmount(amount, Some(coupon));
            && (r.Ok? <==> 0 <= coupon.value <= MAX_SAFE && (coupon.kind == Percent ==> coupon.value <= 100))
            && (r.Ok? ==> r.value <= amount)
            && (r.Ok? && coupon.kind == Percent ==>
                  -50 <= 100 * r.value - amount * (100 - coupon.value) < 50)
            && (r.Ok? && coupon.kind == Flat ==> r.value == if coupon.value >= amount then 0 else amount - coupon.value)
  {
    if coupon.kind == Percent && 0 <= coupon.value <= 100 {
      RoundedShare(amount, coupon.value);
      assert amount * (100 - coupon.value) == 100 * amount - amount * coupon.value;
    }
  }

  /** Lines 22-26, in the order of the checks. */
  function ValidateCoupon(db: Ledger, code: CouponId, plan: PlanId, user: UserId, now: Time): Result<Coupon> {
    if code !in db.coupons then Refused(CouponInvalid)
    else
      var coupon := db.coupons[code];
      if !coupon.active || coupon.validFrom > now || (coupon.validUntil.Some? && coupon.validUntil.value <= now) then Refused(CouponInvalid)
      else if coupon.limit.Some? && coupon.redeemed >= coupon.limit.value then Refused(CouponExhausted)
      else if coupon.plans != {} && plan !in coupon.plans then Refused(CouponNotApplicable)
      else if Redemption(code, user) in db.redemptions then Refused(CouponUsed)
      else Ok(coupon)
  }

  /** Lines 20-21: what was typed, and the coupon of that code. */
  function CouponOf(codes: map<string, CouponId>, text: Option<string>): Result<CouponId> {
    if text.None? || Trim(text.value) == "" || |text.value| > 64 then Refused(CodeUnreadable)
    else if Upper(Trim(text.value)) !in codes then Refused(CouponInvalid)
    else Ok(codes[Upper(Trim(text.value))])
  }

  function ValidateCode(db: Ledger, codes: map<string, CouponId>, text: Option<string>, plan: PlanId, user: UserId, now: Time): Result<Coupon> {
    var code := CouponOf(codes, text);
    if code.Refused? then Refused(code.why) else ValidateCoupon(db, code.value, plan, user, now)
  }

  /** `gateway === 'razorpay'` is the same as the order being the provider's. */
  predicate Refundable(p: Payment, order: OrderId) {
    order.GatewayOrder? && p.gatewayId.Some?
  }

  /** Lines 35-46: why a payment may not be refunded by its owner; `None` when it may. */
  function RefundEligibility(p: Payment, order: OrderId, existing: bool, now: Time): Option<Refusal> {
    var paidAt := if p.paidAt.Some? then p.paidAt.value else p.createdAt;
    if existing then Some(AlreadyRequested)
    else if p.status != PCaptured && p.status != PPartiallyRefunded then Some(NotCaptured)
    else if p.amount <= p.refunded then Some(NoBalance)
    else if !Refundable(p, order) then Some(NoRefundableCharge)
    else if paidAt > now || now >= paidAt + REFUND_WINDOW then Some(WindowEnded)
    else None
  }

  function Remaining(p: Payment): nat { Max(0, p.amount - p.refunded) }

  /** Line 272: a reason of 3 to 200 characters, a note of at most 1000, and the terms accepted. */
  predicate RefundTermsMet(reason: string, note: string, acceptedTerms: bool) {
    |Trim(reason)| >= 3 && |reason| <= 200 && |note| <= 1000 && acceptedTerms
  }

  /** An accepted code is one of at most 64 characters whose coupon is stored, runs now, has uses left,
      fits the plan and is new to the user; every other text is refused. */
  lemma CouponAcceptance(db: Ledger, codes: map<string, CouponId>, text: string, plan: PlanId, user: UserId, now: Time)
    ensures ValidateCode(db, codes, None, plan, user, now) == Refused(CodeUnreadable)
    ensures ValidateCode(db, codes, Some(text), plan, user, now) == Refused(CodeUnreadable) <==> Trim(text) == "" || |text| > 64
    ensures ValidateCode(db, codes, Some(text), plan, user, now).Ok? <==>
      && Trim(text) != "" && |text| <= 64 && Upper(Trim(text)) in codes
      && var code := codes[Upper(Trim(text))];
      && code in db.coupons && db.coupons[code].active
      && db.coupons[code].validFrom <= now && (db.coupons[code].validUntil.Some? ==> now < db.coupons[code].validUntil.value)
      && (db.coupons[code].limit.Some? ==> db.coupons[code].redeemed < db.coupons[code].limit.value)
      && (db.coupons[code].plans != {} ==> plan in db.coupons[code].plans)
      && Redemption(code, user) !in db.redemptions
    ensures ValidateCode(db, codes, Some(text), plan, user, now).Ok? ==>
      var code := Upper(Trim(text));
      code in codes && codes[code] in db.coupons && ValidateCode(db, codes, Some(text), plan, user, now).value == db.coupons[codes[code]]
  {
  }

  /** Self-service refunds: a captured provider charge with money left, within 14 days of payment. */
  lemma RefundAcceptance(p: Payment, order: OrderId, existing: bool, now: Time)
    ensures RefundEligibility(p, order, existing, now).None? <==>
      var paidAt := if p.paidAt.Some? then p.paidAt.value else p.createdAt;
      && !existing && (p.status == PCaptured || p.status == PPartiallyRefunded) && 0 < Remaining(p)
      && order.GatewayOrder? && p.gatewayId.Some? && paidAt <= now < paidAt + REFUND_WINDOW
  {
  }
}
