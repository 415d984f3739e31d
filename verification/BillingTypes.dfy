/** The rows of the billing tables (backend/prisma/schema.prisma, lines 130-165, 300-321 and
    412-494) and what the queries of backend/src/services/billing.service.js ask of them.

    Identifiers are numbers. A payment is keyed by its unique `gateway_order_id`, a refund by
    its unique `payment_id`. Prices carry no currency conversion, so a currency is a tag. */
module BillingTypes {
  import Calendar

  datatype Option<+T> = None | Some(value: T)

  type UserId = nat
  type PlanId = nat
  type CouponId = nat
  type CheckoutId = nat
  type SubId = nat
  type GatewayId = nat // a provider payment
  type RefundId = nat // a provider refund
  type Time = int // milliseconds

  /** `free_<checkout>` for a checkout that costs nothing, otherwise the provider's order. */
  datatype OrderId = FreeOrder(checkout: CheckoutId) | GatewayOrder(id: nat)

  datatype Plan = Plan(active: bool, free: bool, currency: nat, monthly: int, quarterly: Option<int>, yearly: Option<int>)

  datatype Discount = Percent | Flat
  datatype Coupon = Coupon(active: bool, validFrom: Time, validUntil: Option<Time>, plans: set<PlanId>,
                           limit: Option<nat>, redeemed: nat, kind: Discount, value: int)
  datatype Redemption = Redemption(coupon: CouponId, user: UserId)

  datatype CheckoutStatus = Creating | Unknown | Ready | Created | Authorized | Failed | Captured | PartiallyRefunded | Refunded
  datatype Checkout = Checkout(user: UserId, requestKey: nat, fingerprint: (PlanId, Calendar.Cycle, Option<CouponId>),
                               plan: PlanId, cycle: Calendar.Cycle, amount: nat, currency: nat, coupon: Option<CouponId>,
                               status: CheckoutStatus, payment: Option<OrderId>, createdAt: Time)

  datatype PaymentStatus = PCreated | PAuthorized | PFailed | PCaptured | PPartiallyRefunded | PRefunded
  datatype Fulfillment = NotFulfilled | Active | ReviewRequired
  datatype Payment = Payment(user: UserId, plan: PlanId, cycle: Calendar.Cycle, amount: nat, currency: nat,
                             status: PaymentStatus, gatewayId: Option<GatewayId>, refunded: nat,
                             subscription: Option<SubId>, checkout: Option<CheckoutId>, coupon: Option<CouponId>,
                             previous: Option<SubId>, fulfillment: Fulfillment, duplicates: set<GatewayId>,
                             paidAt: Option<Time>, createdAt: Time)

  datatype SubStatus = SActive | SPastDue | STrialing | SCanceled | SExpired
  datatype Subscription = Subscription(user: UserId, plan: PlanId, cycle: Calendar.Cycle, status: SubStatus, startedAt: Time,
                                       periodEnd: Option<Time>, cancelAtPeriodEnd: bool, canceledAt: Option<Time>,
                                       order: Option<OrderId>)

  datatype RefundStatus = Requested | Processing | Pending | Uncertain | Processed | Rejected
  datatype Refund = Refund(key: nat, user: UserId, amount: nat, status: RefundStatus, gatewayRefundId: Option<RefundId>)

  /** The tables. The rule for the end of a paid period is a parameter of the ledger, so what is
      proved of the tables holds for every calendar; the service runs on `Calendar.PeriodEndAt`. */
  datatype Ledger = Ledger(
    periodEnd: (Time, Calendar.Cycle) -> Time,
    plans: map<PlanId, Plan>,
    coupons: map<CouponId, Coupon>,
    redemptions: map<Redemption, OrderId>,
    checkouts: map<CheckoutId, Checkout>,
    payments: map<OrderId, Payment>,
    subscriptions: map<SubId, Subscription>,
    refunds: map<OrderId, Refund>)

  /** The plan every account falls back to (key `free`). */
  const FREE: PlanId := 0

  /** What the provider says about one payment attempt. */
  datatype ReportStatus = RCaptured | RAuthorized | RFailed | ROther
  datatype Report = Report(id: GatewayId, order: OrderId, amount: nat, currency: nat, status: ReportStatus, createdAt: Option<Time>)

  /** A processed refund as listed by the provider. */
  datatype ProviderRefund = ProviderRefund(id: RefundId, amount: nat)

  function Total(refunds: seq<ProviderRefund>): nat {
    if refunds == [] then 0 else refunds[0].amount + Total(refunds[1..])
  }

  // Queries on one row

  /** Lines 75 and 87-90: a checkout that can still be paid. */
  predicate Open(c: Checkout) {
    c.status in {Creating, Unknown, Authorized, Ready, Created} || (c.status == Failed && c.payment.Some?)
  }

  /** Line 171: the charge was taken, whatever was returned since. */
  predicate Settled(p: Payment) {
    p.status in {PCaptured, PRefunded, PPartiallyRefunded}
  }

  /** Line 40: statuses that a new purchase replaces. */
  predicate Live(s: Subscription) {
    s.status in {SActive, SPastDue, STrialing}
  }

  /** Line 73: a refund whose outcome is not known yet. */
  predicate Unresolved(r: Refund) {
    r.status in {Requested, Processing, Pending, Uncertain}
  }

  function Max(a: int, b: int): int { if a >= b then a else b }

  /** The status a checkout takes over from its payment (lines 111 and 126; line 189 keeps CREATED). */
  function MirrorStatus(status: PaymentStatus, created: CheckoutStatus): CheckoutStatus {
    match status
    case PCreated => created
    case PAuthorized => Authorized
    case PFailed => Failed
    case PCaptured => Captured
    case PPartiallyRefunded => PartiallyRefunded
    case PRefunded => Refunded
  }

  // Queries on tables

  predicate IsOpenOf(checkouts: map<CheckoutId, Checkout>, user: UserId, c: CheckoutId) {
    c in checkouts && checkouts[c].user == user && Open(checkouts[c])
  }

  predicate IsKeyOf(checkouts: map<CheckoutId, Checkout>, user: UserId, key: nat, c: CheckoutId) {
    c in checkouts && checkouts[c].user == user && checkouts[c].requestKey == key
  }

  predicate IsActiveOf(subs: map<SubId, Subscription>, user: UserId, s: SubId) {
    s in subs && subs[s].user == user && subs[s].status == SActive
  }

  /** The row `findFirst` returns for the open checkout of a user. */
  ghost function OpenOf(checkouts: map<CheckoutId, Checkout>, user: UserId): (r: Option<CheckoutId>)
    ensures r.Some? ==> IsOpenOf(checkouts, user, r.value)
    ensures r.None? ==> forall c :: !IsOpenOf(checkouts, user, c)
  {
    if exists c :: IsOpenOf(checkouts, user, c) then (var c :| IsOpenOf(checkouts, user, c); Some(c)) else None
  }

  ghost function KeyOf(checkouts: map<CheckoutId, Checkout>, user: UserId, key: nat): (r: Option<CheckoutId>)
    ensures r.Some? ==> IsKeyOf(checkouts, user, key, r.value)
    ensures r.None? ==> forall c :: !IsKeyOf(checkouts, user, key, c)
  {
    if exists c :: IsKeyOf(checkouts, user, key, c) then (var c :| IsKeyOf(checkouts, user, key, c); Some(c)) else None
  }

  ghost function ActiveOf(subs: map<SubId, Subscription>, user: UserId): (r: Option<SubId>)
    ensures r.Some? ==> IsActiveOf(subs, user, r.value)
    ensures r.None? ==> forall s :: !IsActiveOf(subs, user, s)
  {
    if exists s :: IsActiveOf(subs, user, s) then (var s :| IsActiveOf(subs, user, s); Some(s)) else None
  }

  /** The open checkouts that hold a place of a coupon. */
  function Holders(checkouts: map<CheckoutId, Checkout>, coupon: CouponId): set<CheckoutId> {
    set c | c in checkouts && Open(checkouts[c]) && checkouts[c].coupon == Some(coupon)
  }

  function RedemptionsOf(redemptions: map<Redemption, OrderId>, coupon: CouponId): set<Redemption> {
    set r | r in redemptions && r.coupon == coupon
  }

  // Orders on the rows, for `orderBy`

  /** Order ids are compared as their texts would be: some fixed total order. */
  predicate IdBelow(a: OrderId, b: OrderId) {
    match (a, b)
    case (FreeOrder(x), FreeOrder(y)) => x < y
    case (FreeOrder(_), GatewayOrder(_)) => true
    case (GatewayOrder(_), FreeOrder(_)) => false
    case (GatewayOrder(x), GatewayOrder(y)) => x < y
  }

  predicate IsPurchase(payments: map<OrderId, Payment>, user: UserId, o: OrderId) {
    o in payments && payments[o].user == user && payments[o].subscription.Some?
  }

  /** Lines 71-72: `expected` names the newest fulfilled purchase, or there is none. */
  predicate ExpectedIsLatest(payments: map<OrderId, Payment>, user: UserId, expected: Option<OrderId>) {
    match expected
    case None => forall o | o in payments :: !IsPurchase(payments, user, o)
    case Some(e) =>
      && IsPurchase(payments, user, e)
      && forall o | o in payments && IsPurchase(payments, user, o) && o != e ::
           || payments[o].createdAt < payments[e].createdAt
           || (payments[o].createdAt == payments[e].createdAt && IdBelow(o, e))
  }
}
