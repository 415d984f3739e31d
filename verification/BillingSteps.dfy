/** What each transaction of the billing service does to the tables, as functions of the ledger.
    The class in BillingService.dfy performs the same changes row by row and is proved equal. */
module BillingSteps {
  import opened BillingTypes
  import opened BillingPolicy

  // billing.service.js, lines 30-52: granting a plan

  /** Line 35: some payment of the active subscription is newer than this one. */
  predicate HasNewerPayment(payments: map<OrderId, Payment>, s: SubId, createdAt: Time) {
    exists q :: q in payments && payments[q].subscription == Some(s) && payments[q].createdAt > createdAt
  }

  /** Line 40. */
  function CancelLive(subs: map<SubId, Subscription>, user: UserId, now: Time): map<SubId, Subscription> {
    map s | s in subs ::
      if subs[s].user == user && Live(subs[s]) then subs[s].(status := SCanceled, canceledAt := Some(now)) else subs[s]
  }

  /** Lines 38-39: a renewal of the same plan starts where the paid period ends. */
  function PeriodStart(active: Option<Subscription>, plan: PlanId, now: Time): Time {
    if active.Some? && active.value.plan == plan && active.value.periodEnd.Some? && active.value.periodEnd.value > now
    then active.value.periodEnd.value
    else now
  }

  function Redeem(db: Ledger, p: Payment, o: OrderId): Ledger {
    if p.coupon.None? || p.coupon.value !in db.coupons || Redemption(p.coupon.value, p.user) in db.redemptions then db
    else
      var k := p.coupon.value;
      db.(redemptions := db.redemptions[Redemption(k, p.user) := o],
          coupons := db.coupons[k := db.coupons[k].(redeemed := db.coupons[k].redeemed + 1)])
  }

  /** Line 35: the account has paid for something since; this capture comes too late. */
  predicate Superseded(db: Ledger, p: Payment, active: Option<SubId>) {
    active.Some? && HasNewerPayment(db.payments, active.value, p.createdAt)
  }

  /** Lines 38-41 and 51, with `active` the row found in line 33. */
  function Grant(db: Ledger, o: OrderId, now: Time, newSub: SubId, active: Option<SubId>): Ledger
    requires o in db.payments && (active.Some? ==> active.value in db.subscriptions)
  {
    var p := db.payments[o];
    var start := PeriodStart(if active.Some? then Some(db.subscriptions[active.value]) else None, p.plan, now);
    var bought := Subscription(p.user, p.plan, p.cycle, SActive, now, Some(db.periodEnd(start, p.cycle)), false, None, Some(o));
    db.(subscriptions := CancelLive(db.subscriptions, p.user, now)[newSub := bought],
        payments := db.payments[o := p.(subscription := Some(newSub), fulfillment := Active, previous := active)])
  }

  ghost function Activate(db: Ledger, o: OrderId, now: Time, newSub: SubId): Ledger
    requires o in db.payments
  {
    var p := db.payments[o];
    var active := ActiveOf(db.subscriptions, p.user);
    if p.subscription.Some? then db
    else if Superseded(db, p, active) then db.(payments := db.payments[o := p.(fulfillment := ReviewRequired)])
    else Redeem(Grant(db, o, now, newSub, active), p, o)
  }

  // Lines 60-116: creating an order

  datatype OrderInput = OrderInput(user: UserId, key: nat, plan: PlanId, cycle: Calendar.Cycle, coupon: Option<CouponId>,
                                   expected: Option<OrderId>)

  function Fingerprint(input: OrderInput): (PlanId, Calendar.Cycle, Option<CouponId>) {
    (input.plan, input.cycle, input.coupon)
  }

  datatype Reservation = Existing(id: CheckoutId) | Reserved(row: Checkout) | Declined(why: Refusal)

  predicate HasPendingRefund(refunds: map<OrderId, Refund>, user: UserId) {
    exists o :: o in refunds && refunds[o].user == user && Unresolved(refunds[o])
  }

  /** Lines 80-96, once the purchase itself is allowed. */
  function PriceReservation(db: Ledger, input: OrderInput, now: Time, configured: bool): Reservation {
    if input.plan !in db.plans || !db.plans[input.plan].active || db.plans[input.plan].free then Declined(PlanUnavailable)
    else
      var plan := db.plans[input.plan];
      var checked := if input.coupon.Some? then ValidateCoupon(db, input.coupon.value, input.plan, input.user, now) else Refused(CouponInvalid);
      if input.coupon.Some? && checked.Refused? then Declined(checked.why)
      else if input.coupon.Some? && checked.value.limit.Some?
              && checked.value.redeemed + |Holders(db.checkouts, input.coupon.value)| >= checked.value.limit.value
      then Declined(CouponReserved)
      else
        var full := PlanAmount(plan, input.cycle);
        if full.Refused? then Declined(full.why)
        else
          var amount := DiscountedAmount(full.value, if input.coupon.Some? then Some(checked.value) else None);
          if amount.Refused? then Declined(amount.why)
          else if amount.value > 0 && !configured then Declined(PaymentsUnavailable)
          else Reserved(Checkout(input.user, input.key, Fingerprint(input), input.plan, input.cycle, amount.value,
                                 plan.currency, input.coupon, Creating, None, now))
  }

  ghost function Reserve(db: Ledger, input: OrderInput, now: Time, configured: bool): Reservation {
    var previous := KeyOf(db.checkouts, input.user, input.key);
    if previous.Some? then
      var row := db.checkouts[previous.value];
      if row.fingerprint != Fingerprint(input) then Declined(KeyReused)
      else if row.status == Failed && row.payment.None? then Declined(CheckoutRejected)
      else Existing(previous.value)
    else if !ExpectedIsLatest(db.payments, input.user, input.expected) then Declined(PurchaseChanged)
    else if HasPendingRefund(db.refunds, input.user) then Declined(RefundPending)
    else
      var open := OpenOf(db.checkouts, input.user);
      if open.Some? then
        if db.checkouts[open.value].fingerprint == Fingerprint(input) && db.checkouts[open.value].payment.Some?
        then Existing(open.value)
        else Declined(CheckoutInProgress(open.value))
      else PriceReservation(db, input, now, configured)
  }

  function AddCheckout(db: Ledger, c: CheckoutId, row: Checkout): Ledger {
    db.(checkouts := db.checkouts[c := row])
  }

  /** Line 106: the order request failed; nothing happens once the checkout has moved on. */
  function OrderFailed(db: Ledger, c: CheckoutId, rejected: bool): Ledger
    requires c in db.checkouts
  {
    var row := db.checkouts[c];
    if row.status == Creating && row.payment.None?
    then db.(checkouts := db.checkouts[c := row.(status := if rejected then Failed else Unknown)])
    else db
  }

  function NewPayment(row: Checkout, c: CheckoutId, now: Time): Payment {
    Payment(row.user, row.plan, row.cycle, row.amount, row.currency, if row.amount == 0 then PCaptured else PCreated,
            None, 0, None, Some(c), row.coupon, None, NotFulfilled, {}, None, now)
  }

  /** Lines 110-111 and 125-126: the payment row is created unless it is there already, and the
      checkout points at it. */
  function Attach(db: Ledger, c: CheckoutId, o: OrderId, now: Time): Ledger
    requires c in db.checkouts
  {
    var row := db.checkouts[c];
    var saved := if o in db.payments then db.payments[o] else NewPayment(row, c, now);
    db.(payments := db.payments[o := saved],
        checkouts := db.checkouts[c := row.(status := MirrorStatus(saved.status, Ready), payment := Some(o))])
  }

  /** Lines 109-113: the creating request saves its order, and a free one is granted at once. */
  ghost function SaveOrder(db: Ledger, c: CheckoutId, o: OrderId, now: Time, newSub: SubId): Ledger
    requires c in db.checkouts
  {
    var saved := Attach(db, c, o, now);
    if db.checkouts[c].amount == 0 then Activate(saved, o, now, newSub) else saved
  }

  /** Lines 137-142: recovery of a free checkout. */
  ghost function RecoverFree(db: Ledger, c: CheckoutId, now: Time, newSub: SubId): Ledger
    requires c in db.checkouts
  {
    var o := FreeOrder(c);
    var row := db.checkouts[c];
    var saved := if o in db.payments then db.payments[o] else NewPayment(row, c, now);
    var granted := Activate(db.(payments := db.payments[o := saved]), o, now, newSub);
    granted.(checkouts := granted.checkouts[c := row.(status := Captured, payment := Some(o))])
  }

  /** Lines 152-156: release a reservation the provider has never heard of. */
  function Release(db: Ledger, c: CheckoutId): Ledger
    requires c in db.checkouts
  {
    if db.checkouts[c].payment.Some? then db
    else db.(checkouts := db.checkouts[c := db.checkouts[c].(status := Failed)])
  }

  // Lines 165-194: settling a provider report

  /** Lines 180-181: a provider date is believed unless it lies in the future. */
  function PaidAt(e: Report, now: Time): Time {
    if e.createdAt.Some? && 0 < e.createdAt.value <= now then e.createdAt.value else now
  }

  /** Lines 169-188 on the payment row itself, before a capture grants the plan. */
  function SettleRow(p: Payment, e: Report, now: Time): Payment {
    if Settled(p) then
      if e.status == RCaptured && p.gatewayId != Some(e.id)
      then p.(duplicates := p.duplicates + {e.id}, fulfillment := ReviewRequired)
      else p
    else match e.status
      case RCaptured => p.(status := PCaptured, gatewayId := Some(e.id), paidAt := Some(PaidAt(e, now)))
      case RAuthorized => p.(status := PAuthorized, gatewayId := Some(e.id))
      case RFailed => if p.status == PAuthorized then p else p.(status := PFailed)
      case ROther => p
  }

  /** Line 168. */
  predicate MatchesOrder(p: Payment, e: Report) {
    e.amount == p.amount && e.currency == p.currency
  }

  function MirrorCheckout(db: Ledger, o: OrderId): Ledger
    requires o in db.payments
  {
    var c := db.payments[o].checkout;
    if c.Some? && c.value in db.checkouts
    then db.(checkouts := db.checkouts[c.value := db.checkouts[c.value].(status := MirrorStatus(db.payments[o].status, Created))])
    else db
  }

  ghost function Settle(db: Ledger, e: Report, now: Time, newSub: SubId): Ledger
    requires e.order in db.payments
  {
    var p := db.payments[e.order];
    if !MatchesOrder(p, e) then db
    else
      var updated := db.(payments := db.payments[e.order := SettleRow(p, e, now)]);
      if Settled(p) then updated
      else MirrorCheckout(if e.status == RCaptured then Activate(updated, e.order, now, newSub) else updated, e.order)
  }

  // Lines 228-268: refund balances

  /** Line 244: a subscription that still has time left and a charge that was not refunded. */
  predicate Restorable(db: Ledger, s: SubId, user: UserId, now: Time) {
    && s in db.subscriptions && db.subscriptions[s].user == user
    && db.subscriptions[s].periodEnd.Some? && db.subscriptions[s].periodEnd.value > now
    && exists q :: q in db.payments && db.payments[q].subscription == Some(s) && db.payments[q].status == PCaptured
  }

  /** Lines 239-247, for the subscription the snapshot names. */
  function RevokeAccess(db: Ledger, snapshot: Payment, now: Time): Ledger {
    if snapshot.subscription.None? || snapshot.subscription.value !in db.subscriptions
       || db.subscriptions[snapshot.subscription.value].user != snapshot.user then db
    else
      var s := snapshot.subscription.value;
      var linked := db.subscriptions[s].status == SActive;
      var revoked := db.(subscriptions := db.subscriptions[s :=
        db.subscriptions[s].(status := SCanceled, canceledAt := Some(now), periodEnd := Some(now))]);
      if linked && snapshot.previous.Some? && Restorable(revoked, snapshot.previous.value, snapshot.user, now) then
        var previous := snapshot.previous.value;
        revoked.(subscriptions := revoked.subscriptions[previous :=
          revoked.subscriptions[previous].(status := SActive, canceledAt := None)])
      else revoked
  }

  /** Lines 233-248. `snapshot` is the payment row as it was read before the lock was taken:
      only line 234 reads the row again. */
  function RecordTotal(db: Ledger, o: OrderId, snapshot: Payment, total: nat, now: Time): Ledger
    requires o in db.payments
  {
    var p := db.payments[o];
    var amount := Max(total, p.refunded);
    if amount == 0 then db
    else
      var recorded := db.(payments := db.payments[o :=
        p.(refunded := amount, status := if amount == snapshot.amount then PRefunded else PPartiallyRefunded)]);
      if amount == snapshot.amount then RevokeAccess(recorded, snapshot, now) else recorded
  }

  /** Lines 229-232: what has to hold of the provider's list before anything is recorded. */
  function CheckTotals(listed: seq<ProviderRefund>, expected: Option<RefundId>, amount: nat): Result<nat> {
    if expected.Some? && forall r | r in listed :: r.id != expected.value then Refused(NotReflected)
    else if Total(listed) > MAX_SAFE || Total(listed) > amount then Refused(TotalsNeedReview)
    else Ok(Total(listed))
  }

  /** What the provider returns for one refund. */
  datatype RefundEntity = RefundEntity(id: RefundId, payment: GatewayId, amount: nat, status: RefundStatus)

  /** Lines 256-261, after line 253 has matched the response with the record. */
  function SaveRefund(db: Ledger, o: OrderId, e: RefundEntity): Result<Ledger>
    requires o in db.refunds
  {
    var r := db.refunds[o];
    if r.status == Processed then Ok(db)
    else if r.gatewayRefundId.Some? && r.gatewayRefundId.value != e.id then Refused(ReferenceMismatch)
    else Ok(db.(refunds := db.refunds[o :=
      r.(gatewayRefundId := Some(e.id), status := if e.status == Rejected then Rejected else Pending)]))
  }

  /** Line 265. */
  function FinishRefund(db: Ledger, o: OrderId): Ledger
    requires o in db.refunds
  {
    db.(refunds := db.refunds[o := db.refunds[o].(status := Processed)])
  }

  /** Lines 274-284. */
  function RefundRequest(db: Ledger, user: UserId, o: OrderId, administrator: bool, key: nat, now: Time): Result<Option<Refund>> {
    if o !in db.payments || db.payments[o].user != user then Refused(NotFound)
    else if o in db.refunds then Ok(None)
    else
      var p := db.payments[o];
      var why := RefundEligibility(p, o, false, now);
      var administratorEligible := administrator && p.status in {PCaptured, PPartiallyRefunded} && Remaining(p) > 0 && Refundable(p, o);
      if why.Some? && !administratorEligible then Refused(why.value)
      else Ok(Some(Refund(key, user, Remaining(p), Requested, None)))
  }

  function AddRefund(db: Ledger, o: OrderId, r: Refund): Ledger {
    db.(refunds := db.refunds[o := r])
  }

  /** Line 304. */
  function MarkProcessing(db: Ledger, o: OrderId): Ledger
    requires o in db.refunds
  {
    var r := db.refunds[o];
    if r.status in {Requested, Uncertain, Processing} && r.gatewayRefundId.None?
    then db.(refunds := db.refunds[o := r.(status := Processing)])
    else db
  }

  /** Line 309. */
  function RefundFailed(db: Ledger, o: OrderId, rejected: bool): Ledger
    requires o in db.refunds
  {
    var r := db.refunds[o];
    if r.status == Processing && r.gatewayRefundId.None?
    then db.(refunds := db.refunds[o := r.(status := if rejected then Rejected else Uncertain)])
    else db
  }

  // backend/worker/index.js, lines 517-565: expiry

  const GRACE := 3 * 24 * 60 * 60 * 1000

  /** Lines 524-527: inside the grace period, one conditional update and no lock. */
  function MarkPastDue(db: Ledger, s: SubId, scan: Time): Ledger
    requires s in db.subscriptions
  {
    var row := db.subscriptions[s];
    if row.status == SActive && row.periodEnd.Some? && row.periodEnd.value < scan
    then db.(subscriptions := db.subscriptions[s := row.(status := SPastDue)])
    else db
  }

  /** Line 549. */
  predicate Entitled(s: Subscription, now: Time) {
    s.status == SActive && (s.periodEnd.None? || s.periodEnd.value > now)
  }

  /** Lines 535-561: after the grace period the user falls back to a Free subscription. */
  function Expire(db: Ledger, s: SubId, scan: Time, now: Time, newSub: SubId): Ledger
    requires s in db.subscriptions
  {
    var row := db.subscriptions[s];
    if !(row.status in {SActive, SPastDue} && row.periodEnd.Some? && row.periodEnd.value < scan) then db
    else
      var expired := db.subscriptions[s := row.(status := SExpired, canceledAt := Some(now))];
      if exists t :: t in expired && expired[t].user == row.user && Entitled(expired[t], scan)
      then db.(subscriptions := expired)
      else db.(subscriptions := expired[newSub := Subscription(row.user, FREE, Calendar.Monthly, SActive, now, None, false, None, None)])
  }

  // backend/src/controllers/subscription.controller.js, lines 41-53

  /** The subscription a cancel or resume applies to. */
  predicate IsEntitledOf(subs: map<SubId, Subscription>, user: UserId, now: Time, s: SubId) {
    s in subs && subs[s].user == user && Entitled(subs[s], now)
  }

  /** Lines 44-49: `None` when the action is refused. */
  ghost function ScheduleChange(db: Ledger, user: UserId, cancel: bool, now: Time): Option<Ledger> {
    if HasPendingRefund(db.refunds, user) then None
    else if !exists s :: IsEntitledOf(db.subscriptions, user, now, s) then None
    else
      var s :| IsEntitledOf(db.subscriptions, user, now, s);
      var row := db.subscriptions[s];
      if (row.plan in db.plans && db.plans[row.plan].free) || (cancel && row.periodEnd.None?) then None
      else Some(db.(subscriptions := db.subscriptions[s :=
        row.(cancelAtPeriodEnd := cancel, canceledAt := if cancel then Some(now) else None)]))
  }

  // backend/src/services/planLimitService.js, lines 57-86

  /** The plan an account may use at `now` and when that ends; the Free fallback has no end. */
  datatype Entitlement = Entitlement(plan: PlanId, end: Option<Time>)

  ghost function EntitlementOf(db: Ledger, user: UserId, now: Time): Entitlement {
    if exists s :: IsEntitledOf(db.subscriptions, user, now, s) then
      var s :| IsEntitledOf(db.subscriptions, user, now, s);
      Entitlement(db.subscriptions[s].plan, db.subscriptions[s].periodEnd)
    else Entitlement(FREE, None)
  }
}
