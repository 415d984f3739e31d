/** The billing service as a transition system: any number of requests, webhooks, polls and
    recovery runs, each cut into its transactions, against a provider that answers late, twice or
    never. A step may use any value that was read earlier: such a value is a `snapshot` that the
    row has since moved on from in the order of BillingHistory.

    What is assumed of the provider: one order request creates at most one order; a rejection is
    final; an empty receipt lookup 60 seconds or more after the reservation is final; the list of
    processed refunds of a charge only grows; equal idempotency keys return the same refund. */
module BillingWorld {
  import opened BillingTypes
  import opened BillingSteps
  import BillingInvariant
  import BillingPreservation
  import BillingHistory

  datatype ProviderOrder = ProviderOrder(checkout: CheckoutId, amount: nat, currency: nat)

  /** One POST of a refund (line 307): which record it is for, the charge it names, its idempotency
      key and its amount. */
  datatype Submission = Submission(order: OrderId, charge: Option<GatewayId>, key: nat, amount: nat)

  datatype World = World(
    db: Ledger,
    now: Time,
    unsent: set<CheckoutId>, // reserved, and the reserving request has not asked for the order yet
    sent: multiset<CheckoutId>, // order requests that went out
    orders: map<OrderId, ProviderOrder>,
    rejected: set<CheckoutId>, // the provider refused the order
    absent: set<CheckoutId>, // a final empty receipt lookup
    charges: map<GatewayId, OrderId>, // provider payments and the order each belongs to
    processed: map<GatewayId, seq<ProviderRefund>>,
    confirmed: set<OrderId>, // refund records whose processed refund was found in the provider's list
    submissions: set<Submission>,
    refused: multiset<OrderId>, // definite refusals of a refund's submission that nobody has acted on
    created: map<RefundId, nat>) // provider refunds made by a submission, with its key

  function ProcessedOf(w: World, g: GatewayId): seq<ProviderRefund> {
    if g in w.processed then w.processed[g] else []
  }

  datatype Step =
    | Tick(elapsed: nat)
    // createBillingOrder
    | ReserveStep(input: OrderInput, configured: bool, c: CheckoutId)
    | SendOrder(c: CheckoutId)
    | OrderArrives(o: OrderId, order: ProviderOrder)
    | ProviderRejects(c: CheckoutId)
    | OrderFailedStep(c: CheckoutId, rejection: bool)
    | SaveOrderStep(c: CheckoutId, o: OrderId, newSub: SubId)
    // recoverPayment and syncBillingCheckout
    | RecoverStep(o: OrderId)
    | RecoverFreeStep(c: CheckoutId, newSub: SubId)
    | LookupEmpty(c: CheckoutId)
    | ReleaseStep(c: CheckoutId)
    // settlePayment, from verification, webhooks, polling and recovery alike
    | ChargeAppears(g: GatewayId, o: OrderId)
    | SettleStep(report: Report, newSub: SubId)
    // refunds
    | RefundProcessed(g: GatewayId, refund: ProviderRefund)
    | ReconcileStep(o: OrderId, paid: Payment, listed: nat, expected: Option<RefundId>)
    | RequestRefundStep(user: UserId, o: OrderId, administrator: bool, key: nat)
    | MarkProcessingStep(o: OrderId)
    | SubmitStep(o: OrderId, paid: Payment, record: Refund, made: Option<RefundId>)
    | ProviderRefuses(o: OrderId)
    | RefundFailedStep(o: OrderId, rejection: bool)
    | SaveRefundStep(o: OrderId, entity: RefundEntity)
    | FinishRefundStep(o: OrderId)
    // the dunning scan and the subscription controller
    | PastDueStep(s: SubId, scan: Time)
    | ExpireStep(s: SubId, scan: Time, newSub: SubId)
    | ScheduleStep(user: UserId, cancel: bool)

  /** Line 149: the request that reserved the checkout has timed out. */
  const ORDER_TIMEOUT := 60000

  /** A reconciliation reads the list of the charge its snapshot names, and may read it early. */
  ghost predicate CanReconcile(w: World, o: OrderId, paid: Payment, listed: nat, expected: Option<RefundId>) {
    && o in w.db.payments && BillingPreservation.PaymentPast(paid, w.db.payments[o])
    && paid.gatewayId.Some? && paid.gatewayId.value in w.charges && w.charges[paid.gatewayId.value] == o
    && listed <= |ProcessedOf(w, paid.gatewayId.value)|
    && CheckTotals(ProcessedOf(w, paid.gatewayId.value)[..listed], expected, paid.amount).Ok?
  }

  /** Lines 299-307 and 315-322: the record had no provider reference when it was last read, and the
      payment was read at some time before. The provider answers a known key with the refund it made
      for it, and may make none; it makes none when the request names no charge. */
  ghost predicate CanSubmit(w: World, o: OrderId, paid: Payment, record: Refund, made: Option<RefundId>) {
    && o in w.db.refunds && BillingHistory.RefundPast(record, w.db.refunds[o])
    && o in w.db.payments && BillingPreservation.PaymentPast(paid, w.db.payments[o]) && (paid.gatewayId.None? ==> made.None?)
    && record.gatewayRefundId.None? && record.status != Processed && record.status != Rejected
    && (made.Some? && made.value in w.created ==> w.created[made.value] == record.key)
    && (made.Some? ==> forall other :: other in w.created && w.created[other] == record.key ==> other == made.value)
  }

  function Submitted(w: World, o: OrderId, paid: Payment, record: Refund, made: Option<RefundId>): World {
    w.(submissions := w.submissions + {Submission(o, paid.gatewayId, record.key, record.amount)},
       created := if made.Some? then w.created[made.value := record.key] else w.created)
  }

  ghost predicate Enabled(w: World, step: Step) {
    match step
    case Tick(_) => true
    case ReserveStep(input, configured, c) => c !in w.db.checkouts && Reserve(w.db, input, w.now, configured).Reserved?
    case SendOrder(c) => c in w.unsent
    case OrderArrives(o, order) =>
      && o.GatewayOrder? && o !in w.orders && order.checkout in w.sent
      && order.checkout !in w.rejected && order.checkout !in w.absent
      && forall q :: q in w.orders ==> w.orders[q].checkout != order.checkout
    case ProviderRejects(c) => c in w.sent && forall q :: q in w.orders ==> w.orders[q].checkout != c
    case OrderFailedStep(c, rejection) => c in w.db.checkouts && c in w.sent && (rejection ==> c in w.rejected)
    case SaveOrderStep(c, o, newSub) =>
      && c in w.db.checkouts && newSub !in w.db.subscriptions
      && if w.db.checkouts[c].amount == 0 then o == FreeOrder(c) else o in w.orders && w.orders[o].checkout == c
    case RecoverStep(o) =>
      && o in w.orders && w.orders[o].checkout in w.db.checkouts
      && w.orders[o].amount == w.db.checkouts[w.orders[o].checkout].amount
      && w.orders[o].currency == w.db.checkouts[w.orders[o].checkout].currency
    case RecoverFreeStep(c, newSub) => c in w.db.checkouts && w.db.checkouts[c].amount == 0 && newSub !in w.db.subscriptions
    case LookupEmpty(c) =>
      && c in w.db.checkouts && w.db.checkouts[c].amount > 0 && w.db.checkouts[c].createdAt < w.now - ORDER_TIMEOUT
      && forall q :: q in w.orders ==> w.orders[q].checkout != c
    case ReleaseStep(c) => c in w.db.checkouts && c in w.absent
    case ChargeAppears(g, o) => g !in w.charges && o in w.orders
    case SettleStep(e, newSub) =>
      && e.order in w.db.payments && e.id in w.charges && w.charges[e.id] == e.order && newSub !in w.db.subscriptions
    case RefundProcessed(g, refund) => g in w.charges
    case ReconcileStep(o, paid, listed, expected) => CanReconcile(w, o, paid, listed, expected)
    case RequestRefundStep(user, o, administrator, key) =>
      && RefundRequest(w.db, user, o, administrator, key, w.now).Ok?
      && RefundRequest(w.db, user, o, administrator, key, w.now).value.Some?
      && forall q :: q in w.db.refunds ==> w.db.refunds[q].key != key
    case MarkProcessingStep(o) => o in w.db.refunds
    case SubmitStep(o, paid, record, made) => CanSubmit(w, o, paid, record, made)
    case ProviderRefuses(o) => exists s :: s in w.submissions && s.order == o
    case RefundFailedStep(o, rejection) => o in w.db.refunds && (rejection ==> o in w.refused)
    case SaveRefundStep(o, e) =>
      && o in w.db.refunds && e.amount == w.db.refunds[o].amount && e.payment in w.charges && w.charges[e.payment] == o
      && SaveRefund(w.db, o, e).Ok?
    case FinishRefundStep(o) => o in w.confirmed && o in w.db.refunds
    case PastDueStep(s, scan) => s in w.db.subscriptions && scan <= w.now
    case ExpireStep(s, scan, newSub) => s in w.db.subscriptions && scan <= w.now && newSub !in w.db.subscriptions
    case ScheduleStep(user, cancel) => ScheduleChange(w.db, user, cancel, w.now).Some?
  }

  /** Reconciling with an expected refund confirms the record when the list has it with its amount. */
  ghost function Confirm(w: World, o: OrderId, list: seq<ProviderRefund>, expected: Option<RefundId>): set<OrderId> {
    if expected.Some? && o in w.db.refunds && ProviderRefund(expected.value, w.db.refunds[o].amount) in list
    then w.confirmed + {o} else w.confirmed
  }

  ghost function Apply(w: World, step: Step): World
    requires Enabled(w, step)
  {
    match step
    case Tick(elapsed) => w.(now := w.now + elapsed)
    case ReserveStep(input, configured, c) =>
      var row := Reserve(w.db, input, w.now, configured).row;
      w.(db := AddCheckout(w.db, c, row), unsent := if row.amount > 0 then w.unsent + {c} else w.unsent)
    case SendOrder(c) => w.(unsent := w.unsent - {c}, sent := w.sent + multiset{c})
    case OrderArrives(o, order) => w.(orders := w.orders[o := order])
    case ProviderRejects(c) => w.(rejected := w.rejected + {c})
    case OrderFailedStep(c, rejection) => w.(db := OrderFailed(w.db, c, rejection))
    case SaveOrderStep(c, o, newSub) => w.(db := SaveOrder(w.db, c, o, w.now, newSub))
    case RecoverStep(o) => w.(db := Attach(w.db, w.orders[o].checkout, o, w.now))
    case RecoverFreeStep(c, newSub) => w.(db := RecoverFree(w.db, c, w.now, newSub))
    case LookupEmpty(c) => w.(absent := w.absent + {c})
    case ReleaseStep(c) => w.(db := Release(w.db, c))
    case ChargeAppears(g, o) => w.(charges := w.charges[g := o])
    case SettleStep(e, newSub) => w.(db := Settle(w.db, e, w.now, newSub))
    case RefundProcessed(g, refund) => w.(processed := w.processed[g := ProcessedOf(w, g) + [refund]])
    case ReconcileStep(o, paid, listed, expected) =>
      var list := ProcessedOf(w, paid.gatewayId.value)[..listed];
      w.(db := RecordTotal(w.db, o, paid, Total(list), w.now), confirmed := Confirm(w, o, list, expected))
    case RequestRefundStep(user, o, administrator, key) =>
      w.(db := AddRefund(w.db, o, RefundRequest(w.db, user, o, administrator, key, w.now).value.value))
    case MarkProcessingStep(o) => w.(db := MarkProcessing(w.db, o))
    case SubmitStep(o, paid, record, made) => Submitted(w, o, paid, record, made)
    case ProviderRefuses(o) => w.(refused := w.refused + multiset{o})
    case RefundFailedStep(o, rejection) =>
      w.(db := RefundFailed(w.db, o, rejection), refused := if rejection then w.refused - multiset{o} else w.refused)
    case SaveRefundStep(o, e) => w.(db := SaveRefund(w.db, o, e).value)
    case FinishRefundStep(o) => w.(db := FinishRefund(w.db, o))
    case PastDueStep(s, scan) => w.(db := MarkPastDue(w.db, s, scan))
    case ExpireStep(s, scan, newSub) => w.(db := Expire(w.db, s, scan, w.now, newSub))
    case ScheduleStep(user, cancel) => w.(db := ScheduleChange(w.db, user, cancel, w.now).value)
  }

  // What holds between the tables and the provider

  /** One order request per checkout, one order per request, none after a final refusal. */
  ghost predicate OrdersAgree(w: World) {
    && (forall c :: c in w.unsent ==> c in w.db.checkouts && w.db.checkouts[c].amount > 0 && w.sent[c] == 0)
    && (forall c :: c in w.sent ==> c in w.db.checkouts && w.db.checkouts[c].amount > 0 && w.sent[c] == 1)
    && (forall o :: o in w.orders ==>
          && o.GatewayOrder? && w.orders[o].checkout in w.sent
          && w.orders[o].checkout !in w.rejected && w.orders[o].checkout !in w.absent)
    && (forall o, q :: o in w.orders && q in w.orders && w.orders[o].checkout == w.orders[q].checkout ==> o == q)
    && (forall c :: c in w.absent ==> c in w.db.checkouts && w.db.checkouts[c].amount > 0)
  }

  /** A checkout is given up without a payment only when the provider will never have its order. */
  ghost predicate GivenUpIsFinal(w: World) {
    forall c :: c in w.db.checkouts && !Open(w.db.checkouts[c]) && w.db.checkouts[c].payment.None? ==>
      w.db.checkouts[c].amount > 0 && (c in w.rejected || c in w.absent)
  }

  /** Every payment row stands for an order of the provider, or for a free one. */
  ghost predicate PaymentsKnown(w: World) {
    forall o :: o in w.db.payments && o.GatewayOrder? ==>
      o in w.orders && w.db.payments[o].checkout == Some(w.orders[o].checkout)
  }

  ghost predicate ChargesKnown(w: World) {
    && (forall g :: g in w.charges ==> w.charges[g].GatewayOrder?)
    && (forall o :: o in w.db.payments ==>
          && (w.db.payments[o].gatewayId.Some? ==>
                w.db.payments[o].gatewayId.value in w.charges && w.charges[w.db.payments[o].gatewayId.value] == o)
          && (forall g :: g in w.db.payments[o].duplicates ==> g in w.charges && w.charges[g] == o))
  }

  /** The provider has processed at least `amount` on one charge of the order. */
  ghost predicate ProviderReturned(w: World, o: OrderId, amount: nat) {
    exists g :: g in w.charges && w.charges[g] == o && amount <= Total(ProcessedOf(w, g))
  }

  ghost predicate ReturnedAtProvider(w: World) {
    forall o :: o in w.db.payments && w.db.payments[o].refunded > 0 ==> ProviderReturned(w, o, w.db.payments[o].refunded)
  }

  ghost predicate ConfirmedIsCovered(w: World) {
    forall o :: o in w.confirmed ==>
      o in w.db.refunds && o in w.db.payments && w.db.refunds[o].amount <= w.db.payments[o].refunded
  }

  ghost predicate SubmittedAsRecorded(w: World) {
    forall s :: s in w.submissions ==>
      s.order in w.db.refunds && s.key == w.db.refunds[s.order].key && s.amount == w.db.refunds[s.order].amount
  }

  ghost predicate OneRefundPerKey(w: World) {
    && (forall i, j :: i in w.created && j in w.created && w.created[i] == w.created[j] ==> i == j)
    && (forall i :: i in w.created ==> exists s :: s in w.submissions && s.key == w.created[i])
  }

  ghost predicate Inv(w: World) {
    && BillingInvariant.LedgerInv(w.db, w.now)
    && OrdersAgree(w)
    && GivenUpIsFinal(w)
    && PaymentsKnown(w)
    && ChargesKnown(w)
    && ReturnedAtProvider(w)
    && ConfirmedIsCovered(w)
    && SubmittedAsRecorded(w)
    && OneRefundPerKey(w)
  }

  /** A fresh installation: accounts may have a plan, coupons are unused, nothing was bought. */
  ghost predicate Init(w: World) {
    && w.db.checkouts == map[] && w.db.payments == map[] && w.db.refunds == map[] && w.db.redemptions == map[]
    && BillingInvariant.OneLive(w.db.subscriptions) && (forall s :: s in w.db.subscriptions ==> w.db.subscriptions[s].order.None?)
    && (forall k :: k in w.db.coupons ==> w.db.coupons[k].redeemed == 0)
    && w.unsent == {} && w.sent == multiset{} && w.orders == map[] && w.rejected == {} && w.absent == {}
    && w.charges == map[] && w.processed == map[] && w.confirmed == {} && w.submissions == {} && w.refused == multiset{}
    && w.created == map[]
  }

  lemma InitHasInv(w: World)
    requires Init(w)
    ensures Inv(w)
  {
    forall k | k in w.db.coupons
      ensures BillingInvariant.CouponWithin(w.db.coupons, w.db.redemptions, w.db.checkouts, k)
    {
      assert RedemptionsOf(w.db.redemptions, k) == {} && Holders(w.db.checkouts, k) == {};
    }
  }

  // Runs

  ghost predicate CanRun(w: World, run: seq<Step>)
    decreases |run|
  {
    run == [] || (Enabled(w, run[0]) && CanRun(Apply(w, run[0]), run[1..]))
  }

  ghost function Run(w: World, run: seq<Step>): World
    requires CanRun(w, run)
    decreases |run|
  {
    if run == [] then w else Run(Apply(w, run[0]), run[1..])
  }
}
