/** What holds over whole runs of the billing world: the promises of the billing service. */
module BillingRuns {
  import opened BillingTypes
  import BillingPolicy
  import opened BillingInvariant
  import opened BillingHistory
  import opened BillingWorld
  import opened BillingSafety

  lemma AdvanceReflexive(db: Ledger)
    ensures Advance(db, db)
  {
    Unchanged(db);
  }

  /** Every run keeps the invariant and only moves rows forward. */
  lemma {:induction false} RunKeepsInv(w: World, run: seq<Step>)
    requires Inv(w) && CanRun(w, run)
    ensures Inv(Run(w, run)) && Advance(w.db, Run(w, run).db)
    decreases |run|
  {
    hide Inv, Advance, Enabled, Apply;
    if run == [] {
      AdvanceReflexive(w.db);
    } else {
      var v := Apply(w, run[0]);
      StepKeepsInv(w, run[0]);
      RunKeepsInv(v, run[1..]);
      AdvanceTransitive(w.db, v.db, Run(v, run[1..]).db);
    }
  }

  /** A state that some run of a fresh installation reaches. */
  ghost predicate Reachable(w: World) {
    exists start: World, run: seq<Step> :: Init(start) && CanRun(start, run) && Run(start, run) == w
  }

  lemma {:induction false} RunSnoc(w: World, run: seq<Step>, step: Step)
    requires CanRun(w, run) && Enabled(Run(w, run), step)
    ensures CanRun(w, run + [step]) && Run(w, run + [step]) == Apply(Run(w, run), step)
    decreases |run|
  {
    hide Enabled, Apply;
    if run == [] {
      assert (run + [step])[1..] == [];
    } else {
      assert (run + [step])[1..] == run[1..] + [step];
      RunSnoc(Apply(w, run[0]), run[1..], step);
    }
  }

  lemma ReachableStep(w: World, step: Step)
    requires Reachable(w) && Enabled(w, step)
    ensures Reachable(Apply(w, step))
  {
    hide Init, Enabled, Apply, CanRun, Run;
    var start: World, run: seq<Step> :| Init(start) && CanRun(start, run) && Run(start, run) == w;
    RunSnoc(start, run, step);
  }

  lemma ReachableHasInv(w: World)
    requires Reachable(w)
    ensures Inv(w)
  {
    hide Inv, Init, Advance;
    var start: World, run: seq<Step> :| Init(start) && CanRun(start, run) && Run(start, run) == w;
    InitHasInv(start);
    RunKeepsInv(start, run);
  }

  // Coupons

  /** Across all users, the redemptions of a limited coupon and the open checkouts that hold a
      place of it together stay within the limit, and `times_redeemed` counts the redemptions. */
  lemma CouponsNeverOversold(w: World, k: CouponId)
    requires Reachable(w) && k in w.db.coupons
    ensures w.db.coupons[k].redeemed == |RedemptionsOf(w.db.redemptions, k)|
    ensures w.db.coupons[k].limit.Some? ==>
      |RedemptionsOf(w.db.redemptions, k)| + |Holders(w.db.checkouts, k)| <= w.db.coupons[k].limit.value
  {
    ReachableHasInv(w);
    hide Inv;
    LedgerOf(w);
    assert CouponWithin(w.db.coupons, w.db.redemptions, w.db.checkouts, k);
  }

  /** A user redeems a coupon once: in every later state the redemption stands, for the same order,
      no new order of the user gets the discount again, and the code is refused to them. */
  lemma CouponOncePerUser(w: World, run: seq<Step>, k: CouponId, input: BillingSteps.OrderInput, configured: bool,
                          codes: map<string, CouponId>, text: string)
    requires Reachable(w) && CanRun(w, run) && Redemption(k, input.user) in w.db.redemptions && input.coupon == Some(k)
    requires BillingPolicy.CouponOf(codes, Some(text)) == BillingPolicy.Ok(k)
    ensures var v, r := Run(w, run), Redemption(k, input.user);
            && r in v.db.redemptions && v.db.redemptions[r] == w.db.redemptions[r]
            && !BillingSteps.Reserve(v.db, input, v.now, configured).Reserved?
            && BillingPolicy.ValidateCode(v.db, codes, Some(text), input.plan, input.user, v.now).Refused?
  {
    hide Inv, CanRun, Run, Reachable, ExpectedIsLatest, BillingSteps.HasPendingRefund;
    ReachableHasInv(w);
    RunKeepsInv(w, run);
    assert RedemptionsAdvance(w.db.redemptions, Run(w, run).db.redemptions);
    BillingPolicy.CouponAcceptance(Run(w, run).db, codes, text, input.plan, input.user, Run(w, run).now);
  }

  // Fulfilment

  /** One (user, request key) is one checkout, one order request and one provider order. */
  lemma OneOrderPerRequest(w: World, c: CheckoutId, d: CheckoutId)
    requires Reachable(w) && c in w.db.checkouts && d in w.db.checkouts
    requires w.db.checkouts[c].user == w.db.checkouts[d].user && w.db.checkouts[c].requestKey == w.db.checkouts[d].requestKey
    ensures c == d && w.sent[c] <= 1
    ensures forall o, q | o in w.orders && q in w.orders ::
      w.orders[o].checkout == c && w.orders[q].checkout == c ==> o == q
  {
    ReachableHasInv(w);
    hide LedgerInv;
    assert OneKey(w.db.checkouts) by {
      LedgerKeys(w.db, w.now);
    }
    assert OrdersAgree(w);
  }

  /** A payment buys at most one subscription, ever: rows are never dropped and keep their
      order, and in every later state two subscriptions of one order are the same. */
  lemma OnePurchasePerPayment(w: World, run: seq<Step>, s: SubId, t: SubId)
    requires Reachable(w) && CanRun(w, run)
    requires s in w.db.subscriptions && w.db.subscriptions[s].order.Some?
    requires t in Run(w, run).db.subscriptions
    requires Run(w, run).db.subscriptions[t].order == w.db.subscriptions[s].order
    ensures s == t
  {
    hide Inv, LedgerInv, CanRun, Run;
    ReachableHasInv(w);
    RunKeepsInv(w, run);
    var v := Run(w, run);
    LedgerOf(v);
    LedgerKeys(v.db, v.now);
    assert SubscriptionPast(w.db.subscriptions[s], v.db.subscriptions[s], BoughtBack(v.db.payments, s));
  }

  // Checkouts and subscriptions

  function OpenCheckouts(checkouts: map<CheckoutId, Checkout>, user: UserId): set<CheckoutId> {
    set c | c in checkouts && checkouts[c].user == user && Open(checkouts[c])
  }

  function LiveSubscriptions(subs: map<SubId, Subscription>, user: UserId): set<SubId> {
    set s | s in subs && subs[s].user == user && Live(subs[s])
  }

  /** A user has at most one open checkout and at most one live subscription. */
  lemma OnePerUser(w: World, user: UserId)
    requires Reachable(w)
    ensures |OpenCheckouts(w.db.checkouts, user)| <= 1
    ensures |LiveSubscriptions(w.db.subscriptions, user)| <= 1
  {
    hide Inv, LedgerInv, Open, Live;
    ReachableHasInv(w);
    LedgerOf(w);
    LedgerKeys(w.db, w.now);
    AtMostOne(OpenCheckouts(w.db.checkouts, user));
    AtMostOne(LiveSubscriptions(w.db.subscriptions, user));
  }

  lemma AtMostOne(s: set<nat>)
    requires forall x, y :: x in s && y in s ==> x == y
    ensures |s| <= 1
  {
    if s != {} {
      var x :| x in s;
      assert s == {x};
    }
  }

  /** A closed checkout stays closed, keeps its payment, and if it has one that was captured. */
  lemma ClosedIsFinal(w: World, run: seq<Step>, c: CheckoutId)
    requires Reachable(w) && CanRun(w, run) && c in w.db.checkouts && !Open(w.db.checkouts[c])
    ensures var v := Run(w, run);
            && c in v.db.checkouts && !Open(v.db.checkouts[c])
            && (w.db.checkouts[c].payment.Some? ==> v.db.checkouts[c].payment == w.db.checkouts[c].payment)
            && (v.db.checkouts[c].payment.Some? ==>
                  v.db.checkouts[c].payment.value in v.db.payments && Settled(v.db.payments[v.db.checkouts[c].payment.value]))
  {
    hide Inv, LedgerInv, CanRun, Run;
    ReachableHasInv(w);
    RunKeepsInv(w, run);
    var v := Run(w, run);
    LedgerOf(v);
    LedgerRows(v.db, v.now);
    assert CheckoutPast(w.db.checkouts[c], v.db.checkouts[c]);
  }

  // Refunds

  lemma ReturnedOf(w: World)
    requires Inv(w)
    ensures ReturnedAtProvider(w)
  {
  }

  /** The refund ledger, in every state and between any two. */
  lemma RefundLedger(w: World, run: seq<Step>, o: OrderId)
    requires Reachable(w) && CanRun(w, run) && o in w.db.payments
    ensures var v := Run(w, run); o in v.db.payments
    ensures var p, q := w.db.payments[o], Run(w, run).db.payments[o];
            && p.refunded <= q.refunded <= q.amount == p.amount
            && (q.status == PRefunded <==> q.refunded == q.amount && 0 < q.amount)
            && (q.refunded > 0 ==> ProviderReturned(Run(w, run), o, q.refunded))
    ensures var v := Run(w, run);
            o in v.db.refunds && v.db.refunds[o].status == Processed ==> v.db.refunds[o].amount <= v.db.payments[o].refunded
  {
    hide Inv, LedgerInv, CanRun, Run;
    ReachableHasInv(w);
    RunKeepsInv(w, run);
    var v := Run(w, run);
    LedgerOf(v);
    ReturnedOf(v);
    LedgerRows(v.db, v.now);
    assert BillingPreservation.PaymentPast(w.db.payments[o], v.db.payments[o]);
    assert Balanced(v.db.payments[o]);
  }

  lemma SubmissionsOfRecord(w: World, o: OrderId)
    requires RefundRows(w.db.refunds, w.db.payments) && SubmittedAsRecorded(w) && OneRefundPerKey(w) && o in w.db.refunds
    ensures forall s | s in w.submissions :: s.order == o ==> s.key == w.db.refunds[o].key && s.amount == w.db.refunds[o].amount
    ensures forall s | s in w.submissions :: s.key == w.db.refunds[o].key ==> s.order == o
    ensures |CreatedFor(w, w.db.refunds[o].key)| <= 1
  {
    AtMostOne(CreatedFor(w, w.db.refunds[o].key));
  }

  /** The refunds the provider has made for one idempotency key. */
  function CreatedFor(w: World, key: nat): set<RefundId> {
    set i | i in w.created && w.created[i] == key
  }

  /** Across crashes, retries and races: every submission for an order carries the key and the
      amount of its one refund record, another order has another key, and so the provider makes at
      most one refund for it. The provider's reference and PROCESSED are final. */
  lemma OneRefundPerRecord(w: World, run: seq<Step>, o: OrderId)
    requires Reachable(w) && CanRun(w, run) && o in w.db.refunds
    ensures var v := Run(w, run); o in v.db.refunds && RefundPast(w.db.refunds[o], v.db.refunds[o])
    ensures forall s | s in Run(w, run).submissions ::
      s.order == o ==> s.key == w.db.refunds[o].key && s.amount == w.db.refunds[o].amount
    ensures forall s | s in Run(w, run).submissions :: s.key == w.db.refunds[o].key ==> s.order == o
    ensures |CreatedFor(Run(w, run), w.db.refunds[o].key)| <= 1
  {
    hide Inv, LedgerInv, CanRun, Run, SubmittedAsRecorded, OneRefundPerKey, RefundRows;
    ReachableHasInv(w);
    RunKeepsInv(w, run);
    var v := Run(w, run);
    PartsOf(v);
    LedgerOf(v);
    LedgerRows(v.db, v.now);
    assert RefundPast(w.db.refunds[o], v.db.refunds[o]);
    SubmissionsOfRecord(v, o);
  }

  /** A refund request finds a captured charge with money left, for its owner alone and, unless an
      administrator makes it, within 14 days. It asks for all that is left, and from then on the
      payment has this one record: no request makes a second. */
  lemma OneRecordPerPayment(w: World, user: UserId, o: OrderId, administrator: bool, key: nat, run: seq<Step>)
    requires Reachable(w) && Enabled(w, RequestRefundStep(user, o, administrator, key))
    requires CanRun(Apply(w, RequestRefundStep(user, o, administrator, key)), run)
    ensures o in w.db.payments && o !in w.db.refunds
    ensures var p := w.db.payments[o];
            && p.user == user && Settled(p) && p.gatewayId.Some? && p.gatewayId.value in w.charges && w.charges[p.gatewayId.value] == o
            && var paidAt := if p.paidAt.Some? then p.paidAt.value else p.createdAt;
            administrator || paidAt <= w.now < paidAt + BillingPolicy.REFUND_WINDOW
    ensures var v := Run(Apply(w, RequestRefundStep(user, o, administrator, key)), run);
            && o in v.db.refunds && v.db.refunds[o].key == key
            && 0 < v.db.refunds[o].amount && v.db.refunds[o].amount + w.db.payments[o].refunded == w.db.payments[o].amount
            && forall u, a, k :: BillingSteps.RefundRequest(v.db, u, o, a, k, v.now) in {BillingPolicy.Ok(None), BillingPolicy.Refused(BillingPolicy.NotFound)}
  {
    hide Inv, CanRun, Run, Reachable, Advance;
    ReachableHasInv(w);
    RequestMeans(w, user, o, administrator, key);
    var step := RequestRefundStep(user, o, administrator, key);
    StepKeepsInv(w, step);
    RunKeepsInv(Apply(w, step), run);
    AdvancedRefund(Apply(w, step).db, Run(Apply(w, step), run).db, o);
  }

  lemma AdvancedRefund(a: Ledger, b: Ledger, o: OrderId)
    requires Advance(a, b) && o in a.refunds
    ensures o in b.refunds && RefundPast(a.refunds[o], b.refunds[o])
  {
  }

  lemma RequestOf(db: Ledger, user: UserId, o: OrderId, administrator: bool, key: nat, now: Time)
    requires var r := BillingSteps.RefundRequest(db, user, o, administrator, key, now); r.Ok? && r.value.Some?
    ensures o in db.payments && o !in db.refunds
    ensures var p := db.payments[o];
            && p.user == user && Settled(p) && p.gatewayId.Some?
            && var paidAt := if p.paidAt.Some? then p.paidAt.value else p.createdAt;
            administrator || paidAt <= now < paidAt + BillingPolicy.REFUND_WINDOW
    ensures var r := BillingSteps.RefundRequest(db, user, o, administrator, key, now).value.value;
            r.key == key && 0 < r.amount && r.amount + db.payments[o].refunded == db.payments[o].amount
  {
    BillingPolicy.RefundAcceptance(db.payments[o], o, false, now);
  }

  lemma RequestMeans(w: World, user: UserId, o: OrderId, administrator: bool, key: nat)
    requires Inv(w) && Enabled(w, RequestRefundStep(user, o, administrator, key))
    ensures o in w.db.payments && o !in w.db.refunds
    ensures var p := w.db.payments[o];
            && p.user == user && Settled(p) && p.gatewayId.Some? && p.gatewayId.value in w.charges && w.charges[p.gatewayId.value] == o
            && var paidAt := if p.paidAt.Some? then p.paidAt.value else p.createdAt;
            administrator || paidAt <= w.now < paidAt + BillingPolicy.REFUND_WINDOW
    ensures var r := Apply(w, RequestRefundStep(user, o, administrator, key)).db.refunds;
            o in r && r[o].key == key && 0 < r[o].amount && r[o].amount + w.db.payments[o].refunded == w.db.payments[o].amount
  {
    hide Inv, BillingSteps.RefundRequest, Settled, LedgerInv;
    RequestOf(w.db, user, o, administrator, key, w.now);
    ChargesOf(w);
  }

  lemma ChargesOf(w: World)
    requires Inv(w)
    ensures ChargesKnown(w)
  {
  }
}
