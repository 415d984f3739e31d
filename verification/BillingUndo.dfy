/** Buying a plan, and refunding it in full: what a purchase gives, and when a refund leaves an
    account where it was before. */
module BillingUndo {
  import opened BillingTypes
  import opened BillingSteps
  import opened BillingInvariant
  import opened BillingHistory
  import opened BillingWorld
  import BillingSafety
  import BillingRuns

  ghost predicate HasCapturedPayment(payments: map<OrderId, Payment>, s: SubId) {
    exists q :: q in payments && payments[q].subscription == Some(s) && payments[q].status == PCaptured
  }

  predicate Outlasts(s: Subscription, now: Time) {
    s.periodEnd.Some? && s.periodEnd.value > now
  }

  // The entitlement before the purchase

  /** With one live subscription per user, the active one alone decides. */
  lemma EntitlementIsActive(db: Ledger, user: UserId, now: Time)
    requires OneLive(db.subscriptions)
    ensures var a := ActiveOf(db.subscriptions, user);
            EntitlementOf(db, user, now) ==
            if a.Some? && (db.subscriptions[a.value].periodEnd.None? || now < db.subscriptions[a.value].periodEnd.value)
            then Entitlement(db.subscriptions[a.value].plan, db.subscriptions[a.value].periodEnd)
            else Entitlement(FREE, None)
  {
    var a := ActiveOf(db.subscriptions, user);
    if a.Some? {
      assert IsActiveOf(db.subscriptions, user, a.value);
      forall s | IsEntitledOf(db.subscriptions, user, now, s) ensures s == a.value {
        assert Live(db.subscriptions[s]);
      }
      if Entitled(db.subscriptions[a.value], now) {
        assert IsEntitledOf(db.subscriptions, user, now, a.value);
      }
    } else {
      forall s ensures !IsEntitledOf(db.subscriptions, user, now, s) {
        assert !IsActiveOf(db.subscriptions, user, s);
      }
    }
  }

  // What a purchase gives

  /** Some payment of the subscription is newer than `createdAt`. */
  ghost predicate PaidSince(payments: map<OrderId, Payment>, s: Option<SubId>, createdAt: Time) {
    s.Some? && exists q :: q in payments && payments[q].subscription == s && createdAt < payments[q].createdAt
  }

  /** A purchase is granted once, and not when the active plan has a newer payment: then nothing
      changes but the mark for review. */
  lemma GrantsUnlessSuperseded(db: Ledger, o: OrderId, now: Time, newSub: SubId)
    requires o in db.payments && newSub !in db.subscriptions
    ensures var p := db.payments[o];
            var late := PaidSince(db.payments, ActiveOf(db.subscriptions, p.user), p.createdAt);
            var r := Activate(db, o, now, newSub);
            && (newSub in r.subscriptions <==> p.subscription.None? && !late)
            && (p.subscription.Some? ==> r == db)
            && (p.subscription.None? && late ==> r == db.(payments := db.payments[o := p.(fulfillment := ReviewRequired)]))
  {
    hide Redeem, Grant;
    var p := db.payments[o];
    var active := ActiveOf(db.subscriptions, p.user);
    assert Superseded(db, p, active) <==> PaidSince(db.payments, active, p.createdAt);
    hide Superseded, PaidSince;
    if p.subscription.None? && !Superseded(db, p, active) {
      GrantAdds(db, o, now, newSub, active);
      RedeemFrame(Grant(db, o, now, newSub, active), p, o);
    }
  }

  lemma GrantAdds(db: Ledger, o: OrderId, now: Time, newSub: SubId, active: Option<SubId>)
    requires o in db.payments && (active.Some? ==> active.value in db.subscriptions)
    ensures newSub in Grant(db, o, now, newSub, active).subscriptions
  {
  }

  /** What a grant writes. The bought plan starts now, or where the same plan ends; whatever of the user
      was live is cancelled now; and the payment names what it bought and what that replaced. */
  lemma GrantWritesRows(db: Ledger, o: OrderId, now: Time, newSub: SubId)
    requires o in db.payments && newSub !in db.subscriptions && db.payments[o].subscription.None?
    requires !PaidSince(db.payments, ActiveOf(db.subscriptions, db.payments[o].user), db.payments[o].createdAt)
    ensures var p, r, active := db.payments[o], Activate(db, o, now, newSub), ActiveOf(db.subscriptions, db.payments[o].user);
            var start := if active.Some? && db.subscriptions[active.value].plan == p.plan && db.subscriptions[active.value].periodEnd.Some?
                            && now < db.subscriptions[active.value].periodEnd.value
                         then db.subscriptions[active.value].periodEnd.value else now;
            && newSub in r.subscriptions
            && r.subscriptions[newSub] == Subscription(p.user, p.plan, p.cycle, SActive, now, Some(db.periodEnd(start, p.cycle)), false, None, Some(o))
            && (forall s :: s in db.subscriptions ==>
                  && s in r.subscriptions
                  && r.subscriptions[s] == if db.subscriptions[s].user == p.user && db.subscriptions[s].status in {SActive, SPastDue, STrialing}
                                           then db.subscriptions[s].(status := SCanceled, canceledAt := Some(now)) else db.subscriptions[s])
            && r.payments == db.payments[o := p.(subscription := Some(newSub), fulfillment := Active, previous := active)]
  {
    var p := db.payments[o];
    var active := ActiveOf(db.subscriptions, p.user);
    assert !Superseded(db, p, active);
    hide Superseded, PaidSince, Redeem;
    RedeemFrame(Grant(db, o, now, newSub, active), p, o);
  }

  /** The subscription table after a grant. */
  lemma GrantedSubscriptions(db: Ledger, o: OrderId, now: Time, newSub: SubId)
    requires o in db.payments && db.payments[o].subscription.None?
    requires !Superseded(db, db.payments[o], ActiveOf(db.subscriptions, db.payments[o].user))
    ensures Activate(db, o, now, newSub).subscriptions ==
            Grant(db, o, now, newSub, ActiveOf(db.subscriptions, db.payments[o].user)).subscriptions
  {
    hide Redeem, Superseded, Grant;
    RedeemFrame(Grant(db, o, now, newSub, ActiveOf(db.subscriptions, db.payments[o].user)), db.payments[o], o);
  }

  /** A granted plan is in force at once. Bought on top of the same plan it runs on from where that
      one would have ended, so no paid day is lost; nobody else's plan changes. */
  lemma PurchaseTakesEffect(db: Ledger, o: OrderId, now: Time, newSub: SubId)
    requires OneLive(db.subscriptions) && o in db.payments && db.payments[o].subscription.None? && newSub !in db.subscriptions
    requires !Superseded(db, db.payments[o], ActiveOf(db.subscriptions, db.payments[o].user))
    requires forall t: Time, cycle: Calendar.Cycle :: t < db.periodEnd(t, cycle)
    ensures var p, r := db.payments[o], Activate(db, o, now, newSub);
            var before, after := EntitlementOf(db, p.user, now), EntitlementOf(r, p.user, now);
            && after.plan == p.plan && after.end.Some? && now < after.end.value
            && (before.plan == p.plan && before.end.Some? ==>
                  after.end.value == db.periodEnd(before.end.value, p.cycle) && before.end.value < after.end.value)
    ensures forall user: UserId, t: Time :: user != db.payments[o].user ==>
      EntitlementOf(Activate(db, o, now, newSub), user, t) == EntitlementOf(db, user, t)
  {
    hide Activate, Superseded, EntitlementOf, OneLive;
    var p := db.payments[o];
    var r := Activate(db, o, now, newSub);
    var active := ActiveOf(db.subscriptions, p.user);
    GrantedSubscriptions(db, o, now, newSub);
    GrantKeepsOneLive(db, o, now, newSub, active);
    CancelLiveLeavesNone(db.subscriptions, p.user, now);
    EntitlementIsActive(db, p.user, now);
    EntitlementIsActive(r, p.user, now);
    NewIsActive(r.subscriptions, p.user, newSub);
    forall user: UserId, t: Time | user != p.user
      ensures EntitlementOf(r, user, t) == EntitlementOf(db, user, t)
    {
      EntitlementIsActive(db, user, t);
      EntitlementIsActive(r, user, t);
      OthersStay(db.subscriptions, r.subscriptions, user);
    }
  }

  lemma NewIsActive(subs: map<SubId, Subscription>, user: UserId, s: SubId)
    requires OneLive(subs) && s in subs && subs[s].user == user && subs[s].status == SActive
    ensures ActiveOf(subs, user) == Some(s)
  {
    assert IsActiveOf(subs, user, s);
  }

  lemma OthersStay(before: map<SubId, Subscription>, after: map<SubId, Subscription>, user: UserId)
    requires OneLive(before) && OneLive(after)
    requires forall s :: s in before && before[s].user == user ==> s in after && after[s] == before[s]
    requires forall s :: s in after && after[s].user == user ==> s in before && before[s] == after[s]
    ensures ActiveOf(after, user) == ActiveOf(before, user)
  {
    var a, b := ActiveOf(before, user), ActiveOf(after, user);
    assert a.Some? ==> IsActiveOf(after, user, a.value);
    assert b.Some? ==> IsActiveOf(before, user, b.value);
  }

  // What the purchase writes

  lemma GrantWrites(db: Ledger, o: OrderId, now: Time, newSub: SubId, active: Option<SubId>)
    requires o in db.payments && (active.Some? ==> active.value in db.subscriptions)
    ensures var r := Grant(db, o, now, newSub, active); o in r.payments && r.payments[o].previous == active
  {
  }

  /** The grant remembers the subscription it replaced. */
  lemma GrantRemembers(db: Ledger, o: OrderId, now: Time, newSub: SubId)
    requires o in db.payments && db.payments[o].subscription != Some(newSub)
    requires var r := Activate(db, o, now, newSub); o in r.payments && r.payments[o].subscription == Some(newSub)
    ensures Activate(db, o, now, newSub).payments[o].previous == ActiveOf(db.subscriptions, db.payments[o].user)
  {
    hide Grant, Redeem, Superseded;
    var p := db.payments[o];
    var active := ActiveOf(db.subscriptions, p.user);
    assert p.subscription.None? && !Superseded(db, p, active);
    GrantWrites(db, o, now, newSub, active);
    RedeemFrame(Grant(db, o, now, newSub, active), p, o);
  }

  lemma UncapturedGrantsNothing(db: Ledger, e: Report, now: Time, newSub: SubId)
    requires e.order in db.payments && (Settled(db.payments[e.order]) || e.status != RCaptured)
    ensures var r := Settle(db, e, now, newSub); e.order in r.payments && r.payments[e.order].subscription == db.payments[e.order].subscription
  {
    hide Activate;
    SettleRowLeaves(db.payments[e.order], e, now);
  }

  /** The capture that grants `newSub` remembers the subscription it replaced. */
  lemma CaptureRemembers(db: Ledger, e: Report, now: Time, newSub: SubId)
    requires e.order in db.payments && db.payments[e.order].subscription != Some(newSub)
    requires var r := Settle(db, e, now, newSub); e.order in r.payments && r.payments[e.order].subscription == Some(newSub)
    ensures Settle(db, e, now, newSub).payments[e.order].previous == ActiveOf(db.subscriptions, db.payments[e.order].user)
  {
    hide Activate, MirrorCheckout, SettleRow, Granted, ActiveOf;
    var o := e.order;
    var p := db.payments[o];
    if Settled(p) || e.status != RCaptured {
      UncapturedGrantsNothing(db, e, now, newSub);
    } else if MatchesOrder(p, e) {
      SettleRowLeaves(p, e, now);
      var updated := db.(payments := db.payments[o := SettleRow(p, e, now)]);
      ActivateFrame(updated, o, now, newSub);
      BillingSafety.MirrorFrame(Activate(updated, o, now, newSub), o);
      GrantRemembers(updated, o, now, newSub);
    }
  }

  lemma SettleRowLeaves(p: Payment, e: Report, now: Time)
    ensures var q := SettleRow(p, e, now); q.subscription == p.subscription && q.user == p.user
  {
  }

  // What the refund leaves

  /** After a full refund only the subscription that was replaced can be active, and it is if it
      still has paid time left and its own charge was not refunded. */
  ghost function Fallback(db: Ledger, previous: Option<SubId>, user: UserId, now: Time): Entitlement {
    if previous.Some? && previous.value in db.subscriptions && db.subscriptions[previous.value].user == user
       && Outlasts(db.subscriptions[previous.value], now) && HasCapturedPayment(db.payments, previous.value)
    then Entitlement(db.subscriptions[previous.value].plan, db.subscriptions[previous.value].periodEnd)
    else Entitlement(FREE, None)
  }

  lemma CapturedElsewhere(payments: map<OrderId, Payment>, o: OrderId, q: Payment, s: SubId)
    requires o in payments && payments[o].subscription == q.subscription && q.subscription != Some(s)
    ensures HasCapturedPayment(payments, s) <==> HasCapturedPayment(payments[o := q], s)
  {
    if HasCapturedPayment(payments, s) {
      var k :| k in payments && payments[k].subscription == Some(s) && payments[k].status == PCaptured;
      assert k in payments[o := q] && payments[o := q][k].subscription == Some(s) && payments[o := q][k].status == PCaptured;
    }
  }

  lemma RevokedTable(db: Ledger, paid: Payment, s: SubId, now: Time)
    requires paid.subscription == Some(s) && s in db.subscriptions && db.subscriptions[s].user == paid.user
    requires db.subscriptions[s].status == SActive && paid.previous != Some(s)
    ensures var ended := db.subscriptions[s := db.subscriptions[s].(status := SCanceled, canceledAt := Some(now), periodEnd := Some(now))];
            var t := paid.previous;
            RevokeAccess(db, paid, now).subscriptions ==
            if t.Some? && t.value in db.subscriptions && db.subscriptions[t.value].user == paid.user
               && Outlasts(db.subscriptions[t.value], now) && HasCapturedPayment(db.payments, t.value)
            then ended[t.value := db.subscriptions[t.value].(status := SActive, canceledAt := None)]
            else ended
  {
  }

  lemma RevokedEntitlement(db: Ledger, paid: Payment, s: SubId, now: Time)
    requires OneLive(db.subscriptions)
    requires paid.subscription == Some(s) && s in db.subscriptions && db.subscriptions[s].user == paid.user
    requires db.subscriptions[s].status == SActive && paid.previous != Some(s)
    ensures EntitlementOf(RevokeAccess(db, paid, now), paid.user, now) == Fallback(db, paid.previous, paid.user, now)
  {
    hide RevokeAccess;
    RevokedTable(db, paid, s, now);
    BillingPreservation.RevokeAccessTables(db, paid, now);
    var r := RevokeAccess(db, paid, now);
    EntitlementIsActive(r, paid.user, now);
    var a := ActiveOf(r.subscriptions, paid.user);
    assert forall t | t in db.subscriptions && Live(db.subscriptions[t]) && db.subscriptions[t].user == paid.user :: t == s;
    if a.Some? {
      assert IsActiveOf(r.subscriptions, paid.user, a.value) && a.value in db.subscriptions;
      assert paid.previous == a;
    } else if paid.previous.Some? {
      assert !IsActiveOf(r.subscriptions, paid.user, paid.previous.value);
    }
  }

  lemma RefundLeaves(db: Ledger, o: OrderId, paid: Payment, s: SubId, total: nat, now: Time)
    requires OneLive(db.subscriptions) && o in db.payments && BillingPreservation.PaymentPast(paid, db.payments[o])
    requires paid.subscription == Some(s) && s in db.subscriptions && db.subscriptions[s].user == paid.user
    requires db.subscriptions[s].status == SActive && paid.previous != Some(s)
    requires Max(total, db.payments[o].refunded) == paid.amount > 0
    ensures EntitlementOf(RecordTotal(db, o, paid, total, now), paid.user, now) == Fallback(db, paid.previous, paid.user, now)
  {
    hide RevokeAccess, EntitlementOf, OneLive;
    var q := db.payments[o].(refunded := paid.amount, status := PRefunded);
    var recorded := db.(payments := db.payments[o := q]);
    RevokedEntitlement(recorded, paid, s, now);
    if paid.previous.Some? {
      CapturedElsewhere(db.payments, o, q, paid.previous.value);
    }
  }

  /** `reconcileRefundBalance` decides about the plan from the row it was handed, not from the one it
      reads under the lock. Recording a full refund ends the plan it paid for exactly when the row
      as read before the lock already named the subscription. */
  lemma RefundEndsPlan(db: Ledger, o: OrderId, s: SubId, snapshot: Payment, total: nat, now: Time)
    requires o in db.payments && Purchases(db.subscriptions, db.payments) && BillingPreservation.PaymentPast(snapshot, db.payments[o])
    requires db.payments[o].subscription == Some(s) && s in db.subscriptions && Live(db.subscriptions[s])
    requires Max(total, db.payments[o].refunded) == snapshot.amount > 0
    ensures var r := RecordTotal(db, o, snapshot, total, now);
            && o in r.payments && r.payments[o].status == PRefunded && s in r.subscriptions
            && (Live(r.subscriptions[s]) <==> snapshot.subscription.None?)
  {
    hide Restorable;
    var q := db.payments[o].(refunded := snapshot.amount, status := PRefunded);
    var row := db.subscriptions[s].(status := SCanceled, canceledAt := Some(now), periodEnd := Some(now));
    EndedStaysEnded(db.(payments := db.payments[o := q], subscriptions := db.subscriptions[s := row]), s, snapshot.user, now);
  }

  /** What ends now is not restored. */
  lemma EndedStaysEnded(db: Ledger, s: SubId, user: UserId, now: Time)
    requires s in db.subscriptions && db.subscriptions[s].periodEnd == Some(now)
    ensures !Restorable(db, s, user, now)
  {
  }

  // Undo

  /** When a full refund at `now` gives back what the account had: it had nothing active; or that
      has run out by now; or it was Free without an end; or its own charge still stands. */
  ghost predicate CanBeUndone(before: Ledger, later: Ledger, user: UserId, now: Time) {
    var a := ActiveOf(before.subscriptions, user);
    || a.None?
    || match before.subscriptions[a.value].periodEnd
       case None => before.subscriptions[a.value].plan == FREE
       case Some(end) => end <= now || HasCapturedPayment(later.payments, a.value)
  }

  /** A subscription whose charge stands has not been bought back. */
  lemma ChargeStands(subs: map<SubId, Subscription>, payments: map<OrderId, Payment>, s: SubId)
    requires Purchases(subs, payments) && HasCapturedPayment(payments, s)
    ensures !BoughtBack(payments, s)
  {
    var q :| q in payments && payments[q].subscription == Some(s) && payments[q].status == PCaptured;
    forall k | k in payments && payments[k].subscription == Some(s)
      ensures k == q
    {
      assert subs[s].order == Some(k) && subs[s].order == Some(q);
    }
  }

  /** What the replaced subscription is worth once it is given back. */
  lemma FallbackIsBefore(before: Ledger, later: Ledger, user: UserId, now: Time)
    requires OneLive(before.subscriptions) && Purchases(later.subscriptions, later.payments)
    requires SubscriptionsAdvance(before.subscriptions, later.subscriptions, later.payments)
    ensures Fallback(later, ActiveOf(before.subscriptions, user), user, now) == EntitlementOf(before, user, now)
            <==> CanBeUndone(before, later, user, now)
  {
    hide EntitlementOf, Purchases;
    EntitlementIsActive(before, user, now);
    var a := ActiveOf(before.subscriptions, user);
    if a.Some? {
      assert SubscriptionPast(before.subscriptions[a.value], later.subscriptions[a.value], BoughtBack(later.payments, a.value));
      if HasCapturedPayment(later.payments, a.value) {
        ChargeStands(later.subscriptions, later.payments, a.value);
      }
    }
  }

  /** The report `e` grants `newSub`. */
  ghost predicate Buys(w: World, e: Report, newSub: SubId) {
    && Enabled(w, SettleStep(e, newSub))
    && e.order in Settle(w.db, e, w.now, newSub).payments
    && Settle(w.db, e, w.now, newSub).payments[e.order].subscription == Some(newSub)
  }

  ghost function Bought(w: World, e: Report, newSub: SubId): World
    requires Buys(w, e, newSub)
  {
    Apply(w, SettleStep(e, newSub))
  }

  /** The reconciliation records the whole charge as returned while `s`, which it paid, is active. */
  ghost predicate Returns(u: World, o: OrderId, s: SubId, paid: Payment, listed: nat, expected: Option<RefundId>) {
    && CanReconcile(u, o, paid, listed, expected)
    && paid.subscription == Some(s) && s in u.db.subscriptions && u.db.subscriptions[s].status == SActive
    && Max(Total(ProcessedOf(u, paid.gatewayId.value)[..listed]), u.db.payments[o].refunded) == paid.amount > 0
  }

  ghost function Returned(u: World, o: OrderId, paid: Payment, listed: nat, expected: Option<RefundId>): World
    requires CanReconcile(u, o, paid, listed, expected)
  {
    Apply(u, ReconcileStep(o, paid, listed, expected))
  }

  lemma BuysFresh(w: World, e: Report, newSub: SubId)
    requires Buys(w, e, newSub)
    ensures e.order in w.db.payments && newSub !in w.db.subscriptions
    ensures Bought(w, e, newSub).db == Settle(w.db, e, w.now, newSub)
  {
  }

  lemma BoughtKeeps(w: World, e: Report, newSub: SubId)
    requires Inv(w) && Buys(w, e, newSub)
    ensures Inv(Bought(w, e, newSub)) && Advance(w.db, Bought(w, e, newSub).db)
  {
    hide Inv, Advance;
    BillingSafety.StepKeepsInv(w, SettleStep(e, newSub));
  }

  lemma BoughtRemembers(w: World, e: Report, newSub: SubId)
    requires Inv(w) && Buys(w, e, newSub)
    requires e.order in w.db.payments && newSub !in w.db.subscriptions
    ensures Settle(w.db, e, w.now, newSub).payments[e.order].previous == ActiveOf(w.db.subscriptions, w.db.payments[e.order].user)
  {
    hide Inv, Settle;
    TablesOf(w);
    CaptureRemembers(w.db, e, w.now, newSub);
  }

  lemma TablesOf(w: World)
    requires Inv(w)
    ensures OneLive(w.db.subscriptions) && Purchases(w.db.subscriptions, w.db.payments)
  {
    LedgerKeys(w.db, w.now);
  }

  /** The purchase as it stands after any run: same buyer, same subscription, same memory of what
      it replaced. */
  lemma PurchaseStands(w: World, e: Report, newSub: SubId, run: seq<Step>)
    requires Inv(w) && Buys(w, e, newSub) && CanRun(Bought(w, e, newSub), run)
    ensures var u := Run(Bought(w, e, newSub), run);
            && e.order in w.db.payments && newSub !in w.db.subscriptions
            && OneLive(w.db.subscriptions) && OneLive(u.db.subscriptions) && Purchases(u.db.subscriptions, u.db.payments)
            && SubscriptionsAdvance(w.db.subscriptions, u.db.subscriptions, u.db.payments)
            && e.order in u.db.payments && u.db.payments[e.order].user == w.db.payments[e.order].user
            && u.db.payments[e.order].subscription == Some(newSub)
            && u.db.payments[e.order].previous == ActiveOf(w.db.subscriptions, w.db.payments[e.order].user)
  {
    hide Inv, Bought, CanRun, Run, OneLive, Purchases, Settle;
    BuysFresh(w, e, newSub);
    BoughtKeeps(w, e, newSub);
    BoughtRemembers(w, e, newSub);
    var v := Bought(w, e, newSub);
    var u := Run(v, run);
    BillingRuns.RunKeepsInv(v, run);
    AdvanceTransitive(w.db, v.db, u.db);
    TablesOf(w);
    TablesOf(u);
    assert BillingPreservation.PaymentPast(v.db.payments[e.order], u.db.payments[e.order]);
    assert BillingPreservation.PaymentPast(w.db.payments[e.order], u.db.payments[e.order]);
  }

  lemma BoughtBy(u: World, o: OrderId, s: SubId)
    requires Purchases(u.db.subscriptions, u.db.payments) && o in u.db.payments && u.db.payments[o].subscription == Some(s)
    ensures s in u.db.subscriptions && u.db.subscriptions[s].user == u.db.payments[o].user
  {
  }

  lemma ReturnedEntitlement(u: World, o: OrderId, s: SubId, paid: Payment, listed: nat, expected: Option<RefundId>)
    requires OneLive(u.db.subscriptions) && Purchases(u.db.subscriptions, u.db.payments)
    requires Returns(u, o, s, paid, listed, expected) && paid.previous != Some(s)
    ensures EntitlementOf(Returned(u, o, paid, listed, expected).db, paid.user, u.now) == Fallback(u.db, paid.previous, paid.user, u.now)
  {
    hide EntitlementOf, Fallback, OneLive, Purchases, RecordTotal;
    BoughtBy(u, o, s);
    RefundLeaves(u.db, o, paid, s, Total(ProcessedOf(u, paid.gatewayId.value)[..listed]), u.now);
  }

  /** A capture grants `newSub`; anything happens; then a full refund is recorded while `newSub`
      is still active. The account is back to what it would have had without the purchase exactly
      when `CanBeUndone`. */
  lemma RefundUndoesPurchase(w: World, e: Report, newSub: SubId, run: seq<Step>, u: World,
                             paid: Payment, listed: nat, expected: Option<RefundId>)
    requires Inv(w) && Buys(w, e, newSub) && CanRun(Bought(w, e, newSub), run) && u == Run(Bought(w, e, newSub), run)
    requires Returns(u, e.order, newSub, paid, listed, expected)
    ensures var user := paid.user;
            EntitlementOf(Returned(u, e.order, paid, listed, expected).db, user, u.now) == EntitlementOf(w.db, user, u.now)
            <==> CanBeUndone(w.db, u.db, user, u.now)
  {
    hide Inv, Buys, Bought, CanRun, Run, EntitlementOf, OneLive, Purchases, Returned, Fallback, CanBeUndone, SubscriptionsAdvance, Total, ActiveOf;
    PurchaseStands(w, e, newSub, run);
    assert BillingPreservation.PaymentPast(paid, u.db.payments[e.order]);
    ActiveIsOld(w.db.subscriptions, paid.user);
    ReturnedEntitlement(u, e.order, newSub, paid, listed, expected);
    FallbackIsBefore(w.db, u.db, paid.user, u.now);
  }

  lemma ActiveIsOld(subs: map<SubId, Subscription>, user: UserId)
    ensures ActiveOf(subs, user).Some? ==> ActiveOf(subs, user).value in subs
  {
    assert ActiveOf(subs, user).Some? ==> IsActiveOf(subs, user, ActiveOf(subs, user).value);
  }

  /** Cancelling or resuming changes no access, now or later: paid time is used up either way. */
  lemma ScheduleKeepsEntitlement(db: Ledger, user: UserId, cancel: bool, now: Time, other: UserId, later: Time)
    requires OneLive(db.subscriptions) && ScheduleChange(db, user, cancel, now).Some?
    ensures EntitlementOf(ScheduleChange(db, user, cancel, now).value, other, later) == EntitlementOf(db, other, later)
  {
    var r := ScheduleChange(db, user, cancel, now).value;
    EntitlementIsActive(db, other, later);
    EntitlementIsActive(r, other, later);
    var a, b := ActiveOf(db.subscriptions, other), ActiveOf(r.subscriptions, other);
    assert a.Some? ==> IsActiveOf(r.subscriptions, other, a.value);
    assert b.Some? ==> IsActiveOf(db.subscriptions, other, b.value);
  }
}
