/** Every step of the billing world keeps its invariant and moves the rows forward. */
module BillingSafety {
  import opened BillingTypes
  import opened BillingSteps
  import opened BillingInvariant
  import opened BillingPreservation
  import opened BillingHistory
  import opened BillingWorld

  lemma LedgerOf(w: World)
    requires Inv(w)
    ensures LedgerInv(w.db, w.now)
  {
  }

  // The provider's side under a change of the tables

  lemma OrdersStayAgreed(w: World, db: Ledger)
    requires OrdersAgree(w) && CheckoutsAdvance(w.db.checkouts, db.checkouts)
    ensures OrdersAgree(w.(db := db))
  {
    forall c | c in w.db.checkouts
      ensures c in db.checkouts && db.checkouts[c].amount == w.db.checkouts[c].amount
    {
      assert CheckoutPast(w.db.checkouts[c], db.checkouts[c]);
    }
  }

  lemma RefundsStayRecorded(w: World, db: Ledger)
    requires ConfirmedIsCovered(w) && SubmittedAsRecorded(w)
    requires RefundsAdvance(w.db.refunds, db.refunds) && PaymentsAdvance(w.db.payments, db.payments)
    ensures ConfirmedIsCovered(w.(db := db)) && SubmittedAsRecorded(w.(db := db))
  {
    forall o | o in w.confirmed
      ensures o in db.refunds && o in db.payments && db.refunds[o].amount <= db.payments[o].refunded
    {
      assert RefundPast(w.db.refunds[o], db.refunds[o]) && PaymentPast(w.db.payments[o], db.payments[o]);
    }
    forall s | s in w.submissions
      ensures s.order in db.refunds && s.key == db.refunds[s.order].key && s.amount == db.refunds[s.order].amount
    {
      assert RefundPast(w.db.refunds[s.order], db.refunds[s.order]);
    }
  }

  lemma ReturnedStays(w: World, v: World, o: OrderId, amount: nat)
    requires ProviderReturned(w, o, amount) && v.charges == w.charges && v.processed == w.processed
    ensures ProviderReturned(v, o, amount)
  {
    var g :| g in w.charges && w.charges[g] == o && amount <= Total(ProcessedOf(w, g));
    assert g in v.charges && v.charges[g] == o && amount <= Total(ProcessedOf(v, g));
  }

  lemma ReturnedUnchanged(w: World, db: Ledger)
    requires ReturnedAtProvider(w)
    requires forall o :: o in db.payments && db.payments[o].refunded > 0 ==>
      o in w.db.payments && db.payments[o].refunded == w.db.payments[o].refunded
    ensures ReturnedAtProvider(w.(db := db))
  {
    forall o | o in db.payments && db.payments[o].refunded > 0
      ensures ProviderReturned(w.(db := db), o, db.payments[o].refunded)
    {
      ReturnedStays(w, w.(db := db), o, db.payments[o].refunded);
    }
  }

  /** A transaction, given what it does to rows that the provider knows. */
  lemma Transaction(w: World, db: Ledger)
    requires Inv(w) && LedgerInv(db, w.now) && Advance(w.db, db)
    requires GivenUpIsFinal(w.(db := db)) && PaymentsKnown(w.(db := db)) && ChargesKnown(w.(db := db))
    requires ReturnedAtProvider(w.(db := db))
    ensures Inv(w.(db := db))
  {
    OrdersStayAgreed(w, db);
    RefundsStayRecorded(w, db);
  }

  lemma ProviderBlind(w: World, db: Ledger)
    requires GivenUpIsFinal(w) && PaymentsKnown(w) && ChargesKnown(w) && ReturnedAtProvider(w)
    requires db.checkouts == w.db.checkouts && db.payments == w.db.payments
    ensures GivenUpIsFinal(w.(db := db)) && PaymentsKnown(w.(db := db)) && ChargesKnown(w.(db := db))
    ensures ReturnedAtProvider(w.(db := db))
  {
    ReturnedUnchanged(w, db);
  }

  /** A transaction on subscriptions or refund records only. */
  lemma QuietTransaction(w: World, db: Ledger)
    requires Inv(w) && LedgerInv(db, w.now) && Advance(w.db, db)
    requires db.checkouts == w.db.checkouts && db.payments == w.db.payments
    ensures Inv(w.(db := db))
  {
    ProviderBlind(w, db);
    Transaction(w, db);
  }

  /** One checkout moved: it may be given up only when the provider will never have its order. */
  lemma CheckoutIsKnown(w: World, db: Ledger, c: CheckoutId)
    requires GivenUpIsFinal(w) && PaymentsKnown(w) && ChargesKnown(w) && ReturnedAtProvider(w)
    requires c in db.checkouts && db == w.db.(checkouts := w.db.checkouts[c := db.checkouts[c]])
    requires Open(db.checkouts[c]) || db.checkouts[c].payment.Some?
             || (db.checkouts[c].amount > 0 && (c in w.rejected || c in w.absent))
    ensures GivenUpIsFinal(w.(db := db)) && PaymentsKnown(w.(db := db)) && ChargesKnown(w.(db := db))
    ensures ReturnedAtProvider(w.(db := db))
  {
    ReturnedUnchanged(w, db);
  }

  /** A transaction on one checkout that has no payment yet. */
  lemma CheckoutTransaction(w: World, db: Ledger, c: CheckoutId)
    requires Inv(w) && LedgerInv(db, w.now) && Advance(w.db, db)
    requires c in db.checkouts && db == w.db.(checkouts := w.db.checkouts[c := db.checkouts[c]])
    requires Open(db.checkouts[c]) || db.checkouts[c].payment.Some?
             || (db.checkouts[c].amount > 0 && (c in w.rejected || c in w.absent))
    ensures Inv(w.(db := db))
  {
    hide LedgerInv, Advance, GivenUpIsFinal, PaymentsKnown, ChargesKnown, ReturnedAtProvider, OrdersAgree;
    CheckoutIsKnown(w, db, c);
    Transaction(w, db);
  }

  // Orders

  lemma ReserveKeeps(w: World, input: OrderInput, configured: bool, c: CheckoutId)
    requires Inv(w) && Enabled(w, ReserveStep(input, configured, c))
    ensures Inv(Apply(w, ReserveStep(input, configured, c)))
    ensures Advance(w.db, Apply(w, ReserveStep(input, configured, c)).db)
  {
    var row := Reserve(w.db, input, w.now, configured).row;
    var db := AddCheckout(w.db, c, row);
    ReserveKeepsInv(w.db, input, w.now, configured, c);
    ReservedRow(w.db, input, w.now, configured);
    ReserveAdvances(w.db, c, row);
    CheckoutTransaction(w, db, c);
    if row.amount > 0 {
      assert c !in w.sent;
      AwaitingOrder(w.(db := db), c);
    }
  }

  lemma AwaitingAgrees(w: World, c: CheckoutId)
    requires OrdersAgree(w) && c in w.db.checkouts && w.db.checkouts[c].amount > 0 && c !in w.sent
    ensures OrdersAgree(w.(unsent := w.unsent + {c}))
  {
  }

  /** The reserving request has yet to ask for the order. */
  lemma AwaitingOrder(w: World, c: CheckoutId)
    requires Inv(w) && c in w.db.checkouts && w.db.checkouts[c].amount > 0 && c !in w.sent
    ensures Inv(w.(unsent := w.unsent + {c}))
  {
    hide Inv, LedgerInv, OrdersAgree, SubmittedAsRecorded, OneRefundPerKey, Total;
    PartsOf(w);
    AwaitingAgrees(w, c);
    SubmissionsBlind(w, w.(unsent := w.unsent + {c}));
    OutsideStep(w, w.(unsent := w.unsent + {c}));
  }

  lemma OrderFailedKeeps(w: World, c: CheckoutId, rejection: bool)
    requires Inv(w) && Enabled(w, OrderFailedStep(c, rejection))
    ensures Inv(Apply(w, OrderFailedStep(c, rejection)))
    ensures Advance(w.db, Apply(w, OrderFailedStep(c, rejection)).db)
  {
    var db := OrderFailed(w.db, c, rejection);
    OrderFailedKeepsInv(w.db, c, rejection, w.now);
    OrderFailedAdvances(w.db, c, rejection);
    OrderFailedRow(w, c, rejection);
    CheckoutTransaction(w, db, c);
  }

  lemma OrderFailedRow(w: World, c: CheckoutId, rejection: bool)
    requires GivenUpIsFinal(w) && c in w.db.checkouts && w.db.checkouts[c].amount > 0 && (rejection ==> c in w.rejected)
    ensures var db := OrderFailed(w.db, c, rejection);
            && c in db.checkouts && db == w.db.(checkouts := w.db.checkouts[c := db.checkouts[c]])
            && (Open(db.checkouts[c]) || db.checkouts[c].payment.Some? || (db.checkouts[c].amount > 0 && (c in w.rejected || c in w.absent)))
  {
    assert w.db.checkouts == w.db.checkouts[c := w.db.checkouts[c]];
  }

  lemma AbsentCosts(w: World, c: CheckoutId)
    requires Inv(w) && c in w.absent
    ensures c in w.db.checkouts && w.db.checkouts[c].amount > 0
  {
    assert OrdersAgree(w);
  }

  lemma ReleaseKeeps(w: World, c: CheckoutId)
    requires Inv(w) && Enabled(w, ReleaseStep(c))
    ensures Inv(Apply(w, ReleaseStep(c)))
    ensures Advance(w.db, Apply(w, ReleaseStep(c)).db)
  {
    hide Inv, LedgerInv, Advance, Open;
    AbsentCosts(w, c);
    LedgerOf(w);
    var db := Release(w.db, c);
    ReleaseKeepsInv(w.db, c, w.now);
    ReleaseAdvances(w.db, c);
    assert w.db.checkouts == w.db.checkouts[c := w.db.checkouts[c]];
    CheckoutTransaction(w, db, c);
  }

  /** An order of the provider can be attached to the checkout it was made for: had the checkout
      been given up, the order would not exist; had it another payment, there would be two orders. */
  lemma ProviderOrderAttaches(w: World, o: OrderId)
    requires Inv(w) && o in w.orders
    ensures Attachable(w.db, w.orders[o].checkout, o) && w.db.checkouts[w.orders[o].checkout].amount > 0
  {
    var c := w.orders[o].checkout;
    assert c in w.sent;
    if w.db.checkouts[c].payment.Some? {
      var q := w.db.checkouts[c].payment.value;
      assert q in w.db.payments && w.db.payments[q].checkout == Some(c);
      assert q.GatewayOrder?;
      assert w.orders[q].checkout == c;
    }
  }

  lemma AttachKeeps(w: World, o: OrderId)
    requires Inv(w) && o in w.orders
    ensures w.orders[o].checkout in w.db.checkouts && Inv(w.(db := Attach(w.db, w.orders[o].checkout, o, w.now)))
    ensures Advance(w.db, Attach(w.db, w.orders[o].checkout, o, w.now))
  {
    var c := w.orders[o].checkout;
    ProviderOrderAttaches(w, o);
    var db := Attach(w.db, c, o, w.now);
    AttachKeepsInv(w.db, c, o, w.now);
    AttachAdvances(w.db, c, o, w.now);
    AttachedIsKnown(w, c, o);
    Transaction(w, db);
  }

  lemma AttachedIsKnown(w: World, c: CheckoutId, o: OrderId)
    requires GivenUpIsFinal(w) && PaymentsKnown(w) && ChargesKnown(w) && ReturnedAtProvider(w)
    requires c in w.db.checkouts && o in w.orders && w.orders[o].checkout == c
    ensures var v := w.(db := Attach(w.db, c, o, w.now));
            GivenUpIsFinal(v) && PaymentsKnown(v) && ChargesKnown(v) && ReturnedAtProvider(v)
  {
    ReturnedUnchanged(w, Attach(w.db, c, o, w.now));
  }

  lemma SaveFreeKeeps(w: World, c: CheckoutId, newSub: SubId)
    requires Inv(w) && c in w.db.checkouts && w.db.checkouts[c].amount == 0 && newSub !in w.db.subscriptions
    ensures Inv(w.(db := SaveOrder(w.db, c, FreeOrder(c), w.now, newSub)))
    ensures Advance(w.db, SaveOrder(w.db, c, FreeOrder(c), w.now, newSub))
  {
    var db := SaveOrder(w.db, c, FreeOrder(c), w.now, newSub);
    SaveFreeKeepsInv(w.db, c, w.now, newSub);
    SaveFreeAdvances(w.db, c, w.now, newSub);
    if FreeOrder(c) in w.db.payments {
      SaveFreeAgain(w.db, c, w.now, newSub);
    } else {
      FreeGranted(w.db, c, w.now, newSub);
    }
    FreeIsKnown(w, c, db);
    Transaction(w, db);
  }

  lemma FreeIsKnown(w: World, c: CheckoutId, db: Ledger)
    requires GivenUpIsFinal(w) && PaymentsKnown(w) && ChargesKnown(w) && ReturnedAtProvider(w)
    requires c in db.checkouts && db.checkouts == w.db.checkouts[c := db.checkouts[c]] && db.checkouts[c].payment.Some?
    requires FreeOrder(c) in db.payments && db.payments == w.db.payments[FreeOrder(c) := db.payments[FreeOrder(c)]]
    requires FreeOrder(c) in w.db.payments ==> db.payments == w.db.payments
    requires FreeOrder(c) !in w.db.payments ==>
      var p := db.payments[FreeOrder(c)]; p.gatewayId.None? && p.duplicates == {} && p.refunded == 0
    ensures var v := w.(db := db);
            GivenUpIsFinal(v) && PaymentsKnown(v) && ChargesKnown(v) && ReturnedAtProvider(v)
  {
    ReturnedUnchanged(w, db);
  }

  lemma SaveOrderKeeps(w: World, c: CheckoutId, o: OrderId, newSub: SubId)
    requires Inv(w) && Enabled(w, SaveOrderStep(c, o, newSub))
    ensures Inv(Apply(w, SaveOrderStep(c, o, newSub)))
    ensures Advance(w.db, Apply(w, SaveOrderStep(c, o, newSub)).db)
  {
    if w.db.checkouts[c].amount == 0 {
      SaveFreeKeeps(w, c, newSub);
    } else {
      AttachKeeps(w, o);
    }
  }

  lemma RecoverFreeKeeps(w: World, c: CheckoutId, newSub: SubId)
    requires Inv(w) && Enabled(w, RecoverFreeStep(c, newSub))
    ensures Inv(Apply(w, RecoverFreeStep(c, newSub)))
    ensures Advance(w.db, Apply(w, RecoverFreeStep(c, newSub)).db)
  {
    RecoverFreeIsSaveOrder(w.db, c, w.now, newSub);
    SaveFreeKeeps(w, c, newSub);
  }

  // Settling

  /** The checkout table after a report: at most the status of the paying checkout moved. */
  ghost predicate MirroredOnly(before: map<CheckoutId, Checkout>, after: map<CheckoutId, Checkout>, c: Option<CheckoutId>) {
    after == before
    || (c.Some? && c.value in before && c.value in after && after == before[c.value := after[c.value]]
        && after[c.value].payment == before[c.value].payment)
  }

  lemma MirrorFrame(db: Ledger, o: OrderId)
    requires o in db.payments
    ensures var r := MirrorCheckout(db, o);
            r == db.(checkouts := r.checkouts) && MirroredOnly(db.checkouts, r.checkouts, db.payments[o].checkout)
  {
  }

  lemma SettleFrame(db: Ledger, e: Report, now: Time, newSub: SubId)
    requires e.order in db.payments && MatchesOrder(db.payments[e.order], e)
    ensures var r := Settle(db, e, now, newSub);
            && e.order in r.payments && r.payments == db.payments[e.order := r.payments[e.order]]
            && SameCharge(SettleRow(db.payments[e.order], e, now), r.payments[e.order])
            && MirroredOnly(db.checkouts, r.checkouts, db.payments[e.order].checkout)
  {
    var o := e.order;
    var p := db.payments[o];
    var updated := db.(payments := db.payments[o := SettleRow(p, e, now)]);
    if !Settled(p) {
      var granted := updated;
      if e.status == RCaptured {
        granted := Activate(updated, o, now, newSub);
        ActivateFrame(updated, o, now, newSub);
      }
      MirrorFrame(granted, o);
      assert granted.payments == db.payments[o := granted.payments[o]];
    }
  }

  lemma SettledCharges(w: World, e: Report, db: Ledger, p: Payment)
    requires ChargesKnown(w)
    requires e.order in w.db.payments && e.id in w.charges && w.charges[e.id] == e.order
    requires db.payments == w.db.payments[e.order := p] && SameCharge(SettleRow(w.db.payments[e.order], e, w.now), p)
    ensures ChargesKnown(w.(db := db))
  {
    var q := SettleRow(w.db.payments[e.order], e, w.now);
    assert p.gatewayId == q.gatewayId && p.duplicates == q.duplicates;
    assert q.duplicates <= w.db.payments[e.order].duplicates + {e.id};
  }

  lemma SettledIsKnown(w: World, e: Report, db: Ledger, p: Payment)
    requires PaymentsKnown(w) && ReturnedAtProvider(w) && e.order in w.db.payments
    requires db.payments == w.db.payments[e.order := p] && SameCharge(SettleRow(w.db.payments[e.order], e, w.now), p)
    ensures PaymentsKnown(w.(db := db)) && ReturnedAtProvider(w.(db := db))
  {
    ReturnedUnchanged(w, db);
  }

  lemma SettledGivesUpNothing(w: World, e: Report, db: Ledger)
    requires GivenUpIsFinal(w) && Links(w.db.checkouts, w.db.payments) && e.order in w.db.payments
    requires MirroredOnly(w.db.checkouts, db.checkouts, w.db.payments[e.order].checkout)
    ensures GivenUpIsFinal(w.(db := db))
  {
  }

  lemma SettleKeeps(w: World, e: Report, newSub: SubId)
    requires Inv(w) && Enabled(w, SettleStep(e, newSub))
    ensures Inv(Apply(w, SettleStep(e, newSub)))
    ensures Advance(w.db, Apply(w, SettleStep(e, newSub)).db)
  {
    var db := Settle(w.db, e, w.now, newSub);
    SettleKeepsInv(w.db, e, w.now, newSub);
    SettleAdvances(w.db, e, w.now, newSub);
    if MatchesOrder(w.db.payments[e.order], e) {
      SettleFrame(w.db, e, w.now, newSub);
      SettledCharges(w, e, db, db.payments[e.order]);
      SettledIsKnown(w, e, db, db.payments[e.order]);
      SettledGivesUpNothing(w, e, db);
      Transaction(w, db);
    }
  }

  // Refunds

  lemma ReconciledIsReturned(w: World, o: OrderId, g: GatewayId, listed: nat, db: Ledger)
    requires ReturnedAtProvider(w) && o in w.db.payments
    requires g in w.charges && w.charges[g] == o && listed <= |ProcessedOf(w, g)|
    requires o in db.payments && db.payments == w.db.payments[o := db.payments[o]]
    requires db.payments[o].refunded == Max(Total(ProcessedOf(w, g)[..listed]), w.db.payments[o].refunded)
    ensures ReturnedAtProvider(w.(db := db))
  {
    var v := w.(db := db);
    forall q | q in db.payments && db.payments[q].refunded > 0
      ensures ProviderReturned(v, q, db.payments[q].refunded)
    {
      if db.payments[q].refunded == (if q in w.db.payments then w.db.payments[q].refunded else 0) {
        ReturnedStays(w, v, q, db.payments[q].refunded);
      } else {
        TotalOfPrefix(ProcessedOf(w, g), listed);
        assert g in v.charges && v.charges[g] == q && db.payments[q].refunded <= Total(ProcessedOf(v, g));
      }
    }
  }

  /** A balance leaves the provider references of a payment and all checkouts alone. */
  lemma BalanceIsKnown(w: World, o: OrderId, db: Ledger)
    requires GivenUpIsFinal(w) && PaymentsKnown(w) && ChargesKnown(w)
    requires o in w.db.payments && o in db.payments && db.payments == w.db.payments[o := db.payments[o]]
    requires db.payments[o].gatewayId == w.db.payments[o].gatewayId && db.payments[o].duplicates == w.db.payments[o].duplicates
    requires db.payments[o].checkout == w.db.payments[o].checkout && db.checkouts == w.db.checkouts
    ensures GivenUpIsFinal(w.(db := db)) && PaymentsKnown(w.(db := db)) && ChargesKnown(w.(db := db))
  {
  }

  lemma ReconcileKeepsTables(w: World, o: OrderId, paid: Payment, listed: nat, db: Ledger)
    requires Inv(w) && o in w.db.payments && PaymentPast(paid, w.db.payments[o]) && paid.gatewayId.Some?
    requires paid.gatewayId.value in w.charges && w.charges[paid.gatewayId.value] == o
    requires listed <= |ProcessedOf(w, paid.gatewayId.value)|
    requires Total(ProcessedOf(w, paid.gatewayId.value)[..listed]) <= paid.amount
    requires db == RecordTotal(w.db, o, paid, Total(ProcessedOf(w, paid.gatewayId.value)[..listed]), w.now)
    ensures Inv(w.(db := db)) && Advance(w.db, db)
  {
    var g := paid.gatewayId.value;
    var total := Total(ProcessedOf(w, g)[..listed]);
    RecordTotalKeepsInv(w.db, o, paid, total, w.now);
    RecordTotalAdvances(w.db, o, paid, total, w.now);
    RecordTotalFrame(w.db, o, paid, total, w.now);
    ReconciledIsReturned(w, o, g, listed, db);
    BalanceIsKnown(w, o, db);
    Transaction(w, db);
  }

  lemma ReconcileKeeps(w: World, o: OrderId, paid: Payment, listed: nat, expected: Option<RefundId>)
    requires Inv(w) && Enabled(w, ReconcileStep(o, paid, listed, expected))
    ensures Inv(Apply(w, ReconcileStep(o, paid, listed, expected)))
    ensures Advance(w.db, Apply(w, ReconcileStep(o, paid, listed, expected)).db)
  {
    hide LedgerInv, Advance, OrdersAgree, GivenUpIsFinal, PaymentsKnown, ChargesKnown, ReturnedAtProvider, SubmittedAsRecorded, OneRefundPerKey;
    var list := ProcessedOf(w, paid.gatewayId.value)[..listed];
    var db := RecordTotal(w.db, o, paid, Total(list), w.now);
    ReconcileKeepsTables(w, o, paid, listed, db);
    RecordTotalFrame(w.db, o, paid, Total(list), w.now);
    ReconcileConfirms(w, w.(db := db), o, list, expected);
    ReturnedKeepsConfirming(w.(db := db), Confirm(w, o, list, expected));
  }

  lemma ReconcileConfirms(w: World, v: World, o: OrderId, list: seq<ProviderRefund>, expected: Option<RefundId>)
    requires ConfirmedIsCovered(v) && v.confirmed == w.confirmed
    requires o in w.db.payments && o in v.db.payments && v.db.payments[o].refunded >= Total(list)
    requires v.db.refunds == w.db.refunds
    ensures ConfirmedIsCovered(v.(confirmed := Confirm(w, o, list, expected)))
  {
    if expected.Some? && o in w.db.refunds && ProviderRefund(expected.value, w.db.refunds[o].amount) in list {
      TotalOfMember(list, ProviderRefund(expected.value, w.db.refunds[o].amount));
    }
  }

  lemma ReturnedKeepsConfirming(v: World, confirmed: set<OrderId>)
    requires Inv(v) && ConfirmedIsCovered(v.(confirmed := confirmed))
    ensures Inv(v.(confirmed := confirmed))
  {
    var u := v.(confirmed := confirmed);
    forall o | o in u.db.payments && u.db.payments[o].refunded > 0
      ensures ProviderReturned(u, o, u.db.payments[o].refunded)
    {
      ReturnedStays(v, u, o, u.db.payments[o].refunded);
    }
  }

  lemma RequestRefundKeeps(w: World, user: UserId, o: OrderId, administrator: bool, key: nat)
    requires Inv(w) && Enabled(w, RequestRefundStep(user, o, administrator, key))
    ensures Inv(Apply(w, RequestRefundStep(user, o, administrator, key)))
    ensures Advance(w.db, Apply(w, RequestRefundStep(user, o, administrator, key)).db)
  {
    hide Inv, LedgerInv, Advance;
    LedgerOf(w);
    var r := RefundRequest(w.db, user, o, administrator, key, w.now).value.value;
    assert Settled(w.db.payments[o]);
    AddRefundKeepsInv(w.db, o, r, w.now);
    AddRefundAdvances(w.db, o, r);
    QuietTransaction(w, AddRefund(w.db, o, r));
  }

  /** A change of one refund record that keeps what was submitted. */
  lemma RefundRecordKeeps(w: World, o: OrderId, r: Refund)
    requires Inv(w) && o in w.db.refunds && RefundPast(w.db.refunds[o], r)
    requires r.status == Processed ==> r.amount <= w.db.payments[o].refunded
    ensures Inv(w.(db := w.db.(refunds := w.db.refunds[o := r])))
    ensures Advance(w.db, w.db.(refunds := w.db.refunds[o := r]))
  {
    SwapRefund(w.db, o, r, w.now);
    RefundStatusAdvances(w.db, o, r);
    QuietTransaction(w, w.db.(refunds := w.db.refunds[o := r]));
  }

  lemma MarkProcessingKeeps(w: World, o: OrderId)
    requires Inv(w) && Enabled(w, MarkProcessingStep(o))
    ensures Inv(Apply(w, MarkProcessingStep(o)))
    ensures Advance(w.db, Apply(w, MarkProcessingStep(o)).db)
  {
    hide Inv, LedgerInv, Advance;
    Unchanged(w.db);
    var r := w.db.refunds[o];
    if r.status in {Requested, Uncertain, Processing} {
      RefundRecordKeeps(w, o, r.(status := Processing));
    }
  }

  lemma RefusalsDoNotMatter(w: World, refused: multiset<OrderId>)
    requires Inv(w)
    ensures Inv(w.(refused := refused))
  {
    hide Inv, LedgerInv, SubmittedAsRecorded, OneRefundPerKey, Total, OrdersAgree;
    PartsOf(w);
    OrdersBlind(w, w.(refused := refused));
    SubmissionsBlind(w, w.(refused := refused));
    OutsideStep(w, w.(refused := refused));
  }

  lemma RefundFailedKeeps(w: World, o: OrderId, rejection: bool)
    requires Inv(w) && Enabled(w, RefundFailedStep(o, rejection))
    ensures Inv(Apply(w, RefundFailedStep(o, rejection)))
    ensures Advance(w.db, Apply(w, RefundFailedStep(o, rejection)).db)
  {
    hide Inv, LedgerInv, Advance;
    Unchanged(w.db);
    if w.db.refunds[o].status == Processing {
      RefundRecordKeeps(w, o, w.db.refunds[o].(status := if rejection then Rejected else Uncertain));
    }
    RefusalsDoNotMatter(w.(db := RefundFailed(w.db, o, rejection)), if rejection then w.refused - multiset{o} else w.refused);
  }

  lemma SaveRefundKeeps(w: World, o: OrderId, e: RefundEntity)
    requires Inv(w) && Enabled(w, SaveRefundStep(o, e))
    ensures Inv(Apply(w, SaveRefundStep(o, e)))
    ensures Advance(w.db, Apply(w, SaveRefundStep(o, e)).db)
  {
    hide Inv, LedgerInv, Advance;
    Unchanged(w.db);
    var r := w.db.refunds[o];
    if r.status != Processed {
      RefundRecordKeeps(w, o, r.(gatewayRefundId := Some(e.id), status := if e.status == Rejected then Rejected else Pending));
    }
  }

  lemma ConfirmedAmount(w: World, o: OrderId)
    requires Inv(w) && o in w.confirmed
    ensures o in w.db.refunds && o in w.db.payments && w.db.refunds[o].amount <= w.db.payments[o].refunded
  {
    assert ConfirmedIsCovered(w);
  }

  lemma FinishRefundKeeps(w: World, o: OrderId)
    requires Inv(w) && Enabled(w, FinishRefundStep(o))
    ensures Inv(Apply(w, FinishRefundStep(o)))
    ensures Advance(w.db, Apply(w, FinishRefundStep(o)).db)
  {
    hide Inv, LedgerInv, Advance;
    ConfirmedAmount(w, o);
    RefundRecordKeeps(w, o, w.db.refunds[o].(status := Processed));
  }

  // Expiry, cancellation

  lemma PastDueKeeps(w: World, s: SubId, scan: Time)
    requires Inv(w) && Enabled(w, PastDueStep(s, scan))
    ensures Inv(Apply(w, PastDueStep(s, scan)))
    ensures Advance(w.db, Apply(w, PastDueStep(s, scan)).db)
  {
    hide Inv, LedgerInv, Advance;
    LedgerOf(w);
    MarkPastDueKeepsInv(w.db, s, scan, w.now);
    MarkPastDueAdvances(w.db, s, scan);
    QuietTransaction(w, MarkPastDue(w.db, s, scan));
  }

  lemma ExpireFrame(db: Ledger, s: SubId, scan: Time, now: Time, newSub: SubId)
    requires s in db.subscriptions
    ensures var r := Expire(db, s, scan, now, newSub); r.checkouts == db.checkouts && r.payments == db.payments
  {
  }

  lemma ExpireKeeps(w: World, s: SubId, scan: Time, newSub: SubId)
    requires Inv(w) && Enabled(w, ExpireStep(s, scan, newSub))
    ensures Inv(Apply(w, ExpireStep(s, scan, newSub)))
    ensures Advance(w.db, Apply(w, ExpireStep(s, scan, newSub)).db)
  {
    hide Inv, LedgerInv, Advance, Expire;
    LedgerOf(w);
    ExpireFrame(w.db, s, scan, w.now, newSub);
    ExpireKeepsInv(w.db, s, scan, w.now, newSub);
    ExpireAdvances(w.db, s, scan, w.now, newSub);
    QuietTransaction(w, Expire(w.db, s, scan, w.now, newSub));
  }

  lemma ScheduleKeeps(w: World, user: UserId, cancel: bool)
    requires Inv(w) && Enabled(w, ScheduleStep(user, cancel))
    ensures Inv(Apply(w, ScheduleStep(user, cancel)))
    ensures Advance(w.db, Apply(w, ScheduleStep(user, cancel)).db)
  {
    hide Inv, LedgerInv, Advance;
    LedgerOf(w);
    ScheduleChangeKeepsInv(w.db, user, cancel, w.now);
    ScheduleChangeAdvances(w.db, user, cancel, w.now);
    QuietTransaction(w, ScheduleChange(w.db, user, cancel, w.now).value);
  }

  // The provider and the clock

  lemma ProviderKeepsReturned(w: World, v: World)
    requires ReturnedAtProvider(w) && v.db == w.db
    requires forall g :: g in w.charges ==> g in v.charges && v.charges[g] == w.charges[g]
    requires forall g :: g in w.charges ==> Total(ProcessedOf(w, g)) <= Total(ProcessedOf(v, g))
    ensures ReturnedAtProvider(v)
  {
    forall o | o in v.db.payments && v.db.payments[o].refunded > 0
      ensures ProviderReturned(v, o, v.db.payments[o].refunded)
    {
      var g :| g in w.charges && w.charges[g] == o && w.db.payments[o].refunded <= Total(ProcessedOf(w, g));
      assert g in v.charges && v.charges[g] == o && v.db.payments[o].refunded <= Total(ProcessedOf(v, g));
    }
  }

  /** The provider, the clock or a request moved, and no table did. */
  lemma OutsideStep(w: World, v: World)
    requires Inv(w) && v.db == w.db && w.now <= v.now
    requires forall g :: g in w.charges ==> g in v.charges && v.charges[g] == w.charges[g]
    requires forall g :: g in w.charges ==> Total(ProcessedOf(w, g)) <= Total(ProcessedOf(v, g))
    requires OrdersAgree(v) && (forall o :: o in w.orders ==> o in v.orders && v.orders[o] == w.orders[o])
    requires w.rejected <= v.rejected && w.absent <= v.absent
    requires forall g :: g in v.charges ==> v.charges[g].GatewayOrder?
    requires v.confirmed == w.confirmed && SubmittedAsRecorded(v) && OneRefundPerKey(v)
    ensures Inv(v)
  {
    hide LedgerInv, Total, OrdersAgree, SubmittedAsRecorded, OneRefundPerKey, ReturnedAtProvider;
    assert LedgerInv(v.db, v.now) by {
      LedgerLater(w.db, w.now, v.now);
    }
    ProviderKeepsReturned(w, v);
  }

  lemma LedgerLater(db: Ledger, now: Time, later: Time)
    requires LedgerInv(db, now) && now <= later
    ensures LedgerInv(db, later)
  {
  }

  /** The parts of the invariant that a step outside the tables may have to prove again. */
  lemma PartsOf(w: World)
    requires Inv(w)
    ensures OrdersAgree(w) && SubmittedAsRecorded(w) && OneRefundPerKey(w)
    ensures forall g :: g in w.charges ==> w.charges[g].GatewayOrder?
  {
  }

  lemma OrdersBlind(w: World, v: World)
    requires OrdersAgree(w) && v.db == w.db && v.unsent == w.unsent && v.sent == w.sent
    requires v.orders == w.orders && v.rejected == w.rejected && v.absent == w.absent
    ensures OrdersAgree(v)
  {
  }

  lemma SubmissionsBlind(w: World, v: World)
    requires SubmittedAsRecorded(w) && OneRefundPerKey(w)
    requires v.db == w.db && v.submissions == w.submissions && v.created == w.created
    ensures SubmittedAsRecorded(v) && OneRefundPerKey(v)
  {
  }

  /** Requests, arrivals, rejections and empty lookups keep what is known of orders. */
  lemma SendAgrees(w: World, c: CheckoutId)
    requires OrdersAgree(w) && c in w.unsent
    ensures OrdersAgree(w.(unsent := w.unsent - {c}, sent := w.sent + multiset{c}))
  {
  }

  lemma ArrivalAgrees(w: World, o: OrderId, order: ProviderOrder)
    requires OrdersAgree(w) && o.GatewayOrder? && o !in w.orders && order.checkout in w.sent
    requires order.checkout !in w.rejected && order.checkout !in w.absent
    requires forall q :: q in w.orders ==> w.orders[q].checkout != order.checkout
    ensures OrdersAgree(w.(orders := w.orders[o := order]))
  {
  }

  lemma RejectionAgrees(w: World, c: CheckoutId)
    requires OrdersAgree(w) && forall q :: q in w.orders ==> w.orders[q].checkout != c
    ensures OrdersAgree(w.(rejected := w.rejected + {c}))
  {
  }

  lemma LookupAgrees(w: World, c: CheckoutId)
    requires OrdersAgree(w) && c in w.db.checkouts && w.db.checkouts[c].amount > 0
    requires forall q :: q in w.orders ==> w.orders[q].checkout != c
    ensures OrdersAgree(w.(absent := w.absent + {c}))
  {
  }

  lemma TickKeeps(w: World, elapsed: nat)
    requires Inv(w)
    ensures Inv(Apply(w, Tick(elapsed)))
    ensures Advance(w.db, Apply(w, Tick(elapsed)).db)
  {
    hide Inv, LedgerInv, OrdersAgree, SubmittedAsRecorded, OneRefundPerKey, Total, Advance;
    PartsOf(w);
    Unchanged(w.db);
    OrdersBlind(w, w.(now := w.now + elapsed));
    SubmissionsBlind(w, w.(now := w.now + elapsed));
    OutsideStep(w, w.(now := w.now + elapsed));
  }

  lemma SendOrderKeeps(w: World, c: CheckoutId)
    requires Inv(w) && Enabled(w, SendOrder(c))
    ensures Inv(Apply(w, SendOrder(c)))
    ensures Advance(w.db, Apply(w, SendOrder(c)).db)
  {
    hide Inv, LedgerInv, SubmittedAsRecorded, OneRefundPerKey, Total, Advance, OrdersAgree;
    PartsOf(w);
    Unchanged(w.db);
    SendAgrees(w, c);
    SubmissionsBlind(w, w.(unsent := w.unsent - {c}, sent := w.sent + multiset{c}));
    OutsideStep(w, w.(unsent := w.unsent - {c}, sent := w.sent + multiset{c}));
  }

  lemma OrderArrivesKeeps(w: World, o: OrderId, order: ProviderOrder)
    requires Inv(w) && Enabled(w, OrderArrives(o, order))
    ensures Inv(Apply(w, OrderArrives(o, order)))
    ensures Advance(w.db, Apply(w, OrderArrives(o, order)).db)
  {
    hide Inv, LedgerInv, SubmittedAsRecorded, OneRefundPerKey, Total, Advance, OrdersAgree;
    PartsOf(w);
    Unchanged(w.db);
    ArrivalAgrees(w, o, order);
    SubmissionsBlind(w, w.(orders := w.orders[o := order]));
    OutsideStep(w, w.(orders := w.orders[o := order]));
  }

  lemma ProviderRejectsKeeps(w: World, c: CheckoutId)
    requires Inv(w) && Enabled(w, ProviderRejects(c))
    ensures Inv(Apply(w, ProviderRejects(c)))
    ensures Advance(w.db, Apply(w, ProviderRejects(c)).db)
  {
    hide Inv, LedgerInv, SubmittedAsRecorded, OneRefundPerKey, Total, Advance, OrdersAgree;
    PartsOf(w);
    Unchanged(w.db);
    RejectionAgrees(w, c);
    SubmissionsBlind(w, w.(rejected := w.rejected + {c}));
    OutsideStep(w, w.(rejected := w.rejected + {c}));
  }

  lemma LookupEmptyKeeps(w: World, c: CheckoutId)
    requires Inv(w) && Enabled(w, LookupEmpty(c))
    ensures Inv(Apply(w, LookupEmpty(c)))
    ensures Advance(w.db, Apply(w, LookupEmpty(c)).db)
  {
    hide Inv, LedgerInv, SubmittedAsRecorded, OneRefundPerKey, Total, Advance, OrdersAgree;
    PartsOf(w);
    Unchanged(w.db);
    LookupAgrees(w, c);
    SubmissionsBlind(w, w.(absent := w.absent + {c}));
    OutsideStep(w, w.(absent := w.absent + {c}));
  }

  lemma ChargeAppearsKeeps(w: World, g: GatewayId, o: OrderId)
    requires Inv(w) && Enabled(w, ChargeAppears(g, o))
    ensures Inv(Apply(w, ChargeAppears(g, o)))
    ensures Advance(w.db, Apply(w, ChargeAppears(g, o)).db)
  {
    hide Inv, LedgerInv, SubmittedAsRecorded, OneRefundPerKey, Total, Advance, OrdersAgree;
    PartsOf(w);
    Unchanged(w.db);
    OrdersBlind(w, w.(charges := w.charges[g := o]));
    SubmissionsBlind(w, w.(charges := w.charges[g := o]));
    OutsideStep(w, w.(charges := w.charges[g := o]));
  }

  lemma RefundProcessedKeeps(w: World, g: GatewayId, refund: ProviderRefund)
    requires Inv(w) && Enabled(w, RefundProcessed(g, refund))
    ensures Inv(Apply(w, RefundProcessed(g, refund)))
    ensures Advance(w.db, Apply(w, RefundProcessed(g, refund)).db)
  {
    hide Inv, LedgerInv, SubmittedAsRecorded, OneRefundPerKey, Total, Advance, OrdersAgree;
    PartsOf(w);
    Unchanged(w.db);
    OrdersBlind(w, w.(processed := w.processed[g := ProcessedOf(w, g) + [refund]]));
    SubmissionsBlind(w, w.(processed := w.processed[g := ProcessedOf(w, g) + [refund]]));
    TotalGrows(ProcessedOf(w, g), refund);
    OutsideStep(w, w.(processed := w.processed[g := ProcessedOf(w, g) + [refund]]));
  }

  lemma SubmittedKeeps(w: World, o: OrderId, paid: Payment, record: Refund, made: Option<RefundId>)
    requires SubmittedAsRecorded(w) && OneRefundPerKey(w) && CanSubmit(w, o, paid, record, made)
    ensures var v := Submitted(w, o, paid, record, made); SubmittedAsRecorded(v) && OneRefundPerKey(v)
  {
    var v := Submitted(w, o, paid, record, made);
    assert Submission(o, paid.gatewayId, record.key, record.amount) in v.submissions;
    forall i | i in v.created
      ensures exists s :: s in v.submissions && s.key == v.created[i]
    {
      if made != Some(i) {
        var s :| s in w.submissions && s.key == w.created[i];
        assert s in v.submissions;
      }
    }
  }

  lemma ProviderRefusesKeeps(w: World, o: OrderId)
    requires Inv(w) && Enabled(w, ProviderRefuses(o))
    ensures Inv(Apply(w, ProviderRefuses(o)))
    ensures Advance(w.db, Apply(w, ProviderRefuses(o)).db)
  {
    hide Inv, LedgerInv, Advance;
    Unchanged(w.db);
    RefusalsDoNotMatter(w, w.refused + multiset{o});
  }

  lemma SubmitKeeps(w: World, o: OrderId, paid: Payment, record: Refund, made: Option<RefundId>)
    requires Inv(w) && Enabled(w, SubmitStep(o, paid, record, made))
    ensures Inv(Apply(w, SubmitStep(o, paid, record, made)))
    ensures Advance(w.db, Apply(w, SubmitStep(o, paid, record, made)).db)
  {
    hide Inv, LedgerInv, OrdersAgree, SubmittedAsRecorded, OneRefundPerKey, Total, Advance;
    PartsOf(w);
    Unchanged(w.db);
    OrdersBlind(w, Submitted(w, o, paid, record, made));
    SubmittedKeeps(w, o, paid, record, made);
    OutsideStep(w, Submitted(w, o, paid, record, made));
  }

  // All steps

  lemma RecoverKeeps(w: World, o: OrderId)
    requires Inv(w) && Enabled(w, RecoverStep(o))
    ensures Inv(Apply(w, RecoverStep(o)))
    ensures Advance(w.db, Apply(w, RecoverStep(o)).db)
  {
    AttachKeeps(w, o);
  }

  lemma StepKeepsInv(w: World, step: Step)
    requires Inv(w) && Enabled(w, step)
    ensures Inv(Apply(w, step))
    ensures Advance(w.db, Apply(w, step).db)
  {
    hide Inv, Enabled, Apply, Advance;
    match step
    case Tick(elapsed) => TickKeeps(w, elapsed);
    case ReserveStep(input, configured, c) => ReserveKeeps(w, input, configured, c);
    case SendOrder(c) => SendOrderKeeps(w, c);
    case OrderArrives(o, order) => OrderArrivesKeeps(w, o, order);
    case ProviderRejects(c) => ProviderRejectsKeeps(w, c);
    case OrderFailedStep(c, rejection) => OrderFailedKeeps(w, c, rejection);
    case SaveOrderStep(c, o, newSub) => SaveOrderKeeps(w, c, o, newSub);
    case RecoverStep(o) => RecoverKeeps(w, o);
    case RecoverFreeStep(c, newSub) => RecoverFreeKeeps(w, c, newSub);
    case LookupEmpty(c) => LookupEmptyKeeps(w, c);
    case ReleaseStep(c) => ReleaseKeeps(w, c);
    case ChargeAppears(g, o) => ChargeAppearsKeeps(w, g, o);
    case SettleStep(e, newSub) => SettleKeeps(w, e, newSub);
    case RefundProcessed(g, refund) => RefundProcessedKeeps(w, g, refund);
    case ReconcileStep(o, paid, listed, expected) => ReconcileKeeps(w, o, paid, listed, expected);
    case RequestRefundStep(user, o, administrator, key) => RequestRefundKeeps(w, user, o, administrator, key);
    case MarkProcessingStep(o) => MarkProcessingKeeps(w, o);
    case SubmitStep(o, paid, record, made) => SubmitKeeps(w, o, paid, record, made);
    case ProviderRefuses(o) => ProviderRefusesKeeps(w, o);
    case RefundFailedStep(o, rejection) => RefundFailedKeeps(w, o, rejection);
    case SaveRefundStep(o, e) => SaveRefundKeeps(w, o, e);
    case FinishRefundStep(o) => FinishRefundKeeps(w, o);
    case PastDueStep(s, scan) => PastDueKeeps(w, s, scan);
    case ExpireStep(s, scan, newSub) => ExpireKeeps(w, s, scan, newSub);
    case ScheduleStep(user, cancel) => ScheduleKeeps(w, user, cancel);
  }
}
