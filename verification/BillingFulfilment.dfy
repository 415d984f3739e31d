/** Money that was taken and what was given for it: a captured payment has its plan or is marked for
    review, except where a refund was recorded before the capture was. */
module BillingFulfilment {
  import opened BillingTypes
  import opened BillingSteps
  import opened BillingWorld
  import opened BillingRows

  /** The plan was granted, or somebody is asked to look. */
  predicate Served(p: Payment) {
    p.subscription.Some? || p.fulfillment == ReviewRequired
  }

  /** A captured row is served, and a row without a capture is not. */
  ghost predicate Answered(w: World, o: OrderId) {
    o in w.db.payments ==>
      && (w.db.payments[o].status == PCaptured ==> Served(w.db.payments[o]))
      && (!Settled(w.db.payments[o]) ==> !Served(w.db.payments[o]))
  }

  /** The charge was taken, whatever was returned since, and nobody will hear of it. */
  ghost predicate Lost(w: World, o: OrderId) {
    o in w.db.payments && Settled(w.db.payments[o]) && !Served(w.db.payments[o])
  }

  /** A balance is recorded on a row whose capture was not. */
  ghost predicate SkipsCapture(w: World, step: Step, o: OrderId)
    requires Enabled(w, step)
  {
    && step.ReconcileStep? && step.o == o && CanReconcile(w, o, step.paid, step.listed, step.expected)
    && !Settled(w.db.payments[o]) && Listed(w, step.paid, step.listed) > 0
  }

  /** Another charge of the order turns out to be captured. */
  predicate SecondCharge(w: World, step: Step, o: OrderId) {
    && step.SettleStep? && step.report.order == o && o in w.db.payments
    && MatchesOrder(w.db.payments[o], step.report)
    && step.report.status == RCaptured && w.db.payments[o].gatewayId != Some(step.report.id)
  }

  // Reports

  lemma ActivateServes(db: Ledger, o: OrderId, now: Time, newSub: SubId)
    requires o in db.payments
    ensures o in Activate(db, o, now, newSub).payments && Served(Activate(db, o, now, newSub).payments[o])
  {
    hide Redeem, Superseded;
    var p := db.payments[o];
    var active := ActiveOf(db.subscriptions, p.user);
    if p.subscription.None? && !Superseded(db, p, active) {
      BillingInvariant.RedeemFrame(Grant(db, o, now, newSub, active), p, o);
    }
  }

  lemma SettleRowServes(p: Payment, e: Report, now: Time)
    ensures var q := SettleRow(p, e, now);
            && (Settled(p) ==> Settled(q) && (Served(q) <==> Served(p) || (e.status == RCaptured && p.gatewayId != Some(e.id))))
            && (!Settled(p) ==> (Served(q) <==> Served(p)) && (Settled(q) <==> e.status == RCaptured))
  {
  }

  lemma SettleServes(db: Ledger, e: Report, now: Time, newSub: SubId)
    requires e.order in db.payments && MatchesOrder(db.payments[e.order], e)
    ensures e.order in Settle(db, e, now, newSub).payments
    ensures var p, q := db.payments[e.order], Settle(db, e, now, newSub).payments[e.order];
            && (Settled(p) ==> Settled(q) && (Served(q) <==> Served(p) || (e.status == RCaptured && p.gatewayId != Some(e.id))))
            && (!Settled(p) && e.status == RCaptured ==> Settled(q) && Served(q))
            && (!Settled(p) && e.status != RCaptured ==> !Settled(q) && (Served(q) <==> Served(p)))
  {
    hide Activate, MirrorCheckout, SettleRow, BillingInvariant.Granted, Served;
    var p := db.payments[e.order];
    SettleRowServes(p, e, now);
    BillingSafety.SettleFrame(db, e, now, newSub);
    if !Settled(p) {
      var updated := db.(payments := db.payments[e.order := SettleRow(p, e, now)]);
      ActivateServes(updated, e.order, now, newSub);
      BillingSafety.MirrorFrame(if e.status == RCaptured then Activate(updated, e.order, now, newSub) else updated, e.order);
    }
  }

  lemma ReportServes(w: World, e: Report, newSub: SubId)
    requires Enabled(w, SettleStep(e, newSub)) && Answered(w, e.order)
    ensures Answered(Apply(w, SettleStep(e, newSub)), e.order)
    ensures Lost(Apply(w, SettleStep(e, newSub)), e.order) <==> Lost(w, e.order) && !SecondCharge(w, SettleStep(e, newSub), e.order)
  {
    hide Settle, Served;
    if MatchesOrder(w.db.payments[e.order], e) {
      SettleServes(w.db, e, w.now, newSub);
      SettledIsNoLess(w, e, newSub);
    } else {
      UnmatchedChangesNothing(w, e, newSub);
    }
  }

  lemma UnmatchedChangesNothing(w: World, e: Report, newSub: SubId)
    requires Enabled(w, SettleStep(e, newSub)) && !MatchesOrder(w.db.payments[e.order], e)
    ensures Apply(w, SettleStep(e, newSub)) == w
  {
  }

  /** A captured row that stays captured stays served. */
  lemma SettledIsNoLess(w: World, e: Report, newSub: SubId)
    requires Enabled(w, SettleStep(e, newSub)) && MatchesOrder(w.db.payments[e.order], e)
    ensures var p, r := w.db.payments[e.order], Settle(w.db, e, w.now, newSub);
            e.order in r.payments && (Settled(p) ==> r.payments[e.order].status == p.status)
  {
    BillingSafety.SettleFrame(w.db, e, w.now, newSub);
  }

  // Balances

  lemma BalanceServes(w: World, o: OrderId, paid: Payment, listed: nat, expected: Option<RefundId>)
    requires Inv(w) && Enabled(w, ReconcileStep(o, paid, listed, expected)) && Answered(w, o)
    ensures Answered(Apply(w, ReconcileStep(o, paid, listed, expected)), o)
    ensures Lost(Apply(w, ReconcileStep(o, paid, listed, expected)), o) <==>
      Lost(w, o) || SkipsCapture(w, ReconcileStep(o, paid, listed, expected), o)
  {
    hide Inv, Enabled, Apply, Listed;
    ReconciledRow(w, o, paid, listed, expected);
    var p, q := w.db.payments[o], Apply(w, ReconcileStep(o, paid, listed, expected)).db.payments[o];
    if !Settled(p) {
      UnsettledIsWhole(w, o);
    }
    RecordedServes(p, q, Listed(w, paid, listed));
  }

  lemma RecordedServes(p: Payment, q: Payment, listed: nat)
    requires !Settled(p) ==> p.refunded == 0 && !Served(p)
    requires p.status == PCaptured ==> Served(p)
    requires var amount := Max(listed, p.refunded);
             && (amount == 0 ==> q == p)
             && (amount > 0 ==> q == p.(refunded := amount, status := q.status) && Settled(q) && q.status != PCaptured)
    ensures (q.status == PCaptured ==> Served(q)) && (!Settled(q) ==> !Served(q))
    ensures Settled(q) && !Served(q) <==> (Settled(p) && !Served(p)) || (!Settled(p) && listed > 0)
  {
  }

  /** Nothing was returned of a charge that was not taken, as far as its row knows. */
  lemma UnsettledIsWhole(w: World, o: OrderId)
    requires Inv(w) && o in w.db.payments && !Settled(w.db.payments[o])
    ensures w.db.payments[o].refunded == 0
  {
    BillingInvariant.LedgerRows(w.db, w.now);
    assert BillingInvariant.Balanced(w.db.payments[o]);
  }

  // Steps and runs

  lemma FreeIsServed(w: World, o: OrderId)
    requires Inv(w) && o in w.db.payments && o.FreeOrder?
    ensures Settled(w.db.payments[o]) && Served(w.db.payments[o])
  {
    assert BillingInvariant.FreeRows(w.db.checkouts, w.db.payments);
  }

  lemma ElsewhereServes(w: World, step: Step, o: OrderId)
    requires Inv(w) && Enabled(w, step) && Answered(w, o) && o in w.db.payments && Elsewhere(step, o)
    ensures Answered(Apply(w, step), o)
    ensures Lost(Apply(w, step), o) <==> Lost(w, o)
  {
    hide Inv, Enabled, Apply, Served, Settled;
    OtherRow(w, step, o);
  }

  lemma NewServes(w: World, step: Step, o: OrderId)
    requires Inv(w) && Enabled(w, step) && o !in w.db.payments
    ensures Answered(Apply(w, step), o) && !Lost(Apply(w, step), o)
  {
    hide Inv, Enabled, Apply, JustCreated;
    BillingSafety.StepKeepsInv(w, step);
    var v := Apply(w, step);
    if o in v.db.payments {
      if o.FreeOrder? {
        FreeIsServed(v, o);
      } else {
        NewRow(w, step, o);
        NewIsUnserved(v.db.payments[o]);
      }
    }
  }

  /** When a step leaves captured money without a plan and without a mark: exactly when it records a
      balance on a row whose capture was not recorded, or the money was lost before and no other
      charge of the order turns up. */
  lemma StepServes(w: World, step: Step, o: OrderId)
    requires Inv(w) && Enabled(w, step) && Answered(w, o)
    ensures Answered(Apply(w, step), o)
    ensures Lost(Apply(w, step), o) <==> (Lost(w, o) && !SecondCharge(w, step, o)) || SkipsCapture(w, step, o)
  {
    hide Inv, Enabled, Apply, Served, Settled, Answered, MatchesOrder, Listed, CanReconcile;
    if step.ReconcileStep? && step.o == o {
      BalanceServes(w, o, step.paid, step.listed, step.expected);
    } else if o !in w.db.payments {
      NewServes(w, step, o);
    } else if step.SettleStep? && step.report.order == o {
      ReportServes(w, step.report, step.newSub);
    } else {
      ElsewhereServes(w, step, o);
    }
  }

  lemma NewIsUnserved(p: Payment)
    requires JustCreated(p)
    ensures !Settled(p) && !Served(p)
  {
  }

  /** The order is lost in no state of the run. */
  ghost predicate NeverLost(w: World, run: seq<Step>, o: OrderId)
    requires CanRun(w, run)
    decreases |run|
  {
    !Lost(w, o) && (run != [] ==> NeverLost(Apply(w, run[0]), run[1..], o))
  }

  ghost predicate NeverSkips(w: World, run: seq<Step>, o: OrderId)
    requires CanRun(w, run)
    decreases |run|
  {
    run == [] || (!SkipsCapture(w, run[0], o) && NeverSkips(Apply(w, run[0]), run[1..], o))
  }

  lemma {:induction false} RunServes(w: World, run: seq<Step>, o: OrderId)
    requires Inv(w) && CanRun(w, run) && Answered(w, o) && !Lost(w, o)
    ensures Answered(Run(w, run), o)
    ensures NeverLost(w, run, o) <==> NeverSkips(w, run, o)
    decreases |run|
  {
    hide Inv, Enabled, Apply, Answered, Lost, SkipsCapture;
    if run != [] {
      var v := Apply(w, run[0]);
      BillingSafety.StepKeepsInv(w, run[0]);
      StepServes(w, run[0], o);
      if Lost(v, o) {
        RunAnswers(v, run[1..], o);
      } else {
        RunServes(v, run[1..], o);
      }
    }
  }

  lemma {:induction false} RunAnswers(w: World, run: seq<Step>, o: OrderId)
    requires Inv(w) && CanRun(w, run) && Answered(w, o)
    ensures Answered(Run(w, run), o)
    decreases |run|
  {
    hide Inv, Enabled, Apply, Answered, Lost, SkipsCapture;
    if run != [] {
      BillingSafety.StepKeepsInv(w, run[0]);
      StepServes(w, run[0], o);
      RunAnswers(Apply(w, run[0]), run[1..], o);
    }
  }

  /** In every reachable state a payment that is captured has its plan or is marked for review. */
  lemma CapturedIsServed(start: World, run: seq<Step>, o: OrderId)
    requires Init(start) && CanRun(start, run)
    requires o in Run(start, run).db.payments && Run(start, run).db.payments[o].status == PCaptured
    ensures Run(start, run).db.payments[o].subscription.Some? || Run(start, run).db.payments[o].fulfillment == ReviewRequired
  {
    InitHasInv(start);
    RunAnswers(start, run, o);
  }

  /** Over every run, money that was taken and perhaps returned is never lost sight of exactly when
      no balance is recorded before the capture is. */
  lemma TakenIsServed(start: World, run: seq<Step>, o: OrderId)
    requires Init(start) && CanRun(start, run)
    ensures NeverLost(start, run, o) <==> NeverSkips(start, run, o)
  {
    InitHasInv(start);
    RunServes(start, run, o);
  }
}
