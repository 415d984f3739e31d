/** Refund balances and refund requests against the charge that the payment row names. Both work
    from a row that was read before the lock, and while several attempts are under way such a row
    can name another attempt than the one that was captured. */
module BillingOwnCharge {
  import opened BillingTypes
  import opened BillingSteps
  import opened BillingWorld
  import BillingSafety
  import BillingRows

  /** What the row says was returned was returned of the charge it names. */
  ghost predicate OwnReturned(w: World, o: OrderId) {
    o in w.db.payments && w.db.payments[o].refunded > 0 ==>
      && w.db.payments[o].gatewayId.Some?
      && w.db.payments[o].refunded <= Total(ProcessedOf(w, w.db.payments[o].gatewayId.value))
  }

  /** Every refund that was asked for names the charge of its payment row. */
  ghost predicate OwnSubmitted(w: World, o: OrderId) {
    forall s :: s in w.submissions && s.order == o ==> o in w.db.payments && w.db.payments[o].gatewayId == s.charge
  }

  /** A reconciliation or a submission for the order works from a row that names the charge the row
      names now. */
  ghost predicate NamesOwnCharge(w: World, step: Step, o: OrderId)
    requires Enabled(w, step)
  {
    match step
    case ReconcileStep(p, paid, _, _) => p == o ==> o in w.db.payments && paid.gatewayId == w.db.payments[o].gatewayId
    case SubmitStep(p, paid, _, _) => p == o ==> o in w.db.payments && paid.gatewayId == w.db.payments[o].gatewayId
    case _ => true
  }

  /** What a reconciliation for the order adds up is within the processed total of the charge that
      the row names. */
  ghost predicate ListsOwnCharge(w: World, step: Step, o: OrderId)
    requires Enabled(w, step)
  {
    step.ReconcileStep? && step.o == o ==>
      && o in w.db.payments && w.db.payments[o].gatewayId.Some? && CanReconcile(w, o, step.paid, step.listed, step.expected)
      && BillingRows.Listed(w, step.paid, step.listed) <= Total(ProcessedOf(w, w.db.payments[o].gatewayId.value))
  }

  lemma NamingIsListing(w: World, step: Step, o: OrderId)
    requires Inv(w) && Enabled(w, step) && NamesOwnCharge(w, step, o)
    ensures ListsOwnCharge(w, step, o)
  {
    hide Inv, Total;
    if step.ReconcileStep? && step.o == o {
      BillingPreservation.TotalOfPrefix(ProcessedOf(w, step.paid.gatewayId.value), step.listed);
    }
  }

  /** A reading of a row that was captured already always names the row's charge. */
  lemma SettledReadingNamesOwn(w: World, step: Step, o: OrderId)
    requires Enabled(w, step) && (step.ReconcileStep? || step.SubmitStep?) && Settled(step.paid)
    ensures NamesOwnCharge(w, step, o)
  {
  }

  // Balances, step by step

  /** Recording a balance keeps it within the row's own charge exactly when what was listed is. */
  lemma ReconcileKeepsOwn(w: World, o: OrderId, paid: Payment, listed: nat, expected: Option<RefundId>)
    requires Inv(w) && Enabled(w, ReconcileStep(o, paid, listed, expected)) && OwnReturned(w, o)
    ensures o in w.db.payments && w.db.payments[o].gatewayId.Some? && CanReconcile(w, o, paid, listed, expected)
    ensures OwnReturned(Apply(w, ReconcileStep(o, paid, listed, expected)), o)
            <==> BillingRows.Listed(w, paid, listed) <= Total(ProcessedOf(w, w.db.payments[o].gatewayId.value))
    ensures paid.gatewayId == w.db.payments[o].gatewayId ==> OwnReturned(Apply(w, ReconcileStep(o, paid, listed, expected)), o)
  {
    BillingRows.ReconciledRow(w, o, paid, listed, expected);
    BillingPreservation.TotalOfPrefix(ProcessedOf(w, paid.gatewayId.value), listed);
    ProcessedGrows(w, ReconcileStep(o, paid, listed, expected), w.db.payments[o].gatewayId.value);
    ReconcileKeepsProcessed(w, o, paid, listed, expected);
    hide Inv, Enabled, Apply, Total;
  }

  lemma ReconcileKeepsProcessed(w: World, o: OrderId, paid: Payment, listed: nat, expected: Option<RefundId>)
    requires Enabled(w, ReconcileStep(o, paid, listed, expected))
    ensures Apply(w, ReconcileStep(o, paid, listed, expected)).processed == w.processed
  {
  }

  lemma ProcessedGrows(w: World, step: Step, g: GatewayId)
    requires Enabled(w, step)
    ensures Total(ProcessedOf(w, g)) <= Total(ProcessedOf(Apply(w, step), g))
  {
    hide Reserve, CanReconcile, CanSubmit, RefundRequest, ScheduleChange, Settle, RecordTotal, Total;
    if step.RefundProcessed? {
      BillingPreservation.TotalGrows(ProcessedOf(w, step.g), step.refund);
    }
  }

  lemma SettleRowKeepsRefunded(p: Payment, e: Report, now: Time)
    requires BillingInvariant.Balanced(p)
    ensures var q := SettleRow(p, e, now); q.refunded == p.refunded && (p.refunded > 0 ==> q.gatewayId == p.gatewayId)
  {
  }

  lemma SettleKeepsRefunded(w: World, e: Report, newSub: SubId)
    requires Inv(w) && Enabled(w, SettleStep(e, newSub))
    ensures e.order in w.db.payments && e.order in Apply(w, SettleStep(e, newSub)).db.payments
    ensures var p, q := w.db.payments[e.order], Apply(w, SettleStep(e, newSub)).db.payments[e.order];
            q.refunded == p.refunded && (p.refunded > 0 ==> q.gatewayId == p.gatewayId)
  {
    hide Inv, BillingInvariant.LedgerInv, Enabled, Apply, SettleRow;
    BillingRows.SettledRow(w, e, newSub, e.order);
    BillingSafety.LedgerOf(w);
    BillingInvariant.LedgerRows(w.db, w.now);
    SettleRowKeepsRefunded(w.db.payments[e.order], e, w.now);
  }

  lemma FreeIsNeverRefunded(w: World, o: OrderId)
    requires Inv(w) && o in w.db.payments && o.FreeOrder?
    ensures w.db.payments[o].refunded == 0
  {
    assert BillingInvariant.FreeRows(w.db.checkouts, w.db.payments);
  }

  /** No other step takes a balance out of the row's own charge. */
  lemma StepKeepsOwnReturned(w: World, step: Step, o: OrderId)
    requires Inv(w) && Enabled(w, step) && OwnReturned(w, o)
    ensures OwnReturned(Apply(w, step), o) <==> ListsOwnCharge(w, step, o)
  {
    hide Inv, Enabled, Apply, Total;
    BillingSafety.StepKeepsInv(w, step);
    var v := Apply(w, step);
    if step.ReconcileStep? && step.o == o {
      ReconcileKeepsOwn(w, o, step.paid, step.listed, step.expected);
    } else if o in w.db.payments {
      if step.SettleStep? && step.report.order == o {
        SettleKeepsRefunded(w, step.report, step.newSub);
      } else {
        BillingRows.OtherRow(w, step, o);
      }
      if w.db.payments[o].gatewayId.Some? {
        ProcessedGrows(w, step, w.db.payments[o].gatewayId.value);
      }
    } else if o in v.db.payments {
      if o.FreeOrder? {
        FreeIsNeverRefunded(v, o);
      } else {
        BillingRows.NewRow(w, step, o);
      }
    }
  }

  // Submissions, step by step

  /** One more submission keeps them all on the row's own charge exactly when it names it. */
  lemma SubmitKeepsOwn(w: World, o: OrderId, paid: Payment, record: Refund, made: Option<RefundId>)
    requires Enabled(w, SubmitStep(o, paid, record, made)) && OwnSubmitted(w, o)
    ensures o in w.db.payments
    ensures OwnSubmitted(Apply(w, SubmitStep(o, paid, record, made)), o) <==> paid.gatewayId == w.db.payments[o].gatewayId
  {
    var v := Apply(w, SubmitStep(o, paid, record, made));
    var s := Submission(o, paid.gatewayId, record.key, record.amount);
    assert s in v.submissions && v.submissions == w.submissions + {s};
  }

  lemma SubmissionsUnchanged(w: World, step: Step, o: OrderId)
    requires Enabled(w, step) && !(step.SubmitStep? && step.o == o)
    ensures forall s :: s in Apply(w, step).submissions && s.order == o ==> s in w.submissions
  {
    hide Reserve, CanReconcile, RefundRequest, ScheduleChange, Settle, RecordTotal;
  }

  /** The payment of a submitted record is captured, so its charge no longer changes. */
  lemma SubmittedIsSettled(w: World, s: Submission)
    requires Inv(w) && s in w.submissions
    ensures s.order in w.db.payments && Settled(w.db.payments[s.order])
  {
    assert SubmittedAsRecorded(w);
    assert BillingInvariant.RefundRows(w.db.refunds, w.db.payments);
  }

  lemma SubmissionsStay(w: World, step: Step)
    requires Enabled(w, step)
    ensures w.submissions <= Apply(w, step).submissions
  {
    hide Reserve, CanReconcile, RefundRequest, ScheduleChange, Settle, RecordTotal;
  }

  /** A submission that names another charge is never put right, and only a submission that does
      can break the rule. */
  lemma StepKeepsOwnSubmitted(w: World, step: Step, o: OrderId)
    requires Inv(w) && Enabled(w, step)
    ensures OwnSubmitted(Apply(w, step), o) <==> OwnSubmitted(w, o) && (step.SubmitStep? ==> NamesOwnCharge(w, step, o))
  {
    hide Inv, Enabled, Apply;
    BillingSafety.StepKeepsInv(w, step);
    SubmissionsStay(w, step);
    var v := Apply(w, step);
    forall s | s in w.submissions && s.order == o
      ensures o in w.db.payments && o in v.db.payments && v.db.payments[o].gatewayId == w.db.payments[o].gatewayId
    {
      SubmittedIsSettled(w, s);
      assert BillingPreservation.PaymentPast(w.db.payments[o], v.db.payments[o]);
    }
    if OwnSubmitted(w, o) {
      if step.SubmitStep? && step.o == o {
        SubmitKeepsOwn(w, o, step.paid, step.record, step.made);
      } else {
        SubmissionsUnchanged(w, step, o);
      }
    }
  }

  // Runs

  /** The balance is within the row's own charge in every state of the run. */
  ghost predicate OwnReturnedThroughout(w: World, run: seq<Step>, o: OrderId)
    requires CanRun(w, run)
    decreases |run|
  {
    OwnReturned(w, o) && (run != [] ==> OwnReturnedThroughout(Apply(w, run[0]), run[1..], o))
  }

  ghost predicate ListsOwnThroughout(w: World, run: seq<Step>, o: OrderId)
    requires CanRun(w, run)
    decreases |run|
  {
    run == [] || (ListsOwnCharge(w, run[0], o) && ListsOwnThroughout(Apply(w, run[0]), run[1..], o))
  }

  /** Every reconciliation and submission for the order names the charge its row names then. */
  ghost predicate NamesOwnThroughout(w: World, run: seq<Step>, o: OrderId)
    requires CanRun(w, run)
    decreases |run|
  {
    run == [] || (NamesOwnCharge(w, run[0], o) && NamesOwnThroughout(Apply(w, run[0]), run[1..], o))
  }

  ghost predicate SubmitsOwnThroughout(w: World, run: seq<Step>, o: OrderId)
    requires CanRun(w, run)
    decreases |run|
  {
    run == [] || ((run[0].SubmitStep? ==> NamesOwnCharge(w, run[0], o)) && SubmitsOwnThroughout(Apply(w, run[0]), run[1..], o))
  }

  lemma {:induction false} RunKeepsOwnReturned(w: World, run: seq<Step>, o: OrderId)
    requires Inv(w) && CanRun(w, run) && OwnReturned(w, o)
    ensures OwnReturnedThroughout(w, run, o) <==> ListsOwnThroughout(w, run, o)
    decreases |run|
  {
    hide Inv, Enabled, Apply, OwnReturned, ListsOwnCharge;
    if run != [] {
      var v := Apply(w, run[0]);
      BillingSafety.StepKeepsInv(w, run[0]);
      StepKeepsOwnReturned(w, run[0], o);
      if OwnReturned(v, o) {
        RunKeepsOwnReturned(v, run[1..], o);
      }
    }
  }

  lemma {:induction false} RunKeepsOwnSubmitted(w: World, run: seq<Step>, o: OrderId)
    requires Inv(w) && CanRun(w, run)
    ensures OwnSubmitted(Run(w, run), o) <==> OwnSubmitted(w, o) && SubmitsOwnThroughout(w, run, o)
    decreases |run|
  {
    hide Inv, Enabled, Apply, OwnSubmitted, NamesOwnCharge;
    if run != [] {
      BillingSafety.StepKeepsInv(w, run[0]);
      StepKeepsOwnSubmitted(w, run[0], o);
      RunKeepsOwnSubmitted(Apply(w, run[0]), run[1..], o);
    }
  }

  lemma {:induction false} NamingIsEnough(w: World, run: seq<Step>, o: OrderId)
    requires Inv(w) && CanRun(w, run) && NamesOwnThroughout(w, run, o)
    ensures ListsOwnThroughout(w, run, o) && SubmitsOwnThroughout(w, run, o)
    decreases |run|
  {
    hide Inv, Enabled, Apply, NamesOwnCharge, ListsOwnCharge;
    if run != [] {
      BillingSafety.StepKeepsInv(w, run[0]);
      NamingIsListing(w, run[0], o);
      NamingIsEnough(Apply(w, run[0]), run[1..], o);
    }
  }

  lemma {:induction false} LastOfThroughout(w: World, run: seq<Step>, o: OrderId)
    requires CanRun(w, run) && OwnReturnedThroughout(w, run, o)
    ensures OwnReturned(Run(w, run), o)
    decreases |run|
  {
    hide Enabled, Apply, OwnReturned;
    if run != [] {
      LastOfThroughout(Apply(w, run[0]), run[1..], o);
    }
  }

  /** Over every run: the refunded amount stays within the processed total of the charge its row
      names exactly as long as every reconciliation lists no more than that charge returned. */
  lemma BalancesOfOwnCharge(start: World, run: seq<Step>, o: OrderId)
    requires Init(start) && CanRun(start, run)
    ensures OwnReturnedThroughout(start, run, o) <==> ListsOwnThroughout(start, run, o)
  {
    hide Inv;
    InitHasInv(start);
    RunKeepsOwnReturned(start, run, o);
  }

  /** Over every run: all refunds of an order were asked of the charge its row names exactly when
      every submission worked from a row that named it. */
  lemma SubmissionsOfOwnCharge(start: World, run: seq<Step>, o: OrderId)
    requires Init(start) && CanRun(start, run)
    ensures OwnSubmitted(Run(start, run), o) <==> SubmitsOwnThroughout(start, run, o)
  {
    hide Inv;
    InitHasInv(start);
    RunKeepsOwnSubmitted(start, run, o);
  }

  /** What a caller can see to: as long as the rows worked from name the charge their row names,
      both hold. */
  lemma OwnChargeIsKept(start: World, run: seq<Step>, o: OrderId)
    requires Init(start) && CanRun(start, run) && NamesOwnThroughout(start, run, o)
    ensures var w := Run(start, run);
            o in w.db.payments && w.db.payments[o].refunded > 0 ==>
              && w.db.payments[o].gatewayId.Some?
              && w.db.payments[o].refunded <= Total(ProcessedOf(w, w.db.payments[o].gatewayId.value))
    ensures forall s | s in Run(start, run).submissions && s.order == o ::
      o in Run(start, run).db.payments && Run(start, run).db.payments[o].gatewayId == s.charge
  {
    hide Inv, CanRun, Run, NamesOwnThroughout, ListsOwnThroughout, SubmitsOwnThroughout, OwnReturnedThroughout;
    InitHasInv(start);
    NamingIsEnough(start, run, o);
    BalancesOfOwnCharge(start, run, o);
    LastOfThroughout(start, run, o);
    SubmissionsOfOwnCharge(start, run, o);
  }
}
