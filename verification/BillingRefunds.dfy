/** The life of a refund record over every run: when one is made, when it counts as failed, and what a
    failure that leaves doubt does to it; and the 14 days in which its owner may ask for it. */
module BillingRefunds {
  import opened BillingTypes
  import opened BillingPolicy
  import opened BillingSteps
  import opened BillingWorld
  import BillingRows
  import BillingRuns
  import BillingSafety

  // Which steps write refund records

  lemma SettleKeepsRefunds(db: Ledger, e: Report, now: Time, newSub: SubId)
    requires e.order in db.payments
    ensures Settle(db, e, now, newSub).refunds == db.refunds
  {
    hide Activate, MirrorCheckout, SettleRow, Settled, MatchesOrder;
    var p := db.payments[e.order];
    if MatchesOrder(p, e) && !Settled(p) {
      var updated := db.(payments := db.payments[e.order := SettleRow(p, e, now)]);
      BillingInvariant.ActivateFrame(updated, e.order, now, newSub);
      BillingSafety.MirrorFrame(if e.status == RCaptured then Activate(updated, e.order, now, newSub) else updated, e.order);
    }
  }

  lemma SettleLeavesRefunds(w: World, e: Report, newSub: SubId)
    requires Enabled(w, SettleStep(e, newSub))
    ensures Apply(w, SettleStep(e, newSub)).db.refunds == w.db.refunds
  {
    hide Settle;
    SettleKeepsRefunds(w.db, e, w.now, newSub);
  }

  lemma SaveLeavesRefunds(w: World, c: CheckoutId, o: OrderId, newSub: SubId)
    requires Enabled(w, SaveOrderStep(c, o, newSub))
    ensures Apply(w, SaveOrderStep(c, o, newSub)).db.refunds == w.db.refunds
  {
    hide Activate;
    BillingInvariant.ActivateFrame(Attach(w.db, c, o, w.now), o, w.now, newSub);
  }

  lemma RecoverFreeLeavesRefunds(w: World, c: CheckoutId, newSub: SubId)
    requires Inv(w) && Enabled(w, RecoverFreeStep(c, newSub))
    ensures Apply(w, RecoverFreeStep(c, newSub)).db.refunds == w.db.refunds
  {
    hide BillingInvariant.LedgerInv, SaveOrder, RecoverFree;
    BillingSafety.LedgerOf(w);
    BillingPreservation.RecoverFreeIsSaveOrder(w.db, c, w.now, newSub);
    SaveLeavesRefunds(w, c, FreeOrder(c), newSub);
  }

  lemma ReconcileLeavesRefunds(w: World, o: OrderId, paid: Payment, listed: nat, expected: Option<RefundId>)
    requires Enabled(w, ReconcileStep(o, paid, listed, expected))
    ensures Apply(w, ReconcileStep(o, paid, listed, expected)).db.refunds == w.db.refunds
  {
    BillingPreservation.RecordTotalFrame(w.db, o, paid, Total(ProcessedOf(w, paid.gatewayId.value)[..listed]), w.now);
  }

  lemma RecoverLeavesRefunds(w: World, o: OrderId)
    requires Enabled(w, RecoverStep(o))
    ensures Apply(w, RecoverStep(o)).db.refunds == w.db.refunds
  {
    hide NewPayment;
  }

  lemma OthersLeaveRefunds(w: World, step: Step)
    requires Inv(w) && Enabled(w, step) && !BillingRows.WritesRefunds(step)
    ensures Apply(w, step).db.refunds == w.db.refunds
  {
    hide Inv, Enabled, Apply;
    if BillingRows.IsOutside(step) {
      BillingRows.OutsideWritesNothing(w, step);
    } else if BillingRows.WritesSubscriptions(step) {
      BillingRows.SubscriptionsFrame(w, step);
    } else if BillingRows.WritesCheckouts(step) {
      BillingRows.CheckoutsFrame(w, step);
    } else {
      match step
      case SaveOrderStep(c, o, newSub) => SaveLeavesRefunds(w, c, o, newSub);
      case RecoverStep(o) => RecoverLeavesRefunds(w, o);
      case RecoverFreeStep(c, newSub) => RecoverFreeLeavesRefunds(w, c, newSub);
      case SettleStep(e, newSub) => SettleLeavesRefunds(w, e, newSub);
      case ReconcileStep(o, paid, listed, expected) => ReconcileLeavesRefunds(w, o, paid, listed, expected);
    }
  }

  // When a record counts as failed

  /** The provider says that the refund will not be: it turns a submission down, or reports it failed. */
  predicate SaysNo(step: Step, o: OrderId) {
    step == ProviderRefuses(o) || (step.SaveRefundStep? && step.o == o && step.entity.status == Rejected)
  }

  /** What makes a record failed after a step. */
  predicate Rejects(r: Refund, refused: bool, step: Step, o: OrderId) {
    || (step == RefundFailedStep(o, true) && refused && r.status == Processing && r.gatewayRefundId.None?)
    || (step.SaveRefundStep? && step.o == o && step.entity.status == Rejected && r.status != Processed)
    || (r.status == Rejected && !(step.SaveRefundStep? && step.o == o && step.entity.status != Rejected) && step != FinishRefundStep(o))
  }

  ghost predicate RejectsExactly(w: World, step: Step, o: OrderId)
    requires Enabled(w, step)
  {
    && o in w.db.refunds && o in Apply(w, step).db.refunds
    && (Apply(w, step).db.refunds[o].status == Rejected <==> Rejects(w.db.refunds[o], o in w.refused, step, o))
  }

  /** The record of `o` after the step. */
  ghost predicate RecordIs(w: World, step: Step, o: OrderId, r: Refund)
    requires Enabled(w, step)
  {
    o in Apply(w, step).db.refunds && Apply(w, step).db.refunds[o] == r
  }

  lemma RequestLeaves(w: World, user: UserId, q: OrderId, administrator: bool, key: nat, o: OrderId)
    requires Enabled(w, RequestRefundStep(user, q, administrator, key)) && o in w.db.refunds
    ensures RecordIs(w, RequestRefundStep(user, q, administrator, key), o, w.db.refunds[o])
    ensures RejectsExactly(w, RequestRefundStep(user, q, administrator, key), o)
  {
  }

  lemma MarkWrites(w: World, q: OrderId, o: OrderId)
    requires Enabled(w, MarkProcessingStep(q)) && o in w.db.refunds
    ensures var r := w.db.refunds[o];
            RecordIs(w, MarkProcessingStep(q), o,
              if q == o && r.gatewayRefundId.None? && r.status in {Requested, Uncertain, Processing} then r.(status := Processing) else r)
    ensures RejectsExactly(w, MarkProcessingStep(q), o)
  {
  }

  lemma FailureWrites(w: World, q: OrderId, rejection: bool, o: OrderId)
    requires Enabled(w, RefundFailedStep(q, rejection)) && o in w.db.refunds
    ensures var r := w.db.refunds[o];
            RecordIs(w, RefundFailedStep(q, rejection), o,
              if q == o && r.gatewayRefundId.None? && r.status == Processing then r.(status := if rejection then Rejected else Uncertain) else r)
    ensures rejection ==> q in w.refused
    ensures RejectsExactly(w, RefundFailedStep(q, rejection), o)
  {
  }

  lemma SaveWrites(w: World, q: OrderId, e: RefundEntity, o: OrderId)
    requires Enabled(w, SaveRefundStep(q, e)) && o in w.db.refunds
    ensures var r := w.db.refunds[o];
            RecordIs(w, SaveRefundStep(q, e), o,
              if q == o && r.status != Processed
              then r.(gatewayRefundId := Some(e.id), status := if e.status == Rejected then Rejected else Pending) else r)
    ensures RejectsExactly(w, SaveRefundStep(q, e), o)
  {
  }

  lemma FinishWrites(w: World, q: OrderId, o: OrderId)
    requires Enabled(w, FinishRefundStep(q)) && o in w.db.refunds
    ensures RecordIs(w, FinishRefundStep(q), o, if q == o then w.db.refunds[o].(status := Processed) else w.db.refunds[o])
    ensures RejectsExactly(w, FinishRefundStep(q), o)
  {
  }

  lemma OthersLeave(w: World, step: Step, o: OrderId)
    requires Inv(w) && Enabled(w, step) && !BillingRows.WritesRefunds(step) && o in w.db.refunds
    ensures RecordIs(w, step, o, w.db.refunds[o])
    ensures RejectsExactly(w, step, o)
  {
    hide Inv, Enabled, Apply;
    OthersLeaveRefunds(w, step);
  }

  /** A record is failed after a step exactly when the step acts on a definite refusal of the record's
      running submission, or saves a report that it failed, or it was failed before and the step
      saves no other report about it. */
  lemma StepRejects(w: World, step: Step, o: OrderId)
    requires Inv(w) && Enabled(w, step) && o in w.db.refunds
    ensures o in Apply(w, step).db.refunds
    ensures Apply(w, step).db.refunds[o].status == Rejected <==> Rejects(w.db.refunds[o], o in w.refused, step, o)
  {
    assert RejectsExactly(w, step, o) by {
      hide Inv, Enabled, Apply, RejectsExactly, RecordIs;
      match step
      case RequestRefundStep(user, q, administrator, key) => RequestLeaves(w, user, q, administrator, key, o);
      case MarkProcessingStep(q) => MarkWrites(w, q, o);
      case RefundFailedStep(q, rejection) => FailureWrites(w, q, rejection, o);
      case SaveRefundStep(q, e) => SaveWrites(w, q, e, o);
      case FinishRefundStep(q) => FinishWrites(w, q, o);
      case _ => OthersLeave(w, step, o);
    }
    hide Inv, Enabled, Apply, Rejects;
  }

  lemma NewRequest(w: World, user: UserId, q: OrderId, administrator: bool, key: nat, o: OrderId)
    requires Enabled(w, RequestRefundStep(user, q, administrator, key)) && o !in w.db.refunds
    ensures var r := Apply(w, RequestRefundStep(user, q, administrator, key)).db.refunds; o in r ==> Unresolved(r[o])
  {
  }

  lemma NoNewRecord(w: World, step: Step, o: OrderId)
    requires Enabled(w, step) && BillingRows.WritesRefunds(step) && !step.RequestRefundStep? && o !in w.db.refunds
    ensures o !in Apply(w, step).db.refunds
  {
    hide RefundRequest, Reserve, CanReconcile, CanSubmit, ScheduleChange, Settle, SaveOrder, RecoverFree, RecordTotal, Expire, Confirm;
  }

  /** A new record is not failed, and refusals come from the provider alone. */
  lemma NewRecord(w: World, step: Step, o: OrderId)
    requires Inv(w) && Enabled(w, step) && o !in w.db.refunds && o in Apply(w, step).db.refunds
    ensures Unresolved(Apply(w, step).db.refunds[o])
  {
    hide Inv, Enabled, Apply, Unresolved;
    if step.RequestRefundStep? {
      NewRequest(w, step.user, step.o, step.administrator, step.key, o);
    } else if BillingRows.WritesRefunds(step) {
      NoNewRecord(w, step, o);
    } else {
      OthersLeaveRefunds(w, step);
    }
  }

  lemma StepRefuses(w: World, step: Step, o: OrderId)
    requires Enabled(w, step) && o in Apply(w, step).refused
    ensures o in w.refused || step == ProviderRefuses(o)
  {
    hide Reserve, CanReconcile, CanSubmit, ScheduleChange, RefundRequest, Settle, SaveOrder, RecordTotal, Confirm;
  }

  /** The provider said no at some point of the run. */
  ghost predicate SaidNo(run: seq<Step>, o: OrderId) {
    exists i :: 0 <= i < |run| && SaysNo(run[i], o)
  }

  ghost predicate IsRejected(w: World, o: OrderId) {
    o in w.db.refunds && w.db.refunds[o].status == Rejected
  }

  lemma StepNeedsNo(w: World, step: Step, o: OrderId)
    requires Inv(w) && Enabled(w, step) && (IsRejected(Apply(w, step), o) || o in Apply(w, step).refused)
    ensures IsRejected(w, o) || o in w.refused || SaysNo(step, o)
  {
    hide Inv, Enabled, Apply;
    if o in Apply(w, step).refused {
      StepRefuses(w, step, o);
    } else if o in w.db.refunds {
      StepRejects(w, step, o);
    } else {
      NewRecord(w, step, o);
    }
  }

  lemma {:induction false} RunNeedsNo(w: World, run: seq<Step>, o: OrderId)
    requires Inv(w) && CanRun(w, run) && (IsRejected(Run(w, run), o) || o in Run(w, run).refused)
    ensures IsRejected(w, o) || o in w.refused || SaidNo(run, o)
    decreases |run|
  {
    hide Inv, Enabled, Apply, IsRejected, SaysNo;
    if run != [] {
      BillingSafety.StepKeepsInv(w, run[0]);
      RunNeedsNo(Apply(w, run[0]), run[1..], o);
      if i :| 0 <= i < |run[1..]| && SaysNo(run[1..][i], o) {
        assert SaysNo(run[i + 1], o);
      } else {
        StepNeedsNo(w, run[0], o);
      }
    }
  }

  /** A refund counts as failed only after the provider turned down a submission of it or reported it
      failed: a timeout or an answer that leaves doubt never makes it so, over any run. */
  lemma FailedWasRefused(start: World, run: seq<Step>, o: OrderId)
    requires Init(start) && CanRun(start, run) && o in Run(start, run).db.refunds && Run(start, run).db.refunds[o].status == Rejected
    ensures SaidNo(run, o)
  {
    hide Inv, CanRun, Run;
    InitHasInv(start);
    RunNeedsNo(start, run, o);
  }

  /** As long as the provider has not said no, a record that waits for its outcome goes on waiting, or
      is processed; its key stays what it was. */
  lemma WaitsForTheProvider(w: World, run: seq<Step>, o: OrderId)
    requires BillingRuns.Reachable(w) && CanRun(w, run) && o in w.db.refunds && Unresolved(w.db.refunds[o])
    requires o !in w.refused && !SaidNo(run, o)
    ensures var v := Run(w, run);
            && o in v.db.refunds && v.db.refunds[o].key == w.db.refunds[o].key && v.db.refunds[o].amount == w.db.refunds[o].amount
            && (Unresolved(v.db.refunds[o]) || v.db.refunds[o].status == Processed)
  {
    hide Inv, CanRun, Run, SaidNo;
    BillingRuns.ReachableHasInv(w);
    BillingRuns.OneRefundPerRecord(w, run, o);
    if IsRejected(Run(w, run), o) {
      RunNeedsNo(w, run, o);
    }
    EndedOrNot(Run(w, run).db.refunds[o]);
  }

  lemma EndedOrNot(r: Refund)
    ensures Unresolved(r) <==> r.status != Processed && r.status != Rejected
  {
    match r.status
    case Requested =>
    case Processing =>
    case Pending =>
    case Uncertain =>
    case Processed =>
    case Rejected =>
  }

  // What a failed request leaves

  lemma PaidHasCharge(w: World, o: OrderId)
    requires Inv(w) && o in w.db.refunds
    ensures o in w.db.payments && w.db.payments[o].gatewayId.Some?
  {
    BillingInvariant.LedgerRows(w.db, w.now);
  }

  /** A request that left doubt leaves a record that can be submitted again: with the same key and
      amount, against the payment's charge. */
  lemma DoubtIsRetried(w: World, o: OrderId)
    requires BillingRuns.Reachable(w) && o in w.db.refunds && w.db.refunds[o].status == Processing && w.db.refunds[o].gatewayRefundId.None?
    ensures Enabled(w, RefundFailedStep(o, false)) && Enabled(Apply(w, RefundFailedStep(o, false)), MarkProcessingStep(o))
    ensures var v := Apply(Apply(w, RefundFailedStep(o, false)), MarkProcessingStep(o));
            && o in v.db.refunds && v.db.refunds[o] == w.db.refunds[o] && o in v.db.payments && v.db.payments[o].gatewayId.Some?
            && Enabled(v, SubmitStep(o, v.db.payments[o], v.db.refunds[o], None))
            && Submission(o, v.db.payments[o].gatewayId, w.db.refunds[o].key, w.db.refunds[o].amount)
               in Apply(v, SubmitStep(o, v.db.payments[o], v.db.refunds[o], None)).submissions
    ensures Unresolved(Apply(w, RefundFailedStep(o, false)).db.refunds[o])
  {
    hide BillingRuns.Reachable, Inv, Enabled, Apply;
    BillingRuns.ReachableHasInv(w);
    PaidHasCharge(w, o);
    DoubtLeaves(w, o);
    CanBeSubmitted(Apply(Apply(w, RefundFailedStep(o, false)), MarkProcessingStep(o)), o);
  }

  lemma DoubtLeaves(w: World, o: OrderId)
    requires o in w.db.refunds && w.db.refunds[o].status == Processing && w.db.refunds[o].gatewayRefundId.None?
    ensures Enabled(w, RefundFailedStep(o, false)) && Enabled(Apply(w, RefundFailedStep(o, false)), MarkProcessingStep(o))
    ensures Unresolved(Apply(w, RefundFailedStep(o, false)).db.refunds[o])
    ensures var v := Apply(Apply(w, RefundFailedStep(o, false)), MarkProcessingStep(o));
            o in v.db.refunds && v.db.refunds[o] == w.db.refunds[o] && v.db.payments == w.db.payments
  {
  }

  lemma CanBeSubmitted(v: World, o: OrderId)
    requires o in v.db.refunds && v.db.refunds[o].status == Processing && v.db.refunds[o].gatewayRefundId.None? && o in v.db.payments
    ensures Enabled(v, SubmitStep(o, v.db.payments[o], v.db.refunds[o], None))
    ensures Submission(o, v.db.payments[o].gatewayId, v.db.refunds[o].key, v.db.refunds[o].amount)
            in Apply(v, SubmitStep(o, v.db.payments[o], v.db.refunds[o], None)).submissions
  {
  }

  /** A request that was turned down is not sent again from what is read afterwards. */
  lemma RefusalIsNotRetried(w: World, o: OrderId, paid: Payment, made: Option<RefundId>)
    requires Enabled(w, RefundFailedStep(o, true)) && w.db.refunds[o].status == Processing && w.db.refunds[o].gatewayRefundId.None?
    ensures var v := Apply(w, RefundFailedStep(o, true));
            o in v.db.refunds && v.db.refunds[o].status == Rejected && !Enabled(v, SubmitStep(o, paid, v.db.refunds[o], made))
  {
  }

  // When a refund may be asked for

  /** Lines 274-284: a request makes a record exactly for the owner of a captured provider charge of
      which something is left and that has no record yet, within 14 days of its payment unless an
      administrator asks; and it finds the record that is there. */
  lemma RequestedExactly(db: Ledger, user: UserId, o: OrderId, administrator: bool, key: nat, now: Time)
    ensures var r := RefundRequest(db, user, o, administrator, key, now);
            && (r == Ok(None) <==> o in db.payments && db.payments[o].user == user && o in db.refunds)
            && (r.Ok? && r.value.Some? <==>
                  && o in db.payments && db.payments[o].user == user && o !in db.refunds && o.GatewayOrder?
                  && db.payments[o].status in {PCaptured, PPartiallyRefunded} && db.payments[o].refunded < db.payments[o].amount
                  && db.payments[o].gatewayId.Some?
                  && var paidAt := if db.payments[o].paidAt.Some? then db.payments[o].paidAt.value else db.payments[o].createdAt;
                     administrator || paidAt <= now < paidAt + 1209600000)
            && (r.Ok? && r.value.Some? ==> r.value.value == Refund(key, user, db.payments[o].amount - db.payments[o].refunded, Requested, None))
  {
  }

  /** The reason given for refusing a request holds. */
  lemma RefusalIsTrue(db: Ledger, user: UserId, o: OrderId, administrator: bool, key: nat, now: Time)
    ensures var r := RefundRequest(db, user, o, administrator, key, now);
            r.Refused? ==>
              match r.why
              case NotFound => o !in db.payments || db.payments[o].user != user
              case NotCaptured => o in db.payments && !(db.payments[o].status in {PCaptured, PPartiallyRefunded})
              case NoBalance => o in db.payments && db.payments[o].amount <= db.payments[o].refunded
              case NoRefundableCharge => o in db.payments && (o.FreeOrder? || db.payments[o].gatewayId.None?)
              case WindowEnded =>
                && !administrator && o in db.payments
                && var paidAt := if db.payments[o].paidAt.Some? then db.payments[o].paidAt.value else db.payments[o].createdAt;
                now < paidAt || paidAt + 1209600000 <= now
              case _ => false
  {
  }

  // The 14 days

  /** The date of a capture: the provider's, unless it has none or one that is not past yet. */
  predicate IsPaidAt(t: Time, reported: Option<Time>, now: Time) {
    match reported
    case Some(at) => if 0 < at && at <= now then t == at else t == now
    case None => t == now
  }

  /** A capture dates the payment. */
  lemma CaptureDates(w: World, e: Report, newSub: SubId)
    requires Enabled(w, SettleStep(e, newSub)) && !Settled(w.db.payments[e.order]) && e.status == RCaptured
    requires e.amount == w.db.payments[e.order].amount && e.currency == w.db.payments[e.order].currency
    ensures var v := Apply(w, SettleStep(e, newSub));
            && e.order in v.db.payments && v.db.payments[e.order].status == PCaptured && v.db.payments[e.order].gatewayId == Some(e.id)
            && v.db.payments[e.order].paidAt.Some? && IsPaidAt(v.db.payments[e.order].paidAt.value, e.createdAt, w.now)
  {
    BillingRows.SettledRow(w, e, newSub, e.order);
    CapturedRow(w.db.payments[e.order], e, w.now);
    hide Enabled, Apply, SettleRow;
  }

  lemma CapturedRow(p: Payment, e: Report, now: Time)
    requires !Settled(p) && e.status == RCaptured
    ensures var q := SettleRow(p, e, now);
            q.status == PCaptured && q.gatewayId == Some(e.id) && q.paidAt.Some? && IsPaidAt(q.paidAt.value, e.createdAt, now)
  {
  }

  lemma SettledKeepsDate(p: Payment, e: Report, now: Time)
    requires Settled(p)
    ensures SettleRow(p, e, now).paidAt == p.paidAt && Settled(SettleRow(p, e, now))
  {
  }

  /** Nothing moves the date of a settled payment. */
  lemma StepKeepsDate(w: World, step: Step, o: OrderId)
    requires Inv(w) && Enabled(w, step) && o in w.db.payments && Settled(w.db.payments[o])
    ensures var v := Apply(w, step);
            o in v.db.payments && Settled(v.db.payments[o]) && v.db.payments[o].paidAt == w.db.payments[o].paidAt
  {
    hide Inv, Enabled, Apply, SettleRow, CanReconcile;
    if step.ReconcileStep? && step.o == o {
      BillingRows.ReconciledRow(w, o, step.paid, step.listed, step.expected);
    } else if step.SettleStep? && step.report.order == o {
      BillingRows.SettledRow(w, step.report, step.newSub, o);
      SettledKeepsDate(w.db.payments[o], step.report, w.now);
    } else {
      BillingRows.OtherRow(w, step, o);
    }
  }

  lemma {:induction false} RunKeepsDate(w: World, run: seq<Step>, o: OrderId)
    requires Inv(w) && CanRun(w, run) && o in w.db.payments && Settled(w.db.payments[o])
    ensures var v := Run(w, run);
            o in v.db.payments && Settled(v.db.payments[o]) && v.db.payments[o].paidAt == w.db.payments[o].paidAt
    decreases |run|
  {
    hide Inv, Enabled, Apply, Settled;
    if run != [] {
      BillingSafety.StepKeepsInv(w, run[0]);
      StepKeepsDate(w, run[0], o);
      RunKeepsDate(Apply(w, run[0]), run[1..], o);
    }
  }

  /** Whatever happens after a capture, its owner may ask for the rest of the money back from the date of
      the capture on for 14 days and not a moment longer, once. */
  lemma RefundWindow(w: World, e: Report, newSub: SubId, run: seq<Step>, user: UserId, key: nat)
    requires BillingRuns.Reachable(w) && Enabled(w, SettleStep(e, newSub)) && !Settled(w.db.payments[e.order]) && e.status == RCaptured
    requires e.amount == w.db.payments[e.order].amount && e.currency == w.db.payments[e.order].currency
    requires CanRun(Apply(w, SettleStep(e, newSub)), run)
    ensures var v := Run(Apply(w, SettleStep(e, newSub)), run);
            && e.order in v.db.payments && v.db.payments[e.order].paidAt.Some?
            && var paidAt := v.db.payments[e.order].paidAt.value;
            && IsPaidAt(paidAt, e.createdAt, w.now)
            && var r := RefundRequest(v.db, user, e.order, false, key, v.now);
            && (r.Ok? && r.value.Some? <==>
                  && v.db.payments[e.order].user == user && e.order !in v.db.refunds
                  && v.db.payments[e.order].refunded < v.db.payments[e.order].amount && paidAt <= v.now < paidAt + 1209600000)
  {
    hide Inv, BillingRuns.Reachable, Enabled, Apply, CanRun, Run, RefundRequest, IsPaidAt;
    BillingRuns.ReachableHasInv(w);
    var step := SettleStep(e, newSub);
    BillingSafety.StepKeepsInv(w, step);
    CaptureDates(w, e, newSub);
    var u := Apply(w, step);
    RunKeepsDate(u, run, e.order);
    var v := Run(u, run);
    BillingRuns.RunKeepsInv(u, run);
    SettledIsCharged(v, e.order);
    ChargedOrder(w, e, newSub);
    ChargeStays(u.db, v.db, e.order);
    RequestedExactly(v.db, user, e.order, false, key, v.now);
  }

  lemma ChargedOrder(w: World, e: Report, newSub: SubId)
    requires Inv(w) && Enabled(w, SettleStep(e, newSub))
    ensures e.order.GatewayOrder?
  {
    assert ChargesKnown(w);
  }

  lemma ChargeStays(a: Ledger, b: Ledger, o: OrderId)
    requires BillingHistory.Advance(a, b) && o in a.payments && Settled(a.payments[o])
    ensures o in b.payments && b.payments[o].gatewayId == a.payments[o].gatewayId
  {
    assert BillingPreservation.PaymentPast(a.payments[o], b.payments[o]);
  }

  lemma SettledIsCharged(w: World, o: OrderId)
    requires Inv(w) && o in w.db.payments
    ensures w.db.payments[o].refunded < w.db.payments[o].amount && Settled(w.db.payments[o]) ==>
      w.db.payments[o].status in {PCaptured, PPartiallyRefunded}
  {
    BillingInvariant.LedgerRows(w.db, w.now);
    assert BillingInvariant.Balanced(w.db.payments[o]);
  }
}
