/** `settlePayment` as a join: whatever the order and repetition of the provider's reports, and
    whatever else runs in between, a charge that was never refunded ends in the same place. */
module BillingJoin {
  import opened BillingTypes
  import opened BillingWorld
  import BillingSafety
  import BillingRows
  import BillingRuns

  /** CREATED < FAILED < AUTHORIZED < CAPTURED, for rows and for reports. */
  function Height(status: PaymentStatus): nat {
    match status
    case PCreated => 0
    case PFailed => 1
    case PAuthorized => 2
    case _ => 3
  }

  function ReportHeight(status: ReportStatus): nat {
    match status
    case ROther => 0
    case RFailed => 1
    case RAuthorized => 2
    case RCaptured => 3
  }

  /** The highest of the reports, or CREATED when there are none. */
  predicate Highest(height: nat, reports: set<Report>) {
    && (forall e :: e in reports ==> ReportHeight(e.status) <= height)
    && (height == 0 || exists e :: e in reports && ReportHeight(e.status) == height)
  }

  function CapturedIds(reports: set<Report>): set<GatewayId> {
    set e | e in reports && e.status == RCaptured :: e.id
  }

  /** The row says what the reports amount to: the highest status, and every captured charge,
      one as the payment and the others as duplicates. */
  predicate Reflects(p: Payment, reports: set<Report>) {
    && p.status != PRefunded && p.status != PPartiallyRefunded
    && Highest(Height(p.status), reports)
    && (if p.status == PCaptured
        then p.gatewayId.Some? && p.gatewayId.value !in p.duplicates && {p.gatewayId.value} + p.duplicates == CapturedIds(reports)
        else p.duplicates == {} == CapturedIds(reports))
  }

  lemma CapturedIdsGrow(reports: set<Report>, e: Report)
    ensures CapturedIds(reports + {e}) == CapturedIds(reports) + if e.status == RCaptured then {e.id} else {}
  {
    if e.status == RCaptured {
      assert e in reports + {e};
    }
    forall x | x in CapturedIds(reports) ensures x in CapturedIds(reports + {e}) {
      var r :| r in reports && r.status == RCaptured && r.id == x;
      assert r in reports + {e};
    }
  }

  lemma HighestGrows(height: nat, reports: set<Report>, e: Report)
    requires Highest(height, reports)
    ensures Highest(Max(height, ReportHeight(e.status)), reports + {e})
  {
    var top := Max(height, ReportHeight(e.status));
    if top == ReportHeight(e.status) {
      assert e in reports + {e};
    } else {
      var r :| r in reports && ReportHeight(r.status) == height;
      assert r in reports + {e};
    }
  }

  /** One more report, new or repeated. */
  lemma ReportIsJoined(p: Payment, reports: set<Report>, e: Report, now: Time)
    requires Reflects(p, reports)
    ensures Reflects(BillingSteps.SettleRow(p, e, now), reports + {e})
  {
    HighestGrows(Height(p.status), reports, e);
    CapturedIdsGrow(reports, e);
  }

  /** The reports about `o` that a run takes in, as far as they match the order. */
  function Heard(run: seq<Step>, o: OrderId, amount: nat, currency: nat): set<Report> {
    set i | 0 <= i < |run| && run[i].SettleStep? && run[i].report.order == o
            && run[i].report.amount == amount && run[i].report.currency == currency :: run[i].report
  }

  predicate Hears(p: Payment, o: OrderId, step: Step) {
    step.SettleStep? && step.report.order == o && BillingSteps.MatchesOrder(p, step.report)
  }

  lemma HeardFirst(run: seq<Step>, o: OrderId, p: Payment)
    requires run != []
    ensures Heard(run, o, p.amount, p.currency) ==
            Heard(run[1..], o, p.amount, p.currency) + if Hears(p, o, run[0]) then {run[0].report} else {}
  {
    var rest := run[1..];
    forall e | e in Heard(run, o, p.amount, p.currency)
      ensures e in Heard(rest, o, p.amount, p.currency) + if Hears(p, o, run[0]) then {run[0].report} else {}
    {
      var i :| 0 <= i < |run| && run[i].SettleStep? && run[i].report == e;
      if i > 0 {
        assert rest[i - 1] == run[i];
      }
    }
    forall e | e in Heard(rest, o, p.amount, p.currency)
      ensures e in Heard(run, o, p.amount, p.currency)
    {
      var i :| 0 <= i < |rest| && rest[i].SettleStep? && rest[i].report == e;
      assert run[i + 1] == rest[i];
    }
  }

  // What other steps leave of the charge

  predicate SameReports(p: Payment, q: Payment) {
    q.status == p.status && q.gatewayId == p.gatewayId && q.duplicates == p.duplicates
  }

  lemma HeardRow(w: World, e: Report, newSub: SubId, o: OrderId)
    requires Enabled(w, SettleStep(e, newSub)) && o in w.db.payments
    ensures o in Apply(w, SettleStep(e, newSub)).db.payments
    ensures var p, q := w.db.payments[o], Apply(w, SettleStep(e, newSub)).db.payments[o];
            if Hears(p, o, SettleStep(e, newSub)) then SameReports(BillingSteps.SettleRow(p, e, w.now), q) else q == p
  {
    hide Enabled, Apply;
    BillingRows.SettledRow(w, e, newSub, o);
    if e.order != o {
      BillingRows.SettleElsewhere(w, e, newSub, o);
    }
  }

  /** Unless a balance was recorded, every step but a report leaves the row alone. */
  lemma OtherStep(w: World, step: Step, o: OrderId)
    requires Inv(w) && Enabled(w, step) && o in w.db.payments && !step.SettleStep?
    requires o in Apply(w, step).db.payments && Apply(w, step).db.payments[o].refunded == 0
    ensures Apply(w, step).db.payments[o] == w.db.payments[o]
  {
    hide Inv, Enabled, Apply;
    if step.ReconcileStep? && step.o == o {
      BillingRows.ReconciledRow(w, o, step.paid, step.listed, step.expected);
    } else {
      BillingRows.OtherRow(w, step, o);
    }
  }

  // Runs

  lemma {:induction false} RunReflects(w: World, run: seq<Step>, o: OrderId, before: set<Report>)
    requires Inv(w) && CanRun(w, run) && o in w.db.payments && o.GatewayOrder? && Reflects(w.db.payments[o], before)
    requires o in Run(w, run).db.payments && Run(w, run).db.payments[o].refunded == 0
    ensures Reflects(Run(w, run).db.payments[o], before + Heard(run, o, w.db.payments[o].amount, w.db.payments[o].currency))
    decreases |run|
  {
    hide Inv, Enabled, Apply, Reflects, BillingSteps.SettleRow;
    var p := w.db.payments[o];
    if run == [] {
      assert before + Heard(run, o, p.amount, p.currency) == before;
    } else {
      var v := Apply(w, run[0]);
      BillingSafety.StepKeepsInv(w, run[0]);
      assert BillingPreservation.PaymentPast(p, v.db.payments[o]);
      HeardFirst(run, o, p);
      FirstReflects(w, run, o, before);
      var after := before + if Hears(p, o, run[0]) then {run[0].report} else {};
      RunReflects(v, run[1..], o, after);
      assert after + Heard(run[1..], o, p.amount, p.currency) == before + Heard(run, o, p.amount, p.currency);
    }
  }

  lemma FirstReflects(w: World, run: seq<Step>, o: OrderId, before: set<Report>)
    requires run != [] && Inv(w) && CanRun(w, run) && o in w.db.payments && o.GatewayOrder? && Reflects(w.db.payments[o], before)
    requires o in Run(w, run).db.payments && Run(w, run).db.payments[o].refunded == 0
    requires o in Apply(w, run[0]).db.payments
    ensures Reflects(Apply(w, run[0]).db.payments[o], before + if Hears(w.db.payments[o], o, run[0]) then {run[0].report} else {})
  {
    hide Inv, Enabled, Apply, BillingSteps.SettleRow, Highest, CapturedIds;
    var v := Apply(w, run[0]);
    BillingSafety.StepKeepsInv(w, run[0]);
    BillingRuns.RunKeepsInv(v, run[1..]);
    assert BillingPreservation.PaymentPast(v.db.payments[o], Run(v, run[1..]).db.payments[o]);
    if run[0].SettleStep? {
      HeardRow(w, run[0].report, run[0].newSub, o);
      ReportIsJoined(w.db.payments[o], before, run[0].report, w.now);
    } else {
      OtherStep(w, run[0], o);
    }
    assert before + {} == before;
  }

  /** A freshly attached order, after any run that returned none of its charge. */
  lemma SettlementIsAJoin(w: World, run: seq<Step>, o: OrderId)
    requires Inv(w) && CanRun(w, run) && o in w.db.payments && o.GatewayOrder?
    requires w.db.payments[o].status == PCreated && w.db.payments[o].duplicates == {}
    requires o in Run(w, run).db.payments && Run(w, run).db.payments[o].refunded == 0
    ensures Reflects(Run(w, run).db.payments[o], Heard(run, o, w.db.payments[o].amount, w.db.payments[o].currency))
  {
    hide Inv, CanRun, Run, Heard;
    assert CapturedIds({}) == {};
    RunReflects(w, run, o, {});
    assert {} + Heard(run, o, w.db.payments[o].amount, w.db.payments[o].currency) == Heard(run, o, w.db.payments[o].amount, w.db.payments[o].currency);
  }

  function ChargesOf(p: Payment): set<GatewayId> {
    (if p.status == PCaptured && p.gatewayId.Some? then {p.gatewayId.value} else {}) + p.duplicates
  }

  /** Two histories of the same reports agree, in whatever order and however often they came. */
  lemma OrderDoesNotMatter(w: World, run: seq<Step>, other: seq<Step>, o: OrderId)
    requires Inv(w) && CanRun(w, run) && CanRun(w, other) && o in w.db.payments && o.GatewayOrder?
    requires w.db.payments[o].status == PCreated && w.db.payments[o].duplicates == {}
    requires o in Run(w, run).db.payments && Run(w, run).db.payments[o].refunded == 0
    requires o in Run(w, other).db.payments && Run(w, other).db.payments[o].refunded == 0
    requires Heard(run, o, w.db.payments[o].amount, w.db.payments[o].currency) ==
             Heard(other, o, w.db.payments[o].amount, w.db.payments[o].currency)
    ensures Run(w, run).db.payments[o].status == Run(w, other).db.payments[o].status
    ensures ChargesOf(Run(w, run).db.payments[o]) == ChargesOf(Run(w, other).db.payments[o])
  {
    hide Inv, CanRun, Run, Heard;
    SettlementIsAJoin(w, run, o);
    SettlementIsAJoin(w, other, o);
  }

  // Polling: `syncBillingPayment`, lines 211-217

  function AsSet(items: seq<Report>): set<Report> {
    set e | e in items
  }

  method Find(items: seq<Report>, status: ReportStatus) returns (found: Option<Report>)
    ensures found.Some? ==> found.value in items && found.value.status == status
    ensures found.None? ==> forall e :: e in items ==> e.status != status
  {
    for i := 0 to |items|
      invariant forall e :: e in items[..i] ==> e.status != status
    {
      if items[i].status == status {
        return Some(items[i]);
      }
    }
    assert items[..|items|] == items;
    return None;
  }

  /** A poll settles only the best attempt and the captured ones besides it. That is enough: what
      it leaves out would not change where the charge ends. */
  method ReportsToSettle(items: seq<Report>) returns (reports: seq<Report>)
    ensures forall e :: e in reports ==> e in items
    ensures CapturedIds(AsSet(reports)) == CapturedIds(AsSet(items))
    ensures forall height: nat :: Highest(height, AsSet(reports)) <==> Highest(height, AsSet(items))
  {
    var captured := Find(items, RCaptured);
    var authorized := Find(items, RAuthorized);
    var failed := Find(items, RFailed);
    var best := if captured.Some? then captured else if authorized.Some? then authorized else failed;
    reports := if best.Some? then [best.value] else [];
    for i := 0 to |items|
      invariant forall e :: e in reports ==> e in items
      invariant best.Some? ==> best.value in reports
      invariant forall e :: e in items[..i] && e.status == RCaptured ==> e.id in CapturedIds(AsSet(reports))
    {
      if items[i].status == RCaptured && (best.None? || items[i].id != best.value.id) {
        ghost var before := AsSet(reports);
        reports := reports + [items[i]];
        assert AsSet(reports) == before + {items[i]};
        CapturedIdsGrow(before, items[i]);
      }
    }
    assert items[..|items|] == items;
    BestIsHighest(items, reports, best);
  }

  lemma BestIsHighest(items: seq<Report>, reports: seq<Report>, best: Option<Report>)
    requires forall e :: e in reports ==> e in items
    requires best.Some? ==> best.value in reports && forall e :: e in items ==> ReportHeight(e.status) <= ReportHeight(best.value.status)
    requires best.None? ==> forall e :: e in items ==> e.status == ROther
    ensures forall height: nat :: Highest(height, AsSet(reports)) <==> Highest(height, AsSet(items))
  {
    forall height: nat
      ensures Highest(height, AsSet(reports)) <==> Highest(height, AsSet(items))
    {
      if best.Some? {
        assert best.value in AsSet(reports) && best.value in AsSet(items);
      }
    }
  }
}
