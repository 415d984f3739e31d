/** How often a recovery job is tried, over runs of the queue: failures add up, every failure waits
    longer than the one before, the eighth asks for a review, and a success starts over. */
module RecoveryDelays {
  import opened BillingTypes
  import opened Recovery
  import opened RecoveryRuns

  function Twice(n: nat): (r: int)
    ensures r >= 1
  {
    if n == 0 then 1 else 2 * Twice(n - 1)
  }

  lemma {:induction false} TwiceIsPow2(n: nat)
    ensures Pow2(n) == Twice(n) as real
  {
    if n > 0 {
      TwiceIsPow2(n - 1);
    }
  }

  lemma {:induction false} TwiceGrows(a: nat, b: nat)
    requires a < b
    ensures 2 * Twice(a) <= Twice(b)
    decreases b
  {
    if a < b - 1 {
      TwiceGrows(a, b - 1);
    }
  }

  lemma Scaled(base: int)
    ensures 15000.0 * base as real * 0.8 == (12000 * base) as real && 15000.0 * base as real * 1.2 == (18000 * base) as real
  {
  }

  lemma Between(short: real, low: real, high: real, random: real)
    requires short > 0.0 && low == short * 0.8 && high == short * 1.2 && 0.0 <= random < 1.0
    ensures low <= short * (0.8 + random * 0.4) < high
  {
    JitterBounds(short, random);
  }

  lemma BackoffBetween(failures: nat, random: real)
    requires 0.0 <= random < 1.0
    ensures (12000 * Twice(failures)) as real <= Backoff(failures, random) < (18000 * Twice(failures)) as real
  {
    hide Twice, Pow2;
    TwiceIsPow2(failures);
    Scaled(Twice(failures));
    var short := 15000.0 * Pow2(failures);
    assert Backoff(failures, random) == short * (0.8 + random * 0.4);
    hide Backoff;
    Between(short, (12000 * Twice(failures)) as real, (18000 * Twice(failures)) as real, random);
  }

  // The wait after a failure

  lemma Clipped(b: real, retryAfter: real, low: int, high: int)
    requires 0 < low && low as real <= b < high as real && high <= 86400000
    ensures var wait := MinReal(86400000.0, MaxReal(b, retryAfter)).Floor;
            && low <= wait <= 86400000 && (retryAfter <= 0.0 ==> wait < high)
            && (retryAfter <= 86400000.0 ==> retryAfter.Floor <= wait)
            && (retryAfter >= 86400000.0 ==> wait == 86400000)
  {
  }

  lemma FailureWait(failures: nat, retryAfter: real, random: real)
    requires 0.0 <= random < 1.0
    ensures var wait, base := RecoveryDelay(failures, retryAfter, random).Floor, Twice(MinNat(failures, 12));
            && 12000 * base <= wait <= 86400000
            && (retryAfter <= 0.0 ==> wait < 18000 * base)
            && (retryAfter <= 86400000.0 ==> retryAfter.Floor <= wait)
            && (retryAfter >= 86400000.0 ==> wait == 86400000)
  {
    var n := MinNat(failures, 12);
    TwiceAtMost(n);
    hide Twice, Pow2, MinReal, MaxReal, Backoff;
    BackoffBetween(n, random);
    Clipped(Backoff(n, random), retryAfter, 12000 * Twice(n), 18000 * Twice(n));
  }

  lemma TwiceAtMost(n: nat)
    requires n <= 12
    ensures Twice(n) <= 4096 == Twice(12)
  {
    assert Twice(4) == 16;
    assert Twice(8) == 256;
    if n < 12 {
      TwiceGrows(n, 12);
    }
  }

  // One finish

  /** The worker of claim i holds the row when it writes. */
  ghost predicate Lands(q: Queue, step: Step, id: JobId)
    requires Enabled(q, step)
  {
    step.Write? && q.claims[step.i].id == id && id in q.jobs && q.jobs[id].token == Some(step.i)
  }

  ghost predicate ErrorLands(q: Queue, step: Step, id: JobId)
    requires Enabled(q, step)
  {
    Lands(q, step, id) && q.claims[step.i].phase.finish.Retry?
  }

  /** A finish without an error, or an administrator's retry. */
  ghost predicate StartsOver(q: Queue, step: Step, id: JobId)
    requires Enabled(q, step)
  {
    step == AdminRetry(id) || (Lands(q, step, id) && !q.claims[step.i].phase.finish.Retry?)
  }

  /** A failure adds one to what the worker found, lets the row go, asks for a review from the eighth on,
      and waits 15 seconds doubled as often, give or take a fifth; a provider that asks for more gets it,
      up to a day. */
  lemma ErrorFinish(q: Queue, i: nat, random: real, id: JobId)
    requires Enabled(q, Write(i, random)) && ErrorLands(q, Write(i, random), id)
    ensures var r, n, retryAfter := Apply(q, Write(i, random)), q.claims[i].failures + 1, q.claims[i].phase.finish.retryAfter;
            && id in r.jobs && r.jobs[id].failures == n && (r.jobs[id].review <==> n >= 8)
            && r.jobs[id].token.None? && r.jobs[id].leaseUntil.None? && r.jobs[id].user == q.jobs[id].user
            && var wait, base := r.jobs[id].due - q.now, if n <= 12 then Twice(n) else 4096;
            && 12000 * base <= wait <= 86400000
            && (retryAfter <= 0.0 ==> wait < 18000 * base)
            && (retryAfter <= 86400000.0 ==> retryAfter.Floor <= wait)
            && (retryAfter >= 86400000.0 ==> wait == 86400000)
  {
    TwiceAtMost(12);
    hide RecoveryDelay, Twice, Sound, KnownTo, Gone;
    FailureWait(q.claims[i].failures + 1, q.claims[i].phase.finish.retryAfter, random);
  }

  /** A finish without an error starts the count over and comes back when the worker said; a resolved job
      is gone; an administrator's retry is due at once with nothing counted. */
  lemma StartingOver(q: Queue, step: Step, id: JobId)
    requires Enabled(q, step) && StartsOver(q, step, id) && id in q.jobs
    ensures var r := Apply(q, step);
            match step
            case Write(i, _) =>
              (match q.claims[i].phase.finish
               case Reschedule(delay, review) => id in r.jobs && r.jobs[id] == Job(q.jobs[id].user, q.now + delay, None, None, 0, review)
               case _ => id !in r.jobs)
            case _ =>
              && id in r.jobs
              && r.jobs[id] == (if q.jobs[id].leaseUntil.Some? && q.now <= q.jobs[id].leaseUntil.value then q.jobs[id]
                                else q.jobs[id].(due := q.now, failures := 0))
  {
    hide RecoveryDelay, Sound, KnownTo, Gone;
  }

  /** A claim holds its row for five minutes: until then nobody can take it. */
  lemma ClaimHolds(q: Queue, id: JobId, now: Time)
    requires Enabled(q, Take(id)) && now <= q.now + 300000
    ensures id in Apply(q, Take(id)).jobs && !Claimable(Apply(q, Take(id)).jobs[id], now)
  {
  }

  /** What a worker decides when its call returns: a refund that is not settled is looked at again in a
      minute, a checkout or payment in five minutes or, once it is settled or will never be, in a day;
      a review is asked for when the service does, or when nothing is decided after a day. */
  lemma ReturnDecides(q: Queue, i: nat, answer: Answer)
    requires Enabled(q, Answered(i, answer)) && answer.Returned?
    ensures var id, r := q.claims[i].id, Apply(q, Answered(i, answer));
            && i < |r.claims| && r.claims[i].phase.Decided?
            && match id
               case WebhookJob(e) =>
                 if e in q.resources.webhooks then r.claims[i].phase.finish == Resolved && e in r.resources.webhooks && r.resources.webhooks[e]
                 else r.claims[i].phase.finish.Retry?
               case RefundJob(o) =>
                 if o !in q.resources.refunds then r.claims[i].phase.finish.Retry?
                 else if q.resources.refunds[o].status in {Processed, Rejected} then r.claims[i].phase.finish == Resolved
                 else r.claims[i].phase.finish == Reschedule(60000, false)
               case _ =>
                 if answer.outcome == Undecided then r.claims[i].phase.finish == Reschedule(300000, answer.review || answer.age > 86400000)
                 else r.claims[i].phase.finish == Reschedule(86400000, answer.review)
  {
    hide Sound, KnownTo, Gone;
  }

  lemma ThrowDecides(q: Queue, i: nat, answer: Answer)
    requires Enabled(q, Answered(i, answer)) && answer.Threw?
    ensures var r := Apply(q, Answered(i, answer));
            i < |r.claims| && r.claims[i].phase == Decided(Retry(answer.retryAfter)) && r.resources == q.resources && r.jobs == q.jobs
  {
    hide Sound, KnownTo, Gone;
  }

  // Many finishes

  /** The worker that holds the row knows its count. */
  ghost predicate Counted(q: Queue, id: JobId) {
    id in q.jobs && q.jobs[id].token.Some? ==>
      q.jobs[id].token.value < |q.claims| && q.claims[q.jobs[id].token.value].failures == q.jobs[id].failures
  }

  /** No finish without an error and no administrator's retry of the row. */
  ghost predicate OnlyErrors(q: Queue, run: seq<Step>, id: JobId)
    requires CanRun(q, run)
    decreases |run|
  {
    run == [] || (!StartsOver(q, run[0], id) && OnlyErrors(Apply(q, run[0]), run[1..], id))
  }

  ghost function Errors(q: Queue, run: seq<Step>, id: JobId): nat
    requires CanRun(q, run)
    decreases |run|
  {
    if run == [] then 0 else (if ErrorLands(q, run[0], id) then 1 else 0) + Errors(Apply(q, run[0]), run[1..], id)
  }

  /** A step that does not land a finish leaves count, due time and flag of the row. */
  lemma OtherStep(q: Queue, step: Step, id: JobId)
    requires Inv(q) && Enabled(q, step) && id in q.jobs && !Lands(q, step, id) && step != AdminRetry(id) && Counted(q, id)
    ensures var r := Apply(q, step);
            && id in r.jobs && r.jobs[id].failures == q.jobs[id].failures && r.jobs[id].review == q.jobs[id].review
            && r.jobs[id].due == q.jobs[id].due && Counted(r, id)
  {
    hide Inv, Moves, SourcesOf, UserOf, RecoveryDelay, Read, Conclude, Stored, Marked;
    if q.jobs[id].token.Some? {
      DoomedHolder(q, id);
    }
  }

  lemma ErrorStep(q: Queue, step: Step, id: JobId)
    requires Enabled(q, step) && ErrorLands(q, step, id) && Counted(q, id)
    ensures var r := Apply(q, step);
            && id in r.jobs && r.jobs[id].failures == q.jobs[id].failures + 1 && (r.jobs[id].review <==> r.jobs[id].failures >= 8)
            && Counted(r, id)
  {
    hide RecoveryDelay;
    ErrorFinish(q, step.i, step.random, id);
  }

  lemma {:induction false} RunCounts(q: Queue, run: seq<Step>, id: JobId)
    requires Inv(q) && CanRun(q, run) && id in q.jobs && Counted(q, id) && OnlyErrors(q, run, id)
    ensures var r := Run(q, run);
            && id in r.jobs && Counted(r, id) && r.jobs[id].failures == q.jobs[id].failures + Errors(q, run, id)
            && (if Errors(q, run, id) == 0 then r.jobs[id].review == q.jobs[id].review && r.jobs[id].due == q.jobs[id].due
                else r.jobs[id].review <==> r.jobs[id].failures >= 8)
    decreases |run|
  {
    hide Inv, Enabled, Apply, Counted, Lands;
    if run != [] {
      StepKeepsInv(q, run[0]);
      if ErrorLands(q, run[0], id) {
        ErrorStep(q, run[0], id);
      } else {
        assert !Lands(q, run[0], id);
        OtherStep(q, run[0], id);
      }
      RunCounts(Apply(q, run[0]), run[1..], id);
    }
  }

  /** Failures add up: from a row nobody holds on, n failures and nothing else leave n more than there
      were, and the row asks for a review exactly from the eighth on. */
  lemma FailuresAdd(q: Queue, run: seq<Step>, id: JobId)
    requires Reachable(q) && CanRun(q, run) && id in q.jobs && q.jobs[id].token.None? && OnlyErrors(q, run, id)
    ensures var r := Run(q, run);
            && id in r.jobs && r.jobs[id].failures == q.jobs[id].failures + Errors(q, run, id)
            && (Errors(q, run, id) > 0 ==> (r.jobs[id].review <==> r.jobs[id].failures >= 8))
  {
    hide Inv, Reachable;
    ReachableHasInv(q);
    RunCounts(q, run, id);
  }

  /** Each of two failures in a row waits longer than the one before, up to the twelfth, whatever happened
      to other rows in between and whatever the two draws, as long as the provider asks for no wait. */
  lemma WaitsGrow(q: Queue, i: nat, first: real, run: seq<Step>, j: nat, second: real, id: JobId)
    requires Reachable(q) && Enabled(q, Write(i, first)) && ErrorLands(q, Write(i, first), id)
    requires var u := Apply(q, Write(i, first));
             && CanRun(u, run) && OnlyErrors(u, run, id) && Errors(u, run, id) == 0
             && Enabled(Run(u, run), Write(j, second)) && ErrorLands(Run(u, run), Write(j, second), id)
    requires var v := Run(Apply(q, Write(i, first)), run);
             q.claims[i].phase.finish.retryAfter <= 0.0 && v.claims[j].phase.finish.retryAfter <= 0.0 && v.jobs[id].failures < 12
    ensures var u := Apply(q, Write(i, first));
            var v := Run(u, run);
            var w := Apply(v, Write(j, second));
            && id in u.jobs && id in w.jobs && w.jobs[id].failures == u.jobs[id].failures + 1
            && u.jobs[id].due - q.now < w.jobs[id].due - v.now
  {
    hide Inv, Reachable, Enabled, Apply, CanRun, Run, Twice, OnlyErrors, Errors;
    var u := Apply(q, Write(i, first));
    ReachableHasInv(q);
    ReachableStep(q, Write(i, first));
    ReachableHasInv(u);
    ErrorFinish(q, i, first, id);
    RunCounts(u, run, id);
    var v := Run(u, run);
    ErrorFinish(v, j, second, id);
    ErrorStep(v, Write(j, second), id);
    TwiceGrows(u.jobs[id].failures, u.jobs[id].failures + 1);
  }
}
