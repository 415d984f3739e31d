/** The billing recovery queue: backend/src/services/billingRecovery.js, and the third writer of its
    rows, `retryBillingRecovery` in backend/src/controllers/billingRecovery.controller.js. */
module Recovery {
  import opened BillingTypes

  datatype JobId = WebhookJob(event: nat) | CheckoutJob(checkout: CheckoutId) | RefundJob(refunded: OrderId) | PaymentJob(payment: OrderId)
  type Token = nat

  datatype Job = Job(user: Option<UserId>, due: Time, leaseUntil: Option<Time>, token: Option<Token>, failures: nat, review: bool)

  const LEASE := 5 * 60 * 1000
  const DAY := 86400000

  // Lines 36-38: the delay after an error

  function Pow2(n: nat): (r: real)
    ensures r >= 1.0
  {
    if n == 0 then 1.0 else 2.0 * Pow2(n - 1)
  }

  function MinNat(a: nat, b: nat): nat { if a <= b then a else b }

  function MinReal(a: real, b: real): real { if a <= b then a else b }

  function MaxReal(a: real, b: real): real { if a >= b then a else b }

  /** The doubled delay with its jitter; `random` is drawn from [0, 1). */
  function Backoff(failures: nat, random: real): real {
    15000.0 * Pow2(failures) * (0.8 + random * 0.4)
  }

  function RecoveryDelay(failures: nat, retryAfter: real, random: real): real {
    MinReal(86400000.0, MaxReal(Backoff(MinNat(failures, 12), random), retryAfter))
  }

  lemma JitterBounds(base: real, random: real)
    requires base > 0.0 && 0.0 <= random < 1.0
    ensures base * 0.8 <= base * (0.8 + random * 0.4) < base * 1.2
  {
    var jitter := random * 0.4;
    assert 0.0 <= jitter < 0.4;
    assert base * (0.8 + jitter) == base * 0.8 + base * jitter;
    assert 0.0 <= base * jitter < base * 0.4;
  }

  lemma {:induction false} Pow2Monotone(a: nat, b: nat)
    requires a < b
    ensures 2.0 * Pow2(a) <= Pow2(b)
    decreases b
  {
    if a < b - 1 {
      Pow2Monotone(a, b - 1);
    }
  }

  lemma Pow2Of12()
    ensures Pow2(12) == 4096.0
  {
    assert Pow2(4) == 16.0;
    assert Pow2(8) == 256.0;
  }

  /** Doubling outruns the jitter: the most the shorter base gives is less than the least of the
      longer one. */
  lemma JitterIsOutrun(short: real, long: real, first: real, second: real)
    requires 0.0 < short && 2.0 * short <= long && 0.0 <= first < 1.0 && 0.0 <= second < 1.0
    ensures short * (0.8 + first * 0.4) < long * (0.8 + second * 0.4)
  {
    JitterBounds(short, first);
    JitterBounds(long, second);
  }

  lemma ShortEnough(failures: nat, random: real)
    requires failures <= 12 && 0.0 <= random < 1.0
    ensures 0.0 < Backoff(failures, random) < 86400000.0
  {
    Pow2Of12();
    if failures < 12 {
      Pow2Monotone(failures, 12);
    }
    JitterBounds(15000.0 * Pow2(failures), random);
  }

  lemma BackoffGrows(few: nat, many: nat, first: real, second: real)
    requires few < many && 0.0 <= first < 1.0 && 0.0 <= second < 1.0
    ensures Backoff(few, first) < Backoff(many, second)
  {
    Pow2Monotone(few, many);
    JitterIsOutrun(15000.0 * Pow2(few), 15000.0 * Pow2(many), first, second);
  }

  lemma DelayIs(failures: nat, random: real)
    requires failures <= 12 && 0.0 <= random < 1.0
    ensures RecoveryDelay(failures, 0.0, random) == Backoff(failures, random)
  {
    hide Backoff;
    ShortEnough(failures, random);
  }

  /** Without a Retry-After, one more failure always waits longer, whatever the two draws. */
  lemma DelayGrows(few: nat, many: nat, first: real, second: real)
    requires few < many <= 12 && 0.0 <= first < 1.0 && 0.0 <= second < 1.0
    ensures RecoveryDelay(few, 0.0, first) < RecoveryDelay(many, 0.0, second)
  {
    hide RecoveryDelay, Backoff;
    DelayIs(few, first);
    DelayIs(many, second);
    BackoffGrows(few, many, first, second);
  }

  lemma DelayBounded(failures: nat, retryAfter: real, random: real)
    requires 0.0 <= random < 1.0
    ensures 0.0 < RecoveryDelay(failures, retryAfter, random) <= 86400000.0
  {
    hide Backoff;
    ShortEnough(MinNat(failures, 12), random);
  }

  // The resources that call for recovery

  datatype CheckoutSource = CheckoutSource(user: UserId, payment: Option<OrderId>)
  datatype RefundSource = RefundSource(user: UserId, status: RefundStatus)

  /** The columns that the queue looks at, in the tables other than its own. */
  datatype Resources = Resources(
    users: set<UserId>,
    webhooks: map<nat, bool>, // stored events, and whether each is processed
    checkouts: map<CheckoutId, CheckoutSource>,
    refunds: map<OrderId, RefundSource>,
    payments: map<OrderId, UserId>,
    ever: set<JobId>) // every checkout and payment there has been

  datatype Kind = Webhooks | Checkouts | Refunds | Payments

  function KindOf(id: JobId): Kind {
    match id
    case WebhookJob(_) => Webhooks
    case CheckoutJob(_) => Checkouts
    case RefundJob(_) => Refunds
    case PaymentJob(_) => Payments
  }

  predicate Linked(r: Resources, o: OrderId) {
    exists c :: c in r.checkouts && r.checkouts[c].payment == Some(o)
  }

  /** Lines 8-20: an unprocessed webhook, any checkout, an unsettled refund, a provider payment that
      no checkout points at. */
  predicate CallsForWork(r: Resources, id: JobId) {
    match id
    case WebhookJob(e) => e in r.webhooks && !r.webhooks[e]
    case CheckoutJob(c) => c in r.checkouts
    case RefundJob(o) => o in r.refunds && !(r.refunds[o].status in {Processed, Rejected})
    case PaymentJob(o) => o in r.payments && o.GatewayOrder? && !Linked(r, o)
  }

  /** The rows one of the four statements selects. */
  function SourcesOf(r: Resources, kind: Kind): set<JobId> {
    match kind
    case Webhooks => set e | e in r.webhooks && !r.webhooks[e] :: WebhookJob(e)
    case Checkouts => set c | c in r.checkouts :: CheckoutJob(c)
    case Refunds => set o | o in r.refunds && r.refunds[o].status != Processed && r.refunds[o].status != Rejected :: RefundJob(o)
    case Payments => set o | o in r.payments && o.GatewayOrder? && (forall c :: c in r.checkouts ==> r.checkouts[c].payment != Some(o)) :: PaymentJob(o)
  }

  lemma SourcesCall(r: Resources, kind: Kind, id: JobId)
    ensures id in SourcesOf(r, kind) <==> KindOf(id) == kind && CallsForWork(r, id)
  {
  }

  function UserOf(r: Resources, id: JobId): Option<UserId> {
    match id
    case WebhookJob(_) => None
    case CheckoutJob(c) => if c in r.checkouts then Some(r.checkouts[c].user) else None
    case RefundJob(o) => if o in r.refunds then Some(r.refunds[o].user) else None
    case PaymentJob(o) => if o in r.payments then Some(r.payments[o]) else None
  }

  // Lines 51-74: what a worker does with a job

  datatype Finish = Resolved | Reschedule(delay: Time, review: bool) | Retry(retryAfter: real)

  datatype SourceStatus = SettledCharge | NotCreated | Undecided

  /** How the call into the billing service ends. Only a checkout or a payment has an outcome, a mark
      for review and an age. */
  datatype Answer = Threw(retryAfter: real) | Returned(outcome: SourceStatus, review: bool, age: Time)

  /** A worker reads once or twice before it calls the billing service, and then decides. */
  datatype Phase = Holding | Found | Calling | Decided(finish: Finish)

  /** Line 64: the checkout or the payment is there. */
  predicate HasSource(r: Resources, id: JobId) {
    match id
    case CheckoutJob(c) => c in r.checkouts
    case PaymentJob(o) => o in r.payments
    case _ => false
  }

  /** One read: the event (line 54) and again by the service (line 326), the refund (line 59), the
      user (line 63) and then the source (line 64). */
  function Read(id: JobId, user: Option<UserId>, phase: Phase, r: Resources): Phase {
    match id
    case WebhookJob(e) =>
      if phase == Holding then if e in r.webhooks && !r.webhooks[e] then Found else Decided(Resolved)
      else if e in r.webhooks && r.webhooks[e] then Decided(Resolved) else Calling
    case RefundJob(o) => if o in r.refunds then Calling else Decided(Resolved)
    case _ =>
      if phase == Holding then if user.Some? && user.value in r.users then Found else Decided(Resolved)
      else if HasSource(r, id) then Calling else Decided(Resolved)
  }

  /** Line 328: the service stores an event it does not know. */
  function Stored(r: Resources, id: JobId, phase: Phase): Resources {
    if id.WebhookJob? && phase == Found && id.event !in r.webhooks then r.(webhooks := r.webhooks[id.event := false]) else r
  }

  /** What the worker decides when the call is over: `r` is what the service read last. */
  function Conclude(id: JobId, r: Resources, answer: Answer): Finish {
    if answer.Threw? then Retry(answer.retryAfter)
    else match id
      case WebhookJob(e) => if e in r.webhooks then Resolved else Retry(0.0)
      case RefundJob(o) =>
        if o !in r.refunds then Retry(0.0)
        else if r.refunds[o].status in {Processed, Rejected} then Resolved
        else Reschedule(60000, false)
      case _ =>
        var terminal := answer.outcome != Undecided;
        Reschedule(if terminal then DAY else 300000, answer.review || (!terminal && answer.age > DAY))
  }

  /** Line 345: the event of a call that succeeded is processed. */
  function Marked(r: Resources, id: JobId, answer: Answer): Resources {
    if id.WebhookJob? && answer.Returned? && id.event in r.webhooks then r.(webhooks := r.webhooks[id.event := true]) else r
  }

  /** The foreign keys: a checkout or payment has its user. */
  ghost predicate Sound(r: Resources) {
    && (forall c :: c in r.checkouts ==> r.checkouts[c].user in r.users && CheckoutJob(c) in r.ever)
    && (forall o :: o in r.payments ==> r.payments[o] in r.users && PaymentJob(o) in r.ever)
  }

  /** A job was seeded from a resource, and carries its user. */
  ghost predicate KnownTo(r: Resources, id: JobId, user: Option<UserId>) {
    match id
    case WebhookJob(e) => e in r.webhooks
    case CheckoutJob(c) => id in r.ever && (c in r.checkouts ==> user == Some(r.checkouts[c].user))
    case PaymentJob(o) => id in r.ever && (o in r.payments ==> user == Some(r.payments[o]))
    case RefundJob(_) => true
  }

  /** What a decision to drop the job has seen. A refund that failed can still move again. */
  ghost predicate Gone(r: Resources, id: JobId) {
    match id
    case WebhookJob(e) => e in r.webhooks && r.webhooks[e]
    case CheckoutJob(c) => c !in r.checkouts
    case PaymentJob(o) => o !in r.payments
    case RefundJob(_) => true
  }

  /** A worker that finds its job done has read that its resource calls for nothing. */
  lemma ReadResolves(id: JobId, user: Option<UserId>, phase: Phase, r: Resources)
    requires Sound(r) && KnownTo(r, id, user) && Read(id, user, phase, r) == Decided(Resolved)
    ensures !CallsForWork(r, id) && Gone(r, id)
  {
  }

  /** So has one that decides after the call, once the event is marked. */
  lemma ConcludeResolves(id: JobId, r: Resources, answer: Answer)
    requires Conclude(id, r, answer) == Resolved
    ensures !CallsForWork(Marked(r, id, answer), id) && Gone(Marked(r, id, answer), id)
  {
  }

  /** What becomes of a job and its resource: `first` and `second` are what the worker's two reads see,
      `last` what the billing service sees when the call ends. */
  function Worked(id: JobId, user: Option<UserId>, first: Resources, second: Resources, last: Resources, answer: Answer): (Finish, Resources) {
    var one := Read(id, user, Holding, first);
    var two := if one == Found then Read(id, user, Found, second) else one;
    if two.Decided? then (two.finish, last) else (Conclude(id, last, answer), Marked(last, id, answer))
  }

  /** A dropped job called for nothing at one of the moments the worker looked. One that called for
      nothing at each of them is dropped when the call succeeds, unless it is of a payment: that one
      comes back every day as long as the payment is there. */
  method RunJob(id: JobId, user: Option<UserId>, first: Resources, second: Resources, last: Resources, answer: Answer)
    returns (finish: Finish, after: Resources)
    requires Sound(first) && KnownTo(first, id, user)
    ensures (finish, after) == Worked(id, user, first, second, last, answer)
    ensures finish == Resolved ==> !CallsForWork(first, id) || !CallsForWork(second, id) || !CallsForWork(after, id)
    ensures (answer.Returned? && !id.PaymentJob? && (id.RefundJob? ==> id.refunded in last.refunds)
             && !CallsForWork(first, id) && !CallsForWork(second, id) && !CallsForWork(last, id)) ==> finish == Resolved
    ensures finish.Reschedule? ==> 60000 <= finish.delay <= DAY
  {
    after := last;
    match id
    case WebhookJob(e) =>
      if e in first.webhooks && !first.webhooks[e] {
        if !(e in second.webhooks && second.webhooks[e]) {
          if answer.Threw? {
            return Retry(answer.retryAfter), last;
          }
          if e !in last.webhooks {
            return Retry(0.0), last;
          }
          after := last.(webhooks := last.webhooks[e := true]);
        }
      }
      return Resolved, after;
    case RefundJob(o) =>
      if o !in first.refunds {
        return Resolved, last;
      }
      if answer.Threw? {
        return Retry(answer.retryAfter), last;
      }
      if o !in last.refunds {
        return Retry(0.0), last;
      }
      return if last.refunds[o].status in {Processed, Rejected} then Resolved else Reschedule(60000, false), last;
    case _ =>
      if user.None? || user.value !in first.users {
        return Resolved, last;
      }
      if !HasSource(second, id) {
        return Resolved, last;
      }
      if answer.Threw? {
        return Retry(answer.retryAfter), last;
      }
      var terminal := answer.outcome != Undecided;
      return Reschedule(if terminal then DAY else 300000, answer.review || (!terminal && answer.age > DAY)), last;
  }

  // The statements on the job table

  type Jobs = map<JobId, Job>

  function NewJob(r: Resources, id: JobId, now: Time): Job {
    Job(UserOf(r, id), now, None, None, 0, false)
  }

  function Inserted(jobs: Jobs, r: Resources, kind: Kind, now: Time): Jobs {
    (map id | id in SourcesOf(r, kind) :: NewJob(r, id, now)) + jobs
  }

  predicate Claimable(job: Job, now: Time) {
    job.due <= now && (job.leaseUntil.None? || job.leaseUntil.value < now)
  }

  function Claimed(jobs: Jobs, id: JobId, token: Token, now: Time): Jobs
    requires id in jobs
  {
    jobs[id := jobs[id].(token := Some(token), leaseUntil := Some(now + LEASE))]
  }

  /** Lines 40-49; `failures` is what the worker read when it claimed the row. */
  function Finished(jobs: Jobs, id: JobId, token: Token, failures: nat, finish: Finish, now: Time, random: real): Jobs {
    if id !in jobs || jobs[id].token != Some(token) then jobs
    else match finish
      case Resolved => map k | k in jobs && k != id :: jobs[k]
      case Reschedule(delay, review) => jobs[id := Job(jobs[id].user, now + delay, None, None, 0, review)]
      case Retry(retryAfter) =>
        jobs[id := Job(jobs[id].user, now + RecoveryDelay(failures + 1, retryAfter, random).Floor, None, None, failures + 1, failures + 1 >= 8)]
  }

  function Retried(jobs: Jobs, id: JobId, now: Time): Jobs {
    if id in jobs && (jobs[id].leaseUntil.None? || jobs[id].leaseUntil.value < now)
    then jobs[id := jobs[id].(due := now, failures := 0)] else jobs
  }

  // Line 29: the order in which due rows are taken

  function KindRank(id: JobId): nat {
    match id
    case CheckoutJob(_) => 0
    case PaymentJob(_) => 1
    case RefundJob(_) => 2
    case WebhookJob(_) => 3
  }

  /** Job ids begin with their kind; within a kind they are compared as the resources' ids are. */
  predicate JobBelow(a: JobId, b: JobId) {
    match (a, b)
    case (CheckoutJob(x), CheckoutJob(y)) => x < y
    case (PaymentJob(x), PaymentJob(y)) => IdBelow(x, y)
    case (RefundJob(x), RefundJob(y)) => IdBelow(x, y)
    case (WebhookJob(x), WebhookJob(y)) => x < y
    case _ => KindRank(a) < KindRank(b)
  }

  predicate DueBefore(jobs: Jobs, a: JobId, b: JobId)
    requires a in jobs && b in jobs
  {
    jobs[a].due < jobs[b].due || (jobs[a].due == jobs[b].due && JobBelow(a, b))
  }

  predicate Wanted(onlyId: Option<JobId>, id: JobId) {
    onlyId.None? || onlyId.value == id
  }

  /** The table with its writers. */
  class RecoveryQueue {
    var jobs: Jobs

    constructor ()
      ensures jobs == map[]
    {
      jobs := map[];
    }

    /** Lines 7-21: four statements, one after the other, each on what it sees. Every resource that
        calls for work has a row afterwards, nothing else gets one, and a row that is there stays. */
    method Seed(seen: Kind -> Resources, now: Time)
      modifies this
      ensures forall id :: id in jobs <==> id in old(jobs) || CallsForWork(seen(KindOf(id)), id)
      ensures forall id :: id in old(jobs) ==> jobs[id] == old(jobs)[id]
      ensures forall id :: id in jobs && id !in old(jobs) ==> jobs[id] == Job(UserOf(seen(KindOf(id)), id), now, None, None, 0, false)
    {
      InsertMissing(seen(Webhooks), Webhooks, now);
      InsertMissing(seen(Checkouts), Checkouts, now);
      InsertMissing(seen(Refunds), Refunds, now);
      InsertMissing(seen(Payments), Payments, now);
      forall id, kind {
        SourcesCall(seen(kind), kind, id);
      }
    }

    /** INSERT ... SELECT ... ON CONFLICT (id) DO NOTHING. */
    method InsertMissing(r: Resources, kind: Kind, now: Time)
      modifies this
      ensures jobs == Inserted(old(jobs), r, kind, now)
    {
      hide UserOf, SourcesOf;
      var rest := SourcesOf(r, kind);
      while rest != {}
        invariant rest <= SourcesOf(r, kind)
        invariant jobs == (map id | id in SourcesOf(r, kind) - rest :: NewJob(r, id, now)) + old(jobs)
        decreases |rest|
      {
        var id :| id in rest;
        rest := rest - {id};
        if id !in jobs {
          jobs := jobs[id := Job(UserOf(r, id), now, None, None, 0, false)];
        }
      }
    }

    /** Lines 23-34: the claimable row that has been due the longest, the first by id among equals. */
    method Claim(onlyId: Option<JobId>, token: Token, now: Time) returns (job: Option<(JobId, Job)>)
      modifies this
      ensures job.None? ==> jobs == old(jobs) && forall id :: id in jobs && Wanted(onlyId, id) ==> !Claimable(jobs[id], now)
      ensures job.Some? ==>
        var id := job.value.0;
        && id in old(jobs) && Claimable(old(jobs)[id], now) && Wanted(onlyId, id)
        && jobs == Claimed(old(jobs), id, token, now) && job.value.1 == jobs[id]
        && forall k :: k in old(jobs) && Claimable(old(jobs)[k], now) && Wanted(onlyId, k) && k != id ==> DueBefore(old(jobs), id, k)
    {
      var best: Option<JobId> := None;
      var rest := jobs.Keys;
      while rest != {}
        invariant rest <= jobs.Keys && jobs == old(jobs)
        invariant best.None? ==> forall k :: k in jobs && k !in rest && Wanted(onlyId, k) ==> !Claimable(jobs[k], now)
        invariant best.Some? ==>
          && best.value in jobs && Claimable(jobs[best.value], now) && Wanted(onlyId, best.value) && best.value !in rest
          && forall k :: k in jobs && k !in rest && Claimable(jobs[k], now) && Wanted(onlyId, k) && k != best.value ==>
               DueBefore(jobs, best.value, k)
        decreases |rest|
      {
        var k :| k in rest;
        rest := rest - {k};
        if Wanted(onlyId, k) && Claimable(jobs[k], now) && (best.None? || DueBefore(jobs, k, best.value)) {
          best := Some(k);
        }
      }
      if best.None? {
        return None;
      }
      var id := best.value;
      jobs := jobs[id := jobs[id].(token := Some(token), leaseUntil := Some(now + LEASE))];
      return Some((id, jobs[id]));
    }

    method Finish(id: JobId, job: Job, finish: Finish, now: Time, random: real)
      requires job.token.Some? && 0.0 <= random < 1.0
      modifies this
      ensures jobs == Finished(old(jobs), id, job.token.value, job.failures, finish, now, random)
    {
      if id in jobs && jobs[id].token == job.token {
        match finish
        case Resolved =>
          jobs := map k | k in jobs && k != id :: jobs[k];
        case Reschedule(delay, review) =>
          jobs := jobs[id := Job(jobs[id].user, now + delay, None, None, 0, review)];
        case Retry(retryAfter) =>
          var failures := job.failures + 1;
          var due := now + RecoveryDelay(failures, retryAfter, random).Floor;
          jobs := jobs[id := Job(jobs[id].user, due, None, None, failures, failures >= 8)];
      }
    }

    /** The administrator's retry: nothing happens while a worker holds the row. */
    method RetryNow(id: JobId, now: Time) returns (scheduled: bool)
      modifies this
      ensures jobs == Retried(old(jobs), id, now)
      ensures scheduled <==> id in old(jobs) && (old(jobs)[id].leaseUntil.None? || old(jobs)[id].leaseUntil.value < now)
    {
      scheduled := id in jobs && (jobs[id].leaseUntil.None? || jobs[id].leaseUntil.value < now);
      if scheduled {
        jobs := jobs[id := jobs[id].(due := now, failures := 0)];
      }
    }
  }
}
