/** Any number of recovery workers, crashes and administrator retries on one job table, while the
    resources that call for recovery change under them. */
module RecoveryRuns {
  import opened BillingTypes
  import opened Recovery

  /** A claim and how far its worker got. The token of the i-th claim is i: tokens are unique. */
  datatype Claim = Claim(id: JobId, user: Option<UserId>, at: Time, failures: nat, phase: Phase, finished: bool) {
    function Until(): Time { at + LEASE }
  }

  datatype Queue = Queue(now: Time, jobs: Jobs, claims: seq<Claim>, resources: Resources)

  datatype Step =
    | Tick(elapsed: nat)
    | Change(to: Resources)
    | Insert(kind: Kind)
    | Take(id: JobId)
    | Look(i: nat)
    | Answered(i: nat, answer: Answer)
    | Write(i: nat, random: real)
    | AdminRetry(id: JobId)

  /** What anybody else may do to the resources. Events are never dropped and stay processed, ids are
      not used twice, and no row changes its user. */
  ghost predicate Moves(a: Resources, b: Resources) {
    && Sound(b) && a.ever <= b.ever
    && (forall e :: e in a.webhooks ==> e in b.webhooks && (a.webhooks[e] ==> b.webhooks[e]))
    && (forall c :: c in b.checkouts && c in a.checkouts ==> b.checkouts[c].user == a.checkouts[c].user)
    && (forall c :: c in b.checkouts && c !in a.checkouts ==> CheckoutJob(c) !in a.ever)
    && (forall o :: o in b.payments && o in a.payments ==> b.payments[o] == a.payments[o])
    && (forall o :: o in b.payments && o !in a.payments ==> PaymentJob(o) !in a.ever)
  }

  ghost predicate Enabled(q: Queue, step: Step) {
    match step
    case Tick(_) => true
    case Change(to) => Moves(q.resources, to)
    case Insert(_) => true
    case Take(id) => id in q.jobs && Claimable(q.jobs[id], q.now)
    case Look(i) => i < |q.claims| && (q.claims[i].phase == Holding || q.claims[i].phase == Found)
    case Answered(i, answer) => i < |q.claims| && q.claims[i].phase == Calling
    case Write(i, random) => i < |q.claims| && q.claims[i].phase.Decided? && !q.claims[i].finished && 0.0 <= random < 1.0
    case AdminRetry(_) => true
  }

  ghost function Apply(q: Queue, step: Step): Queue
    requires Enabled(q, step)
  {
    match step
    case Tick(elapsed) => q.(now := q.now + elapsed)
    case Change(to) => q.(resources := to)
    case Insert(kind) => q.(jobs := Inserted(q.jobs, q.resources, kind, q.now))
    case Take(id) =>
      q.(jobs := Claimed(q.jobs, id, |q.claims|, q.now),
         claims := q.claims + [Claim(id, q.jobs[id].user, q.now, q.jobs[id].failures, Holding, false)])
    case Look(i) =>
      var c := q.claims[i];
      q.(claims := q.claims[i := c.(phase := Read(c.id, c.user, c.phase, q.resources))],
         resources := Stored(q.resources, c.id, c.phase))
    case Answered(i, answer) =>
      var c := q.claims[i];
      q.(claims := q.claims[i := c.(phase := Decided(Conclude(c.id, q.resources, answer)))],
         resources := Marked(q.resources, c.id, answer))
    case Write(i, random) =>
      var c := q.claims[i];
      q.(jobs := Finished(q.jobs, c.id, i, c.failures, c.phase.finish, q.now, random), claims := q.claims[i := c.(finished := true)])
    case AdminRetry(id) => q.(jobs := Retried(q.jobs, id, q.now))
  }

  // What every run keeps

  /** The row of a held job carries the token and the lease of the latest claim on it. */
  ghost predicate HeldByLatest(q: Queue) {
    forall id :: id in q.jobs && (q.jobs[id].token.Some? || q.jobs[id].leaseUntil.Some?) ==>
      && q.jobs[id].token.Some? && q.jobs[id].token.value < |q.claims|
      && q.claims[q.jobs[id].token.value].id == id && !q.claims[q.jobs[id].token.value].finished
      && q.jobs[id].leaseUntil == Some(q.claims[q.jobs[id].token.value].Until())
      && forall j :: q.jobs[id].token.value < j < |q.claims| ==> q.claims[j].id != id
  }

  /** A claim that is not finished holds its row, or its lease has run out. */
  ghost predicate HoldsOrExpired(q: Queue) {
    forall i :: 0 <= i < |q.claims| && !q.claims[i].finished ==>
      || q.claims[i].Until() < q.now
      || (q.claims[i].id in q.jobs && q.jobs[q.claims[i].id].token == Some(i))
  }

  ghost predicate NoOverlap(q: Queue) {
    forall i, j :: 0 <= i < j < |q.claims| && q.claims[i].id == q.claims[j].id && !q.claims[i].finished ==>
      q.claims[i].Until() < q.claims[j].at
  }

  ghost predicate Timely(q: Queue) {
    && (forall i :: 0 <= i < |q.claims| ==> q.claims[i].at <= q.now)
    && (forall i :: 0 <= i < |q.claims| && q.claims[i].phase.Decided? && q.claims[i].phase.finish.Reschedule? ==>
          0 <= q.claims[i].phase.finish.delay <= DAY)
    && (forall id :: id in q.jobs ==> q.jobs[id].due <= q.now + DAY)
  }

  /** Jobs and claims come from resources, and carry their users. */
  ghost predicate Seeded(q: Queue) {
    && Sound(q.resources)
    && (forall id :: id in q.jobs ==> KnownTo(q.resources, id, q.jobs[id].user))
    && (forall i :: 0 <= i < |q.claims| ==> KnownTo(q.resources, q.claims[i].id, q.claims[i].user))
  }

  /** A decision to drop a job stays right. */
  ghost predicate ResolvedIsGone(q: Queue) {
    forall i :: 0 <= i < |q.claims| && q.claims[i].phase == Decided(Resolved) ==> Gone(q.resources, q.claims[i].id)
  }

  ghost predicate Inv(q: Queue) {
    HeldByLatest(q) && HoldsOrExpired(q) && NoOverlap(q) && Timely(q) && Seeded(q) && ResolvedIsGone(q)
  }

  // The resources

  lemma KnownStays(a: Resources, b: Resources, id: JobId, user: Option<UserId>)
    requires Moves(a, b) && KnownTo(a, id, user)
    ensures KnownTo(b, id, user) && (Gone(a, id) ==> Gone(b, id))
  {
  }

  lemma StoredMoves(r: Resources, id: JobId, phase: Phase)
    requires Sound(r)
    ensures Moves(r, Stored(r, id, phase))
  {
  }

  lemma MarkedMoves(r: Resources, id: JobId, answer: Answer)
    requires Sound(r)
    ensures Moves(r, Marked(r, id, answer))
  {
  }

  /** Whoever moves the resources, jobs stay known and decisions stay right. */
  lemma MoveKeeps(q: Queue, to: Resources)
    requires Seeded(q) && ResolvedIsGone(q) && Moves(q.resources, to)
    ensures Seeded(q.(resources := to)) && ResolvedIsGone(q.(resources := to))
  {
    hide KnownTo, Gone, Moves, Sound;
    assert Sound(to) by {
      MovesToSound(q.resources, to);
    }
    forall id | id in q.jobs
      ensures KnownTo(to, id, q.jobs[id].user)
    {
      KnownStays(q.resources, to, id, q.jobs[id].user);
    }
    forall i | 0 <= i < |q.claims|
      ensures KnownTo(to, q.claims[i].id, q.claims[i].user)
      ensures q.claims[i].phase == Decided(Resolved) ==> Gone(to, q.claims[i].id)
    {
      KnownStays(q.resources, to, q.claims[i].id, q.claims[i].user);
    }
  }

  lemma MovesToSound(a: Resources, b: Resources)
    requires Moves(a, b)
    ensures Sound(b)
  {
  }

  lemma NewJobIsKnown(r: Resources, kind: Kind, id: JobId, now: Time)
    requires Sound(r) && id in SourcesOf(r, kind)
    ensures KnownTo(r, id, NewJob(r, id, now).user)
  {
  }

  // Inserting rows

  lemma InsertFrame(q: Queue, kind: Kind)
    ensures var r := Apply(q, Insert(kind));
            && (forall id :: id in r.jobs && id !in q.jobs ==> id in SourcesOf(q.resources, kind) && r.jobs[id] == NewJob(q.resources, id, q.now))
            && (forall id :: id in q.jobs ==> id in r.jobs && r.jobs[id] == q.jobs[id])
  {
    hide SourcesOf, UserOf;
  }

  lemma InsertKeepsLeases(q: Queue, kind: Kind)
    requires HeldByLatest(q) && HoldsOrExpired(q) && NoOverlap(q) && Timely(q)
    ensures var r := Apply(q, Insert(kind)); HeldByLatest(r) && HoldsOrExpired(r) && NoOverlap(r) && Timely(r)
  {
    hide SourcesOf, UserOf, Inserted;
    InsertFrame(q, kind);
  }

  lemma InsertKeepsSeeded(q: Queue, kind: Kind)
    requires Seeded(q) && ResolvedIsGone(q)
    ensures var r := Apply(q, Insert(kind)); Seeded(r) && ResolvedIsGone(r)
  {
    hide Sound, KnownTo, Gone, SourcesOf, UserOf, NewJob, Inserted;
    InsertFrame(q, kind);
    var r := Apply(q, Insert(kind));
    forall id | id in r.jobs
      ensures KnownTo(r.resources, id, r.jobs[id].user)
    {
      if id !in q.jobs {
        NewJobIsKnown(q.resources, kind, id, q.now);
      }
    }
  }

  lemma InsertKeepsInv(q: Queue, kind: Kind)
    requires Inv(q)
    ensures Inv(Apply(q, Insert(kind)))
  {
    hide HeldByLatest, HoldsOrExpired, Timely, Seeded, ResolvedIsGone, NoOverlap, Inserted;
    InsertKeepsLeases(q, kind);
    InsertKeepsSeeded(q, kind);
  }

  // Claiming

  lemma TakeKeepsHolders(q: Queue, id: JobId)
    requires HeldByLatest(q) && Enabled(q, Take(id))
    ensures HeldByLatest(Apply(q, Take(id)))
  {
    var r := Apply(q, Take(id));
    forall k | k in r.jobs && k != id && (r.jobs[k].token.Some? || r.jobs[k].leaseUntil.Some?)
      ensures r.claims[r.jobs[k].token.value] == q.claims[q.jobs[k].token.value]
      ensures forall j :: r.jobs[k].token.value < j < |r.claims| ==> r.claims[j].id != k
    {
    }
  }

  lemma TakeKeepsClaims(q: Queue, id: JobId)
    requires HeldByLatest(q) && HoldsOrExpired(q) && Timely(q) && Seeded(q) && ResolvedIsGone(q) && Enabled(q, Take(id))
    ensures var r := Apply(q, Take(id)); HoldsOrExpired(r) && Timely(r) && Seeded(r) && ResolvedIsGone(r)
  {
    hide Sound, KnownTo, Gone;
    var r := Apply(q, Take(id));
    assert forall i :: 0 <= i < |q.claims| ==> r.claims[i] == q.claims[i];
  }

  lemma TakeKeepsNoOverlap(q: Queue, id: JobId)
    requires HeldByLatest(q) && HoldsOrExpired(q) && NoOverlap(q) && Enabled(q, Take(id))
    ensures NoOverlap(Apply(q, Take(id)))
  {
    var r := Apply(q, Take(id));
    forall i, j | 0 <= i < j < |r.claims| && r.claims[i].id == r.claims[j].id && !r.claims[i].finished
      ensures r.claims[i].Until() < r.claims[j].at
    {
      assert r.claims[i] == q.claims[i];
      if j < |q.claims| {
        assert r.claims[j] == q.claims[j];
      }
    }
  }

  lemma TakeKeepsInv(q: Queue, id: JobId)
    requires Inv(q) && Enabled(q, Take(id))
    ensures Inv(Apply(q, Take(id)))
  {
    hide HeldByLatest, HoldsOrExpired, Timely, Seeded, ResolvedIsGone, NoOverlap;
    TakeKeepsHolders(q, id);
    TakeKeepsClaims(q, id);
    TakeKeepsNoOverlap(q, id);
  }

  // Working

  /** A worker that gets further touches neither the rows nor the other claims. */
  lemma PhaseKeepsLeases(q: Queue, i: nat, phase: Phase)
    requires HeldByLatest(q) && HoldsOrExpired(q) && NoOverlap(q) && Timely(q) && i < |q.claims|
    requires phase.Decided? && phase.finish.Reschedule? ==> 0 <= phase.finish.delay <= DAY
    ensures var r := q.(claims := q.claims[i := q.claims[i].(phase := phase)]);
            HeldByLatest(r) && HoldsOrExpired(r) && NoOverlap(r) && Timely(r)
  {
    var r := q.(claims := q.claims[i := q.claims[i].(phase := phase)]);
    assert forall k :: 0 <= k < |q.claims| ==> r.claims[k] == q.claims[k].(phase := r.claims[k].phase);
  }

  lemma PhaseKeepsSeeded(q: Queue, i: nat, phase: Phase)
    requires Seeded(q) && ResolvedIsGone(q) && i < |q.claims|
    requires phase == Decided(Resolved) ==> Gone(q.resources, q.claims[i].id)
    ensures var r := q.(claims := q.claims[i := q.claims[i].(phase := phase)]); Seeded(r) && ResolvedIsGone(r)
  {
    hide Sound, KnownTo, Gone;
    var r := q.(claims := q.claims[i := q.claims[i].(phase := phase)]);
    assert forall k :: 0 <= k < |q.claims| ==> r.claims[k] == q.claims[k].(phase := r.claims[k].phase);
  }

  /** A worker gets further and the resources move with it. */
  lemma AdvanceKeepsInv(q: Queue, i: nat, phase: Phase, to: Resources)
    requires Inv(q) && i < |q.claims| && Moves(q.resources, to)
    requires phase == Decided(Resolved) ==> Gone(to, q.claims[i].id)
    requires phase.Decided? && phase.finish.Reschedule? ==> 0 <= phase.finish.delay <= DAY
    ensures Inv(q.(claims := q.claims[i := q.claims[i].(phase := phase)], resources := to))
  {
    hide Gone, Moves, Seeded, ResolvedIsGone;
    PhaseKeepsLeases(q, i, phase);
    MoveKeeps(q, to);
    PhaseKeepsSeeded(q.(resources := to), i, phase);
  }

  lemma LookKeepsInv(q: Queue, i: nat)
    requires Inv(q) && Enabled(q, Look(i))
    ensures Inv(Apply(q, Look(i)))
  {
    hide Inv, Gone, Moves, Sound, KnownTo, Stored, CallsForWork;
    var c := q.claims[i];
    ClaimIsKnown(q, i);
    StoredMoves(q.resources, c.id, c.phase);
    var phase := Read(c.id, c.user, c.phase, q.resources);
    if phase == Decided(Resolved) {
      ReadResolves(c.id, c.user, c.phase, q.resources);
      KnownStays(q.resources, Stored(q.resources, c.id, c.phase), c.id, c.user);
    }
    AdvanceKeepsInv(q, i, phase, Stored(q.resources, c.id, c.phase));
  }

  lemma ClaimIsKnown(q: Queue, i: nat)
    requires Inv(q) && i < |q.claims|
    ensures Sound(q.resources) && KnownTo(q.resources, q.claims[i].id, q.claims[i].user)
  {
  }

  lemma AnswerKeepsInv(q: Queue, i: nat, answer: Answer)
    requires Inv(q) && Enabled(q, Answered(i, answer))
    ensures Inv(Apply(q, Answered(i, answer)))
  {
    hide Inv, Gone, Moves, Sound, KnownTo, Marked, CallsForWork;
    var c := q.claims[i];
    ClaimIsKnown(q, i);
    MarkedMoves(q.resources, c.id, answer);
    var finish := Conclude(c.id, q.resources, answer);
    if finish == Resolved {
      ConcludeResolves(c.id, q.resources, answer);
    }
    AdvanceKeepsInv(q, i, Decided(finish), Marked(q.resources, c.id, answer));
  }

  // Finishing

  lemma WriteKeepsTimely(q: Queue, i: nat, random: real)
    requires Timely(q) && Enabled(q, Write(i, random))
    ensures Timely(Apply(q, Write(i, random)))
  {
    var c := q.claims[i];
    if c.phase.finish.Retry? {
      DelayBounded(c.failures + 1, c.phase.finish.retryAfter, random);
    }
  }

  lemma WriteFrame(q: Queue, i: nat, random: real)
    requires Enabled(q, Write(i, random))
    ensures var r := Apply(q, Write(i, random));
            && |r.claims| == |q.claims| && r.now == q.now && r.claims[i] == q.claims[i].(finished := true)
            && r.resources == q.resources
            && (forall k :: 0 <= k < |q.claims| && k != i ==> r.claims[k] == q.claims[k])
            && (forall id :: id in q.jobs && id != q.claims[i].id ==> id in r.jobs && r.jobs[id] == q.jobs[id])
            && (forall id :: id in r.jobs && id != q.claims[i].id ==> id in q.jobs)
            && (q.claims[i].id in r.jobs ==>
                  && q.claims[i].id in q.jobs && r.jobs[q.claims[i].id].user == q.jobs[q.claims[i].id].user
                  && if q.jobs[q.claims[i].id].token == Some(i)
                     then r.jobs[q.claims[i].id].token.None? && r.jobs[q.claims[i].id].leaseUntil.None?
                     else r.jobs[q.claims[i].id] == q.jobs[q.claims[i].id])
            && (q.claims[i].id in q.jobs && q.claims[i].id !in r.jobs <==>
                  q.claims[i].id in q.jobs && q.jobs[q.claims[i].id].token == Some(i) && q.claims[i].phase.finish == Resolved)
  {
  }

  lemma WriteKeepsHolders(q: Queue, i: nat, random: real)
    requires HeldByLatest(q) && Enabled(q, Write(i, random))
    ensures HeldByLatest(Apply(q, Write(i, random)))
  {
    hide Finished;
    WriteFrame(q, i, random);
  }

  lemma WriteKeepsClaims(q: Queue, i: nat, random: real)
    requires HoldsOrExpired(q) && NoOverlap(q) && Enabled(q, Write(i, random))
    ensures HoldsOrExpired(Apply(q, Write(i, random))) && NoOverlap(Apply(q, Write(i, random)))
  {
    hide Finished;
    WriteFrame(q, i, random);
  }

  lemma WriteKeepsSeeded(q: Queue, i: nat, random: real)
    requires Seeded(q) && ResolvedIsGone(q) && Enabled(q, Write(i, random))
    ensures Seeded(Apply(q, Write(i, random))) && ResolvedIsGone(Apply(q, Write(i, random)))
  {
    hide Finished, Sound, KnownTo, Gone;
    WriteFrame(q, i, random);
  }

  lemma WriteKeepsInv(q: Queue, i: nat, random: real)
    requires Inv(q) && Enabled(q, Write(i, random))
    ensures Inv(Apply(q, Write(i, random)))
  {
    hide HeldByLatest, HoldsOrExpired, Timely, Seeded, ResolvedIsGone, NoOverlap;
    WriteKeepsTimely(q, i, random);
    WriteKeepsHolders(q, i, random);
    WriteKeepsClaims(q, i, random);
    WriteKeepsSeeded(q, i, random);
  }

  lemma AdminKeepsInv(q: Queue, id: JobId)
    requires Inv(q)
    ensures Inv(Apply(q, AdminRetry(id)))
  {
    hide Sound, KnownTo, Gone;
  }

  lemma TickKeepsInv(q: Queue, elapsed: nat)
    requires Inv(q)
    ensures Inv(Apply(q, Tick(elapsed)))
  {
    hide Sound, KnownTo, Gone;
  }

  lemma ChangeKeepsInv(q: Queue, to: Resources)
    requires Inv(q) && Enabled(q, Change(to))
    ensures Inv(Apply(q, Change(to)))
  {
    hide Moves, Seeded, ResolvedIsGone;
    MoveKeeps(q, to);
  }

  lemma StepKeepsInv(q: Queue, step: Step)
    requires Inv(q) && Enabled(q, step)
    ensures Inv(Apply(q, step))
  {
    hide Inv, Enabled, Apply;
    match step
    case Tick(elapsed) => TickKeepsInv(q, elapsed);
    case Change(to) => ChangeKeepsInv(q, to);
    case Insert(kind) => InsertKeepsInv(q, kind);
    case Take(id) => TakeKeepsInv(q, id);
    case Look(i) => LookKeepsInv(q, i);
    case Answered(i, answer) => AnswerKeepsInv(q, i, answer);
    case Write(i, random) => WriteKeepsInv(q, i, random);
    case AdminRetry(id) => AdminKeepsInv(q, id);
  }

  // Runs from an empty table

  ghost predicate Init(q: Queue) {
    q.jobs == map[] && q.claims == [] && Sound(q.resources)
  }

  ghost predicate CanRun(q: Queue, run: seq<Step>)
    decreases |run|
  {
    run == [] || (Enabled(q, run[0]) && CanRun(Apply(q, run[0]), run[1..]))
  }

  ghost function Run(q: Queue, run: seq<Step>): Queue
    requires CanRun(q, run)
    decreases |run|
  {
    if run == [] then q else Run(Apply(q, run[0]), run[1..])
  }

  ghost predicate Reachable(q: Queue) {
    exists start: Queue, run: seq<Step> :: Init(start) && CanRun(start, run) && Run(start, run) == q
  }

  lemma {:induction false} RunKeepsInv(q: Queue, run: seq<Step>)
    requires Inv(q) && CanRun(q, run)
    ensures Inv(Run(q, run))
    decreases |run|
  {
    hide Inv, Enabled, Apply;
    if run != [] {
      StepKeepsInv(q, run[0]);
      RunKeepsInv(Apply(q, run[0]), run[1..]);
    }
  }

  lemma InitHasInv(q: Queue)
    requires Init(q)
    ensures Inv(q)
  {
    hide Sound;
  }

  lemma ReachableHasInv(q: Queue)
    requires Reachable(q)
    ensures Inv(q)
  {
    hide Inv, Init, CanRun, Run;
    var start: Queue, run: seq<Step> :| Init(start) && CanRun(start, run) && Run(start, run) == q;
    InitHasInv(start);
    RunKeepsInv(start, run);
  }

  // The promises

  /** Fencing: a finish changes the table only if its worker made the latest claim on that row. */
  lemma OnlyTheLatestWrites(q: Queue, i: nat, random: real)
    requires Reachable(q) && Enabled(q, Write(i, random))
    ensures Apply(q, Write(i, random)).jobs != q.jobs ==> forall j :: i < j < |q.claims| ==> q.claims[j].id != q.claims[i].id
  {
    hide Reachable, Sound, KnownTo, Gone;
    ReachableHasInv(q);
  }

  /** Two workers hold one job together only once the lease of the earlier has run out, and it had
      run out when the later one claimed. */
  lemma HoldersOverlapOnlyAfterExpiry(q: Queue, i: nat, j: nat)
    requires Reachable(q) && i < j < |q.claims| && q.claims[i].id == q.claims[j].id && !q.claims[i].finished
    ensures q.claims[i].Until() < q.claims[j].at <= q.now
  {
    hide Reachable, Sound, KnownTo, Gone;
    ReachableHasInv(q);
  }

  /** A row that survives can be claimed again within 24 hours at the latest. */
  lemma EveryJobComesBack(q: Queue, id: JobId)
    requires Reachable(q) && id in q.jobs
    ensures q.jobs[id].due <= q.now + DAY && Claimable(q.jobs[id], q.now + DAY)
  {
    hide Reachable, Sound, KnownTo, Gone;
    ReachableHasInv(q);
  }

  /** The worker of a claim decides in this step that its job can be dropped. */
  ghost predicate Resolves(q: Queue, step: Step, i: nat)
    requires Enabled(q, step)
  {
    && i < |q.claims| && q.claims[i].phase != Decided(Resolved)
    && i < |Apply(q, step).claims| && Apply(q, step).claims[i].phase == Decided(Resolved)
  }

  /** A job is dropped only on a decision made while its resource called for nothing. */
  lemma ResolvedIsRight(q: Queue, step: Step, i: nat)
    requires Reachable(q) && Enabled(q, step) && Resolves(q, step, i)
    ensures !CallsForWork(Apply(q, step).resources, q.claims[i].id)
  {
    hide Reachable;
    ReachableHasInv(q);
    ResolvesRightly(q, step, i);
  }

  lemma ResolvesRightly(q: Queue, step: Step, i: nat)
    requires Inv(q) && Enabled(q, step) && Resolves(q, step, i)
    ensures !CallsForWork(Apply(q, step).resources, q.claims[i].id)
  {
    hide Inv, Gone, Sound, KnownTo, CallsForWork, Marked, Moves;
    var c := q.claims[i];
    ClaimIsKnown(q, i);
    if step.Look? {
      assert step.i == i;
      ReadResolves(c.id, c.user, c.phase, q.resources);
      StoredIsOther(c.id, c.user, c.phase, q.resources);
    } else {
      assert step.Answered? && step.i == i;
      ConcludeResolves(c.id, q.resources, step.answer);
    }
  }

  /** An event is only stored when there is something to do. */
  lemma StoredIsOther(id: JobId, user: Option<UserId>, phase: Phase, r: Resources)
    requires Read(id, user, phase, r) == Decided(Resolved) && (id.WebhookJob? ==> KnownTo(r, id, user))
    ensures Stored(r, id, phase) == r
  {
  }

  /** A row leaves the table exactly when the worker that holds it writes its decision to drop it. */
  lemma RowGoes(q: Queue, step: Step, id: JobId)
    requires Enabled(q, step) && id in q.jobs
    ensures id !in Apply(q, step).jobs <==>
      step.Write? && q.claims[step.i].id == id && q.jobs[id].token == Some(step.i) && q.claims[step.i].phase == Decided(Resolved)
  {
    hide Moves;
    if step.Write? {
      WriteFrame(q, step.i, step.random);
    }
  }

  /** The worker that holds the row has decided to drop it and has not yet written so. */
  ghost predicate Doomed(q: Queue, id: JobId) {
    && id in q.jobs && q.jobs[id].token.Some? && q.jobs[id].token.value < |q.claims|
    && q.claims[q.jobs[id].token.value].phase == Decided(Resolved)
  }

  ghost predicate CallsThroughout(q: Queue, run: seq<Step>, id: JobId)
    requires CanRun(q, run)
    decreases |run|
  {
    CallsForWork(q.resources, id) && (run != [] ==> CallsThroughout(Apply(q, run[0]), run[1..], id))
  }

  /** Only a refund can call for work again after a worker has decided that it does not. */
  lemma OnlyRefundsAreDoomed(q: Queue, id: JobId)
    requires Inv(q) && CallsForWork(q.resources, id) && Doomed(q, id)
    ensures id.RefundJob?
  {
    hide Sound, KnownTo;
    assert Gone(q.resources, q.claims[q.jobs[id].token.value].id);
  }

  lemma DoomedHolder(q: Queue, id: JobId)
    requires Inv(q) && id in q.jobs && q.jobs[id].token.Some?
    ensures q.jobs[id].token.value < |q.claims|
    ensures q.claims[q.jobs[id].token.value].id == id && !q.claims[q.jobs[id].token.value].finished
  {
    hide Sound, KnownTo, Gone;
  }

  /** Only a new claim puts a token on a row. */
  lemma TokenFrame(q: Queue, step: Step, id: JobId)
    requires Enabled(q, step) && id in q.jobs && id in Apply(q, step).jobs
    ensures var r := Apply(q, step);
            || r.jobs[id].token.None?
            || (step == Take(id) && r.jobs[id].token == Some(|q.claims|) && r.claims[|q.claims|].phase == Holding)
            || r.jobs[id].token == q.jobs[id].token
    ensures |q.claims| <= |Apply(q, step).claims|
  {
    hide Moves, SourcesOf, UserOf, RecoveryDelay, Read, Conclude;
  }

  /** A row whose resource calls for work before and after a step is there after it. */
  lemma StepKeepsRow(q: Queue, step: Step, id: JobId)
    requires Inv(q) && Enabled(q, step) && id in q.jobs && !Doomed(q, id)
    requires CallsForWork(Apply(q, step).resources, id)
    ensures id in Apply(q, step).jobs && !Doomed(Apply(q, step), id)
  {
    hide Inv, Enabled, Apply, CallsForWork;
    RowGoes(q, step, id);
    if id !in Apply(q, step).jobs {
      DoomedHolder(q, id);
    } else {
      TokenFrame(q, step, id);
      if Doomed(Apply(q, step), id) && q.jobs[id].token.Some? && Apply(q, step).jobs[id].token == q.jobs[id].token {
        DoomedHolder(q, id);
        ResolvesRightly(q, step, q.jobs[id].token.value);
      }
    }
  }

  lemma {:induction false} RunKeepsRow(q: Queue, run: seq<Step>, id: JobId)
    requires Inv(q) && CanRun(q, run) && id in q.jobs && !Doomed(q, id) && CallsThroughout(q, run, id)
    ensures id in Run(q, run).jobs
    decreases |run|
  {
    hide Inv, Enabled, Apply, CallsForWork, Doomed;
    if run != [] {
      var r := Apply(q, run[0]);
      StepKeepsInv(q, run[0]);
      assert CallsForWork(r.resources, id);
      StepKeepsRow(q, run[0], id);
      RunKeepsRow(r, run[1..], id);
    }
  }

  lemma DoomedIsDropped(q: Queue, id: JobId) returns (run: seq<Step>)
    requires Inv(q) && Doomed(q, id) && CallsForWork(q.resources, id)
    ensures CanRun(q, run) && CallsThroughout(q, run, id) && id !in Run(q, run).jobs
  {
    hide Inv, CallsForWork;
    DoomedHolder(q, id);
    var step := Write(q.jobs[id].token.value, 0.0);
    RowGoes(q, step, id);
    run := [step];
    assert run[1..] == [];
  }

  /** A row whose resource goes on calling for work stays in every run, exactly unless its worker had
      already decided to drop it; and that happens to refunds alone. */
  lemma NoWorkIsLost(q: Queue, id: JobId)
    requires Reachable(q) && id in q.jobs && CallsForWork(q.resources, id)
    ensures (forall run: seq<Step> :: CanRun(q, run) && CallsThroughout(q, run, id) ==> id in Run(q, run).jobs) <==> !Doomed(q, id)
    ensures Doomed(q, id) ==> id.RefundJob?
  {
    hide Reachable, Inv, CanRun, Run, CallsThroughout, CallsForWork, Doomed;
    ReachableHasInv(q);
    if Doomed(q, id) {
      OnlyRefundsAreDoomed(q, id);
      var run := DoomedIsDropped(q, id);
    } else {
      forall run: seq<Step> | CanRun(q, run) && CallsThroughout(q, run, id)
        ensures id in Run(q, run).jobs
      {
        RunKeepsRow(q, run, id);
      }
    }
  }

  /** The next seed pass gives every resource that calls for work a row. */
  lemma SeedFindsAll(q: Queue, id: JobId)
    requires CallsForWork(q.resources, id)
    ensures id in Apply(q, Insert(KindOf(id))).jobs
  {
    SourcesCall(q.resources, KindOf(id), id);
  }

  // A decision that is out of date

  lemma {:induction false} RunSnoc(q: Queue, run: seq<Step>, step: Step)
    requires CanRun(q, run) && Enabled(Run(q, run), step)
    ensures CanRun(q, run + [step]) && Run(q, run + [step]) == Apply(Run(q, run), step)
    decreases |run|
  {
    hide Enabled, Apply;
    if run == [] {
      assert (run + [step])[1..] == [];
    } else {
      assert (run + [step])[1..] == run[1..] + [step];
      RunSnoc(Apply(q, run[0]), run[1..], step);
    }
  }

  lemma ReachableStep(q: Queue, step: Step)
    requires Reachable(q) && Enabled(q, step)
    ensures Reachable(Apply(q, step))
  {
    hide Init, Enabled, Apply, CanRun, Run;
    var start: Queue, run: seq<Step> :| Init(start) && CanRun(start, run) && Run(start, run) == q;
    RunSnoc(start, run, step);
  }

  const REFUND := GatewayOrder(5)
  const JOB := RefundJob(REFUND)

  function RefundIs(status: RefundStatus): Resources {
    Resources({}, map[], map[], map[REFUND := RefundSource(1, status)], map[], {})
  }

  function At(status: RefundStatus, token: Option<Token>, lease: Option<Time>, claims: seq<Claim>): Queue {
    Queue(0, map[JOB := Job(Some(1), 0, lease, token, 0, false)], claims, RefundIs(status))
  }

  function Worker(phase: Phase): Claim {
    Claim(JOB, Some(1), 0, 0, phase, false)
  }

  lemma InitIsReachable(q: Queue)
    requires Init(q)
    ensures Reachable(q)
  {
    assert CanRun(q, []) && Run(q, []) == q;
  }

  lemma SeededRefund()
    ensures Reachable(At(Requested, None, None, []))
  {
    hide Reachable;
    var start := Queue(0, map[], [], RefundIs(Requested));
    InitIsReachable(start);
    SourcesCall(start.resources, Refunds, JOB);
    ReachableStep(start, Insert(Refunds));
    assert SourcesOf(start.resources, Refunds) == {JOB};
    assert Apply(start, Insert(Refunds)).jobs == At(Requested, None, None, []).jobs;
  }

  lemma FailedRefund()
    ensures Reachable(At(Rejected, Some(0), Some(LEASE), [Worker(Calling)]))
  {
    hide Reachable;
    SeededRefund();
    var seeded := At(Requested, None, None, []);
    ReachableStep(seeded, Take(JOB));
    var taken := At(Requested, Some(0), Some(LEASE), [Worker(Holding)]);
    assert Apply(seeded, Take(JOB)) == taken;
    ReachableStep(taken, Look(0));
    var looked := At(Requested, Some(0), Some(LEASE), [Worker(Calling)]);
    assert Apply(taken, Look(0)) == looked;
    ReachableStep(looked, Change(RefundIs(Rejected)));
  }

  /** The worker has read that the refund failed, and a later notice has it pending again: the row,
      which a seed pass leaves as it is, is about to be dropped. */
  lemma StaleDecision() returns (q: Queue)
    ensures Reachable(q) && JOB in q.jobs && CallsForWork(q.resources, JOB) && Doomed(q, JOB)
    ensures Apply(q, Insert(Refunds)).jobs == q.jobs
  {
    hide Reachable;
    FailedRefund();
    var failed := At(Rejected, Some(0), Some(LEASE), [Worker(Calling)]);
    var answer := Returned(Undecided, false, 0);
    ReachableStep(failed, Answered(0, answer));
    var decided := At(Rejected, Some(0), Some(LEASE), [Worker(Decided(Resolved))]);
    assert Apply(failed, Answered(0, answer)) == decided;
    ReachableStep(decided, Change(RefundIs(Pending)));
    q := At(Pending, Some(0), Some(LEASE), [Worker(Decided(Resolved))]);
    assert SourcesOf(q.resources, Refunds) == {JOB};
    assert Apply(q, Insert(Refunds)).jobs == q.jobs;
  }
}
