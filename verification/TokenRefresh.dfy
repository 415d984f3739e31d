/** The browser's token refresh: frontend/src/services/urlApi.js, lines 26-140. One turn of the
    event loop is one method. A refresh is a request in flight: it starts in one turn and is
    completed in a later one, and the session may have changed in between. The requests that wait
    for it are promises; `settled` lists what became of each, in the order it was decided. A request
    that is to be sent again passes the request interceptor in a turn of its own. */
module TokenRefresh {
  import opened BillingTypes
  import Sequences

  /** A token, and the session in which the browser took it. */
  datatype Token = Token(value: nat, since: nat)

  /** A parked request: the session it waits in, and the session it was sent in. */
  datatype Waiter = Waiter(id: nat, epoch: nat, authEpoch: nat)
  datatype Answer = Given(token: Token) | Denied

  /** A refresh in flight: its session, and the session in which the request that started it was sent. */
  datatype Flight = Flight(epoch: nat, authEpoch: nat)

  /** A request to be sent again, with the token a refresh of session `cause` put into its header. */
  datatype Replay = Replay(authEpoch: nat, given: Token, cause: nat)

  /** A request that went out in session `session`; `cause` as for its replay, if it is one. */
  datatype Sent = Sent(authEpoch: nat, session: nat, token: Option<Token>, cause: Option<nat>)

  /** `cause` is the session of the refresh or reset that decided. */
  datatype Settled = Settled(waiter: Waiter, answer: Answer, cause: nat)

  datatype Client = Client(epoch: nat, token: Option<Token>, refreshing: bool, queue: seq<Waiter>,
                           settled: seq<Settled>, parked: nat, refreshes: map<nat, Flight>,
                           replays: seq<Replay>, sent: seq<Sent>)

  // Lines 65-76: processQueue

  predicate Drains(w: Waiter, epoch: Option<nat>) {
    epoch.None? || w.epoch == epoch.value
  }

  function Kept(queue: seq<Waiter>, epoch: Option<nat>): seq<Waiter> {
    if queue == [] then []
    else (if Drains(queue[0], epoch) then [] else [queue[0]]) + Kept(queue[1..], epoch)
  }

  function Drained(queue: seq<Waiter>, epoch: Option<nat>, answer: Answer, cause: nat): seq<Settled> {
    if queue == [] then []
    else (if Drains(queue[0], epoch) then [Settled(queue[0], answer, cause)] else []) + Drained(queue[1..], epoch, answer, cause)
  }

  /** Lines 103-105: a waiter that is given a token sends its request again. */
  function ReplaysOf(settled: seq<Settled>): seq<Replay> {
    if settled == [] then []
    else
      var last := settled[|settled| - 1];
      ReplaysOf(settled[..|settled| - 1])
      + if last.answer.Given? then [Replay(last.waiter.authEpoch, last.answer.token, last.cause)] else []
  }

  lemma {:induction false} ProcessOneMore(queue: seq<Waiter>, w: Waiter, epoch: Option<nat>, answer: Answer, cause: nat)
    ensures Kept(queue + [w], epoch) == Kept(queue, epoch) + if Drains(w, epoch) then [] else [w]
    ensures Drained(queue + [w], epoch, answer, cause) ==
            Drained(queue, epoch, answer, cause) + if Drains(w, epoch) then [Settled(w, answer, cause)] else []
  {
    if queue == [] {
      assert queue + [w] == [w];
    } else {
      ProcessOneMore(queue[1..], w, epoch, answer, cause);
      Sequences.TailOfConcat(queue, [w]);
      Sequences.Assoc(if Drains(queue[0], epoch) then [] else [queue[0]], Kept(queue[1..], epoch), if Drains(w, epoch) then [] else [w]);
      Sequences.Assoc(if Drains(queue[0], epoch) then [Settled(queue[0], answer, cause)] else [],
            Drained(queue[1..], epoch, answer, cause), if Drains(w, epoch) then [Settled(w, answer, cause)] else []);
    }
  }

  function Process(c: Client, epoch: Option<nat>, answer: Answer, cause: nat): Client {
    var drained := Drained(c.queue, epoch, answer, cause);
    c.(queue := Kept(c.queue, epoch), settled := c.settled + drained, replays := c.replays + ReplaysOf(drained))
  }

  // The turns

  /** Lines 26-31. */
  function Reset(c: Client, token: Option<nat>): Client {
    Process(c.(epoch := c.epoch + 1, token := Taken(token, c.epoch + 1)), None, Denied, c.epoch + 1).(refreshing := false)
  }

  function Taken(token: Option<nat>, epoch: nat): Option<Token> {
    if token.Some? then Some(Token(token.value, epoch)) else None
  }

  /** Lines 52-60: a request passes only in the session it belongs to, or begins in the current one. It
      carries the token of the moment, or else what its header holds already. */
  function Passes(c: Client, authEpoch: Option<nat>, header: Option<Token>, cause: Option<nat>): Option<Sent> {
    var epoch := if authEpoch.Some? then authEpoch.value else c.epoch;
    if epoch != c.epoch then None
    else Some(Sent(epoch, c.epoch, if c.token.Some? then c.token else header, cause))
  }

  function Logged(c: Client, sent: Option<Sent>): Client {
    if sent.Some? then c.(sent := c.sent + [sent.value]) else c
  }

  /** The i-th replay is sent, or dropped when the session has changed. */
  function Replayed(c: Client, i: nat): Client
    requires i < |c.replays|
  {
    var r := c.replays[i];
    Logged(c, Passes(c, Some(r.authEpoch), Some(r.given), Some(r.cause))).(replays := c.replays[..i] + c.replays[i + 1..])
  }

  datatype Reaction = Declines | Waits(id: nat) | Refreshes(id: nat)

  /** Lines 90-111: a 401 for a request of session `authEpoch`. */
  function React(c: Client, authEpoch: nat, retried: bool, exempt: bool, refresh: nat): Reaction {
    if authEpoch != c.epoch || retried || exempt then Declines
    else if c.refreshing then Waits(c.parked)
    else Refreshes(refresh)
  }

  function Unauthorized(c: Client, authEpoch: nat, retried: bool, exempt: bool, refresh: nat): Client {
    match React(c, authEpoch, retried, exempt, refresh)
    case Declines => c
    case Waits(id) => c.(queue := c.queue + [Waiter(id, c.epoch, authEpoch)], parked := c.parked + 1)
    case Refreshes(id) => c.(refreshing := true, refreshes := c.refreshes[id := Flight(c.epoch, authEpoch)])
  }

  function Without(refreshes: map<nat, Flight>, id: nat): map<nat, Flight> {
    map r | r in refreshes && r != id :: refreshes[r]
  }

  /** Lines 113-135: the refresh answers with a token, or fails. The request that started it is sent
      again after the waiters. The `finally` block runs in the same turn, because the replay of line
      128 is returned and not awaited. */
  function Complete(c: Client, id: nat, result: Option<nat>): Client
    requires id in c.refreshes
  {
    var f := c.refreshes[id];
    var landed := c.(refreshes := Without(c.refreshes, id));
    if f.epoch != c.epoch then Process(landed, Some(f.epoch), Denied, f.epoch)
    else if result.None? then Process(landed.(token := None), Some(f.epoch), Denied, f.epoch).(refreshing := false)
    else
      var token := Token(result.value, f.epoch);
      var served := Process(landed.(token := Some(token)), Some(f.epoch), Given(token), f.epoch);
      served.(refreshing := false, replays := served.replays + [Replay(f.authEpoch, token, f.epoch)])
  }

  /** The module's variables and its interceptors. */
  class AuthClient {
    var sessionEpoch: nat
    var accessToken: Option<Token>
    var isRefreshing: bool
    var failedQueue: seq<Waiter>
    var settled: seq<Settled>
    var parked: nat
    var refreshes: map<nat, Flight>
    var replays: seq<Replay>
    var sent: seq<Sent>

    ghost function State(): Client
      reads this
    {
      Client(sessionEpoch, accessToken, isRefreshing, failedQueue, settled, parked, refreshes, replays, sent)
    }

    constructor ()
      ensures State() == START
    {
      sessionEpoch, accessToken, isRefreshing, failedQueue := 0, None, false, [];
      settled, parked, refreshes, replays, sent := [], 0, map[], [], [];
    }

    method ProcessQueue(answer: Answer, epoch: Option<nat>, cause: nat)
      modifies this`failedQueue, this`settled, this`replays
      ensures State() == Process(old(State()), epoch, answer, cause)
    {
      hide Kept, Drained, ReplaysOf;
      NothingYet(epoch, answer, cause);
      var pending := failedQueue;
      failedQueue := [];
      for i := 0 to |pending|
        invariant failedQueue == Kept(pending[..i], epoch)
        invariant settled == old(settled) + Drained(pending[..i], epoch, answer, cause)
        invariant replays == old(replays) + ReplaysOf(Drained(pending[..i], epoch, answer, cause))
      {
        var prom := pending[i];
        assert pending[..i + 1] == pending[..i] + [prom];
        ProcessOneMore(pending[..i], prom, epoch, answer, cause);
        ghost var drained := Drained(pending[..i], epoch, answer, cause);
        assert drained + [] == drained;
        if epoch.Some? && prom.epoch != epoch.value {
          failedQueue := failedQueue + [prom];
        } else {
          settled := settled + [Settled(prom, answer, cause)];
          OneMoreReplay(drained, Settled(prom, answer, cause));
          Sequences.Assoc(old(replays), ReplaysOf(drained), if answer.Given? then [Replay(prom.authEpoch, answer.token, cause)] else []);
          if answer.Given? {
            replays := replays + [Replay(prom.authEpoch, answer.token, cause)];
          }
        }
      }
      assert pending[..|pending|] == pending;
    }

    method ResetAuthSession(token: Option<nat>)
      modifies this
      ensures State() == Reset(old(State()), token)
    {
      sessionEpoch := sessionEpoch + 1;
      accessToken := if token.Some? then Some(Token(token.value, sessionEpoch)) else None;
      ProcessQueue(Denied, None, sessionEpoch);
      isRefreshing := false;
    }

    /** Lines 52-60: a request goes out, first time or again, only in its own session. */
    method Send(authEpoch: Option<nat>, header: Option<Token>, cause: Option<nat>) returns (out: Option<Sent>)
      modifies this`sent
      ensures out.Some? <==> authEpoch.None? || authEpoch.value == sessionEpoch
      ensures out == Passes(old(State()), authEpoch, header, cause) && State() == Logged(old(State()), out)
    {
      var epoch := if authEpoch.Some? then authEpoch.value else sessionEpoch;
      if epoch != sessionEpoch {
        return None;
      }
      var token := accessToken;
      if token.None? {
        token := header;
      }
      out := Some(Sent(epoch, sessionEpoch, token, cause));
      sent := sent + [out.value];
    }

    /** A promise chain comes to its replay. */
    method SendReplay(i: nat) returns (out: Option<Sent>)
      requires i < |replays|
      modifies this`sent, this`replays
      ensures State() == Replayed(old(State()), i)
    {
      var r := replays[i];
      out := Send(Some(r.authEpoch), Some(r.given), Some(r.cause));
      replays := replays[..i] + replays[i + 1..];
    }

    method OnUnauthorized(authEpoch: nat, retried: bool, exempt: bool, refresh: nat) returns (reaction: Reaction)
      requires refresh !in refreshes
      modifies this
      ensures reaction == React(old(State()), authEpoch, retried, exempt, refresh)
      ensures State() == Unauthorized(old(State()), authEpoch, retried, exempt, refresh)
    {
      if authEpoch != sessionEpoch {
        return Declines;
      }
      if retried || exempt {
        return Declines;
      }
      if isRefreshing {
        reaction := Waits(parked);
        failedQueue := failedQueue + [Waiter(parked, sessionEpoch, authEpoch)];
        parked := parked + 1;
        return;
      }
      isRefreshing := true;
      refreshes := refreshes[refresh := Flight(sessionEpoch, authEpoch)];
      return Refreshes(refresh);
    }

    method CompleteRefresh(id: nat, result: Option<nat>)
      requires id in refreshes
      modifies this
      ensures State() == Complete(old(State()), id, result)
    {
      var refreshEpoch, originalEpoch := refreshes[id].epoch, refreshes[id].authEpoch;
      refreshes := map r | r in refreshes && r != id :: refreshes[r];
      if refreshEpoch == sessionEpoch && result.Some? {
        var newAccessToken := Token(result.value, refreshEpoch);
        accessToken := Some(newAccessToken);
        ProcessQueue(Given(newAccessToken), Some(refreshEpoch), refreshEpoch);
        replays := replays + [Replay(originalEpoch, newAccessToken, refreshEpoch)];
      } else {
        if refreshEpoch == sessionEpoch {
          accessToken := None;
        }
        ProcessQueue(Denied, Some(refreshEpoch), refreshEpoch);
      }
      if refreshEpoch == sessionEpoch {
        isRefreshing := false;
      }
    }
  }

  lemma NothingYet(epoch: Option<nat>, answer: Answer, cause: nat)
    ensures Kept([], epoch) == [] && Drained([], epoch, answer, cause) == [] && ReplaysOf([]) == []
  {
  }

  lemma OneMoreReplay(settled: seq<Settled>, s: Settled)
    ensures ReplaysOf(settled + [s]) ==
            ReplaysOf(settled) + if s.answer.Given? then [Replay(s.waiter.authEpoch, s.answer.token, s.cause)] else []
  {
    assert (settled + [s])[..|settled|] == settled;
  }

  // What every turn keeps

  /** How often a request waits, and how often it was settled. */
  function Waiting(queue: seq<Waiter>, id: nat): nat {
    if queue == [] then 0 else (if queue[0].id == id then 1 else 0) + Waiting(queue[1..], id)
  }

  function TimesSettled(settled: seq<Settled>, id: nat): nat {
    if settled == [] then 0 else (if settled[0].waiter.id == id then 1 else 0) + TimesSettled(settled[1..], id)
  }

  /** The refreshes in flight belong to different sessions, none of them in the future, and the
      flag is up exactly while the current session has one. */
  ghost predicate SingleFlight(c: Client) {
    && (forall r :: r in c.refreshes ==> c.refreshes[r].epoch <= c.epoch && c.refreshes[r].authEpoch == c.refreshes[r].epoch)
    && (forall r, s :: r in c.refreshes && s in c.refreshes && c.refreshes[r].epoch == c.refreshes[s].epoch ==> r == s)
    && (c.refreshing <==> exists r :: r in c.refreshes && c.refreshes[r].epoch == c.epoch)
  }

  /** Requests wait only for a refresh of the current session that is running. */
  ghost predicate WaitersAreCurrent(c: Client) {
    && (forall w :: w in c.queue ==> w.epoch == c.epoch == w.authEpoch)
    && (c.queue != [] ==> c.refreshing)
  }

  /** Every parked request is waiting or settled, exactly once. */
  ghost predicate NobodyLost(c: Client) {
    forall id: nat :: Waiting(c.queue, id) + TimesSettled(c.settled, id) == if id < c.parked then 1 else 0
  }

  /** A request is given only a token of its own session. */
  ghost predicate GivenInSession(c: Client) {
    forall s :: s in c.settled && s.answer.Given? ==> s.waiter.authEpoch == s.waiter.epoch == s.cause == s.answer.token.since
  }

  /** The token of the moment was taken in the current session, and a replay belongs to the session
      of the refresh and of the token it was given. */
  ghost predicate ReplaysInSession(c: Client) {
    && (c.token.Some? ==> c.token.value.since == c.epoch)
    && (forall r :: r in c.replays ==> r.authEpoch == r.cause == r.given.since)
  }

  /** Whatever went out was of the session it went out in, in all its parts. */
  ghost predicate SentInSession(c: Client) {
    forall s :: s in c.sent ==>
      && s.authEpoch == s.session
      && (s.token.Some? ==> s.token.value.since == s.session)
      && (s.cause.Some? ==> s.cause.value == s.session)
  }

  ghost predicate Inv(c: Client) {
    SingleFlight(c) && WaitersAreCurrent(c) && NobodyLost(c) && GivenInSession(c) && ReplaysInSession(c) && SentInSession(c)
  }

  lemma {:induction false} WaitingSplit(a: seq<Waiter>, b: seq<Waiter>, id: nat)
    ensures Waiting(a + b, id) == Waiting(a, id) + Waiting(b, id)
  {
    if a == [] {
      assert a + b == b;
    } else {
      WaitingSplit(a[1..], b, id);
      assert (a + b)[1..] == a[1..] + b;
    }
  }

  lemma {:induction false} SettledSplit(a: seq<Settled>, b: seq<Settled>, id: nat)
    ensures TimesSettled(a + b, id) == TimesSettled(a, id) + TimesSettled(b, id)
  {
    if a == [] {
      assert a + b == b;
    } else {
      SettledSplit(a[1..], b, id);
      assert (a + b)[1..] == a[1..] + b;
    }
  }

  /** Processing the queue moves requests from waiting to settled and loses none. */
  lemma {:induction false} ProcessIsConserving(queue: seq<Waiter>, epoch: Option<nat>, answer: Answer, cause: nat, id: nat)
    ensures Waiting(Kept(queue, epoch), id) + TimesSettled(Drained(queue, epoch, answer, cause), id) == Waiting(queue, id)
  {
    if queue != [] {
      ProcessIsConserving(queue[1..], epoch, answer, cause, id);
      WaitingSplit([queue[0]], Kept(queue[1..], epoch), id);
      SettledSplit([Settled(queue[0], answer, cause)], Drained(queue[1..], epoch, answer, cause), id);
      assert [] + Kept(queue[1..], epoch) == Kept(queue[1..], epoch);
      assert [] + Drained(queue[1..], epoch, answer, cause) == Drained(queue[1..], epoch, answer, cause);
    }
  }

  lemma {:induction false} DrainedAnswers(queue: seq<Waiter>, epoch: Option<nat>, answer: Answer, cause: nat)
    ensures forall s :: s in Drained(queue, epoch, answer, cause) ==>
      s.waiter in queue && Drains(s.waiter, epoch) && s.answer == answer && s.cause == cause
  {
    if queue != [] {
      DrainedAnswers(queue[1..], epoch, answer, cause);
    }
  }

  lemma {:induction false} ReplaysAreOfSettled(settled: seq<Settled>)
    requires forall s :: s in settled && s.answer.Given? ==> s.waiter.authEpoch == s.cause == s.answer.token.since
    ensures forall r :: r in ReplaysOf(settled) ==> r.authEpoch == r.cause == r.given.since
  {
    if settled != [] {
      ReplaysAreOfSettled(settled[..|settled| - 1]);
    }
  }

  lemma ProcessKeeps(c: Client, epoch: Option<nat>, answer: Answer, cause: nat)
    requires NobodyLost(c) && GivenInSession(c) && ReplaysInSession(c)
    requires answer.Given? ==> epoch == Some(cause) && answer.token.since == cause
    requires forall w :: w in c.queue ==> w.authEpoch == w.epoch
    ensures var r := Process(c, epoch, answer, cause); NobodyLost(r) && GivenInSession(r) && ReplaysInSession(r)
  {
    var r := Process(c, epoch, answer, cause);
    DrainedAnswers(c.queue, epoch, answer, cause);
    ReplaysAreOfSettled(Drained(c.queue, epoch, answer, cause));
    forall id: nat
      ensures Waiting(r.queue, id) + TimesSettled(r.settled, id) == if id < r.parked then 1 else 0
    {
      ProcessIsConserving(c.queue, epoch, answer, cause, id);
      SettledSplit(c.settled, Drained(c.queue, epoch, answer, cause), id);
    }
  }

  /** When all waiters belong to the session, its end or its refresh serves all of them. */
  lemma {:induction false} AllServed(queue: seq<Waiter>, epoch: Option<nat>)
    requires forall w :: w in queue ==> Drains(w, epoch)
    ensures Kept(queue, epoch) == []
  {
    if queue != [] {
      assert forall w :: w in queue[1..] ==> w in queue;
      AllServed(queue[1..], epoch);
    }
  }

  lemma {:induction false} NoneServed(queue: seq<Waiter>, epoch: nat, answer: Answer, cause: nat)
    requires forall w :: w in queue ==> w.epoch != epoch
    ensures Kept(queue, Some(epoch)) == queue && Drained(queue, Some(epoch), answer, cause) == []
  {
    if queue != [] {
      assert forall w :: w in queue[1..] ==> w in queue;
      NoneServed(queue[1..], epoch, answer, cause);
    }
  }

  lemma SameWaiters(c: Client, d: Client)
    requires NobodyLost(c) && GivenInSession(c) && d.queue == c.queue && d.settled == c.settled && d.parked == c.parked
    ensures NobodyLost(d) && GivenInSession(d)
  {
  }

  lemma ResetKeepsInv(c: Client, token: Option<nat>)
    requires Inv(c)
    ensures Inv(Reset(c, token))
  {
    hide NobodyLost, GivenInSession, Drained;
    var next := c.(epoch := c.epoch + 1, token := Taken(token, c.epoch + 1));
    SameWaiters(c, next);
    ProcessKeeps(next, None, Denied, c.epoch + 1);
    AllServed(c.queue, None);
    SameWaiters(Process(next, None, Denied, c.epoch + 1), Reset(c, token));
  }

  lemma UnauthorizedKeepsInv(c: Client, authEpoch: nat, retried: bool, exempt: bool, refresh: nat)
    requires Inv(c) && refresh !in c.refreshes
    ensures Inv(Unauthorized(c, authEpoch, retried, exempt, refresh))
  {
    var r := Unauthorized(c, authEpoch, retried, exempt, refresh);
    if React(c, authEpoch, retried, exempt, refresh).Waits? {
      forall id: nat
        ensures Waiting(r.queue, id) + TimesSettled(r.settled, id) == if id < r.parked then 1 else 0
      {
        WaitingSplit(c.queue, [Waiter(c.parked, c.epoch, authEpoch)], id);
      }
    } else if r != c {
      assert r.refreshes[refresh].epoch == r.epoch;
    }
  }

  lemma CompleteKeepsFlight(c: Client, id: nat, result: Option<nat>)
    requires SingleFlight(c) && id in c.refreshes
    ensures SingleFlight(Complete(c, id, result))
  {
    var r := Complete(c, id, result);
    if c.refreshes[id].epoch != c.epoch && c.refreshing {
      var s :| s in c.refreshes && c.refreshes[s].epoch == c.epoch;
      assert s in r.refreshes && r.refreshes[s].epoch == r.epoch;
    }
  }

  /** A refresh of an earlier session finds nobody waiting for it. */
  lemma StaleChangesNothing(c: Client, id: nat, result: Option<nat>)
    requires WaitersAreCurrent(c) && id in c.refreshes && c.refreshes[id].epoch != c.epoch
    ensures Complete(c, id, result) == c.(refreshes := Without(c.refreshes, id))
  {
    NoneServed(c.queue, c.refreshes[id].epoch, Denied, c.refreshes[id].epoch);
    assert c.settled + [] == c.settled && c.replays + [] == c.replays;
  }

  lemma CompleteKeepsInv(c: Client, id: nat, result: Option<nat>)
    requires Inv(c) && id in c.refreshes
    ensures Inv(Complete(c, id, result))
  {
    hide NobodyLost, Drained, ReplaysOf;
    var e := c.refreshes[id].epoch;
    CompleteKeepsFlight(c, id, result);
    if e != c.epoch {
      StaleChangesNothing(c, id, result);
      SameWaiters(c, Complete(c, id, result));
    } else {
      AllServed(c.queue, Some(e));
      var token := Taken(result, e);
      var landed := c.(refreshes := Without(c.refreshes, id), token := token);
      SameWaiters(c, landed);
      var served := Process(landed, Some(e), if result.Some? then Given(token.value) else Denied, e);
      ProcessKeeps(landed, Some(e), if result.Some? then Given(token.value) else Denied, e);
      SameWaiters(served, Complete(c, id, result));
    }
  }

  lemma ReplayedKeepsInv(c: Client, i: nat)
    requires Inv(c) && i < |c.replays|
    ensures Inv(Replayed(c, i))
  {
    hide SingleFlight, NobodyLost;
    var r := Replayed(c, i);
    SameWaiters(c, r);
    assert c.replays[i] in c.replays;
    assert SingleFlight(r) by {
      SameFlights(c, r);
    }
  }

  lemma SameFlights(c: Client, d: Client)
    requires SingleFlight(c) && d.epoch == c.epoch && d.refreshing == c.refreshing && d.refreshes == c.refreshes
    ensures SingleFlight(d)
  {
  }

  lemma StartKeepsInv(c: Client)
    requires Inv(c)
    ensures Inv(Logged(c, Passes(c, None, None, None)))
  {
    hide SingleFlight, NobodyLost;
    var r := Logged(c, Passes(c, None, None, None));
    SameWaiters(c, r);
    SameFlights(c, r);
  }

  // Runs

  datatype Turn =
    | SetToken(stored: Option<nat>)
    | ResetTurn(token: Option<nat>)
    | SendTurn
    | ReplayTurn(i: nat)
    | UnauthorizedTurn(authEpoch: nat, retried: bool, exempt: bool, refresh: nat)
    | CompleteTurn(id: nat, result: Option<nat>)

  predicate Possible(c: Client, turn: Turn) {
    match turn
    case UnauthorizedTurn(_, _, _, refresh) => refresh !in c.refreshes
    case CompleteTurn(id, _) => id in c.refreshes
    case ReplayTurn(i) => i < |c.replays|
    case _ => true
  }

  function Take(c: Client, turn: Turn): Client
    requires Possible(c, turn)
  {
    match turn
    case SetToken(stored) => c.(token := Taken(stored, c.epoch))
    case ResetTurn(token) => Reset(c, token)
    case UnauthorizedTurn(authEpoch, retried, exempt, refresh) => Unauthorized(c, authEpoch, retried, exempt, refresh)
    case CompleteTurn(id, result) => Complete(c, id, result)
    case SendTurn => Logged(c, Passes(c, None, None, None))
    case ReplayTurn(i) => Replayed(c, i)
  }

  predicate CanRun(c: Client, turns: seq<Turn>)
    decreases |turns|
  {
    turns == [] || (Possible(c, turns[0]) && CanRun(Take(c, turns[0]), turns[1..]))
  }

  function Run(c: Client, turns: seq<Turn>): Client
    requires CanRun(c, turns)
    decreases |turns|
  {
    if turns == [] then c else Run(Take(c, turns[0]), turns[1..])
  }

  const START := Client(0, None, false, [], [], 0, map[], [], [])

  lemma {:induction false} RunKeepsInv(c: Client, turns: seq<Turn>)
    requires Inv(c) && CanRun(c, turns)
    ensures Inv(Run(c, turns))
    decreases |turns|
  {
    hide Inv;
    if turns != [] {
      TakeKeepsInv(c, turns[0]);
      RunKeepsInv(Take(c, turns[0]), turns[1..]);
    }
  }

  lemma TakeKeepsInv(c: Client, turn: Turn)
    requires Inv(c) && Possible(c, turn)
    ensures Inv(Take(c, turn))
  {
    match turn
    case SetToken(_) =>
    case ResetTurn(token) => ResetKeepsInv(c, token);
    case UnauthorizedTurn(authEpoch, retried, exempt, refresh) => UnauthorizedKeepsInv(c, authEpoch, retried, exempt, refresh);
    case CompleteTurn(id, result) => CompleteKeepsInv(c, id, result);
    case SendTurn => StartKeepsInv(c);
    case ReplayTurn(i) => ReplayedKeepsInv(c, i);
  }

  // The promises

  /** The refreshes in flight for one session. */
  function InFlight(c: Client, epoch: nat): set<nat> {
    set r | r in c.refreshes && c.refreshes[r].epoch == epoch
  }

  /** Single flight: at any time a session has at most one refresh running. */
  lemma OneRefreshPerSession(turns: seq<Turn>, epoch: nat)
    requires CanRun(START, turns)
    ensures |InFlight(Run(START, turns), epoch)| <= 1
  {
    RunKeepsInv(START, turns);
    var flights := InFlight(Run(START, turns), epoch);
    if flights != {} {
      var r :| r in flights;
      assert flights == {r};
    }
  }

  /** Every request that was ever parked is waiting or was settled, once, and waits only while a
      refresh of its own, current session is running; without one, everybody was served. */
  lemma EveryWaiterSettledOnce(turns: seq<Turn>, id: nat)
    requires CanRun(START, turns)
    ensures var c := Run(START, turns);
            Waiting(c.queue, id) + TimesSettled(c.settled, id) == if id < c.parked then 1 else 0
    ensures var c := Run(START, turns);
            forall w :: w in c.queue ==> w.epoch == c.epoch && c.refreshing && exists r :: r in c.refreshes && c.refreshes[r].epoch == w.epoch
    ensures var c := Run(START, turns); id < c.parked && !c.refreshing ==> TimesSettled(c.settled, id) == 1
  {
    RunKeepsInv(START, turns);
    assert NobodyLost(Run(START, turns));
  }

  /** A refresh of an earlier session touches nothing when it ends: no token, no flag, no waiter, and
      it sends no request again. */
  lemma StaleRefreshTouchesNobody(turns: seq<Turn>, id: nat, result: Option<nat>)
    requires CanRun(START, turns) && id in Run(START, turns).refreshes
    requires Run(START, turns).refreshes[id].epoch != Run(START, turns).epoch
    ensures var c := Run(START, turns); Complete(c, id, result) == c.(refreshes := Without(c.refreshes, id))
  {
    RunKeepsInv(START, turns);
    StaleChangesNothing(Run(START, turns), id, result);
  }

  /** A waiter is answered with a token only by a refresh of its own session, and the token is one
      the browser took in that session. */
  lemma TokensStayInSession(turns: seq<Turn>)
    requires CanRun(START, turns)
    ensures forall s :: s in Run(START, turns).settled && s.answer.Given? ==> s.cause == s.waiter.epoch == s.answer.token.since
  {
    RunKeepsInv(START, turns);
  }

  /** No request ever goes out into another session than its own. One that is sent again was given its
      token by a refresh of the session it goes out in, and whatever token a request carries was taken
      in that session. */
  lemma RequestsStayInSession(turns: seq<Turn>)
    requires CanRun(START, turns)
    ensures forall s | s in Run(START, turns).sent ::
      && s.authEpoch == s.session
      && (s.cause.Some? ==> s.cause.value == s.session)
      && (s.token.Some? ==> s.token.value.since == s.session)
  {
    RunKeepsInv(START, turns);
  }

  // What the turns do

  /** The queue was answered in its order, after everything that was settled before. */
  predicate AnsweredAll(before: Client, after: Client, answer: Answer, cause: nat) {
    && after.queue == [] && |after.settled| == |before.settled| + |before.queue|
    && (forall i :: 0 <= i < |before.settled| ==> after.settled[i] == before.settled[i])
    && (forall i :: 0 <= i < |before.queue| ==> after.settled[|before.settled| + i] == Settled(before.queue[i], answer, cause))
  }

  lemma {:induction false} DrainedAll(queue: seq<Waiter>, epoch: Option<nat>, answer: Answer, cause: nat)
    requires forall w :: w in queue ==> Drains(w, epoch)
    ensures var r := Drained(queue, epoch, answer, cause);
            |r| == |queue| && forall i :: 0 <= i < |queue| ==> r[i] == Settled(queue[i], answer, cause)
  {
    if queue != [] {
      assert forall w :: w in queue[1..] ==> w in queue;
      DrainedAll(queue[1..], epoch, answer, cause);
    }
  }

  lemma {:induction false} ReplayedAll(settled: seq<Settled>)
    ensures (forall s :: s in settled ==> s.answer.Denied?) ==> ReplaysOf(settled) == []
    ensures (forall s :: s in settled ==> s.answer.Given?) ==>
      && |ReplaysOf(settled)| == |settled|
      && forall i :: 0 <= i < |settled| ==>
           ReplaysOf(settled)[i] == Replay(settled[i].waiter.authEpoch, settled[i].answer.token, settled[i].cause)
  {
    if settled != [] {
      ReplayedAll(settled[..|settled| - 1]);
    }
  }

  lemma ReachedHasInv(turns: seq<Turn>)
    requires CanRun(START, turns)
    ensures Inv(Run(START, turns))
  {
    RunKeepsInv(START, turns);
  }

  lemma ProcessSettles(c: Client, epoch: Option<nat>, answer: Answer, cause: nat)
    requires forall w :: w in c.queue ==> Drains(w, epoch)
    ensures var r := Process(c, epoch, answer, cause);
            r == c.(queue := [], settled := r.settled, replays := r.replays) && AnsweredAll(c, r, answer, cause)
  {
    hide Drained, Kept, ReplaysOf;
    AllServed(c.queue, epoch);
    DrainedAll(c.queue, epoch, answer, cause);
  }

  lemma DrainedReplays(queue: seq<Waiter>, epoch: Option<nat>, answer: Answer, cause: nat)
    requires forall w :: w in queue ==> Drains(w, epoch)
    ensures var r := ReplaysOf(Drained(queue, epoch, answer, cause));
            && (answer.Denied? ==> r == [])
            && (answer.Given? ==> |r| == |queue| && forall i :: 0 <= i < |queue| ==> r[i] == Replay(queue[i].authEpoch, answer.token, cause))
  {
    hide Drained, ReplaysOf;
    DrainedAll(queue, epoch, answer, cause);
    DrainedAnswers(queue, epoch, answer, cause);
    ReplayedAll(Drained(queue, epoch, answer, cause));
  }

  lemma ProcessAnswers(c: Client, epoch: Option<nat>, answer: Answer, cause: nat)
    requires forall w :: w in c.queue ==> Drains(w, epoch)
    ensures var r := Process(c, epoch, answer, cause);
            && r == c.(queue := [], settled := r.settled, replays := r.replays) && AnsweredAll(c, r, answer, cause)
            && (answer.Denied? ==> r.replays == c.replays)
            && (answer.Given? ==>
                  && |r.replays| == |c.replays| + |c.queue|
                  && (forall i :: 0 <= i < |c.replays| ==> r.replays[i] == c.replays[i])
                  && (forall i :: 0 <= i < |c.queue| ==> r.replays[|c.replays| + i] == Replay(c.queue[i].authEpoch, answer.token, cause)))
  {
    hide Drained, Kept, ReplaysOf, AnsweredAll;
    ProcessSettles(c, epoch, answer, cause);
    DrainedReplays(c.queue, epoch, answer, cause);
    assert c.replays + [] == c.replays;
  }

  /** A refresh of the current session that brings a token gives it to everybody who waits, in their
      order. Each of them is sent again, and so is the request that started the refresh, once and with
      that token, which is the browser's from then on. */
  lemma RefreshServesAll(turns: seq<Turn>, id: nat, value: nat)
    requires CanRun(START, turns) && id in Run(START, turns).refreshes
    requires Run(START, turns).refreshes[id].epoch == Run(START, turns).epoch
    ensures var c := Run(START, turns);
            var r, token := Take(c, CompleteTurn(id, Some(value))), Token(value, c.epoch);
            && r.token == Some(token) && !r.refreshing && r.epoch == c.epoch && r.sent == c.sent && r.parked == c.parked
            && r.refreshes == c.refreshes - {id}
            && AnsweredAll(c, r, Given(token), c.epoch)
            && |r.replays| == |c.replays| + |c.queue| + 1
            && (forall i :: 0 <= i < |c.replays| ==> r.replays[i] == c.replays[i])
            && (forall i :: |c.replays| <= i < |r.replays| ==> r.replays[i] == Replay(c.epoch, token, c.epoch))
  {
    hide NobodyLost, GivenInSession, SentInSession, Process;
    ReachedHasInv(turns);
    var c := Run(START, turns);
    var token := Token(value, c.epoch);
    var landed := c.(refreshes := Without(c.refreshes, id), token := Some(token));
    assert Without(c.refreshes, id) == c.refreshes - {id};
    ProcessAnswers(landed, Some(c.epoch), Given(token), c.epoch);
    var served := Process(landed, Some(c.epoch), Given(token), c.epoch);
    forall i | |c.replays| <= i < |served.replays|
      ensures served.replays[i] == Replay(c.epoch, token, c.epoch)
    {
      assert c.queue[i - |c.replays|] in c.queue;
      assert served.replays[|c.replays| + (i - |c.replays|)] == Replay(c.queue[i - |c.replays|].authEpoch, token, c.epoch);
    }
  }

  /** One that brings none denies all of them, clears the token and sends nothing again. */
  lemma FailedRefreshDeniesAll(turns: seq<Turn>, id: nat)
    requires CanRun(START, turns) && id in Run(START, turns).refreshes
    requires Run(START, turns).refreshes[id].epoch == Run(START, turns).epoch
    ensures var c := Run(START, turns);
            var r := Take(c, CompleteTurn(id, None));
            && r.token == None && !r.refreshing && r.epoch == c.epoch && r.sent == c.sent && r.parked == c.parked
            && r.refreshes == c.refreshes - {id}
            && AnsweredAll(c, r, Denied, c.epoch) && r.replays == c.replays
  {
    hide NobodyLost, GivenInSession, SentInSession, Process;
    ReachedHasInv(turns);
    var c := Run(START, turns);
    var landed := c.(refreshes := Without(c.refreshes, id), token := None);
    assert Without(c.refreshes, id) == c.refreshes - {id};
    ProcessAnswers(landed, Some(c.epoch), Denied, c.epoch);
  }

  /** A new session begins with its own token, with nobody waiting and nothing more to send again, and
      may refresh at once; whoever waited is denied. */
  lemma SessionBeginsClean(turns: seq<Turn>, token: Option<nat>)
    requires CanRun(START, turns)
    ensures var c := Run(START, turns);
            var r := Take(c, ResetTurn(token));
            && r.epoch == c.epoch + 1 && !r.refreshing && r.refreshes == c.refreshes && r.sent == c.sent && r.parked == c.parked
            && r.token == (if token.Some? then Some(Token(token.value, c.epoch + 1)) else None)
            && AnsweredAll(c, r, Denied, c.epoch + 1) && r.replays == c.replays
  {
    hide Process;
    var c := Run(START, turns);
    ProcessAnswers(c.(epoch := c.epoch + 1, token := Taken(token, c.epoch + 1)), None, Denied, c.epoch + 1);
  }

  /** A first 401 of the current session waits for the refresh that is running, or else starts one; any
      other is declined and changes nothing. */
  lemma UnauthorizedWaitsOrRefreshes(turns: seq<Turn>, authEpoch: nat, retried: bool, exempt: bool, refresh: nat)
    requires CanRun(START, turns) && refresh !in Run(START, turns).refreshes
    ensures var c := Run(START, turns);
            var r := Take(c, UnauthorizedTurn(authEpoch, retried, exempt, refresh));
            if authEpoch != c.epoch || retried || exempt then r == c
            else if exists id :: id in c.refreshes && c.refreshes[id].epoch == c.epoch
            then r == c.(queue := c.queue + [Waiter(c.parked, c.epoch, c.epoch)], parked := c.parked + 1)
            else r == c.(refreshing := true, refreshes := c.refreshes[refresh := Flight(c.epoch, c.epoch)])
  {
    RunKeepsInv(START, turns);
  }

  /** A replay of the current session goes out with the token of the moment, or with the one it was given
      if there is none now; one of an earlier session goes nowhere. Either way it is used up. */
  lemma ReplayGoesOutOnce(turns: seq<Turn>, i: nat)
    requires CanRun(START, turns) && i < |Run(START, turns).replays|
    ensures var c := Run(START, turns);
            var r, replay := Take(c, ReplayTurn(i)), c.replays[i];
            && r.replays == c.replays[..i] + c.replays[i + 1..]
            && r.sent == c.sent + (if replay.cause != c.epoch then [] else
                 [Sent(c.epoch, c.epoch, Some(if c.token.Some? then c.token.value else replay.given), Some(c.epoch))])
  {
    RunKeepsInv(START, turns);
    var c := Run(START, turns);
    assert c.replays[i] in c.replays;
  }
}
