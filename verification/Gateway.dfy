/** The billing gateway: backend/src/services/billingGateway.js. */
module Gateway {
  import opened BillingTypes
  import Sequences

  // Lines 7-29: what an HTTP exchange is taken to mean

  /** The Retry-After header: a number of seconds, a date, or a text that is neither. */
  datatype RetryHeader = Seconds(value: real) | Until(at: Time) | Unreadable

  /** `body` is absent when the response is not JSON. */
  datatype Exchange = NoResponse | Response(status: nat, body: bool, retry: Option<RetryHeader>)
  datatype Outcome = Answered | InDoubt | TurnedDown | NotConfigured

  /** How long the provider asks to wait, in milliseconds; the past and nonsense ask for nothing. */
  function RetryAfter(header: Option<RetryHeader>, now: Time): (ms: real)
    ensures ms >= 0.0
  {
    match header
    case Some(Seconds(value)) => if value > 0.0 then value * 1000.0 else 0.0
    case Some(Until(at)) => if at > now then (at - now) as real else 0.0
    case _ => 0.0
  }

  method Request(configured: bool, x: Exchange, now: Time) returns (outcome: Outcome, retryAfter: real)
    ensures outcome == NotConfigured <==> !configured
    ensures outcome == TurnedDown <==>
      configured && x.Response? && x.body && !(200 <= x.status < 300) && x.status < 500 && x.status != 409 && x.status != 429
    ensures outcome == Answered <==> configured && x.Response? && x.body && 200 <= x.status < 300
    ensures retryAfter >= 0.0 && (retryAfter > 0.0 ==> x.Response? && outcome in {InDoubt, TurnedDown})
    ensures x.Response? && outcome in {InDoubt, TurnedDown} ==>
      match x.retry
      case Some(Seconds(value)) => retryAfter == (if value > 0.0 then 1000.0 * value else 0.0)
      case Some(Until(at)) => retryAfter == (if at > now then (at - now) as real else 0.0)
      case _ => retryAfter == 0.0
  {
    retryAfter := 0.0;
    if !configured {
      return NotConfigured, retryAfter;
    }
    if x.NoResponse? {
      return InDoubt, retryAfter;
    }
    if !(200 <= x.status < 300) || !x.body {
      var uncertain := x.status >= 500 || x.status == 409 || x.status == 429 || !x.body;
      retryAfter := RetryAfter(x.retry, now);
      return if uncertain then InDoubt else TurnedDown, retryAfter;
    }
    return Answered, retryAfter;
  }

  // Lines 42-51: the refunds of a charge, page by page

  datatype Item = Item(refund: ProviderRefund, processed: bool)
  datatype Reply = Items(items: seq<Item>) | Malformed | Failed
  datatype Fetched = Refunds(refunds: seq<ProviderRefund>) | TooLong | Unusable

  const PAGE := 100
  const LAST_SKIP := 9900

  function ProcessedItems(items: seq<Item>): seq<ProviderRefund> {
    if items == [] then []
    else (if items[0].processed then [items[0].refund] else []) + ProcessedItems(items[1..])
  }

  function Least(a: nat, b: nat): nat { if a <= b then a else b }

  /** The page of a history that starts after `skip` items. */
  function Page(history: seq<Item>, skip: nat): seq<Item> {
    if skip <= |history| then history[skip..Least(skip + PAGE, |history|)] else []
  }

  /** A reply with items is the page that was asked for. */
  ghost predicate Honest(reply: nat -> Reply, history: seq<Item>) {
    forall skip :: reply(skip).Items? ==> reply(skip).items == Page(history, skip)
  }

  lemma {:induction false} ProcessedItemsSplit(a: seq<Item>, b: seq<Item>)
    ensures ProcessedItems(a + b) == ProcessedItems(a) + ProcessedItems(b)
  {
    if a == [] {
      assert a + b == b;
    } else {
      ProcessedItemsSplit(a[1..], b);
      Sequences.TailOfConcat(a, b);
      Sequences.Assoc(if a[0].processed then [a[0].refund] else [], ProcessedItems(a[1..]), ProcessedItems(b));
    }
  }

  lemma PageExtends(history: seq<Item>, skip: nat)
    requires skip <= |history|
    ensures ProcessedItems(history[..skip]) + ProcessedItems(Page(history, skip)) ==
            ProcessedItems(history[..Least(skip + PAGE, |history|)])
  {
    var next := Least(skip + PAGE, |history|);
    ProcessedItemsSplit(history[..skip], history[skip..next]);
    assert history[..skip] + history[skip..next] == history[..next];
  }

  /** The loop gives the processed refunds of the whole history or none at all: it never stops
      short. With every page answered it succeeds exactly on histories under 10000 items. */
  method FetchProcessedRefunds(reply: nat -> Reply, ghost history: seq<Item>) returns (r: Fetched)
    requires Honest(reply, history)
    ensures r.Refunds? ==> r.refunds == ProcessedItems(history) && |history| < LAST_SKIP + PAGE
    ensures r.TooLong? ==> |history| >= LAST_SKIP + PAGE
    ensures (forall skip :: reply(skip).Items?) ==> (r.Refunds? <==> |history| < LAST_SKIP + PAGE)
  {
    var items := [];
    var skip := 0;
    while true
      invariant skip % PAGE == 0 && skip <= LAST_SKIP && skip <= |history|
      invariant items == ProcessedItems(history[..skip])
      decreases LAST_SKIP - skip
    {
      var page := reply(skip);
      if !page.Items? {
        return Unusable;
      }
      PageExtends(history, skip);
      items := items + ProcessedItems(page.items);
      if |page.items| < PAGE {
        assert history[..|history|] == history;
        return Refunds(items);
      }
      if skip >= LAST_SKIP {
        return TooLong;
      }
      skip := skip + PAGE;
    }
  }

  /** What was returned of the charge, over the whole history. */
  function Returned(history: seq<Item>): nat {
    if history == [] then 0
    else (if history[0].processed then history[0].refund.amount else 0) + Returned(history[1..])
  }

  /** The paged sum is the sum over the whole list. */
  lemma {:induction false} PagedSum(history: seq<Item>)
    ensures Total(ProcessedItems(history)) == Returned(history)
  {
    if history != [] {
      PagedSum(history[1..]);
      if history[0].processed {
        assert ProcessedItems(history)[1..] == ProcessedItems(history[1..]);
      } else {
        assert ProcessedItems(history) == ProcessedItems(history[1..]);
      }
    }
  }
}
