/** Clicks and their summaries: `processClickEvent` in backend/worker/index.js (lines 225-327),
    backend/src/utils/analyticsWindow.js and the time series of backend/src/services/analytics.service.js.
    Instants are milliseconds, buckets are cut in UTC. Whether a click is unique or a bot's is given. */
module Clicks {
  import opened BillingTypes

  datatype Click = Click(url: nat, at: Time, unique: bool, bot: bool)
  datatype Stats = Stats(total: nat, unique: nat, bots: nat)

  const HOUR := 3600000
  const DAY := 86400000

  predicate IsStep(step: int) { step == HOUR || step == DAY }

  /** The number of the bucket of an instant. */
  function Bucket(at: Time, step: int): int
    requires IsStep(step)
  {
    at / step
  }

  function Plus(a: Stats, b: Stats): Stats {
    Stats(a.total + b.total, a.unique + b.unique, a.bots + b.bots)
  }

  /** What one click adds (lines 265-267): a bot's click counts as a bot's click only. */
  function Share(c: Click): Stats {
    Stats(if c.bot then 0 else 1, if !c.bot && c.unique then 1 else 0, if c.bot then 1 else 0)
  }

  // A recount of the raw clicks

  datatype Kind = Any | Human | FirstVisit | Bot

  predicate Is(c: Click, kind: Kind) {
    match kind
    case Any => true
    case Human => !c.bot
    case FirstVisit => !c.bot && c.unique
    case Bot => c.bot
  }

  /** The clicks of `url` from `from` up to, but not including, `to`. */
  function Count(clicks: seq<Click>, url: nat, from: Time, to: Time, kind: Kind): nat {
    if clicks == [] then 0
    else
      var c := clicks[|clicks| - 1];
      Count(clicks[..|clicks| - 1], url, from, to, kind) + if c.url == url && from <= c.at < to && Is(c, kind) then 1 else 0
  }

  function Recount(clicks: seq<Click>, url: nat, from: Time, to: Time): Stats {
    Stats(Count(clicks, url, from, to, Human), Count(clicks, url, from, to, FirstVisit), Count(clicks, url, from, to, Bot))
  }

  function RawCount(clicks: seq<Click>, url: nat, from: Time, to: Time): nat {
    Count(clicks, url, from, to, Any)
  }

  function InBucket(clicks: seq<Click>, url: nat, bucket: int, step: int): Stats
    requires IsStep(step)
  {
    Recount(clicks, url, bucket * step, (bucket + 1) * step)
  }

  lemma BucketBounds(at: Time, bucket: int, step: int)
    requires IsStep(step)
    ensures Bucket(at, step) == bucket <==> bucket * step <= at < (bucket + 1) * step
  {
  }

  lemma {:induction false} CountAdds(clicks: seq<Click>, url: nat, from: Time, mid: Time, to: Time, kind: Kind)
    requires from <= mid <= to
    ensures Count(clicks, url, from, to, kind) == Count(clicks, url, from, mid, kind) + Count(clicks, url, mid, to, kind)
  {
    if clicks != [] {
      CountAdds(clicks[..|clicks| - 1], url, from, mid, to, kind);
    }
  }

  /** Neighbouring intervals add up. */
  lemma RecountAdds(clicks: seq<Click>, url: nat, from: Time, mid: Time, to: Time)
    requires from <= mid <= to
    ensures Recount(clicks, url, from, to) == Plus(Recount(clicks, url, from, mid), Recount(clicks, url, mid, to))
  {
    hide Count;
    CountAdds(clicks, url, from, mid, to, Human);
    CountAdds(clicks, url, from, mid, to, FirstVisit);
    CountAdds(clicks, url, from, mid, to, Bot);
  }

  /** Human and bot clicks together are all clicks. */
  lemma {:induction false} TotalsAreAll(clicks: seq<Click>, url: nat, from: Time, to: Time)
    ensures Count(clicks, url, from, to, Human) + Count(clicks, url, from, to, Bot) == Count(clicks, url, from, to, Any)
    ensures Count(clicks, url, from, to, FirstVisit) <= Count(clicks, url, from, to, Human)
  {
    if clicks != [] {
      TotalsAreAll(clicks[..|clicks| - 1], url, from, to);
    }
  }

  lemma {:induction false} NothingBetween(clicks: seq<Click>, url: nat, from: Time, to: Time, kind: Kind)
    requires to <= from
    ensures Count(clicks, url, from, to, kind) == 0
  {
    if clicks != [] {
      NothingBetween(clicks[..|clicks| - 1], url, from, to, kind);
    }
  }

  // The rollup tables

  type Rollup = map<(nat, int), Stats>

  function RowOf(rows: Rollup, url: nat, bucket: int): Stats {
    if (url, bucket) in rows then rows[(url, bucket)] else Stats(0, 0, 0)
  }

  /** The rollup says what a recount would. */
  ghost predicate Counts(rows: Rollup, clicks: seq<Click>, step: int)
    requires IsStep(step)
  {
    forall url: nat, bucket: int :: RowOf(rows, url, bucket) == InBucket(clicks, url, bucket, step)
  }

  /** The hourly rows of `hours` hours from `first` on, added up. */
  function SumOfHours(rows: Rollup, url: nat, first: int, hours: nat): Stats {
    if hours == 0 then Stats(0, 0, 0) else Plus(SumOfHours(rows, url, first, hours - 1), RowOf(rows, url, first + hours - 1))
  }

  lemma {:induction false} HoursAdd(rows: Rollup, clicks: seq<Click>, url: nat, first: int, hours: nat)
    requires Counts(rows, clicks, HOUR)
    ensures SumOfHours(rows, url, first, hours) == Recount(clicks, url, first * HOUR, (first + hours) * HOUR)
  {
    hide Count;
    if hours == 0 {
      forall kind {
        NothingBetween(clicks, url, first * HOUR, first * HOUR, kind);
      }
    } else {
      HoursAdd(rows, clicks, url, first, hours - 1);
      RecountAdds(clicks, url, first * HOUR, (first + hours - 1) * HOUR, (first + hours) * HOUR);
      assert RowOf(rows, url, first + hours - 1) == InBucket(clicks, url, first + hours - 1, HOUR);
    }
  }

  /** Clicks are conserved: a daily row is the sum of its 24 hourly rows, and its human and bot
      clicks together are the raw clicks of that day. */
  lemma DailyIsSumOfHourly(hourly: Rollup, daily: Rollup, clicks: seq<Click>, url: nat, day: int)
    requires Counts(hourly, clicks, HOUR) && Counts(daily, clicks, DAY)
    ensures RowOf(daily, url, day) == SumOfHours(hourly, url, 24 * day, 24)
    ensures RowOf(daily, url, day).total + RowOf(daily, url, day).bots == RawCount(clicks, url, day * DAY, (day + 1) * DAY)
    ensures RowOf(daily, url, day).unique <= RowOf(daily, url, day).total
  {
    HoursAdd(hourly, clicks, url, 24 * day, 24);
    assert 24 * day * HOUR == day * DAY && (24 * day + 24) * HOUR == (day + 1) * DAY;
    assert RowOf(daily, url, day) == InBucket(clicks, url, day, DAY);
    TotalsAreAll(clicks, url, day * DAY, (day + 1) * DAY);
  }

  /** The ingestion worker's tables. */
  class ClickWorker {
    var clicks: seq<Click>
    var hourly: Rollup
    var daily: Rollup

    ghost predicate Valid()
      reads this
    {
      Counts(hourly, clicks, HOUR) && Counts(daily, clicks, DAY)
    }

    constructor ()
      ensures Valid() && clicks == []
    {
      clicks, hourly, daily := [], map[], map[];
    }

    /** Insert or increment the row of one bucket. */
    method Upsert(rows: Rollup, url: nat, bucket: int, share: Stats) returns (after: Rollup)
      ensures forall u: nat, b: int :: RowOf(after, u, b) == if u == url && b == bucket then Plus(RowOf(rows, u, b), share) else RowOf(rows, u, b)
    {
      if (url, bucket) in rows {
        var row := rows[(url, bucket)];
        after := rows[(url, bucket) := Stats(row.total + share.total, row.unique + share.unique, row.bots + share.bots)];
      } else {
        after := rows[(url, bucket) := share];
      }
    }

    /** Lines 225-327: the raw click, then its hour, then its day, however late it arrives. */
    method ProcessClickEvent(c: Click)
      requires Valid()
      modifies this
      ensures Valid() && clicks == old(clicks) + [c]
    {
      clicks := clicks + [c];
      var incrementTotal := if c.bot then 0 else 1;
      var incrementUnique := if !c.bot && c.unique then 1 else 0;
      var incrementBot := if c.bot then 1 else 0;
      var share := Stats(incrementTotal, incrementUnique, incrementBot);
      hourly := Upsert(hourly, c.url, Bucket(c.at, HOUR), share);
      daily := Upsert(daily, c.url, Bucket(c.at, DAY), share);
      OneMoreClick(old(hourly), hourly, old(clicks), c, HOUR);
      OneMoreClick(old(daily), daily, old(clicks), c, DAY);
    }
  }

  lemma OneMoreClick(rows: Rollup, after: Rollup, clicks: seq<Click>, c: Click, step: int)
    requires IsStep(step) && Counts(rows, clicks, step)
    requires forall u: nat, b: int ::
      RowOf(after, u, b) == if u == c.url && b == Bucket(c.at, step) then Plus(RowOf(rows, u, b), Share(c)) else RowOf(rows, u, b)
    ensures Counts(after, clicks + [c], step)
  {
    forall u: nat, b: int
      ensures RowOf(after, u, b) == InBucket(clicks + [c], u, b, step)
    {
      BucketBounds(c.at, b, step);
      assert (clicks + [c])[..|clicks|] == clicks;
      assert RowOf(rows, u, b) == InBucket(clicks, u, b, step);
    }
  }

  // The series of a chart

  datatype Range = Day | Week | Month

  function Duration(range: Range): int {
    match range
    case Day => 86400000
    case Week => 604800000
    case Month => 2592000000
  }

  function MaxTime(a: Time, b: Time): Time { if a >= b then a else b }

  /** Lines 1-6: the window ends now and begins no earlier than the plan's cutoff. */
  function WindowStart(range: Range, cutoff: Option<Time>, now: Time): Time {
    MaxTime(now - Duration(range), if cutoff.Some? then cutoff.value else 0)
  }

  function StepOf(range: Range): int { if range == Day then HOUR else DAY }

  /** A row of the grouped query. */
  datatype BucketRow = BucketRow(bucket: Time, clicks: nat, unique: nat, bots: nat)
  datatype Point = Point(timestamp: Time, clicks: nat, unique: nat, bots: nat)

  function Floor(at: Time, step: int): Time
    requires IsStep(step)
  {
    Bucket(at, step) * step
  }

  function MinTime(a: Time, b: Time): Time { if a <= b then a else b }

  /** The clicks of a bucket that lie in the window, both ends included. */
  function InWindow(clicks: seq<Click>, url: nat, start: Time, end: Time, bucket: int, step: int, kind: Kind): nat
    requires IsStep(step)
  {
    Count(clicks, url, MaxTime(start, bucket * step), MinTime(end + 1, (bucket + 1) * step), kind)
  }

  /** The two columns that count clicks; the third counts distinct visitors. */
  function Column(p: Point, kind: Kind): nat { if kind == Bot then p.bots else p.clicks }

  /** GROUP BY: one row per bucket that has clicks in the window, with their number. */
  ghost predicate Grouped(rows: seq<BucketRow>, clicks: seq<Click>, url: nat, start: Time, end: Time, step: int)
    requires IsStep(step)
  {
    && (forall i, j :: 0 <= i < j < |rows| ==> rows[i].bucket != rows[j].bucket)
    && (forall i :: 0 <= i < |rows| ==>
          && rows[i].bucket == Floor(rows[i].bucket, step)
          && rows[i].clicks == InWindow(clicks, url, start, end, Bucket(rows[i].bucket, step), step, Any)
          && rows[i].bots == InWindow(clicks, url, start, end, Bucket(rows[i].bucket, step), step, Bot))
    && (forall b: int :: InWindow(clicks, url, start, end, b, step, Any) > 0 ==> exists i :: 0 <= i < |rows| && rows[i].bucket == b * step)
  }

  /** The last row of a bucket. */
  function LastRow(rows: seq<BucketRow>, time: Time, step: int): Option<BucketRow>
    requires IsStep(step)
  {
    if rows == [] then None
    else if Floor(rows[|rows| - 1].bucket, step) == time then Some(rows[|rows| - 1])
    else LastRow(rows[..|rows| - 1], time, step)
  }

  /** What is drawn for one bucket: the columns of its last row, or zeros. */
  function PointAt(rows: seq<BucketRow>, time: Time, step: int): Point
    requires IsStep(step)
  {
    match LastRow(rows, time, step)
    case Some(row) => Point(time, row.clicks, row.unique, row.bots)
    case None => Point(time, 0, 0, 0)
  }

  /** Lines 8-19: `map` keeps the last row of a bucket; the loop visits every bucket of the window. */
  method FillTimeBuckets(rows: seq<BucketRow>, range: Range, start: Time, end: Time) returns (result: seq<Point>)
    ensures var step := StepOf(range);
            |result| == if Bucket(start, step) <= Bucket(end, step) then Bucket(end, step) - Bucket(start, step) + 1 else 0
    ensures forall i :: 0 <= i < |result| ==> result[i] == PointAt(rows, (Bucket(start, StepOf(range)) + i) * StepOf(range), StepOf(range))
  {
    var step := StepOf(range);
    var byBucket: map<Time, BucketRow> := map[];
    for i := 0 to |rows|
      invariant forall b: Time :: (if b in byBucket then Some(byBucket[b]) else None) == LastRow(rows[..i], b, step)
    {
      byBucket := byBucket[Floor(rows[i].bucket, step) := rows[i]];
      assert rows[..i + 1][..i] == rows[..i];
    }
    assert rows[..|rows|] == rows;
    result := [];
    var bucket := Bucket(start, step);
    var time := Floor(start, step);
    while time <= Floor(end, step)
      invariant time == bucket * step && bucket == Bucket(start, step) + |result|
      invariant bucket <= Bucket(end, step) + 1 || result == []
      invariant forall i :: 0 <= i < |result| ==> result[i] == PointAt(rows, (Bucket(start, step) + i) * step, step)
      decreases Floor(end, step) - time
    {
      var row := if time in byBucket then byBucket[time] else BucketRow(time, 0, 0, 0);
      result := result + [Point(time, row.clicks, row.unique, row.bots)];
      time := time + step;
      bucket := bucket + 1;
    }
  }

  lemma {:induction false} LastRowIs(rows: seq<BucketRow>, time: Time, step: int)
    requires IsStep(step)
    requires forall i, j :: 0 <= i < j < |rows| ==> rows[i].bucket != rows[j].bucket
    requires forall i :: 0 <= i < |rows| ==> rows[i].bucket == Floor(rows[i].bucket, step)
    ensures (forall i :: 0 <= i < |rows| && rows[i].bucket == time ==> LastRow(rows, time, step) == Some(rows[i]))
    ensures (forall i :: 0 <= i < |rows| ==> rows[i].bucket != time) ==> LastRow(rows, time, step) == None
  {
    if rows != [] {
      LastRowIs(rows[..|rows| - 1], time, step);
    }
  }

  lemma FloorOf(bucket: int, step: int)
    requires IsStep(step)
    ensures Bucket(bucket * step, step) == bucket && Floor(bucket * step, step) == bucket * step
  {
  }

  /** A point of the series is the number of clicks of its bucket in the window. */
  lemma PointIsCount(rows: seq<BucketRow>, clicks: seq<Click>, url: nat, start: Time, end: Time, bucket: int, step: int)
    requires IsStep(step) && Grouped(rows, clicks, url, start, end, step)
    ensures PointAt(rows, bucket * step, step).timestamp == bucket * step
    ensures forall kind | kind == Any || kind == Bot ::
      Column(PointAt(rows, bucket * step, step), kind) == InWindow(clicks, url, start, end, bucket, step, kind)
  {
    hide Count, LastRow;
    LastRowIs(rows, bucket * step, step);
    FloorOf(bucket, step);
    if i :| 0 <= i < |rows| && rows[i].bucket == bucket * step {
      assert rows[i].clicks == InWindow(clicks, url, start, end, Bucket(rows[i].bucket, step), step, Any);
    } else {
      assert InWindow(clicks, url, start, end, bucket, step, Any) == 0;
      TotalsAreAll(clicks, url, MaxTime(start, bucket * step), MinTime(end + 1, (bucket + 1) * step));
    }
  }

  lemma PointsAreCounts(points: seq<Point>, rows: seq<BucketRow>, clicks: seq<Click>, url: nat, start: Time, end: Time, first: int, step: int)
    requires IsStep(step) && Grouped(rows, clicks, url, start, end, step)
    requires forall i :: 0 <= i < |points| ==> points[i] == PointAt(rows, (first + i) * step, step)
    ensures forall i :: 0 <= i < |points| ==> points[i].timestamp == (first + i) * step
    ensures forall i, kind | 0 <= i < |points| && (kind == Any || kind == Bot) ::
      Column(points[i], kind) == InWindow(clicks, url, start, end, first + i, step, kind)
  {
    hide Count, PointAt, InWindow, Grouped, Column;
    forall i | 0 <= i < |points|
      ensures points[i].timestamp == (first + i) * step
      ensures forall kind | kind == Any || kind == Bot :: Column(points[i], kind) == InWindow(clicks, url, start, end, first + i, step, kind)
    {
      PointIsCount(rows, clicks, url, start, end, first + i, step);
    }
  }

  function SumOfPoints(points: seq<Point>, kind: Kind): nat {
    if points == [] then 0 else SumOfPoints(points[..|points| - 1], kind) + Column(points[|points| - 1], kind)
  }

  /** The points so far are the clicks of the window up to the end of their last bucket. */
  lemma {:induction false} PointsAdd(points: seq<Point>, clicks: seq<Click>, url: nat, start: Time, end: Time, step: int, kind: Kind)
    requires IsStep(step) && start <= end && Bucket(start, step) + |points| <= Bucket(end, step) + 1
    requires forall i :: 0 <= i < |points| ==> Column(points[i], kind) == InWindow(clicks, url, start, end, Bucket(start, step) + i, step, kind)
    ensures SumOfPoints(points, kind) == if points == [] then 0 else Count(clicks, url, start, MinTime(end + 1, (Bucket(start, step) + |points|) * step), kind)
  {
    hide Count, Column;
    if points != [] {
      var n := |points| - 1;
      var b := Bucket(start, step) + n;
      PointsAdd(points[..n], clicks, url, start, end, step, kind);
      BucketBounds(start, Bucket(start, step), step);
      BucketBounds(end, Bucket(end, step), step);
      assert Column(points[n], kind) == InWindow(clicks, url, start, end, b, step, kind);
      if n > 0 {
        InnerBucket(start, end, b, step);
        CountAdds(clicks, url, start, b * step, MinTime(end + 1, (b + 1) * step), kind);
      }
    }
  }

  lemma InnerBucket(start: Time, end: Time, b: int, step: int)
    requires IsStep(step) && Bucket(start, step) < b <= Bucket(end, step)
    ensures start <= b * step <= end && b * step <= MinTime(end + 1, (b + 1) * step) && MaxTime(start, b * step) == b * step
    ensures MinTime(end + 1, b * step) == b * step
  {
    BucketBounds(start, Bucket(start, step), step);
    BucketBounds(end, Bucket(end, step), step);
  }

  lemma MultiplesAscend(a: int, b: int, step: int)
    requires IsStep(step) && a < b
    ensures a * step < b * step && (b == a + 1 ==> b * step == a * step + step)
  {
  }

  lemma Ascending(points: seq<Point>, first: int, step: int)
    requires IsStep(step)
    requires forall i :: 0 <= i < |points| ==> points[i].timestamp == (first + i) * step
    ensures forall i, j :: 0 <= i < j < |points| ==> points[i].timestamp < points[j].timestamp
    ensures forall i :: 0 < i < |points| ==> points[i].timestamp == points[i - 1].timestamp + step
  {
    forall i, j | 0 <= i < j < |points|
      ensures points[i].timestamp < points[j].timestamp
      ensures j == i + 1 ==> points[j].timestamp == points[i].timestamp + step
    {
      MultiplesAscend(first + i, first + j, step);
    }
  }

  /** The filled series of a window: each bucket once, ascending, without gaps, and together all raw
      clicks of the window, and all those of bots. */
  lemma SeriesSumsToWindow(points: seq<Point>, rows: seq<BucketRow>, clicks: seq<Click>, url: nat, range: Range, start: Time, end: Time)
    requires start <= end && Grouped(rows, clicks, url, start, end, StepOf(range))
    requires |points| == Bucket(end, StepOf(range)) - Bucket(start, StepOf(range)) + 1
    requires forall i :: 0 <= i < |points| ==> points[i] == PointAt(rows, (Bucket(start, StepOf(range)) + i) * StepOf(range), StepOf(range))
    ensures forall i, j :: 0 <= i < j < |points| ==> points[i].timestamp < points[j].timestamp
    ensures forall i :: 0 < i < |points| ==> points[i].timestamp == points[i - 1].timestamp + StepOf(range)
    ensures SumOfPoints(points, Any) == RawCount(clicks, url, start, end + 1)
    ensures SumOfPoints(points, Bot) == Count(clicks, url, start, end + 1, Bot)
  {
    hide Count, PointAt, InWindow, Grouped, Column, SumOfPoints;
    var step := StepOf(range);
    PointsAreCounts(points, rows, clicks, url, start, end, Bucket(start, step), step);
    Ascending(points, Bucket(start, step), step);
    PointsAdd(points, clicks, url, start, end, step, Any);
    PointsAdd(points, clicks, url, start, end, step, Bot);
    BucketBounds(end, Bucket(end, step), step);
  }

  /** A chart never has more than 25 hours, 8 days or 31 days. */
  lemma SeriesIsShort(range: Range, cutoff: Option<Time>, now: Time)
    ensures var start, step := WindowStart(range, cutoff, now), StepOf(range);
            Bucket(now, step) - Bucket(start, step) + 1 <= match range case Day => 25 case Week => 8 case Month => 31
  {
    var start, step := WindowStart(range, cutoff, now), StepOf(range);
    BucketBounds(start, Bucket(start, step), step);
    BucketBounds(now, Bucket(now, step), step);
  }

  /** A click is in the window exactly when it is not older than a day, a week or 30 days, not from before
      the plan's cutoff, and not from the future. */
  lemma WindowHolds(range: Range, cutoff: Option<Time>, now: Time, at: Time)
    requires 0 <= at && (cutoff.Some? ==> cutoff.value >= 0)
    ensures WindowStart(range, cutoff, now) <= at <= now <==>
      && at <= now && (cutoff.Some? ==> cutoff.value <= at)
      && now - at <= match range case Day => 24 * 3600 * 1000 case Week => 7 * 24 * 3600 * 1000 case Month => 30 * 24 * 3600 * 1000
  {
  }
}
