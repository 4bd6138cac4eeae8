/**
 * Minute bars built up one applied quote at a time, and the volume-weighted
 * average price of a day derived from them. Prices are in units of 0.0001.
 */
module MinuteBars {
  import opened Common

  /** A quote as a feed delivers it. Times are in microseconds. */
  datatype Event = Event(
    source: string,
    key: string,
    sequence: Option<int>,
    at: int,
    receivedAt: int,
    last: int,
    open: int,
    high: int,
    low: int,
    volume: int,
    bidPrice: Option<int>,
    bidQuantity: Option<int>,
    askPrice: Option<int>,
    askQuantity: Option<int>,
    recovery: bool,
    updatesTrade: bool)

  const MINUTE := 60_000_000
  const DAY := 1440 * MINUTE
  const KST_OFFSET := 540 * MINUTE

  /** The Korean trading date of a moment. */
  function DateOf(at: int): int {
    (at + KST_OFFSET) / DAY
  }

  function BucketOf(at: int): int {
    at / MINUTE
  }

  function DateOfBucket(bucket: int): int {
    DateOf(bucket * MINUTE)
  }

  /** The trading date changes at midnight in Korea, which is 15:00 in universal time, and only then. */
  lemma DayStartsAtKoreanMidnight(at: int)
    ensures DateOf(at) == DateOf(at - 1) + if at % 86_400_000_000 == 54_000_000_000 then 1 else 0
  {
  }

  /** The bars are the minutes of the clock. */
  lemma BucketIsMinute(at: int)
    ensures BucketOf(at) * 60_000_000 <= at < (BucketOf(at) + 1) * 60_000_000
  {
  }

  datatype Bar = Bar(
    bucket: int,
    open: int,
    high: int,
    low: int,
    close: int,
    volume: int,
    turnover: int,
    count: nat,
    first: nat,
    latest: nat)

  /** The shares traded since the previous applied event of the same day. */
  function Delta(previous: Option<Event>, e: Event): (d: int)
    ensures d >= 0
  {
    if previous.Some? && DateOf(previous.value.at) == DateOf(e.at) then Max(e.volume - previous.value.volume, 0) else 0
  }

  function FirstBar(e: Event, delta: int, snapshot: nat): Bar {
    Bar(BucketOf(e.at), e.last, e.last, e.last, e.last, delta, e.last * delta, 1, snapshot, snapshot)
  }

  function NextBar(bar: Bar, e: Event, delta: int, snapshot: nat): Bar {
    bar.(high := Max(bar.high, e.last), low := Min(bar.low, e.last), close := e.last, volume := bar.volume + delta,
         turnover := bar.turnover + e.last * delta, count := bar.count + 1, latest := snapshot)
  }

  function FindBar(bars: seq<Bar>, bucket: int): (found: Option<nat>)
    ensures found.Some? ==> found.value < |bars| && bars[found.value].bucket == bucket
    ensures found.None? ==> forall i :: 0 <= i < |bars| ==> bars[i].bucket != bucket
  {
    if bars == [] then None
    else if bars[|bars| - 1].bucket == bucket then Some(|bars| - 1)
    else FindBar(bars[..|bars| - 1], bucket)
  }

  /** The bar table after an applied event. */
  function Upsert(bars: seq<Bar>, previous: Option<Event>, e: Event, snapshot: nat): seq<Bar> {
    if !e.updatesTrade then bars
    else
      var delta := Delta(previous, e);
      match FindBar(bars, BucketOf(e.at))
      case None => bars + [FirstBar(e, delta, snapshot)]
      case Some(i) => bars[i := NextBar(bars[i], e, delta, snapshot)]
  }

  // ---------------------------------------------------------------- the batch view

  function Last(events: seq<Event>): Option<Event> {
    if events == [] then None else Some(events[|events| - 1])
  }

  predicate Trades(e: Event, bucket: int) {
    e.updatesTrade && BucketOf(e.at) == bucket
  }

  /** The bar a bucket should have, from all applied events at once. The row numbers of the snapshots are left out. */
  datatype Summary = Summary(open: int, high: int, low: int, close: int, volume: int, turnover: int, count: nat)

  function Grown(before: Option<Summary>, e: Event, delta: int): Summary {
    match before
    case None => Summary(e.last, e.last, e.last, e.last, delta, e.last * delta, 1)
    case Some(s) =>
      Summary(s.open, Max(s.high, e.last), Min(s.low, e.last), e.last, s.volume + delta, s.turnover + e.last * delta,
              s.count + 1)
  }

  function SummaryOf(events: seq<Event>, bucket: int): Option<Summary> {
    if events == [] then None
    else
      var e := events[|events| - 1];
      var before := events[..|events| - 1];
      var delta := Delta(Last(before), e);
      if !Trades(e, bucket) then SummaryOf(before, bucket)
      else Some(Grown(SummaryOf(before, bucket), e, delta))
  }

  function Summarize(bar: Bar): Summary {
    Summary(bar.open, bar.high, bar.low, bar.close, bar.volume, bar.turnover, bar.count)
  }

  function SummaryIn(bars: seq<Bar>, bucket: int): Option<Summary> {
    var found := FindBar(bars, bucket);
    if found.Some? then Some(Summarize(bars[found.value])) else None
  }

  ghost predicate DistinctBuckets(bars: seq<Bar>) {
    forall i, j :: 0 <= i < j < |bars| ==> bars[i].bucket != bars[j].bucket
  }

  /** The table holds exactly the batch bars of the applied events. */
  ghost predicate Refines(bars: seq<Bar>, events: seq<Event>) {
    DistinctBuckets(bars) && forall bucket :: SummaryIn(bars, bucket) == SummaryOf(events, bucket)
  }

  lemma {:induction false} FindsItsBucket(bars: seq<Bar>, i: nat)
    requires DistinctBuckets(bars) && i < |bars|
    ensures FindBar(bars, bars[i].bucket) == Some(i)
  {
    hide FindBar;
  }

  /** One more applied event keeps table and batch view the same. */
  lemma UpsertRefines(bars: seq<Bar>, events: seq<Event>, e: Event, snapshot: nat)
    requires Refines(bars, events)
    ensures Refines(Upsert(bars, Last(events), e, snapshot), events + [e])
  {
    hide Delta, BucketOf, DateOf;
    var after := Upsert(bars, Last(events), e, snapshot);
    forall bucket
      ensures SummaryIn(after, bucket) == SummaryOf(events + [e], bucket)
    {
      assert SummaryIn(bars, bucket) == SummaryOf(events, bucket);
      SummaryGrows(events, e, bucket);
      var i := FindBar(after, bucket);
      var k := FindBar(bars, bucket);
      if i.Some? && i.value < |bars| {
        FindsItsBucket(bars, i.value);
      } else if k.Some? {
        assert after[k.value].bucket == bucket;
      }
    }
  }

  lemma SummaryGrows(events: seq<Event>, e: Event, bucket: int)
    ensures SummaryOf(events + [e], bucket) ==
            if !Trades(e, bucket) then SummaryOf(events, bucket)
            else Some(Grown(SummaryOf(events, bucket), e, Delta(Last(events), e)))
  {
    hide Delta, Trades, Grown, Last;
    var longer := events + [e];
    assert longer[..|events|] == events && longer[|events|] == e;
  }

  /** Whatever the order of upserts, a bar says what traded in its minute: first, extremes and last. */
  lemma SummaryMeans(events: seq<Event>, bucket: int)
    ensures var s := SummaryOf(events, bucket);
            && (s.Some? <==> exists i :: 0 <= i < |events| && Trades(events[i], bucket))
            && (s.Some? ==>
                  && (forall i :: 0 <= i < |events| && Trades(events[i], bucket) ==>
                      s.value.low <= events[i].last <= s.value.high)
                  && (exists i :: 0 <= i < |events| && Trades(events[i], bucket) && events[i].last == s.value.low)
                  && (exists i :: 0 <= i < |events| && Trades(events[i], bucket) && events[i].last == s.value.high)
                  && (exists i :: 0 <= i < |events| && Trades(events[i], bucket) && events[i].last == s.value.open
                                  && forall j :: 0 <= j < i ==> !Trades(events[j], bucket))
                  && (exists i :: 0 <= i < |events| && Trades(events[i], bucket) && events[i].last == s.value.close
                                  && forall j :: i < j < |events| ==> !Trades(events[j], bucket)))
  {
    hide SummaryOf, Trades;
    SummaryRange(events, bucket);
    SummaryEnds(events, bucket);
  }

  lemma {:induction false} SummaryRange(events: seq<Event>, bucket: int)
    ensures var s := SummaryOf(events, bucket);
            && (s.Some? <==> exists i :: 0 <= i < |events| && Trades(events[i], bucket))
            && (s.Some? ==>
                  && (forall i :: 0 <= i < |events| && Trades(events[i], bucket) ==>
                      s.value.low <= events[i].last <= s.value.high)
                  && (exists i :: 0 <= i < |events| && Trades(events[i], bucket) && events[i].last == s.value.low)
                  && (exists i :: 0 <= i < |events| && Trades(events[i], bucket) && events[i].last == s.value.high))
  {
    hide Delta, Trades, Last;
    if events != [] {
      var n := |events| - 1;
      var before := events[..n];
      SummaryRange(before, bucket);
      assert forall i :: 0 <= i < n ==> events[i] == before[i];
    }
  }

  lemma {:induction false} SummaryEnds(events: seq<Event>, bucket: int)
    ensures var s := SummaryOf(events, bucket);
            && (s.None? ==> forall i :: 0 <= i < |events| ==> !Trades(events[i], bucket))
            && (s.Some? ==>
                  && (exists i :: 0 <= i < |events| && Trades(events[i], bucket) && events[i].last == s.value.open
                                  && forall j :: 0 <= j < i ==> !Trades(events[j], bucket))
                  && (exists i :: 0 <= i < |events| && Trades(events[i], bucket) && events[i].last == s.value.close
                                  && forall j :: i < j < |events| ==> !Trades(events[j], bucket)))
  {
    hide Delta, Trades, Last;
    if events != [] {
      var n := |events| - 1;
      var before := events[..n];
      SummaryEnds(before, bucket);
      assert forall i :: 0 <= i < n ==> events[i] == before[i];
    }
  }

  function CountTrades(events: seq<Event>, bucket: int): nat {
    if events == [] then 0
    else CountTrades(events[..|events| - 1], bucket) + if Trades(events[|events| - 1], bucket) then 1 else 0
  }

  /** The shares that the trade events of a minute bring, and what was paid for them. */
  function MinuteVolume(events: seq<Event>, bucket: int): int {
    if events == [] then 0
    else
      var e := events[|events| - 1];
      var before := events[..|events| - 1];
      MinuteVolume(before, bucket) + if Trades(e, bucket) then Delta(Last(before), e) else 0
  }

  function MinuteTurnover(events: seq<Event>, bucket: int): int {
    if events == [] then 0
    else
      var e := events[|events| - 1];
      var before := events[..|events| - 1];
      MinuteTurnover(before, bucket) + if Trades(e, bucket) then e.last * Delta(Last(before), e) else 0
  }

  /** A bar counts the trade events of its minute and adds up what they bring. */
  lemma {:induction false} SummaryAdds(events: seq<Event>, bucket: int)
    ensures var s := SummaryOf(events, bucket);
            if s.Some? then
              && s.value.count == CountTrades(events, bucket)
              && s.value.volume == MinuteVolume(events, bucket)
              && s.value.turnover == MinuteTurnover(events, bucket)
            else
              && CountTrades(events, bucket) == 0
              && MinuteVolume(events, bucket) == 0
              && MinuteTurnover(events, bucket) == 0
  {
    hide Delta, Trades, Last;
    if events != [] {
      SummaryAdds(events[..|events| - 1], bucket);
    }
  }

  // ---------------------------------------------------------------- a day's volume

  function DayVolume(bars: seq<Bar>, date: int): int {
    if bars == [] then 0
    else
      var last := bars[|bars| - 1];
      DayVolume(bars[..|bars| - 1], date) + if DateOfBucket(last.bucket) == date then last.volume else 0
  }

  function DayTurnover(bars: seq<Bar>, date: int): int {
    if bars == [] then 0
    else
      var last := bars[|bars| - 1];
      DayTurnover(bars[..|bars| - 1], date) + if DateOfBucket(last.bucket) == date then last.turnover else 0
  }

  /** The shares that the applied trade events of a date add up to. */
  function Traded(events: seq<Event>, date: int): int {
    if events == [] then 0
    else
      var e := events[|events| - 1];
      var before := events[..|events| - 1];
      Traded(before, date) + if e.updatesTrade && DateOf(e.at) == date then Delta(Last(before), e) else 0
  }

  /** A minute never straddles midnight in Korea. */
  lemma BucketKeepsDate(at: int)
    ensures DateOfBucket(BucketOf(at)) == DateOf(at)
  {
    var bucket := BucketOf(at);
    var date := (bucket + 540) / 1440;
    var minute := (bucket + 540) % 1440;
    assert bucket == date * 1440 + minute - 540;
    assert at == bucket * MINUTE + at % MINUTE;
    assert at + KST_OFFSET == date * DAY + minute * MINUTE + at % MINUTE;
    assert bucket * MINUTE + KST_OFFSET == date * DAY + minute * MINUTE;
    Quotient(at + KST_OFFSET, date, minute * MINUTE + at % MINUTE);
    Quotient(bucket * MINUTE + KST_OFFSET, date, minute * MINUTE);
  }

  lemma Quotient(x: int, q: int, r: int)
    requires x == q * DAY + r && 0 <= r < DAY
    ensures x / DAY == q
  {
  }

  lemma {:induction false} UpdatedDayVolume(bars: seq<Bar>, i: nat, bar: Bar, date: int)
    requires i < |bars| && bar.bucket == bars[i].bucket
    ensures DayVolume(bars[i := bar], date)
         == DayVolume(bars, date) + if DateOfBucket(bar.bucket) == date then bar.volume - bars[i].volume else 0
  {
    hide DateOfBucket;
    var n := |bars| - 1;
    if i == n {
      assert bars[i := bar][..n] == bars[..n];
    } else {
      UpdatedDayVolume(bars[..n], i, bar, date);
      assert bars[i := bar][..n] == bars[..n][i := bar];
    }
  }

  lemma UpsertAddsDelta(bars: seq<Bar>, previous: Option<Event>, e: Event, snapshot: nat, date: int)
    ensures DayVolume(Upsert(bars, previous, e, snapshot), date)
         == DayVolume(bars, date) + if e.updatesTrade && DateOf(e.at) == date then Delta(previous, e) else 0
  {
    hide DateOfBucket, DateOf, Delta, BucketOf;
    BucketKeepsDate(e.at);
    var delta := Delta(previous, e);
    match FindBar(bars, BucketOf(e.at))
    case None =>
      assert (bars + [FirstBar(e, delta, snapshot)])[..|bars|] == bars;
    case Some(i) =>
      UpdatedDayVolume(bars, i, NextBar(bars[i], e, delta, snapshot), date);
  }

  /** From the first to the last event times never go back, nor does the day's volume, which only trade events move. */
  predicate SteadyBetween(events: seq<Event>, first: nat, last: nat)
    requires last < |events|
  {
    forall k :: first < k <= last ==>
      && events[k - 1].at <= events[k].at
      && (DateOf(events[k - 1].at) == DateOf(events[k].at) ==>
            if events[k].updatesTrade then events[k - 1].volume <= events[k].volume
            else events[k - 1].volume == events[k].volume)
  }

  lemma LaterDate(a: int, b: int)
    requires a <= b
    ensures DateOf(a) <= DateOf(b)
  {
  }

  /**
   * On a day that is steady from its first to its last event the volumes added to the
   * bars telescope to last minus first cumulative volume.
   */
  lemma {:induction false} TradedTelescopes(events: seq<Event>, first: nat, last: nat)
    requires first <= last < |events| && SteadyBetween(events, first, last)
             && DateOf(events[first].at) == DateOf(events[last].at)
    requires forall k :: 0 <= k < first ==> DateOf(events[k].at) != DateOf(events[first].at)
    requires forall k :: last < k < |events| ==> DateOf(events[k].at) != DateOf(events[first].at)
    ensures Traded(events, DateOf(events[first].at)) == events[last].volume - events[first].volume
  {
    hide DateOf, Traded, Delta, SteadyBetween;
    var n := |events| - 1;
    var date := DateOf(events[first].at);
    var before := events[..n];
    TradedLast(events, date);
    if last < n {
      SteadyPrefix(events, first, last, last);
      TradedTelescopes(before, first, last);
    } else if first == n {
      NothingTraded(before, date);
      FirstOfDay(events, date);
    } else {
      BetweenSameDates(events, first, n);
      SteadyPrefix(events, first, n, n - 1);
      TradedTelescopes(before, first, n - 1);
      SteadyDelta(events, first, n);
    }
  }

  lemma TradedLast(events: seq<Event>, date: int)
    requires events != []
    ensures var n := |events| - 1;
            Traded(events, date) == Traded(events[..n], date)
              + if events[n].updatesTrade && DateOf(events[n].at) == date
                then Delta(if n == 0 then None else Some(events[n - 1]), events[n]) else 0
  {
    hide DateOf, Delta;
  }

  lemma SteadyPrefix(events: seq<Event>, first: nat, last: nat, shorter: nat)
    requires last < |events| && shorter <= last && shorter < |events| - 1 && SteadyBetween(events, first, last)
    ensures SteadyBetween(events[..|events| - 1], first, shorter)
  {
    hide DateOf;
  }

  lemma FirstOfDay(events: seq<Event>, date: int)
    requires events != [] && DateOf(events[|events| - 1].at) == date
    requires forall k :: 0 <= k < |events| - 1 ==> DateOf(events[k].at) != date
    ensures Delta(if |events| == 1 then None else Some(events[|events| - 2]), events[|events| - 1]) == 0
  {
    hide DateOf;
  }

  lemma SteadyDelta(events: seq<Event>, first: nat, n: nat)
    requires first < n < |events| && SteadyBetween(events, first, n) && DateOf(events[n - 1].at) == DateOf(events[n].at)
    ensures (if events[n].updatesTrade then Delta(Some(events[n - 1]), events[n]) else 0) ==
              events[n].volume - events[n - 1].volume
  {
    hide DateOf;
  }

  lemma {:induction false} NothingTraded(events: seq<Event>, date: int)
    requires forall k :: 0 <= k < |events| ==> DateOf(events[k].at) != date
    ensures Traded(events, date) == 0
  {
    hide DateOf;
    if events != [] {
      NothingTraded(events[..|events| - 1], date);
    }
  }

  /** Dates only move forward, so the event before the last of a date's two ends lies on that date too. */
  lemma BetweenSameDates(events: seq<Event>, first: nat, n: nat)
    requires first < n < |events| && SteadyBetween(events, first, n) && DateOf(events[first].at) == DateOf(events[n].at)
    ensures DateOf(events[n - 1].at) == DateOf(events[n].at)
  {
    hide DateOf;
    TimesOrdered(events, first, n, first, n - 1);
    LaterDate(events[first].at, events[n - 1].at);
    LaterDate(events[n - 1].at, events[n].at);
  }

  lemma {:induction false} TimesOrdered(events: seq<Event>, first: nat, last: nat, i: nat, j: nat)
    requires first <= i <= j <= last < |events| && SteadyBetween(events, first, last)
    ensures events[i].at <= events[j].at
    decreases j
  {
    if i < j {
      TimesOrdered(events, first, last, i, j - 1);
    }
  }

  // ---------------------------------------------------------------- the average price

  /** Division rounded to the nearest integer, halves to the even one. */
  function RoundHalfEven(n: int, d: int): int
    requires d > 0
  {
    var q, r := n / d, n % d;
    if 2 * r < d then q else if 2 * r > d then q + 1 else if q % 2 == 0 then q else q + 1
  }

  function Vwap(bars: seq<Bar>, date: int, fallback: int): int {
    var volume := DayVolume(bars, date);
    if volume > 0 then RoundHalfEven(DayTurnover(bars, date), volume) else fallback
  }

  /** Every share of a bar was traded between its low and its high. */
  predicate Priced(bar: Bar) {
    0 <= bar.volume && bar.low * bar.volume <= bar.turnover <= bar.high * bar.volume && bar.low <= bar.high
  }

  lemma FirstBarPriced(e: Event, delta: int, snapshot: nat)
    requires delta >= 0
    ensures Priced(FirstBar(e, delta, snapshot))
  {
  }

  lemma NextBarPriced(bar: Bar, e: Event, delta: int, snapshot: nat)
    requires Priced(bar) && delta >= 0
    ensures Priced(NextBar(bar, e, delta, snapshot))
  {
    var low, high := Min(bar.low, e.last), Max(bar.high, e.last);
    Scaled(low, bar.low, bar.volume);
    Scaled(bar.high, high, bar.volume);
    Scaled(low, e.last, delta);
    Scaled(e.last, high, delta);
    assert low * (bar.volume + delta) == low * bar.volume + low * delta;
    assert high * (bar.volume + delta) == high * bar.volume + high * delta;
  }

  lemma Scaled(a: int, b: int, w: int)
    requires w >= 0 && a <= b
    ensures a * w <= b * w
  {
  }

  lemma UpsertPriced(bars: seq<Bar>, previous: Option<Event>, e: Event, snapshot: nat)
    requires forall i :: 0 <= i < |bars| ==> Priced(bars[i])
    ensures var after := Upsert(bars, previous, e, snapshot);
            forall i :: 0 <= i < |after| ==> Priced(after[i])
  {
    hide Priced, FirstBar, NextBar, BucketOf;
    var delta := Delta(previous, e);
    FirstBarPriced(e, delta, snapshot);
    var found := FindBar(bars, BucketOf(e.at));
    if found.Some? {
      NextBarPriced(bars[found.value], e, delta, snapshot);
    }
  }

  predicate WithinDay(bars: seq<Bar>, date: int, low: int, high: int) {
    forall i :: 0 <= i < |bars| && DateOfBucket(bars[i].bucket) == date ==> low <= bars[i].low && bars[i].high <= high
  }

  lemma {:induction false} TurnoverBounded(bars: seq<Bar>, date: int, low: int, high: int)
    requires WithinDay(bars, date, low, high)
    requires forall i :: 0 <= i < |bars| ==> Priced(bars[i])
    ensures 0 <= DayVolume(bars, date)
    ensures low * DayVolume(bars, date) <= DayTurnover(bars, date) <= high * DayVolume(bars, date)
  {
    hide DateOfBucket;
    if bars != [] {
      var n := |bars| - 1;
      TurnoverBounded(bars[..n], date, low, high);
      if DateOfBucket(bars[n].bucket) == date {
        BarBounded(bars[n], DayVolume(bars[..n], date), low, high);
      }
    }
  }

  lemma BarBounded(bar: Bar, volume: int, low: int, high: int)
    requires Priced(bar) && low <= bar.low && bar.high <= high
    ensures low * (volume + bar.volume) <= low * volume + bar.turnover
    ensures high * volume + bar.turnover <= high * (volume + bar.volume)
  {
    Scaled(low, bar.low, bar.volume);
    Scaled(bar.high, high, bar.volume);
    assert low * (volume + bar.volume) == low * volume + low * bar.volume;
    assert high * (volume + bar.volume) == high * volume + high * bar.volume;
  }

  lemma RoundedWithin(n: int, d: int, low: int, high: int)
    requires d > 0 && low * d <= n <= high * d
    ensures low <= RoundHalfEven(n, d) <= high
  {
    var q, r := n / d, n % d;
    assert n == q * d + r;
    assert (q + 1) * d == q * d + d;
    Unscaled(low - 1, q, d) by {
      assert (low - 1) * d == low * d - d;
    }
    Unscaled(q, high + 1, d) by {
      assert (high + 1) * d == high * d + d;
    }
    if q == high {
      assert r == 0;
    }
  }

  lemma Unscaled(a: int, b: int, w: int)
    requires w > 0 && a * w < b * w
    ensures a < b
  {
  }

  /** With a positive volume, the rounded average price lies between the lowest low and the highest high of the day. */
  lemma VwapWithinDay(bars: seq<Bar>, date: int, fallback: int, low: int, high: int)
    requires WithinDay(bars, date, low, high) && DayVolume(bars, date) > 0
    requires forall i :: 0 <= i < |bars| ==> Priced(bars[i])
    ensures low <= Vwap(bars, date, fallback) <= high
  {
    TurnoverBounded(bars, date, low, high);
    RoundedWithin(DayTurnover(bars, date), DayVolume(bars, date), low, high);
  }

  /** The average is the money over the shares of the day, to the nearest unit, halves to the even one. */
  lemma VwapIsNearest(bars: seq<Bar>, date: int, fallback: int)
    ensures var volume, turnover := DayVolume(bars, date), DayTurnover(bars, date);
            var average := Vwap(bars, date, fallback);
            && (volume <= 0 ==> average == fallback)
            && (volume > 0 ==>
                  && -volume <= 2 * (average * volume - turnover) <= volume
                  && (2 * (average * volume - turnover) in {-volume, volume} ==> average % 2 == 0))
  {
    hide DayVolume, DayTurnover;
    if DayVolume(bars, date) > 0 {
      RoundsToNearestEven(DayTurnover(bars, date), DayVolume(bars, date));
    }
  }

  lemma RoundsToNearestEven(n: int, d: int)
    requires d > 0
    ensures var q := RoundHalfEven(n, d);
            -d <= 2 * (q * d - n) <= d && (2 * (q * d - n) in {-d, d} ==> q % 2 == 0)
  {
    var q, r := n / d, n % d;
    assert n == q * d + r;
    assert (q + 1) * d - n == d - r;
  }
}
