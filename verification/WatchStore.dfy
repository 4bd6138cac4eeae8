/** The tables of one quote stream and the services that update them in place. */
module WatchStore {
  import opened Common
  import opened MinuteBars
  import opened Watch

  class QuoteFeed {
    var snapshots: seq<Snapshot>
    var stream: Option<Stream>
    var bars: seq<Bar>
    /** The average price recorded with each applied snapshot. */
    var averages: map<nat, int>

    ghost function Model(): Feed
      reads this
    {
      Feed(snapshots, stream, bars)
    }

    /** Exactly the applied snapshots have an average. */
    ghost predicate Valid()
      reads this
    {
      && FeedInv(Model())
      && forall id :: id in averages <==> 0 <= id < |snapshots| && snapshots[id].quality == Normal
    }

    constructor ()
      ensures Valid() && Model() == EMPTY && averages == map[]
    {
      snapshots, stream, bars, averages := [], None, [], map[];
      new;
      NothingApplied();
    }

    method UpsertBar(e: Event, id: nat, previousVolume: Option<int>, previousAt: Option<int>,
                     ghost previous: Option<Event>)
      requires e.updatesTrade
      requires previousVolume == if previous.Some? then Some(previous.value.volume) else None
      requires previousAt == if previous.Some? then Some(previous.value.at) else None
      modifies `bars
      ensures bars == Upsert(old(bars), previous, e, id)
    {
      var delta := 0;
      if previousAt.Some? && DateOf(previousAt.value) == DateOf(e.at) && previousVolume.Some? {
        delta := Max(e.volume - previousVolume.value, 0);
      }
      var bucket := BucketOf(e.at);
      var existing := FindBar(bars, bucket);
      var turnover := e.last * delta;
      if existing.None? {
        bars := bars + [Bar(bucket, e.last, e.last, e.last, e.last, delta, turnover, 1, id, id)];
      } else {
        var bar := bars[existing.value];
        bar := bar.(high := Max(bar.high, e.last));
        bar := bar.(low := Min(bar.low, e.last));
        bar := bar.(close := e.last);
        bar := bar.(volume := bar.volume + delta);
        bar := bar.(turnover := bar.turnover + turnover);
        bar := bar.(count := bar.count + 1);
        bar := bar.(latest := id);
        bars := bars[existing.value := bar];
      }
    }

    method AveragePrice(date: int, fallback: int) returns (vwap: int)
      ensures vwap == Vwap(bars, date, fallback)
    {
      hide DateOfBucket;
      var volume, turnover := 0, 0;
      for i := 0 to |bars|
        invariant volume == DayVolume(bars[..i], date) && turnover == DayTurnover(bars[..i], date)
      {
        assert bars[..i + 1][..i] == bars[..i];
        if DateOfBucket(bars[i].bucket) == date {
          volume := volume + bars[i].volume;
          turnover := turnover + bars[i].turnover;
        }
      }
      assert bars[..|bars|] == bars;
      vwap := if volume > 0 then RoundHalfEven(turnover, volume) else fallback;
    }

    method UpdateMarketAnalysis(e: Event, id: nat, previousVolume: Option<int>, previousAt: Option<int>,
                                ghost previous: Option<Event>)
      requires previousVolume == if previous.Some? then Some(previous.value.volume) else None
      requires previousAt == if previous.Some? then Some(previous.value.at) else None
      modifies `bars, `averages
      ensures bars == Upsert(old(bars), previous, e, id)
      ensures averages == old(averages)[id := Vwap(bars, DateOf(e.at), e.last)]
    {
      hide Vwap, DateOf;
      if e.updatesTrade {
        UpsertBar(e, id, previousVolume, previousAt, previous);
      }
      var vwap := AveragePrice(DateOf(e.at), e.last);
      averages := averages[id := vwap];
    }

    method IngestQuote(e: Event) returns (outcome: Outcome)
      requires Valid()
      modifies this
      ensures Valid()
      ensures (Model(), outcome) == Ingest(old(Model()), e)
      ensures averages == if outcome.Stored? && outcome.quality == Normal
                          then old(averages)[outcome.id := Vwap(bars, DateOf(e.at), e.last)] else old(averages)
    {
      hide ValidEvent, Upsert, Refines, HeadMatches, InOrder, Priced, FindSnapshot, DateOf, Vwap;
      if !ValidEvent(e) {
        return Invalid;
      }
      var existing := FindSnapshot(snapshots, e);
      if existing.Some? {
        return if snapshots[existing.value].event != e then Conflict else Duplicate(existing.value);
      }
      IngestKeeps(Model(), e);
      ghost var previous := Previous(Model());
      HeadPlace(Model());
      var quality := Normal;
      if stream.Some? && !e.recovery {
        var s := stream.value;
        var late := e.at < s.lastAt
          || (e.sequence.Some? && s.lastSequence.Some? && e.sequence.value <= s.lastSequence.value);
        var gap := s.hasGap
          || (e.sequence.Some? && s.lastSequence.Some? && e.sequence.value > s.lastSequence.value + 1)
          || (DateOf(e.at) == DateOf(s.lastAt) && e.volume < s.volume)
          || s.source != e.source;
        quality := if late then Late else if gap then GapDetected else Normal;
      }
      assert quality == QualityOf(stream, e);
      var id := |snapshots|;
      snapshots := snapshots + [Snapshot(e, quality)];
      if quality == Normal {
        UpdateMarketAnalysis(e, id, if stream.Some? then Some(stream.value.volume) else None,
                             if stream.Some? then Some(stream.value.lastAt) else None, previous);
        stream := Some(Stream(e.source, id, e.sequence, e.at, e.receivedAt, e.volume, false,
                              if stream.Some? then stream.value.version + 1 else 1));
      } else if quality == GapDetected {
        stream := Some(stream.value.(hasGap := true, version := stream.value.version + 1));
      }
      outcome := Stored(id, quality);
    }
  }

  /** The head's time and volume are those of the event the bars were last brought up to. */
  lemma HeadPlace(feed: Feed)
    requires FeedInv(feed)
    ensures Previous(feed).Some? == feed.stream.Some?
    ensures feed.stream.Some? ==>
              Previous(feed).value.volume == feed.stream.value.volume
              && Previous(feed).value.at == feed.stream.value.lastAt
  {
  }
}
