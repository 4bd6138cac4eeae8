/**
 * One quote stream. Every event is stored; only those in order move the stream
 * and the minute bars, and once a gap was seen nothing does until a recovery.
 */
module Watch {
  import opened Common
  import opened MinuteBars

  datatype Quality = Normal | Late | GapDetected

  datatype Snapshot = Snapshot(event: Event, quality: Quality)

  /** The stream's head: where it stands after the last applied event. */
  datatype Stream = Stream(
    source: string,
    current: nat,
    lastSequence: Option<int>,
    lastAt: int,
    lastReceivedAt: int,
    volume: int,
    hasGap: bool,
    version: nat)

  datatype Feed = Feed(snapshots: seq<Snapshot>, stream: Option<Stream>, bars: seq<Bar>)

  datatype Outcome = Invalid | Conflict | Duplicate(id: nat) | Stored(id: nat, quality: Quality)

  predicate ValidEvent(e: Event) {
    && 0 < |e.source| <= 32
    && 0 < |e.key| <= 128
    && e.receivedAt >= e.at
    && (e.sequence.Some? ==> e.sequence.value >= 0)
    && e.last > 0 && e.open > 0 && e.high > 0 && e.low > 0 && e.high >= e.low
    && e.volume >= 0
    && (e.bidPrice.Some? <==> e.bidQuantity.Some?)
    && (e.askPrice.Some? <==> e.askQuantity.Some?)
    && (e.bidPrice.Some? ==> e.bidPrice.value > 0 && e.bidQuantity.value >= 0)
    && (e.askPrice.Some? ==> e.askPrice.value > 0 && e.askQuantity.value >= 0)
  }

  predicate SameIdentity(a: Event, b: Event) {
    a.source == b.source && a.key == b.key
  }

  function FindSnapshot(snapshots: seq<Snapshot>, e: Event): (found: Option<nat>)
    ensures found.Some? ==> found.value < |snapshots| && SameIdentity(snapshots[found.value].event, e)
    ensures found.None? ==> forall i :: 0 <= i < |snapshots| ==> !SameIdentity(snapshots[i].event, e)
  {
    if snapshots == [] then None
    else if SameIdentity(snapshots[|snapshots| - 1].event, e) then Some(|snapshots| - 1)
    else FindSnapshot(snapshots[..|snapshots| - 1], e)
  }

  // ---------------------------------------------------------------- the automaton

  predicate IsLate(s: Stream, e: Event) {
    || e.at < s.lastAt
    || (e.sequence.Some? && s.lastSequence.Some? && e.sequence.value <= s.lastSequence.value)
  }

  predicate IsGap(s: Stream, e: Event) {
    || s.hasGap
    || (e.sequence.Some? && s.lastSequence.Some? && e.sequence.value > s.lastSequence.value + 1)
    || (DateOf(e.at) == DateOf(s.lastAt) && e.volume < s.volume)
    || s.source != e.source
  }

  function QualityOf(stream: Option<Stream>, e: Event): Quality {
    if stream.None? || e.recovery then Normal
    else if IsLate(stream.value, e) then Late
    else if IsGap(stream.value, e) then GapDetected
    else Normal
  }

  function Head(stream: Option<Stream>, e: Event, id: nat): Stream {
    Stream(e.source, id, e.sequence, e.at, e.receivedAt, e.volume, false, if stream.Some? then stream.value.version + 1
                                                                          else 1)
  }

  /** The last event the stream applied, as far as the bars need it. */
  function Previous(feed: Feed): Option<Event> {
    if feed.stream.Some? && feed.stream.value.current < |feed.snapshots|
    then Some(feed.snapshots[feed.stream.value.current].event) else None
  }

  function Store(feed: Feed, e: Event): Feed {
    var quality, id := QualityOf(feed.stream, e), |feed.snapshots|;
    Feed(feed.snapshots + [Snapshot(e, quality)],
         match quality
         case Normal => Some(Head(feed.stream, e, id))
         case Late => feed.stream
         case GapDetected => Some(feed.stream.value.(hasGap := true, version := feed.stream.value.version + 1)),
         if quality == Normal then Upsert(feed.bars, Previous(feed), e, id) else feed.bars)
  }

  function Ingest(feed: Feed, e: Event): (Feed, Outcome) {
    if !ValidEvent(e) then (feed, Invalid)
    else match FindSnapshot(feed.snapshots, e)
      case Some(id) => (feed, if feed.snapshots[id].event != e then Conflict else Duplicate(id))
      case None => (Store(feed, e), Stored(|feed.snapshots|, QualityOf(feed.stream, e)))
  }

  function IngestAll(feed: Feed, events: seq<Event>): Feed {
    if events == [] then feed else Ingest(IngestAll(feed, events[..|events| - 1]), events[|events| - 1]).0
  }

  const EMPTY := Feed([], None, [])

  // ---------------------------------------------------------------- what every ingest keeps

  /** The events that were applied, in that order. */
  function Applied(snapshots: seq<Snapshot>): seq<Event> {
    if snapshots == [] then []
    else
      var last := snapshots[|snapshots| - 1];
      Applied(snapshots[..|snapshots| - 1]) + if last.quality == Normal then [last.event] else []
  }

  /** How an applied event follows the one before it, unless it is a recovery. */
  predicate Follows(a: Event, b: Event) {
    && b.source == a.source
    && b.at >= a.at
    && (DateOf(a.at) == DateOf(b.at) ==> b.volume >= a.volume)
    && (a.sequence.Some? && b.sequence.Some? ==> b.sequence.value == a.sequence.value + 1)
  }

  predicate InOrder(events: seq<Event>) {
    forall k :: 0 < k < |events| && !events[k].recovery ==> Follows(events[k - 1], events[k])
  }

  ghost predicate DistinctIdentities(snapshots: seq<Snapshot>) {
    forall i, j :: 0 <= i < j < |snapshots| ==> !SameIdentity(snapshots[i].event, snapshots[j].event)
  }

  /** The head is the last applied event: it points to its snapshot and repeats its place, time and volume. */
  predicate HeadMatches(feed: Feed) {
    match feed.stream
    case None => feed.snapshots == []
    case Some(s) =>
      && s.current < |feed.snapshots|
      && feed.snapshots[s.current].quality == Normal
      && var e := feed.snapshots[s.current].event;
         && Last(Applied(feed.snapshots)) == Some(e)
         && s.source == e.source && s.lastSequence == e.sequence && s.lastAt == e.at
         && s.lastReceivedAt == e.receivedAt && s.volume == e.volume
  }

  ghost predicate FeedInv(feed: Feed) {
    && DistinctIdentities(feed.snapshots)
    && HeadMatches(feed)
    && InOrder(Applied(feed.snapshots))
    && Refines(feed.bars, Applied(feed.snapshots))
    && (forall i :: 0 <= i < |feed.bars| ==> Priced(feed.bars[i]))
  }

  lemma StoreApplies(feed: Feed, e: Event)
    ensures Applied(Store(feed, e).snapshots)
         == Applied(feed.snapshots) + if QualityOf(feed.stream, e) == Normal then [e] else []
  {
    hide QualityOf, Upsert, Head;
    assert Store(feed, e).snapshots[..|feed.snapshots|] == feed.snapshots;
  }

  lemma StoreKeepsOrder(feed: Feed, e: Event)
    requires HeadMatches(feed) && InOrder(Applied(feed.snapshots))
    ensures InOrder(Applied(Store(feed, e).snapshots))
  {
    hide Upsert, DateOf;
    StoreApplies(feed, e);
  }

  lemma StoreKeepsHead(feed: Feed, e: Event)
    requires HeadMatches(feed)
    ensures HeadMatches(Store(feed, e))
  {
    hide Upsert, DateOf, IsLate, IsGap;
    StoreApplies(feed, e);
  }

  lemma PreviousIsLast(feed: Feed)
    requires HeadMatches(feed)
    ensures Previous(feed) == Last(Applied(feed.snapshots))
  {
  }

  lemma StoreKeepsBars(feed: Feed, e: Event)
    requires HeadMatches(feed) && Refines(feed.bars, Applied(feed.snapshots))
    requires forall i :: 0 <= i < |feed.bars| ==> Priced(feed.bars[i])
    ensures var after := Store(feed, e);
            Refines(after.bars, Applied(after.snapshots)) && forall i :: 0 <= i < |after.bars| ==> Priced(after.bars[i])
  {
    hide Upsert, Refines, Priced, QualityOf, Head, Previous, HeadMatches;
    StoreApplies(feed, e);
    PreviousIsLast(feed);
    if QualityOf(feed.stream, e) == Normal {
      UpsertRefines(feed.bars, Applied(feed.snapshots), e, |feed.snapshots|);
      UpsertPriced(feed.bars, Previous(feed), e, |feed.snapshots|);
    } else {
      assert Applied(Store(feed, e).snapshots) == Applied(feed.snapshots);
    }
  }

  lemma IngestKeeps(feed: Feed, e: Event)
    requires FeedInv(feed)
    ensures FeedInv(Ingest(feed, e).0)
    ensures feed.snapshots <= Ingest(feed, e).0.snapshots
  {
    hide Refines, Priced, HeadMatches, InOrder, Upsert, QualityOf, ValidEvent;
    if ValidEvent(e) && FindSnapshot(feed.snapshots, e).None? {
      StoreKeepsHead(feed, e);
      StoreKeepsOrder(feed, e);
      StoreKeepsBars(feed, e);
    }
  }

  lemma NothingApplied()
    ensures FeedInv(EMPTY)
  {
    assert Refines([], []);
  }

  lemma {:induction false} IngestAllKeeps(events: seq<Event>)
    ensures FeedInv(IngestAll(EMPTY, events))
  {
    hide FeedInv, Ingest;
    if events == [] {
      NothingApplied();
    } else {
      IngestAllKeeps(events[..|events| - 1]);
      IngestKeeps(IngestAll(EMPTY, events[..|events| - 1]), events[|events| - 1]);
    }
  }

  // ---------------------------------------------------------------- duplicates

  lemma {:induction false} FindsItsSnapshot(snapshots: seq<Snapshot>, i: nat)
    requires DistinctIdentities(snapshots) && i < |snapshots|
    ensures FindSnapshot(snapshots, snapshots[i].event) == Some(i)
  {
    hide FindSnapshot;
    SymmetricIdentity(snapshots[i].event);
  }

  lemma SymmetricIdentity(e: Event)
    ensures SameIdentity(e, e)
    ensures forall f :: SameIdentity(e, f) ==> SameIdentity(f, e)
  {
  }

  lemma {:induction false} SnapshotsStay(feed: Feed, events: seq<Event>)
    requires FeedInv(feed)
    ensures FeedInv(IngestAll(feed, events)) && feed.snapshots <= IngestAll(feed, events).snapshots
  {
    hide FeedInv, Ingest;
    if events != [] {
      SnapshotsStay(feed, events[..|events| - 1]);
      IngestKeeps(IngestAll(feed, events[..|events| - 1]), events[|events| - 1]);
    }
  }

  lemma IdentitiesDiffer(feed: Feed)
    requires FeedInv(feed)
    ensures DistinctIdentities(feed.snapshots)
  {
  }

  /** An event once stored is answered from its snapshot ever after and changes nothing. */
  lemma DuplicateChangesNothing(feed: Feed, e: Event, later: seq<Event>)
    requires FeedInv(feed) && Ingest(feed, e).1.Stored?
    ensures var stored, then_ := Ingest(feed, e).0, IngestAll(Ingest(feed, e).0, later);
            Ingest(then_, e) == (then_, Duplicate(|feed.snapshots|))
  {
    hide FeedInv, QualityOf, Upsert, Head, IngestAll, SameIdentity;
    var stored := Ingest(feed, e).0;
    var then_ := IngestAll(stored, later);
    IngestKeeps(feed, e);
    SnapshotsStay(stored, later);
    IdentitiesDiffer(then_);
    assert stored.snapshots[|feed.snapshots|].event == e;
    assert then_.snapshots[|feed.snapshots|] == stored.snapshots[|feed.snapshots|];
    FindsItsSnapshot(then_.snapshots, |feed.snapshots|);
  }

  // ---------------------------------------------------------------- gaps

  /** With a gap, nothing but a recovery is applied, and the gap stays. */
  lemma {:induction false} GapIsSticky(feed: Feed, events: seq<Event>)
    requires feed.stream.Some? && feed.stream.value.hasGap
    requires forall i :: 0 <= i < |events| ==> !events[i].recovery
    ensures var after := IngestAll(feed, events);
            && after.stream.Some? && after.stream.value.hasGap
            && after.bars == feed.bars && after.stream.value.current == feed.stream.value.current
            && |feed.snapshots| <= |after.snapshots|
            && forall i :: |feed.snapshots| <= i < |after.snapshots| ==> after.snapshots[i].quality != Normal
  {
    hide IsLate, ValidEvent, Upsert, Head;
    if events != [] {
      GapIsSticky(feed, events[..|events| - 1]);
    }
  }

  /** A recovery ends the gap whatever its time, volume and sequence number. */
  lemma RecoveryEndsGap(feed: Feed, e: Event)
    requires e.recovery && Ingest(feed, e).1.Stored?
    ensures var after := Ingest(feed, e).0;
            && Ingest(feed, e).1.quality == Normal
            && after.stream.Some? && !after.stream.value.hasGap && after.stream.value.current == |feed.snapshots|
  {
  }

  // ---------------------------------------------------------------- between recoveries

  /** Between recoveries all applied events come from one source, in time order, with volume growing within a day. */
  lemma {:induction false} BetweenRecoveries(events: seq<Event>, i: nat, j: nat)
    requires InOrder(events) && i <= j < |events|
    requires forall k :: i < k <= j ==> !events[k].recovery
    ensures events[i].source == events[j].source && events[i].at <= events[j].at
    ensures DateOf(events[i].at) == DateOf(events[j].at) ==> events[i].volume <= events[j].volume
    decreases j
  {
    hide DateOf;
    if i < j {
      BetweenRecoveries(events, i, j - 1);
      assert Follows(events[j - 1], events[j]);
      LaterDate(events[i].at, events[j - 1].at);
      LaterDate(events[j - 1].at, events[j].at);
    }
  }

  /** In every run: the applied events are in order between recoveries, and the head is the last of them. */
  lemma StreamInOrder(run: seq<Event>, i: nat, j: nat)
    requires i <= j < |Applied(IngestAll(EMPTY, run).snapshots)|
    requires forall k :: i < k <= j ==> !Applied(IngestAll(EMPTY, run).snapshots)[k].recovery
    ensures var applied := Applied(IngestAll(EMPTY, run).snapshots);
            && HeadMatches(IngestAll(EMPTY, run))
            && applied[i].source == applied[j].source && applied[i].at <= applied[j].at
            && (DateOf(applied[i].at) == DateOf(applied[j].at) ==> applied[i].volume <= applied[j].volume)
            && (j == i + 1 && applied[i].sequence.Some? && applied[j].sequence.Some? ==>
                  applied[j].sequence.value == applied[i].sequence.value + 1)
  {
    hide IngestAll, Refines, HeadMatches, DateOf, DistinctIdentities, Applied;
    IngestAllKeeps(run);
    BetweenRecoveries(Applied(IngestAll(EMPTY, run).snapshots), i, j);
  }

  // ---------------------------------------------------------------- the bars of a run

  /**
   * In every run, each bar is the batch bar of its minute, and its turnover lies
   * between low and high times its volume.
   */
  lemma BarsRefineBatch(run: seq<Event>, bucket: int)
    ensures var feed := IngestAll(EMPTY, run);
            && SummaryIn(feed.bars, bucket) == SummaryOf(Applied(feed.snapshots), bucket)
            && forall i :: 0 <= i < |feed.bars| ==> Priced(feed.bars[i])
  {
    hide IngestAll, HeadMatches, InOrder, DistinctIdentities, Applied, SummaryIn, SummaryOf, Priced;
    IngestAllKeeps(run);
  }

  /** In every run, the average price of a day with volume lies between the day's lowest low and highest high. */
  lemma VwapWithinRange(run: seq<Event>, date: int, fallback: int, low: int, high: int)
    requires WithinDay(IngestAll(EMPTY, run).bars, date, low, high) && DayVolume(IngestAll(EMPTY, run).bars, date) > 0
    ensures low <= Vwap(IngestAll(EMPTY, run).bars, date, fallback) <= high
  {
    hide IngestAll, HeadMatches, InOrder, DistinctIdentities, Applied, Refines, WithinDay, DayVolume, Vwap, Priced;
    IngestAllKeeps(run);
    VwapWithinDay(IngestAll(EMPTY, run).bars, date, fallback, low, high);
  }

  /** The bars of a day add up to the shares its applied trade events brought. */
  lemma {:induction false} DayVolumeIsTraded(run: seq<Event>, date: int)
    ensures var feed := IngestAll(EMPTY, run);
            DayVolume(feed.bars, date) == Traded(Applied(feed.snapshots), date)
  {
    hide ValidEvent, FindSnapshot, DayVolume, Traded, Applied, Previous, Upsert, QualityOf, Head, FeedInv, HeadMatches;
    if run == [] {
      NothingYet(date);
    } else {
      var e := run[|run| - 1];
      var before := IngestAll(EMPTY, run[..|run| - 1]);
      DayVolumeIsTraded(run[..|run| - 1], date);
      IngestAllKeeps(run[..|run| - 1]);
      HeadKept(before);
      PreviousIsLast(before);
      if ValidEvent(e) && FindSnapshot(before.snapshots, e).None? {
        StoreApplies(before, e);
        UpsertAddsDelta(before.bars, Previous(before), e, |before.snapshots|, date);
        TradedGrows(Applied(before.snapshots), e, date);
        assert Applied(before.snapshots) + [] == Applied(before.snapshots);
      }
    }
  }

  lemma HeadKept(feed: Feed)
    requires FeedInv(feed)
    ensures HeadMatches(feed)
  {
  }

  lemma NothingYet(date: int)
    ensures DayVolume([], date) == Traded(Applied([]), date)
  {
  }

  lemma TradedGrows(events: seq<Event>, e: Event, date: int)
    ensures Traded(events + [e], date)
         == Traded(events, date) + if e.updatesTrade && DateOf(e.at) == date then Delta(Last(events), e) else 0
  {
    hide Delta, DateOf;
    assert (events + [e])[..|events|] == events;
  }

  /**
   * A day's bars add up to its last minus its first volume if from its first to
   * its last applied event neither time nor volume goes back and only trade
   * events move the volume, whatever happens on other days.
   */
  lemma DayVolumeTelescopes(run: seq<Event>, first: nat, last: nat)
    requires var applied := Applied(IngestAll(EMPTY, run).snapshots);
             && first <= last < |applied| && SteadyBetween(applied, first, last)
             && DateOf(applied[first].at) == DateOf(applied[last].at)
             && (forall k :: 0 <= k < first || last < k < |applied| ==>
                 DateOf(applied[k].at) != DateOf(applied[first].at))
    ensures var feed := IngestAll(EMPTY, run);
            var applied := Applied(feed.snapshots);
            DayVolume(feed.bars, DateOf(applied[first].at)) == applied[last].volume - applied[first].volume
  {
    hide IngestAll, Applied, DayVolume, Traded, DateOf, SteadyBetween;
    var applied := Applied(IngestAll(EMPTY, run).snapshots);
    DayVolumeIsTraded(run, DateOf(applied[first].at));
    TradedTelescopes(applied, first, last);
  }

  /**
   * Where no recovery is applied, the stream itself keeps a day steady; only quotes
   * that move the volume can disturb it.
   */
  lemma SteadyBetweenRecoveries(run: seq<Event>, first: nat, last: nat)
    requires var applied := Applied(IngestAll(EMPTY, run).snapshots);
             && first <= last < |applied|
             && (forall k :: first < k <= last ==> !applied[k].recovery)
    ensures var applied := Applied(IngestAll(EMPTY, run).snapshots);
            SteadyBetween(applied, first, last) <==>
              forall k ::
                first < k <= last && !applied[k].updatesTrade && DateOf(applied[k - 1].at) == DateOf(applied[k].at) ==>
                  applied[k].volume == applied[k - 1].volume
  {
    hide IngestAll, HeadMatches, Refines, DistinctIdentities, Applied, DateOf;
    var applied := Applied(IngestAll(EMPTY, run).snapshots);
    IngestAllKeeps(run);
    forall k | first < k <= last
      ensures Follows(applied[k - 1], applied[k])
    {
    }
  }

  // ---------------------------------------------------------------- which events are applied

  /** A gap was seen after the last applied snapshot. */
  ghost predicate GapSeen(feed: Feed) {
    && feed.stream.Some?
    && exists i :: feed.stream.value.current < i < |feed.snapshots| && feed.snapshots[i].quality == GapDetected
  }

  ghost predicate GapKnown(feed: Feed) {
    && (feed.stream.Some? ==> feed.stream.value.current < |feed.snapshots|)
    && (feed.stream.Some? ==> (feed.stream.value.hasGap <==> GapSeen(feed)))
  }

  lemma StoreKnowsGap(feed: Feed, e: Event)
    requires GapKnown(feed)
    ensures GapKnown(Store(feed, e))
  {
    hide Upsert, DateOf, IsLate, Previous;
    var after := Store(feed, e);
    var n := |feed.snapshots|;
    assert after.snapshots[..n] == feed.snapshots;
    if QualityOf(feed.stream, e) == Normal {
      assert after.stream.value.current == n;
    } else if QualityOf(feed.stream, e) == GapDetected {
      assert after.snapshots[n].quality == GapDetected;
    } else if GapSeen(feed) {
      var i :| feed.stream.value.current < i < n && feed.snapshots[i].quality == GapDetected;
      assert after.snapshots[i].quality == GapDetected;
    } else {
      assert forall i :: 0 <= i < n ==> after.snapshots[i] == feed.snapshots[i];
    }
  }

  lemma {:induction false} RunKnowsGap(events: seq<Event>)
    ensures GapKnown(IngestAll(EMPTY, events))
  {
    hide GapKnown, Store, ValidEvent, FindSnapshot;
    if events == [] {
      NoGapYet();
    } else {
      var n := |events| - 1;
      RunKnowsGap(events[..n]);
      StoreKnowsGap(IngestAll(EMPTY, events[..n]), events[n]);
    }
  }

  lemma NoGapYet()
    ensures GapKnown(EMPTY)
  {
  }

  /** The event is not older than the last applied one, by its time and by its number. */
  predicate Newer(last: Event, e: Event) {
    e.at >= last.at && (e.sequence.Some? && last.sequence.Some? ==> e.sequence.value > last.sequence.value)
  }

  /**
   * In every run a new valid event is applied exactly if it is a recovery, the
   * first one, or follows the last applied one with no gap seen since; otherwise
   * it is late exactly if it is not newer, and marks a gap if it is.
   */
  lemma AppliedExactly(run: seq<Event>, e: Event)
    requires ValidEvent(e) && FindSnapshot(IngestAll(EMPTY, run).snapshots, e).None?
    ensures var feed := IngestAll(EMPTY, run);
            var outcome := Ingest(feed, e).1;
            var last := Last(Applied(feed.snapshots));
            && outcome.Stored? && outcome.id == |feed.snapshots|
            && (last.None? <==> feed.snapshots == [])
            && (outcome.quality == Normal <==>
                  last.None? || e.recovery || (Follows(last.value, e) && !GapSeen(feed)))
            && (outcome.quality == Late <==> last.Some? && !e.recovery && !Newer(last.value, e))
            && (outcome.quality == GapDetected <==>
                  last.Some? && !e.recovery && Newer(last.value, e) && (!Follows(last.value, e) || GapSeen(feed)))
  {
    hide DateOf, ValidEvent, FindSnapshot, Refines, Priced, InOrder, GapSeen;
    IngestAllKeeps(run);
    RunKnowsGap(run);
  }

  /** What every call answers: an event is refused, known already under its identity, or stored. */
  lemma AnsweredExactly(feed: Feed, e: Event)
    requires FeedInv(feed)
    ensures var answer := Ingest(feed, e).1;
            && (answer.Stored? <==> ValidEvent(e) && forall s :: s in feed.snapshots ==> !SameIdentity(s.event, e))
            && (answer.Duplicate? <==> ValidEvent(e) && exists s :: s in feed.snapshots && s.event == e)
            && (answer.Conflict? <==>
                  ValidEvent(e) && exists s :: s in feed.snapshots && SameIdentity(s.event, e) && s.event != e)
            && (answer.Duplicate? ==> answer.id < |feed.snapshots| && feed.snapshots[answer.id].event == e)
  {
    hide ValidEvent, Store, QualityOf, Refines, HeadMatches, InOrder, Priced;
    var found := FindSnapshot(feed.snapshots, e);
    if found.Some? {
      var s := feed.snapshots[found.value];
      forall t | t in feed.snapshots && SameIdentity(t.event, e)
        ensures t == s
      {
        var i :| 0 <= i < |feed.snapshots| && feed.snapshots[i] == t;
      }
    }
  }

  /** An event is refused exactly if its names, times, prices or quantities cannot be. */
  lemma RefusedExactly(e: Event)
    ensures !ValidEvent(e) <==>
              || e.source == "" || |e.source| > 32 || e.key == "" || |e.key| > 128 || e.receivedAt < e.at
              || (e.sequence.Some? && e.sequence.value < 0)
              || e.last <= 0 || e.open <= 0 || e.high <= 0 || e.low <= 0 || e.low > e.high || e.volume < 0
              || e.bidPrice.Some? != e.bidQuantity.Some? || e.askPrice.Some? != e.askQuantity.Some?
              || (e.bidPrice.Some? && (e.bidPrice.value <= 0 || e.bidQuantity.value < 0))
              || (e.askPrice.Some? && (e.askPrice.value <= 0 || e.askQuantity.value < 0))
  {
  }
}
