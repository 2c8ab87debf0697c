/** The market narrative (narrative_timeline_engine.py): an append-only history pruned to its newest events. */
module Timeline {
  import opened SharedTypes
  import opened Numerics
  import opened Sequences

  datatype MarketEvent = MarketEvent(eventType: string, details: string, priceLevel: real, timestamp: int)

  /** Python's `xs[i:]`: a negative index counts from the end, and -0 is 0. */
  function PySuffix<T>(xs: seq<T>, i: int): (r: seq<T>)
    ensures i >= 0 ==> |r| == MaxI(0, |xs| - i)
    ensures i < 0 ==> |r| == if |xs| < -i then |xs| else -i
  {
    var start := if i < 0 then MaxI(0, |xs| + i) else i;
    if start > |xs| then [] else xs[start..]
  }

  function Reversed<T>(xs: seq<T>): seq<T> {
    seq(|xs|, i requires 0 <= i < |xs| => xs[|xs| - 1 - i])
  }

  class NarrativeTimeline {
    const maxEvents: int
    var events: seq<MarketEvent>
    var eventCount: int
    var lastUpdate: Option<int>

    ghost predicate Valid()
      reads this
    {
      eventCount == |events| && |events| <= MaxI(0, maxEvents)
    }

    constructor (maxEvents: int)
      ensures this.maxEvents == maxEvents && events == [] && lastUpdate == None && Valid()
    {
      this.maxEvents := maxEvents;
      events, eventCount, lastUpdate := [], 0, None;
    }

    method AddEvent(e: MarketEvent)
      requires Valid()
      modifies this
      ensures Valid() && lastUpdate == Some(e.timestamp)
      ensures events == Newest(old(events) + [e], maxEvents)
    {
      events := events + [e];
      lastUpdate := Some(e.timestamp);
      eventCount := |events|;
      if |events| > maxEvents {
        var excess := |events| - maxEvents;
        events := PySuffix(events, excess);
        eventCount := |events|;
      }
    }

    method AddEvents(batch: seq<MarketEvent>)
      requires Valid()
      modifies this
      ensures Valid() && events == Newest(old(events) + batch, maxEvents)
    {
      hide Newest;
      var before := events;
      NewestOfShort(before, maxEvents);
      assert before + batch[..0] == before;
      for i := 0 to |batch|
        invariant Valid() && events == Newest(before + batch[..i], maxEvents)
      {
        AddEvent(batch[i]);
        NewestOfNewest(before + batch[..i], [batch[i]], maxEvents);
        assert before + batch[..i] + [batch[i]] == before + batch[..i + 1];
      }
      assert batch[..|batch|] == batch;
    }

    /** A regime shift is recorded only against a known, different regime. */
    method UpdateFromMarketStory(previous: Option<string>, regime: string, shift: MarketEvent) returns (added: bool)
      requires Valid()
      modifies this
      ensures Valid()
      ensures added <==> previous.Some? && previous.value != regime
      ensures events == if added then Newest(old(events) + [shift], maxEvents) else old(events)
    {
      added := previous.Some? && previous.value != regime;
      if added {
        AddEvent(shift);
      }
    }

    /** Newest first; asking for zero events returns them all. */
    method GetRecentEvents(count: int) returns (recent: seq<MarketEvent>)
      requires Valid()
      ensures count > 0 ==> recent == Reversed(Newest(events, count))
      ensures count == 0 ==> recent == Reversed(events)
      ensures count < 0 ==> recent == Reversed(Newest(events, |events| + count))
    {
      recent := Reversed(PySuffix(events, -count));
    }

    method ClearSession()
      modifies this
      ensures Valid() && events == [] && lastUpdate == None
    {
      events, eventCount, lastUpdate := [], 0, None;
    }
  }

  lemma NewestOfShort<T>(xs: seq<T>, n: int)
    requires |xs| <= MaxI(0, n)
    ensures Newest(xs, n) == xs
  {
  }

  /** One event at a time, from an empty timeline. */
  function AddedOneByOne(history: seq<MarketEvent>, maxEvents: int): seq<MarketEvent> {
    if history == [] then []
    else
      var n := |history| - 1;
      Newest(AddedOneByOne(history[..n], maxEvents) + [history[n]], maxEvents)
  }

  /**
   After any history the timeline is exactly its last `max_events` events, in order; none at all if that is not
   positive.
  */
  lemma {:induction false} TimelineIsNewestHistory(history: seq<MarketEvent>, maxEvents: int)
    ensures AddedOneByOne(history, maxEvents) == Newest(history, maxEvents)
  {
    if history != [] {
      var n := |history| - 1;
      TimelineIsNewestHistory(history[..n], maxEvents);
      NewestOfNewest(history[..n], [history[n]], maxEvents);
      assert history[..n] + [history[n]] == history;
    }
  }

  /**
   Reading `count` events back gives the newest ones of the whole history, as long as the timeline holds that many.
  */
  lemma RecentEventsOfHistory(history: seq<MarketEvent>, maxEvents: int, count: int)
    requires 0 < count <= maxEvents
    ensures Newest(AddedOneByOne(history, maxEvents), count) == Newest(history, count)
  {
    TimelineIsNewestHistory(history, maxEvents);
    if |history| > maxEvents {
      assert history[|history| - maxEvents..][maxEvents - count..] == history[|history| - count..];
    }
  }
}
