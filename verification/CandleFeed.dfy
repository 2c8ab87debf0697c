/**
 The runner's one-minute candles (system_runner.py): an accumulator fed tick by tick, a rolling buffer of closed
 candles, and the loop that decides when a candle closes. The clock is a number of seconds in market time whose
 day 0 is a Monday.
*/
module CandleFeed {
  import opened SharedTypes
  import opened Numerics
  import opened Sequences

  const CANDLE_BUFFER_MAX := 100
  const MARKET_OPEN_MINUTE := 9 * 60 + 15
  const MARKET_CLOSE_MINUTE := 15 * 60 + 30

  /** A raw packet of the feed; absent keys are `None`. */
  datatype RawTick = RawTick(
    feedType: string,
    token: string,
    lastPrice: Option<real>,
    lt: Option<real>,
    ltp: Option<real>,
    volume: Option<int>)

  datatype Tick = Tick(price: real, volume: int)

  datatype Bar = Bar(open: real, high: real, low: real, close: real, volume: int)

  datatype Candle = Candle(bar: Bar, stamp: int)

  predicate Truthy(x: Option<real>) {
    x.Some? && x.value != 0.0
  }

  function QuotedPrice(raw: RawTick): real {
    if Truthy(raw.lastPrice) then raw.lastPrice.value
    else if Truthy(raw.lt) then raw.lt.value
    else if Truthy(raw.ltp) then raw.ltp.value
    else 0.0
  }

  /** Only spot ticks of the index itself, with a positive price, reach the candle. */
  function Accepted(raw: RawTick): Option<Tick> {
    if raw.feedType == "spot_tick" && raw.token == "26000" && QuotedPrice(raw) > 0.0 then
      Some(Tick(QuotedPrice(raw), if raw.volume.Some? then raw.volume.value else 1))
    else None
  }

  // ----- The clock -----

  function MinuteOfDay(now: int): int {
    now % 86400 / 60
  }

  predicate MarketHours(now: int) {
    now / 86400 % 7 < 5 && MARKET_OPEN_MINUTE <= MinuteOfDay(now) <= MARKET_CLOSE_MINUTE
  }

  function CandleIndex(now: int): int {
    MaxI(0, MinuteOfDay(now) - MARKET_OPEN_MINUTE)
  }

  /** Neither quoted nor, in Python's eyes, anything but missing. */
  predicate Missing(x: Option<real>) {
    x == None || x == Some(0.0)
  }

  /** Which ticks reach the candle, and with what: the first price that is not missing, and a volume of 1 by default. */
  lemma AcceptedIff(raw: RawTick, t: Tick)
    ensures Accepted(raw) == Some(t) <==>
            && raw.feedType == "spot_tick" && raw.token == "26000" && t.price > 0.0
            && (|| raw.lastPrice == Some(t.price)
                || (Missing(raw.lastPrice) && raw.lt == Some(t.price))
                || (Missing(raw.lastPrice) && Missing(raw.lt) && raw.ltp == Some(t.price)))
            && (raw.volume == Some(t.volume) || (raw.volume == None && t.volume == 1))
  {
  }

  /** 9:15 to 15:30 on the first five days of the week, both minutes included. */
  lemma HoursOfTheDay(day: int, minute: int, second: int)
    requires 0 <= minute < 1440 && 0 <= second < 60
    ensures var now := 86400 * day + 60 * minute + second;
            && (MarketHours(now) <==> day % 7 < 5 && 9 * 60 + 15 <= minute <= 15 * 60 + 30)
            && CandleIndex(now) == if minute < 9 * 60 + 15 then 0 else minute - (9 * 60 + 15)
  {
    var now := 86400 * day + 60 * minute + second;
    assert now / 86400 == day && now % 86400 == 60 * minute + second;
  }

  // ----- The feed as a state machine -----

  datatype FeedState = FeedState(
    session: bool,
    lastIndex: int,
    callbacks: nat,
    price: real,
    bar: Option<Bar>,
    buffer: seq<Candle>)

  /** `calculated`: should a candle close in this pass, Floors 3 and 4 get through and the Captain is reached. */
  datatype FeedEvent = TickArrives(raw: RawTick) | LoopPass(now: int, calculated: bool)

  const FRESH_FEED := FeedState(false, -1, 0, 0.0, None, [])

  function Extended(bar: Option<Bar>, t: Tick): Bar {
    match bar
    case None => Bar(t.price, t.price, t.price, t.price, t.volume)
    case Some(b) =>
      Bar(b.open, MaxR(b.high, t.price), MinR(b.low, t.price), t.price, b.volume + MaxI(0, t.volume))
  }

  function Tracked(s: FeedState, raw: RawTick): FeedState {
    match Accepted(raw)
    case None => s
    case Some(t) => s.(price := t.price, bar := Some(Extended(s.bar, t)))
  }

  /** Every registered callback sees the tick. */
  function Delivered(s: FeedState, raw: RawTick, copies: nat): FeedState {
    if copies == 0 then s else Tracked(Delivered(s, raw, copies - 1), raw)
  }

  function CandleClosed(s: FeedState, now: int): FeedState {
    s.(lastIndex := CandleIndex(now), bar := None,
       buffer := if s.bar.Some? then Newest(s.buffer + [Candle(s.bar.value, now)], CANDLE_BUFFER_MAX) else s.buffer)
  }

  /** Each session start registers one more price tracker; none is ever removed. */
  function SessionStarted(s: FeedState): FeedState {
    if s.session then s else s.(session := true, lastIndex := -1, callbacks := s.callbacks + 1)
  }

  predicate Closes(s: FeedState, now: int) {
    MarketHours(now) && CandleIndex(now) != SessionStarted(s).lastIndex
  }

  function LoopPassed(s: FeedState, now: int): FeedState {
    if MarketHours(now) then
      var t := SessionStarted(s);
      if CandleIndex(now) != t.lastIndex then CandleClosed(t, now) else t
    else if s.session then s.(session := false, lastIndex := -1)
    else s
  }

  function Step(s: FeedState, e: FeedEvent): FeedState {
    match e
    case TickArrives(raw) => Delivered(s, raw, s.callbacks)
    case LoopPass(now, _) => LoopPassed(s, now)
  }

  /**
   What a pass asks of the Captain; a heavy cycle is given the closed candle with the rest of the buffer. A failure on
   the way there is caught, and the candle is closed all the same.
  */
  datatype CaptainCall =
    | SessionCall
    | HeavyCall(candle: int, price: real, candles: seq<Candle>)
    | CalculationFailed(candle: int)
    | LightCall(candle: int, price: real)

  function CloseCall(now: int, calculated: bool, price: real, candles: seq<Candle>): CaptainCall {
    if calculated then HeavyCall(CandleIndex(now), price, candles) else CalculationFailed(CandleIndex(now))
  }

  function CallsOfPass(s: FeedState, now: int, calculated: bool): seq<CaptainCall> {
    if !MarketHours(now) then []
    else
      var after := LoopPassed(s, now);
      (if s.session then [] else [SessionCall])
      + (if Closes(s, now) then [CloseCall(now, calculated, s.price, after.buffer)] else [])
      + [LightCall(after.lastIndex, s.price)]
  }

  function Run(events: seq<FeedEvent>): FeedState {
    if events == [] then FRESH_FEED
    else Step(Run(events[..|events| - 1]), events[|events| - 1])
  }

  // ----- The object -----

  class CandleRunner {
    var sessionStarted: bool
    var lastCandleIndex: int
    var trackers: nat
    var currentPrice: real
    var candleOpen: real
    var candleHigh: real
    var candleLow: real
    var candleClose: real
    var candleVolume: int
    var candleInitialized: bool
    var candleBuffer: seq<Candle>

    /** The guard of the running minimum, `low > 0`, never fails once a candle has begun. */
    ghost predicate Valid()
      reads this
    {
      candleInitialized ==> candleLow > 0.0
    }

    ghost function View(): FeedState
      reads this
    {
      FeedState(sessionStarted, lastCandleIndex, trackers, currentPrice,
                if candleInitialized
                then Some(Bar(candleOpen, candleHigh, candleLow, candleClose, candleVolume)) else None,
                candleBuffer)
    }

    constructor ()
      ensures Valid() && View() == FRESH_FEED
    {
      sessionStarted, lastCandleIndex, trackers, currentPrice := false, -1, 0, 0.0;
      candleOpen, candleHigh, candleLow, candleClose, candleVolume := 0.0, 0.0, 0.0, 0.0, 0;
      candleInitialized, candleBuffer := false, [];
    }

    method TrackPrice(raw: RawTick)
      requires Valid()
      modifies this
      ensures Valid() && View() == Tracked(old(View()), raw)
    {
      if raw.feedType != "spot_tick" {
        return;
      }
      if raw.token != "26000" {
        return;
      }
      var price := QuotedPrice(raw);
      if price <= 0.0 {
        return;
      }
      currentPrice := price;
      var volume := if raw.volume.Some? then raw.volume.value else 1;
      if !candleInitialized {
        candleOpen, candleHigh, candleLow, candleClose := price, price, price, price;
        candleVolume := volume;
        candleInitialized := true;
      } else {
        candleHigh := MaxR(candleHigh, price);
        candleLow := if candleLow > 0.0 then MinR(candleLow, price) else price;
        candleClose := price;
        if volume > 0 {
          candleVolume := candleVolume + volume;
        }
      }
    }

    method ReceiveData(raw: RawTick)
      requires Valid()
      modifies this
      ensures Valid() && View() == Step(old(View()), TickArrives(raw))
    {
      var n := trackers;
      for i := 0 to n
        invariant Valid() && View() == Delivered(old(View()), raw, i)
        invariant trackers == n
      {
        TrackPrice(raw);
      }
    }

    /** Returns the heavy cycle that it runs on the new buffer, or the failure that kept it from that. */
    method OnCandleClose(now: int, index: int, calculated: bool) returns (call: CaptainCall)
      requires Valid() && index == CandleIndex(now)
      modifies this
      ensures Valid() && View() == CandleClosed(old(View()), now)
      ensures currentPrice == old(currentPrice)
      ensures call == CloseCall(now, calculated, currentPrice, candleBuffer)
    {
      lastCandleIndex := index;
      if candleInitialized {
        var bar := Bar(candleOpen, candleHigh, candleLow, candleClose, candleVolume);
        candleBuffer := candleBuffer + [Candle(bar, now)];
        if |candleBuffer| > CANDLE_BUFFER_MAX {
          candleBuffer := candleBuffer[|candleBuffer| - CANDLE_BUFFER_MAX..];
        }
      }
      candleInitialized := false;
      candleOpen, candleHigh, candleLow, candleClose, candleVolume := 0.0, 0.0, 0.0, 0.0, 0;
      if !calculated {
        return CalculationFailed(index);
      }
      call := HeavyCall(index, currentPrice, candleBuffer);
    }

    method StartSession() returns (call: CaptainCall)
      requires Valid() && !sessionStarted
      modifies this
      ensures Valid() && View() == SessionStarted(old(View()))
      ensures call == SessionCall
    {
      sessionStarted := true;
      lastCandleIndex := -1;
      call := SessionCall;
      trackers := trackers + 1;
    }

    /** The pass ends with a light cycle, whether or not a candle closed. */
    method OnMarketTick(now: int, calculated: bool) returns (calls: seq<CaptainCall>)
      requires Valid() && MarketHours(now)
      modifies this
      ensures Valid() && View() == LoopPassed(old(View()), now)
      ensures calls == CallsOfPass(old(View()), now, calculated)
    {
      calls := [];
      if !sessionStarted {
        var start := StartSession();
        calls := calls + [start];
      }
      var index := CandleIndex(now);
      if index != lastCandleIndex {
        var heavy := OnCandleClose(now, index, calculated);
        calls := calls + [heavy];
      }
      calls := calls + [LightCall(lastCandleIndex, currentPrice)];
    }

    method OnIdle()
      requires Valid()
      modifies this
      ensures Valid()
      ensures View() == if old(sessionStarted) then old(View()).(session := false, lastIndex := -1) else old(View())
    {
      if sessionStarted {
        sessionStarted := false;
        lastCandleIndex := -1;
      }
    }

    method MainLoopPass(now: int, calculated: bool) returns (calls: seq<CaptainCall>)
      requires Valid()
      modifies this
      ensures Valid() && View() == Step(old(View()), LoopPass(now, calculated))
      ensures calls == CallsOfPass(old(View()), now, calculated)
    {
      calls := [];
      if MarketHours(now) {
        calls := OnMarketTick(now, calculated);
      } else {
        OnIdle();
      }
    }
  }

  // ----- The batch form -----

  /** What a candle is supposed to be: the extremes, the ends and the volume of the minute's ticks. */
  ghost predicate IsBarOf(bar: Bar, ticks: seq<Tick>, copies: nat)
    requires ticks != [] && copies >= 1
  {
    && bar.open == ticks[0].price
    && bar.close == ticks[|ticks| - 1].price
    && (forall i :: 0 <= i < |ticks| ==> bar.low <= ticks[i].price <= bar.high)
    && (exists i :: 0 <= i < |ticks| && ticks[i].price == bar.high)
    && (exists i :: 0 <= i < |ticks| && ticks[i].price == bar.low)
    && bar.volume == ticks[0].volume + (copies - 1) * MaxI(0, ticks[0].volume) + copies * PositiveVolume(ticks[1..])
  }

  function PositiveVolume(ticks: seq<Tick>): nat {
    if ticks == [] then 0
    else PositiveVolume(ticks[..|ticks| - 1]) + MaxI(0, ticks[|ticks| - 1].volume)
  }

  /** The accepted ticks of one candle, how many trackers were registered, and when it closed. */
  datatype Batch = Batch(ticks: seq<Tick>, copies: nat, stamp: int)

  function TicksOf(raw: RawTick): seq<Tick> {
    if Accepted(raw).Some? then [Accepted(raw).value] else []
  }

  /** The accepted ticks since the last candle close; ticks before the first session start reach nobody. */
  function Pending(events: seq<FeedEvent>): seq<Tick> {
    if events == [] then []
    else
      var before := events[..|events| - 1];
      match events[|events| - 1]
      case TickArrives(raw) => if Run(before).callbacks > 0 then Pending(before) + TicksOf(raw) else []
      case LoopPass(now, _) => if Closes(Run(before), now) then [] else Pending(before)
  }

  function Batches(events: seq<FeedEvent>): seq<Batch> {
    if events == [] then []
    else
      var before := events[..|events| - 1];
      match events[|events| - 1]
      case TickArrives(raw) => Batches(before)
      case LoopPass(now, _) =>
        if Closes(Run(before), now) && Pending(before) != [] then
          Batches(before) + [Batch(Pending(before), Run(before).callbacks, now)]
        else Batches(before)
  }

  ghost predicate IsCandleOf(c: Candle, b: Batch) {
    b.ticks != [] && b.copies >= 1 && IsBarOf(c.bar, b.ticks, b.copies) && c.stamp == b.stamp
  }

  ghost predicate Matches(candles: seq<Candle>, batches: seq<Batch>) {
    |candles| == |batches| && forall i :: 0 <= i < |candles| ==> IsCandleOf(candles[i], batches[i])
  }

  // ----- One tick, delivered k times -----

  ghost predicate SameButPriceAndBar(s: FeedState, t: FeedState) {
    t == s.(price := t.price, bar := t.bar)
  }

  lemma {:induction false} DeliveredCopies(s: FeedState, raw: RawTick, copies: nat)
    ensures Accepted(raw) == None || copies == 0 ==> Delivered(s, raw, copies) == s
    ensures Accepted(raw).Some? && copies > 0 ==>
              var t := Accepted(raw).value;
              var first := Extended(s.bar, t);
              Delivered(s, raw, copies) ==
              s.(price := t.price,
                 bar := Some(first.(volume := first.volume + (copies - 1) * MaxI(0, t.volume))))
  {
    if copies > 1 {
      DeliveredCopies(s, raw, copies - 1);
      var v := if Accepted(raw).Some? then MaxI(0, Accepted(raw).value.volume) else 0;
      assert (copies - 1) * v == (copies - 2) * v + v;
    } else if copies == 1 {
      assert Delivered(s, raw, 1) == Tracked(s, raw);
    }
  }

  lemma BarGrows(bar: Bar, ticks: seq<Tick>, t: Tick, copies: nat, next: Bar)
    requires ticks != [] && copies >= 1 && IsBarOf(bar, ticks, copies)
    requires var first := Extended(Some(bar), t);
             next == first.(volume := first.volume + (copies - 1) * MaxI(0, t.volume))
    ensures IsBarOf(next, ticks + [t], copies)
  {
    var n := |ticks|;
    var all := ticks + [t];
    var hi :| 0 <= hi < n && ticks[hi].price == bar.high;
    var lo :| 0 <= lo < n && ticks[lo].price == bar.low;
    assert all[if bar.high < t.price then n else hi].price == next.high;
    assert all[if t.price < bar.low then n else lo].price == next.low;
    VolumeGrows(ticks, t, copies);
  }

  lemma VolumeGrows(ticks: seq<Tick>, t: Tick, copies: nat)
    requires ticks != [] && copies >= 1
    ensures copies * PositiveVolume((ticks + [t])[1..])
            == copies * PositiveVolume(ticks[1..]) + MaxI(0, t.volume) + (copies - 1) * MaxI(0, t.volume)
  {
    var rest, v := ticks[1..], MaxI(0, t.volume);
    assert (ticks + [t])[1..] == rest + [t];
    assert (rest + [t])[..|rest|] == rest;
    assert PositiveVolume(rest + [t]) == PositiveVolume(rest) + v;
    Distributes(copies, PositiveVolume(rest), v);
  }

  lemma Distributes(k: int, a: int, c: int)
    ensures k * (a + c) == k * a + c + (k - 1) * c
  {
  }

  lemma FirstTick(t: Tick, copies: nat)
    requires copies >= 1
    ensures var first := Extended(None, t);
            IsBarOf(first.(volume := first.volume + (copies - 1) * MaxI(0, t.volume)), [t], copies)
  {
  }

  // ----- Whole runs -----

  ghost predicate BarMatches(s: FeedState, ticks: seq<Tick>) {
    && (s.bar.Some? <==> ticks != [])
    && (s.bar.Some? ==> s.callbacks >= 1 && IsBarOf(s.bar.value, ticks, s.callbacks))
  }

  lemma TickKeepsBar(s: FeedState, raw: RawTick, ticks: seq<Tick>)
    requires BarMatches(s, ticks)
    ensures BarMatches(Step(s, TickArrives(raw)), if s.callbacks > 0 then ticks + TicksOf(raw) else [])
    ensures SameButPriceAndBar(s, Step(s, TickArrives(raw)))
  {
    hide IsBarOf;
    DeliveredCopies(s, raw, s.callbacks);
    if s.callbacks > 0 {
      if Accepted(raw).Some? {
        var t := Accepted(raw).value;
        if ticks == [] {
          FirstTick(t, s.callbacks);
          assert ticks + [t] == [t];
        } else {
          BarGrows(s.bar.value, ticks, t, s.callbacks, Step(s, TickArrives(raw)).bar.value);
        }
      } else {
        assert ticks + TicksOf(raw) == ticks;
      }
    }
  }

  lemma LastOneMore(candles: seq<Candle>, batches: seq<Batch>, c: Candle, b: Batch)
    requires Matches(candles, Newest(batches, CANDLE_BUFFER_MAX)) && IsCandleOf(c, b)
    ensures Matches(Newest(candles + [c], CANDLE_BUFFER_MAX), Newest(batches + [b], CANDLE_BUFFER_MAX))
  {
  }

  /**
   After any run of ticks and loop passes, the accumulator is the batch bar of the ticks since the last close and
   the buffer holds the batch candles of the last hundred non-empty minutes, in order. No candle mixes two
   registration counts.
  */
  lemma {:induction false} RunFollowsBatches(events: seq<FeedEvent>)
    ensures BarMatches(Run(events), Pending(events))
    ensures Matches(Run(events).buffer, Newest(Batches(events), CANDLE_BUFFER_MAX))
    ensures |Run(events).buffer| <= CANDLE_BUFFER_MAX
  {
    hide IsBarOf;
    if events != [] {
      var before, e := events[..|events| - 1], events[|events| - 1];
      var s := Run(before);
      RunFollowsBatches(before);
      match e {
        case TickArrives(raw) => TickKeepsBar(s, raw, Pending(before));
        case LoopPass(now, _) =>
          if Closes(s, now) && Pending(before) != [] {
            LastOneMore(s.buffer, Batches(before), Candle(s.bar.value, now),
                        Batch(Pending(before), s.callbacks, now));
          }
      }
    }
  }

  /**
   Registering the tracker again and again leaves open, high, low and close alone, but the volume of a candle is
   multiplied by the number of trackers -- exactly so unless its first volume is negative.
  */
  lemma TrackersMultiplyVolume(one: Bar, many: Bar, ticks: seq<Tick>, copies: nat)
    requires ticks != [] && copies >= 1
    requires IsBarOf(one, ticks, 1) && IsBarOf(many, ticks, copies)
    ensures many.(volume := 0) == one.(volume := 0)
    ensures many.volume == copies * one.volume <==> copies == 1 || ticks[0].volume >= 0
  {
  }

  // ----- The same run with a single tracker -----

  /** The runner with no more than one price tracker, however often a session starts. */
  function RunOnce(events: seq<FeedEvent>): FeedState {
    if events == [] then FRESH_FEED
    else
      var next := Step(RunOnce(events[..|events| - 1]), events[|events| - 1]);
      next.(callbacks := MinI(1, next.callbacks))
  }

  function Singles(batches: seq<Batch>): seq<Batch> {
    seq(|batches|, i requires 0 <= i < |batches| => batches[i].(copies := 1))
  }

  ghost predicate InStep(s: FeedState, t: FeedState) {
    t == s.(callbacks := MinI(1, s.callbacks), bar := t.bar, buffer := t.buffer) && (s.bar.Some? <==> t.bar.Some?)
  }

  lemma StepInStep(s: FeedState, t: FeedState, e: FeedEvent)
    requires InStep(s, t)
    ensures var next := Step(t, e); InStep(Step(s, e), next.(callbacks := MinI(1, next.callbacks)))
  {
    if e.TickArrives? {
      DeliveredCopies(s, e.raw, s.callbacks);
      DeliveredCopies(t, e.raw, t.callbacks);
    }
  }

  lemma {:induction false} OnceFollowsBatches(events: seq<FeedEvent>)
    ensures InStep(Run(events), RunOnce(events))
    ensures BarMatches(RunOnce(events), Pending(events))
    ensures Matches(RunOnce(events).buffer, Newest(Singles(Batches(events)), CANDLE_BUFFER_MAX))
  {
    hide IsBarOf;
    if events != [] {
      var before, e := events[..|events| - 1], events[|events| - 1];
      var s := RunOnce(before);
      OnceFollowsBatches(before);
      StepInStep(Run(before), s, e);
      match e {
        case TickArrives(raw) => TickKeepsBar(s, raw, Pending(before));
        case LoopPass(now, _) =>
          if Closes(s, now) && Pending(before) != [] {
            var b := Batch(Pending(before), s.callbacks, now);
            LastOneMore(s.buffer, Singles(Batches(before)), Candle(s.bar.value, now), b);
            assert Singles(Batches(events)) == Singles(Batches(before)) + [b];
          }
      }
    }
  }

  /**
   Against a runner that tracks prices once, every buffered candle has the same open, high, low, close and stamp, and
   its volume is multiplied by the trackers registered by then -- exactly so unless its first volume is negative.
  */
  lemma SessionsMultiplyVolume(events: seq<FeedEvent>)
    ensures var batches, many, one :=
              Newest(Batches(events), CANDLE_BUFFER_MAX), Run(events).buffer, RunOnce(events).buffer;
            && |many| == |one| == |batches|
            && forall i :: 0 <= i < |many| ==> SameCandleScaled(one[i], many[i], batches[i])
  {
    RunFollowsBatches(events);
    OnceFollowsBatches(events);
    var all := Batches(events);
    var batches, singles := Newest(all, CANDLE_BUFFER_MAX), Newest(Singles(all), CANDLE_BUFFER_MAX);
    var many, one := Run(events).buffer, RunOnce(events).buffer;
    hide Run, RunOnce, Batches;
    forall i | 0 <= i < |many| ensures SameCandleScaled(one[i], many[i], batches[i]) {
      assert singles[i] == batches[i].(copies := 1);
      assert IsCandleOf(many[i], batches[i]) && IsCandleOf(one[i], singles[i]);
      TrackersMultiplyVolume(one[i].bar, many[i].bar, batches[i].ticks, batches[i].copies);
    }
  }

  /** A tick of volume 10 in the second session of a run: a candle of volume 20. */
  function SecondSession(): seq<FeedEvent> {
    [LoopPass(36000, true), LoopPass(60000, true), LoopPass(122400, true),
     TickArrives(RawTick("spot_tick", "26000", Some(100.0), None, None, Some(10))), LoopPass(122460, true)]
  }

  lemma SecondSessionDoublesVolume()
    ensures |Run(SecondSession()).buffer| == |RunOnce(SecondSession()).buffer| == 1
    ensures Run(SecondSession()).buffer[0].bar.volume == 20 && RunOnce(SecondSession()).buffer[0].bar.volume == 10
  {
    var run := SecondSession();
    assert run[..5] == run;
    SecondSessionStarts();
    PrefixStep(run, 3);
    PrefixStep(run, 4);
    hide Step, Run, RunOnce;
    TickAndClose(2);
    TickAndClose(1);
  }

  lemma SecondSessionStarts()
    ensures Run(SecondSession()[..3]) == FeedState(true, 45, 2, 0.0, None, [])
    ensures RunOnce(SecondSession()[..3]) == FeedState(true, 45, 1, 0.0, None, [])
  {
    var run := SecondSession();
    PrefixStep(run, 0);
    PrefixStep(run, 1);
    PrefixStep(run, 2);
    hide Step, Run, RunOnce;
    StartAndIdle(0, 36000);
    StartAndIdle(1, 122400);
  }

  lemma StartAndIdle(k: nat, now: int)
    requires now == 36000 || now == 122400
    ensures Step(FeedState(false, -1, k, 0.0, None, []), LoopPass(now, true))
            == FeedState(true, 45, k + 1, 0.0, None, [])
    ensures Step(FeedState(true, 45, k + 1, 0.0, None, []), LoopPass(60000, true))
            == FeedState(false, -1, k + 1, 0.0, None, [])
  {
  }

  lemma TickAndClose(k: nat)
    requires k == 1 || k == 2
    ensures var run := SecondSession();
            var ticked := Step(FeedState(true, 45, k, 0.0, None, []), run[3]);
            && ticked.callbacks == k
            && Step(ticked, run[4]).buffer == [Candle(Bar(100.0, 100.0, 100.0, 100.0, 10 * k), 122460)]
  {
    var s := FeedState(true, 45, k, 0.0, None, []);
    DeliveredCopies(s, SecondSession()[3].raw, k);
    var bar := Bar(100.0, 100.0, 100.0, 100.0, 10 * k);
    assert Step(s, SecondSession()[3]) == s.(price := 100.0, bar := Some(bar));
  }

  lemma PrefixStep(run: seq<FeedEvent>, i: nat)
    requires i < |run|
    ensures Run(run[..i + 1]) == Step(Run(run[..i]), run[i])
    ensures RunOnce(run[..i + 1]) ==
            var next := Step(RunOnce(run[..i]), run[i]); next.(callbacks := MinI(1, next.callbacks))
    ensures i == 0 ==> Run(run[..i]) == RunOnce(run[..i]) == FRESH_FEED
  {
    hide Step;
    assert run[..i + 1][..i] == run[..i];
  }

  ghost predicate SameCandleScaled(one: Candle, many: Candle, b: Batch) {
    && many.stamp == one.stamp && many.bar.(volume := 0) == one.bar.(volume := 0)
    && b.ticks != []
    && (many.bar.volume == b.copies * one.bar.volume <==> b.copies == 1 || b.ticks[0].volume >= 0)
  }

  // ----- What the Captain is asked to do -----

  function Calls(events: seq<FeedEvent>): seq<CaptainCall> {
    if events == [] then []
    else
      var before, last := events[..|events| - 1], events[|events| - 1];
      Calls(before) + (if last.LoopPass? then CallsOfPass(Run(before), last.now, last.calculated) else [])
  }

  /** The last candle closed since the session started. */
  function LastClose(calls: seq<CaptainCall>): Option<int> {
    if calls == [] then None
    else
      match calls[|calls| - 1]
      case SessionCall => None
      case HeavyCall(candle, _, _) => Some(candle)
      case CalculationFailed(candle) => Some(candle)
      case LightCall(_, _) => LastClose(calls[..|calls| - 1])
  }

  /** A light cycle carries the candle closed last, which belongs to the same session. */
  ghost predicate LightsFollowCloses(calls: seq<CaptainCall>) {
    forall i :: 0 <= i < |calls| && calls[i].LightCall? ==> LastClose(calls[..i]) == Some(calls[i].candle)
  }

  lemma OneMoreCall(calls: seq<CaptainCall>, call: CaptainCall)
    requires LightsFollowCloses(calls)
    requires call.LightCall? ==> LastClose(calls) == Some(call.candle)
    ensures LightsFollowCloses(calls + [call])
    ensures LastClose(calls + [call]) ==
            match call
            case SessionCall => None
            case HeavyCall(c, _, _) => Some(c)
            case CalculationFailed(c) => Some(c)
            case LightCall(_, _) => LastClose(calls)
  {
    var all := calls + [call];
    assert all[..|calls|] == calls;
    forall i | 0 <= i < |all| && all[i].LightCall? ensures LastClose(all[..i]) == Some(all[i].candle) {
      assert i < |calls| ==> all[..i] == calls[..i];
    }
  }

  lemma PassKeepsLights(s: FeedState, calls: seq<CaptainCall>, now: int, calculated: bool)
    requires LightsFollowCloses(calls) && (s.session ==> LastClose(calls) == Some(s.lastIndex))
    ensures var all, after := calls + CallsOfPass(s, now, calculated), LoopPassed(s, now);
            LightsFollowCloses(all) && (after.session ==> LastClose(all) == Some(after.lastIndex))
  {
    hide LightsFollowCloses, LastClose;
    var after := LoopPassed(s, now);
    if MarketHours(now) {
      var c0 := calls + (if s.session then [] else [SessionCall]);
      if !s.session {
        OneMoreCall(calls, SessionCall);
      } else {
        assert c0 == calls;
      }
      var heavy := CloseCall(now, calculated, s.price, after.buffer);
      var c1 := c0 + (if Closes(s, now) then [heavy] else []);
      if Closes(s, now) {
        OneMoreCall(c0, heavy);
      } else {
        assert c1 == c0;
      }
      OneMoreCall(c1, LightCall(after.lastIndex, s.price));
      assert c1 + [LightCall(after.lastIndex, s.price)] == calls + CallsOfPass(s, now, calculated);
    } else {
      assert calls + CallsOfPass(s, now, calculated) == calls;
    }
  }

  /** Over any run, every light cycle comes after a candle close of its session and speaks of the last one. */
  lemma {:induction false} LightCyclesFollowCloses(events: seq<FeedEvent>)
    ensures LightsFollowCloses(Calls(events))
    ensures Run(events).session ==> LastClose(Calls(events)) == Some(Run(events).lastIndex)
  {
    if events != [] {
      var before, last := events[..|events| - 1], events[|events| - 1];
      LightCyclesFollowCloses(before);
      hide LightsFollowCloses, LastClose, CallsOfPass, LoopPassed;
      match last {
        case TickArrives(raw) =>
          DeliveredCopies(Run(before), raw, Run(before).callbacks);
          assert Calls(events) == Calls(before);
        case LoopPass(now, calculated) => PassKeepsLights(Run(before), Calls(before), now, calculated);
      }
    }
  }

  // ----- One close per minute -----

  /** The calls of `day`, which goes on where `earlier` ended. */
  function CallsSince(earlier: seq<FeedEvent>, day: seq<FeedEvent>): seq<CaptainCall> {
    if day == [] then []
    else
      var n := |day| - 1;
      CallsSince(earlier, day[..n])
      + (if day[n].LoopPass? then CallsOfPass(Run(earlier + day[..n]), day[n].now, day[n].calculated) else [])
  }

  lemma {:induction false} CallsGoOn(earlier: seq<FeedEvent>, day: seq<FeedEvent>)
    ensures Calls(earlier + day) == Calls(earlier) + CallsSince(earlier, day)
  {
    hide Calls, CallsOfPass, Run;
    if day == [] {
      assert earlier + day == earlier;
    } else {
      CallsGoOn(earlier, day[..|day| - 1]);
      OneMoreEvent(earlier, day);
      hide CallsSince;
    }
  }

  lemma OneMoreEvent(earlier: seq<FeedEvent>, day: seq<FeedEvent>)
    requires day != []
    ensures var n := |day| - 1;
            var s := Run(earlier + day[..n]);
            && Run(earlier + day) == Step(s, day[n])
            && Calls(earlier + day) == Calls(earlier + day[..n])
               + (if day[n].LoopPass? then CallsOfPass(s, day[n].now, day[n].calculated) else [])
            && CallsSince(earlier, day) == CallsSince(earlier, day[..n])
               + (if day[n].LoopPass? then CallsOfPass(s, day[n].now, day[n].calculated) else [])
  {
    hide Step, CallsOfPass;
    assert (earlier + day)[..|earlier + day| - 1] == earlier + day[..|day| - 1];
  }

  /** The candle indices of the heavy cycles of `day`. */
  function HeavyCandles(earlier: seq<FeedEvent>, day: seq<FeedEvent>): seq<int> {
    HeavyIndices(CallsSince(earlier, day))
  }

  function HeavyIndices(calls: seq<CaptainCall>): seq<int> {
    if calls == [] then []
    else
      var last := calls[|calls| - 1];
      HeavyIndices(calls[..|calls| - 1]) + (if last.HeavyCall? then [last.candle] else [])
  }

  lemma {:induction false} HeavyIndicesConcat(a: seq<CaptainCall>, b: seq<CaptainCall>)
    ensures HeavyIndices(a + b) == HeavyIndices(a) + HeavyIndices(b)
  {
    if b == [] {
      assert a + b == a;
    } else {
      assert (a + b)[..|a + b| - 1] == a + b[..|b| - 1];
      HeavyIndicesConcat(a, b[..|b| - 1]);
    }
  }

  lemma HeavyIndicesOfPass(s: FeedState, now: int, calculated: bool)
    ensures HeavyIndices(CallsOfPass(s, now, calculated))
            == if Closes(s, now) && calculated then [CandleIndex(now)] else []
  {
    var start := if s.session then [] else [SessionCall];
    var heavy := if Closes(s, now) then [CloseCall(now, calculated, s.price, LoopPassed(s, now).buffer)] else [];
    var light := [LightCall(LoopPassed(s, now).lastIndex, s.price)];
    HeavyIndicesConcat(start + heavy, light);
    HeavyIndicesConcat(start, heavy);
  }

  ghost predicate OneDay(events: seq<FeedEvent>, day: int) {
    && (forall i :: 0 <= i < |events| && events[i].LoopPass? ==> events[i].now / 86400 == day)
    && (forall i, j :: 0 <= i < j < |events| && events[i].LoopPass? && events[j].LoopPass? ==>
          events[i].now <= events[j].now)
  }

  ghost predicate PassedBy(events: seq<FeedEvent>, now: int) {
    forall i :: 0 <= i < |events| && events[i].LoopPass? ==> events[i].now <= now
  }

  /** Where the session of a single day stands at `now`. */
  ghost predicate DayProgress(s: FeedState, heavies: seq<int>, now: int) {
    && Increasing(heavies)
    && (forall i :: 0 <= i < |heavies| ==> 0 <= heavies[i] <= MARKET_CLOSE_MINUTE - MARKET_OPEN_MINUTE)
    && (s.session ==> s.lastIndex <= MinuteOfDay(now) - MARKET_OPEN_MINUTE)
    && (s.session && heavies != [] ==> heavies[|heavies| - 1] <= s.lastIndex)
    && (heavies != [] ==> heavies[|heavies| - 1] <= MinuteOfDay(now) - MARKET_OPEN_MINUTE)
    && (heavies != [] && !s.session ==> !MarketHours(now))
  }

  lemma ProgressLasts(s: FeedState, heavies: seq<int>, earlier: int, now: int)
    requires DayProgress(s, heavies, earlier) && earlier <= now && earlier / 86400 == now / 86400
    ensures DayProgress(s, heavies, now)
  {
  }

  lemma PassKeepsProgress(s: FeedState, heavies: seq<int>, at: int, calculated: bool)
    requires DayProgress(s, heavies, at)
    ensures DayProgress(LoopPassed(s, at),
                        heavies + (if Closes(s, at) && calculated then [CandleIndex(at)] else []), at)
  {
  }

  /**
   On one trading day whose clock does not run backwards, after any run that left the session closed, the heavy cycles
   carry strictly increasing candle indices between 0 and 375: at most one heavy cycle a minute.
  */
  lemma {:induction false} OneHeavyCyclePerMinute(earlier: seq<FeedEvent>, events: seq<FeedEvent>, day: int, now: int)
    requires !Run(earlier).session
    requires OneDay(events, day) && PassedBy(events, now) && now / 86400 == day
    ensures DayProgress(Run(earlier + events), HeavyCandles(earlier, events), now)
  {
    hide DayProgress, MarketHours, CandleIndex, LoopPassed, Delivered, Closes, CallsOfPass, HeavyIndices, Run;
    if events == [] {
      assert earlier + events == earlier;
      ProgressStarts(Run(earlier), now);
    } else {
      var n := |events| - 1;
      var before := events[..n];
      var s := Run(earlier + before);
      OneMoreEvent(earlier, events);
      match events[n] {
        case TickArrives(raw) =>
          OneHeavyCyclePerMinute(earlier, before, day, now);
          TickKeepsProgress(s, raw, HeavyCandles(earlier, before), now);
          assert CallsSince(earlier, events) == CallsSince(earlier, before);
        case LoopPass(at, calculated) =>
          OneHeavyCyclePerMinute(earlier, before, day, at);
          PassKeepsProgress(s, HeavyCandles(earlier, before), at, calculated);
          HeavyIndicesConcat(CallsSince(earlier, before), CallsOfPass(s, at, calculated));
          HeavyIndicesOfPass(s, at, calculated);
          ProgressLasts(Run(earlier + events), HeavyCandles(earlier, events), at, now);
      }
    }
  }

  /** The first heavy cycle of a day that starts on time carries candle 0. */
  lemma CandleZeroOccurs()
    ensures HeavyCandles([], [LoopPass(MARKET_OPEN_MINUTE * 60, true)]) == [0]
  {
    var run := [LoopPass(MARKET_OPEN_MINUTE * 60, true)];
    assert run[..0] == [] && [] + run[..0] == [];
    assert CallsSince([], run) == CallsOfPass(FRESH_FEED, run[0].now, true);
    HeavyIndicesOfPass(FRESH_FEED, run[0].now, true);
  }

  lemma ProgressStarts(s: FeedState, now: int)
    requires !s.session
    ensures DayProgress(s, HeavyIndices([]), now)
  {
  }

  lemma TickKeepsProgress(s: FeedState, raw: RawTick, heavies: seq<int>, now: int)
    requires DayProgress(s, heavies, now)
    ensures DayProgress(Step(s, TickArrives(raw)), heavies, now)
  {
    DeliveredCopies(s, raw, s.callbacks);
  }
}
