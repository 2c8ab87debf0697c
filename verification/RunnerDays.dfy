/** The runner's days as the Captain sees them: which candles pass the gate, and the bounds on plans over such days. */
module RunnerDays {
  import opened SessionPolicy
  import opened Sequences
  import opened PermissionGate
  import opened CaptainEngine
  import opened CaptainRuns
  import opened CaptainLockout
  import opened PlanRuns
  import CandleFeed

  /** The UTC minute of a number of seconds in market time, five and a half hours ahead. */
  function UtcOf(now: int): Timestamp {
    var utc := now - 19800;
    Timestamp(utc / 86400, utc % 86400 / 60)
  }

  lemma ClocksAgree(now: int)
    ensures IstMinute(UtcOf(now)) == CandleFeed.MinuteOfDay(now)
  {
    var day, second := now / 86400, now % 86400;
    var utc := now - 19800;
    if second >= 19800 {
      assert utc == day * 86400 + (second - 19800);
      assert utc % 86400 == second - 19800;
    } else {
      assert utc == (day - 1) * 86400 + (second + 66600);
      assert utc % 86400 == second + 66600;
    }
  }

  /** The Captain reads its own clock in the minute whose candle index the runner passes on. */
  ghost predicate OnTime(inp: HeavyInput) {
    exists now :: inp.time == UtcOf(now) && inp.candle == CandleFeed.CandleIndex(now)
  }

  /** The gate is shut until half an hour after the open, so a cycle of the runner that passes it is never candle 0. */
  lemma OpenCandles(s: CaptainState, inp: HeavyInput)
    requires OpenCycle(s, Heavy(inp)) && OnTime(inp)
    ensures 30 <= inp.candle < 225
  {
    OpenCycleIsInHours(s, inp);
    hide OpenCycle;
    var now :| inp.time == UtcOf(now) && inp.candle == CandleFeed.CandleIndex(now);
    TradingWindow(inp.time);
    ClocksAgree(now);
  }

  lemma OpenCycleIsInHours(s: CaptainState, inp: HeavyInput)
    requires OpenCycle(s, Heavy(inp))
    ensures IsMarketOpen(inp.time) && StrictnessOf(PhaseOf(inp.time)) == Normal
  {
    var t := Opened(s, inp);
    var x := GateInputOf(inp, t.activeTrade.Some?);
    BlockedByIsExact(x, t.gateLock.locked, t.gateGuard.granted);
    hide BlockedBy;
    assert Passes(MarketOpenCheck, x, t.gateLock.locked, t.gateGuard.granted);
    assert Passes(SessionCheck, x, t.gateLock.locked, t.gateGuard.granted);
  }

  /** The candle indices of the heavy cycles of a run, blocked ones included. */
  function HeavyCandles(run: seq<Event>): seq<int> {
    if run == [] then []
    else
      var last := run[|run| - 1];
      HeavyCandles(run[..|run| - 1]) + (if last.Heavy? then [last.inp.candle] else [])
  }

  ghost predicate AllOnTime(run: seq<Event>) {
    forall e :: e in run && e.Heavy? ==> OnTime(e.inp)
  }

  lemma {:induction false} DayGrows(s: CaptainState, before: seq<Event>, start: int, day: seq<Event>)
    requires CandlesIncrease(s, before)
    requires Increasing(HeavyCandles(day)) && AllOnTime(day)
    ensures var run := before + [SessionStart(start)] + day;
            && CandlesIncrease(s, run)
            && (LastOpen(s, run) == 0 || LastOpen(s, run) in HeavyCandles(day))
  {
    hide Step, OpenCycle, OnTime;
    var morning := before + [SessionStart(start)];
    var run := morning + day;
    if day == [] {
      assert run[..|before|] == before && run[|before|] == SessionStart(start);
      SessionStartIsNoCycle(After(s, before), start);
    } else {
      var n := |day| - 1;
      var init, last := day[..n], day[n];
      assert run[..|run| - 1] == morning + init && run[|run| - 1] == last;
      assert forall e :: e in init ==> e in day;
      PrefixIncreases(HeavyCandles(init), HeavyCandles(day));
      DayGrows(s, before, start, init);
      var t := After(s, morning + init);
      OpenCycleIsHeavy(t, last);
      if OpenCycle(t, last) {
        assert last in day;
        OpenCandles(t, last.inp);
        LastIsLargest(HeavyCandles(init), last.inp.candle);
      }
    }
  }

  lemma SessionStartIsNoCycle(s: CaptainState, start: int)
    ensures !OpenCycle(s, SessionStart(start))
  {
  }

  lemma PrefixIncreases(xs: seq<int>, ys: seq<int>)
    requires Increasing(ys) && xs <= ys
    ensures Increasing(xs)
  {
  }

  lemma LastIsLargest(xs: seq<int>, y: int)
    requires Increasing(xs + [y])
    ensures forall x :: x in xs ==> x < y
  {
    forall x | x in xs ensures x < y {
      var i :| 0 <= i < |xs| && xs[i] == x;
      assert (xs + [y])[i] == x && (xs + [y])[|xs|] == y;
    }
  }

  /**
   A day of the runner after any run with growing candles: its heavy cycles carry the indices of that day's candles, the
   blocked candle 0 included, and everything else may come in between. The bounds on the living plans hold over such a
   day, hence over any number of them.
  */
  lemma RunnerDayKeepsBounds(today: int, before: seq<Event>, start: int, day: seq<Event>,
                             earlier: seq<CandleFeed.FeedEvent>, feed: seq<CandleFeed.FeedEvent>, date: int, now: int)
    requires CandlesIncrease(Init(today), before)
    requires !CandleFeed.Run(earlier).session
    requires CandleFeed.OneDay(feed, date) && CandleFeed.PassedBy(feed, now) && now / 86400 == date
    requires HeavyCandles(day) == CandleFeed.HeavyCandles(earlier, feed) && AllOnTime(day)
    ensures var run := before + [SessionStart(start)] + day;
            var plans := After(Init(today), run).book.plans;
            && CandlesIncrease(Init(today), run)
            && |AliveCandles(plans)| <= 4
            && (ContractReports(run) && BuiltSummaries(run) ==> |AliveCandles(plans)| <= 2)
  {
    hide CandleFeed.Run, After, AllOnTime, AliveCandles, LastOpen;
    CandleFeed.OneHeavyCyclePerMinute(earlier, feed, date, now);
    var run := before + [SessionStart(start)] + day;
    DayGrows(Init(today), before, start, day);
    PopulationBound(today, run);
    if ContractReports(run) && BuiltSummaries(run) {
      BuiltPopulationBound(today, run);
    }
  }
}
