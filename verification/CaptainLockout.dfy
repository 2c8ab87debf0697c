/** When the Captain stops trading for the session: idle cycles decay conviction until no cycle can trade any more. */
module CaptainLockout {
  import opened SharedTypes
  import opened Numerics
  import opened SessionPolicy
  import opened Confluence
  import opened Conviction
  import opened FloorSummaries
  import opened RegimeDetection
  import opened TradeClasses
  import opened TradeConstruction
  import opened PermissionGate
  import opened CaptainEngine
  import opened CaptainRuns

  predicate Directed(inp: HeavyInput) {
    DirectionOf(ConfluenceOf(inp.reports).dominant).Some?
  }

  lemma CycleIsBounded(inp: HeavyInput, cycles: nat)
    requires UnitConfidence(inp.reports)
    ensures ScoreInputOf(inp, cycles).Bounded()
  {
    hide ConfluenceOf, ClassOf;
    ReportedQualityBounds(inp.reports);
    OppositeCaseIsAlwaysAbsent(inp, cycles);
  }

  /** Every cycle scores with the class that it computes from its own regime, quality, session and raw band. */
  lemma CycleClassIsAssigned(inp: HeavyInput, cycles: nat)
    ensures Classified(ScoreInputOf(inp, cycles), Directed(inp))
  {
    RegimesAreThreeKinds(inp.summary, inp.reports);
    RawScoresIgnoreClass(UnclassifiedInput(inp, 0), ClassOf(inp), cycles);
    hide ConfluenceOf, DetectRegime, RawScores, AssignedClass, CoreHeadStale, PresenceOf, PhaseOf;
  }

  lemma TradeIsDirected(s: CaptainState, e: Event)
    requires Traded(s, e).Some?
    ensures s.cooldown <= 1 && ShouldTrade(FinalScores(ScoreInputOf(e.inp, s.cycles)))
    ensures DirectionOf(ConfluenceOf(e.inp.reports).dominant).Some?
  {
    hide FinalScores, ConfluenceOf, BlockedBy, ScoreInputOf, ShouldTrade;
  }

  /** A cycle that trades was fresh enough for its regime and for the class it was assigned. */
  lemma TradeNeedsFreshness(s: CaptainState, e: Event)
    requires Traded(s, e).Some?
    requires UnitConfidence(e.inp.reports)
    ensures s.cycles < IdleLimit(RegimeOf(e.inp)) && s.cycles < ClassLimit(ClassOf(e.inp))
    ensures s.cooldown <= 1
  {
    TradeIsDirected(s, e);
    ReportedQualityBounds(e.inp.reports);
    OppositeCaseIsAlwaysAbsent(e.inp, s.cycles);
    CycleClassIsAssigned(e.inp, s.cycles);
    hide Traded, FinalScores, Classified, ConfluenceOf, ClassOf, DetectRegime;
    RegimeLocksOut(ScoreInputOf(e.inp, s.cycles));
  }

  /**
   The constructor is asked only with a tradable band, so at a whole ATM strike no heavy cycle ever goes outside the
   money, however short its capital.
  */
  lemma CyclesStayInTheMoney(s: CaptainState, inp: HeavyInput, d: Direction, atm: int)
    requires OpenCycle(s, Heavy(inp)) && ShouldTrade(FinalScores(ScoreInputOf(inp, s.cycles)))
    requires inp.atmStrike == atm as real
    ensures SelectStrike(d, inp.atmStrike, inp.capital, inp.lotSize, FinalScores(ScoreInputOf(inp, s.cycles)).band)
            != Some(OtmStrike(d, inp.atmStrike))
  {
    hide FinalScores, ConfluenceOf, ScoreInputOf, SelectStrike;
    OpenCycleHasCapital(s, inp);
    WholeOutsideStrikeIff(d, atm, inp.capital, inp.lotSize, FinalScores(ScoreInputOf(inp, s.cycles)).band);
  }

  lemma OpenCycleHasCapital(s: CaptainState, inp: HeavyInput)
    requires OpenCycle(s, Heavy(inp))
    ensures inp.capital > 0.0
  {
    hide ConfluenceOf, FindReport;
    var t := Opened(s, inp);
    BlockedByIsExact(GateInputOf(inp, t.activeTrade.Some?), t.gateLock.locked, t.gateGuard.granted);
    hide BlockedBy;
    assert Passes(CapitalCheck, GateInputOf(inp, t.activeTrade.Some?), t.gateLock.locked, t.gateGuard.granted);
  }

  // ----- Inputs that do trade -----

  /**
   One full-trust bullish SMC report in golden morning, at the default capital and lot: confident for a trend, half as
   confident for a weak trend, or together with the summary that Floor 4 builds from it.
  */
  function IdealCycle(cls: TradeClass, mode: ExecutionMode, candle: int): HeavyInput {
    var reports := [FullTrustHead(SmcHead, Bullish, if cls.LiquidityReclaim? then 0.5 else 1.0)];
    HeavyInput(reports, OppositeCase(true, 1.0), if cls.Scalp? then Some(SummaryOf(reports)) else None,
               Timestamp(0, 300), 0.0, Some(mode), 25000.0, 100.0, None, candle, 19500.0, 50)
  }

  lemma TallyOfOne(e: Entry, b: Bias)
    ensures Tally([e], b) == Share(e, b)
  {
    assert [e][..0] == [];
  }

  lemma NamesOfOne(e: Entry, keep: Bias -> bool)
    ensures NamesWhere([e], keep) == if keep(e.report.bias) then [e.name] else []
  {
    assert [e][..0] == [];
  }

  lemma IdealConfluence(confidence: real)
    requires 0.0 < confidence <= 1.0
    ensures ConfluenceOf([FullTrustHead(SmcHead, Bullish, confidence)])
         == ConfluenceResult(1.0, false, [SmcHead], [], Bullish)
  {
    var e := FullTrustHead(SmcHead, Bullish, confidence);
    var heads := [e];
    FullTrustVote(SmcHead, Bullish, confidence);
    hide Vote;
    TallyOfOne(e, Bullish);
    TallyOfOne(e, Bearish);
    TallyOfOne(e, Neutral);
    assert heads[..0] == [];
    assert Directional(heads) == heads;
    assert Tally(heads, Bullish) == confidence && Tally(heads, Bearish) == 0.0 && Tally(heads, Neutral) == 0.0;
    assert confidence / confidence == 1.0;
    assert Dominant(heads) == Bullish && RawQuality(heads) == 1.0;
    hide Tally, Dominant, RawQuality;
    var r := ConfluenceOf(heads);
    assert (1.0 * 10000.0).Floor == 10000;
    assert Round4(1.0) == 1.0;
    assert r.quality == 1.0 && r.dominant == Bullish;
    assert !HasBias(heads, Bearish);
    assert !r.conflict;
    NamesOfOne(e, (b: Bias) => b == Bullish);
    NamesOfOne(e, (b: Bias) => b != Bullish && b != Neutral);
  }

  lemma IdealSummary(e: Entry)
    requires e == FullTrustHead(SmcHead, Bullish, 1.0)
    ensures SummaryOf([e]).dataHealth == DataHealth.GoodHealth
    ensures SummaryOf([e]).setupPresence == Some(NoSetup)
  {
    var reports := [e];
    assert reports[..0] == [];
    assert CountState(reports, Stale) == CountState([], Stale)
           && CountState(reports, Uncertain) == CountState([], Uncertain);
    assert forall name: HeadName :: name != SmcHead ==> FindReport(reports, name) == FindReport([], name) == None;
    assert FindReport(reports, SmcHead) == Some(e.report);
    NoSetups(reports, HEAD_ORDER);
  }

  lemma {:induction false} NoSetups(reports: seq<Entry>, names: seq<HeadName>)
    requires forall name: HeadName :: FindReport(reports, name).Some? ==>
               FindReport(reports, name).value.primarySetup.None?
    ensures CountSetups(Present(reports, names)) == 0
  {
    if names != [] {
      var n := |names| - 1;
      NoSetups(reports, names[..n]);
      var before, r := Present(reports, names[..n]), FindReport(reports, names[n]);
      assert Present(reports, names) == before + (if r.Some? then [r.value] else []);
      if r.Some? {
        assert (before + [r.value])[..|before|] == before;
      } else {
        assert Present(reports, names) == before;
      }
    }
  }

  lemma IdealRegime(cls: TradeClass, mode: ExecutionMode, candle: int)
    requires cls.Continuation? || cls.LiquidityReclaim? || cls.Scalp?
    ensures var inp := IdealCycle(cls, mode, candle);
            && RegimeClass(RegimeOf(inp)) == cls
            && (Trending(RegimeOf(inp)) || WeaklyTrending(RegimeOf(inp)) || Sideways(RegimeOf(inp)))
  {
    var inp := IdealCycle(cls, mode, candle);
    RegimesAreThreeKinds(inp.summary, inp.reports);
    if cls.Scalp? {
      BuiltSummariesNeverTrend(inp.summary.value);
    } else {
      var r := inp.reports[0].report;
      assert inp.reports[..0] == [];
      assert StoryHeads(inp.reports) == [r];
      assert [r][..0] == [];
      assert ConfidenceSum([r]) == r.confidence && CountBias([r], Bullish) == 1 && CountBias([r], Bearish) == 0;
    }
  }

  /** Golden morning, nothing against it: every check of the gate passes. */
  ghost predicate OpenGateInput(x: GateInput, locked: bool, granted: bool) {
    && x.time == Timestamp(0, 300)
    && (x.dataHealth == None || x.dataHealth == Some(DataHealth.GoodHealth))
    && x.psychology == None
    && !x.activeTrade
    && x.mode.Some? && x.capital > 0.0
    && (x.mode.value.Real? ==> !locked || granted)
  }

  lemma OpenGateBlocksNothing(x: GateInput, locked: bool, granted: bool)
    requires OpenGateInput(x, locked, granted)
    ensures BlockedBy(x, locked, granted) == []
  {
    BlockedByIsExact(x, locked, granted);
    hide BlockedBy;
    forall c ensures Passes(c, x, locked, granted) {
    }
  }

  /** The gate is open for an ideal cycle, whatever positive capital it comes with. */
  lemma IdealCyclePassesGate(s: CaptainState, cls: TradeClass, mode: ExecutionMode, candle: int, capital: real)
    requires s.activeTrade.None? && capital > 0.0
    requires mode.Real? ==> !Opened(s, IdealCycle(cls, mode, candle)).gateLock.locked || s.gateGuard.granted
    ensures OpenCycle(s, Heavy(IdealCycle(cls, mode, candle).(capital := capital)))
  {
    var inp := IdealCycle(cls, mode, candle).(capital := capital);
    var s1 := Opened(s, inp);
    IdealGateInput(cls, mode, candle, capital);
    hide BlockedBy, IdealCycle;
    OpenGateBlocksNothing(GateInputOf(inp, false), s1.gateLock.locked, s1.gateGuard.granted);
  }

  lemma IdealGateInput(cls: TradeClass, mode: ExecutionMode, candle: int, capital: real)
    ensures GateInputOf(IdealCycle(cls, mode, candle).(capital := capital), false) ==
            GateInput(Timestamp(0, 300), if cls.Scalp? then Some(DataHealth.GoodHealth) else None, None, false,
                      Some(mode), capital)
  {
    var inp := IdealCycle(cls, mode, candle);
    assert inp.reports[..0] == [];
    assert FindReport(inp.reports, PsychologyHead).None?;
    IdealSummary(FullTrustHead(SmcHead, Bullish, 1.0));
    hide SummaryOf;
  }

  function IdealPresence(cls: TradeClass): SetupPresence {
    if cls.Scalp? then NoSetup else UnknownPresence
  }

  lemma IdealParts(cls: TradeClass, mode: ExecutionMode, candle: int)
    requires cls.Continuation? || cls.LiquidityReclaim? || cls.Scalp?
    ensures var inp := IdealCycle(cls, mode, candle);
            && ConfluenceOf(inp.reports) == ConfluenceResult(1.0, false, [SmcHead], [], Bullish)
            && FindReport(inp.reports, PsychologyHead) == None
            && !CoreHeadStale(inp.reports)
            && PhaseOf(inp.time) == GoldenMorning
            && PresenceOf(inp.summary) == IdealPresence(cls)
  {
    hide ConfluenceOf, SummaryOf;
    var inp := IdealCycle(cls, mode, candle);
    IdealConfluence(if cls.LiquidityReclaim? then 0.5 else 1.0);
    IdealSummary(FullTrustHead(SmcHead, Bullish, 1.0));
    OneReport(inp.reports[0]);
  }

  lemma OneReport(e: Entry)
    ensures forall name: HeadName :: FindReport([e], name) == if name == e.name then Some(e.report) else None
  {
    assert [e][..0] == [];
  }

  /** An ideal cycle scores as the ideal input of its regime does. */
  lemma IdealScoreInput(cls: TradeClass, mode: ExecutionMode, candle: int, cycles: nat)
    requires cls.Continuation? || cls.LiquidityReclaim? || cls.Scalp?
    ensures var inp := IdealCycle(cls, mode, candle);
            UnclassifiedInput(inp, cycles) == IdealInput(RegimeOf(inp), IdealPresence(cls), cycles).(cls := None)
  {
    var inp := IdealCycle(cls, mode, candle);
    IdealParts(cls, mode, candle);
    OppositeCaseIsAlwaysAbsent(inp, cycles);
    hide ConfluenceOf, FindReport, CoreHeadStale, PhaseOf, PresenceOf, DetectRegime, IdealCycle, ClassOf,
      AnalyzeOpposite, IdealPresence;
  }

  lemma IdealClass(cls: TradeClass, mode: ExecutionMode, candle: int, cycles: nat)
    requires cls.Continuation? || cls.LiquidityReclaim? || cls.Scalp?
    ensures var inp := IdealCycle(cls, mode, candle);
            && ClassOf(inp) == Some(cls)
            && ScoreInputOf(inp, cycles) == IdealInput(RegimeOf(inp), IdealPresence(cls), cycles)
  {
    var inp := IdealCycle(cls, mode, candle);
    IdealParts(cls, mode, candle);
    IdealRegime(cls, mode, candle);
    IdealScoreInput(cls, mode, candle, 0);
    IdealScoreInput(cls, mode, candle, cycles);
    BelowLimitTrades(RegimeOf(inp), IdealPresence(cls), 0);
    var x := IdealInput(RegimeOf(inp), IdealPresence(cls), 0);
    RawScoresIgnoreClass(x.(cls := None), x.cls, 0);
    hide UnclassifiedInput, ConfluenceOf, RawScores, AssignedClass, FinalScores, IdealCycle, DetectRegime,
      IdealPresence, RegimeClass;
  }

  lemma IdealTradeTest(s: CaptainState, cls: TradeClass, mode: ExecutionMode, candle: int)
    requires s.cycles < ClassLimit(Some(cls))
    ensures ShouldTrade(FinalScores(ScoreInputOf(IdealCycle(cls, mode, candle), s.cycles)))
    ensures UnitConfidence(IdealCycle(cls, mode, candle).reports)
  {
    hide ConfluenceOf, DetectRegime, FinalScores, ClassOf, ScoreInputOf, ShouldTrade, IdealPresence, SummaryOf,
      AssignedClass, RawScores;
    var inp := IdealCycle(cls, mode, candle);
    IdealRegime(cls, mode, candle);
    IdealClass(cls, mode, candle, s.cycles);
    assert IdealPresence(cls) == NoSetup || IdealPresence(cls) == UnknownPresence by { PresenceIsPlain(cls); }
    BelowLimitTrades(RegimeOf(inp), IdealPresence(cls), s.cycles);
  }

  lemma PresenceIsPlain(cls: TradeClass)
    ensures IdealPresence(cls) == NoSetup || IdealPresence(cls) == UnknownPresence
  {
  }

  lemma IdealCycleTrades(s: CaptainState, cls: TradeClass, mode: ExecutionMode, candle: int)
    requires s.activeTrade.None? && s.cooldown <= 1 && s.cycles < ClassLimit(Some(cls))
    requires mode.Real? ==> !Opened(s, IdealCycle(cls, mode, candle)).gateLock.locked || s.gateGuard.granted
    ensures Traded(s, Heavy(IdealCycle(cls, mode, candle))) == Some(Buy)
    ensures UnitConfidence(IdealCycle(cls, mode, candle).reports) && ClassOf(IdealCycle(cls, mode, candle)) == Some(cls)
  {
    var inp := IdealCycle(cls, mode, candle);
    assert inp.(capital := inp.capital) == inp && inp.capital == 25000.0 && inp.atmStrike == 19500.0
           && inp.lotSize == 50;
    IdealCyclePassesGate(s, cls, mode, candle, 25000.0);
    IdealParts(cls, mode, candle);
    IdealRegime(cls, mode, candle);
    IdealClass(cls, mode, candle, s.cycles);
    IdealTradeTest(s, cls, mode, candle);
    hide IdealCycle, ConfluenceOf, DetectRegime, FinalScores, ClassOf, ScoreInputOf, OpenCycle, ShouldTrade,
      IdealPresence, FullTrustHead, UnitConfidence;
    var band := FinalScores(ScoreInputOf(inp, s.cycles)).band;
    ConstructableIff(Buy, 19500, 25000.0, 50, band);
    hide Constructable;
    assert Buildable(inp, Some(Buy), band);
  }

  /**
   Exactly when a class can still trade: no active trade, at most one cooldown cycle left, and fewer idle cycles than
   its limit. The class is the one the cycle assigns, so REVERSAL, OPTIONS_PRESSURE and no class at all never trade.
  */
  lemma TradeIsReachableIff(s: CaptainState, cls: Option<TradeClass>)
    ensures (exists inp: HeavyInput ::
               ClassOf(inp) == cls && UnitConfidence(inp.reports) && Traded(s, Heavy(inp)).Some?)
            <==> s.activeTrade.None? && s.cooldown <= 1 && s.cycles < ClassLimit(cls)
  {
    hide Traded, ClassOf, IdealCycle;
    if inp: HeavyInput :| ClassOf(inp) == cls && UnitConfidence(inp.reports) && Traded(s, Heavy(inp)).Some? {
      TradeNeedsFreshness(s, Heavy(inp));
      TradeSetsActive(s, Heavy(inp));
    }
    if s.activeTrade.None? && s.cooldown <= 1 && s.cycles < ClassLimit(cls) {
      IdealCycleTrades(s, cls.value, Alert, 1);
    }
  }

  // ----- Whole runs -----

  lemma {:induction false} IdleCyclesAdd(s: CaptainState, run: seq<Event>)
    requires NoSessionStart(run) && NoTrade(s, run)
    ensures After(s, run).cycles == s.cycles + OpenCycles(s, run)
  {
    hide Step, Traded, OpenCycle, NoTrade;
    if run != [] {
      var n := |run| - 1;
      NoTradeUnfolds(s, run);
      IdleCyclesAdd(s, run[..n]);
      CyclesStep(After(s, run[..n]), run[n]);
    }
  }

  lemma {:induction false} LockedOutForGood(s: CaptainState, run: seq<Event>)
    requires s.cycles >= 5
    requires NoSessionStart(run) && ContractReports(run)
    ensures NoTrade(s, run) && After(s, run).cycles >= 5
  {
    hide Step, Traded, OpenCycle;
    if run != [] {
      var n := |run| - 1;
      LockedOutForGood(s, run[..n]);
      CyclesStep(After(s, run[..n]), run[n]);
      if Traded(After(s, run[..n]), run[n]).Some? {
        TradedIsHeavy(After(s, run[..n]), run[n]);
        TradeNeedsFreshness(After(s, run[..n]), run[n]);
      }
      NoTradeUnfolds(s, run);
    }
  }

  /**
   Decay lockout: once five cycles have passed the gate without a trade, no later cycle trades until the session starts
   again, whatever the heads report and whichever trade completes in between.
  */
  lemma FiveIdleCyclesEndTrading(s: CaptainState, idle: seq<Event>, later: seq<Event>)
    requires NoSessionStart(idle) && NoTrade(s, idle) && OpenCycles(s, idle) >= 5
    requires NoSessionStart(later) && ContractReports(later)
    ensures NoTrade(After(s, idle), later)
  {
    IdleCyclesAdd(s, idle);
    LockedOutForGood(After(s, idle), later);
  }

  /** Ideal weak-trend cycles that no capital can pay for. */
  function PennilessRun(k: nat): seq<Event> {
    if k == 0 then [] else PennilessRun(k - 1) + [Heavy(IdealCycle(LiquidityReclaim, Alert, k).(capital := 1.0))]
  }

  lemma PennilessCycle(s: CaptainState, cls: TradeClass, k: int)
    requires s.activeTrade.None?
    ensures var e := Heavy(IdealCycle(cls, Alert, k).(capital := 1.0));
            OpenCycle(s, e) && Traded(s, e).None?
  {
    var inp := IdealCycle(cls, Alert, k).(capital := 1.0);
    IdealCyclePassesGate(s, cls, Alert, k, 1.0);
    assert inp.atmStrike == 19500.0 && inp.lotSize == 50 && inp.capital == 1.0;
    hide IdealCycle, OpenCycle, ConfluenceOf, FinalScores, ScoreInputOf, ShouldTrade;
    var band := FinalScores(ScoreInputOf(inp, s.cycles)).band;
    ConstructableIff(Buy, 19500, 1.0, 50, band);
    ConstructableIff(Sell, 19500, 1.0, 50, band);
    hide Constructable;
  }

  lemma {:induction false} PennilessRunIdles(today: int, k: nat)
    ensures var s := After(Init(today), PennilessRun(k));
            s.activeTrade.None? && s.cooldown == 0 && s.cycles == k
  {
    hide Step, OpenCycle, Traded, IdealCycle;
    if k > 0 {
      PennilessRunIdles(today, k - 1);
      var run := PennilessRun(k);
      assert run[..|run| - 1] == PennilessRun(k - 1);
      var s := After(Init(today), PennilessRun(k - 1));
      PennilessCycle(s, LiquidityReclaim, k);
      CyclesStep(s, run[|run| - 1]);
      CooldownStep(s, run[|run| - 1]);
      ActiveTradeStep(s, run[|run| - 1]);
    }
  }

  /** Five is exact: after four idle cycles some cycle still trades. */
  lemma FourIdleCyclesStillTrade(today: int)
    ensures exists inp: HeavyInput :: Traded(After(Init(today), PennilessRun(4)), Heavy(inp)).Some?
  {
    hide Traded, IdealCycle, PennilessRun, After;
    PennilessRunIdles(today, 4);
    IdealCycleTrades(After(Init(today), PennilessRun(4)), LiquidityReclaim, Alert, 5);
  }

  // ----- The summaries of the system -----

  /** Every heavy cycle carries the summary that Floor 4 builds from its reports, or the empty one. */
  ghost predicate BuiltSummaries(run: seq<Event>) {
    forall e :: e in run && e.Heavy? ==>
      e.inp.summary == Some(SummaryOf(e.inp.reports)) || e.inp.summary == Some(EMPTY_SUMMARY)
  }

  lemma BuiltSummariesTradeAtOnce(s: CaptainState, e: Event)
    requires e.Heavy? && Traded(s, e).Some? && UnitConfidence(e.inp.reports)
    requires e.inp.summary == Some(SummaryOf(e.inp.reports)) || e.inp.summary == Some(EMPTY_SUMMARY)
    ensures s.cycles == 0
  {
    hide Traded, SummaryOf, SummaryRegime, ClassOf;
    TradeNeedsFreshness(s, e);
    BuiltSummariesNeverTrend(e.inp.summary.value);
  }

  lemma {:induction false} LockedOutByOne(s: CaptainState, run: seq<Event>)
    requires s.cycles >= 1
    requires NoSessionStart(run) && ContractReports(run) && BuiltSummaries(run)
    ensures NoTrade(s, run) && After(s, run).cycles >= 1
  {
    hide Step, Traded, OpenCycle;
    if run != [] {
      var n := |run| - 1;
      LockedOutByOne(s, run[..n]);
      CyclesStep(After(s, run[..n]), run[n]);
      if Traded(After(s, run[..n]), run[n]).Some? {
        TradedIsHeavy(After(s, run[..n]), run[n]);
        BuiltSummariesTradeAtOnce(After(s, run[..n]), run[n]);
      }
      NoTradeUnfolds(s, run);
    }
  }

  /**
   With the summaries the system really builds the market is never seen to trend, and a single cycle that passes the
   gate without a trade ends trading for the session.
  */
  lemma OneIdleCycleEndsTrading(s: CaptainState, idle: seq<Event>, later: seq<Event>)
    requires NoSessionStart(idle) && NoTrade(s, idle) && OpenCycles(s, idle) >= 1
    requires NoSessionStart(later) && ContractReports(later) && BuiltSummaries(later)
    ensures NoTrade(After(s, idle), later)
  {
    IdleCyclesAdd(s, idle);
    LockedOutByOne(After(s, idle), later);
  }

  /** With such a summary a trade is within reach exactly if no cycle has idled yet. */
  lemma BuiltTradeIsReachableIff(s: CaptainState)
    ensures (exists inp: HeavyInput ::
               && inp.summary == Some(SummaryOf(inp.reports)) && UnitConfidence(inp.reports)
               && Traded(s, Heavy(inp)).Some?)
            <==> s.activeTrade.None? && s.cooldown <= 1 && s.cycles == 0
  {
    hide Traded, ClassOf, SummaryOf;
    if inp: HeavyInput :| && inp.summary == Some(SummaryOf(inp.reports)) && UnitConfidence(inp.reports)
                          && Traded(s, Heavy(inp)).Some? {
      TradeNeedsFreshness(s, Heavy(inp));
      TradeSetsActive(s, Heavy(inp));
      BuiltSummariesTradeAtOnce(s, Heavy(inp));
    }
    if s.activeTrade.None? && s.cooldown <= 1 && s.cycles == 0 {
      IdealCycleTrades(s, Scalp, Alert, 1);
      assert IdealCycle(Scalp, Alert, 1).summary == Some(SummaryOf(IdealCycle(Scalp, Alert, 1).reports));
    }
  }

  /** More than half of the reports are stale, or the setup heads take both sides: no regime points for this cycle. */
  ghost predicate NoClearMarket(reports: seq<Entry>) {
    || 2 * |StaleOnes(reports)| > |reports|
    || (SetupHeadSays(reports, Bullish) && SetupHeadSays(reports, Bearish))
  }

  /** With its own built summary a cycle scores seven and a half regime points, or none. */
  lemma BuiltConviction(inp: HeavyInput, cycles: nat)
    requires inp.summary == Some(SummaryOf(inp.reports)) && DistinctNames(inp.reports)
    ensures var x := ScoreInputOf(inp, cycles);
            x.Conviction() == ClampScore(60.0 * x.quality + (if NoClearMarket(inp.reports) then 0.0 else 7.5)
                                         - PsychologyPenalty(x.psychology) + 15.0 * AggressionModifier(x.phase))
  {
    hide SummaryOf, SummaryRegime, ScoreInputOf, PsychologyPenalty, AggressionModifier, StaleOnes, SetupHeadSays,
      ClampScore;
    BuiltRegimeCases(inp.reports);
    OppositeCaseIsAlwaysAbsent(inp, cycles);
    RegimeOfBuilt(inp, cycles);
    var x := ScoreInputOf(inp, cycles);
    assert OppositePenalty(x.opposite) == 0.0;
    assert RegimePoints(x.regime) == if NoClearMarket(inp.reports) then 0.0 else 7.5;
  }

  lemma RegimeOfBuilt(inp: HeavyInput, cycles: nat)
    requires inp.summary.Some?
    ensures ScoreInputOf(inp, cycles).regime == SummaryRegime(inp.summary.value)
  {
    hide ConfluenceOf, SummaryRegime;
  }

  /** Without a clear market such a cycle trades only on almost perfect agreement. */
  lemma SplitHeadsHardlyTrade(s: CaptainState, inp: HeavyInput)
    requires inp.summary == Some(SummaryOf(inp.reports)) && DistinctNames(inp.reports) && UnitConfidence(inp.reports)
    requires NoClearMarket(inp.reports) && Traded(s, Heavy(inp)).Some?
    ensures ConfluenceOf(inp.reports).quality >= 0.974
  {
    var x := ScoreInputOf(inp, s.cycles);
    BuiltConviction(inp, s.cycles);
    TradeIsDirected(s, Heavy(inp));
    CycleIsBounded(inp, s.cycles);
    hide Traded, SummaryOf, NoClearMarket, ConfluenceOf, FinalScores, ClassOf, FindReport, UnitConfidence;
    TradedIsWorthSixty(x);
    TradableNeedsQuality(x);
    PenaltyIsNotNegative(x.psychology);
  }

  lemma PenaltyIsNotNegative(psychology: Option<HeadReport>)
    ensures PsychologyPenalty(psychology) >= 0.0
  {
  }
}
