/** What a heavy cycle decides, in numbers: its gate, its scores and its trade, straight from the input. */
module CycleLaws {
  import opened SharedTypes
  import opened Numerics
  import opened SessionPolicy
  import opened Confluence
  import opened Conviction
  import opened FloorSummaries
  import opened RegimeDetection
  import opened TradeConstruction
  import opened PermissionGate
  import opened LossLock
  import opened ArmedPlans
  import opened TradeSupervision
  import opened CaptainEngine
  import opened CaptainRuns

  // ----- The gate -----

  /** The lock the gate reads, after the daily reset that opens the cycle. */
  ghost predicate LockStands(s: CaptainState, inp: HeavyInput) {
    s.gateLock.locked && !(s.attached && inp.time.day > s.lock.resetDate)
  }

  /** Which checks fail, one by one. */
  lemma GateNames(s: CaptainState, inp: HeavyInput)
    requires s.attached ==> s.gateLock == s.lock
    ensures var failed, psychology := GateVerdict(Opened(s, inp), inp), FindReport(inp.reports, PsychologyHead);
            && (MarketOpenCheck in failed <==> inp.time.day % 7 >= 5 || !(225 <= inp.time.minute < 600))
            && (PsychologyCheck in failed <==> psychology.Some? && !psychology.value.tradeAllowed)
            && (ActiveTradeCheck in failed <==> s.activeTrade.Some?)
            && (DataHealthCheck in failed <==> inp.summary.Some? && inp.summary.value.dataHealth == CriticalHealth)
            && (RealModeLockCheck in failed <==> inp.mode == Some(Real) && LockStands(s, inp) && !s.gateGuard.granted)
            && (ModeCheck in failed <==> inp.mode == None)
            && (SessionCheck in failed <==> !(255 <= inp.time.minute < 450))
            && (CapitalCheck in failed <==> inp.capital <= 0.0)
  {
    var t := Opened(s, inp);
    var x := GateInputOf(inp, t.activeTrade.Some?);
    BlockedByIsExact(x, t.gateLock.locked, t.gateGuard.granted);
    MarketMinutes(inp.time);
    assert t.gateLock.locked <==> LockStands(s, inp);
    hide BlockedBy, FindReport, IsMarketOpen, PhaseOf, StrictnessOf;
  }

  lemma OpenIff(s: CaptainState, inp: HeavyInput)
    requires s.attached ==> s.gateLock == s.lock
    ensures var psychology := FindReport(inp.reports, PsychologyHead);
            OpenCycle(s, Heavy(inp)) <==>
            && inp.time.day % 7 < 5 && 255 <= inp.time.minute < 450
            && (psychology.Some? ==> psychology.value.tradeAllowed)
            && s.activeTrade.None?
            && (inp.summary.Some? ==> inp.summary.value.dataHealth != CriticalHealth)
            && (inp.mode == Some(Real) ==> !LockStands(s, inp) || s.gateGuard.granted)
            && inp.mode.Some? && inp.capital > 0.0
  {
    GateNames(s, inp);
    var t := Opened(s, inp);
    BlockedByIsExact(GateInputOf(inp, t.activeTrade.Some?), t.gateLock.locked, t.gateGuard.granted);
    hide BlockedBy, FindReport, LockStands;
    var failed := GateVerdict(t, inp);
    assert failed == [] || failed[0] in failed;
  }

  // ----- The raw scores -----

  function RegimeGain(r: Regime): real {
    if Trending(r) then 25.0 else if WeaklyTrending(r) then 15.0 else if r.Range? then 7.5 else 0.0
  }

  function RegimeLoss(r: Regime): real {
    if r.Chop? || r.Unclear? then 15.0 else if r.Range? then 7.5 else 0.0
  }

  /** What the psychology report takes off the conviction of a cycle. */
  function BrakeCost(psychology: Option<HeadReport>): real {
    if psychology == None then 0.0
    else
      (if psychology.value.cautionLevel > 0.5 then psychology.value.cautionLevel * 7.5 else 0.0)
      + (if psychology.value.cooldownActive then 7.5 else 0.0)
      + (if psychology.value.trapPressure then 4.5 else 0.0)
  }

  /** What it adds to the doubt of a cycle; the gate lets none through whose report forbids trading. */
  function BrakeDoubt(psychology: Option<HeadReport>): real {
    if psychology == None then 0.0
    else
      (if !psychology.value.tradeAllowed then 25.0
       else if psychology.value.cautionLevel > 0.5 then psychology.value.cautionLevel * 25.0 else 0.0)
      + (if psychology.value.cooldownActive then 12.5 else 0.0)
      + (if psychology.value.repeatedMistake then 10.0 else 0.0)
  }

  /** Sixty points for full agreement, the regime, a point and a half for or against the hour, less the brakes. */
  lemma RawConvictionOfCycle(s: CaptainState, inp: HeavyInput, cycles: nat)
    requires OpenCycle(s, Heavy(inp))
    ensures var x := ScoreInputOf(inp, cycles);
            x.Conviction() == ClampScore(60.0 * ConfluenceOf(inp.reports).quality + RegimeGain(RegimeOf(inp))
                                         - BrakeCost(FindReport(inp.reports, PsychologyHead))
                                         + (if inp.time.minute < 330 then 1.5 else -1.5))
  {
    hide ScoreInputOf, ConfluenceOf, RegimeOf, FindReport, PhaseOf, BrakeCost, RegimeGain, OpenCycle, ClampScore;
    InputOfCycle(inp, cycles);
    OpenMinutes(s, inp);
    ConvictionByNumbers(ScoreInputOf(inp, cycles));
  }

  lemma InputOfCycle(inp: HeavyInput, cycles: nat)
    ensures var x := ScoreInputOf(inp, cycles);
            && x.quality == ConfluenceOf(inp.reports).quality && x.conflict == ConfluenceOf(inp.reports).conflict
            && x.opposite == Some(OppositeCase(false, 0.0)) && x.regime == RegimeOf(inp)
            && x.psychology == FindReport(inp.reports, PsychologyHead) && x.phase == PhaseOf(inp.time)
            && x.cycles == cycles
  {
    OppositeCaseIsAlwaysAbsent(inp, cycles);
    hide ConfluenceOf, RegimeOf, FindReport, ClassOf, PhaseOf, CoreHeadStale, PresenceOf;
  }

  lemma ConvictionByNumbers(x: ScoreInput)
    requires x.opposite == Some(OppositeCase(false, 0.0)) && (x.phase.GoldenMorning? || x.phase.Lunch?)
    ensures x.Conviction() == ClampScore(60.0 * x.quality + RegimeGain(x.regime) - BrakeCost(x.psychology)
                                         + (if x.phase.GoldenMorning? then 1.5 else -1.5))
  {
    PenaltyIsCost(x.psychology);
    hide PsychologyPenalty, BrakeCost, ClampScore;
    assert RegimePoints(x.regime) == RegimeGain(x.regime);
    assert OppositePenalty(x.opposite) == 0.0;
  }

  lemma OpenMinutes(s: CaptainState, inp: HeavyInput)
    requires OpenCycle(s, Heavy(inp))
    ensures PhaseOf(inp.time) == if inp.time.minute < 330 then GoldenMorning else Lunch
    ensures 255 <= inp.time.minute < 450
  {
    var t := Opened(s, inp);
    BlockedByIsExact(GateInputOf(inp, t.activeTrade.Some?), t.gateLock.locked, t.gateGuard.granted);
    MarketMinutes(inp.time);
    hide BlockedBy, FindReport;
    assert Passes(SessionCheck, GateInputOf(inp, t.activeTrade.Some?), t.gateLock.locked, t.gateGuard.granted);
  }

  lemma PenaltyIsCost(psychology: Option<HeadReport>)
    ensures PsychologyPenalty(psychology) == BrakeCost(psychology)
  {
  }

  /** Twenty points for a conflict, up to twenty-five for little agreement, the regime and the brakes. */
  lemma RawDoubtOfCycle(inp: HeavyInput, cycles: nat)
    ensures var x, confluence := ScoreInputOf(inp, cycles), ConfluenceOf(inp.reports);
            RawScores(x).noTrade
            == Round1(ClampScore((if confluence.conflict then 20.0 else 0.0)
                                 + (if confluence.quality < 0.4 then 25.0 - 25.0 * confluence.quality else 0.0)
                                 + RegimeLoss(RegimeOf(inp)) + BrakeDoubt(FindReport(inp.reports, PsychologyHead))))
  {
    hide ScoreInputOf, ConfluenceOf, RegimeOf, FindReport, PhaseOf, BrakeDoubt, RegimeLoss, RawScores, Round1,
      ClampScore;
    InputOfCycle(inp, cycles);
    DoubtByNumbers(ScoreInputOf(inp, cycles));
  }

  lemma DoubtByNumbers(x: ScoreInput)
    requires x.opposite == Some(OppositeCase(false, 0.0))
    ensures RawScores(x).noTrade
            == Round1(ClampScore((if x.conflict then 20.0 else 0.0)
                                 + (if x.quality < 0.4 then 25.0 - 25.0 * x.quality else 0.0)
                                 + RegimeLoss(x.regime) + BrakeDoubt(x.psychology)))
  {
    DoubtIsBrakes(x.psychology);
    hide PsychologyDoubt, BrakeDoubt, ClampScore, Round1;
    assert RegimeDoubt(x.regime) == RegimeLoss(x.regime);
    assert OppositeDoubt(x.opposite) == 0.0;
  }

  lemma DoubtIsBrakes(psychology: Option<HeadReport>)
    ensures PsychologyDoubt(psychology) == BrakeDoubt(psychology)
  {
  }

  // ----- Adjustments and decay -----

  /** The part of its conviction that a class keeps after so many idle cycles. */
  function Keeps(cls: Option<TradeClass>, cycles: nat): real {
    var lost := (match cls
                 case None => 10
                 case Some(Scalp) => 30
                 case Some(Continuation) => 10
                 case Some(Reversal) => 15
                 case Some(LiquidityReclaim) => 5
                 case Some(OptionsPressure) => 5) * cycles;
    (if lost > 90 then 10.0 else 100.0 - lost as real) / 100.0
  }

  /**
   A stale core head costs fifteen points from 60 on and five below, half of it as doubt; silence costs as it should.
  */
  lemma FinalScoresOfCycle(x: ScoreInput)
    requires x.Bounded()
    ensures var raw, cost := RawScores(x), if !x.coreStale then 0.0 else if x.Conviction() >= 60.0 then 15.0 else 5.0;
            var left := MaxR(0.0, raw.conviction - cost - (if x.presence.StaleNoSetup? then 5.0 else 0.0));
            var doubt := raw.noTrade + cost / 2.0 + (if x.presence.StaleNoSetup? then 20.0
                                                    else if x.presence.UncertainNoSetup? then 10.0 else 0.0);
            && FinalScores(x).conviction == (if x.cycles == 0 then left else ApplyDecay(left, Keeps(x.cls, x.cycles)))
            && FinalScores(x).noTrade == MinR(100.0, doubt)
            && (TradableBand(FinalScores(x).band) <==> FinalScores(x).conviction >= 60.0)
  {
    hide RawScores, DecayFactor, Keeps, DecayScores, TradableBand, AdjustScores, MaxR, MinR, Round1, ApplyDecay;
    RawConvictionCeiling(x);
    RawDoubtIsAScore(x);
    KeepsIsFactor(x.cls, x.cycles);
    BandOfRaw(x);
    FinalBand(x);
    AdjustedByNumbers(RawScores(x), x.coreStale, x.presence);
    DecayedByNumbers(AdjustedScores(x), DecayFactor(x.cls, x.cycles), x.cycles);
  }

  lemma DecayedByNumbers(s: Scores, factor: real, cycles: nat)
    ensures var d := DecayScores(s, factor, cycles);
            && d.noTrade == s.noTrade
            && d.conviction == (if cycles == 0 then s.conviction else ApplyDecay(s.conviction, factor))
  {
    hide ApplyDecay;
  }

  lemma AdjustedByNumbers(raw: Scores, coreStale: bool, presence: SetupPresence)
    requires 0.0 <= raw.conviction && 0.0 <= raw.noTrade <= 100.0
    ensures var cost := if !coreStale then 0.0 else if TradableBand(raw.band) then 15.0 else 5.0;
            var s := AdjustScores(raw, coreStale, presence);
            && s.conviction == MaxR(0.0, raw.conviction - cost - (if presence.StaleNoSetup? then 5.0 else 0.0))
            && s.noTrade == MinR(100.0, raw.noTrade + cost / 2.0
                                        + (if presence.StaleNoSetup? then 20.0
                                           else if presence.UncertainNoSetup? then 10.0 else 0.0))
  {
    hide BandOf, TradableBand;
  }

  lemma BandOfRaw(x: ScoreInput)
    ensures TradableBand(RawScores(x).band) <==> x.Conviction() >= 60.0
  {
  }

  lemma RawDoubtIsAScore(x: ScoreInput)
    ensures 0.0 <= RawScores(x).noTrade <= 100.0
  {
    var doubt := NoTradeScoreOf(x.quality, x.conflict, x.opposite, x.regime, x.psychology);
    assert 0.0 <= doubt <= 100.0;
    Round1Monotone(0.0, doubt);
    Round1Monotone(doubt, 100.0);
    Round1OfGrid(0);
    Round1OfGrid(1000);
  }

  lemma KeepsIsFactor(cls: Option<TradeClass>, cycles: nat)
    ensures DecayFactor(cls, cycles) == Keeps(cls, cycles)
  {
  }

  // ----- The decision -----

  /**
   A cycle trades exactly if the gate is open, at most one cooldown cycle is left, the reports take a side, the final
   conviction is at least 60 and above the doubt, and the trade can be built.
  */
  lemma TradeIff(s: CaptainState, inp: HeavyInput, d: Direction)
    ensures var final := FinalScores(ScoreInputOf(inp, s.cycles));
            Traded(s, Heavy(inp)) == Some(d) <==>
            && OpenCycle(s, Heavy(inp)) && s.cooldown <= 1
            && ConfluenceOf(inp.reports).dominant == (if d.Buy? then Bullish else Bearish)
            && final.conviction >= 60.0 && final.conviction > final.noTrade
            && Constructable(d, inp.atmStrike, inp.capital, inp.lotSize, final.band)
  {
    FinalBand(ScoreInputOf(inp, s.cycles));
    hide OpenCycle, FinalScores, ScoreInputOf, ConfluenceOf, Constructable;
    assert Opened(s, inp).cycles == s.cycles && Opened(s, inp).cooldown == s.cooldown;
  }

  lemma FinalBand(x: ScoreInput)
    ensures TradableBand(FinalScores(x).band) <==> FinalScores(x).conviction >= 60.0
  {
    hide RawScores, DecayFactor, ApplyDecay;
  }

  /** The cooldown a completed trade leaves behind. */
  lemma CooldownsByClass(s: CaptainState)
    ensures CompleteNext(s, Some(Scalp)).cooldown == 1 && CompleteNext(s, None).cooldown == 2
    ensures CompleteNext(s, Some(Continuation)).cooldown == CompleteNext(s, Some(OptionsPressure)).cooldown == 3
    ensures CompleteNext(s, Some(LiquidityReclaim)).cooldown == 4 && CompleteNext(s, Some(Reversal)).cooldown == 5
  {
  }

  // ----- What the summary says about setups -----

  /** With a built summary there are setups, or none; the penalties for stale or uncertain silence are never reached. */
  lemma BuiltPresence(inp: HeavyInput, cycles: nat)
    requires inp.summary == Some(SummaryOf(inp.reports))
    ensures ScoreInputOf(inp, cycles).presence
            == if CountSetups(Present(inp.reports, HEAD_ORDER)) > 0 then HasSetup else NoSetup
  {
    hide ConfluenceOf, DetectRegime, ClassOf, FindReport, CoreHeadStale, PhaseOf, Present, CountSetups;
  }

  /** A summary without that field is read through its counts. */
  lemma PresenceByCounts(f: FloorSummary)
    requires f.setupPresence == None
    ensures var p := PresenceOf(Some(f));
            && (f.activeSetups > 0 ==> p == HasSetup)
            && (f.activeSetups <= 0 && f.absenceContext.Some? ==> p == f.absenceContext.value)
            && (f.activeSetups <= 0 && f.absenceContext == None ==>
                  && (p == ReadyNoSetup <==> f.readyHeads >= 3)
                  && (p == UncertainNoSetup <==> f.readyHeads <= 2 && f.uncertainHeads >= 2)
                  && (p == StaleNoSetup <==> f.readyHeads <= 2 && f.uncertainHeads <= 1 && f.staleHeads >= 2)
                  && (p == UnknownPresence <==> f.readyHeads <= 2 && f.uncertainHeads <= 1 && f.staleHeads <= 1))
  {
  }

  /** SMC and ICT are the heads whose staleness counts. */
  lemma CoreStaleIff(reports: seq<Entry>)
    requires DistinctNames(reports)
    ensures CoreHeadStale(reports) <==>
            exists e :: e in reports && (e.name == SmcHead || e.name == IctHead) && e.report.state == Stale
  {
    FoundIsFiled(reports, SmcHead);
    FoundIsFiled(reports, IctHead);
    hide FindReport, DistinctNames;
    if e :| e in reports && (e.name == SmcHead || e.name == IctHead) && e.report.state == Stale {
      assert Entry(e.name, e.report) in reports;
    }
  }

  // ----- What the cycles report and leave behind -----

  /**
   A cycle arms a plan exactly with a direction, a class and no cooldown: at the zone of the input, or at its price.
  */
  lemma ArmsIff(s: CaptainState, inp: HeavyInput)
    ensures var dominant, cls := ConfluenceOf(inp.reports).dominant, ClassOf(inp);
            var book := ArmedBook(s, inp);
            if dominant != Neutral && cls.Some? && s.cooldown == 0 then
              && |book.plans| == |s.book.plans| + 1 && book.plans[..|s.book.plans|] == s.book.plans
              && book.plans[|s.book.plans|]
                 == CaptainPlan(s.book.issued, if dominant == Bullish then Buy else Sell, cls.value,
                                if inp.zone.Some? then inp.zone.value else inp.price, inp.candle, inp.now)
            else book == s.book
  {
    hide ConfluenceOf, ClassOf, CaptainPlan;
  }

  /**
   The outcome of a heavy cycle names the failed checks, or the trade, the scores, the new plan and the purged ones.
  */
  lemma HeavyOutcomeSays(s: CaptainState, inp: HeavyInput)
    ensures var out, book := HeavyOut(s, inp), ArmedBook(s, inp);
            && (out.Blocked? <==> !OpenCycle(s, Heavy(inp)))
            && (out.Blocked? ==> out.failed == GateVerdict(Opened(s, inp), inp))
            && (out.Decided? ==>
                  && out.trade == Traded(s, Heavy(inp)) && out.scores == FinalScores(ScoreInputOf(inp, s.cycles))
                  && out.armed == (if |book.plans| == |s.book.plans| then None else Some(s.book.issued))
                  && out.purged == PurgedIds(book.plans, inp.candle))
  {
    ArmsIff(s, inp);
    hide ConfluenceOf, ClassOf, FinalScores, BlockedBy, ScoreInputOf, PurgedIds, CaptainPlan;
    assert ArmedBook(Opened(s, inp), inp) == ArmedBook(s, inp);
  }

  /**
   A trade is remembered with its side and class, a SCALP without one; a blocked cycle leaves all but the lock alone.
  */
  lemma HeavyLeaves(s: CaptainState, inp: HeavyInput)
    ensures var t, trade := HeavyNext(s, inp), Traded(s, Heavy(inp));
            && t.candle == inp.candle && t.interventions == s.interventions && t.guard == s.guard
            && (trade.Some? ==> t.activeTrade == Some(ActiveTrade(trade.value, Or(ClassOf(inp), Scalp))))
            && (trade == None ==> t.activeTrade == s.activeTrade)
            && (!OpenCycle(s, Heavy(inp)) ==> t.book == s.book && t.cooldown == s.cooldown && t.cycles == s.cycles)
            && (OpenCycle(s, Heavy(inp)) ==>
                  t.cycles == (if trade.Some? then 0 else s.cycles + 1)
                  && t.cooldown == (if s.cooldown == 0 then 0 else s.cooldown - 1))
  {
    hide ConfluenceOf, ClassOf, FinalScores, BlockedBy, ScoreInputOf, PurgeAll, ArmedBook;
  }

  /** A tick asks for an intervention exactly with an active trade, and remembers the answer. */
  lemma LightLeaves(s: CaptainState, x: LightInput)
    ensures var t, d := LightNext(s, x), LightOut(s, x).intervention;
            && (d.Some? <==> s.activeTrade.Some?)
            && (d.Some? ==> d.value == InterventionFor(LatestReview(s.reviews),
                                                       InterventionInput(s.activeTrade, x.regime, x.oppositeStrength,
                                                                         x.oiHealthy, x.dataCritical, x.riskEvent)))
            && t.interventions == (if d.Some? then s.interventions + [d.value] else s.interventions)
            && t.activeTrade == s.activeTrade && t.cooldown == s.cooldown && t.cycles == s.cycles
            && t.lock == s.lock && t.guard == s.guard && t.book.issued == s.book.issued
  {
    hide InterventionFor, WatchResultOf, WatchAll;
  }

  /** A session starts with nothing carried over but the identifiers of plans and what the gate holds. */
  lemma SessionResets(s: CaptainState, today: int)
    ensures var t := Step(s, SessionStart(today));
            && t.activeTrade == None && t.cooldown == 0 && t.cycles == 0 && t.candle == 0
            && t.book.plans == [] && t.reviews == [] && t.interventions == [] && !t.attached
            && t.lock.count == 0 && !t.lock.locked && t.lock.maxLosses == 3 && t.lock.resetDate == today
            && t.lock.history == [] && !t.guard.required && !t.guard.granted
            && t.gateLock == s.gateLock && t.gateGuard == s.gateGuard
  {
  }

  /** A new engine: nothing traded, nothing armed, three losses to go, the gate on the engine's own lock. */
  lemma StartsEmpty(today: int)
    ensures var s := Init(today);
            && s.activeTrade == None && s.cooldown == 0 && s.cycles == 0 && s.candle == 0
            && s.book.plans == [] && s.reviews == [] && s.interventions == [] && s.attached
            && s.lock == s.gateLock && s.guard == s.gateGuard && !s.lock.locked && s.lock.maxLosses == 3
            && s.lock.count == 0 && s.lock.resetDate == today && !s.guard.required && !s.guard.granted
  {
  }

  /** What the operator's calls do to the override, one by one. */
  lemma OverrideCalls(s: CaptainState)
    ensures var asked := Step(s, OverrideAsked).guard; asked.required && !asked.granted
    ensures var granted := Step(s, OverrideAnswered(true)).guard;
            if s.guard.required then granted.granted && !granted.required else granted == s.guard
    ensures var denied := Step(s, OverrideAnswered(false)).guard; !denied.required && !denied.granted
    ensures var cleared := Step(s, OverrideCleared).guard; !cleared.required && !cleared.granted
  {
  }

  /** The lock by numbers: REAL losses alone count, the limit closes it, and a later day opens it. */
  lemma LossCalls(lock: LockState, today: int)
    ensures var l := AfterLoss(lock, today);
            && (lock.mode != Real ==> l == lock)
            && (lock.mode == Real ==>
                  && l.count == lock.count + 1 && l.history == lock.history + [LossEntry(Real, lock.count + 1)]
                  && (l.locked <==> lock.locked || lock.count + 1 >= lock.maxLosses)
                  && (lock.count + 1 >= lock.maxLosses ==> l.lockedDate == Some(today)))
    ensures var l := AfterNewDay(lock, today);
            && (today <= lock.resetDate ==> l == lock)
            && (today > lock.resetDate ==>
                  l.count == 0 && !l.locked && l.lockedDate == None && l.history == [] && l.resetDate == today
                  && l.mode == lock.mode && l.maxLosses == lock.maxLosses)
  {
  }
}
