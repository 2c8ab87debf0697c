/**
 The Captain's scores: conviction_engine.py, the adjustments of heavy-cycle steps 13a and 19
 (captain_engine.py) and confidence_decay_engine.py.
*/
module Conviction {
  import opened SharedTypes
  import opened Numerics
  import opened SessionPolicy

  datatype ConvictionBand = Reject | Weak | Tradable | Strong | Elite

  datatype OppositeCase = OppositeCase(exists_: bool, strength: real)

  datatype Scores = Scores(conviction: real, noTrade: real, band: ConvictionBand)

  /** What the summary and the heads say about missing setups. */
  datatype SetupPresence =
    | HasSetup | NoSetup | ReadyNoSetup | UncertainNoSetup | StaleNoSetup | UnknownPresence

  function BandOf(score: real): ConvictionBand {
    if score >= 90.0 then Elite
    else if score >= 75.0 then Strong
    else if score >= 60.0 then Tradable
    else if score >= 40.0 then Weak
    else Reject
  }

  predicate TradableBand(b: ConvictionBand) {
    b.Tradable? || b.Strong? || b.Elite?
  }

  function BandRank(b: ConvictionBand): nat {
    match b
    case Reject => 0
    case Weak => 1
    case Tradable => 2
    case Strong => 3
    case Elite => 4
  }

  // ----- The raw scores -----

  function OppositePenalty(opposite: Option<OppositeCase>): real {
    if opposite.Some? && opposite.value.exists_ then
      opposite.value.strength * 25.0 + (if opposite.value.strength >= 0.7 then 15.0 else 0.0)
    else 0.0
  }

  function RegimePoints(regime: Regime): real {
    match regime
    case TrendUp => 25.0
    case TrendDown => 25.0
    case WeakUp => 15.0
    case WeakDown => 15.0
    case Range => 7.5
    case _ => 0.0
  }

  function PsychologyPenalty(psychology: Option<HeadReport>): real {
    match psychology
    case None => 0.0
    case Some(p) =>
      (if p.cautionLevel > 0.5 then 7.5 * p.cautionLevel else 0.0)
      + (if p.cooldownActive then 7.5 else 0.0)
      + (if p.trapPressure then 4.5 else 0.0)
  }

  function ConvictionScoreOf(quality: real, opposite: Option<OppositeCase>, regime: Regime,
                             psychology: Option<HeadReport>, phase: SessionPhase): real {
    ClampScore(60.0 * quality - OppositePenalty(opposite) + RegimePoints(regime)
               - PsychologyPenalty(psychology) + 15.0 * AggressionModifier(phase))
  }

  method ComputeConvictionScore(quality: real, opposite: Option<OppositeCase>, regime: Regime,
                                psychology: Option<HeadReport>, phase: SessionPhase)
    returns (score: real)
    ensures score == ConvictionScoreOf(quality, opposite, regime, psychology, phase)
  {
    score := 60.0 * quality;
    if opposite.Some? && opposite.value.exists_ {
      score := score - opposite.value.strength * 25.0;
      if opposite.value.strength >= 0.7 {
        score := score - 100.0 * 0.15;
      }
    }
    assert score == 60.0 * quality - OppositePenalty(opposite);
    match regime {
      case TrendUp => score := score + 25.0;
      case TrendDown => score := score + 25.0;
      case WeakUp => score := score + 25.0 * 0.6;
      case WeakDown => score := score + 25.0 * 0.6;
      case Range => score := score + 25.0 * 0.3;
      case _ =>
    }
    assert score == 60.0 * quality - OppositePenalty(opposite) + RegimePoints(regime);
    if psychology.Some? {
      var p := psychology.value;
      if p.cautionLevel > 0.5 {
        score := score - 15.0 * p.cautionLevel * 0.5;
      }
      if p.cooldownActive {
        score := score - 15.0 * 0.5;
      }
      if p.trapPressure {
        score := score - 15.0 * 0.3;
      }
    }
    assert score == 60.0 * quality - OppositePenalty(opposite) + RegimePoints(regime) - PsychologyPenalty(psychology);
    score := score + AggressionModifier(phase) * 15.0;
    score := ClampScore(score);
  }

  function OppositeDoubt(opposite: Option<OppositeCase>): real {
    if opposite.Some? && opposite.value.exists_ then 35.0 * opposite.value.strength else 0.0
  }

  function ConfluenceDoubt(quality: real, conflict: bool): real {
    (if conflict then 20.0 else 0.0) + (if quality < 0.4 then 25.0 * (1.0 - quality) else 0.0)
  }

  function PsychologyDoubt(psychology: Option<HeadReport>): real {
    match psychology
    case None => 0.0
    case Some(p) =>
      (if !p.tradeAllowed then 25.0 else if p.cautionLevel > 0.5 then 25.0 * p.cautionLevel else 0.0)
      + (if p.cooldownActive then 12.5 else 0.0)
      + (if p.repeatedMistake then 10.0 else 0.0)
  }

  function RegimeDoubt(regime: Regime): real {
    match regime
    case Chop => 15.0
    case Unclear => 15.0
    case Range => 7.5
    case _ => 0.0
  }

  function NoTradeScoreOf(quality: real, conflict: bool, opposite: Option<OppositeCase>, regime: Regime,
                          psychology: Option<HeadReport>): real {
    ClampScore(OppositeDoubt(opposite) + ConfluenceDoubt(quality, conflict) + PsychologyDoubt(psychology)
               + RegimeDoubt(regime))
  }

  method AddPsychologyDoubt(base: real, psychology: Option<HeadReport>) returns (score: real)
    ensures score == base + PsychologyDoubt(psychology)
  {
    score := base;
    if psychology.Some? {
      var p := psychology.value;
      if !p.tradeAllowed {
        score := score + 25.0;
      } else if p.cautionLevel > 0.5 {
        score := score + 25.0 * p.cautionLevel;
      }
      if p.cooldownActive {
        score := score + 25.0 * 0.5;
      }
      if p.repeatedMistake {
        score := score + 25.0 * 0.4;
      }
    }
  }

  method ComputeNoTradeScore(quality: real, conflict: bool, opposite: Option<OppositeCase>, regime: Regime,
                             psychology: Option<HeadReport>)
    returns (score: real)
    ensures score == NoTradeScoreOf(quality, conflict, opposite, regime, psychology)
  {
    hide PsychologyDoubt;
    score := 0.0;
    if opposite.Some? && opposite.value.exists_ {
      score := score + 35.0 * opposite.value.strength;
    }
    assert score == OppositeDoubt(opposite);
    if conflict {
      score := score + 25.0 * 0.8;
    }
    if quality < 0.4 {
      score := score + 25.0 * (1.0 - quality);
    }
    assert score == OppositeDoubt(opposite) + ConfluenceDoubt(quality, conflict);
    hide OppositeDoubt, ConfluenceDoubt;
    score := AddPsychologyDoubt(score, psychology);
    match regime {
      case Chop => score := score + 15.0;
      case Unclear => score := score + 15.0;
      case Range => score := score + 15.0 * 0.5;
      case _ =>
    }
    assert score == OppositeDoubt(opposite) + ConfluenceDoubt(quality, conflict) + PsychologyDoubt(psychology)
                    + RegimeDoubt(regime);
    score := ClampScore(score);
  }

  /** Everything the scores of one heavy cycle depend on. */
  datatype ScoreInput = ScoreInput(
    quality: real,
    conflict: bool,
    opposite: Option<OppositeCase>,
    regime: Regime,
    psychology: Option<HeadReport>,
    phase: SessionPhase,
    coreStale: bool,
    presence: SetupPresence,
    cls: Option<TradeClass>,
    cycles: nat)
  {
    function Conviction(): real {
      ConvictionScoreOf(quality, opposite, regime, psychology, phase)
    }

    ghost predicate Bounded() {
      quality <= 1.0 && (opposite.Some? ==> opposite.value.strength >= 0.0)
    }
  }

  /** The band comes from the unrounded score, the stored scores are rounded. */
  function RawScores(x: ScoreInput): Scores {
    Scores(Round1(x.Conviction()),
           Round1(NoTradeScoreOf(x.quality, x.conflict, x.opposite, x.regime, x.psychology)),
           BandOf(x.Conviction()))
  }

  // ----- Step 13a: stale core heads and missing setups -----

  function AdjustScores(s: Scores, coreStale: bool, presence: SetupPresence): Scores {
    var penalty := if TradableBand(s.band) then 15.0 else 5.0;
    var c1 := if coreStale then MaxR(0.0, s.conviction - penalty) else s.conviction;
    var n1 := if coreStale then MinR(100.0, s.noTrade + penalty * 0.5) else s.noTrade;
    var c2 := if presence.StaleNoSetup? then MaxR(0.0, c1 - 5.0) else c1;
    var n2 := if presence.StaleNoSetup? then MinR(100.0, n1 + 20.0)
              else if presence.UncertainNoSetup? then MinR(100.0, n1 + 10.0) else n1;
    Scores(c2, n2, BandOf(c2))
  }

  // ----- Step 19: decay -----

  /** rate x elapsed */
  function DecayLoss(cls: Option<TradeClass>, elapsed: int): real {
    match cls
    case None => 0.10 * elapsed as real
    case Some(Scalp) => 0.30 * elapsed as real
    case Some(Continuation) => 0.10 * elapsed as real
    case Some(Reversal) => 0.15 * elapsed as real
    case Some(LiquidityReclaim) => 0.05 * elapsed as real
    case Some(OptionsPressure) => 0.05 * elapsed as real
  }

  function DecayFactor(cls: Option<TradeClass>, elapsed: int): real {
    if elapsed <= 0 then 1.0
    else MaxR(0.10, MinR(1.0, 1.0 - DecayLoss(cls, elapsed)))
  }

  function ApplyDecay(score: real, factor: real): real {
    Round1(score * factor)
  }

  /** The decay step runs only once a cycle has passed without a trade. */
  function DecayScores(s: Scores, factor: real, cycles: nat): Scores {
    if cycles > 0 then
      var c := ApplyDecay(s.conviction, factor);
      s.(conviction := c, band := BandOf(c))
    else s
  }

  predicate ShouldTrade(s: Scores) {
    TradableBand(s.band) && s.conviction > s.noTrade
  }

  function AdjustedScores(x: ScoreInput): Scores {
    AdjustScores(RawScores(x), x.coreStale, x.presence)
  }

  /** Steps 13, 13a and 19 in the order the heavy cycle runs them. */
  function FinalScores(x: ScoreInput): Scores {
    DecayScores(AdjustedScores(x), DecayFactor(x.cls, x.cycles), x.cycles)
  }

  /** Step 13: the scores before the class is assigned; they depend on neither class nor idle cycles. */
  method ComputeRawScores(x: ScoreInput) returns (s: Scores)
    ensures s == RawScores(x)
  {
    var conviction := ComputeConvictionScore(x.quality, x.opposite, x.regime, x.psychology, x.phase);
    var noTrade := ComputeNoTradeScore(x.quality, x.conflict, x.opposite, x.regime, x.psychology);
    s := Scores(Round1(conviction), Round1(noTrade), BandOf(conviction));
  }

  /** Steps 13a and 19: the score object is changed in place. */
  method AdjustAndDecay(raw: Scores, coreStale: bool, presence: SetupPresence, cls: Option<TradeClass>, cycles: nat)
    returns (s: Scores)
    ensures s == DecayScores(AdjustScores(raw, coreStale, presence), DecayFactor(cls, cycles), cycles)
  {
    s := ApplyAdjustments(raw, coreStale, presence);
    if cycles > 0 {
      var decayed := ApplyDecay(s.conviction, DecayFactor(cls, cycles));
      s := s.(conviction := decayed, band := BandOf(decayed));
    }
  }

  method ApplyAdjustments(raw: Scores, coreStale: bool, presence: SetupPresence) returns (s: Scores)
    ensures s == AdjustScores(raw, coreStale, presence)
  {
    s := raw;
    if coreStale {
      var penalty := if TradableBand(s.band) then 15.0 else 5.0;
      s := s.(conviction := MaxR(0.0, s.conviction - penalty), noTrade := MinR(100.0, s.noTrade + penalty * 0.5));
    }
    if presence.StaleNoSetup? {
      s := s.(noTrade := MinR(100.0, s.noTrade + 20.0), conviction := MaxR(0.0, s.conviction - 5.0));
    } else if presence.UncertainNoSetup? {
      s := s.(noTrade := MinR(100.0, s.noTrade + 10.0));
    }
    s := s.(band := BandOf(s.conviction));
  }

  // ----- Decay lockout -----

  /** The number of idle cycles from which decay alone keeps a class out of the TRADABLE band, whatever its regime. */
  function LockoutThreshold(cls: Option<TradeClass>): nat {
    match cls
    case None => 4
    case Some(Scalp) => 2
    case Some(Continuation) => 4
    case Some(Reversal) => 3
    case Some(LiquidityReclaim) => 7
    case Some(OptionsPressure) => 7
  }

  /** Full confluence, a trend and golden morning give 60 + 25 + 1.5; nothing adds more. */
  lemma RawConvictionCeiling(x: ScoreInput)
    requires x.Bounded()
    ensures 0.0 <= x.Conviction() <= 86.5
    ensures 0.0 <= RawScores(x).conviction <= 86.5
  {
  }

  lemma AdjustOnlyLowers(s: Scores, coreStale: bool, presence: SetupPresence)
    requires 0.0 <= s.conviction
    ensures 0.0 <= AdjustScores(s, coreStale, presence).conviction <= s.conviction
  {
  }

  lemma FactorBelow(cls: Option<TradeClass>, cycles: nat)
    requires cycles >= LockoutThreshold(cls)
    ensures 0.0 <= DecayFactor(cls, cycles) <= 0.65
  {
  }

  lemma FactorUnit(cls: Option<TradeClass>, cycles: int)
    ensures 0.10 <= DecayFactor(cls, cycles) <= 1.0
  {
  }

  lemma ScaledRound(s: real, t: real, f: real, g: real)
    requires 0.0 <= s <= t && 0.0 <= f <= g
    ensures 0.0 <= ApplyDecay(s, f) <= ApplyDecay(t, g)
  {
    ProductMonotone(s, t, f, g);
    Round1Monotone(0.0, s * f);
    Round1Monotone(s * f, t * g);
    Round1OfGrid(0);
  }

  lemma ScaledBelowSixty(c: real, f: real, most: real, bound: real)
    requires 0.0 <= c <= most && 0.0 <= f <= bound && most * bound < 59.95
    ensures ApplyDecay(c, f) < 60.0
  {
    ScaledRound(c, most, f, bound);
    Round1Near(most * bound);
  }

  lemma ScaledAtMost(c: real, f: real, k: int)
    requires 0.0 <= c <= k as real / 10.0 && 0.0 <= f <= 1.0
    ensures ApplyDecay(c, f) <= k as real / 10.0
  {
    ScaledRound(c, k as real / 10.0, f, 1.0);
    Round1OfGrid(k);
  }

  lemma DecayStage(s: Scores, factor: real, cycles: nat)
    requires 0.0 <= s.conviction <= 86.5 && s.band == BandOf(s.conviction)
    requires 0.0 <= factor <= 1.0
    ensures !DecayScores(s, factor, cycles).band.Elite?
    ensures cycles > 0 && factor <= 0.65 ==> !TradableBand(DecayScores(s, factor, cycles).band)
  {
    ScaledAtMost(s.conviction, factor, 865);
    if factor <= 0.65 {
      ScaledBelowSixty(s.conviction, factor, 86.5, 0.65);
    }
  }

  /** ELITE is out of reach, and a class past its threshold cannot pass `_should_trade`. */
  lemma DecayLocksOut(x: ScoreInput)
    requires x.Bounded()
    ensures !FinalScores(x).band.Elite?
    ensures x.cycles >= LockoutThreshold(x.cls) ==> !ShouldTrade(FinalScores(x))
  {
    RawConvictionCeiling(x);
    AdjustOnlyLowers(RawScores(x), x.coreStale, x.presence);
    FactorUnit(x.cls, x.cycles);
    if x.cycles >= LockoutThreshold(x.cls) {
      FactorBelow(x.cls, x.cycles);
    }
    DecayStage(AdjustedScores(x), DecayFactor(x.cls, x.cycles), x.cycles);
  }

  // ----- Order of the pipeline -----

  /** Psychology `p` is at least as restrained as `q`. */
  ghost predicate NoCalmer(p: Option<HeadReport>, q: Option<HeadReport>) {
    match (p, q)
    case (None, None) => true
    case (Some(a), Some(b)) =>
      && a.cautionLevel >= b.cautionLevel >= 0.0 && (b.cooldownActive ==> a.cooldownActive)
      && (b.trapPressure ==> a.trapPressure)
    case (Some(_), None) => true
    case (None, Some(_)) => false
  }

  /** Opposite case `o` is at least as strong as `u`. */
  ghost predicate NoWeaker(o: Option<OppositeCase>, u: Option<OppositeCase>) {
    && (o.Some? ==> o.value.strength >= 0.0)
    && (u.Some? && u.value.exists_ ==>
          o.Some? && o.value.exists_ && o.value.strength >= u.value.strength >= 0.0)
  }

  lemma FactorAntitone(cls: Option<TradeClass>, m: nat, n: nat)
    requires m <= n
    ensures DecayFactor(cls, n) <= DecayFactor(cls, m)
  {
  }

  lemma AdjustedOnGrid(s: Scores, coreStale: bool, presence: SetupPresence)
    requires Round1(s.conviction) == s.conviction
    ensures Round1(AdjustScores(s, coreStale, presence).conviction) == AdjustScores(s, coreStale, presence).conviction
  {
    var k := NearestEven(s.conviction * 10.0);
    assert s.conviction == k as real / 10.0;
    FiveLess(k);
    FiveLess(k - 50);
    FiveLess(k - 100);
    FiveLess(k - 150);
    Round1OfGrid(k);
    Round1OfGrid(0);
  }

  lemma FiveLess(k: int)
    ensures k as real / 10.0 - 5.0 == (k - 50) as real / 10.0 == Round1((k - 50) as real / 10.0)
  {
    Round1OfGrid(k - 50);
  }

  /**
   `x` is no better than `y` for trading: less confluence, more opposition, more restraint, more idle cycles. Nothing is
   said about the classes, which a cycle computes from its own scores.
  */
  ghost predicate NoBetter(x: ScoreInput, y: ScoreInput) {
    && x.quality <= y.quality && NoWeaker(x.opposite, y.opposite) && NoCalmer(x.psychology, y.psychology)
    && x.cycles >= y.cycles
    && x.regime == y.regime && x.phase == y.phase && x.presence == y.presence
  }

  lemma RawIsMonotone(x: ScoreInput, y: ScoreInput)
    requires NoBetter(x, y)
    ensures 0.0 <= RawScores(x).conviction <= RawScores(y).conviction
  {
    assert OppositePenalty(y.opposite) <= OppositePenalty(x.opposite);
    assert PsychologyPenalty(y.psychology) <= PsychologyPenalty(x.psychology);
    Round1Monotone(0.0, x.Conviction());
    Round1Monotone(x.Conviction(), y.Conviction());
    Round1OfGrid(0);
  }

  lemma BandMonotone(c: real, d: real)
    requires c <= d
    ensures BandRank(BandOf(c)) <= BandRank(BandOf(d))
  {
  }

  lemma DecayIsMonotone(s: Scores, t: Scores, f: real, g: real, m: nat, n: nat)
    requires 0.0 <= s.conviction <= t.conviction && m >= n && 0.0 <= f <= g && (n == 0 ==> g == 1.0) && f <= 1.0
    requires s.band == BandOf(s.conviction) && t.band == BandOf(t.conviction)
    requires Round1(s.conviction) == s.conviction && Round1(t.conviction) == t.conviction
    ensures DecayScores(s, f, m).conviction <= DecayScores(t, g, n).conviction
    ensures BandRank(DecayScores(s, f, m).band) <= BandRank(DecayScores(t, g, n).band)
  {
    ScaledRound(s.conviction, t.conviction, f, g);
    ScaledRound(s.conviction, s.conviction, f, 1.0);
    assert ApplyDecay(s.conviction, 1.0) == s.conviction && ApplyDecay(t.conviction, 1.0) == t.conviction;
    BandMonotone(DecayScores(s, f, m).conviction, DecayScores(t, g, n).conviction);
  }

  /** While neither core head is stale, final conviction and band keep the order of inputs whose decay keeps it. */
  lemma PipelineKeepsOrder(x: ScoreInput, y: ScoreInput)
    requires NoBetter(x, y) && !x.coreStale && !y.coreStale
    requires DecayFactor(x.cls, x.cycles) <= DecayFactor(y.cls, y.cycles)
    ensures FinalScores(x).conviction <= FinalScores(y).conviction
    ensures BandRank(FinalScores(x).band) <= BandRank(FinalScores(y).band)
  {
    RawIsMonotone(x, y);
    Round1Near(x.Conviction());
    Round1Near(y.Conviction());
    AdjustedOnGrid(RawScores(x), false, x.presence);
    AdjustedOnGrid(RawScores(y), false, y.presence);
    FactorUnit(x.cls, x.cycles);
    DecayIsMonotone(AdjustedScores(x), AdjustedScores(y), DecayFactor(x.cls, x.cycles),
                    DecayFactor(y.cls, y.cycles), x.cycles, y.cycles);
  }

  /** Idle cycles alone only lower final conviction and band, stale core heads included. */
  lemma IdleCyclesOnlyLower(x: ScoreInput, more: nat)
    requires x.cycles <= more
    ensures FinalScores(x.(cycles := more)).conviction <= FinalScores(x).conviction
    ensures BandRank(FinalScores(x.(cycles := more)).band) <= BandRank(FinalScores(x).band)
  {
    Round1Near(x.Conviction());
    Round1Monotone(0.0, x.Conviction());
    Round1OfGrid(0);
    AdjustOnlyLowers(RawScores(x), x.coreStale, x.presence);
    AdjustedOnGrid(RawScores(x), x.coreStale, x.presence);
    FactorUnit(x.cls, more);
    FactorAntitone(x.cls, x.cycles, more);
    DecayIsMonotone(AdjustedScores(x), AdjustedScores(x), DecayFactor(x.cls, more), DecayFactor(x.cls, x.cycles),
                    more, x.cycles);
  }

  /**
   With a stale core head in both, the order of two adjusted scores survives the penalty exactly if the worse one was
   tradable already, or the better one is not, or ten points lie between them: the tradable side loses 15, the other 5.
   The presence of setups makes no difference.
  */
  lemma StaleOrderIff(low: Scores, high: Scores, presence: SetupPresence)
    requires low.conviction <= high.conviction && BandRank(low.band) <= BandRank(high.band)
    requires TradableBand(high.band) ==> high.conviction >= 59.9
    ensures AdjustScores(low, true, presence).conviction <= AdjustScores(high, true, presence).conviction
            <==> TradableBand(low.band) || !TradableBand(high.band) || high.conviction - low.conviction >= 10.0
  {
  }

  /** The same for two inputs of the pipeline, in the order that holds without stale heads. */
  lemma StalePipelineOrderIff(x: ScoreInput, y: ScoreInput)
    requires NoBetter(x, y) && x.coreStale && y.coreStale
    ensures var low, high := RawScores(x), RawScores(y);
            AdjustedScores(x).conviction <= AdjustedScores(y).conviction
            <==> TradableBand(low.band) || !TradableBand(high.band) || high.conviction - low.conviction >= 10.0
  {
    RawIsMonotone(x, y);
    ConvictionIsMonotone(x, y);
    BandMonotone(x.Conviction(), y.Conviction());
    Round1Near(y.Conviction());
    StaleOrderIff(RawScores(x), RawScores(y), x.presence);
  }

  lemma ConvictionIsMonotone(x: ScoreInput, y: ScoreInput)
    requires NoBetter(x, y)
    ensures x.Conviction() <= y.Conviction()
  {
    assert OppositePenalty(y.opposite) <= OppositePenalty(x.opposite);
    assert PsychologyPenalty(y.psychology) <= PsychologyPenalty(x.psychology);
  }

  lemma DecayKeepsBelow(s: Scores, factor: real, cycles: nat)
    requires 0.0 <= s.conviction <= 59.9 && s.band == BandOf(s.conviction)
    requires 0.0 <= factor <= 1.0
    ensures !TradableBand(DecayScores(s, factor, cycles).band)
  {
    ScaledAtMost(s.conviction, factor, 599);
  }

  /**
   With a stale SMC or ICT head the cycle reaches a tradable band only from a pre-penalty score of 75 or more;
   when no setup penalty and no decay follow, such a score is also enough.
  */
  lemma StaleCoreNeedsSeventyFive(x: ScoreInput)
    requires x.Bounded() && x.coreStale
    ensures TradableBand(FinalScores(x).band) ==> RawScores(x).conviction >= 75.0
    ensures x.cycles == 0 && !x.presence.StaleNoSetup? ==>
              (TradableBand(FinalScores(x).band) <==> RawScores(x).conviction >= 75.0)
  {
    RawConvictionCeiling(x);
    AdjustOnlyLowers(RawScores(x), true, x.presence);
    Round1Near(x.Conviction());
    if RawScores(x).conviction < 75.0 {
      OnGridBelow(RawScores(x).conviction, AdjustedScores(x).conviction, x.Conviction());
      FactorUnit(x.cls, x.cycles);
      DecayKeepsBelow(AdjustedScores(x), DecayFactor(x.cls, x.cycles), x.cycles);
    }
  }

  /** A score on the 0.1 grid below 75 lands at 59.9 or lower after the stale-head penalty. */
  lemma OnGridBelow(raw: real, adjusted: real, c: real)
    requires raw == Round1(c) && raw < 75.0
    requires adjusted <= MaxR(0.0, raw - (if c >= 60.0 then 15.0 else 5.0))
    ensures adjusted <= 59.9
  {
  }

  // ----- The tables in numbers -----

  lemma BandCases(score: real)
    ensures BandOf(score) == Elite <==> 90.0 <= score
    ensures BandOf(score) == Strong <==> 75.0 <= score < 90.0
    ensures BandOf(score) == Tradable <==> 60.0 <= score < 75.0
    ensures BandOf(score) == Weak <==> 40.0 <= score < 60.0
    ensures BandOf(score) == Reject <==> score < 40.0
  {
  }

  /** What an opposite case takes off the conviction and adds to the doubt; in a heavy cycle there is none. */
  lemma OppositeInPoints(o: Option<OppositeCase>)
    ensures o == None || !o.value.exists_ ==> OppositePenalty(o) == OppositeDoubt(o) == 0.0
    ensures o.Some? && o.value.exists_ && o.value.strength >= 0.7
            ==> OppositePenalty(o) == 25.0 * o.value.strength + 15.0
    ensures o.Some? && o.value.exists_ && o.value.strength < 0.7 ==> OppositePenalty(o) == 25.0 * o.value.strength
    ensures o.Some? && o.value.exists_ ==> OppositeDoubt(o) == 35.0 * o.value.strength
  {
  }
}
