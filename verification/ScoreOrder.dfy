/**
 When a better input keeps the better score: the trade class is computed from the score and sets the pace of decay.
*/
module ScoreOrder {
  import opened SharedTypes
  import opened Numerics
  import opened SessionPolicy
  import opened Conviction
  import opened RegimeDetection
  import opened TradeClasses

  /** Direction, band and regime fix the class. */
  lemma ClassByBand(x: ScoreInput, directed: bool)
    requires x.Bounded() && Classified(x, directed)
    ensures x.cls == if !directed || RawScores(x).band.Reject? then None
                     else if RawScores(x).band.Weak? then Some(Scalp)
                     else Some(RegimeClass(x.regime))
  {
    hide AssignedClass, RawScores;
    var band := RawScores(x).band;
    if !directed || band.Reject? {
      ClassOfRejectBand(directed, x.quality, x.regime, x.phase, band);
    } else {
      AboveRejectNeedsQuality(x);
      if band.Weak? {
        ClassOfWeakBand(x.quality, x.regime, x.phase);
      } else {
        if Sideways(x.regime) {
          SidewaysIsNeverStrong(x);
        }
        ClassOfTradableBand(x.quality, x.regime, x.phase, band);
      }
    }
  }

  lemma AboveRejectNeedsQuality(x: ScoreInput)
    requires x.Bounded() && !RawScores(x).band.Reject?
    ensures x.quality > 0.0
  {
    assert OppositePenalty(x.opposite) >= 0.0 && PsychologyPenalty(x.psychology) >= 0.0;
  }

  /**
   The worse input has no class and decays by a tenth, the better one is a SCALP and decays by three; or the worse one
   is a LIQUIDITY_RECLAIM and decays by a twentieth, while the better one has no direction, hence no class, and decays
   by a tenth. Enough further idle cycles of the worse input make up for either.
  */
  predicate Overtaken(c: Option<TradeClass>, m: nat, d: Option<TradeClass>, n: nat) {
    || (c == None && d == Some(Scalp) && m < 3 * n && m < 9)
    || (c == Some(LiquidityReclaim) && d == None && m < 2 * n && m < 18)
  }

  lemma FactorOrder(c: Option<TradeClass>, m: nat, d: Option<TradeClass>, n: nat)
    requires m >= n && !Overtaken(c, m, d, n)
    requires c != Some(Reversal) && c != Some(OptionsPressure) && d != Some(Reversal) && d != Some(OptionsPressure)
    requires c == Some(Continuation) || c == Some(LiquidityReclaim) ==> c == d || d == None
    ensures DecayFactor(c, m) <= DecayFactor(d, n)
  {
  }

  /**
   Without stale core heads a better input ends with a conviction at least as high unless its class overtakes the other
   in decay; and if both cycles have a direction, or neither has, its final band is never lower even then.
  */
  lemma AssignedOrder(x: ScoreInput, dx: bool, y: ScoreInput, dy: bool)
    requires NoBetter(x, y) && x.Bounded() && y.Bounded() && !x.coreStale && !y.coreStale
    requires Classified(x, dx) && Classified(y, dy)
    ensures !Overtaken(x.cls, x.cycles, y.cls, y.cycles) ==> FinalScores(x).conviction <= FinalScores(y).conviction
    ensures !Overtaken(x.cls, x.cycles, y.cls, y.cycles) || dx == dy ==>
              BandRank(FinalScores(x).band) <= BandRank(FinalScores(y).band)
  {
    ClassByBand(x, dx);
    ClassByBand(y, dy);
    RawBandsInOrder(x, y);
    assert x.regime == y.regime && x.cycles >= y.cycles;
    if Overtaken(x.cls, x.cycles, y.cls, y.cycles) {
      if dx == dy {
        RejectedStays(x);
      }
    } else {
      hide FinalScores, RawScores, Classified, NoBetter;
      FactorOrder(x.cls, x.cycles, y.cls, y.cycles);
      PipelineKeepsOrder(x, y);
    }
  }

  /** A rejected raw score may round up to WEAK, but not past the first decay. */
  lemma RejectedStays(x: ScoreInput)
    requires x.Bounded() && RawScores(x).band.Reject? && x.cls == None && x.cycles > 0
    ensures FinalScores(x).band.Reject?
  {
    RawConvictionCeiling(x);
    Round1Monotone(x.Conviction(), 40.0);
    Round1OfGrid(400);
    AdjustOnlyLowers(RawScores(x), x.coreStale, x.presence);
    FactorUnit(x.cls, x.cycles);
    assert DecayFactor(x.cls, x.cycles) <= 0.9;
    ScaledRound(AdjustedScores(x).conviction, 40.0, DecayFactor(x.cls, x.cycles), 0.9);
    Round1Near(40.0 * 0.9);
  }

  // ----- The exceptions are real -----

  /** A range market in golden morning. */
  function RangeAt(quality: real, cls: Option<TradeClass>, cycles: nat): ScoreInput {
    ScoreInput(quality, quality < 0.6, Some(OppositeCase(false, 0.0)), Range, None, GoldenMorning, false,
               UnknownPresence, cls, cycles)
  }

  /** A weak trend in golden morning, at full confluence. */
  function WeakUpAt(cls: Option<TradeClass>, cycles: nat): ScoreInput {
    ScoreInput(1.0, false, None, WeakUp, None, GoldenMorning, false, UnknownPresence, cls, cycles)
  }

  lemma RangeScores(cls: Option<TradeClass>, cycles: nat)
    ensures var low, high := RangeAt(0.515, cls, cycles), RangeAt(0.5167, cls, cycles);
            && RawScores(low).band.Reject? && AdjustedScores(low).conviction == 39.9
            && RawScores(high).band.Weak? && AdjustedScores(high).conviction == 40.0
  {
    assert RangeAt(0.515, cls, cycles).Conviction() == 39.9 && RangeAt(0.5167, cls, cycles).Conviction() == 40.002;
    Round1OfGrid(399);
    assert Round1(40.002) == 40.0 by {
      assert (400.02).Floor == 400;
    }
  }

  lemma WeakUpScores(cls: Option<TradeClass>, cycles: nat)
    ensures var x := WeakUpAt(cls, cycles);
            RawScores(x).band.Strong? && AdjustedScores(x).conviction == 76.5
  {
    assert WeakUpAt(cls, cycles).Conviction() == 76.5;
    Round1OfGrid(765);
  }

  lemma RangeClasses(directed: bool, m: nat, n: nat)
    ensures Classified(RangeAt(0.515, None, m), directed)
    ensures Classified(RangeAt(0.5167, Some(Scalp), n), true)
  {
    RangeScores(None, m);
    RangeScores(Some(Scalp), n);
    ClassOfRejectBand(directed, 0.515, Range, GoldenMorning, Reject);
    ClassOfWeakBand(0.5167, Range, GoldenMorning);
    hide RawScores, AssignedClass;
  }

  lemma WeakUpClasses(m: nat, n: nat)
    ensures Classified(WeakUpAt(Some(LiquidityReclaim), m), true)
    ensures Classified(WeakUpAt(None, n), false)
  {
    WeakUpScores(Some(LiquidityReclaim), m);
    WeakUpScores(None, n);
    ClassOfTradableBand(1.0, WeakUp, GoldenMorning, Strong);
    ClassOfRejectBand(false, 1.0, WeakUp, GoldenMorning, Strong);
    hide RawScores, AssignedClass;
  }

  lemma Apart(s: real, t: real, f: real, g: real)
    requires 39.9 <= s && 0.0 <= t - s <= 0.1 && 0.1 <= g <= 1.0 && f >= g + 0.05
    ensures ApplyDecay(s, f) > ApplyDecay(t, g)
  {
    ProductsApart(s, t, f, g);
    Round1Near(s * f);
    Round1Near(t * g);
    hide Round1;
  }

  lemma ProductsApart(s: real, t: real, f: real, g: real)
    requires 39.9 <= s && 0.0 <= t - s <= 0.1 && 0.1 <= g <= 1.0 && f >= g + 0.05
    ensures s * f > t * g + 1.0
  {
    ProductMonotone(s, s, g + 0.05, f);
    ProductMonotone(t - s, 0.1, g, 1.0);
    Spread(s, t - s, g);
  }

  lemma Spread(s: real, d: real, g: real)
    ensures s * (g + 0.05) == s * g + s * 0.05
    ensures (s + d) * g == s * g + d * g
  {
  }

  /** Over all computed classes the order of final convictions is certain for exactly these idle counts. */
  lemma AssignedOrderIff(dx: bool, dy: bool, m: nat, n: nat)
    requires m >= n
    ensures (forall x: ScoreInput, y: ScoreInput :: Comparable(x, dx, m, y, dy, n) ==>
               FinalScores(x).conviction <= FinalScores(y).conviction)
            <==> !(dy && m < 3 * n && m < 9) && !(dx && !dy && m < 2 * n && m < 18)
  {
    if dy && m < 3 * n && m < 9 {
      RangeOvertakes(dx, m, n);
    } else if dx && !dy && m < 2 * n && m < 18 {
      WeakUpOvertakes(m, n);
    } else {
      forall x: ScoreInput, y: ScoreInput | Comparable(x, dx, m, y, dy, n)
        ensures FinalScores(x).conviction <= FinalScores(y).conviction
      {
        ComparableKeepOrder(x, dx, m, y, dy, n);
        hide Comparable;
      }
    }
  }

  lemma ComparableKeepOrder(x: ScoreInput, dx: bool, m: nat, y: ScoreInput, dy: bool, n: nat)
    requires m >= n && Comparable(x, dx, m, y, dy, n)
    requires !(dy && m < 3 * n && m < 9) && !(dx && !dy && m < 2 * n && m < 18)
    ensures FinalScores(x).conviction <= FinalScores(y).conviction
  {
    hide FinalScores, RawScores, Classified, NoBetter;
    ClassByBand(x, dx);
    ClassByBand(y, dy);
    RawBandsInOrder(x, y);
    AssignedOrder(x, dx, y, dy);
  }

  lemma RawBandsInOrder(x: ScoreInput, y: ScoreInput)
    requires NoBetter(x, y)
    ensures BandRank(RawScores(x).band) <= BandRank(RawScores(y).band)
  {
    ConvictionIsMonotone(x, y);
    BandMonotone(x.Conviction(), y.Conviction());
  }

  ghost predicate Comparable(x: ScoreInput, dx: bool, m: nat, y: ScoreInput, dy: bool, n: nat) {
    && NoBetter(x, y) && x.Bounded() && y.Bounded() && !x.coreStale && !y.coreStale
    && Classified(x, dx) && Classified(y, dy) && x.cycles == m && y.cycles == n
  }

  lemma RangeOvertakes(dx: bool, m: nat, n: nat)
    requires n <= m < 3 * n && m < 9
    ensures var x, y := RangeAt(0.515, None, m), RangeAt(0.5167, Some(Scalp), n);
            Comparable(x, dx, m, y, true, n) && FinalScores(x).conviction > FinalScores(y).conviction
  {
    hide AdjustedScores, RawScores, Classified, ApplyDecay;
    RangeClasses(dx, m, n);
    RangeScores(None, m);
    RangeScores(Some(Scalp), n);
    var f, g := DecayFactor(None, m), DecayFactor(Some(Scalp), n);
    assert f >= g + 0.05 && 0.1 <= g <= 1.0;
    hide DecayFactor;
    Apart(39.9, 40.0, f, g);
  }

  lemma WeakUpOvertakes(m: nat, n: nat)
    requires n <= m < 2 * n && m < 18
    ensures var x, y := WeakUpAt(Some(LiquidityReclaim), m), WeakUpAt(None, n);
            Comparable(x, true, m, y, false, n) && FinalScores(x).conviction > FinalScores(y).conviction
  {
    hide AdjustedScores, RawScores, Classified, ApplyDecay;
    WeakUpClasses(m, n);
    WeakUpScores(Some(LiquidityReclaim), m);
    WeakUpScores(None, n);
    var f, g := DecayFactor(Some(LiquidityReclaim), m), DecayFactor(None, n);
    assert f >= g + 0.05 && 0.1 <= g <= 1.0;
    hide DecayFactor;
    Apart(76.5, 76.5, f, g);
  }
}
