/** Which class a trade idea gets (trade_idea_generator.py, trade_class_engine.py), and what that leaves tradable. */
module TradeClasses {
  import opened SharedTypes
  import opened Numerics
  import opened SessionPolicy
  import opened Conviction
  import opened RegimeDetection

  // ----- The suggestion of the idea -----

  /** The session decides first; only golden morning leaves the choice to the regime. */
  function SuggestClass(quality: real, regime: Regime, phase: SessionPhase): Option<TradeClass> {
    match phase
    case Opening => Some(LiquidityReclaim)
    case Lunch => Some(Reversal)
    case Closing => Some(Scalp)
    case GoldenMorning =>
      if Trending(regime) then Some(if quality < 0.4 then Scalp else Continuation)
      else if WeaklyTrending(regime) then Some(LiquidityReclaim)
      else if regime.Range? then Some(if quality < 0.4 then Scalp else OptionsPressure)
      else if regime.Chop? then Some(Scalp)
      else None
  }

  // ----- The class engine -----

  /** One row of a suitability table; the order of the rows breaks ties. */
  datatype Fit = Fit(cls: TradeClass, fit: real)

  const TREND_FITS := [
    Fit(Continuation, 1.0), Fit(Scalp, 0.7), Fit(LiquidityReclaim, 0.6),
    Fit(OptionsPressure, 0.4), Fit(Reversal, 0.1)]
  const WEAK_FITS := [
    Fit(LiquidityReclaim, 0.9), Fit(OptionsPressure, 0.7), Fit(Scalp, 0.6),
    Fit(Continuation, 0.4), Fit(Reversal, 0.3)]
  const RANGE_FITS := [
    Fit(OptionsPressure, 1.0), Fit(Scalp, 0.7), Fit(LiquidityReclaim, 0.5),
    Fit(Reversal, 0.4), Fit(Continuation, 0.1)]
  const CHOP_FITS := [
    Fit(Scalp, 0.9), Fit(OptionsPressure, 0.4), Fit(LiquidityReclaim, 0.3),
    Fit(Reversal, 0.2), Fit(Continuation, 0.0)]
  const UNCLEAR_FITS := [
    Fit(Scalp, 0.5), Fit(OptionsPressure, 0.3), Fit(LiquidityReclaim, 0.2),
    Fit(Reversal, 0.1), Fit(Continuation, 0.0)]

  /** A regime outside the tables has no row at all. */
  function FitsOf(regime: Regime): seq<Fit> {
    if Trending(regime) then TREND_FITS
    else if WeaklyTrending(regime) then WEAK_FITS
    else if regime.Range? then RANGE_FITS
    else if regime.Chop? then CHOP_FITS
    else if regime.Unclear? then UNCLEAR_FITS
    else []
  }

  function SessionFit(phase: SessionPhase): real {
    match phase
    case GoldenMorning => 1.0
    case Opening => 0.8
    case Lunch => 0.6
    case Closing => 0.4
  }

  function FitModifier(phase: SessionPhase, quality: real): real {
    SessionFit(phase) * quality
  }

  function MinimumBand(cls: TradeClass): ConvictionBand {
    match cls
    case Scalp => Weak
    case Continuation => Tradable
    case Reversal => Strong
    case LiquidityReclaim => Tradable
    case OptionsPressure => Strong
  }

  predicate Eligible(cls: TradeClass, band: ConvictionBand) {
    BandRank(band) >= BandRank(MinimumBand(cls))
  }

  /** `modifier` is session fit times confluence quality. */
  function Weighted(f: Fit, modifier: real): Fit {
    Fit(f.cls, f.fit * modifier)
  }

  function Scored(fits: seq<Fit>, modifier: real, band: ConvictionBand): seq<Fit> {
    if fits == [] then []
    else
      var last := fits[|fits| - 1];
      Scored(fits[..|fits| - 1], modifier, band)
      + (if Eligible(last.cls, band) then [Weighted(last, modifier)] else [])
  }

  /** The first of the best rows, as the stable descending sort puts it in front. */
  function Best(scored: seq<Fit>): (r: Fit)
    requires scored != []
    ensures r in scored
    ensures forall f :: f in scored ==> f.fit <= r.fit
    ensures exists i :: 0 <= i < |scored| && scored[i] == r && forall j :: 0 <= j < i ==> scored[j].fit < r.fit
  {
    var last := scored[|scored| - 1];
    if |scored| == 1 then last
    else
      assert scored == scored[..|scored| - 1] + [last];
      var b := Best(scored[..|scored| - 1]);
      if last.fit > b.fit then last else b
  }

  /** 0 for a class that was not scored. */
  function ScoreOf(scored: seq<Fit>, cls: TradeClass): real {
    if scored == [] then 0.0
    else if scored[0].cls == cls then scored[0].fit
    else ScoreOf(scored[1..], cls)
  }

  /** A suggestion survives unless some class is better by more than a fifth. */
  function Chosen(suggested: Option<TradeClass>, scored: seq<Fit>): Option<TradeClass> {
    if scored == [] then None
    else
      var best := Best(scored);
      if suggested.Some? && best.fit <= ScoreOf(scored, suggested.value) * 1.2 then suggested else Some(best.cls)
  }

  function AssignedClass(idea: bool, quality: real, regime: Regime, phase: SessionPhase, band: ConvictionBand)
    : Option<TradeClass>
  {
    var scored := Scored(FitsOf(regime), FitModifier(phase, quality), if idea then band else Reject);
    Chosen(if idea then SuggestClass(quality, regime, phase) else None, scored)
  }

  method ScoreClasses(fits: seq<Fit>, modifier: real, band: ConvictionBand) returns (scored: seq<Fit>)
    ensures scored == Scored(fits, modifier, band)
  {
    hide Eligible, Weighted;
    scored := [];
    for i := 0 to |fits|
      invariant scored == Scored(fits[..i], modifier, band)
    {
      assert fits[..i + 1][..i] == fits[..i];
      if Eligible(fits[i].cls, band) {
        scored := scored + [Weighted(fits[i], modifier)];
      }
    }
    assert fits[..|fits|] == fits;
  }

  method AssignTradeClass(idea: bool, quality: real, regime: Regime, phase: SessionPhase, band: ConvictionBand)
    returns (cls: Option<TradeClass>)
    ensures cls == AssignedClass(idea, quality, regime, phase, band)
  {
    hide Scored, FitsOf, FitModifier, SuggestClass;
    var suggested := if idea then SuggestClass(quality, regime, phase) else None;
    var scored := ScoreClasses(FitsOf(regime), FitModifier(phase, quality), if idea then band else Reject);
    if scored == [] {
      return None;
    }
    var best := Best(scored);
    cls := Some(best.cls);
    if suggested.Some? && suggested.value != best.cls {
      var suggestedScore := ScoreOf(scored, suggested.value);
      if best.fit > suggestedScore * 1.2 {
        cls := Some(best.cls);
      } else {
        cls := suggested;
      }
    }
  }

  // ----- Which class wins -----

  lemma {:induction false} ScoredAre(fits: seq<Fit>, modifier: real, band: ConvictionBand)
    ensures forall f :: f in Scored(fits, modifier, band) <==>
              exists i :: 0 <= i < |fits| && Eligible(fits[i].cls, band) && f == Weighted(fits[i], modifier)
  {
    hide Eligible, Weighted;
    if fits != [] {
      var n := |fits| - 1;
      ScoredAre(fits[..n], modifier, band);
      forall f ensures f in Scored(fits, modifier, band) <==>
                exists i :: 0 <= i < |fits| && Eligible(fits[i].cls, band) && f == Weighted(fits[i], modifier)
      {
        if i :| 0 <= i < n && Eligible(fits[..n][i].cls, band) && f == Weighted(fits[..n][i], modifier) {
          assert fits[i] == fits[..n][i];
        }
        if i :| 0 <= i < |fits| && Eligible(fits[i].cls, band) && f == Weighted(fits[i], modifier) {
          assert i == n || fits[i] == fits[..n][i];
        }
      }
    }
  }

  lemma {:induction false} ScoreIsARow(scored: seq<Fit>, cls: TradeClass)
    ensures ScoreOf(scored, cls) == 0.0 || exists f :: f in scored && f.cls == cls && f.fit == ScoreOf(scored, cls)
  {
    if scored != [] && scored[0].cls != cls {
      ScoreIsARow(scored[1..], cls);
      assert forall f :: f in scored[1..] ==> f in scored;
    }
  }

  /** No other eligible row comes within a fifth of row `i`. */
  ghost predicate ClearWinner(fits: seq<Fit>, i: nat, band: ConvictionBand) {
    && i < |fits|
    && fits[i].fit > 0.0
    && Eligible(fits[i].cls, band)
    && forall j :: 0 <= j < |fits| && j != i && Eligible(fits[j].cls, band) ==>
         fits[j].cls != fits[i].cls && 0.0 <= 1.2 * fits[j].fit < fits[i].fit
  }

  lemma WinnerBeats(w: Fit, f: Fit, modifier: real)
    requires modifier > 0.0 && 0.0 <= 1.2 * f.fit < w.fit
    ensures Weighted(f, modifier).fit * 1.2 < Weighted(w, modifier).fit
    ensures 0.0 <= Weighted(f, modifier).fit < Weighted(w, modifier).fit
  {
    assert 1.2 * f.fit * modifier < w.fit * modifier;
    assert 0.0 <= f.fit * modifier;
  }

  /** A clear winner is assigned whatever the idea suggested. */
  lemma ClearWinnerIsChosen(fits: seq<Fit>, i: nat, modifier: real, band: ConvictionBand, suggested: Option<TradeClass>)
    requires modifier > 0.0 && ClearWinner(fits, i, band)
    ensures Chosen(suggested, Scored(fits, modifier, band)) == Some(fits[i].cls)
  {
    var scored, w := Scored(fits, modifier, band), Weighted(fits[i], modifier);
    ScoredAre(fits, modifier, band);
    assert w in scored;
    assert w.fit > 0.0;
    forall f | f in scored ensures f == w || (f.cls != w.cls && f.fit * 1.2 < w.fit && 0.0 <= f.fit < w.fit) {
      var j :| 0 <= j < |fits| && Eligible(fits[j].cls, band) && f == Weighted(fits[j], modifier);
      if j != i {
        WinnerBeats(fits[i], fits[j], modifier);
      }
    }
    hide Scored, Eligible, Weighted;
    assert Best(scored) == w;
    if suggested.Some? {
      ScoreIsARow(scored, suggested.value);
    }
  }

  /** A rejected band has no class at all, and neither has a cycle without a direction. */
  lemma ClassOfRejectBand(directed: bool, quality: real, regime: Regime, phase: SessionPhase, band: ConvictionBand)
    requires !directed || band.Reject?
    ensures AssignedClass(directed, quality, regime, phase, band) == None
  {
    var scored := Scored(FitsOf(regime), FitModifier(phase, quality), Reject);
    assert scored == [] || scored[0] in scored;
    ScoredAre(FitsOf(regime), FitModifier(phase, quality), Reject);
  }

  /** The class that a tradable band leads to. */
  function RegimeClass(regime: Regime): TradeClass {
    if Trending(regime) then Continuation else if WeaklyTrending(regime) then LiquidityReclaim else Scalp
  }

  /**
   From a tradable band on, the assigned class depends on the regime alone: neither the session nor the suggestion of
   the idea changes it. (Sideways markets never reach STRONG, see `SidewaysIsNeverStrong`.)
  */
  lemma ClassOfTradableBand(quality: real, regime: Regime, phase: SessionPhase, band: ConvictionBand)
    requires quality > 0.0 && TradableBand(band)
    requires Trending(regime) || WeaklyTrending(regime) || (Sideways(regime) && band.Tradable?)
    ensures AssignedClass(true, quality, regime, phase, band) == Some(RegimeClass(regime))
  {
    var fits := FitsOf(regime);
    var i := if regime.Range? then 1 else 0;
    assert ClearWinner(fits, i, band);
    assert FitModifier(phase, quality) > 0.0;
    ClearWinnerIsChosen(fits, i, FitModifier(phase, quality), band, SuggestClass(quality, regime, phase));
  }

  // ----- What is left tradable -----

  /** The number of idle cycles from which a regime cannot trade any more. */
  function IdleLimit(regime: Regime): nat {
    if Trending(regime) then 4 else if WeaklyTrending(regime) then 5 else 1
  }

  /** The best raw conviction of a regime, at full confluence in golden morning. */
  function RegimeCeiling(regime: Regime): real {
    61.5 + RegimePoints(regime)
  }

  function CeilingTenths(regime: Regime): int {
    if Trending(regime) then 865 else if WeaklyTrending(regime) then 765 else if regime.Range? then 690 else 615
  }

  lemma ConvictionBelowCeiling(x: ScoreInput)
    requires x.Bounded()
    ensures 0.0 <= x.Conviction() <= RegimeCeiling(x.regime)
  {
    assert AggressionModifier(x.phase) <= 0.1;
    assert OppositePenalty(x.opposite) >= 0.0 && PsychologyPenalty(x.psychology) >= 0.0;
  }

  lemma SidewaysIsNeverStrong(x: ScoreInput)
    requires x.Bounded() && Sideways(x.regime)
    ensures RawScores(x).band.Tradable? || !TradableBand(RawScores(x).band)
  {
    ConvictionBelowCeiling(x);
  }

  /** The idle cycles from which no trade carries the class; REVERSAL and OPTIONS_PRESSURE never do. */
  function ClassLimit(cls: Option<TradeClass>): nat {
    match cls
    case Some(Continuation) => 4
    case Some(LiquidityReclaim) => 5
    case Some(Scalp) => 1
    case _ => 0
  }

  /** The class is the one that the cycle computes; without a direction there is no idea to classify. */
  ghost predicate Classified(x: ScoreInput, directed: bool) {
    && (Trending(x.regime) || WeaklyTrending(x.regime) || Sideways(x.regime))
    && x.cls == AssignedClass(directed, x.quality, x.regime, x.phase, RawScores(x).band)
  }

  lemma TradableNeedsQuality(x: ScoreInput)
    requires x.Bounded() && RawScores(x).conviction >= 60.0
    ensures x.quality > 0.0 && x.Conviction() >= 59.95
  {
    Round1Near(x.Conviction());
    assert OppositePenalty(x.opposite) >= 0.0 && PsychologyPenalty(x.psychology) >= 0.0;
  }

  /** Only a scalp is within reach of a WEAK band. */
  lemma ClassOfWeakBand(quality: real, regime: Regime, phase: SessionPhase)
    requires quality > 0.0 && (Trending(regime) || WeaklyTrending(regime) || Sideways(regime))
    ensures AssignedClass(true, quality, regime, phase, Weak) == Some(Scalp)
  {
    var fits := FitsOf(regime);
    var i := if WeaklyTrending(regime) then 2 else if Trending(regime) || regime.Range? then 1 else 0;
    assert ClearWinner(fits, i, Weak);
    assert FitModifier(phase, quality) > 0.0;
    ClearWinnerIsChosen(fits, i, FitModifier(phase, quality), Weak, SuggestClass(quality, regime, phase));
  }

  /** A rounded 60.0 that was WEAK before rounding is worth a trade at once or not at all. */
  lemma WeakBandDecays(x: ScoreInput)
    requires x.Bounded() && !TradableBand(RawScores(x).band) && x.cycles >= 1
    ensures !ShouldTrade(FinalScores(x))
  {
    RawConvictionCeiling(x);
    Round1Monotone(x.Conviction(), 60.0);
    Round1OfGrid(600);
    AdjustOnlyLowers(RawScores(x), x.coreStale, x.presence);
    assert 0.0 <= DecayFactor(x.cls, x.cycles) <= 0.95;
    ScaledBelowSixty(AdjustedScores(x).conviction, DecayFactor(x.cls, x.cycles), 60.0, 0.95);
  }

  lemma TradableBandDecays(x: ScoreInput)
    requires x.Bounded() && TradableBand(RawScores(x).band)
    requires x.cls == Some(RegimeClass(x.regime)) && x.cycles >= IdleLimit(x.regime)
    requires Trending(x.regime) || WeaklyTrending(x.regime) || Sideways(x.regime)
    ensures !ShouldTrade(FinalScores(x))
  {
    var most := RegimeCeiling(x.regime);
    ConvictionBelowCeiling(x);
    RawConvictionCeiling(x);
    Round1Monotone(x.Conviction(), most);
    Round1OfGrid(CeilingTenths(x.regime));
    AdjustOnlyLowers(RawScores(x), x.coreStale, x.presence);
    var bound := if Trending(x.regime) then 0.6 else if WeaklyTrending(x.regime) then 0.75 else 0.7;
    assert 0.0 <= DecayFactor(x.cls, x.cycles) <= bound;
    ScaledBelowSixty(AdjustedScores(x).conviction, DecayFactor(x.cls, x.cycles), most, bound);
  }

  /**
   With the class that the engine assigns, a cycle can pass the trade test only below the limit of its regime and
   below the limit of its class.
  */
  lemma RegimeLocksOut(x: ScoreInput)
    requires x.Bounded() && Classified(x, true) && ShouldTrade(FinalScores(x))
    ensures x.cycles < IdleLimit(x.regime) && x.cycles < ClassLimit(x.cls)
  {
    hide FinalScores, RawScores, AssignedClass;
    TradedIsWorthSixty(x);
    TradableNeedsQuality(x);
    if TradableBand(RawScores(x).band) {
      if Sideways(x.regime) {
        SidewaysIsNeverStrong(x);
      }
      ClassOfTradableBand(x.quality, x.regime, x.phase, RawScores(x).band);
      if x.cycles >= IdleLimit(x.regime) {
        TradableBandDecays(x);
      }
    } else {
      if x.cycles >= 1 {
        WeakBandDecays(x);
      }
      WeakBand(x);
      ClassOfWeakBand(x.quality, x.regime, x.phase);
    }
  }

  lemma WeakBand(x: ScoreInput)
    requires x.Conviction() >= 59.95 && !TradableBand(RawScores(x).band)
    ensures RawScores(x).band == Weak
  {
  }

  lemma TradedIsWorthSixty(x: ScoreInput)
    requires x.Bounded() && ShouldTrade(FinalScores(x))
    ensures RawScores(x).conviction >= 60.0
  {
    RawConvictionCeiling(x);
    AdjustOnlyLowers(RawScores(x), x.coreStale, x.presence);
    FactorUnit(x.cls, x.cycles);
    var c := AdjustedScores(x).conviction;
    if c < 60.0 {
      OnTenthGrid(x);
      DecayKeepsBelow(AdjustedScores(x), DecayFactor(x.cls, x.cycles), x.cycles);
    }
  }

  /** The adjusted conviction is on the 0.1 grid, so below 60 means at most 59.9. */
  lemma OnTenthGrid(x: ScoreInput)
    requires AdjustedScores(x).conviction < 60.0
    ensures AdjustedScores(x).conviction <= 59.9
  {
    var raw := RawScores(x).conviction;
    var k := NearestEven(x.Conviction() * 10.0);
    assert raw == k as real / 10.0;
  }

  /** Full confluence of a regime in golden morning, with nothing against it. */
  function IdealInput(regime: Regime, presence: SetupPresence, cycles: nat): ScoreInput {
    ScoreInput(1.0, false, Some(OppositeCase(false, 0.0)), regime, None, GoldenMorning, false, presence,
               Some(RegimeClass(regime)), cycles)
  }

  lemma IdealScores(regime: Regime, presence: SetupPresence, cycles: nat)
    requires !presence.StaleNoSetup? && !presence.UncertainNoSetup?
    requires Trending(regime) || WeaklyTrending(regime) || Sideways(regime)
    ensures var x := IdealInput(regime, presence, cycles);
            && RawScores(x).band == BandOf(RegimeCeiling(regime))
            && AdjustedScores(x) == Scores(RegimeCeiling(regime), RegimeDoubt(regime), BandOf(RegimeCeiling(regime)))
  {
    var x := IdealInput(regime, presence, cycles);
    assert x.Conviction() == RegimeCeiling(regime);
    Round1OfGrid(CeilingTenths(regime));
    Round1OfGrid(if regime.Range? then 75 else if Sideways(regime) then 150 else 0);
  }

  lemma IdealDecay(regime: Regime, cycles: nat)
    requires Trending(regime) || WeaklyTrending(regime) || Sideways(regime)
    requires cycles < IdleLimit(regime)
    ensures ApplyDecay(RegimeCeiling(regime), DecayFactor(Some(RegimeClass(regime)), cycles)) >= 60.0
  {
    var most := RegimeCeiling(regime);
    var least := if Trending(regime) then 0.7 else if WeaklyTrending(regime) then 0.8 else 1.0;
    var factor := DecayFactor(Some(RegimeClass(regime)), cycles);
    assert least <= factor;
    ScaledRound(most, most, least, factor);
    Round1Near(most * least);
  }

  lemma StillTrades(s: Scores, factor: real, cycles: nat)
    requires s.conviction >= 60.0 && s.band == BandOf(s.conviction) && s.noTrade < 60.0
    requires ApplyDecay(s.conviction, factor) >= 60.0
    ensures ShouldTrade(DecayScores(s, factor, cycles))
  {
  }

  lemma IdealClassIsAssigned(regime: Regime, presence: SetupPresence, cycles: nat)
    requires !presence.StaleNoSetup? && !presence.UncertainNoSetup?
    requires Trending(regime) || WeaklyTrending(regime) || Sideways(regime)
    requires cycles < IdleLimit(regime)
    ensures var x := IdealInput(regime, presence, cycles);
            Classified(x, true) && cycles < ClassLimit(x.cls)
  {
    var x := IdealInput(regime, presence, cycles);
    assert x.quality == 1.0 && x.regime == regime && x.cls == Some(RegimeClass(regime));
    hide RawScores, AdjustedScores, Classified, IdealInput, RegimeCeiling, BandOf;
    assert RawScores(x).band == BandOf(RegimeCeiling(regime)) by {
      IdealScores(regime, presence, cycles);
    }
    CeilingIsTradable(regime);
    TradableIsAssigned(x);
  }

  lemma TradableIsAssigned(x: ScoreInput)
    requires x.quality > 0.0 && x.cls == Some(RegimeClass(x.regime)) && TradableBand(RawScores(x).band)
    requires Trending(x.regime) || WeaklyTrending(x.regime) || (Sideways(x.regime) && RawScores(x).band.Tradable?)
    ensures Classified(x, true)
  {
    hide RawScores, AssignedClass, RegimeClass;
    ClassOfTradableBand(x.quality, x.regime, x.phase, RawScores(x).band);
  }

  lemma CeilingIsTradable(regime: Regime)
    requires Trending(regime) || WeaklyTrending(regime) || Sideways(regime)
    ensures TradableBand(BandOf(RegimeCeiling(regime)))
    ensures Sideways(regime) ==> BandOf(RegimeCeiling(regime)).Tradable?
  {
  }

  /** Below its limit each regime does trade, with the class it is assigned: the limits are exact. */
  lemma BelowLimitTrades(regime: Regime, presence: SetupPresence, cycles: nat)
    requires !presence.StaleNoSetup? && !presence.UncertainNoSetup?
    requires Trending(regime) || WeaklyTrending(regime) || Sideways(regime)
    requires cycles < IdleLimit(regime)
    ensures var x := IdealInput(regime, presence, cycles);
            Classified(x, true) && ShouldTrade(FinalScores(x)) && cycles < ClassLimit(x.cls)
  {
    IdealScores(regime, presence, cycles);
    IdealDecay(regime, cycles);
    IdealClassIsAssigned(regime, presence, cycles);
    var x := IdealInput(regime, presence, cycles);
    assert x.cls == Some(RegimeClass(regime)) && x.cycles == cycles;
    assert RegimeCeiling(regime) >= 60.0 && RegimeDoubt(regime) < 60.0;
    hide RawScores, AdjustedScores, DecayFactor, ApplyDecay, AssignedClass, DecayScores, ShouldTrade, Classified,
      IdealInput, RegimeCeiling, RegimeDoubt, ClassLimit, IdleLimit, RegimeClass, BandOf;
    StillTrades(AdjustedScores(x), DecayFactor(x.cls, cycles), cycles);
  }

  // ----- The suggestion and the choice, case by case -----

  /** What the idea suggests: the session decides, and in golden morning the regime and an agreement of 0.4. */
  lemma SuggestionCases(quality: real, regime: Regime)
    ensures SuggestClass(quality, regime, Opening) == Some(LiquidityReclaim)
    ensures SuggestClass(quality, regime, Lunch) == Some(Reversal)
    ensures SuggestClass(quality, regime, Closing) == Some(Scalp)
    ensures var morning := SuggestClass(quality, regime, GoldenMorning);
            && (morning == Some(Continuation) <==> Trending(regime) && quality >= 0.4)
            && (morning == Some(OptionsPressure) <==> regime == Range && quality >= 0.4)
            && (morning == Some(LiquidityReclaim) <==> WeaklyTrending(regime))
            && (morning == Some(Scalp) <==> regime == Chop || (quality < 0.4 && (Trending(regime) || regime == Range)))
  {
  }

  /** A suggestion stands as long as six fifths of its score reach the best one. */
  lemma ChosenCases(suggested: Option<TradeClass>, scored: seq<Fit>)
    requires scored != []
    ensures suggested == None ==> Chosen(suggested, scored) == Some(Best(scored).cls)
    ensures forall c :: suggested == Some(c) ==>
              Chosen(suggested, scored)
              == if 5.0 * Best(scored).fit <= 6.0 * ScoreOf(scored, c) then Some(c) else Some(Best(scored).cls)
  {
    hide Best, ScoreOf;
  }

  /** The weight of the session in tenths. */
  lemma SessionWeights(phase: SessionPhase, quality: real)
    ensures 10.0 * FitModifier(phase, quality)
            == (if phase == GoldenMorning then 10.0 else if phase == Opening then 8.0
                else if phase == Lunch then 6.0 else 4.0) * quality
  {
  }
}
