/** The ICT Head (ict_head.py): premium and discount, displacement, market structure shifts and liquidity. */
module IctInterpretation {
  import opened SharedTypes
  import opened Numerics
  import opened HeadTypes

  datatype PriceArea = Discount | Premium | OtherArea

  datatype LiquidityType = BuySide | SellSide | OtherLiquidity

  /** An ICT signal with its defaults filled in. */
  datatype IctSignal =
    | PremiumDiscount(area: PriceArea, equilibrium: real)
    | Displacement(side: Side, strength: real)
    | StructureShift(shiftSide: Side, confirmed: bool)
    | Liquidity(kind: LiquidityType, swept: bool)
    | DeliveryContext(score: real)
    | OtherIctSignal

  const PREMIUM_DISCOUNT_REACTION := "Premium/Discount Reaction"
  const DISPLACEMENT_RECLAIM := "Displacement Reclaim"
  const MSS_CONTINUATION := "MSS Continuation"
  const DELIVERY_REVERSAL := "Delivery-Aligned Reversal"

  /** The evidence of one refresh: the latest signal of each kind, and whether any liquidity is left unswept. */
  datatype IctEvidence = IctEvidence(
    area: Option<IctSignal>,
    displacement: Option<IctSignal>,
    shift: Option<IctSignal>,
    delivery: Option<IctSignal>,
    unsweptBuy: bool,
    unsweptSell: bool,
    total: nat)
  {
    predicate InDiscount() { area.Some? && area.value.PremiumDiscount? && area.value.area == Discount }
    predicate InPremium() { area.Some? && area.value.PremiumDiscount? && area.value.area == Premium }
    function Equilibrium(): real { if area.Some? && area.value.PremiumDiscount? then area.value.equilibrium else 0.0 }

    predicate Displaced(side: Side) {
      displacement.Some? && displacement.value.Displacement? && displacement.value.side == side
    }

    predicate StrongDisplacement() {
      displacement.Some? && displacement.value.Displacement? && displacement.value.strength > 0.5
    }

    predicate ShiftConfirmed() { shift.Some? && shift.value.StructureShift? && shift.value.confirmed }
    predicate Shifted(side: Side) { ShiftConfirmed() && shift.value.shiftSide == side }

    function DeliveryScore(): real {
      if delivery.Some? && delivery.value.DeliveryContext? then delivery.value.score else 0.5
    }

    function DisplacementVotes(side: Side): nat {
      if !Displaced(side) then 0 else if StrongDisplacement() then 2 else 1
    }

    /** Unswept liquidity votes for the side price would travel to. */
    function Bulls(): nat {
      (if InDiscount() then 2 else 0) + DisplacementVotes(BullSide) + (if Shifted(BullSide) then 2 else 0)
      + (if unsweptSell then 1 else 0)
    }

    function Bears(): nat {
      (if InPremium() then 2 else 0) + DisplacementVotes(BearSide) + (if Shifted(BearSide) then 2 else 0)
      + (if unsweptBuy then 1 else 0)
    }

    function IctBias(): Bias {
      BiasFromSignals(Bulls(), Bears())
    }
  }

  function LastOf(signals: seq<IctSignal>, want: IctSignal -> bool): Option<IctSignal> {
    if signals == [] then None
    else
      var last := signals[|signals| - 1];
      if want(last) then Some(last) else LastOf(signals[..|signals| - 1], want)
  }

  function EvidenceOf(signals: seq<IctSignal>): IctEvidence {
    IctEvidence(
      LastOf(signals, (s: IctSignal) => s.PremiumDiscount?),
      LastOf(signals, (s: IctSignal) => s.Displacement?),
      LastOf(signals, (s: IctSignal) => s.StructureShift?),
      LastOf(signals, (s: IctSignal) => s.DeliveryContext?),
      LastOf(signals, (s: IctSignal) => s.Liquidity? && s.kind == BuySide && !s.swept).Some?,
      LastOf(signals, (s: IctSignal) => s.Liquidity? && s.kind == SellSide && !s.swept).Some?,
      |signals|)
  }

  function PrimarySetup(e: IctEvidence): Option<string> {
    var bias := e.IctBias();
    if bias == Neutral then (if e.unsweptBuy || e.unsweptSell then Some(DELIVERY_REVERSAL) else None)
    else if (if bias == Bullish then e.InDiscount() else e.InPremium()) then Some(PREMIUM_DISCOUNT_REACTION)
    else if e.Displaced(if bias == Bullish then BullSide else BearSide) then Some(DISPLACEMENT_RECLAIM)
    else if e.ShiftConfirmed() then Some(MSS_CONTINUATION)
    else None
  }

  function BackupSetup(e: IctEvidence): Option<string> {
    var displaced := e.Displaced(if e.IctBias() == Bullish then BullSide else BearSide);
    if PrimarySetup(e) == Some(PREMIUM_DISCOUNT_REACTION) && displaced then Some(DISPLACEMENT_RECLAIM)
    else if PrimarySetup(e) == Some(DISPLACEMENT_RECLAIM) && e.ShiftConfirmed() then Some(MSS_CONTINUATION)
    else None
  }

  const DELIVERY_RULE := InvalidationRule("ICT delivery context deteriorates — no clear institutional logic", 0.0,
                                          "ICT invalidation — delivery context lost")

  function AreaRules(e: IctEvidence): seq<InvalidationRule> {
    (if e.InDiscount() then
       [InvalidationRule("Discount zone lost — price re-enters premium", e.Equilibrium(),
                         "ICT invalidation — discount no longer holds")] else [])
    + (if e.InPremium() then
         [InvalidationRule("Premium zone reclaimed — price re-enters discount", e.Equilibrium(),
                           "ICT invalidation — premium no longer holds")] else [])
  }

  function ShiftRules(e: IctEvidence): seq<InvalidationRule> {
    if e.ShiftConfirmed() then
      [InvalidationRule("MSS fails to hold — structure unchanged", 0.0, "ICT invalidation — MSS failed to confirm")]
    else []
  }

  function IctRules(e: IctEvidence): (r: seq<InvalidationRule>)
    ensures r != []
  {
    if AreaRules(e) + ShiftRules(e) == [] then [DELIVERY_RULE] else AreaRules(e) + ShiftRules(e)
  }

  /** The part of the context quality before it is capped; only a negative delivery score can push it below zero. */
  function RawQuality(e: IctEvidence): real {
    (if e.area.Some? then 0.3 else 0.0)
    + (if e.displacement.Some? then 0.2 else 0.0)
    + (if e.ShiftConfirmed() then 0.3 else 0.0)
    + e.DeliveryScore() * 0.1
    + MinR(0.1, e.total as real * 0.01)
  }

  /** The lowest delivery score that the rest of the evidence can make up for: ten points for each point of quality. */
  function DeliveryFloor(e: IctEvidence): real {
    -((if e.area.Some? then 3.0 else 0.0)
      + (if e.displacement.Some? then 2.0 else 0.0)
      + (if e.ShiftConfirmed() then 3.0 else 0.0)
      + (if e.total < 10 then e.total as real * 0.1 else 1.0))
  }

  function ContextQuality(e: IctEvidence): real {
    MinR(1.0, RawQuality(e))
  }

  function BaseConfidence(e: IctEvidence): real {
    MinR(1.0,
      (if e.area.Some? then 0.2 else 0.0)
      + (if PrimarySetup(e).Some? then 0.3 else 0.0)
      + (if e.ShiftConfirmed() then 0.2 else 0.0)
      + e.DeliveryScore() * 0.2)
  }

  function NoIctData(): Interpretation {
    Interpretation(Neutral, 0.0, None, None,
                   [InvalidationRule("No ICT data — cannot assess institutional context", 0.0,
                                     "No Floor 3 ICT signals received")],
                   Some(0.0), false, 0.0, true, false, false, false)
  }

  function Reading(signals: seq<IctSignal>, freshness: real): Interpretation {
    if signals == [] then NoIctData()
    else
      var e := EvidenceOf(signals);
      Interpretation(
        e.IctBias(),
        ComputeConfidence(BaseConfidence(e), freshness, ContextQuality(e), MinR(1.0, e.total as real / 15.0)),
        PrimarySetup(e), BackupSetup(e), IctRules(e), Some(ContextQuality(e)),
        false, 0.0, true, false, false, false)
  }

  // ----- The imperative form -----

  method CountVotes(e: IctEvidence) returns (bullish: nat, bearish: nat)
    ensures bullish == e.Bulls() && bearish == e.Bears()
  {
    bullish, bearish := 0, 0;
    if e.InDiscount() {
      bullish := bullish + 2;
    }
    if e.InPremium() {
      bearish := bearish + 2;
    }
    if e.Displaced(BullSide) && e.StrongDisplacement() {
      bullish := bullish + 2;
    } else if e.Displaced(BullSide) {
      bullish := bullish + 1;
    }
    if e.Displaced(BearSide) && e.StrongDisplacement() {
      bearish := bearish + 2;
    } else if e.Displaced(BearSide) {
      bearish := bearish + 1;
    }
    if e.Shifted(BullSide) {
      bullish := bullish + 2;
    } else if e.Shifted(BearSide) {
      bearish := bearish + 2;
    }
    if e.unsweptBuy {
      bearish := bearish + 1;
    }
    if e.unsweptSell {
      bullish := bullish + 1;
    }
  }

  method SetupsOf(e: IctEvidence, bias: Bias) returns (primary: Option<string>, backup: Option<string>)
    requires bias == e.IctBias()
    ensures primary == PrimarySetup(e) && backup == BackupSetup(e)
  {
    primary, backup := None, None;
    hide BiasFromSignals;
    match bias {
      case Bullish =>
        if e.InDiscount() {
          primary := Some(PREMIUM_DISCOUNT_REACTION);
          backup := if e.Displaced(BullSide) then Some(DISPLACEMENT_RECLAIM) else None;
        } else if e.Displaced(BullSide) {
          primary := Some(DISPLACEMENT_RECLAIM);
          backup := if e.ShiftConfirmed() then Some(MSS_CONTINUATION) else None;
        } else if e.ShiftConfirmed() {
          primary := Some(MSS_CONTINUATION);
        }
      case Bearish =>
        if e.InPremium() {
          primary := Some(PREMIUM_DISCOUNT_REACTION);
          backup := if e.Displaced(BearSide) then Some(DISPLACEMENT_RECLAIM) else None;
        } else if e.Displaced(BearSide) {
          primary := Some(DISPLACEMENT_RECLAIM);
          backup := if e.ShiftConfirmed() then Some(MSS_CONTINUATION) else None;
        } else if e.ShiftConfirmed() {
          primary := Some(MSS_CONTINUATION);
        }
      case Neutral =>
        if e.unsweptBuy || e.unsweptSell {
          primary := Some(DELIVERY_REVERSAL);
        }
    }
    assert |PREMIUM_DISCOUNT_REACTION| == |DELIVERY_REVERSAL| == 25;
    assert |DISPLACEMENT_RECLAIM| == 20 && |MSS_CONTINUATION| == 16;
    assert PREMIUM_DISCOUNT_REACTION[0] != DELIVERY_REVERSAL[0];
  }

  method RulesOf(e: IctEvidence) returns (rules: seq<InvalidationRule>)
    ensures rules == IctRules(e)
  {
    rules := [];
    if e.InDiscount() {
      rules := rules + [InvalidationRule("Discount zone lost — price re-enters premium", e.Equilibrium(),
                                         "ICT invalidation — discount no longer holds")];
    }
    if e.InPremium() {
      rules := rules + [InvalidationRule("Premium zone reclaimed — price re-enters discount", e.Equilibrium(),
                                         "ICT invalidation — premium no longer holds")];
    }
    assert rules == AreaRules(e);
    hide AreaRules;
    if e.ShiftConfirmed() {
      rules := rules + [InvalidationRule("MSS fails to hold — structure unchanged", 0.0,
                                         "ICT invalidation — MSS failed to confirm")];
    }
    if rules == [] {
      rules := [DELIVERY_RULE];
    }
  }

  method Interpret(signals: seq<IctSignal>, freshness: real) returns (i: Interpretation)
    ensures i == Reading(signals, freshness)
  {
    hide NoIctData, PrimarySetup, BackupSetup, IctRules, ContextQuality, BaseConfidence, ComputeConfidence,
      BiasFromSignals;
    if signals == [] {
      return NoIctData();
    }
    var e := EvidenceOf(signals);
    var bullish, bearish := CountVotes(e);
    var bias := BiasFromSignals(bullish, bearish);
    var primary, backup := SetupsOf(e, bias);
    var rules := RulesOf(e);
    var quality := ContextQuality(e);
    var confidence := ComputeConfidence(BaseConfidence(e), freshness, quality, MinR(1.0, |signals| as real / 15.0));
    i := Interpretation(bias, confidence, primary, backup, rules, Some(quality), false, 0.0, true, false, false, false);
  }

  // ----- What the branches add up to -----

  /** The quality stays in the unit interval exactly down to a delivery score that the other evidence still covers. */
  lemma QualityInUnitIff(e: IctEvidence)
    ensures ContextQuality(e) <= 1.0
    ensures 0.0 <= ContextQuality(e) <==> e.DeliveryScore() >= DeliveryFloor(e)
    ensures -9.0 <= DeliveryFloor(e) <= 0.0
  {
  }

  /**
   A directional ICT bias without any setup comes from unswept liquidity alone: one side is left unswept, and
   nothing else has been seen.
  */
  lemma BiasWithoutSetupIff(e: IctEvidence)
    ensures e.IctBias() != Neutral && PrimarySetup(e) == None <==>
            && e.unsweptBuy != e.unsweptSell
            && !e.InDiscount() && !e.InPremium()
            && !e.Displaced(BullSide) && !e.Displaced(BearSide) && !e.ShiftConfirmed()
  {
  }

  /** Being in discount keeps the bias from turning bearish, whatever liquidity says; premium is its mirror image. */
  lemma AreaResistsOpposition(e: IctEvidence)
    ensures e.InDiscount() ==> e.IctBias() != Bearish
    ensures e.InPremium() ==> e.IctBias() != Bullish
  {
  }

  // ----- The reading in points and branches -----

  /**
   What votes for either side: its area twice, displacement once or twice, a confirmed shift twice, liquidity once.
  */
  lemma IctVotes(e: IctEvidence)
    ensures var moved := e.displacement.Some? && e.displacement.value.Displacement?;
            var weight := if moved && e.displacement.value.strength > 0.5 then 2 else 1;
            && e.Bulls() == (if e.InDiscount() then 2 else 0) + (if e.Displaced(BullSide) then weight else 0)
                            + (if e.Shifted(BullSide) then 2 else 0) + (if e.unsweptSell then 1 else 0)
            && e.Bears() == (if e.InPremium() then 2 else 0) + (if e.Displaced(BearSide) then weight else 0)
                            + (if e.Shifted(BearSide) then 2 else 0) + (if e.unsweptBuy then 1 else 0)
  {
  }

  lemma SetupNamesDiffer()
    ensures |PREMIUM_DISCOUNT_REACTION| == |DELIVERY_REVERSAL| == 25 && |DISPLACEMENT_RECLAIM| == 20
    ensures |MSS_CONTINUATION| == 16 && PREMIUM_DISCOUNT_REACTION != DELIVERY_REVERSAL
  {
    assert PREMIUM_DISCOUNT_REACTION[0] == 'P' && DELIVERY_REVERSAL[0] == 'D';
  }

  /** The setups of each branch: the area before displacement before a shift; unswept liquidity only without a bias. */
  lemma IctSetups(e: IctEvidence)
    ensures var up, down := e.IctBias() == Bullish, e.IctBias() == Bearish;
            var area := (up && e.InDiscount()) || (down && e.InPremium());
            var moved := (up && e.Displaced(BullSide)) || (down && e.Displaced(BearSide));
            var shifted := (up || down) && e.ShiftConfirmed();
            && (PrimarySetup(e) == Some(PREMIUM_DISCOUNT_REACTION) <==> area)
            && (PrimarySetup(e) == Some(DISPLACEMENT_RECLAIM) <==> !area && moved)
            && (PrimarySetup(e) == Some(MSS_CONTINUATION) <==> !area && !moved && shifted)
            && (PrimarySetup(e) == Some(DELIVERY_REVERSAL) <==> !up && !down && (e.unsweptBuy || e.unsweptSell))
            && (BackupSetup(e) == Some(DISPLACEMENT_RECLAIM) <==> area && moved)
            && (BackupSetup(e) == Some(MSS_CONTINUATION) <==> !area && moved && shifted)
            && (BackupSetup(e) == None <==> !moved || (!area && !shifted))
  {
    SetupNamesDiffer();
    hide PREMIUM_DISCOUNT_REACTION, DELIVERY_REVERSAL, DISPLACEMENT_RECLAIM, MSS_CONTINUATION, BiasFromSignals;
  }

  /** The latest signal of a kind is one of them, and none of that kind comes after it. */
  lemma {:induction false} LastOfIsLatest(signals: seq<IctSignal>, want: IctSignal -> bool)
    ensures LastOf(signals, want) == None <==> forall i :: 0 <= i < |signals| ==> !want(signals[i])
    ensures forall k :: 0 <= k < |signals| && want(signals[k])
                        && (forall i :: k < i < |signals| ==> !want(signals[i])) ==>
              LastOf(signals, want) == Some(signals[k])
  {
    if signals != [] {
      var n := |signals| - 1;
      LastOfIsLatest(signals[..n], want);
      assert forall i :: 0 <= i < n ==> signals[..n][i] == signals[i];
    }
  }

  /** Base confidence in points of ten; a delivery score that was never heard counts as one half. */
  lemma IctConfidence(signals: seq<IctSignal>, freshness: real)
    requires signals != []
    ensures var e := EvidenceOf(signals);
            var points := (if e.area == None then 0.0 else 2.0) + (if PrimarySetup(e) == None then 0.0 else 3.0)
                          + (if e.ShiftConfirmed() then 2.0 else 0.0) + 2.0 * e.DeliveryScore();
            && 10.0 * BaseConfidence(e) == (if points > 10.0 then 10.0 else points)
            && (e.delivery == None ==> e.DeliveryScore() == 0.5)
            && Reading(signals, freshness).confidence
               == ComputeConfidence(BaseConfidence(e), freshness, ContextQuality(e),
                                    if |signals| >= 15 then 1.0 else |signals| as real / 15.0)
            && Reading(signals, freshness).bias == BiasFromSignals(e.Bulls(), e.Bears())
            && Reading(signals, freshness).primarySetup == PrimarySetup(e)
            && Reading(signals, freshness).backupSetup == BackupSetup(e)
            && Reading(signals, freshness).contextQuality == Some(ContextQuality(e))
            && Reading(signals, freshness).cautionLevel == 0.0 && !Reading(signals, freshness).eventRisk
            && Reading(signals, freshness).tradeAllowed
  {
    hide LastOf, ContextQuality, PrimarySetup, BackupSetup, IctRules, ComputeConfidence, BiasFromSignals;
  }

  lemma IctSilence(freshness: real)
    ensures var i := Reading([], freshness);
            && i.bias == Neutral && i.confidence == 0.0 && i.contextQuality == Some(0.0)
            && i.primarySetup == i.backupSetup == None && i.cautionLevel == 0.0 && i.tradeAllowed
            && |i.rules| == 1 && i.rules[0].priceLevel == 0.0
  {
  }

  /** A rule about the area stands at its equilibrium, one about a shift at no price. */
  lemma IctRulesAreExact(e: IctEvidence)
    ensures e.InDiscount() || e.InPremium() || e.ShiftConfirmed() ==>
              |IctRules(e)| == (if e.InDiscount() then 1 else 0) + (if e.InPremium() then 1 else 0)
                               + (if e.ShiftConfirmed() then 1 else 0)
    ensures e.InDiscount() || e.InPremium() ==>
              IctRules(e)[0].priceLevel == e.area.value.equilibrium
    ensures e.ShiftConfirmed() ==> IctRules(e)[|IctRules(e)| - 1].priceLevel == 0.0
    ensures !e.InDiscount() && !e.InPremium() && !e.ShiftConfirmed() ==> IctRules(e) == [DELIVERY_RULE]
  {
  }
}
