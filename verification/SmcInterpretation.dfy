/** The SMC Head (smc_head.py): structure, fair value gaps, order blocks and changes of character. */
module SmcInterpretation {
  import opened SharedTypes
  import opened Numerics
  import opened HeadTypes

  datatype StructureType = HigherHighs | Breakout | LowerLows | OtherStructure

  /** An SMC signal with its defaults filled in. */
  datatype SmcSignal =
    | MarketStructure(kind: StructureType, structureValid: bool)
    | Gap(side: Side, mitigated: bool, top: real)
    | OrderBlock(obSide: Side, price: real)
    | Choch(chochSide: Side, confirmed: bool)
    | OtherSmcSignal

  const FVG_RETEST := "FVG Retest"
  const LIQUIDITY_SWEEP_RECLAIM := "Liquidity Sweep Reclaim"
  const ORDER_BLOCK_BOUNCE := "Order Block Bounce"
  const CHOCH_CONTINUATION := "Structure Break Continuation"
  const BOS_CONTINUATION := "BOS Continuation"

  function Select(signals: seq<SmcSignal>, want: SmcSignal -> bool): seq<SmcSignal> {
    if signals == [] then []
    else
      var last := signals[|signals| - 1];
      Select(signals[..|signals| - 1], want) + (if want(last) then [last] else [])
  }

  predicate ActiveGap(s: SmcSignal, side: Side) {
    s.Gap? && s.side == side && !s.mitigated
  }

  /** The evidence of one refresh; every count is a list of signals. */
  datatype SmcEvidence = SmcEvidence(
    kind: StructureType,
    structureValid: bool,
    bullGaps: seq<SmcSignal>,
    bearGaps: seq<SmcSignal>,
    bullBlocks: seq<SmcSignal>,
    bearBlocks: seq<SmcSignal>,
    anyBlock: bool,
    bullChoch: bool,
    bearChoch: bool,
    confirmed: nat,
    total: nat)
  {
    predicate BullStructure() {
      (kind == HigherHighs || kind == Breakout) && structureValid
    }

    predicate BearStructure() {
      kind == LowerLows && structureValid
    }

    /** A confirmed change of character counts for both sides, whatever its own side. */
    function Bulls(): nat {
      |bullGaps| + |bullBlocks| + confirmed + if BullStructure() then 2 else 0
    }

    function Bears(): nat {
      |bearGaps| + |bearBlocks| + confirmed + if BearStructure() then 2 else 0
    }

    function SmcBias(): Bias {
      BiasFromSignals(Bulls(), Bears())
    }
  }

  function EvidenceOf(signals: seq<SmcSignal>): SmcEvidence {
    var structures := Select(signals, (s: SmcSignal) => s.MarketStructure?);
    var latest := if structures == [] then MarketStructure(OtherStructure, false) else structures[|structures| - 1];
    SmcEvidence(
      if latest.MarketStructure? then latest.kind else OtherStructure,
      latest.MarketStructure? && latest.structureValid,
      Select(signals, (s: SmcSignal) => ActiveGap(s, BullSide)),
      Select(signals, (s: SmcSignal) => ActiveGap(s, BearSide)),
      Select(signals, (s: SmcSignal) => s.OrderBlock? && s.obSide == BullSide),
      Select(signals, (s: SmcSignal) => s.OrderBlock? && s.obSide == BearSide),
      Select(signals, (s: SmcSignal) => s.OrderBlock?) != [],
      Select(signals, (s: SmcSignal) => s.Choch? && s.chochSide == BullSide) != [],
      Select(signals, (s: SmcSignal) => s.Choch? && s.chochSide == BearSide) != [],
      |Select(signals, (s: SmcSignal) => s.Choch? && s.confirmed)|,
      |signals|)
  }

  function LevelOf(s: SmcSignal): real {
    if s.Gap? then s.top else if s.OrderBlock? then s.price else 0.0
  }

  function Levels(signals: seq<SmcSignal>): seq<real> {
    seq(|signals|, i requires 0 <= i < |signals| => LevelOf(signals[i]))
  }

  /** The levels of the active zones, gaps before blocks. */
  function ZoneLevels(e: SmcEvidence): seq<real> {
    Levels(e.bullGaps + e.bearGaps) + Levels(e.bullBlocks + e.bearBlocks)
  }

  /** Zero levels do not count; 0.0 if none is left. */
  function HighestLevel(levels: seq<real>): real {
    if levels == [] then 0.0
    else
      var rest, last := HighestLevel(levels[..|levels| - 1]), levels[|levels| - 1];
      if last == 0.0 then rest else if NoLevels(levels[..|levels| - 1]) then last else MaxR(rest, last)
  }

  function LowestLevel(levels: seq<real>): real {
    if levels == [] then 0.0
    else
      var rest, last := LowestLevel(levels[..|levels| - 1]), levels[|levels| - 1];
      if last == 0.0 then rest else if NoLevels(levels[..|levels| - 1]) then last else MinR(rest, last)
  }

  predicate NoLevels(levels: seq<real>) {
    forall i :: 0 <= i < |levels| ==> levels[i] == 0.0
  }

  function PrimarySetup(e: SmcEvidence): Option<string> {
    match e.SmcBias()
    case Bullish =>
      if e.bullGaps != [] then Some(FVG_RETEST)
      else if e.bullBlocks != [] then Some(ORDER_BLOCK_BOUNCE)
      else if e.BullStructure() then Some(BOS_CONTINUATION)
      else None
    case Bearish =>
      if e.bearGaps != [] then Some(FVG_RETEST)
      else if e.bearBlocks != [] then Some(ORDER_BLOCK_BOUNCE)
      else if e.BearStructure() then Some(BOS_CONTINUATION)
      else None
    case Neutral =>
      if e.bullGaps != [] || e.bullBlocks != [] then Some(LIQUIDITY_SWEEP_RECLAIM) else None
  }

  function BackupSetup(e: SmcEvidence): Option<string> {
    match e.SmcBias()
    case Bullish =>
      if e.bullGaps != [] then (if e.bullBlocks != [] then Some(ORDER_BLOCK_BOUNCE) else None)
      else if e.bullBlocks != [] && e.bullChoch then Some(CHOCH_CONTINUATION)
      else None
    case Bearish =>
      if e.bearGaps != [] then (if e.bearBlocks != [] then Some(ORDER_BLOCK_BOUNCE) else None)
      else if e.bearBlocks != [] && e.bearChoch then Some(CHOCH_CONTINUATION)
      else None
    case Neutral =>
      if e.bullGaps == [] && e.bullBlocks == [] && (e.bearGaps != [] || e.bearBlocks != []) then
        Some(LIQUIDITY_SWEEP_RECLAIM)
      else None
  }

  const SWING_LOW := "Structure breaks below last swing low"
  const SWING_HIGH := "Structure breaks above last swing high"
  const GAP_CLOSED := "FVG fully mitigated — gap closed"
  const BLOCK_BROKEN := "Order block breaks decisively"
  const GENERAL_RULE := InvalidationRule("Market structure flips against current bias", 0.0,
                                         "General structural invalidation")

  function BullStructureRule(e: SmcEvidence, levels: seq<real>): seq<InvalidationRule> {
    if e.BullStructure() then
      [InvalidationRule(SWING_LOW, LowestLevel(levels), "Bullish structure invalidated — trend flip risk")]
    else []
  }

  function BearStructureRule(e: SmcEvidence, levels: seq<real>): seq<InvalidationRule> {
    if e.BearStructure() then
      [InvalidationRule(SWING_HIGH, HighestLevel(levels), "Bearish structure invalidated — trend flip risk")]
    else []
  }

  function GapRule(e: SmcEvidence, levels: seq<real>): seq<InvalidationRule> {
    if PrimarySetup(e) == Some(FVG_RETEST) && e.bullGaps != [] then
      [InvalidationRule(GAP_CLOSED, HighestLevel(levels), "Setup invalidated — gap no longer exists")]
    else []
  }

  function BlockRule(e: SmcEvidence): seq<InvalidationRule> {
    if PrimarySetup(e) == Some(ORDER_BLOCK_BOUNCE) && e.bullBlocks != [] then
      [InvalidationRule(BLOCK_BROKEN, LevelOf(e.bullBlocks[|e.bullBlocks| - 1]),
                        "OB structure broken — invalidation level")]
    else []
  }

  function StructureRules(e: SmcEvidence): seq<InvalidationRule> {
    var levels := ZoneLevels(e);
    BullStructureRule(e, levels) + BearStructureRule(e, levels) + GapRule(e, levels) + BlockRule(e)
  }

  function SmcRules(e: SmcEvidence): (r: seq<InvalidationRule>)
    ensures r != []
  {
    if StructureRules(e) == [] then [GENERAL_RULE] else StructureRules(e)
  }

  function ContextQuality(e: SmcEvidence): real {
    MinR(1.0,
      (if e.structureValid then 0.3 else 0.0)
      + (if e.bullGaps != [] || e.bearGaps != [] then 0.25 else 0.0)
      + (if e.anyBlock then 0.2 else 0.0)
      + (if e.confirmed > 0 then 0.15 else 0.0)
      + MinR(0.1, e.total as real * 0.01))
  }

  function BaseConfidence(e: SmcEvidence): real {
    var gaps := |e.bullGaps| + |e.bearGaps|;
    MinR(1.0,
      (if e.structureValid then 0.3 else 0.0)
      + (if PrimarySetup(e).Some? then 0.4 else 0.0)
      + (if gaps > 0 then MinR(0.2, gaps as real * 0.1) else 0.0))
  }

  function NoSmcData(): Interpretation {
    Interpretation(Neutral, 0.0, None, None,
                   [InvalidationRule("No SMC data — cannot assess structure", 0.0, "No Floor 3 SMC signals received")],
                   Some(0.0), false, 0.0, true, false, false, false)
  }

  function Reading(signals: seq<SmcSignal>, freshness: real): Interpretation {
    if signals == [] then NoSmcData()
    else
      var e := EvidenceOf(signals);
      Interpretation(
        e.SmcBias(),
        ComputeConfidence(BaseConfidence(e), freshness, ContextQuality(e), MinR(1.0, e.total as real / 20.0)),
        PrimarySetup(e), BackupSetup(e), SmcRules(e), Some(ContextQuality(e)),
        false, 0.0, true, false, false, false)
  }

  // ----- The imperative form -----

  method ZonesOf(e: SmcEvidence) returns (zones: seq<real>)
    ensures zones == ZoneLevels(e)
  {
    zones := [];
    var gaps := e.bullGaps + e.bearGaps;
    for i := 0 to |gaps|
      invariant zones == Levels(gaps[..i])
    {
      zones := zones + [LevelOf(gaps[i])];
    }
    assert gaps[..|gaps|] == gaps;
    var blocks := e.bullBlocks + e.bearBlocks;
    for i := 0 to |blocks|
      invariant zones == Levels(gaps) + Levels(blocks[..i])
    {
      zones := zones + [LevelOf(blocks[i])];
    }
    assert blocks[..|blocks|] == blocks;
  }

  method SetupsOf(e: SmcEvidence) returns (primary: Option<string>, backup: Option<string>)
    ensures primary == PrimarySetup(e) && backup == BackupSetup(e)
  {
    primary, backup := None, None;
    match e.SmcBias() {
      case Bullish =>
        if e.bullGaps != [] {
          primary := Some(FVG_RETEST);
          backup := if e.bullBlocks != [] then Some(ORDER_BLOCK_BOUNCE) else None;
        } else if e.bullBlocks != [] {
          primary := Some(ORDER_BLOCK_BOUNCE);
          backup := if e.bullChoch then Some(CHOCH_CONTINUATION) else None;
        } else if e.BullStructure() {
          primary := Some(BOS_CONTINUATION);
        }
      case Bearish =>
        if e.bearGaps != [] {
          primary := Some(FVG_RETEST);
          backup := if e.bearBlocks != [] then Some(ORDER_BLOCK_BOUNCE) else None;
        } else if e.bearBlocks != [] {
          primary := Some(ORDER_BLOCK_BOUNCE);
          backup := if e.bearChoch then Some(CHOCH_CONTINUATION) else None;
        } else if e.BearStructure() {
          primary := Some(BOS_CONTINUATION);
        }
      case Neutral =>
        if e.bullGaps != [] || e.bullBlocks != [] {
          primary := Some(LIQUIDITY_SWEEP_RECLAIM);
        } else if e.bearGaps != [] || e.bearBlocks != [] {
          backup := Some(LIQUIDITY_SWEEP_RECLAIM);
        }
    }
  }

  method RulesOf(e: SmcEvidence, primary: Option<string>, zones: seq<real>) returns (rules: seq<InvalidationRule>)
    requires primary == PrimarySetup(e) && zones == ZoneLevels(e)
    ensures rules == SmcRules(e)
  {
    rules := StructureRulesOf(e, zones);
    if primary == Some(FVG_RETEST) && e.bullGaps != [] {
      rules := rules + [InvalidationRule(GAP_CLOSED, HighestLevel(zones), "Setup invalidated — gap no longer exists")];
    }
    assert rules == BullStructureRule(e, zones) + BearStructureRule(e, zones) + GapRule(e, zones);
    hide GapRule, BullStructureRule, BearStructureRule;
    if primary == Some(ORDER_BLOCK_BOUNCE) && e.bullBlocks != [] {
      rules := rules + [InvalidationRule(BLOCK_BROKEN, LevelOf(e.bullBlocks[|e.bullBlocks| - 1]),
                                         "OB structure broken — invalidation level")];
    }
    hide BlockRule;
    assert rules == StructureRules(e);
    if rules == [] {
      rules := [GENERAL_RULE];
    }
  }

  method StructureRulesOf(e: SmcEvidence, zones: seq<real>) returns (rules: seq<InvalidationRule>)
    ensures rules == BullStructureRule(e, zones) + BearStructureRule(e, zones)
  {
    rules := [];
    if e.BullStructure() {
      rules := rules + [InvalidationRule(SWING_LOW, LowestLevel(zones),
                                         "Bullish structure invalidated — trend flip risk")];
    }
    if e.BearStructure() {
      rules := rules + [InvalidationRule(SWING_HIGH, HighestLevel(zones),
                                         "Bearish structure invalidated — trend flip risk")];
    }
  }

  method Interpret(signals: seq<SmcSignal>, freshness: real) returns (i: Interpretation)
    ensures i == Reading(signals, freshness)
  {
    hide NoSmcData, EvidenceOf, PrimarySetup, BackupSetup, ZoneLevels, SmcRules, ContextQuality, BaseConfidence,
      ComputeConfidence, BiasFromSignals;
    if signals == [] {
      return NoSmcData();
    }
    var e := EvidenceOf(signals);
    var zones := ZonesOf(e);
    var primary, backup := SetupsOf(e);
    var rules := RulesOf(e, primary, zones);
    var quality := ContextQuality(e);
    var confidence := ComputeConfidence(BaseConfidence(e), freshness, quality, MinR(1.0, |signals| as real / 20.0));
    assert e.total == |signals| by { TotalIsCount(signals); }
    i := Interpretation(e.SmcBias(), confidence, primary, backup, rules, Some(quality), false, 0.0, true, false,
                        false, false);
  }

  lemma TotalIsCount(signals: seq<SmcSignal>)
    ensures EvidenceOf(signals).total == |signals|
  {
  }

  // ----- What the branches add up to -----

  lemma QualityInUnit(e: SmcEvidence)
    ensures 0.0 <= ContextQuality(e) <= 1.0
  {
  }

  /** A directional SMC bias always names a primary setup: each way of getting there is one of its branches. */
  lemma DirectionalBiasHasSetup(e: SmcEvidence)
    ensures e.SmcBias() != Neutral ==> PrimarySetup(e).Some?
  {
  }

  /** A backup without a primary happens in one corner only: no bias, no bullish zone, some bearish one. */
  lemma BackupWithoutPrimaryIff(e: SmcEvidence)
    ensures PrimarySetup(e) == None && BackupSetup(e).Some? <==>
            && e.SmcBias() == Neutral && e.bullGaps == [] && e.bullBlocks == []
            && (e.bearGaps != [] || e.bearBlocks != [])
  {
  }

  /**
   Each price rule lies on the safe side of the zones: a swing low under every level, a swing high over every level, a
   closed gap over every level too, and a swing rule comes only with a structure of its side.
  */
  lemma PriceRulesBoundZones(e: SmcEvidence, r: InvalidationRule)
    requires r in SmcRules(e)
    ensures r.condition == SWING_LOW ==>
              e.BullStructure() && forall x :: x in ZoneLevels(e) && x != 0.0 ==> r.priceLevel <= x
    ensures r.condition == SWING_HIGH ==>
              e.BearStructure() && forall x :: x in ZoneLevels(e) && x != 0.0 ==> x <= r.priceLevel
    ensures r.condition == GAP_CLOSED ==>
              PrimarySetup(e) == Some(FVG_RETEST) && forall x :: x in ZoneLevels(e) && x != 0.0 ==> x <= r.priceLevel
  {
    RuleTextsDiffer();
    LevelsAreExtremes(ZoneLevels(e));
    hide LowestLevel, HighestLevel, ZoneLevels, PrimarySetup, NoLevels, LevelOf;
  }

  lemma RuleTextsDiffer()
    ensures SWING_LOW != SWING_HIGH && SWING_LOW != GAP_CLOSED && SWING_HIGH != GAP_CLOSED
    ensures BLOCK_BROKEN != SWING_LOW && BLOCK_BROKEN != SWING_HIGH && BLOCK_BROKEN != GAP_CLOSED
    ensures GENERAL_RULE.condition != SWING_LOW && GENERAL_RULE.condition != SWING_HIGH
    ensures GENERAL_RULE.condition != GAP_CLOSED
  {
    assert SWING_LOW[|SWING_LOW| - 1] == 'w' && SWING_HIGH[|SWING_HIGH| - 1] == 'h';
    assert GAP_CLOSED[0] == 'F' && SWING_LOW[0] == 'S' && SWING_HIGH[0] == 'S';
    assert BLOCK_BROKEN[0] == 'O' && GENERAL_RULE.condition[0] == 'M';
  }

  /** Confirmed changes of character never create a bias: a biased reading has the same bias without them. */
  lemma ConfirmedChochOnlyNeutralises(e: SmcEvidence)
    ensures e.SmcBias() != Neutral ==> e.(confirmed := 0).SmcBias() == e.SmcBias()
  {
    var without := e.(confirmed := 0);
    SharedEvidenceNeutralises(without.Bulls(), without.Bears(), e.confirmed);
  }

  lemma {:induction false} SelectedAreSignals(signals: seq<SmcSignal>, want: SmcSignal -> bool)
    ensures forall s :: s in Select(signals, want) <==> s in signals && want(s)
  {
    if signals != [] {
      var n := |signals| - 1;
      SelectedAreSignals(signals[..n], want);
      assert signals == signals[..n] + [signals[n]];
    }
  }

  lemma NoLevelsIff(levels: seq<real>)
    ensures NoLevels(levels) <==> forall x :: x in levels ==> x == 0.0
  {
    if NoLevels(levels) {
      forall x | x in levels ensures x == 0.0 {
        var i :| 0 <= i < |levels| && levels[i] == x;
      }
    } else {
      var i :| 0 <= i < |levels| && levels[i] != 0.0;
      assert levels[i] in levels;
    }
  }

  /** The highest (lowest) level is attained, bounds every non-zero level, and is 0 only for want of levels. */
  lemma {:induction false} LevelsAreExtremes(levels: seq<real>)
    ensures NoLevels(levels) ==> HighestLevel(levels) == LowestLevel(levels) == 0.0
    ensures !NoLevels(levels) ==> HighestLevel(levels) in levels && LowestLevel(levels) in levels
    ensures forall x :: x in levels && x != 0.0 ==> LowestLevel(levels) <= x <= HighestLevel(levels)
  {
    if levels != [] {
      var n := |levels| - 1;
      var init := levels[..n];
      LevelsAreExtremes(init);
      assert levels == init + [levels[n]];
      NoLevelsIff(init);
      NoLevelsIff(levels);
      hide NoLevels;
    }
  }

  // ----- The reading in points and branches -----

  /** What votes for either side: active zones, confirmed changes of character, and twice a valid structure. */
  lemma SmcVotes(e: SmcEvidence)
    ensures e.Bulls() == |e.bullGaps| + |e.bullBlocks| + e.confirmed
            + (if e.structureValid && (e.kind == HigherHighs || e.kind == Breakout) then 2 else 0)
    ensures e.Bears() == |e.bearGaps| + |e.bearBlocks| + e.confirmed
            + (if e.structureValid && e.kind == LowerLows then 2 else 0)
  {
  }

  /** The setups of a directional reading: a gap before a block before the structure itself. */
  lemma DirectionalSetups(e: SmcEvidence)
    requires e.SmcBias() != Neutral
    ensures var up := e.SmcBias() == Bullish;
            var gaps, blocks := if up then e.bullGaps else e.bearGaps, if up then e.bullBlocks else e.bearBlocks;
            var choch := if up then e.bullChoch else e.bearChoch;
            && (PrimarySetup(e) == Some(FVG_RETEST) <==> gaps != [])
            && (PrimarySetup(e) == Some(ORDER_BLOCK_BOUNCE) <==> gaps == [] && blocks != [])
            && (PrimarySetup(e) == Some(BOS_CONTINUATION) <==> gaps == [] && blocks == [])
            && (BackupSetup(e) == Some(ORDER_BLOCK_BOUNCE) <==> gaps != [] && blocks != [])
            && (BackupSetup(e) == Some(CHOCH_CONTINUATION) <==> gaps == [] && blocks != [] && choch)
            && (BackupSetup(e) == None <==> (gaps != [] && blocks == []) || (gaps == [] && (blocks == [] || !choch)))
  {
    DirectionalBiasHasSetup(e);
    SetupNamesDiffer();
    hide FVG_RETEST, LIQUIDITY_SWEEP_RECLAIM, ORDER_BLOCK_BOUNCE, CHOCH_CONTINUATION, BOS_CONTINUATION;
  }

  lemma SetupNamesDiffer()
    ensures |FVG_RETEST| == 10 && |LIQUIDITY_SWEEP_RECLAIM| == 23 && |ORDER_BLOCK_BOUNCE| == 18
    ensures |CHOCH_CONTINUATION| == 28 && |BOS_CONTINUATION| == 16
  {
  }

  /** Without a direction a zone of the bullish side waits to be swept first, one of the bearish side alone second. */
  lemma NeutralSetups(e: SmcEvidence)
    requires e.SmcBias() == Neutral
    ensures var bull, bear := e.bullGaps != [] || e.bullBlocks != [], e.bearGaps != [] || e.bearBlocks != [];
            && PrimarySetup(e) == (if bull then Some(LIQUIDITY_SWEEP_RECLAIM) else None)
            && BackupSetup(e) == (if !bull && bear then Some(LIQUIDITY_SWEEP_RECLAIM) else None)
  {
  }

  /** Context quality in points of a hundred. */
  lemma SmcQualityInPoints(e: SmcEvidence)
    ensures 100.0 * ContextQuality(e)
            == (if e.structureValid then 30.0 else 0.0) + (if e.bullGaps == [] && e.bearGaps == [] then 0.0 else 25.0)
               + (if e.anyBlock then 20.0 else 0.0) + (if e.confirmed == 0 then 0.0 else 15.0)
               + (if e.total >= 10 then 10.0 else e.total as real)
  {
  }

  /** Base confidence in points of ten, and the strength of twenty signals. */
  lemma SmcConfidence(signals: seq<SmcSignal>, freshness: real)
    requires signals != []
    ensures var e := EvidenceOf(signals);
            var gaps := |e.bullGaps| + |e.bearGaps|;
            && 10.0 * BaseConfidence(e) == (if e.structureValid then 3.0 else 0.0)
                                           + (if PrimarySetup(e) == None then 0.0 else 4.0)
                                           + (if gaps >= 2 then 2.0 else gaps as real)
            && Reading(signals, freshness).confidence
               == ComputeConfidence(BaseConfidence(e), freshness, ContextQuality(e),
                                    if |signals| >= 20 then 1.0 else |signals| as real / 20.0)
            && Reading(signals, freshness).bias == BiasFromSignals(e.Bulls(), e.Bears())
            && Reading(signals, freshness).primarySetup == PrimarySetup(e)
            && Reading(signals, freshness).backupSetup == BackupSetup(e)
            && Reading(signals, freshness).contextQuality == Some(ContextQuality(e))
            && Reading(signals, freshness).cautionLevel == 0.0 && !Reading(signals, freshness).eventRisk
            && Reading(signals, freshness).tradeAllowed
  {
    TotalIsCount(signals);
    hide EvidenceOf, ContextQuality, BackupSetup, SmcRules, ComputeConfidence, BiasFromSignals, PrimarySetup;
  }

  /** Without signals a head says nothing, and says why. */
  lemma SmcSilence(freshness: real)
    ensures var i := Reading([], freshness);
            && i.bias == Neutral && i.confidence == 0.0 && i.contextQuality == Some(0.0)
            && i.primarySetup == i.backupSetup == None && i.cautionLevel == 0.0 && i.tradeAllowed
            && |i.rules| == 1 && i.rules[0].priceLevel == 0.0
  {
  }
}
