/**
 The order of convictions over heavy cycles: what it keeps, and two pairs of cycles that turn it around, one through the
 class and one through a stale head.
*/
module BrokenOrders {
  import opened SharedTypes
  import opened Numerics
  import opened SessionPolicy
  import opened Confluence
  import opened Conviction
  import opened FloorSummaries
  import opened RegimeDetection
  import opened TradeClasses
  import opened ScoreOrder
  import opened CaptainEngine
  import opened CaptainLockout

  /**
   Two heavy cycles without stale core heads, the second no worse in anything: its conviction ends at least as high
   unless the class it computes for itself decays faster than the first one can make up for in idle cycles. Its band is
   never lower if both have a direction, or neither.
  */
  lemma HeavyCyclesKeepOrder(a: HeavyInput, m: nat, b: HeavyInput, n: nat)
    requires UnitConfidence(a.reports) && UnitConfidence(b.reports)
    requires !CoreHeadStale(a.reports) && !CoreHeadStale(b.reports)
    requires NoBetter(ScoreInputOf(a, m), ScoreInputOf(b, n))
    ensures var low, high := FinalScores(ScoreInputOf(a, m)), FinalScores(ScoreInputOf(b, n));
            && (!Overtaken(ClassOf(a), m, ClassOf(b), n) ==> low.conviction <= high.conviction)
            && (!Overtaken(ClassOf(a), m, ClassOf(b), n) || Directed(a) == Directed(b) ==>
                  BandRank(low.band) <= BandRank(high.band))
  {
    CycleIsBounded(a, m);
    CycleIsBounded(b, n);
    CycleClassIsAssigned(a, m);
    CycleClassIsAssigned(b, n);
    hide ConfluenceOf, ClassOf, FinalScores, NoBetter, Classified, CoreHeadStale, DetectRegime;
    AssignedOrder(ScoreInputOf(a, m), Directed(a), ScoreInputOf(b, n), Directed(b));
  }

  /** For one and the same cycle further idle cycles only lower conviction and band: its class ignores them. */
  lemma IdlingOnlyLowers(inp: HeavyInput, cycles: nat, more: nat)
    requires cycles <= more
    ensures var low, high := FinalScores(ScoreInputOf(inp, more)), FinalScores(ScoreInputOf(inp, cycles));
            low.conviction <= high.conviction && BandRank(low.band) <= BandRank(high.band)
  {
    hide ConfluenceOf, ClassOf, FinalScores, CoreHeadStale, DetectRegime;
    IdleCyclesOnlyLower(ScoreInputOf(inp, cycles), more);
  }

  // ----- Contested cycles -----

  const STALE_SMC := Entry(SmcHead, HeadReport(SmcHead, Stale, 0.0, StaleTag, Bullish, 0.0, None, None, [], Some(0.0),
                                               false, 0.0, true, false, false, false))

  /** An SMC report without confidence, ICT for the upside with weight `bull`, Technical against it with the rest. */
  function ContestedReports(stale: bool, bull: real): seq<Entry> {
    [if stale then STALE_SMC else FullTrustHead(SmcHead, Bullish, 0.0),
     FullTrustHead(IctHead, Bullish, bull / 0.9), FullTrustHead(TechnicalHead, Bearish, (1.0 - bull) / 0.7)]
  }

  function ContestedCycle(stale: bool, bull: real): HeavyInput {
    HeavyInput(ContestedReports(stale, bull), OppositeCase(false, 0.0), Some(EMPTY_SUMMARY), Timestamp(0, 300), 0.0,
               Some(Alert), 25000.0, 100.0, None, 1, 19500.0, 50)
  }

  lemma TallyOfThree(h: seq<Entry>, b: Bias)
    requires |h| == 3
    ensures Tally(h, b) == Share(h[0], b) + Share(h[1], b) + Share(h[2], b)
  {
    assert h[..2][..1] == h[..1] && h[..1][..0] == [];
    assert Tally(h[..1], b) == Tally([], b) + Share(h[0], b);
    assert Tally(h[..2], b) == Tally(h[..1], b) + Share(h[1], b);
  }

  lemma ContestedVotes(stale: bool, bull: real)
    requires 0.5 < bull <= 0.9
    ensures var h := ContestedReports(stale, bull);
            && UnitConfidence(h)
            && Tally(h, Bullish) == bull && Tally(h, Bearish) == 1.0 - bull && Tally(h, Neutral) == 0.0
  {
    var h := ContestedReports(stale, bull);
    FullTrustVote(SmcHead, Bullish, 0.0);
    FullTrustVote(IctHead, Bullish, bull / 0.9);
    FullTrustVote(TechnicalHead, Bearish, (1.0 - bull) / 0.7);
    assert Vote(h[0]) == 0.0;
    assert 0.9 * (bull / 0.9) == bull && 0.7 * ((1.0 - bull) / 0.7) == 1.0 - bull;
    hide Vote;
    TallyOfThree(h, Bullish);
    TallyOfThree(h, Bearish);
    TallyOfThree(h, Neutral);
  }

  lemma ContestedConfluence(stale: bool, bull: real)
    requires 0.5 < bull <= 0.9 && Round4(bull) == bull
    ensures var r := ConfluenceOf(ContestedReports(stale, bull));
            r.quality == bull && (r.conflict <==> bull < 0.6) && r.dominant == Bullish
  {
    var h := ContestedReports(stale, bull);
    ContestedVotes(stale, bull);
    AllDirectional(h);
    ContestedConflict(stale, bull);
    hide Tally;
    assert Dominant(h) == Bullish;
    assert TotalTally(h) == 1.0 && RawQuality(h) == bull;
    hide RawQuality, Dominant, Round4, DetectConflict;
  }

  lemma ContestedConflict(stale: bool, bull: real)
    ensures DetectConflict(ContestedReports(stale, bull), Bullish, bull) <==> bull < 0.6
  {
    var h := ContestedReports(stale, bull);
    assert h[1] in h && h[2] in h;
    assert HasBias(h, Bullish) && HasBias(h, Bearish);
  }

  lemma {:induction false} AllDirectional(h: seq<Entry>)
    requires forall i :: 0 <= i < |h| ==> !h[i].name.PsychologyHead?
    ensures Directional(h) == h
  {
    if h != [] {
      AllDirectional(h[..|h| - 1]);
    }
  }

  lemma ContestedFindings(stale: bool, bull: real)
    ensures var inp := ContestedCycle(stale, bull);
            && (CoreHeadStale(inp.reports) <==> stale) && FindReport(inp.reports, PsychologyHead) == None
            && PhaseOf(inp.time) == GoldenMorning && PresenceOf(inp.summary) == UnknownPresence
            && RegimeOf(inp) == Range
  {
    var h := ContestedReports(stale, bull);
    assert h[..2][..1] == h[..1] && h[..1][..0] == [];
    assert FindReport(h, SmcHead) == FindReport(h[..2], SmcHead) == FindReport(h[..1], SmcHead) == Some(h[0].report);
    assert FindReport(h, IctHead) == FindReport(h[..2], IctHead) == Some(h[1].report);
    assert FindReport(h[..1], PsychologyHead) == FindReport([], PsychologyHead) == None;
    assert FindReport(h, PsychologyHead) == FindReport(h[..2], PsychologyHead) == FindReport(h[..1], PsychologyHead);
  }

  /** The score input of such a cycle: a range market in golden morning at quality `bull`. */
  function ContestedInput(stale: bool, bull: real, cls: Option<TradeClass>, cycles: nat): ScoreInput {
    RangeAt(bull, cls, cycles).(coreStale := stale)
  }

  /** The reports lead through confluence, regime and raw band to this input, with this class. */
  lemma ContestedScoreInput(stale: bool, bull: real, cycles: nat)
    requires 0.5 < bull <= 0.9 && Round4(bull) == bull
    ensures ScoreInputOf(ContestedCycle(stale, bull), cycles)
            == ContestedInput(stale, bull, if 60.0 * bull + 9.0 < 40.0 then None else Some(Scalp), cycles)
  {
    var inp := ContestedCycle(stale, bull);
    ContestedConfluence(stale, bull);
    ContestedFindings(stale, bull);
    OppositeCaseIsAlwaysAbsent(inp, cycles);
    var x := ContestedInput(stale, bull, None, 0);
    ContestedClass(stale, bull);
    hide ConfluenceOf, FindReport, CoreHeadStale, PhaseOf, PresenceOf, DetectRegime, RawScores, AssignedClass,
      ContestedCycle, AnalyzeOpposite;
    assert UnclassifiedInput(inp, 0) == x;
  }

  lemma ContestedClass(stale: bool, bull: real)
    requires 0.5 < bull <= 0.9
    ensures AssignedClass(true, bull, Range, GoldenMorning, RawScores(ContestedInput(stale, bull, None, 0)).band)
            == if 60.0 * bull + 9.0 < 40.0 then None else Some(Scalp)
  {
    var x := ContestedInput(stale, bull, None, 0);
    assert x.Conviction() == 60.0 * bull + 9.0;
    var band := RawScores(x).band;
    if band.Reject? {
      ClassOfRejectBand(true, bull, Range, GoldenMorning, band);
    } else if band.Weak? {
      ClassOfWeakBand(bull, Range, GoldenMorning);
    } else {
      ClassOfTradableBand(bull, Range, GoldenMorning, band);
    }
  }

  lemma OnGrid4(k: int)
    ensures Round4(k as real / 10000.0) == k as real / 10000.0
  {
    assert k as real / 10000.0 * 10000.0 == k as real;
    assert (k as real).Floor == k;
  }

  // ----- Through the class -----

  /**
   After one idle cycle, a cycle with more confluence and everything else equal ends eight points lower: 35.9 without a
   class against 28.0 as a SCALP.
  */
  lemma ClassBreaksMonotonicity()
    ensures var a, b := ContestedCycle(false, 0.515), ContestedCycle(false, 0.5167);
            && UnitConfidence(a.reports) && UnitConfidence(b.reports)
            && !CoreHeadStale(a.reports) && !CoreHeadStale(b.reports)
            && NoBetter(ScoreInputOf(a, 1), ScoreInputOf(b, 1)) && ClassOf(a) == None && ClassOf(b) == Some(Scalp)
            && FinalScores(ScoreInputOf(a, 1)).conviction == 35.9 && FinalScores(ScoreInputOf(b, 1)).conviction == 28.0
  {
    hide ConfluenceOf, ContestedCycle, ClassOf, FinalScores, CoreHeadStale, UnitConfidence, Round4;
    ContestedFacts(5150);
    ContestedFacts(5167);
    assert 5150 as real / 10000.0 == 0.515 && 5167 as real / 10000.0 == 0.5167;
    ClassDecays();
  }

  lemma ContestedFacts(k: int)
    requires 5000 < k <= 9000
    ensures var bull := k as real / 10000.0;
            && UnitConfidence(ContestedCycle(false, bull).reports)
            && !CoreHeadStale(ContestedCycle(false, bull).reports)
            && ScoreInputOf(ContestedCycle(false, bull), 1)
               == ContestedInput(false, bull, if 60.0 * bull + 9.0 < 40.0 then None else Some(Scalp), 1)
  {
    hide UnitConfidence, CoreHeadStale, ScoreInputOf, ContestedInput, Tally, FindReport, RegimeOf, PhaseOf, PresenceOf,
      ContestedReports, Round4;
    var bull := k as real / 10000.0;
    assert 0.5 < bull <= 0.9;
    OnGrid4(k);
    ContestedVotes(false, bull);
    ContestedFindings(false, bull);
    ContestedScoreInput(false, bull, 1);
  }

  lemma ClassDecays()
    ensures FinalScores(ContestedInput(false, 0.515, None, 1)).conviction == 35.9
    ensures FinalScores(ContestedInput(false, 0.5167, Some(Scalp), 1)).conviction == 28.0
  {
    RangeScores(None, 1);
    RangeScores(Some(Scalp), 1);
    hide AdjustedScores;
    assert (359.1).Floor == 359 && (280.0).Floor == 280;
    assert DecayFactor(None, 1) == 0.9 && DecayFactor(Some(Scalp), 1) == 0.7;
  }

  // ----- Through a stale head -----

  lemma StaleFinal(bull: real, tenths: int)
    requires 0.8 <= bull <= 0.9 && Round1(60.0 * bull + 9.0) == tenths as real / 10.0 && tenths >= 450
    ensures FinalScores(ContestedInput(true, bull, Some(Scalp), 0)).conviction ==
            tenths as real / 10.0 - (if 60.0 * bull + 9.0 >= 60.0 then 15.0 else 5.0)
  {
    assert ContestedInput(true, bull, Some(Scalp), 0).Conviction() == 60.0 * bull + 9.0;
  }

  lemma StaleExample(quality: int, tenths: int)
    requires (quality == 8483 && tenths == 599) || (quality == 8500 && tenths == 600)
    ensures var bull := quality as real / 10000.0;
            && UnitConfidence(ContestedCycle(true, bull).reports)
            && ScoreInputOf(ContestedCycle(true, bull), 0) == ContestedInput(true, bull, Some(Scalp), 0)
            && FinalScores(ContestedInput(true, bull, Some(Scalp), 0)).conviction
               == if tenths == 599 then 54.9 else 45.0
  {
    var bull := quality as real / 10000.0;
    OnGrid4(quality);
    assert 60.0 * bull + 9.0 == if tenths == 599 then 59.898 else 60.0;
    assert (598.98).Floor == 598 && (600.0).Floor == 600;
    assert Round1(60.0 * bull + 9.0) == tenths as real / 10.0;
    ContestedVotes(true, bull);
    ContestedScoreInput(true, bull, 0);
    StaleFinal(bull, tenths);
    hide ScoreInputOf, FinalScores, ContestedReports, UnitConfidence, Tally;
  }

  lemma ContestedAreOrdered(stale: bool, low: real, high: real, c: Option<TradeClass>, d: Option<TradeClass>,
                            cycles: nat)
    requires low <= high
    ensures NoBetter(ContestedInput(stale, low, c, cycles), ContestedInput(stale, high, d, cycles))
  {
  }

  /** A cycle with more confluence and everything else equal ends with ten points less: 54.9 against 45.0. */
  lemma StaleHeadsBreakMonotonicity()
    ensures var x, y := ScoreInputOf(ContestedCycle(true, 0.8483), 0), ScoreInputOf(ContestedCycle(true, 0.85), 0);
            && UnitConfidence(ContestedCycle(true, 0.8483).reports)
            && UnitConfidence(ContestedCycle(true, 0.85).reports)
            && NoBetter(x, y) && x.coreStale && y.coreStale
            && FinalScores(x).conviction == 54.9 && FinalScores(y).conviction == 45.0
  {
    StaleExample(8483, 599);
    StaleExample(8500, 600);
    assert 8483 as real / 10000.0 == 0.8483 && 8500 as real / 10000.0 == 0.85;
    ContestedAreOrdered(true, 0.8483, 0.85, Some(Scalp), Some(Scalp), 0);
    hide ScoreInputOf, FinalScores, ContestedCycle, UnitConfidence, NoBetter, RangeAt;
  }
}
