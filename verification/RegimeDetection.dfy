/** The market regime of a heavy cycle (market_story_engine.py). */
module RegimeDetection {
  import opened SharedTypes
  import opened Confluence
  import opened FloorSummaries

  const HIGH_CONFIDENCE := 0.7
  const LOW_CONFIDENCE := 0.4

  /** The key the story reads; the builder writes another one. */
  const STORY_BIAS_KEY := "dominant_bias"

  predicate Trending(r: Regime) {
    r.TrendUp? || r.TrendDown?
  }

  predicate WeaklyTrending(r: Regime) {
    r.WeakUp? || r.WeakDown?
  }

  predicate Sideways(r: Regime) {
    r.Range? || r.Chop? || r.Unclear?
  }

  function DirectedRegime(up: bool, confidence: real): Regime {
    if confidence >= HIGH_CONFIDENCE then (if up then TrendUp else TrendDown)
    else if up then WeakUp
    else WeakDown
  }

  function SummaryRegime(f: FloorSummary): Regime {
    var bias := if STORY_BIAS_KEY in f.biasSnapshot then f.biasSnapshot[STORY_BIAS_KEY] else "NEUTRAL";
    var confidence := Or(f.averageConfidence, 0.0);
    var total := f.readyHeads + f.uncertainHeads + f.staleHeads;
    if total > 0 && 2 * f.staleHeads > total then Unclear
    else if f.conflict && confidence < LOW_CONFIDENCE then Chop
    else if bias == "BULLISH" || bias == "BEARISH" then
      if confidence >= LOW_CONFIDENCE then DirectedRegime(bias == "BULLISH", confidence) else Range
    else if f.conflict then Chop
    else Range
  }

  /** The reports that count for the regime: by the name inside the report, not by the key they are filed under. */
  function StoryHeads(reports: seq<Entry>): seq<HeadReport> {
    if reports == [] then []
    else
      var last := reports[|reports| - 1].report;
      StoryHeads(reports[..|reports| - 1]) + (if last.headName.PsychologyHead? then [] else [last])
  }

  function ReportsRegime(reports: seq<Entry>): Regime {
    var heads := StoryHeads(reports);
    if heads == [] then Unclear
    else
      var average := ConfidenceSum(heads) / |heads| as real;
      var bull, bear := CountBias(heads, Bullish), CountBias(heads, Bearish);
      if average < LOW_CONFIDENCE then Chop
      else if bull != bear then DirectedRegime(bull > bear, average)
      else Range
  }

  function DetectRegime(summary: Option<FloorSummary>, reports: seq<Entry>): Regime {
    match summary
    case None => ReportsRegime(reports)
    case Some(f) => SummaryRegime(f)
  }

  lemma RegimesAreThreeKinds(summary: Option<FloorSummary>, reports: seq<Entry>)
    ensures var r := DetectRegime(summary, reports); Trending(r) || WeaklyTrending(r) || Sideways(r)
  {
  }

  /**
   Neither a summary that Floor 4 builds nor the empty one has the key the story looks for, so with any of them the
   market is never seen to trend, whatever the heads say.
  */
  lemma BuiltSummariesNeverTrend(f: FloorSummary)
    requires f == EMPTY_SUMMARY || exists reports :: f == SummaryOf(reports)
    ensures STORY_BIAS_KEY !in f.biasSnapshot
    ensures Sideways(SummaryRegime(f))
  {
    assert |STORY_BIAS_KEY| == 13 && |BUILT_BIAS_KEY| == 19;
  }

  /**
   With a summary the regime is directed if and only if it carries that key with a direction and enough confidence.
  */
  lemma SummaryTrendsIff(f: FloorSummary)
    ensures !Sideways(SummaryRegime(f)) <==>
            && STORY_BIAS_KEY in f.biasSnapshot
            && (f.biasSnapshot[STORY_BIAS_KEY] == "BULLISH" || f.biasSnapshot[STORY_BIAS_KEY] == "BEARISH")
            && Or(f.averageConfidence, 0.0) >= LOW_CONFIDENCE
            && 2 * f.staleHeads <= f.readyHeads + f.uncertainHeads + f.staleHeads
  {
  }

  // ----- The regime, case by case -----

  predicate MostlyStale(f: FloorSummary) {
    2 * f.staleHeads > f.readyHeads + f.uncertainHeads + f.staleHeads
  }

  /** The direction the story finds in a summary. */
  predicate Says(f: FloorSummary, text: string) {
    STORY_BIAS_KEY in f.biasSnapshot && f.biasSnapshot[STORY_BIAS_KEY] == text
  }

  /** For any summary: stale heads first, then conflict, then direction and confidence. */
  lemma SummaryRegimeCases(f: FloorSummary)
    ensures var r, c := SummaryRegime(f), Or(f.averageConfidence, 0.0);
            var up, down := Says(f, "BULLISH"), Says(f, "BEARISH");
            var vague := c < 0.4 || !(up || down);
            && (r == Unclear <==> MostlyStale(f))
            && (r == Chop <==> !MostlyStale(f) && f.conflict && vague)
            && (r == Range <==> !MostlyStale(f) && !f.conflict && vague)
            && (r == TrendUp <==> !MostlyStale(f) && up && c >= 0.7)
            && (r == TrendDown <==> !MostlyStale(f) && down && c >= 0.7)
            && (r == WeakUp <==> !MostlyStale(f) && up && 0.4 <= c < 0.7)
            && (r == WeakDown <==> !MostlyStale(f) && down && 0.4 <= c < 0.7)
  {
    assert "BULLISH"[1] == 'U' && "BEARISH"[1] == 'E' && "NEUTRAL"[0] == 'N';
  }

  /** The directional reports of the dictionary, as positions. */
  ghost function Voices(reports: seq<Entry>): set<int> {
    set i | 0 <= i < |reports| && reports[i].report.headName != PsychologyHead
  }

  ghost function VoicesFor(reports: seq<Entry>, b: Bias): set<int> {
    set i | 0 <= i < |reports| && reports[i].report.headName != PsychologyHead && reports[i].report.bias == b
  }

  lemma {:induction false} StoryHeadsAreVoices(reports: seq<Entry>)
    ensures |StoryHeads(reports)| == |Voices(reports)|
  {
    if reports != [] {
      var n := |reports| - 1;
      StoryHeadsAreVoices(reports[..n]);
      assert Voices(reports) == Voices(reports[..n])
             + (if reports[n].report.headName != PsychologyHead then {n} else {});
    }
  }

  lemma OneMoreStory(reports: seq<Entry>, b: Bias)
    requires reports != []
    ensures var n := |reports| - 1;
            var last := reports[n].report;
            CountBias(StoryHeads(reports), b)
            == CountBias(StoryHeads(reports[..n]), b)
              + (if last.headName != PsychologyHead && last.bias == b then 1 else 0)
  {
    var init, last := StoryHeads(reports[..|reports| - 1]), reports[|reports| - 1].report;
    if last.headName == PsychologyHead {
      assert StoryHeads(reports) == init;
    } else {
      assert StoryHeads(reports) == init + [last] && (init + [last])[..|init|] == init;
    }
  }

  lemma OneMoreVoice(reports: seq<Entry>, b: Bias)
    requires reports != []
    ensures var n := |reports| - 1;
            var last := reports[n].report;
            |VoicesFor(reports, b)|
            == |VoicesFor(reports[..n], b)| + (if last.headName != PsychologyHead && last.bias == b then 1 else 0)
  {
    var n := |reports| - 1;
    var before, after := VoicesFor(reports[..n], b), VoicesFor(reports, b);
    var counts := reports[n].report.headName != PsychologyHead && reports[n].report.bias == b;
    forall i ensures i in after <==> i in before || (counts && i == n) {
    }
    assert n !in before;
    if counts {
      assert after == before + {n};
    } else {
      assert after == before;
    }
  }

  lemma {:induction false} StoryHeadsAreCounted(reports: seq<Entry>, b: Bias)
    ensures CountBias(StoryHeads(reports), b) == |VoicesFor(reports, b)|
  {
    if reports != [] {
      var n := |reports| - 1;
      StoryHeadsAreCounted(reports[..n], b);
      OneMoreStory(reports, b);
      OneMoreVoice(reports, b);
      hide StoryHeads, CountBias, VoicesFor;
    }
  }

  /**
   Without a summary the other reports decide: none at all, a mean confidence under 0.4, then the larger side, strong
   from a mean of 0.7 on.
  */
  lemma ReportsRegimeCases(reports: seq<Entry>)
    ensures var r, n := ReportsRegime(reports), |Voices(reports)| as real;
            var sum := ConfidenceSum(StoryHeads(reports));
            var up, down := |VoicesFor(reports, Bullish)|, |VoicesFor(reports, Bearish)|;
            && (r == Unclear <==> Voices(reports) == {})
            && (r == Chop <==> Voices(reports) != {} && sum < 0.4 * n)
            && (r == TrendUp <==> Voices(reports) != {} && sum >= 0.7 * n && up > down)
            && (r == TrendDown <==> Voices(reports) != {} && sum >= 0.7 * n && up < down)
            && (r == WeakUp <==> Voices(reports) != {} && 0.4 * n <= sum < 0.7 * n && up > down)
            && (r == WeakDown <==> Voices(reports) != {} && 0.4 * n <= sum < 0.7 * n && up < down)
            && (r == Range <==> Voices(reports) != {} && 0.4 * n <= sum && up == down)
  {
    StoryHeadsAreVoices(reports);
    StoryHeadsAreCounted(reports, Bullish);
    StoryHeadsAreCounted(reports, Bearish);
    hide Voices, VoicesFor, StoryHeads, CountBias, ConfidenceSum;
    if StoryHeads(reports) != [] {
      MeanAgainst(ConfidenceSum(StoryHeads(reports)), |StoryHeads(reports)| as real, 0.4);
      MeanAgainst(ConfidenceSum(StoryHeads(reports)), |StoryHeads(reports)| as real, 0.7);
    }
  }

  lemma MeanAgainst(sum: real, n: real, bound: real)
    requires n > 0.0
    ensures sum / n < bound <==> sum < bound * n
  {
  }

  // ----- The summaries of the builder -----

  ghost function StaleOnes(reports: seq<Entry>): set<int> {
    set i | 0 <= i < |reports| && reports[i].report.state == Stale
  }

  predicate SetupHead(name: HeadName) {
    name == SmcHead || name == IctHead || name == TechnicalHead || name == OptionsHead
  }

  ghost predicate SetupHeadSays(reports: seq<Entry>, b: Bias) {
    exists e :: e in reports && SetupHead(e.name) && e.report.bias == b
  }

  lemma {:induction false} StatesAddUp(reports: seq<Entry>)
    ensures CountState(reports, Ready) + CountState(reports, Uncertain) + CountState(reports, Stale) == |reports|
    ensures CountState(reports, Stale) == |StaleOnes(reports)|
  {
    if reports != [] {
      var n := |reports| - 1;
      StatesAddUp(reports[..n]);
      assert StaleOnes(reports) == StaleOnes(reports[..n]) + (if reports[n].report.state == Stale then {n} else {});
    }
  }

  lemma {:induction false} FoundIsFiled(reports: seq<Entry>, name: HeadName)
    requires DistinctNames(reports)
    ensures forall r :: FindReport(reports, name) == Some(r) <==> Entry(name, r) in reports
  {
    if reports != [] {
      var n := |reports| - 1;
      FoundIsFiled(reports[..n], name);
      assert reports == reports[..n] + [reports[n]];
    }
  }

  lemma {:induction false} PresentIsFound(reports: seq<Entry>, names: seq<HeadName>, b: Bias)
    ensures CountBias(Present(reports, names), b) > 0 <==>
            exists i :: 0 <= i < |names| && FindReport(reports, names[i]).Some?
              && FindReport(reports, names[i]).value.bias == b
  {
    if names != [] {
      var n := |names| - 1;
      var init, r := Present(reports, names[..n]), FindReport(reports, names[n]);
      PresentIsFound(reports, names[..n], b);
      if r.Some? {
        assert (init + [r.value])[..|init|] == init;
      } else {
        assert Present(reports, names) == init;
      }
      forall i | 0 <= i < n ensures names[..n][i] == names[i] {
      }
    }
  }

  lemma SetupHeadsAreCounted(reports: seq<Entry>, b: Bias)
    requires DistinctNames(reports)
    ensures CountBias(Present(reports, SETUP_HEADS), b) > 0 <==> SetupHeadSays(reports, b)
  {
    PresentIsFound(reports, SETUP_HEADS, b);
    FoundIsFiled(reports, SmcHead);
    FoundIsFiled(reports, IctHead);
    FoundIsFiled(reports, TechnicalHead);
    FoundIsFiled(reports, OptionsHead);
    hide CountBias, Present, FindReport, DistinctNames;
    assert SETUP_HEADS[0] == SmcHead && SETUP_HEADS[1] == IctHead;
    assert SETUP_HEADS[2] == TechnicalHead && SETUP_HEADS[3] == OptionsHead;
    if e :| e in reports && SetupHead(e.name) && e.report.bias == b {
      assert Entry(e.name, e.report) in reports;
    }
  }

  /**
   With the summary that Floor 4 builds from them, the reports lead to UNCLEAR if more than half of them are stale, else
   to CHOP if one of the four setup heads is bullish and another bearish, and else to RANGE.
  */
  lemma BuiltRegimeCases(reports: seq<Entry>)
    requires DistinctNames(reports)
    ensures var r, stale := SummaryRegime(SummaryOf(reports)), 2 * |StaleOnes(reports)| > |reports|;
            var split := SetupHeadSays(reports, Bullish) && SetupHeadSays(reports, Bearish);
            && (r == Unclear <==> stale) && (r == Chop <==> !stale && split) && (r == Range <==> !stale && !split)
  {
    var f := SummaryOf(reports);
    BuiltSummariesNeverTrend(f);
    SummaryRegimeCases(f);
    StatesAddUp(reports);
    SetupHeadsAreCounted(reports, Bullish);
    SetupHeadsAreCounted(reports, Bearish);
    hide SummaryRegime, StaleOnes, SetupHeadSays, CountState, Present, CountBias, CountSetups, HealthOf, ConfidenceSum;
  }
}
