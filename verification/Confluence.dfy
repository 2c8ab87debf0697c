/** Trust-weighted head alignment (confluence_engine.py). */
module Confluence {
  import opened SharedTypes
  import opened Numerics

  /** One item of the head-report dictionary; the sequence keeps the dictionary's order. */
  datatype Entry = Entry(name: HeadName, report: HeadReport)

  ghost predicate DistinctNames(reports: seq<Entry>) {
    forall i, j :: 0 <= i < j < |reports| ==> reports[i].name != reports[j].name
  }

  /** Confidences as the report contract bounds them. */
  ghost predicate UnitConfidence(reports: seq<Entry>) {
    forall e :: e in reports ==> 0.0 <= e.report.confidence <= 1.0
  }

  datatype ConfluenceResult = ConfluenceResult(
    quality: real,
    conflict: bool,
    aligned: seq<HeadName>,
    opposing: seq<HeadName>,
    dominant: Bias)

  function Priority(name: HeadName): real {
    match name
    case SmcHead => 1.0
    case IctHead => 0.9
    case TechnicalHead => 0.7
    case OptionsHead => 0.6
    case MacroHead => 0.4
    case _ => 0.5
  }

  function StateModifier(s: HeadState): real {
    match s
    case Ready => 1.0
    case Uncertain => 0.6
    case Stale => 0.3
  }

  function FreshnessModifier(t: FreshnessTag): real {
    match t
    case FreshTag => 1.0
    case WarmTag => 0.75
    case StaleTag => 0.4
  }

  function ContextModifier(q: Option<real>): real {
    match q
    case None => 0.8
    case Some(v) => if v >= 0.8 then 1.0 else if v >= 0.5 then 0.8 else 0.5
  }

  function TrustWeight(e: Entry): real {
    var weight := Priority(e.name) * StateModifier(e.report.state) * FreshnessModifier(e.report.freshnessTag);
    ClampUnit(if e.name.SmcHead? || e.name.IctHead?
              then weight * ContextModifier(e.report.contextQuality)
              else weight)
  }

  /** What a head adds to the direction it favours. */
  function Vote(e: Entry): real {
    TrustWeight(e) * e.report.confidence
  }

  function Directional(reports: seq<Entry>): (r: seq<Entry>)
    ensures forall e :: e in r <==> e in reports && !e.name.PsychologyHead?
  {
    if reports == [] then []
    else
      var init, last := reports[..|reports| - 1], reports[|reports| - 1];
      assert reports == init + [last];
      Directional(init) + (if last.name.PsychologyHead? then [] else [last])
  }

  /** The weight behind direction `b`. */
  function Tally(heads: seq<Entry>, b: Bias): real {
    if heads == [] then 0.0
    else Tally(heads[..|heads| - 1], b) + Share(heads[|heads| - 1], b)
  }

  function Share(e: Entry, b: Bias): real {
    if e.report.bias == b then Vote(e) else 0.0
  }

  function TotalTally(heads: seq<Entry>): real {
    Tally(heads, Bullish) + Tally(heads, Bearish) + Tally(heads, Neutral)
  }

  function NamesWhere(heads: seq<Entry>, keep: Bias -> bool): seq<HeadName> {
    if heads == [] then []
    else
      var last := heads[|heads| - 1];
      NamesWhere(heads[..|heads| - 1], keep) + (if keep(last.report.bias) then [last.name] else [])
  }

  /** Tuples compare by weight, then by name: NEUTRAL beats BULLISH beats BEARISH on a tie. */
  function DominantOf(bull: real, bear: real, neutral: real): Bias {
    if neutral >= bull && neutral >= bear then Neutral
    else if bull >= bear then Bullish
    else Bearish
  }

  function Dominant(heads: seq<Entry>): Bias {
    DominantOf(Tally(heads, Bullish), Tally(heads, Bearish), Tally(heads, Neutral))
  }

  /** The share of all directional weight that stands behind the dominant direction, before rounding. */
  function RawQuality(heads: seq<Entry>): real {
    var total := TotalTally(heads);
    if total > 0.0 then Tally(heads, Dominant(heads)) / total else 0.0
  }

  predicate Opposes(heads: seq<Entry>, name: HeadName, dominant: Bias) {
    exists e :: e in heads && e.name == name && e.report.bias != dominant && !e.report.bias.Neutral?
  }

  predicate HasBias(heads: seq<Entry>, b: Bias) {
    exists e :: e in heads && e.report.bias == b
  }

  predicate DetectConflict(heads: seq<Entry>, dominant: Bias, quality: real) {
    && |heads| >= 2
    && HasBias(heads, Bullish)
    && HasBias(heads, Bearish)
    && ((Opposes(heads, SmcHead, dominant) && Opposes(heads, IctHead, dominant) && quality < 0.7)
        || quality < 0.6)
  }

  function ConfluenceOf(reports: seq<Entry>): ConfluenceResult {
    var heads := Directional(reports);
    if heads == [] then ConfluenceResult(0.0, false, [], [], Neutral)
    else
      var dominant := Dominant(heads);
      ConfluenceResult(
        Round4(RawQuality(heads)),
        DetectConflict(heads, dominant, RawQuality(heads)),
        NamesWhere(heads, (b: Bias) => b == dominant),
        NamesWhere(heads, (b: Bias) => b != dominant && b != Neutral),
        dominant)
  }

  method DirectionalReports(reports: seq<Entry>) returns (heads: seq<Entry>)
    ensures heads == Directional(reports)
  {
    heads := [];
    for i := 0 to |reports|
      invariant heads == Directional(reports[..i])
    {
      assert reports[..i + 1][..i] == reports[..i];
      if !reports[i].name.PsychologyHead? {
        heads := heads + [reports[i]];
      }
    }
    assert reports[..|reports|] == reports;
  }

  method SumVotes(heads: seq<Entry>) returns (bull: real, bear: real, neutral: real)
    ensures bull == Tally(heads, Bullish)
    ensures bear == Tally(heads, Bearish)
    ensures neutral == Tally(heads, Neutral)
  {
    bull, bear, neutral := 0.0, 0.0, 0.0;
    for i := 0 to |heads|
      invariant bull == Tally(heads[..i], Bullish)
      invariant bear == Tally(heads[..i], Bearish)
      invariant neutral == Tally(heads[..i], Neutral)
    {
      assert heads[..i + 1][..i] == heads[..i];
      var vote := Vote(heads[i]);
      match heads[i].report.bias {
        case Bullish => bull := bull + vote;
        case Bearish => bear := bear + vote;
        case Neutral => neutral := neutral + vote;
      }
    }
    assert heads[..|heads|] == heads;
  }

  method ComputeConfluence(reports: seq<Entry>) returns (r: ConfluenceResult)
    ensures r == ConfluenceOf(reports)
  {
    var heads := DirectionalReports(reports);
    if heads == [] {
      return ConfluenceResult(0.0, false, [], [], Neutral);
    }
    hide Directional, Tally, DetectConflict, NamesWhere, Round4;
    var bull, bear, neutral := SumVotes(heads);
    var dominant, best := Neutral, neutral;
    if bull > best {
      dominant, best := Bullish, bull;
    }
    if bear > best {
      dominant, best := Bearish, bear;
    }
    var total := bull + bear + neutral;
    var quality := if total > 0.0 then best / total else 0.0;
    assert dominant == Dominant(heads) && quality == RawQuality(heads);
    r := ConfluenceResult(
      Round4(quality),
      DetectConflict(heads, dominant, quality),
      NamesWhere(heads, (b: Bias) => b == dominant),
      NamesWhere(heads, (b: Bias) => b != dominant && b != Neutral),
      dominant);
  }

  // ----- Quality is a share -----

  lemma TrustWeightBounds(e: Entry)
    ensures 0.0 < TrustWeight(e) <= Priority(e.name) <= 1.0
  {
  }

  lemma VoteBounds(e: Entry)
    requires 0.0 <= e.report.confidence <= 1.0
    ensures 0.0 <= Vote(e) <= Priority(e.name)
    ensures Vote(e) > 0.0 <==> e.report.confidence > 0.0
  {
  }

  // ----- What the result says -----

  /** The direction with the most weight; on a tie neutral comes before bullish, and bullish before bearish. */
  lemma DominantCases(heads: seq<Entry>)
    ensures var bull, bear, neutral := Tally(heads, Bullish), Tally(heads, Bearish), Tally(heads, Neutral);
            && (Dominant(heads) == Neutral <==> bull <= neutral && bear <= neutral)
            && (Dominant(heads) == Bullish <==> neutral < bull && bear <= bull)
            && (Dominant(heads) == Bearish <==> neutral < bear && bull < bear)
  {
    hide Tally;
    if Tally(heads, Neutral) < Tally(heads, Bullish) && Tally(heads, Bearish) <= Tally(heads, Bullish) {
      assert Dominant(heads) == Bullish;
    }
  }

  lemma {:induction false} NamesAreExact(heads: seq<Entry>, keep: Bias -> bool, name: HeadName)
    ensures name in NamesWhere(heads, keep) <==> exists e :: e in heads && e.name == name && keep(e.report.bias)
  {
    if heads != [] {
      var init, last := heads[..|heads| - 1], heads[|heads| - 1];
      assert heads == init + [last];
      NamesAreExact(init, keep, name);
    }
  }

  /** Names keep the order of the dictionary. */
  lemma {:induction false} NamesInOrder(a: seq<Entry>, b: seq<Entry>, keep: Bias -> bool)
    ensures NamesWhere(a + b, keep) == NamesWhere(a, keep) + NamesWhere(b, keep)
  {
    if b == [] {
      assert a + b == a;
    } else {
      assert (a + b)[..|a + b| - 1] == a + b[..|b| - 1];
      NamesInOrder(a, b[..|b| - 1], keep);
    }
  }

  /** Who stands with the dominant direction and who takes a side against it; psychology never does. */
  lemma AlignedAndOpposing(reports: seq<Entry>, name: HeadName)
    ensures var r := ConfluenceOf(reports);
            && (name in r.aligned <==>
                  exists e :: e in reports && e.name == name && !name.PsychologyHead? && e.report.bias == r.dominant)
            && (name in r.opposing <==>
                  exists e :: e in reports && e.name == name && !name.PsychologyHead?
                              && e.report.bias != r.dominant && e.report.bias != Neutral)
  {
    var heads := Directional(reports);
    if heads != [] {
      var dominant := Dominant(heads);
      NamesAreExact(heads, (b: Bias) => b == dominant, name);
      NamesAreExact(heads, (b: Bias) => b != dominant && b != Neutral, name);
    }
    hide Directional, Dominant, NamesWhere, DetectConflict, RawQuality;
  }

  /** Without any weight the quality is zero, and without directional heads the result is neutral and empty. */
  lemma NoWeightNoQuality(reports: seq<Entry>)
    ensures TotalTally(Directional(reports)) <= 0.0 ==> RawQuality(Directional(reports)) == 0.0
    ensures (forall e :: e in reports ==> e.name.PsychologyHead?) ==>
              ConfluenceOf(reports) == ConfluenceResult(0.0, false, [], [], Neutral)
  {
    var heads := Directional(reports);
    assert heads == [] || heads[0] in heads;
    hide Directional;
  }

  /**
   A conflict needs a bullish and a bearish head and agreement below 0.6, or below 0.7 when SMC and ICT both take a side
   against the dominant direction.
  */
  lemma ConflictIff(heads: seq<Entry>, dominant: Bias, quality: real)
    ensures DetectConflict(heads, dominant, quality) <==>
            && (exists e :: e in heads && e.report.bias == Bullish)
            && (exists e :: e in heads && e.report.bias == Bearish)
            && (|| quality < 0.6
                || (&& quality < 0.7
                    && (exists e :: e in heads && e.name == SmcHead && e.report.bias !in {dominant, Neutral})
                    && (exists e :: e in heads && e.name == IctHead && e.report.bias !in {dominant, Neutral})))
  {
    if HasBias(heads, Bullish) && HasBias(heads, Bearish) {
      var e :| e in heads && e.report.bias == Bullish;
      var f :| f in heads && f.report.bias == Bearish;
      assert |heads| >= 2 by {
        var i :| 0 <= i < |heads| && heads[i] == e;
        var j :| 0 <= j < |heads| && heads[j] == f;
        assert i != j;
      }
    }
    assert Opposes(heads, SmcHead, dominant) <==>
           exists e :: e in heads && e.name == SmcHead && e.report.bias !in {dominant, Neutral};
    assert Opposes(heads, IctHead, dominant) <==>
           exists e :: e in heads && e.name == IctHead && e.report.bias !in {dominant, Neutral};
  }

  // ----- What a vote depends on -----

  function WithState(e: Entry, s: HeadState): Entry {
    e.(report := e.report.(state := s))
  }

  function WithTag(e: Entry, t: FreshnessTag): Entry {
    e.(report := e.report.(freshnessTag := t))
  }

  function WithQuality(e: Entry, q: Option<real>): Entry {
    e.(report := e.report.(contextQuality := q))
  }

  /** The same report, ready, fresh and in full context. */
  function AtFullTrust(e: Entry): Entry {
    WithQuality(WithTag(WithState(e, Ready), FreshTag), Some(1.0))
  }

  lemma FullVotes(e: Entry)
    ensures Vote(AtFullTrust(e)) == e.report.confidence * (match e.name
                                                           case SmcHead => 1.0
                                                           case IctHead => 0.9
                                                           case TechnicalHead => 0.7
                                                           case OptionsHead => 0.6
                                                           case MacroHead => 0.4
                                                           case _ => 0.5)
  {
  }

  /** An uncertain report has three fifths of the ready vote, a stale one three tenths. */
  lemma StateScalesVote(e: Entry)
    ensures Vote(WithState(e, Uncertain)) == 0.6 * Vote(WithState(e, Ready))
    ensures Vote(WithState(e, Stale)) == 0.3 * Vote(WithState(e, Ready))
  {
    var t, q := e.report.freshnessTag, e.report.contextQuality;
    TrustIsProduct(WithState(e, Ready));
    TrustIsProduct(WithState(e, Uncertain));
    TrustIsProduct(WithState(e, Stale));
  }

  /** A warm report has three quarters of the fresh vote, a stale tag leaves two fifths. */
  lemma TagScalesVote(e: Entry)
    ensures Vote(WithTag(e, WarmTag)) == 0.75 * Vote(WithTag(e, FreshTag))
    ensures Vote(WithTag(e, StaleTag)) == 0.4 * Vote(WithTag(e, FreshTag))
  {
    TrustIsProduct(WithTag(e, FreshTag));
    TrustIsProduct(WithTag(e, WarmTag));
    TrustIsProduct(WithTag(e, StaleTag));
  }

  /** Context counts for SMC and ICT alone: four fifths from 0.5 on or without one, one half below. */
  lemma ContextScalesVote(e: Entry, q: Option<real>)
    ensures var full, vote := Vote(WithQuality(e, Some(1.0))), Vote(WithQuality(e, q));
            vote == if !(e.name.SmcHead? || e.name.IctHead?) || (q.Some? && q.value >= 0.8) then full
                    else if q == None || q.value >= 0.5 then 0.8 * full
                    else 0.5 * full
  {
    TrustIsProduct(WithQuality(e, Some(1.0)));
    TrustIsProduct(WithQuality(e, q));
  }

  /** Clamping never matters: every factor is at most one. */
  lemma TrustIsProduct(e: Entry)
    ensures TrustWeight(e)
            == Priority(e.name) * StateModifier(e.report.state) * FreshnessModifier(e.report.freshnessTag)
               * (if e.name.SmcHead? || e.name.IctHead? then ContextModifier(e.report.contextQuality) else 1.0)
  {
  }

  function StateRank(s: HeadState): nat {
    match s case Ready => 2 case Uncertain => 1 case Stale => 0
  }

  function TagRank(t: FreshnessTag): nat {
    match t case FreshTag => 2 case WarmTag => 1 case StaleTag => 0
  }

  /** A missing quality ranks with the middling ones. */
  function ContextRank(q: Option<real>): nat {
    if q == None then 1 else if q.value >= 0.8 then 2 else if q.value >= 0.5 then 1 else 0
  }

  /** A readier, fresher and no less confident report in better context never votes for less. */
  lemma BetterReportsVoteMore(low: Entry, high: Entry)
    requires low.name == high.name && 0.0 <= low.report.confidence <= high.report.confidence
    requires StateRank(low.report.state) <= StateRank(high.report.state)
    requires TagRank(low.report.freshnessTag) <= TagRank(high.report.freshnessTag)
    requires ContextRank(low.report.contextQuality) <= ContextRank(high.report.contextQuality)
    ensures Vote(low) <= Vote(high)
  {
    hide TrustWeight, StateRank, TagRank, ContextRank, Priority, StateModifier, FreshnessModifier, ContextModifier;
    TrustIsMonotone(low, high);
    TrustWeightBounds(low);
    ProductMonotone(TrustWeight(low), TrustWeight(high), low.report.confidence, high.report.confidence);
  }

  lemma TrustIsMonotone(low: Entry, high: Entry)
    requires low.name == high.name
    requires StateRank(low.report.state) <= StateRank(high.report.state)
    requires TagRank(low.report.freshnessTag) <= TagRank(high.report.freshnessTag)
    requires ContextRank(low.report.contextQuality) <= ContextRank(high.report.contextQuality)
    ensures TrustWeight(low) <= TrustWeight(high)
  {
  }

  lemma {:induction false} TallyNonNegative(heads: seq<Entry>, b: Bias)
    requires UnitConfidence(heads)
    ensures Tally(heads, b) >= 0.0
  {
    if heads != [] {
      var init, last := heads[..|heads| - 1], heads[|heads| - 1];
      assert last in heads;
      forall e | e in init ensures e in heads {}
      TallyNonNegative(init, b);
      VoteBounds(last);
    }
  }

  ghost predicate CarriesWeight(heads: seq<Entry>, b: Bias) {
    Tally(heads, b) > 0.0
  }

  ghost predicate OneDirectionOnly(heads: seq<Entry>) {
    exists b :: CarriesWeight(heads, b) && forall c: Bias :: c != b ==> !CarriesWeight(heads, c)
  }

  /** With any weight at all, quality lies in [1/3, 1]; it is 1 exactly when one direction carries all of it. */
  lemma QualityIsAShare(heads: seq<Entry>)
    requires UnitConfidence(heads)
    requires TotalTally(heads) > 0.0
    ensures 1.0 <= 3.0 * RawQuality(heads) <= 3.0
    ensures RawQuality(heads) == 1.0 <==> OneDirectionOnly(heads)
  {
    TallyNonNegative(heads, Bullish);
    TallyNonNegative(heads, Bearish);
    TallyNonNegative(heads, Neutral);
    var total, best := TotalTally(heads), Tally(heads, Dominant(heads));
    assert best <= total <= 3.0 * best;
    DivisionBounds(best, total);
    if best == total {
      assert CarriesWeight(heads, Dominant(heads));
      assert forall c: Bias :: c != Dominant(heads) ==> !CarriesWeight(heads, c);
    }
    if OneDirectionOnly(heads) {
      var b :| CarriesWeight(heads, b) && forall c: Bias :: c != b ==> !CarriesWeight(heads, c);
      assert !CarriesWeight(heads, Bullish) || b == Bullish;
      assert !CarriesWeight(heads, Bearish) || b == Bearish;
      assert !CarriesWeight(heads, Neutral) || b == Neutral;
    }
  }

  lemma ShareAtLeastThird(q: real, best: real, total: real)
    requires total > 0.0 && q * total == best && total <= 3.0 * best
    ensures 1.0 <= 3.0 * q
  {
  }

  lemma DivisionBounds(best: real, total: real)
    requires 0.0 < best <= total <= 3.0 * best
    ensures 1.0 <= 3.0 * (best / total)
    ensures best / total <= 1.0
    ensures best / total == 1.0 <==> best == total
  {
    ShareAtLeastThird(best / total, best, total);
    ProductOrder(best / total, 1.0, total);
  }

  lemma ProductOrder(x: real, y: real, z: real)
    requires z > 0.0
    ensures x <= y <==> x * z <= y * z
    ensures x == y <==> x * z == y * z
  {
  }

  /** The reported quality, rounded to four places, is a unit value for every dictionary of reports. */
  lemma ReportedQualityBounds(reports: seq<Entry>)
    requires UnitConfidence(reports)
    ensures 0.0 <= ConfluenceOf(reports).quality <= 1.0
  {
    var heads := Directional(reports);
    if TotalTally(heads) > 0.0 {
      QualityIsAShare(heads);
    }
    Round4Monotone(0.0, RawQuality(heads));
    Round4Monotone(RawQuality(heads), 1.0);
    assert (0.0 * 10000.0).Floor == 0;
    assert (1.0 * 10000.0).Floor == 10000;
  }

  // ----- Not simple democracy -----

  ghost predicate FiveNamed(heads: seq<Entry>) {
    forall e :: e in heads ==>
      e.name in {SmcHead, IctHead, TechnicalHead, OptionsHead, MacroHead}
  }

  /** What the heads named in `names` vote for `b`, together. */
  function GroupTally(heads: seq<Entry>, names: set<HeadName>, b: Bias): real {
    if heads == [] then 0.0
    else
      var last := heads[|heads| - 1];
      GroupTally(heads[..|heads| - 1], names, b) + (if last.name in names then Share(last, b) else 0.0)
  }

  /** A head's largest possible vote, or nothing once it is absent. */
  function Budget(names: set<HeadName>): real {
    (if TechnicalHead in names then 0.7 else 0.0)
    + (if OptionsHead in names then 0.6 else 0.0)
    + (if MacroHead in names then 0.4 else 0.0)
  }

  /** Everything but SMC and ICT can raise at most 0.7 + 0.6 + 0.4 for one direction. */
  lemma {:induction false} SupportBudget(heads: seq<Entry>, b: Bias, names: set<HeadName>)
    requires UnitConfidence(heads) && DistinctNames(heads)
    requires names <= {TechnicalHead, OptionsHead, MacroHead}
    requires forall e :: e in heads && !e.name.SmcHead? && !e.name.IctHead? ==> e.name in names
    ensures GroupTally(heads, {TechnicalHead, OptionsHead, MacroHead}, b) <= Budget(names)
  {
    if heads != [] {
      var init, last := heads[..|heads| - 1], heads[|heads| - 1];
      assert last in heads;
      forall e | e in init ensures e in heads && e.name != last.name {
        var i :| 0 <= i < |init| && init[i] == e;
        assert heads[i].name != heads[|heads| - 1].name;
      }
      VoteBounds(last);
      SupportBudget(init, b, names - {last.name});
    }
  }

  lemma {:induction false} TallySplits(heads: seq<Entry>, b: Bias)
    requires FiveNamed(heads)
    ensures Tally(heads, b)
         == GroupTally(heads, {SmcHead, IctHead}, b)
          + GroupTally(heads, {TechnicalHead, OptionsHead, MacroHead}, b)
  {
    if heads != [] {
      var init, last := heads[..|heads| - 1], heads[|heads| - 1];
      assert last in heads;
      forall e | e in init ensures e in heads {}
      TallySplits(init, b);
    }
  }

  lemma {:induction false} CoreAgreesOn(heads: seq<Entry>, b: Bias, c: Bias)
    requires UnitConfidence(heads)
    requires forall e :: e in heads && (e.name.SmcHead? || e.name.IctHead?) ==> e.report.bias == b
    requires c != b
    ensures GroupTally(heads, {SmcHead, IctHead}, c) == 0.0
  {
    if heads != [] {
      var init, last := heads[..|heads| - 1], heads[|heads| - 1];
      assert last in heads;
      forall e | e in init ensures e in heads {}
      CoreAgreesOn(init, b, c);
    }
  }

  lemma {:induction false} GroupTallyAtLeast(heads: seq<Entry>, names: set<HeadName>, b: Bias, i: nat)
    requires UnitConfidence(heads)
    requires i < |heads| && heads[i].name in names
    ensures GroupTally(heads, names, b) >= Share(heads[i], b)
  {
    var init, last := heads[..|heads| - 1], heads[|heads| - 1];
    assert last in heads;
    forall e | e in init ensures e in heads {}
    VoteBounds(last);
    if i < |init| {
      GroupTallyAtLeast(init, names, b, i);
    } else {
      GroupTallyNonNegative(init, names, b);
    }
  }

  lemma {:induction false} GroupTallyNonNegative(heads: seq<Entry>, names: set<HeadName>, b: Bias)
    requires UnitConfidence(heads)
    ensures GroupTally(heads, names, b) >= 0.0
  {
    if heads != [] {
      var init, last := heads[..|heads| - 1], heads[|heads| - 1];
      assert last in heads;
      forall e | e in init ensures e in heads {}
      GroupTallyNonNegative(init, names, b);
      VoteBounds(last);
    }
  }

  lemma {:induction false} TwoVotes(heads: seq<Entry>, names: set<HeadName>, b: Bias, i: nat, j: nat)
    requires UnitConfidence(heads)
    requires i < |heads| && j < |heads| && i != j
    requires heads[i].name in names && heads[j].name in names
    ensures GroupTally(heads, names, b) >= Share(heads[i], b) + Share(heads[j], b)
  {
    var init, last := heads[..|heads| - 1], heads[|heads| - 1];
    assert last in heads;
    forall e | e in init ensures e in heads {}
    VoteBounds(last);
    if i < |init| && j < |init| {
      TwoVotes(init, names, b, i, j);
    } else if i < |init| {
      GroupTallyAtLeast(init, names, b, i);
    } else {
      GroupTallyAtLeast(init, names, b, j);
    }
  }

  /**
   SMC and ICT decide once their joint vote exceeds 1.7, whatever the other three named heads say. At full
   trust and confidence 1 they bring 1.9.
  */
  lemma CoreHeadsDecide(heads: seq<Entry>, s: nat, t: nat)
    requires UnitConfidence(heads) && DistinctNames(heads) && FiveNamed(heads)
    requires s < |heads| && heads[s].name == SmcHead
    requires t < |heads| && heads[t].name == IctHead
    requires heads[s].report.bias == heads[t].report.bias
    requires Vote(heads[s]) + Vote(heads[t]) > 1.7
    ensures Dominant(heads) == heads[s].report.bias
  {
    var b := heads[s].report.bias;
    forall e | e in heads && (e.name.SmcHead? || e.name.IctHead?) ensures e.report.bias == b {
      var i :| 0 <= i < |heads| && heads[i] == e;
      assert i == s || i == t;
    }
    TwoVotes(heads, {SmcHead, IctHead}, b, s, t);
    GroupTallyNonNegative(heads, {TechnicalHead, OptionsHead, MacroHead}, b);
    TallySplits(heads, b);
    forall c: Bias | c != b ensures Tally(heads, c) <= 1.7 {
      CoreAgreesOn(heads, b, c);
      SupportBudget(heads, c, {TechnicalHead, OptionsHead, MacroHead});
      TallySplits(heads, c);
    }
  }

  predicate FullTrust(r: HeadReport) {
    r.state == Ready && r.freshnessTag == FreshTag && r.contextQuality.Some? && r.contextQuality.value >= 0.8
  }

  /** The case the roadmap names: full trust and confidence 1 on both core heads. */
  lemma FullTrustCoreHeadsDecide(heads: seq<Entry>, s: nat, t: nat)
    requires UnitConfidence(heads) && DistinctNames(heads) && FiveNamed(heads)
    requires s < |heads| && heads[s].name == SmcHead && FullTrust(heads[s].report)
    requires t < |heads| && heads[t].name == IctHead && FullTrust(heads[t].report)
    requires heads[s].report.confidence == 1.0 && heads[t].report.confidence == 1.0
    requires heads[s].report.bias == heads[t].report.bias
    ensures Dominant(heads) == heads[s].report.bias
  {
    CoreHeadsDecide(heads, s, t);
  }

  function FullTrustHead(name: HeadName, b: Bias, confidence: real): Entry {
    Entry(name, HeadReport(name, Ready, 1.0, FreshTag, b, confidence, None, None, [], Some(1.0),
                           false, 0.0, true, false, false, false))
  }

  lemma FullTrustVote(name: HeadName, b: Bias, confidence: real)
    ensures Vote(FullTrustHead(name, b, confidence)) == Priority(name) * confidence
  {
  }

  lemma TallyOfFive(h: seq<Entry>, b: Bias)
    requires |h| == 5
    ensures Tally(h, b) == Share(h[0], b) + Share(h[1], b) + Share(h[2], b) + Share(h[3], b) + Share(h[4], b)
  {
    assert h[..4][..3] == h[..3] && h[..3][..2] == h[..2] && h[..2][..1] == h[..1] && h[..1][..0] == [];
    assert Tally(h[..1], b) == Tally([], b) + Share(h[0], b);
    assert Tally(h[..2], b) == Tally(h[..1], b) + Share(h[1], b);
    assert Tally(h[..3], b) == Tally(h[..2], b) + Share(h[2], b);
    assert Tally(h[..4], b) == Tally(h[..3], b) + Share(h[3], b);
  }

  /** Two core heads against the three support heads, all at full trust. */
  function Standoff(): seq<Entry> {
    [FullTrustHead(SmcHead, Bearish, 1.0), FullTrustHead(IctHead, Bearish, 7.0 / 9.0),
     FullTrustHead(TechnicalHead, Bullish, 1.0), FullTrustHead(OptionsHead, Bullish, 1.0),
     FullTrustHead(MacroHead, Bullish, 1.0)]
  }

  /** 1.7 is the exact bar: at a joint vote of 1.7 the three support heads can still turn the direction. */
  lemma CoreThresholdIsTight()
    ensures var heads := Standoff();
            && UnitConfidence(heads) && DistinctNames(heads) && FiveNamed(heads)
            && Vote(heads[0]) + Vote(heads[1]) == 1.7
            && Dominant(heads) == Bullish
  {
    var heads := Standoff();
    FullTrustVote(SmcHead, Bearish, 1.0);
    FullTrustVote(IctHead, Bearish, 7.0 / 9.0);
    FullTrustVote(TechnicalHead, Bullish, 1.0);
    FullTrustVote(OptionsHead, Bullish, 1.0);
    FullTrustVote(MacroHead, Bullish, 1.0);
    hide Vote;
    TallyOfFive(heads, Bullish);
    TallyOfFive(heads, Bearish);
    TallyOfFive(heads, Neutral);
  }

  // ----- Dictionary order is irrelevant -----

  lemma {:induction false} TallyIsSum(heads: seq<Entry>, b: Bias, w: Entry -> real)
    requires forall e :: w(e) == Share(e, b)
    ensures Tally(heads, b) == SumBy(heads, w)
  {
    if heads != [] {
      TallyIsSum(heads[..|heads| - 1], b, w);
    }
  }

  lemma TallyPermutation(h: seq<Entry>, k: seq<Entry>, b: Bias)
    requires multiset(h) == multiset(k)
    ensures Tally(h, b) == Tally(k, b)
  {
    var w := (e: Entry) => Share(e, b);
    TallyIsSum(h, b, w);
    TallyIsSum(k, b, w);
    SumByPermutation(h, k, w);
  }

  lemma {:induction false} DirectionalCount(reports: seq<Entry>, e: Entry)
    ensures multiset(Directional(reports))[e] == if e.name.PsychologyHead? then 0 else multiset(reports)[e]
  {
    if reports != [] {
      var init, last := reports[..|reports| - 1], reports[|reports| - 1];
      assert reports == init + [last];
      DirectionalCount(init, e);
    }
  }

  lemma DirectionalPermutation(a: seq<Entry>, c: seq<Entry>)
    requires multiset(a) == multiset(c)
    ensures multiset(Directional(a)) == multiset(Directional(c))
    ensures |Directional(a)| == |Directional(c)|
  {
    var h, k := multiset(Directional(a)), multiset(Directional(c));
    forall e ensures h[e] == k[e] {
      DirectionalCount(a, e);
      DirectionalCount(c, e);
    }
    assert h == k;
    assert |Directional(a)| == |h| && |Directional(c)| == |k|;
  }

  lemma SameVerdict(h: seq<Entry>, k: seq<Entry>)
    requires multiset(h) == multiset(k)
    ensures Dominant(h) == Dominant(k)
    ensures RawQuality(h) == RawQuality(k)
  {
    TallyPermutation(h, k, Bullish);
    TallyPermutation(h, k, Bearish);
    TallyPermutation(h, k, Neutral);
  }

  lemma SameConflict(h: seq<Entry>, k: seq<Entry>, d: Bias, q: real)
    requires multiset(h) == multiset(k) && |h| == |k|
    ensures DetectConflict(h, d, q) == DetectConflict(k, d, q)
  {
    forall e ensures e in h <==> e in k {
      assert e in h <==> e in multiset(h);
      assert e in k <==> e in multiset(k);
    }
  }

  /** Direction, quality and conflict are the same for every order of the report dictionary. */
  lemma OrderIndependence(a: seq<Entry>, c: seq<Entry>)
    requires multiset(a) == multiset(c)
    ensures ConfluenceOf(a).dominant == ConfluenceOf(c).dominant
    ensures ConfluenceOf(a).quality == ConfluenceOf(c).quality
    ensures ConfluenceOf(a).conflict == ConfluenceOf(c).conflict
  {
    var h, k := Directional(a), Directional(c);
    DirectionalPermutation(a, c);
    SameVerdict(h, k);
    SameConflict(h, k, Dominant(h), RawQuality(h));
  }

  /** A conflict always has a bullish and a bearish directional head in it, and weak agreement. */
  lemma ConflictNeedsBothSides(reports: seq<Entry>)
    requires ConfluenceOf(reports).conflict
    ensures exists e, f ::
              && e in reports && f in reports
              && !e.name.PsychologyHead? && !f.name.PsychologyHead?
              && e.report.bias == Bullish && f.report.bias == Bearish
    ensures RawQuality(Directional(reports)) < 0.7
  {
  }
}
