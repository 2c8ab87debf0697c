/** Thesis reviews of the active trade and the rare interventions built on them
    (active_trade_supervisor.py, intervention_engine.py). */
module TradeSupervision {
  import opened SharedTypes
  import opened Confluence

  /** The part of a CaptainDecision that supervision reads. */
  datatype ActiveTrade = ActiveTrade(action: Direction, cls: TradeClass)

  datatype MarketStory = MarketStory(regime: Regime, bias: Bias)

  datatype Recommendation = ThesisIntact | MonitorClosely | PrepareExit | InterventionRequired

  datatype Concern = ZoneConcern | StoryConcern | MacroConcern | OptionsConcern | OppositeConcern

  datatype ThesisReview = ThesisReview(
    concerns: seq<Concern>,
    zoneValid: bool,
    optionsAlive: bool,
    macroShift: bool,
    storySupports: bool,
    oppositeStronger: bool,
    recommendation: Recommendation)

  datatype ReviewInput = ReviewInput(
    trade: Option<ActiveTrade>,
    story: Option<MarketStory>,
    price: real,
    zone: real,
    confluence: Option<ConfluenceResult>,
    originalDirection: Option<Bias>)

  // ----- The checks of a review -----

  function ZoneThreshold(cls: TradeClass): real {
    match cls
    case Scalp => 0.003
    case Reversal => 0.008
    case _ => 0.005
  }

  predicate ZoneStillValid(zone: real, price: real, cls: TradeClass)
    requires zone > 0.0
  {
    (if price >= zone then price - zone else zone - price) / zone <= ZoneThreshold(cls)
  }

  predicate HostileRegime(r: Regime) {
    r.Chop? || r.Unclear?
  }

  predicate StorySupports(action: Direction, story: MarketStory) {
    story.regime.NoRegime?
    || (!HostileRegime(story.regime)
        && !(action.Buy? && story.bias.Bearish?)
        && !(action.Sell? && story.bias.Bullish?))
  }

  function SideOf(d: Direction): Bias {
    if d.Buy? then Bullish else Bearish
  }

  predicate OppositeStronger(c: ConfluenceResult, original: Option<Bias>) {
    && !c.dominant.Neutral?
    && ((original == Some(Bullish) && c.dominant.Bearish?)
        || (original == Some(Bearish) && c.dominant.Bullish?)
        || c.quality < 0.3)
  }

  function CriticalCount(zoneValid: bool, oppositeStronger: bool, macroShift: bool): nat {
    (if zoneValid then 0 else 1) + (if oppositeStronger then 1 else 0) + (if macroShift then 1 else 0)
  }

  function Recommend(concerns: seq<Concern>, zoneValid: bool, oppositeStronger: bool,
                     macroShift: bool): Recommendation {
    if concerns == [] then ThesisIntact
    else if CriticalCount(zoneValid, oppositeStronger, macroShift) >= 2 then InterventionRequired
    else if !zoneValid || oppositeStronger then PrepareExit
    else MonitorClosely
  }

  function ConcernIf(raised: bool, c: Concern): seq<Concern> {
    if raised then [c] else []
  }

  function ReviewOf(at: Option<ActiveTrade>, x: ReviewInput): ThesisReview {
    var zoneValid := x.zone > 0.0 && x.price > 0.0 && at.Some? ==> ZoneStillValid(x.zone, x.price, at.value.cls);
    var supports := x.story.Some? && at.Some? ==> StorySupports(at.value.action, x.story.value);
    var macroShift := x.story.Some? && at.Some? && HostileRegime(x.story.value.regime);
    var alive := at.Some? && at.value.cls.OptionsPressure? ==> x.price > 0.0;
    var original := if x.originalDirection.Some? then x.originalDirection
                    else if at.Some? then Some(SideOf(at.value.action)) else None;
    var stronger := x.confluence.Some? && OppositeStronger(x.confluence.value, original);
    var concerns := ConcernIf(!zoneValid, ZoneConcern) + ConcernIf(!supports, StoryConcern)
                    + ConcernIf(macroShift, MacroConcern) + ConcernIf(!alive, OptionsConcern)
                    + ConcernIf(stronger, OppositeConcern);
    ThesisReview(concerns, zoneValid, alive, macroShift, supports, stronger,
                 Recommend(concerns, zoneValid, stronger, macroShift))
  }

  /** A review with its flags and concerns in step, as every review of `review_thesis` has them. */
  ghost predicate WellFormedReview(r: ThesisReview) {
    && (ZoneConcern in r.concerns <==> !r.zoneValid)
    && (MacroConcern in r.concerns <==> r.macroShift)
    && (OppositeConcern in r.concerns <==> r.oppositeStronger)
    && (r.macroShift ==> StoryConcern in r.concerns)
    && r.recommendation == Recommend(r.concerns, r.zoneValid, r.oppositeStronger, r.macroShift)
    && (r.macroShift ==> |r.concerns| >= 2 + (if r.zoneValid then 0 else 1) + (if r.oppositeStronger then 1 else 0))
  }

  lemma ReviewsAreWellFormed(at: Option<ActiveTrade>, x: ReviewInput)
    ensures WellFormedReview(ReviewOf(at, x))
  {
  }

  class ActiveTradeSupervisor {
    var activeTrade: Option<ActiveTrade>
    var reviews: seq<ThesisReview>

    ghost predicate Valid()
      reads this
    {
      forall i :: 0 <= i < |reviews| ==> WellFormedReview(reviews[i])
    }

    constructor ()
      ensures Valid() && activeTrade == None && reviews == []
    {
      activeTrade := None;
      reviews := [];
    }

    /** `active_trade or self._active_trade`: a review without a trade keeps the remembered one. */
    method ReviewThesis(x: ReviewInput) returns (review: ThesisReview)
      requires Valid()
      modifies this
      ensures Valid()
      ensures activeTrade == if x.trade.Some? then x.trade else old(activeTrade)
      ensures review == ReviewOf(activeTrade, x)
      ensures reviews == old(reviews) + [review]
    {
      hide ZoneStillValid, StorySupports, OppositeStronger, HostileRegime, Recommend, WellFormedReview;
      if x.trade.Some? {
        activeTrade := x.trade;
      }
      var at := activeTrade;
      var concerns: seq<Concern> := [];
      var zoneValid, alive, macroShift, supports, stronger := true, true, false, true, false;
      if x.zone > 0.0 && x.price > 0.0 && at.Some? {
        zoneValid := ZoneStillValid(x.zone, x.price, at.value.cls);
        if !zoneValid {
          concerns := concerns + [ZoneConcern];
        }
      }
      assert concerns == ConcernIf(!zoneValid, ZoneConcern);
      if x.story.Some? && at.Some? {
        supports := StorySupports(at.value.action, x.story.value);
        if !supports {
          concerns := concerns + [StoryConcern];
        }
        macroShift := HostileRegime(x.story.value.regime);
        if macroShift {
          concerns := concerns + [MacroConcern];
        }
      }
      ghost var soFar := concerns;
      assert soFar == ConcernIf(!zoneValid, ZoneConcern) + ConcernIf(!supports, StoryConcern)
                      + ConcernIf(macroShift, MacroConcern);
      if at.Some? && at.value.cls.OptionsPressure? {
        alive := x.price > 0.0;
        if !alive {
          concerns := concerns + [OptionsConcern];
        }
      }
      if x.confluence.Some? {
        var original := if x.originalDirection.Some? then x.originalDirection
                        else if at.Some? then Some(SideOf(at.value.action)) else None;
        stronger := OppositeStronger(x.confluence.value, original);
        if stronger {
          concerns := concerns + [OppositeConcern];
        }
      }
      assert concerns == soFar + ConcernIf(!alive, OptionsConcern) + ConcernIf(stronger, OppositeConcern);
      hide ConcernIf;
      review := ThesisReview(concerns, zoneValid, alive, macroShift, supports, stronger,
                             Recommend(concerns, zoneValid, stronger, macroShift));
      assert review == ReviewOf(at, x);
      ReviewsAreWellFormed(at, x);
      hide ReviewOf;
      reviews := reviews + [review];
    }

    /**
     Yes means that the intervention engine will intervene, whatever else it is told; no means that it will not give a
     broken thesis as its reason.
    */
    method ShouldIntervene() returns (b: bool)
      requires Valid()
      ensures b ==> forall x :: InterventionFor(LatestReview(reviews), x).Intervene?
                                && Rank(InterventionFor(LatestReview(reviews), x).severity) >= Rank(CautionSeverity)
      ensures !b ==> forall x :: InterventionFor(LatestReview(reviews), x).Intervene? ==>
                                   !InterventionFor(LatestReview(reviews), x).trigger.ThesisBreak?
      ensures b <==> reviews != [] && reviews[|reviews| - 1].recommendation.InterventionRequired?
    {
      b := reviews != [] && reviews[|reviews| - 1].recommendation.InterventionRequired?;
      hide InterventionFor, WellFormedReview, Rank;
      forall x | b
        ensures InterventionFor(LatestReview(reviews), x).Intervene?
        ensures Rank(InterventionFor(LatestReview(reviews), x).severity) >= Rank(CautionSeverity)
      {
        DemandIsMet(reviews[|reviews| - 1], x);
      }
      forall x | !b
        ensures InterventionFor(LatestReview(reviews), x).Intervene? ==>
                  !InterventionFor(LatestReview(reviews), x).trigger.ThesisBreak?
      {
        NoDemandNoThesisBreak(LatestReview(reviews), x);
      }
    }

    method ClearActiveTrade()
      requires Valid()
      modifies this
      ensures Valid() && activeTrade == None && reviews == old(reviews)
    {
      activeTrade := None;
    }

    method ClearSession()
      modifies this
      ensures Valid() && activeTrade == None && reviews == []
    {
      activeTrade := None;
      reviews := [];
    }
  }

  // ----- Interventions -----

  datatype Severity = NormalSeverity | CautionSeverity | EmergencyOverride

  datatype Scenario = ThesisBreak | RegimeFlip | StrongOpposite | OptionsCollapse | RiskEmergency

  datatype Action =
    | ReducePositionSize | ClosePosition | ExitHalfPosition | HedgePosition | ImmediateExit | LockInProfits
    | TightenStopLoss | MonitorOneCandle | AddProtection | WatchClosely | AlertOperator

  datatype Finding = Finding(scenario: Scenario, severity: Severity)

  datatype InterventionDecision = NoIntervention | Intervene(severity: Severity, action: Action, trigger: Scenario)

  datatype InterventionInput = InterventionInput(
    trade: Option<ActiveTrade>,
    regime: Regime,
    oppositeStrength: real,
    oiHealthy: bool,
    dataCritical: bool,
    riskEvent: bool)

  function Rank(s: Severity): nat {
    match s
    case NormalSeverity => 0
    case CautionSeverity => 1
    case EmergencyOverride => 2
  }

  function CheckThesisBreak(latest: Option<ThesisReview>): Option<Severity> {
    match latest
    case None => None
    case Some(r) =>
      var critical := CriticalCount(r.zoneValid, r.oppositeStronger, r.macroShift);
      if critical >= 2 && |r.concerns| >= 3 then
        Some(if critical >= 3 then EmergencyOverride else CautionSeverity)
      else None
  }

  /** RANGE counts as a flipped regime here, though a review does not call it hostile. */
  function CheckRegimeFlip(regime: Regime): Option<Severity> {
    if regime.Chop? || regime.Unclear? || regime.Range? then Some(CautionSeverity) else None
  }

  function CheckStrongOpposite(latest: Option<ThesisReview>, strength: real): Option<Severity> {
    match latest
    case None => None
    case Some(r) =>
      if r.oppositeStronger then Some(if strength >= 0.7 then EmergencyOverride else CautionSeverity)
      else if strength >= 0.7 then Some(CautionSeverity)
      else None
  }

  function CheckOptionsCollapse(trade: Option<ActiveTrade>, oiHealthy: bool): Option<Severity> {
    if trade.Some? && trade.value.cls.OptionsPressure? && !oiHealthy then Some(CautionSeverity) else None
  }

  function CheckRiskEmergency(dataCritical: bool, riskEvent: bool): Option<Severity> {
    if dataCritical || riskEvent then Some(EmergencyOverride) else None
  }

  function Found(s: Scenario, severity: Option<Severity>): seq<Finding> {
    if severity.Some? then [Finding(s, severity.value)] else []
  }

  function Findings(latest: Option<ThesisReview>, x: InterventionInput): seq<Finding> {
    Found(ThesisBreak, CheckThesisBreak(latest))
    + Found(RegimeFlip, CheckRegimeFlip(x.regime))
    + Found(StrongOpposite, CheckStrongOpposite(latest, x.oppositeStrength))
    + Found(OptionsCollapse, CheckOptionsCollapse(x.trade, x.oiHealthy))
    + Found(RiskEmergency, CheckRiskEmergency(x.dataCritical, x.riskEvent))
  }

  function Highest(fs: seq<Finding>): Severity {
    if fs == [] then NormalSeverity
    else
      var rest := Highest(fs[..|fs| - 1]);
      var last := fs[|fs| - 1].severity;
      if Rank(last) > Rank(rest) then last else rest
  }

  function ActionFor(trigger: Scenario, severity: Severity): Action {
    match (trigger, severity)
    case (ThesisBreak, NormalSeverity) => TightenStopLoss
    case (ThesisBreak, CautionSeverity) => ReducePositionSize
    case (RegimeFlip, NormalSeverity) => MonitorOneCandle
    case (RegimeFlip, CautionSeverity) => ExitHalfPosition
    case (StrongOpposite, NormalSeverity) => AddProtection
    case (StrongOpposite, CautionSeverity) => HedgePosition
    case (OptionsCollapse, NormalSeverity) => WatchClosely
    case (OptionsCollapse, CautionSeverity) => ReducePositionSize
    case (RiskEmergency, NormalSeverity) => AlertOperator
    case (RiskEmergency, CautionSeverity) => LockInProfits
    case (RiskEmergency, EmergencyOverride) => ImmediateExit
    case (_, EmergencyOverride) => ClosePosition
  }

  /** The first scenario names the trigger, the worst one sets the severity. */
  function InterventionFor(latest: Option<ThesisReview>, x: InterventionInput): InterventionDecision {
    var fs := Findings(latest, x);
    if fs == [] then NoIntervention
    else Intervene(Highest(fs), ActionFor(fs[0].scenario, Highest(fs)), fs[0].scenario)
  }

  function LatestReview(reviews: seq<ThesisReview>): Option<ThesisReview> {
    if reviews == [] then None else Some(reviews[|reviews| - 1])
  }

  function CountInterventions(h: seq<InterventionDecision>): nat {
    if h == [] then 0
    else CountInterventions(h[..|h| - 1]) + (if h[|h| - 1].Intervene? then 1 else 0)
  }

  lemma CountOneMore(h: seq<InterventionDecision>)
    requires h != []
    ensures CountInterventions(h)
            == CountInterventions(h[..|h| - 1]) + (if h[|h| - 1].Intervene? then 1 else 0)
  {
  }

  lemma HighestOfOne(fs: seq<Finding>)
    requires |fs| == 1
    ensures Highest(fs) == fs[0].severity
  {
  }

  class InterventionEngine {
    var history: seq<InterventionDecision>
    var interventionCount: nat

    ghost predicate Valid()
      reads this
    {
      interventionCount == CountInterventions(history)
    }

    constructor ()
      ensures Valid() && history == []
    {
      history := [];
      interventionCount := 0;
    }

    method EvaluateIntervention(supervisor: ActiveTradeSupervisor, x: InterventionInput)
      returns (d: InterventionDecision)
      requires Valid()
      modifies this
      ensures Valid() && history == old(history) + [d]
      ensures d == InterventionFor(LatestReview(supervisor.reviews), x)
    {
      hide Findings, ActionFor, Rank, CountInterventions;
      var latest := LatestReview(supervisor.reviews);
      var findings := Findings(latest, x);
      if findings == [] {
        d := NoIntervention;
      } else {
        var overall := findings[0].severity;
        HighestOfOne(findings[..1]);
        for i := 1 to |findings|
          invariant overall == Highest(findings[..i])
        {
          assert findings[..i + 1][..i] == findings[..i];
          if Rank(findings[i].severity) > Rank(overall) {
            overall := findings[i].severity;
          }
        }
        assert findings[..|findings|] == findings;
        d := Intervene(overall, ActionFor(findings[0].scenario, overall), findings[0].scenario);
        interventionCount := interventionCount + 1;
      }
      history := history + [d];
      CountOneMore(history);
    }

    method ClearSession()
      modifies this
      ensures Valid() && history == []
    {
      history := [];
      interventionCount := 0;
    }
  }

  // ----- Supervisor and intervention engine agree -----

  lemma {:induction false} HighestIsMaximum(fs: seq<Finding>, f: Finding)
    requires f in fs
    ensures Rank(Highest(fs)) >= Rank(f.severity)
    ensures exists g :: g in fs && g.severity == Highest(fs)
  {
    var n := |fs| - 1;
    assert fs == fs[..n] + [fs[n]];
    assert fs[n] in fs;
    if f in fs[..n] {
      HighestIsMaximum(fs[..n], f);
    } else if n > 0 {
      HighestIsMaximum(fs[..n], fs[0]);
    }
  }

  /**
   A review that demands intervention gets one, of at least CAUTION, whatever the engine's other arguments:
   an opposite case forces it through the confluence scenario, and a hostile regime with a broken zone
   always carries the third concern that the thesis-break scenario asks for.
  */
  lemma DemandedInterventionHappens(at: Option<ActiveTrade>, rx: ReviewInput, x: InterventionInput)
    requires ReviewOf(at, rx).recommendation.InterventionRequired?
    ensures var d := InterventionFor(Some(ReviewOf(at, rx)), x);
            d.Intervene? && Rank(d.severity) >= Rank(CautionSeverity)
  {
  }

  /**
   The thesis-break trigger and the review's recommendation: the trigger implies the recommendation, and the
   recommendation gives the trigger except when the zone is broken and the opposite case is stronger with
   nothing else wrong.
  */
  lemma ThesisBreakMeansRequired(at: Option<ActiveTrade>, rx: ReviewInput, x: InterventionInput)
    ensures var r := ReviewOf(at, rx);
            var d := InterventionFor(Some(r), x);
            (d.Intervene? && d.trigger.ThesisBreak?)
            <==> (r.recommendation.InterventionRequired? && r.concerns != [ZoneConcern, OppositeConcern])
  {
  }

  lemma DemandIsMet(r: ThesisReview, x: InterventionInput)
    requires WellFormedReview(r) && r.recommendation.InterventionRequired?
    ensures var d := InterventionFor(Some(r), x); d.Intervene? && Rank(d.severity) >= Rank(CautionSeverity)
  {
    var scenario := if r.oppositeStronger then StrongOpposite else ThesisBreak;
    var severity := if r.oppositeStronger then CheckStrongOpposite(Some(r), x.oppositeStrength)
      else CheckThesisBreak(Some(r));
    assert severity.Some?;
    var f := Finding(scenario, severity.value);
    assert f in Findings(Some(r), x);
    HighestIsMaximum(Findings(Some(r), x), f);
  }

  lemma NoDemandNoThesisBreak(latest: Option<ThesisReview>, x: InterventionInput)
    requires latest.Some? ==> WellFormedReview(latest.value) && !latest.value.recommendation.InterventionRequired?
    ensures var d := InterventionFor(latest, x); d.Intervene? ==> !d.trigger.ThesisBreak?
  {
    assert CheckThesisBreak(latest) == None;
  }

  /** Without any review only the arguments of the tick can raise an intervention. */
  lemma WithoutReviews(x: InterventionInput)
    ensures InterventionFor(None, x).Intervene?
            <==> x.regime in {Chop, Unclear, Range} || x.dataCritical || x.riskEvent
                 || (x.trade.Some? && x.trade.value.cls.OptionsPressure? && !x.oiHealthy)
  {
  }

  // ----- What a review finds, case by case -----

  /** How far from its zone a class lets the price go, in thousandths of the zone. */
  function Leeway(cls: TradeClass): real {
    if cls.Scalp? then 3.0 else if cls.Reversal? then 8.0 else 5.0
  }

  lemma ZoneValidIff(zone: real, price: real, cls: TradeClass)
    requires zone > 0.0
    ensures ZoneStillValid(zone, price, cls) <==>
            (1000.0 - Leeway(cls)) * zone <= 1000.0 * price <= (1000.0 + Leeway(cls)) * zone
  {
    var distance := if price >= zone then price - zone else zone - price;
    ShareOf(distance, zone, ZoneThreshold(cls));
  }

  lemma ShareOf(distance: real, zone: real, most: real)
    requires zone > 0.0
    ensures distance / zone <= most <==> distance <= most * zone
  {
  }

  ghost predicate AgainstTrade(d: Direction, b: Bias) {
    (d.Buy? && b.Bearish?) || (d.Sell? && b.Bullish?)
  }

  /** The flags of a review of a trade, from its price, story and confluence. */
  lemma ReviewFlags(trade: ActiveTrade, x: ReviewInput)
    ensures var r := ReviewOf(Some(trade), x);
            && (!r.zoneValid <==>
                  && x.zone > 0.0 && x.price > 0.0
                  && !((1000.0 - Leeway(trade.cls)) * x.zone <= 1000.0 * x.price
                       && 1000.0 * x.price <= (1000.0 + Leeway(trade.cls)) * x.zone))
            && (!r.storySupports <==>
                  && x.story.Some? && !x.story.value.regime.NoRegime?
                  && (x.story.value.regime in {Chop, Unclear} || AgainstTrade(trade.action, x.story.value.bias)))
            && (r.macroShift <==> x.story.Some? && x.story.value.regime in {Chop, Unclear})
            && (!r.optionsAlive <==> trade.cls.OptionsPressure? && x.price <= 0.0)
  {
    if x.zone > 0.0 {
      ZoneValidIff(x.zone, x.price, trade.cls);
    }
    hide ZoneStillValid, Recommend, OppositeStronger, Leeway;
  }

  /** A confluence without a direction is never stronger; one that has turned is, and so is any under 0.3. */
  lemma OppositeStrongerIff(trade: ActiveTrade, x: ReviewInput)
    ensures var original := Or(x.originalDirection, if trade.action.Buy? then Bullish else Bearish);
            ReviewOf(Some(trade), x).oppositeStronger <==>
            && x.confluence.Some? && !x.confluence.value.dominant.Neutral?
            && (x.confluence.value.quality < 0.3 || x.confluence.value.dominant == Turned(original))
  {
    hide ZoneStillValid, Recommend, StorySupports;
  }

  function Turned(b: Bias): Bias {
    match b
    case Bullish => Bearish
    case Bearish => Bullish
    case Neutral => Neutral
  }

  /** Without a trade only the confluence can raise a concern. */
  lemma ReviewWithoutTrade(x: ReviewInput)
    ensures var r := ReviewOf(None, x);
            && r.zoneValid && r.storySupports && !r.macroShift && r.optionsAlive
            && (r.recommendation == ThesisIntact <==> !r.oppositeStronger)
  {
  }

  /** Two of zone, opposite case and regime demand an intervention; one of the first two prepares the exit. */
  lemma RecommendationCases(at: Option<ActiveTrade>, x: ReviewInput)
    ensures var r := ReviewOf(at, x);
            var broken, turned, hostile := !r.zoneValid, r.oppositeStronger, r.macroShift;
            && (r.recommendation == InterventionRequired <==>
                  (broken && turned) || (broken && hostile) || (turned && hostile))
            && (r.recommendation == PrepareExit <==> !hostile && broken != turned)
            && (r.recommendation == ThesisIntact <==> !broken && !turned && r.storySupports && r.optionsAlive)
  {
    hide ZoneStillValid, OppositeStronger, StorySupports;
    ReviewsAreWellFormed(at, x);
  }

  // ----- What the intervention engine decides, case by case -----

  ghost predicate ThesisBroken(latest: Option<ThesisReview>) {
    && latest.Some? && |latest.value.concerns| >= 3
    && CriticalCount(latest.value.zoneValid, latest.value.oppositeStronger, latest.value.macroShift) >= 2
  }

  ghost predicate OppositeIsStrong(latest: Option<ThesisReview>, strength: real) {
    latest.Some? && (latest.value.oppositeStronger || strength >= 0.7)
  }

  ghost predicate OptionsCollapsed(x: InterventionInput) {
    x.trade.Some? && x.trade.value.cls.OptionsPressure? && !x.oiHealthy
  }

  /** The trigger is the first of five scenarios that holds, and without any there is no intervention. */
  lemma TriggerCases(latest: Option<ThesisReview>, x: InterventionInput)
    ensures var d := InterventionFor(latest, x);
            var broken, flipped := ThesisBroken(latest), x.regime in {Chop, Unclear, Range};
            var strong, collapsed := OppositeIsStrong(latest, x.oppositeStrength), OptionsCollapsed(x);
            var emergency := x.dataCritical || x.riskEvent;
            && (d.Intervene? <==> broken || flipped || strong || collapsed || emergency)
            && (d.Intervene? && d.trigger == ThesisBreak <==> broken)
            && (d.Intervene? && d.trigger == RegimeFlip <==> !broken && flipped)
            && (d.Intervene? && d.trigger == StrongOpposite <==> !broken && !flipped && strong)
            && (d.Intervene? && d.trigger == OptionsCollapse <==> !broken && !flipped && !strong && collapsed)
            && (d.Intervene? && d.trigger == RiskEmergency <==>
                  !broken && !flipped && !strong && !collapsed && emergency)
  {
    hide Highest, ActionFor;
  }

  lemma FindingsAreExact(latest: Option<ThesisReview>, x: InterventionInput)
    ensures forall f :: f in Findings(latest, x) <==>
              || (f.scenario.ThesisBreak? && CheckThesisBreak(latest) == Some(f.severity))
              || (f.scenario.RegimeFlip? && CheckRegimeFlip(x.regime) == Some(f.severity))
              || (f.scenario.StrongOpposite? && CheckStrongOpposite(latest, x.oppositeStrength) == Some(f.severity))
              || (f.scenario.OptionsCollapse? && CheckOptionsCollapse(x.trade, x.oiHealthy) == Some(f.severity))
              || (f.scenario.RiskEmergency? && CheckRiskEmergency(x.dataCritical, x.riskEvent) == Some(f.severity))
  {
    hide CheckThesisBreak, CheckRegimeFlip, CheckStrongOpposite, CheckOptionsCollapse, CheckRiskEmergency;
  }

  /**
   Every intervention is a CAUTION or an EMERGENCY_OVERRIDE, the latter exactly for critical data, a risk event, a
   thesis broken three times over, or a stronger opposite case of at least 0.7.
  */
  lemma SeverityCases(latest: Option<ThesisReview>, x: InterventionInput)
    ensures var d := InterventionFor(latest, x);
            d.Intervene? ==>
              && d.severity != NormalSeverity
              && (d.severity == EmergencyOverride <==>
                    || x.dataCritical || x.riskEvent
                    || (latest.Some? && latest.value.oppositeStronger && x.oppositeStrength >= 0.7)
                    || (&& latest.Some? && |latest.value.concerns| >= 3 && !latest.value.zoneValid
                        && latest.value.oppositeStronger && latest.value.macroShift))
  {
    var fs := Findings(latest, x);
    FindingsAreExact(latest, x);
    if fs != [] {
      forall f | f in fs ensures Rank(Highest(fs)) >= Rank(f.severity) {
        HighestIsMaximum(fs, f);
      }
      assert fs[0] in fs;
      HighestIsMaximum(fs, fs[0]);
      var g :| g in fs && g.severity == Highest(fs);
      hide Findings, Highest;
      if x.dataCritical || x.riskEvent {
        assert Finding(RiskEmergency, EmergencyOverride) in fs;
      }
      if latest.Some? && latest.value.oppositeStronger && x.oppositeStrength >= 0.7 {
        assert Finding(StrongOpposite, EmergencyOverride) in fs;
      }
      if latest.Some? && |latest.value.concerns| >= 3 && !latest.value.zoneValid
         && latest.value.oppositeStronger && latest.value.macroShift {
        assert Finding(ThesisBreak, EmergencyOverride) in fs;
      }
    }
  }

  /**
   What an intervention does. The five actions for NORMAL severity and LOCK_IN_PROFITS are never taken: no scenario
   finds NORMAL, and a risk emergency is never a mere CAUTION.
  */
  lemma ActionCases(latest: Option<ThesisReview>, x: InterventionInput)
    ensures var d := InterventionFor(latest, x);
            d.Intervene? ==>
              d.action == if d.severity == EmergencyOverride
                          then (if d.trigger == RiskEmergency then ImmediateExit else ClosePosition)
                          else match d.trigger
                            case RegimeFlip => ExitHalfPosition
                            case StrongOpposite => HedgePosition
                            case _ => ReducePositionSize
    ensures var d := InterventionFor(latest, x);
            d.Intervene? ==> d.action !in {TightenStopLoss, MonitorOneCandle, AddProtection, WatchClosely,
                                           AlertOperator,
                                           LockInProfits}
  {
    SeverityCases(latest, x);
    TriggerCases(latest, x);
    hide Findings, Highest, ThesisBroken, OppositeIsStrong, OptionsCollapsed;
  }
}
