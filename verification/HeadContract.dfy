/**
 The locked report contract (head_report_schema.py) against the heads that have to meet it: how a head turns an
 interpretation into a report (head_base.py), and why the reports of the four rule-bound heads pass.
*/
module HeadContract {
  import opened SharedTypes
  import opened Numerics
  import opened HeadTypes
  import SmcInterpretation
  import IctInterpretation
  import MacroInterpretation
  import Psychology

  // ----- The validator -----

  datatype ReportField =
    | HeadNameField | InvalidationField | ContextQualityField | PrimarySetupField | BackupSetupField
    | FreshnessField | ConfidenceField

  datatype ValidationResult = ValidationResult(valid: bool, failures: seq<ReportField>)

  predicate InUnit(x: real) {
    0.0 <= x <= 1.0
  }

  predicate NeedsQuality(name: HeadName) {
    name == SmcHead || name == IctHead
  }

  predicate LockedFromSetups(name: HeadName) {
    name == MacroHead || name == PsychologyHead
  }

  /** The four locked rules and the ranges, as one statement about a report. */
  ghost predicate MeetsContract(r: HeadReport) {
    && !r.headName.OtherHead?
    && r.invalidation != []
    && (NeedsQuality(r.headName) ==> r.contextQuality.Some? && InUnit(r.contextQuality.value))
    && (LockedFromSetups(r.headName) ==> r.primarySetup == None && r.backupSetup == None)
    && InUnit(r.freshnessScore)
    && InUnit(r.confidence)
  }

  /** Which fields break the contract; an unknown head hides everything else. */
  ghost predicate Breaks(r: HeadReport, f: ReportField) {
    match f
    case HeadNameField => r.headName.OtherHead?
    case InvalidationField => !r.headName.OtherHead? && r.invalidation == []
    case ContextQualityField =>
      NeedsQuality(r.headName) && (r.contextQuality == None || !InUnit(r.contextQuality.value))
    case PrimarySetupField => LockedFromSetups(r.headName) && r.primarySetup != None
    case BackupSetupField => LockedFromSetups(r.headName) && r.backupSetup != None
    case FreshnessField => !r.headName.OtherHead? && !InUnit(r.freshnessScore)
    case ConfidenceField => !r.headName.OtherHead? && !InUnit(r.confidence)
  }

  function FailIf(fails: bool, f: ReportField): seq<ReportField> {
    if fails then [f] else []
  }

  /** The failures after the head's name was recognised, in the order they are found. */
  function SetupFailures(r: HeadReport): seq<ReportField> {
    FailIf(r.invalidation == [], InvalidationField)
    + FailIf(NeedsQuality(r.headName) && (r.contextQuality == None || !InUnit(r.contextQuality.value)),
             ContextQualityField)
    + FailIf(LockedFromSetups(r.headName) && r.primarySetup != None, PrimarySetupField)
    + FailIf(LockedFromSetups(r.headName) && r.backupSetup != None, BackupSetupField)
  }

  function RangeFailures(r: HeadReport): seq<ReportField> {
    FailIf(!InUnit(r.freshnessScore), FreshnessField) + FailIf(!InUnit(r.confidence), ConfidenceField)
  }

  function Failures(r: HeadReport): seq<ReportField> {
    if r.headName.OtherHead? then [HeadNameField] else SetupFailures(r) + RangeFailures(r)
  }

  method ValidateSetups(r: HeadReport) returns (failures: seq<ReportField>)
    requires !r.headName.OtherHead?
    ensures failures == SetupFailures(r)
  {
    failures := [];
    if r.invalidation == [] {
      failures := failures + [InvalidationField];
    }
    if NeedsQuality(r.headName) {
      if r.contextQuality == None {
        failures := failures + [ContextQualityField];
      } else if !InUnit(r.contextQuality.value) {
        failures := failures + [ContextQualityField];
      }
    }
    if LockedFromSetups(r.headName) {
      if r.primarySetup != None {
        failures := failures + [PrimarySetupField];
      }
      if r.backupSetup != None {
        failures := failures + [BackupSetupField];
      }
    }
  }

  method Validate(r: HeadReport) returns (result: ValidationResult)
    ensures result.valid <==> MeetsContract(r)
    ensures forall f :: f in result.failures <==> Breaks(r, f)
    ensures result.failures == Failures(r)
  {
    FailuresAreExact(r);
    hide MeetsContract, Breaks, SetupFailures;
    if r.headName.OtherHead? {
      return ValidationResult(false, [HeadNameField]);
    }
    var failures := ValidateSetups(r);
    if !InUnit(r.freshnessScore) {
      failures := failures + [FreshnessField];
    }
    if !InUnit(r.confidence) {
      failures := failures + [ConfidenceField];
    }
    result := ValidationResult(failures == [], failures);
  }

  lemma FailIfExact(fails: bool, f: ReportField)
    ensures forall g :: g in FailIf(fails, f) <==> fails && g == f
    ensures FailIf(fails, f) == [] <==> !fails
  {
  }

  lemma SetupFailuresAreExact(r: HeadReport)
    requires !r.headName.OtherHead?
    ensures forall f :: f in SetupFailures(r) <==>
              !f.HeadNameField? && !f.FreshnessField? && !f.ConfidenceField? && Breaks(r, f)
  {
  }

  /** The failures name exactly the fields that break the contract, and there is none exactly if it is met. */
  lemma FailuresAreExact(r: HeadReport)
    ensures forall f :: f in Failures(r) <==> Breaks(r, f)
    ensures Failures(r) == [] <==> MeetsContract(r)
  {
    if !r.headName.OtherHead? {
      SetupFailuresAreExact(r);
      FailIfExact(!InUnit(r.freshnessScore), FreshnessField);
      FailIfExact(!InUnit(r.confidence), ConfidenceField);
      hide FailIf, InUnit, SetupFailures, NeedsQuality, LockedFromSetups;
      NoneBreaksIff(r);
      hide Breaks;
      if f :| Breaks(r, f) {
        assert f in Failures(r);
      }
      if Failures(r) != [] {
        assert Failures(r)[0] in Failures(r);
      }
    }
  }

  lemma NoneBreaksIff(r: HeadReport)
    requires !r.headName.OtherHead?
    ensures MeetsContract(r) <==> !exists f :: Breaks(r, f)
  {
    hide InUnit, NeedsQuality, LockedFromSetups;
    if !exists f :: Breaks(r, f) {
      assert !Breaks(r, InvalidationField) && !Breaks(r, ContextQualityField) && !Breaks(r, PrimarySetupField);
      assert !Breaks(r, BackupSetupField) && !Breaks(r, FreshnessField) && !Breaks(r, ConfidenceField);
    }
  }

  // ----- From interpretation to report -----

  function Elapsed(last: Option<real>, now: real): Option<real> {
    if last.Some? then Some(now - last.value) else None
  }

  /** A head that was never updated is stale. */
  function ReportOf(name: HeadName, i: Interpretation, last: Option<real>, now: real): HeadReport {
    var elapsed := Elapsed(last, now);
    var tag := if elapsed.Some? then FreshnessTagOf(elapsed.value) else StaleTag;
    HeadReport(
      name,
      if tag == StaleTag then Stale else if i.confidence < 0.3 then Uncertain else Ready,
      if elapsed.Some? then FreshnessScore(elapsed.value) else 0.0,
      tag,
      i.bias, i.confidence, i.primarySetup, i.backupSetup, i.rules, i.contextQuality,
      i.eventRisk, i.cautionLevel, i.tradeAllowed, i.cooldownActive, i.repeatedMistake, i.trapPressure)
  }

  lemma ReportKeepsReading(name: HeadName, i: Interpretation, last: Option<real>, now: real)
    ensures var r := ReportOf(name, i, last, now);
            r.primarySetup == i.primarySetup && r.bias == i.bias && r.confidence == i.confidence
  {
  }

  function PsychologyReading(m: Psychology.PsychologyMemory, count: nat, freshness: real): Interpretation {
    Interpretation(
      Psychology.BrakeBias(m),
      ComputeConfidence(Psychology.PsychologyBaseConfidence(m, count > 0), freshness, 0.5,
                        MinR(1.0, count as real / 5.0)),
      None, None, Psychology.PsychologyRules(m), None,
      false, Psychology.CautionLevel(m), Psychology.TradeAllowed(m), m.cooldownActive, m.repeatedMistake,
      m.trapPressure)
  }

  /** What one head is given at a refresh; the Psychology Head is given its memory as the signals left it. */
  datatype HeadInput =
    | SmcSignals(smc: seq<SmcInterpretation.SmcSignal>)
    | IctSignals(ict: seq<IctInterpretation.IctSignal>)
    | MacroSignals(macro: seq<MacroInterpretation.MacroSignal>)
    | PsychologySignals(memory: Psychology.PsychologyMemory, count: nat)

  function NameOf(input: HeadInput): HeadName {
    match input
    case SmcSignals(_) => SmcHead
    case IctSignals(_) => IctHead
    case MacroSignals(_) => MacroHead
    case PsychologySignals(_, _) => PsychologyHead
  }

  function ReadingOf(input: HeadInput, freshness: real): Interpretation {
    match input
    case SmcSignals(signals) => SmcInterpretation.Reading(signals, freshness)
    case IctSignals(signals) => IctInterpretation.Reading(signals, freshness)
    case MacroSignals(signals) => MacroInterpretation.Reading(signals, freshness)
    case PsychologySignals(memory, count) => PsychologyReading(memory, count, freshness)
  }

  function RefreshReport(input: HeadInput, last: Option<real>, now: real): HeadReport {
    ReportOf(NameOf(input), ReadingOf(input, ApproxFreshness(Elapsed(last, now))), last, now)
  }

  class DepartmentHead {
    const name: HeadName
    var lastDeepUpdate: Option<real>
    var lastRefreshTime: Option<real>
    var lastPrimarySetup: Option<string>
    var lastBias: Bias
    var lastConfidence: real

    constructor (name: HeadName)
      ensures this.name == name && lastDeepUpdate == lastRefreshTime == None
      ensures lastPrimarySetup == Some("") && lastBias == Neutral && lastConfidence == 0.0
    {
      this.name := name;
      lastDeepUpdate, lastRefreshTime := None, None;
      lastPrimarySetup, lastBias, lastConfidence := Some(""), Neutral, 0.0;
    }

    /** The report speaks of the previous update; the update time and the memory move only afterwards. */
    method Refresh(input: HeadInput, now: real) returns (report: HeadReport)
      requires name == NameOf(input)
      modifies this
      ensures report == RefreshReport(input, old(lastDeepUpdate), now)
      ensures lastDeepUpdate == lastRefreshTime == Some(now)
      ensures lastPrimarySetup == report.primarySetup && lastBias == report.bias && lastConfidence == report.confidence
    {
      hide SmcInterpretation.Reading, IctInterpretation.Reading, MacroInterpretation.Reading, PsychologyReading,
        ReportOf, ApproxFreshness;
      var elapsed := Elapsed(lastDeepUpdate, now);
      var freshness := ApproxFreshness(elapsed);
      var i: Interpretation;
      match input {
        case SmcSignals(signals) => i := SmcInterpretation.Interpret(signals, freshness);
        case IctSignals(signals) => i := IctInterpretation.Interpret(signals, freshness);
        case MacroSignals(signals) => i := MacroInterpretation.Interpret(signals, freshness);
        case PsychologySignals(memory, count) => i := PsychologyReading(memory, count, freshness);
      }
      report := ReportOf(name, i, lastDeepUpdate, now);
      assert report.primarySetup == i.primarySetup && report.bias == i.bias && report.confidence == i.confidence by {
        ReportKeepsReading(name, i, lastDeepUpdate, now);
      }
      lastRefreshTime := Some(now);
      lastPrimarySetup, lastBias, lastConfidence := i.primarySetup, i.bias, i.confidence;
      lastDeepUpdate := Some(now);
    }
  }

  // ----- When a report passes -----

  /** The only thing a head's input can get wrong: an ICT delivery score below what the other evidence covers. */
  predicate QualityStaysPositive(input: HeadInput) {
    input.IctSignals? && input.ict != [] ==>
      var e := IctInterpretation.EvidenceOf(input.ict);
      e.DeliveryScore() >= IctInterpretation.DeliveryFloor(e)
  }

  predicate ClockMovedForward(last: Option<real>, now: real) {
    last.Some? ==> last.value <= now
  }

  ghost predicate GoodReading(name: HeadName, i: Interpretation) {
    && i.rules != []
    && InUnit(i.confidence)
    && (NeedsQuality(name) ==> i.contextQuality.Some?)
    && (LockedFromSetups(name) ==> i.primarySetup == None && i.backupSetup == None)
  }

  lemma SmcReadingIsGood(signals: seq<SmcInterpretation.SmcSignal>, freshness: real)
    ensures var i := SmcInterpretation.Reading(signals, freshness);
            GoodReading(SmcHead, i) && InUnit(i.contextQuality.value)
  {
    var e := SmcInterpretation.EvidenceOf(signals);
    SmcInterpretation.QualityInUnit(e);
    hide SmcInterpretation.EvidenceOf, SmcInterpretation.PrimarySetup, SmcInterpretation.BackupSetup,
      SmcInterpretation.ContextQuality, SmcInterpretation.BaseConfidence, SmcInterpretation.SmcRules, ComputeConfidence;
  }

  lemma IctReadingIsGood(signals: seq<IctInterpretation.IctSignal>, freshness: real)
    ensures var i := IctInterpretation.Reading(signals, freshness);
            GoodReading(IctHead, i) && (InUnit(i.contextQuality.value) <==> QualityStaysPositive(IctSignals(signals)))
  {
    var e := IctInterpretation.EvidenceOf(signals);
    IctInterpretation.QualityInUnitIff(e);
    hide IctInterpretation.EvidenceOf, IctInterpretation.PrimarySetup, IctInterpretation.BackupSetup,
      IctInterpretation.ContextQuality, IctInterpretation.DeliveryFloor, IctInterpretation.BaseConfidence,
      IctInterpretation.IctRules, ComputeConfidence;
  }

  lemma MacroReadingIsGood(signals: seq<MacroInterpretation.MacroSignal>, freshness: real)
    ensures GoodReading(MacroHead, MacroInterpretation.Reading(signals, freshness))
  {
    hide MacroInterpretation.HeardAll, MacroInterpretation.Caution, MacroInterpretation.BaseConfidence,
      MacroInterpretation.MacroRules, MacroInterpretation.MacroBias, ComputeConfidence;
  }

  lemma PsychologyReadingIsGood(memory: Psychology.PsychologyMemory, count: nat, freshness: real)
    ensures GoodReading(PsychologyHead, PsychologyReading(memory, count, freshness))
  {
  }

  lemma ReadingsAreGood(input: HeadInput, freshness: real)
    ensures GoodReading(NameOf(input), ReadingOf(input, freshness))
    ensures NeedsQuality(NameOf(input)) ==>
              (InUnit(ReadingOf(input, freshness).contextQuality.value) <==> QualityStaysPositive(input))
  {
    hide SmcInterpretation.Reading, IctInterpretation.Reading, MacroInterpretation.Reading, PsychologyReading;
    match input {
      case SmcSignals(signals) => SmcReadingIsGood(signals, freshness);
      case IctSignals(signals) => IctReadingIsGood(signals, freshness);
      case MacroSignals(signals) => MacroReadingIsGood(signals, freshness);
      case PsychologySignals(memory, count) => PsychologyReadingIsGood(memory, count, freshness);
    }
  }

  lemma FreshnessPassesIff(last: Option<real>, now: real)
    ensures var elapsed := Elapsed(last, now);
            InUnit(if elapsed.Some? then FreshnessScore(elapsed.value) else 0.0) <==> ClockMovedForward(last, now)
  {
  }

  lemma QualityOnlyOfIct(input: HeadInput)
    ensures !input.IctSignals? ==> QualityStaysPositive(input)
  {
  }

  /**
   A report of the SMC, ICT, Macro or Psychology Head meets the contract exactly if the clock did not run backwards
   since the last update and the delivery score leaves the ICT quality non-negative.
  */
  lemma ReportPassesIff(input: HeadInput, last: Option<real>, now: real)
    ensures MeetsContract(RefreshReport(input, last, now)) <==>
            ClockMovedForward(last, now) && QualityStaysPositive(input)
  {
    ReadingsAreGood(input, ApproxFreshness(Elapsed(last, now)));
    FreshnessPassesIff(last, now);
    QualityOnlyOfIct(input);
    hide ReadingOf, FreshnessScore, FreshnessTagOf, QualityStaysPositive, ClockMovedForward, InUnit;
  }

  /** A delivery score in [0, 1], as Floor 3 promises it, is enough for the ICT quality. */
  lemma DeliveryScoreSuffices(signals: seq<IctInterpretation.IctSignal>)
    requires forall i :: 0 <= i < |signals| && signals[i].DeliveryContext? ==> signals[i].score >= 0.0
    ensures QualityStaysPositive(IctSignals(signals))
  {
    DeliveryIsLatest(signals);
    IctInterpretation.QualityInUnitIff(IctInterpretation.EvidenceOf(signals));
  }

  lemma {:induction false} DeliveryIsLatest(signals: seq<IctInterpretation.IctSignal>)
    requires forall i :: 0 <= i < |signals| && signals[i].DeliveryContext? ==> signals[i].score >= 0.0
    ensures IctInterpretation.EvidenceOf(signals).DeliveryScore() >= 0.0
  {
    var want := (s: IctInterpretation.IctSignal) => s.DeliveryContext?;
    LatestIsAmong(signals, want);
    var latest := IctInterpretation.EvidenceOf(signals).delivery;
    assert latest == IctInterpretation.LastOf(signals, want);
  }

  lemma {:induction false} LatestIsAmong(signals: seq<IctInterpretation.IctSignal>,
                                         want: IctInterpretation.IctSignal -> bool)
    ensures var r := IctInterpretation.LastOf(signals, want); r.Some? ==> r.value in signals && want(r.value)
    ensures IctInterpretation.LastOf(signals, want) == None ==> forall s :: s in signals ==> !want(s)
  {
    if signals != [] {
      var n := |signals| - 1;
      LatestIsAmong(signals[..n], want);
      assert signals == signals[..n] + [signals[n]];
    }
  }

  // ----- Whole runs of one head -----

  datatype HeadVisit = HeadVisit(input: HeadInput, now: real)

  function LastUpdate(visits: seq<HeadVisit>): Option<real> {
    if visits == [] then None else Some(visits[|visits| - 1].now)
  }

  /** The report of visit `k`, which speaks of the update of visit `k - 1`. */
  function ReportAt(visits: seq<HeadVisit>, k: nat): HeadReport
    requires k < |visits|
  {
    RefreshReport(visits[k].input, LastUpdate(visits[..k]), visits[k].now)
  }

  ghost predicate NeverBackwards(visits: seq<HeadVisit>) {
    forall i, j :: 0 <= i < j < |visits| ==> visits[i].now <= visits[j].now
  }

  ghost predicate AllPass(visits: seq<HeadVisit>) {
    forall k :: 0 <= k < |visits| ==> MeetsContract(ReportAt(visits, k))
  }

  ghost predicate GoodVisit(visits: seq<HeadVisit>, k: nat)
    requires k < |visits|
  {
    (k > 0 ==> visits[k - 1].now <= visits[k].now) && QualityStaysPositive(visits[k].input)
  }

  lemma ReportAtPassesIff(visits: seq<HeadVisit>, k: nat)
    requires k < |visits|
    ensures MeetsContract(ReportAt(visits, k)) <==> GoodVisit(visits, k)
  {
    hide MeetsContract, QualityStaysPositive, RefreshReport;
    ReportPassesIff(visits[k].input, LastUpdate(visits[..k]), visits[k].now);
  }

  lemma AllPassStepwise(visits: seq<HeadVisit>)
    ensures AllPass(visits) <==> forall k :: 0 <= k < |visits| ==> GoodVisit(visits, k)
  {
    hide MeetsContract, ReportAt, GoodVisit;
    forall k | 0 <= k < |visits| ensures MeetsContract(ReportAt(visits, k)) <==> GoodVisit(visits, k) {
      ReportAtPassesIff(visits, k);
    }
    if AllPass(visits) {
      forall k | 0 <= k < |visits| ensures GoodVisit(visits, k) {
        assert MeetsContract(ReportAt(visits, k));
      }
    }
  }

  /** Over any run of a head: all its reports pass exactly if its clock never ran backwards and no quality sank. */
  lemma AllReportsPassIff(visits: seq<HeadVisit>)
    ensures AllPass(visits) <==>
            NeverBackwards(visits) && forall k :: 0 <= k < |visits| ==> QualityStaysPositive(visits[k].input)
  {
    AllPassStepwise(visits);
    StepwiseForward(visits);
    hide AllPass, NeverBackwards, QualityStaysPositive;
    if forall k :: 0 <= k < |visits| ==> GoodVisit(visits, k) {
      forall k | 1 <= k < |visits| ensures visits[k - 1].now <= visits[k].now {
        assert GoodVisit(visits, k);
      }
      forall k | 0 <= k < |visits| ensures QualityStaysPositive(visits[k].input) {
        assert GoodVisit(visits, k);
      }
    }
  }

  lemma StepwiseForward(visits: seq<HeadVisit>)
    ensures NeverBackwards(visits) <==> forall k :: 1 <= k < |visits| ==> visits[k - 1].now <= visits[k].now
  {
    if forall k :: 1 <= k < |visits| ==> visits[k - 1].now <= visits[k].now {
      forall i, j | 0 <= i < j < |visits| ensures visits[i].now <= visits[j].now {
        Climbs(visits, i, j);
      }
    }
  }

  lemma {:induction false} Climbs(visits: seq<HeadVisit>, i: nat, j: nat)
    requires i < j < |visits| && forall k :: 1 <= k < |visits| ==> visits[k - 1].now <= visits[k].now
    ensures visits[i].now <= visits[j].now
    decreases j
  {
    if i < j - 1 {
      Climbs(visits, i, j - 1);
    }
  }

  /** A head's first report is stale whatever it says, and so is any report ten minutes or more after the last one. */
  lemma StaleReportsIff(input: HeadInput, last: Option<real>, now: real)
    ensures RefreshReport(input, last, now).state == Stale <==> last == None || now - last.value >= 600.0
  {
    hide ReadingOf;
  }

  /** The contract head by head: who needs a quality, and who must not name setups. */
  lemma ContractByHead(r: HeadReport)
    ensures var sound := 0.0 <= r.freshnessScore <= 1.0 && 0.0 <= r.confidence <= 1.0 && r.invalidation != [];
            && (r.headName in {SmcHead, IctHead} ==>
                  (MeetsContract(r) <==> sound && r.contextQuality.Some? && 0.0 <= r.contextQuality.value <= 1.0))
            && (r.headName in {MacroHead, PsychologyHead} ==>
                  (MeetsContract(r) <==> sound && r.primarySetup == None && r.backupSetup == None))
            && (r.headName in {TechnicalHead, OptionsHead} ==> (MeetsContract(r) <==> sound))
            && (r.headName.OtherHead? ==> !MeetsContract(r))
  {
  }

  // ----- What a report carries -----

  /**
   The state of a report: stale with age or for want of an update, uncertain under a confidence of 0.3, else ready.
  */
  lemma ReportStates(input: HeadInput, last: Option<real>, now: real)
    ensures var r := RefreshReport(input, last, now);
            var aged := last == None || now - last.value >= 600.0;
            && (r.state == Stale <==> aged)
            && (r.state == Uncertain <==> !aged && r.confidence < 0.3)
            && (r.state == Ready <==> !aged && r.confidence >= 0.3)
            && r.freshnessTag == (if aged then StaleTag else if now - last.value < 120.0 then FreshTag else WarmTag)
            && r.freshnessScore == (if last == None then 0.0 else FreshnessScore(now - last.value))
  {
    hide ReadingOf, FreshnessScore;
  }

  /** Everything else is what the head made of its input, under the head's own name. */
  lemma ReportCarriesReading(input: HeadInput, last: Option<real>, now: real)
    ensures var r, i := RefreshReport(input, last, now), ReadingOf(input, ApproxFreshness(Elapsed(last, now)));
            && (r.headName == SmcHead <==> input.SmcSignals?) && (r.headName == IctHead <==> input.IctSignals?)
            && (r.headName == MacroHead <==> input.MacroSignals?)
            && (r.headName == PsychologyHead <==> input.PsychologySignals?)
            && r.bias == i.bias && r.confidence == i.confidence && r.invalidation == i.rules
            && r.primarySetup == i.primarySetup && r.backupSetup == i.backupSetup
            && r.contextQuality == i.contextQuality && r.eventRisk == i.eventRisk && r.cautionLevel == i.cautionLevel
            && r.tradeAllowed == i.tradeAllowed && r.cooldownActive == i.cooldownActive
            && r.repeatedMistake == i.repeatedMistake && r.trapPressure == i.trapPressure
  {
    hide ReadingOf, FreshnessScore, FreshnessTagOf, ApproxFreshness;
  }

  /** The confidence of the Psychology Head in points: its quality counts as one half, five signals as full strength. */
  lemma PsychologyConfidence(m: Psychology.PsychologyMemory, count: nat, freshness: real)
    ensures var points := 40.0 * Psychology.PsychologyBaseConfidence(m, count >= 1) + 20.0 * freshness + 12.5
                          + (if count >= 5 then 15.0 else 3.0 * count as real);
            100.0 * PsychologyReading(m, count, freshness).confidence
            == if points < 0.0 then 0.0 else if points > 100.0 then 100.0 else points
  {
    ConfidenceInPoints(Psychology.PsychologyBaseConfidence(m, count >= 1), freshness, 0.5,
                       MinR(1.0, count as real / 5.0));
    hide ComputeConfidence, Psychology.PsychologyBaseConfidence;
  }
}
