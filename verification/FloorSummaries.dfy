/** The floor summary the Captain reads first, and how Floor 4 builds it (floor_summary_builder.py). */
module FloorSummaries {
  import opened SharedTypes
  import opened Numerics
  import opened Confluence
  import opened Conviction

  /** The text-valued entries of the bias snapshot keep their keys; its counts are dashboard numbers. */
  datatype FloorSummary = FloorSummary(
    dataHealth: DataHealth,
    biasSnapshot: map<string, string>,
    averageConfidence: Option<real>,
    conflict: bool,
    setupPresence: Option<SetupPresence>,
    activeSetups: int,
    absenceContext: Option<SetupPresence>,
    readyHeads: nat,
    uncertainHeads: nat,
    staleHeads: nat)

  /** What the Captain is given when no summary could be built. */
  const EMPTY_SUMMARY := FloorSummary(DataHealth.GoodHealth, map[], None, false, None, 0, None, 0, 0, 0)

  const BUILT_BIAS_KEY := "dominant_floor_bias"

  const HEAD_ORDER: seq<HeadName> := [SmcHead, IctHead, TechnicalHead, OptionsHead, MacroHead, PsychologyHead]

  const SETUP_HEADS: seq<HeadName> := [SmcHead, IctHead, TechnicalHead, OptionsHead]

  function BiasText(b: Bias): string {
    match b
    case Bullish => "BULLISH"
    case Bearish => "BEARISH"
    case Neutral => "NEUTRAL"
  }

  function FindReport(reports: seq<Entry>, name: HeadName): Option<HeadReport> {
    if reports == [] then None
    else if reports[|reports| - 1].name == name then Some(reports[|reports| - 1].report)
    else FindReport(reports[..|reports| - 1], name)
  }

  /** The reports of `names` that exist, in that order. */
  function Present(reports: seq<Entry>, names: seq<HeadName>): seq<HeadReport> {
    if names == [] then []
    else
      var r := FindReport(reports, names[|names| - 1]);
      Present(reports, names[..|names| - 1]) + (if r.Some? then [r.value] else [])
  }

  function CountBias(rs: seq<HeadReport>, b: Bias): nat {
    if rs == [] then 0 else CountBias(rs[..|rs| - 1], b) + (if rs[|rs| - 1].bias == b then 1 else 0)
  }

  function CountState(reports: seq<Entry>, s: HeadState): nat {
    if reports == [] then 0
    else CountState(reports[..|reports| - 1], s) + (if reports[|reports| - 1].report.state == s then 1 else 0)
  }

  function CountSetups(rs: seq<HeadReport>): nat {
    if rs == [] then 0 else CountSetups(rs[..|rs| - 1]) + (if rs[|rs| - 1].primarySetup.Some? then 1 else 0)
  }

  function ConfidenceSum(rs: seq<HeadReport>): real {
    if rs == [] then 0.0 else ConfidenceSum(rs[..|rs| - 1]) + rs[|rs| - 1].confidence
  }

  function FloorBias(rs: seq<HeadReport>): Bias {
    var bull, bear, neutral := CountBias(rs, Bullish), CountBias(rs, Bearish), CountBias(rs, Neutral);
    if bull > bear && bull > neutral then Bullish
    else if bear > bull && bear > neutral then Bearish
    else Neutral
  }

  predicate AnyState(rs: seq<HeadReport>, s: HeadState) {
    exists i :: 0 <= i < |rs| && rs[i].state == s
  }

  function AbsenceContext(rs: seq<HeadReport>): SetupPresence {
    if AnyState(rs, Stale) then StaleNoSetup else if AnyState(rs, Uncertain) then UncertainNoSetup else ReadyNoSetup
  }

  function HealthOf(total: nat, stale: nat, uncertain: nat): DataHealth {
    if total == 0 || stale as real >= total as real * 0.5 then CriticalHealth
    else if stale as real >= total as real * 0.3 then DegradedHealth
    else if stale > 0 || uncertain > 1 then CautionHealth
    else DataHealth.GoodHealth
  }

  function SummaryOf(reports: seq<Entry>): FloorSummary {
    var heads, setupHeads := Present(reports, HEAD_ORDER), Present(reports, SETUP_HEADS);
    var setups := CountSetups(heads);
    FloorSummary(
      HealthOf(|reports|, CountState(reports, Stale), CountState(reports, Uncertain)),
      map[BUILT_BIAS_KEY := BiasText(FloorBias(heads))],
      Some(Round3(if heads == [] then 0.0 else ConfidenceSum(heads) / |heads| as real)),
      CountBias(setupHeads, Bullish) > 0 && CountBias(setupHeads, Bearish) > 0,
      Some(if setups > 0 then HasSetup else NoSetup),
      setups,
      if setups > 0 then None else Some(AbsenceContext(setupHeads)),
      CountState(reports, Ready), CountState(reports, Uncertain), CountState(reports, Stale))
  }

  // ----- The loops of the builder -----

  method BuildBiasSnapshot(reports: seq<Entry>) returns (snapshot: map<string, string>)
    ensures snapshot == SummaryOf(reports).biasSnapshot
  {
    var bullish, bearish, neutral := 0, 0, 0;
    ghost var seen: seq<HeadReport> := [];
    assert HEAD_ORDER[..0] == [];
    NothingPresent(reports);
    hide Present, CountBias;
    for i := 0 to |HEAD_ORDER|
      invariant seen == Present(reports, HEAD_ORDER[..i])
      invariant bullish == CountBias(seen, Bullish) && bearish == CountBias(seen, Bearish)
      invariant neutral == CountBias(seen, Neutral)
    {
      PresentOneMore(reports, HEAD_ORDER, i);
      var r := FindReport(reports, HEAD_ORDER[i]);
      if r.Some? {
        BiasOneMore(seen, r.value);
        seen := seen + [r.value];
        match r.value.bias {
          case Bullish => bullish := bullish + 1;
          case Bearish => bearish := bearish + 1;
          case Neutral => neutral := neutral + 1;
        }
      }
    }
    assert HEAD_ORDER[..|HEAD_ORDER|] == HEAD_ORDER;
    var dominant := Neutral;
    if bullish > bearish && bullish > neutral {
      dominant := Bullish;
    } else if bearish > bullish && bearish > neutral {
      dominant := Bearish;
    }
    snapshot := map[BUILT_BIAS_KEY := BiasText(dominant)];
  }

  lemma NothingPresent(reports: seq<Entry>)
    ensures Present(reports, []) == [] && forall b :: CountBias([], b) == 0
  {
  }

  lemma PresentOneMore(reports: seq<Entry>, names: seq<HeadName>, i: nat)
    requires i < |names|
    ensures Present(reports, names[..i + 1])
            == Present(reports, names[..i])
               + (if FindReport(reports, names[i]).Some? then [FindReport(reports, names[i]).value] else [])
  {
    assert names[..i + 1][..i] == names[..i];
  }

  lemma BiasOneMore(rs: seq<HeadReport>, r: HeadReport)
    ensures forall b :: CountBias(rs + [r], b) == CountBias(rs, b) + (if r.bias == b then 1 else 0)
  {
    assert (rs + [r])[..|rs|] == rs;
  }

  /** The loop over the setup heads remembers the worst state it has met. */
  method ComputeAbsence(reports: seq<Entry>) returns (context: SetupPresence)
    ensures context == AbsenceContext(Present(reports, SETUP_HEADS))
  {
    var worst := Ready;
    ghost var seen: seq<HeadReport> := [];
    for i := 0 to |SETUP_HEADS|
      invariant seen == Present(reports, SETUP_HEADS[..i])
      invariant worst == if AnyState(seen, Stale) then Stale else if AnyState(seen, Uncertain) then Uncertain else Ready
    {
      assert SETUP_HEADS[..i + 1][..i] == SETUP_HEADS[..i];
      var r := FindReport(reports, SETUP_HEADS[i]);
      if r.Some? {
        AnyStateOneMore(seen, r.value, Stale);
        AnyStateOneMore(seen, r.value, Uncertain);
        seen := seen + [r.value];
        if r.value.state == Stale {
          worst := Stale;
        } else if r.value.state == Uncertain && worst != Stale {
          worst := Uncertain;
        }
      }
    }
    assert SETUP_HEADS[..|SETUP_HEADS|] == SETUP_HEADS;
    context := if worst == Stale then StaleNoSetup else if worst == Uncertain then UncertainNoSetup else ReadyNoSetup;
  }

  lemma AnyStateOneMore(rs: seq<HeadReport>, r: HeadReport, s: HeadState)
    ensures AnyState(rs + [r], s) <==> AnyState(rs, s) || r.state == s
  {
    assert (rs + [r])[|rs|] == r;
    if AnyState(rs, s) {
      var i :| 0 <= i < |rs| && rs[i].state == s;
      assert (rs + [r])[i].state == s;
    }
  }

  method Build(reports: seq<Entry>) returns (summary: FloorSummary)
    ensures summary == SummaryOf(reports)
  {
    var snapshot := BuildBiasSnapshot(reports);
    var absence := ComputeAbsence(reports);
    var heads, setupHeads := Present(reports, HEAD_ORDER), Present(reports, SETUP_HEADS);
    var setups := CountSetups(heads);
    var average := if heads == [] then 0.0 else ConfidenceSum(heads) / |heads| as real;
    var stale, uncertain := CountState(reports, Stale), CountState(reports, Uncertain);
    summary := FloorSummary(
      HealthOf(|reports|, stale, uncertain), snapshot, Some(Round3(average)),
      CountBias(setupHeads, Bullish) > 0 && CountBias(setupHeads, Bearish) > 0,
      Some(if setups > 0 then HasSetup else NoSetup), setups,
      if setups > 0 then None else Some(absence),
      CountState(reports, Ready), uncertain, stale);
  }

  // ----- What a built summary says -----

  lemma {:induction false} CountedIff(rs: seq<HeadReport>, b: Bias)
    ensures CountBias(rs, b) <= |rs|
    ensures CountBias(rs, Bullish) + CountBias(rs, Bearish) + CountBias(rs, Neutral) == |rs|
  {
    if rs != [] {
      CountedIff(rs[..|rs| - 1], b);
    }
  }

  /** The direction on the dashboard is a strict majority over each of the other two. */
  lemma FloorBiasCases(rs: seq<HeadReport>)
    ensures var bull, bear, neutral := CountBias(rs, Bullish), CountBias(rs, Bearish), CountBias(rs, Neutral);
            && (FloorBias(rs) == Bullish <==> bear < bull && neutral < bull)
            && (FloorBias(rs) == Bearish <==> bull < bear && neutral < bear)
    ensures BiasText(Bullish)[1] == 'U' && BiasText(Bearish)[1] == 'E' && BiasText(Neutral)[0] == 'N'
  {
    hide CountBias;
  }

  /** Without any setup the worst state among the setup heads gives the reason. */
  lemma AbsenceCases(rs: seq<HeadReport>)
    ensures AbsenceContext(rs) == StaleNoSetup <==> exists r :: r in rs && r.state == Stale
    ensures AbsenceContext(rs) == ReadyNoSetup <==> forall r :: r in rs ==> r.state == Ready
    ensures AbsenceContext(rs) == UncertainNoSetup <==>
            (exists r :: r in rs && r.state == Uncertain) && forall r :: r in rs ==> r.state != Stale
  {
    assert forall s :: AnyState(rs, s) <==> exists r :: r in rs && r.state == s;
    hide AnyState;
  }

  /** CRITICAL, which closes the gate, from half of the reports stale on, DEGRADED from three tenths on. */
  lemma HealthCases(total: nat, stale: nat, uncertain: nat)
    ensures var h := HealthOf(total, stale, uncertain);
            && (h == CriticalHealth <==> total == 0 || 2 * stale >= total)
            && (h == DegradedHealth <==> total != 0 && 2 * stale < total && 10 * stale >= 3 * total)
            && (h == CautionHealth <==> total != 0 && 10 * stale < 3 * total && (stale >= 1 || uncertain >= 2))
            && (h == DataHealth.GoodHealth <==> total != 0 && stale == 0 && uncertain <= 1)
  {
  }

  /** Whether a head of the six names a setup. */
  lemma {:induction false} SetupsCounted(rs: seq<HeadReport>)
    ensures CountSetups(rs) > 0 <==> exists r :: r in rs && r.primarySetup.Some?
    ensures CountSetups(rs) <= |rs|
  {
    if rs != [] {
      var init, last := rs[..|rs| - 1], rs[|rs| - 1];
      SetupsCounted(init);
      assert rs == init + [last];
    }
  }

  lemma {:induction false} SumAdds(a: seq<HeadReport>, r: HeadReport)
    ensures ConfidenceSum([]) == 0.0 && ConfidenceSum(a + [r]) == ConfidenceSum(a) + r.confidence
  {
    assert (a + [r])[..|a|] == a;
  }

  /** The fields the Captain reads off a built summary. */
  lemma BuiltFields(reports: seq<Entry>)
    ensures var f, heads := SummaryOf(reports), Present(reports, HEAD_ORDER);
            && (f.setupPresence == Some(HasSetup) <==> exists r :: r in heads && r.primarySetup.Some?)
            && (f.setupPresence == Some(NoSetup) <==> forall r :: r in heads ==> r.primarySetup == None)
            && (f.absenceContext == None <==> f.setupPresence == Some(HasSetup))
            && (heads == [] ==> f.averageConfidence == Some(0.0))
            && (heads != [] ==> f.averageConfidence == Some(Round3(ConfidenceSum(heads) / |heads| as real)))
            && (f.conflict <==> CountBias(Present(reports, SETUP_HEADS), Bullish) >= 1
                                && CountBias(Present(reports, SETUP_HEADS), Bearish) >= 1)
            && f.dataHealth == HealthOf(|reports|, f.staleHeads, f.uncertainHeads)
            && f.readyHeads == CountState(reports, Ready) && f.staleHeads == CountState(reports, Stale)
            && f.uncertainHeads == CountState(reports, Uncertain)
  {
    SetupsCounted(Present(reports, HEAD_ORDER));
    RoundOfZero();
    hide Present, CountSetups, ConfidenceSum, CountBias, CountState, HealthOf, Round3, AbsenceContext, FloorBias;
  }

  lemma RoundOfZero()
    ensures Round3(0.0) == 0.0
  {
  }

  /** The empty summary holds nothing against a cycle. */
  lemma EmptySummaryIsSilent()
    ensures EMPTY_SUMMARY.dataHealth == DataHealth.GoodHealth && EMPTY_SUMMARY.biasSnapshot == map[]
    ensures EMPTY_SUMMARY.readyHeads == EMPTY_SUMMARY.uncertainHeads == EMPTY_SUMMARY.staleHeads == 0
    ensures EMPTY_SUMMARY.activeSetups == 0 && EMPTY_SUMMARY.setupPresence == EMPTY_SUMMARY.absenceContext == None
  {
  }
}
