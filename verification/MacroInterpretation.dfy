/** The Macro Head (macro_head.py): volatility, institutional flows, the event calendar and the environment. */
module MacroInterpretation {
  import opened SharedTypes
  import opened Numerics
  import opened HeadTypes

  datatype NetFlow = NetBuy | NetSell | NetNeutral | OtherFlow

  datatype Environment = StableEnvironment | CautiousEnvironment | StressedEnvironment | OtherEnvironment

  /** A MACRO signal with its defaults filled in; a VIX signal may lack its value. */
  datatype MacroSignal =
    | Vix(level: Option<real>)
    | FiiDii(net: NetFlow, magnitude: real)
    | EventCalendar(risk: real)
    | MacroEnvironment(environment: Environment)
    | OtherMacroSignal

  datatype MacroState = MacroState(
    vix: real,
    net: NetFlow,
    magnitude: real,
    eventRisk: bool,
    highestRisk: real,
    environment: Environment,
    sawVix: bool,
    sawFlow: bool,
    sawEvent: bool)

  const QUIET := MacroState(15.0, NetNeutral, 0.0, false, 0.0, StableEnvironment, false, false, false)

  /** One signal at a time, whatever its kind; `HearAll` has the original's loop per kind. */
  function Heard(m: MacroState, s: MacroSignal): MacroState {
    match s
    case Vix(level) => m.(vix := if level.Some? then level.value else m.vix, sawVix := true)
    case FiiDii(net, magnitude) => m.(net := net, magnitude := magnitude, sawFlow := true)
    case EventCalendar(risk) =>
      if risk > m.highestRisk then m.(highestRisk := risk, eventRisk := risk > 0.5, sawEvent := true)
      else m.(sawEvent := true)
    case MacroEnvironment(environment) => m.(environment := environment)
    case OtherMacroSignal => m
  }

  function HeardAll(signals: seq<MacroSignal>): MacroState {
    if signals == [] then QUIET
    else Heard(HeardAll(signals[..|signals| - 1]), signals[|signals| - 1])
  }

  function Caution(m: MacroState): real {
    MinR(1.0,
      (if m.vix > 20.0 then 0.4 else if m.vix >= 14.0 then 0.2 else 0.0)
      + (if m.net != NetSell then 0.0 else if m.magnitude > 500.0 then 0.3 else 0.15)
      + (if m.eventRisk then 0.3 * MinR(1.0, m.highestRisk) else 0.0)
      + (match m.environment
         case StressedEnvironment => 0.3
         case CautiousEnvironment => 0.15
         case _ => 0.0))
  }

  function MacroBias(m: MacroState): Bias {
    var caution := Caution(m);
    if caution < 0.2 && m.net == NetBuy then Bullish
    else if caution > 0.6 then Bearish
    else if caution > 0.3 && m.net == NetSell then Bearish
    else Neutral
  }

  function GateRules(m: MacroState): seq<InvalidationRule> {
    RuleIf(m.vix >= 14.0, "VIX normalised below 14 — volatility risk subsided",
           "Macro invalidation — volatility condition normalised")
    + RuleIf(m.eventRisk, "Event risk passed", "Macro invalidation — event risk no longer active")
    + RuleIf(Caution(m) > 0.4, "Macro caution removed — environment improved", "Macro invalidation — caution lifted")
  }

  const BENIGN_RULE := InvalidationRule("Macro environment remains benign — no change", 0.0,
                                        "Macro invalidation baseline — monitoring for deterioration")

  function MacroRules(m: MacroState): (r: seq<InvalidationRule>)
    ensures r != []
  {
    if GateRules(m) == [] then [BENIGN_RULE] else GateRules(m)
  }

  function BaseConfidence(m: MacroState, total: nat): real {
    MinR(1.0,
      (if m.sawVix then 0.3 else 0.0) + (if m.sawFlow then 0.3 else 0.0) + (if m.sawEvent then 0.2 else 0.0)
      + MinR(0.15, total as real * 0.03))
  }

  function NoMacroData(): Interpretation {
    Interpretation(Neutral, 0.0, None, None,
                   [InvalidationRule("No macro data — environment status unknown", 0.0,
                                     "No Floor 3 macro signals received")],
                   None, false, 0.0, true, false, false, false)
  }

  function Reading(signals: seq<MacroSignal>, freshness: real): Interpretation {
    if signals == [] then NoMacroData()
    else
      var m := HeardAll(signals);
      Interpretation(
        MacroBias(m),
        ComputeConfidence(BaseConfidence(m, |signals|), freshness, 0.5, MinR(1.0, |signals| as real / 8.0)),
        None, None, MacroRules(m), None, m.eventRisk, Caution(m), true, false, false, false)
  }

  // ----- The imperative form -----

  method HearEvents(signals: seq<MacroSignal>) returns (eventRisk: bool, highestRisk: real, sawEvent: bool)
    ensures var m := HeardAll(signals);
            eventRisk == m.eventRisk && highestRisk == m.highestRisk && sawEvent == m.sawEvent
  {
    eventRisk, highestRisk, sawEvent := false, 0.0, false;
    for i := 0 to |signals|
      invariant var m := HeardAll(signals[..i]);
                eventRisk == m.eventRisk && highestRisk == m.highestRisk && sawEvent == m.sawEvent
    {
      assert signals[..i + 1][..i] == signals[..i];
      if signals[i].EventCalendar? {
        var risk := signals[i].risk;
        if risk > highestRisk {
          highestRisk := risk;
          eventRisk := risk > 0.5;
        }
        sawEvent := true;
      }
    }
    assert signals[..|signals|] == signals;
  }

  method HearVix(signals: seq<MacroSignal>) returns (vix: real, sawVix: bool)
    ensures vix == HeardAll(signals).vix && sawVix == HeardAll(signals).sawVix
  {
    vix, sawVix := 15.0, false;
    for i := 0 to |signals|
      invariant vix == HeardAll(signals[..i]).vix && sawVix == HeardAll(signals[..i]).sawVix
    {
      assert signals[..i + 1][..i] == signals[..i];
      if signals[i].Vix? {
        vix := if signals[i].level.Some? then signals[i].level.value else vix;
        sawVix := true;
      }
    }
    assert signals[..|signals|] == signals;
  }

  method HearFlows(signals: seq<MacroSignal>) returns (net: NetFlow, magnitude: real, sawFlow: bool)
    ensures var m := HeardAll(signals); net == m.net && magnitude == m.magnitude && sawFlow == m.sawFlow
  {
    net, magnitude, sawFlow := NetNeutral, 0.0, false;
    for i := 0 to |signals|
      invariant var m := HeardAll(signals[..i]); net == m.net && magnitude == m.magnitude && sawFlow == m.sawFlow
    {
      assert signals[..i + 1][..i] == signals[..i];
      if signals[i].FiiDii? {
        net, magnitude, sawFlow := signals[i].net, signals[i].magnitude, true;
      }
    }
    assert signals[..|signals|] == signals;
  }

  method HearEnvironment(signals: seq<MacroSignal>) returns (environment: Environment)
    ensures environment == HeardAll(signals).environment
  {
    environment := StableEnvironment;
    for i := 0 to |signals|
      invariant environment == HeardAll(signals[..i]).environment
    {
      assert signals[..i + 1][..i] == signals[..i];
      if signals[i].MacroEnvironment? {
        environment := signals[i].environment;
      }
    }
    assert signals[..|signals|] == signals;
  }

  method HearAll(signals: seq<MacroSignal>) returns (m: MacroState)
    ensures m == HeardAll(signals)
  {
    var vix, sawVix := HearVix(signals);
    var net, magnitude, sawFlow := HearFlows(signals);
    var eventRisk, highestRisk, sawEvent := HearEvents(signals);
    var environment := HearEnvironment(signals);
    m := MacroState(vix, net, magnitude, eventRisk, highestRisk, environment, sawVix, sawFlow, sawEvent);
  }

  method CautionOf(m: MacroState) returns (caution: real)
    ensures caution == Caution(m)
  {
    caution := 0.0;
    if m.vix > 20.0 {
      caution := caution + 0.4;
    } else if 14.0 <= m.vix <= 20.0 {
      caution := caution + 0.2;
    }
    if m.net == NetSell && m.magnitude > 500.0 {
      caution := caution + 0.3;
    } else if m.net == NetSell {
      caution := caution + 0.15;
    }
    if m.eventRisk {
      caution := caution + 0.3 * MinR(1.0, m.highestRisk);
    }
    if m.environment == StressedEnvironment {
      caution := caution + 0.3;
    } else if m.environment == CautiousEnvironment {
      caution := caution + 0.15;
    }
    caution := MinR(1.0, caution);
  }

  method Interpret(signals: seq<MacroSignal>, freshness: real) returns (i: Interpretation)
    ensures i == Reading(signals, freshness)
  {
    hide NoMacroData, HeardAll, ComputeConfidence, BaseConfidence, Caution, RuleIf;
    if signals == [] {
      return NoMacroData();
    }
    var m := HearAll(signals);
    var caution := CautionOf(m);
    var bias := Neutral;
    if caution < 0.2 && m.net == NetBuy {
      bias := Bullish;
    } else if caution > 0.6 {
      bias := Bearish;
    } else if caution > 0.3 && m.net == NetSell {
      bias := Bearish;
    }
    var rules := GateRules(m);
    if rules == [] {
      rules := [BENIGN_RULE];
    }
    var confidence := ComputeConfidence(BaseConfidence(m, |signals|), freshness, 0.5,
                                        MinR(1.0, |signals| as real / 8.0));
    i := Interpretation(bias, confidence, None, None, rules, None, m.eventRisk, caution, true, false, false, false);
  }

  // ----- What the loops and branches add up to -----

  /** The order of the calendar does not matter: the flag says that some event's risk is above one half. */
  lemma {:induction false} EventRiskIsMaximum(signals: seq<MacroSignal>)
    ensures var m := HeardAll(signals);
            && m.highestRisk >= 0.0
            && (forall i :: 0 <= i < |signals| && signals[i].EventCalendar? ==> signals[i].risk <= m.highestRisk)
            && (m.highestRisk == 0.0 || exists i :: 0 <= i < |signals| && signals[i].EventCalendar?
                                                    && signals[i].risk == m.highestRisk)
            && (m.eventRisk <==> m.highestRisk > 0.5)
  {
    if signals != [] {
      var n := |signals| - 1;
      EventRiskIsMaximum(signals[..n]);
      var m := HeardAll(signals[..n]);
      if m.highestRisk != 0.0 {
        var i :| 0 <= i < n && signals[..n][i].EventCalendar? && signals[..n][i].risk == m.highestRisk;
        assert signals[i].EventCalendar? && signals[i].risk == m.highestRisk;
      }
      assert forall i :: 0 <= i < n ==> signals[..n][i] == signals[i];
      if signals[n].EventCalendar? && signals[n].risk > m.highestRisk {
        assert HeardAll(signals).highestRisk == signals[n].risk;
      }
    }
  }

  /**
   A bearish macro bias never comes alone: no mix of flows and environment reaches it without volatility, an event
   or a caution that names a gate rule.
  */
  lemma BearishMacroIsExplained(m: MacroState)
    requires m.eventRisk <==> m.highestRisk > 0.5
    ensures 0.0 <= Caution(m) <= 1.0
    ensures MacroBias(m) == Bearish ==> GateRules(m) != []
  {
  }

  // ----- The reading in points and branches -----

  /** Caution in points of a hundred: volatility, institutional selling, events and the environment. */
  lemma CautionInPoints(m: MacroState)
    requires m.eventRisk <==> m.highestRisk > 0.5
    ensures var points := (if m.vix < 14.0 then 0.0 else if m.vix <= 20.0 then 20.0 else 40.0)
                          + (if m.net != NetSell then 0.0 else if m.magnitude <= 500.0 then 15.0 else 30.0)
                          + (if m.highestRisk <= 0.5 then 0.0 else if m.highestRisk >= 1.0 then 30.0
                             else 30.0 * m.highestRisk)
                          + (if m.environment == StressedEnvironment then 30.0
                             else if m.environment == CautiousEnvironment then 15.0 else 0.0);
            100.0 * Caution(m) == if points > 100.0 then 100.0 else points
  {
  }

  /** A quiet market with buying is bullish; caution over 0.6 is bearish, and over 0.3 if it comes with selling. */
  lemma MacroBiasCases(m: MacroState)
    ensures MacroBias(m) == Bullish <==> m.net == NetBuy && Caution(m) < 0.2
    ensures MacroBias(m) == Bearish <==> Caution(m) > 0.6 || (m.net == NetSell && Caution(m) > 0.3)
  {
    hide Caution;
  }

  /** What the head knows before and after any signals: a VIX of 15 and no flow until one is heard. */
  lemma {:induction false} QuietUntilHeard(signals: seq<MacroSignal>)
    ensures var m := HeardAll(signals);
            && (m.sawVix <==> exists i :: 0 <= i < |signals| && signals[i].Vix?)
            && (m.sawFlow <==> exists i :: 0 <= i < |signals| && signals[i].FiiDii?)
            && (m.sawEvent <==> exists i :: 0 <= i < |signals| && signals[i].EventCalendar?)
            && (!m.sawVix ==> m.vix == 15.0)
            && (!m.sawFlow ==> m.net == NetNeutral && m.magnitude == 0.0)
            && (!m.sawEvent ==> !m.eventRisk && m.highestRisk == 0.0)
            && ((forall i :: 0 <= i < |signals| ==> !signals[i].MacroEnvironment?)
                ==> m.environment == StableEnvironment)
  {
    if signals != [] {
      var n := |signals| - 1;
      QuietUntilHeard(signals[..n]);
      assert forall i :: 0 <= i < n ==> signals[..n][i] == signals[i];
      assert signals[n] == signals[|signals| - 1];
      if HeardAll(signals[..n]).sawVix {
        var i :| 0 <= i < n && signals[..n][i].Vix?;
        assert signals[i].Vix?;
      }
      if HeardAll(signals[..n]).sawFlow {
        var i :| 0 <= i < n && signals[..n][i].FiiDii?;
        assert signals[i].FiiDii?;
      }
      if HeardAll(signals[..n]).sawEvent {
        var i :| 0 <= i < n && signals[..n][i].EventCalendar?;
        assert signals[i].EventCalendar?;
      }
    }
  }

  /** Base confidence in points of a hundred, and the strength of eight signals. */
  lemma MacroConfidence(signals: seq<MacroSignal>, freshness: real)
    requires signals != []
    ensures var m, total := HeardAll(signals), |signals|;
            && 100.0 * BaseConfidence(m, total)
               == (if m.sawVix then 30.0 else 0.0) + (if m.sawFlow then 30.0 else 0.0)
                  + (if m.sawEvent then 20.0 else 0.0) + (if total >= 5 then 15.0 else 3.0 * total as real)
            && Reading(signals, freshness).confidence
               == ComputeConfidence(BaseConfidence(m, total), freshness, 0.5,
                                    if total >= 8 then 1.0 else total as real / 8.0)
            && Reading(signals, freshness).bias == MacroBias(m)
            && Reading(signals, freshness).cautionLevel == Caution(m)
            && Reading(signals, freshness).eventRisk == m.eventRisk && Reading(signals, freshness).tradeAllowed
            && Reading(signals, freshness).primarySetup == Reading(signals, freshness).backupSetup == None
  {
    hide HeardAll, MacroBias, Caution, MacroRules, ComputeConfidence;
  }

  lemma MacroSilence(freshness: real)
    ensures var i := Reading([], freshness);
            && i.bias == Neutral && i.confidence == 0.0 && i.contextQuality == None && !i.eventRisk
            && i.primarySetup == i.backupSetup == None && i.cautionLevel == 0.0 && i.tradeAllowed
            && |i.rules| == 1 && i.rules[0].priceLevel == 0.0
  {
  }

  /** Which gate rules there are. */
  lemma GateRulesCount(m: MacroState)
    ensures |GateRules(m)| == (if m.vix >= 14.0 then 1 else 0) + (if m.eventRisk then 1 else 0)
                              + (if Caution(m) > 0.4 then 1 else 0)
    ensures GateRules(m) == [] ==> MacroRules(m) == [BENIGN_RULE]
    ensures GateRules(m) != [] ==> MacroRules(m) == GateRules(m)
  {
    hide Caution;
  }

  /** The last value of its kind wins, whatever came before; a VIX signal without a value changes nothing. */
  lemma {:induction false} LastHeardWins(signals: seq<MacroSignal>, k: nat)
    requires k < |signals|
    ensures signals[k].FiiDii? && (forall i :: k < i < |signals| ==> !signals[i].FiiDii?) ==>
              HeardAll(signals).net == signals[k].net && HeardAll(signals).magnitude == signals[k].magnitude
    ensures signals[k].MacroEnvironment? && (forall i :: k < i < |signals| ==> !signals[i].MacroEnvironment?) ==>
              HeardAll(signals).environment == signals[k].environment
    ensures signals[k].Vix? && signals[k].level.Some?
            && (forall i :: k < i < |signals| ==> !signals[i].Vix? || signals[i].level == None) ==>
              HeardAll(signals).vix == signals[k].level.value
  {
    var n := |signals| - 1;
    if k < n {
      LastHeardWins(signals[..n], k);
      assert forall i :: 0 <= i < n ==> signals[..n][i] == signals[i];
    }
  }
}
