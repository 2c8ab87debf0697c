/** The discipline brakes of the Psychology Head (psychology_head.py): reported state, decayed by the clock. */
module Psychology {
  import opened SharedTypes
  import opened Numerics
  import opened HeadTypes

  datatype PsychologyMemory = PsychologyMemory(
    tradeAllowed: bool,
    cautionLevel: real,
    cooldownActive: bool,
    cooldownRemaining: real,
    repeatedMistake: bool,
    mistakeCount: int,
    sameZoneFailures: int,
    trapPressure: bool,
    trapDensity: real,
    blockReason: string,
    lossCount: int,
    lossSequence: int)

  /** A PSYCHOLOGY signal; absent keys are `None`. */
  datatype PsychologySignal =
    | DisciplineReport(allowed: Option<bool>, reason: Option<string>)
    | CooldownStatus(active: Option<bool>, remaining: Option<real>)
    | MistakeReport(mistakes: Option<int>, zoneFailures: Option<int>)
    | TrapAlert(pressure: Option<bool>, density: Option<real>)
    | LossReport(losses: Option<int>, sequence: Option<int>)
    | OtherPsychologySignal

  /** The brakes and the time the cooldown was last decayed to (`_last_refresh`). */
  datatype Brakes = Brakes(memory: PsychologyMemory, baseline: Option<real>)

  // ----- One refresh -----

  /** Without an active cooldown not even the baseline moves. */
  function Decayed(b: Brakes, now: real): Brakes {
    var m := b.memory;
    if !m.cooldownActive then b
    else if b.baseline == None then b.(baseline := Some(now))
    else
      var elapsed := now - b.baseline.value;
      if elapsed <= 0.0 then b.(baseline := Some(now))
      else if m.cooldownRemaining - elapsed <= 0.0 then
        Brakes(m.(cooldownActive := false, cooldownRemaining := 0.0), Some(now))
      else
        Brakes(m.(cooldownRemaining := m.cooldownRemaining - elapsed), Some(now))
  }

  function Told(m: PsychologyMemory, signal: PsychologySignal): PsychologyMemory {
    match signal
    case DisciplineReport(allowed, reason) =>
      var a := Or(allowed, m.tradeAllowed);
      m.(tradeAllowed := a, blockReason := if a then m.blockReason else Or(reason, "Blocked by discipline report"))
    case CooldownStatus(active, remaining) =>
      m.(cooldownActive := Or(active, m.cooldownActive), cooldownRemaining := Or(remaining, 0.0))
    case MistakeReport(mistakes, zoneFailures) =>
      var f := Or(zoneFailures, m.sameZoneFailures);
      m.(mistakeCount := Or(mistakes, m.mistakeCount), sameZoneFailures := f,
         repeatedMistake := if f >= 2 then true else if f == 0 then false else m.repeatedMistake)
    case TrapAlert(pressure, density) =>
      m.(trapPressure := Or(pressure, m.trapPressure), trapDensity := Or(density, m.trapDensity))
    case LossReport(losses, sequence) =>
      m.(lossCount := Or(losses, m.lossCount), lossSequence := Or(sequence, m.lossSequence))
    case OtherPsychologySignal => m
  }

  function ToldAll(m: PsychologyMemory, signals: seq<PsychologySignal>): PsychologyMemory {
    if signals == [] then m
    else Told(ToldAll(m, signals[..|signals| - 1]), signals[|signals| - 1])
  }

  function Refreshed(b: Brakes, signals: seq<PsychologySignal>, now: real): Brakes {
    var d := Decayed(b, now);
    d.(memory := ToldAll(d.memory, signals))
  }

  // ----- What the brakes say -----

  predicate TradeAllowed(m: PsychologyMemory) {
    && m.tradeAllowed
    && !m.cooldownActive
    && m.lossSequence < 3
    && !(m.trapPressure && m.trapDensity > 0.7)
  }

  function TrapCaution(m: PsychologyMemory): real {
    if m.trapPressure then 0.15 * MinR(1.0, m.trapDensity / 0.5) else 0.0
  }

  function CountCaution(count: int, each: real, most: real): real {
    if count > 0 then MinR(most, count as real * each) else 0.0
  }

  function CautionLevel(m: PsychologyMemory): real {
    ClampUnit(
      m.cautionLevel * 0.3
      + (if m.cooldownActive then 0.25 else 0.0)
      + (if m.repeatedMistake then 0.20 else 0.0)
      + TrapCaution(m)
      + CountCaution(m.lossSequence, 0.10, 0.30)
      + CountCaution(m.mistakeCount, 0.05, 0.15))
  }

  /** The light bias is restrictive exactly when the brakes hold. */
  function BrakeBias(m: PsychologyMemory): Bias {
    if TradeAllowed(m) then Neutral else Bearish
  }

  const CLEAR_RULE := InvalidationRule(
    "Psychology state unchanged — no new brake conditions", 0.0,
    "Psychology invalidation baseline — monitoring for degradation")

  const COOLDOWN_OVER := "Cooldown period completed — discipline restored"
  const COOLDOWN_REASON := "Psychology brake invalidation — cooldown expired"
  const MISTAKE_OVER := "Repeated mistake risk cleared — zone failures resolved"
  const MISTAKE_REASON := "Psychology mistake invalidation — pattern broken"
  const TRAP_OVER := "Trap pressure reduced — density normalised"
  const TRAP_REASON := "Psychology trap invalidation — trap density cleared"
  const LOSSES_OVER := "Loss sequence broken — discipline reset"
  const LOSSES_REASON := "Psychology loss sequence invalidation — sequence ended"
  const BLOCK_OVER := "Block condition resolved — discipline restored"

  function BlockReason(m: PsychologyMemory): string {
    "Psychology block lifted — '" + m.blockReason + "' cleared"
  }

  function BrakeRules(m: PsychologyMemory): seq<InvalidationRule> {
    RuleIf(m.cooldownActive, COOLDOWN_OVER, COOLDOWN_REASON)
    + RuleIf(m.repeatedMistake, MISTAKE_OVER, MISTAKE_REASON)
    + RuleIf(m.trapPressure, TRAP_OVER, TRAP_REASON)
    + RuleIf(m.lossSequence >= 3, LOSSES_OVER, LOSSES_REASON)
    + RuleIf(!m.tradeAllowed, BLOCK_OVER, BlockReason(m))
  }

  function PsychologyRules(m: PsychologyMemory): seq<InvalidationRule> {
    if BrakeRules(m) == [] then [CLEAR_RULE] else BrakeRules(m)
  }

  function PsychologyBaseConfidence(m: PsychologyMemory, hasSignals: bool): real {
    MinR(1.0, (if hasSignals then 0.4 else 0.0)
              + (if m.tradeAllowed && !m.cooldownActive then 0.3 else 0.0)
              + (if m.mistakeCount > 0 || m.lossCount > 0 then 0.2 else 0.0))
  }

  // ----- The object -----

  class PsychologyHead {
    var memory: PsychologyMemory
    var lastRefresh: Option<real>

    ghost function View(): Brakes
      reads this
    {
      Brakes(memory, lastRefresh)
    }

    constructor (tradeAllowed: bool, cautionLevel: real, cooldownActive: bool)
      ensures memory == PsychologyMemory(tradeAllowed, cautionLevel, cooldownActive, 0.0, false, 0, 0, false, 0.0, "",
                                         0, 0)
      ensures lastRefresh == None
    {
      memory := PsychologyMemory(tradeAllowed, cautionLevel, cooldownActive, 0.0, false, 0, 0, false, 0.0, "", 0, 0);
      lastRefresh := None;
    }

    method DecayCooldown(now: real)
      modifies this
      ensures View() == Decayed(old(View()), now)
    {
      if !memory.cooldownActive {
        return;
      }
      if lastRefresh == None {
        lastRefresh := Some(now);
        return;
      }
      var elapsed := now - lastRefresh.value;
      lastRefresh := Some(now);
      if elapsed <= 0.0 {
        return;
      }
      var remaining := memory.cooldownRemaining - elapsed;
      if remaining <= 0.0 {
        memory := memory.(cooldownActive := false, cooldownRemaining := 0.0);
      } else {
        memory := memory.(cooldownRemaining := remaining);
      }
    }

    method ProcessSignal(signal: PsychologySignal)
      modifies this`memory
      ensures memory == Told(old(memory), signal)
    {
      match signal {
        case DisciplineReport(allowed, reason) =>
          memory := memory.(tradeAllowed := Or(allowed, memory.tradeAllowed));
          if !memory.tradeAllowed {
            memory := memory.(blockReason := Or(reason, "Blocked by discipline report"));
          }
        case CooldownStatus(active, remaining) =>
          memory := memory.(cooldownActive := Or(active, memory.cooldownActive));
          memory := memory.(cooldownRemaining := Or(remaining, 0.0));
        case MistakeReport(mistakes, zoneFailures) =>
          memory := memory.(mistakeCount := Or(mistakes, memory.mistakeCount));
          memory := memory.(sameZoneFailures := Or(zoneFailures, memory.sameZoneFailures));
          if memory.sameZoneFailures >= 2 {
            memory := memory.(repeatedMistake := true);
          } else if memory.sameZoneFailures == 0 {
            memory := memory.(repeatedMistake := false);
          }
        case TrapAlert(pressure, density) =>
          memory := memory.(trapPressure := Or(pressure, memory.trapPressure));
          memory := memory.(trapDensity := Or(density, memory.trapDensity));
        case LossReport(losses, sequence) =>
          memory := memory.(lossCount := Or(losses, memory.lossCount));
          memory := memory.(lossSequence := Or(sequence, memory.lossSequence));
        case OtherPsychologySignal =>
      }
    }

    method ProcessSignals(signals: seq<PsychologySignal>)
      modifies this`memory
      ensures memory == ToldAll(old(memory), signals)
    {
      hide Told;
      for i := 0 to |signals|
        invariant memory == ToldAll(old(memory), signals[..i])
      {
        assert signals[..i + 1][..i] == signals[..i];
        ProcessSignal(signals[i]);
      }
      assert signals[..|signals|] == signals;
    }

    method Refresh(signals: seq<PsychologySignal>, now: real) returns (allowed: bool, caution: real)
      modifies this
      ensures View() == Refreshed(old(View()), signals, now)
      ensures allowed == TradeAllowed(memory) && caution == CautionLevel(memory)
    {
      DecayCooldown(now);
      ProcessSignals(signals);
      allowed := TradeAllowed(memory);
      caution := CautionLevel(memory);
    }
  }

  // ----- Runs of refreshes -----

  datatype Visit = Visit(signals: seq<PsychologySignal>, now: real)

  function RefreshRun(b: Brakes, visits: seq<Visit>): Brakes {
    if visits == [] then b
    else
      var last := visits[|visits| - 1];
      Refreshed(RefreshRun(b, visits[..|visits| - 1]), last.signals, last.now)
  }

  ghost predicate NoCooldownReport(signals: seq<PsychologySignal>) {
    forall i :: 0 <= i < |signals| ==> !signals[i].CooldownStatus?
  }

  ghost predicate QuietVisits(visits: seq<Visit>) {
    forall i :: 0 <= i < |visits| ==> NoCooldownReport(visits[i].signals)
  }

  /** The clock never runs backwards from `start` on. */
  ghost predicate ForwardFrom(start: real, visits: seq<Visit>) {
    && (forall i :: 0 <= i < |visits| ==> start <= visits[i].now)
    && (forall i, j :: 0 <= i < j < |visits| ==> visits[i].now <= visits[j].now)
  }

  function LastTime(start: real, visits: seq<Visit>): real {
    if visits == [] then start else visits[|visits| - 1].now
  }

  lemma {:induction false} OtherSignalsKeepCooldown(m: PsychologyMemory, signals: seq<PsychologySignal>)
    requires NoCooldownReport(signals)
    ensures ToldAll(m, signals).cooldownActive == m.cooldownActive
    ensures ToldAll(m, signals).cooldownRemaining == m.cooldownRemaining
  {
    if signals != [] {
      var n := |signals| - 1;
      OtherSignalsKeepCooldown(m, signals[..n]);
      var before := ToldAll(m, signals[..n]);
      assert Told(before, signals[n]).cooldownActive == before.cooldownActive;
    }
  }

  /** The cooldown that started at `start` with `length` seconds, as it stands at time `t`. */
  ghost predicate CountsDown(b: Brakes, start: real, length: real, t: real) {
    && (b.memory.cooldownActive <==> length - (t - start) > 0.0)
    && b.memory.cooldownRemaining == MaxR(0.0, length - (t - start))
    && (b.memory.cooldownActive ==> b.baseline == Some(t))
  }

  lemma RefreshCountsDown(b: Brakes, start: real, length: real, t: real, visit: Visit)
    requires length > 0.0 && CountsDown(b, start, length, t) && start <= t <= visit.now
    requires NoCooldownReport(visit.signals)
    ensures CountsDown(Refreshed(b, visit.signals, visit.now), start, length, visit.now)
  {
    OtherSignalsKeepCooldown(Decayed(b, visit.now).memory, visit.signals);
  }

  /**
   From a baseline with a running cooldown, only the last refresh time matters: however many refreshes happen on
   the way, what is left is max(0, r0 - (tn - t0)), and the cooldown is active exactly while that is positive.
  */
  lemma {:induction false} CooldownIsPathIndependent(b: Brakes, start: real, visits: seq<Visit>)
    requires b.memory.cooldownActive && b.memory.cooldownRemaining > 0.0 && b.baseline == Some(start)
    requires QuietVisits(visits) && ForwardFrom(start, visits)
    ensures CountsDown(RefreshRun(b, visits), start, b.memory.cooldownRemaining, LastTime(start, visits))
  {
    hide Refreshed, CountsDown;
    if visits == [] {
      assert CountsDown(b, start, b.memory.cooldownRemaining, start) by { FreshCountdown(b, start); }
    } else {
      var n := |visits| - 1;
      CooldownIsPathIndependent(b, start, visits[..n]);
      RefreshCountsDown(RefreshRun(b, visits[..n]), start, b.memory.cooldownRemaining,
                        LastTime(start, visits[..n]), visits[n]);
    }
  }

  lemma FreshCountdown(b: Brakes, start: real)
    requires b.memory.cooldownActive && b.memory.cooldownRemaining > 0.0 && b.baseline == Some(start)
    ensures CountsDown(b, start, b.memory.cooldownRemaining, start)
  {
  }

  lemma {:induction false} RunFromFront(b: Brakes, visits: seq<Visit>)
    requires visits != []
    ensures RefreshRun(b, visits) == RefreshRun(Refreshed(b, visits[0].signals, visits[0].now), visits[1..])
  {
    hide Refreshed;
    var n := |visits| - 1;
    if n == 0 {
      assert visits[..0] == [] && visits[1..] == [];
    } else {
      RunFromFront(b, visits[..n]);
      assert visits[..n][1..] == visits[1..][..n - 1];
    }
  }

  /** A head's very first cooldown has no baseline: the first refresh after the report only sets one. */
  lemma FirstCooldownStartsAtNextRefresh(b: Brakes, visits: seq<Visit>)
    requires b.memory.cooldownActive && b.memory.cooldownRemaining > 0.0 && b.baseline == None
    requires QuietVisits(visits) && visits != [] && ForwardFrom(visits[0].now, visits)
    ensures CountsDown(RefreshRun(b, visits), visits[0].now, b.memory.cooldownRemaining, LastTime(0.0, visits))
  {
    var first, rest := visits[0], visits[1..];
    RunFromFront(b, visits);
    var c := Refreshed(b, first.signals, first.now);
    OtherSignalsKeepCooldown(Decayed(b, first.now).memory, first.signals);
    assert ForwardFrom(first.now, rest);
    CooldownIsPathIndependent(c, first.now, rest);
  }

  /**
   A cooldown reported at `t` and seen at a later time within its length is right exactly if the counting started at
   `t`: at the last baseline if there is one, which stands still while no cooldown is active, and otherwise at the
   first refresh after the report. A pause before it makes it end early by the whole pause, and a first cooldown ends
   late by the whole gap to the next refresh.
  */
  lemma ReportedCooldownIsRightIff(b: Brakes, t: real, visits: seq<Visit>)
    requires b.memory.cooldownActive && b.memory.cooldownRemaining > 0.0
    requires b.baseline.Some? ==> b.baseline.value <= t
    requires QuietVisits(visits) && visits != [] && ForwardFrom(t, visits)
    requires LastTime(t, visits) - t < b.memory.cooldownRemaining
    ensures RefreshRun(b, visits).memory.cooldownRemaining == b.memory.cooldownRemaining - (LastTime(t, visits) - t)
            <==> (if b.baseline.Some? then b.baseline.value else visits[0].now) == t
  {
    if b.baseline.Some? {
      CooldownIsPathIndependent(b, b.baseline.value, visits);
    } else {
      FirstCooldownStartsAtNextRefresh(b, visits);
    }
  }

  /** Ten minutes reported to a head without a baseline are still ten minutes at the next refresh, however late. */
  lemma FirstCooldownIsLengthened(b: Brakes, t: real, gap: real)
    requires b.baseline == None && !b.memory.cooldownActive && gap > 0.0
    ensures var after := Refreshed(b, [CooldownStatus(Some(true), Some(600.0))], t);
            Refreshed(after, [], t + gap).memory.cooldownRemaining == 600.0
  {
    var report := [CooldownStatus(Some(true), Some(600.0))];
    assert report[..0] == [];
    assert ToldAll(b.memory, report) == Told(ToldAll(b.memory, []), report[0]);
  }

  /** When a refresh with a cooldown report moves the baseline to that refresh. */
  lemma BaselineAtReport(b: Brakes, signals: seq<PsychologySignal>, t: real)
    ensures Refreshed(b, signals, t).baseline == Some(t) <==> b.memory.cooldownActive || b.baseline == Some(t)
    ensures !b.memory.cooldownActive ==> Refreshed(b, signals, t).baseline == b.baseline
  {
  }

  /** A ten-minute cooldown reported an hour after the previous one had run out is over at the next refresh. */
  lemma CooldownAfterPauseIsLost()
    ensures exists b: Brakes, t: real ::
              && !b.memory.cooldownActive && b.baseline == Some(t - 3600.0)
              && var after := Refreshed(b, [CooldownStatus(Some(true), Some(600.0))], t);
                 && after.memory.cooldownActive && after.memory.cooldownRemaining == 600.0
                 && !Refreshed(after, [], t + 1.0).memory.cooldownActive
  {
    var m := PsychologyMemory(true, 0.0, false, 0.0, false, 0, 0, false, 0.0, "", 0, 0);
    var b := Brakes(m, Some(0.0));
    var report := [CooldownStatus(Some(true), Some(600.0))];
    assert ToldAll(m, report) == Told(ToldAll(m, []), report[0]);
    var after := Refreshed(b, report, 3600.0);
    assert after.memory.cooldownActive && after.memory.cooldownRemaining == 600.0;
    assert ToldAll(Decayed(after, 3601.0).memory, []) == Decayed(after, 3601.0).memory;
    assert !Refreshed(after, [], 3600.0 + 1.0).memory.cooldownActive;
    assert b.baseline == Some(3600.0 - 3600.0);
  }

  // ----- The repeated-mistake flag -----

  /** The zone failures a mistake report speaks of: its own, or the last known ones. */
  function FailuresAfter(m: PsychologyMemory, signals: seq<PsychologySignal>): int {
    if signals == [] then m.sameZoneFailures
    else
      var last := signals[|signals| - 1];
      if last.MistakeReport? && last.zoneFailures.Some? then last.zoneFailures.value
      else FailuresAfter(m, signals[..|signals| - 1])
  }

  ghost predicate Decisive(m: PsychologyMemory, signals: seq<PsychologySignal>, i: nat)
    requires i < |signals|
  {
    && signals[i].MistakeReport?
    && (FailuresAfter(m, signals[..i + 1]) == 0 || FailuresAfter(m, signals[..i + 1]) >= 2)
  }

  ghost predicate LastDecisive(m: PsychologyMemory, signals: seq<PsychologySignal>, i: int) {
    && 0 <= i < |signals|
    && Decisive(m, signals, i)
    && forall j :: i < j < |signals| ==> !Decisive(m, signals, j)
  }

  lemma {:induction false} FailuresAreTracked(m: PsychologyMemory, signals: seq<PsychologySignal>)
    ensures ToldAll(m, signals).sameZoneFailures == FailuresAfter(m, signals)
  {
    if signals != [] {
      FailuresAreTracked(m, signals[..|signals| - 1]);
    }
  }

  lemma ToldFlag(m: PsychologyMemory, signal: PsychologySignal)
    ensures var f := Told(m, signal).sameZoneFailures;
            Told(m, signal).repeatedMistake ==
            if signal.MistakeReport? && (f == 0 || f >= 2) then f >= 2 else m.repeatedMistake
  {
  }

  /** The flag is the verdict of the last report whose failures were 0 or at least 2; a single failure leaves it. */
  lemma {:induction false} FlagIsLastVerdict(m: PsychologyMemory, signals: seq<PsychologySignal>)
    ensures forall i :: LastDecisive(m, signals, i) ==>
              (ToldAll(m, signals).repeatedMistake <==> FailuresAfter(m, signals[..i + 1]) >= 2)
    ensures (forall j :: 0 <= j < |signals| ==> !Decisive(m, signals, j)) ==>
              ToldAll(m, signals).repeatedMistake == m.repeatedMistake
  {
    if signals != [] {
      var n := |signals| - 1;
      var init := signals[..n];
      FlagIsLastVerdict(m, init);
      FailuresAreTracked(m, init);
      FailuresAreTracked(m, signals);
      ToldFlag(ToldAll(m, init), signals[n]);
      hide Told;
      assert signals[..n + 1] == signals;
      forall i | 0 <= i < n ensures Decisive(m, signals, i) <==> Decisive(m, init, i) {
        assert signals[..i + 1] == init[..i + 1];
      }
      forall i | LastDecisive(m, signals, i)
        ensures ToldAll(m, signals).repeatedMistake <==> FailuresAfter(m, signals[..i + 1]) >= 2
      {
        if i < n {
          assert !Decisive(m, signals, n);
          assert signals[..i + 1] == init[..i + 1];
          assert LastDecisive(m, init, i);
        }
      }
      if forall j :: 0 <= j < |signals| ==> !Decisive(m, signals, j) {
        assert !Decisive(m, signals, n);
        assert forall j :: 0 <= j < n ==> !Decisive(m, init, j);
      }
    }
  }

  // ----- Every brake is explained -----

  /** A blocked trade always comes with a rule for the brake that blocks it; the baseline rule means nothing blocks. */
  lemma BlocksAreExplained(m: PsychologyMemory)
    ensures PsychologyRules(m) != []
    ensures !TradeAllowed(m) ==> CLEAR_RULE !in PsychologyRules(m)
    ensures CLEAR_RULE in PsychologyRules(m) <==>
            m.tradeAllowed && !m.cooldownActive && !m.repeatedMistake && !m.trapPressure && m.lossSequence < 3
    ensures CLEAR_RULE in PsychologyRules(m) ==> TradeAllowed(m)
  {
  }

  ghost predicate HasRule(m: PsychologyMemory, condition: string) {
    exists r :: r in PsychologyRules(m) && r.condition == condition
  }

  lemma RuleTextsDiffer()
    ensures |COOLDOWN_OVER| == 47 && |MISTAKE_OVER| == 54 && |TRAP_OVER| == 42
    ensures |LOSSES_OVER| == 39 && |BLOCK_OVER| == 46 && |CLEAR_RULE.condition| == 52
  {
  }

  /** Each brake that is on has its rule, and no other has. */
  lemma RulesAreExact(m: PsychologyMemory)
    ensures HasRule(m, COOLDOWN_OVER) <==> m.cooldownActive
    ensures HasRule(m, MISTAKE_OVER) <==> m.repeatedMistake
    ensures HasRule(m, TRAP_OVER) <==> m.trapPressure
    ensures HasRule(m, LOSSES_OVER) <==> m.lossSequence >= 3
    ensures HasRule(m, BLOCK_OVER) <==> !m.tradeAllowed
  {
    RuleTextsDiffer();
    BrakeRulesAreExact(m);
    hide BrakeRules, BlockReason, COOLDOWN_OVER, MISTAKE_OVER, TRAP_OVER, LOSSES_OVER, BLOCK_OVER;
    var cooldown := InvalidationRule(COOLDOWN_OVER, 0.0, COOLDOWN_REASON);
    var mistake := InvalidationRule(MISTAKE_OVER, 0.0, MISTAKE_REASON);
    var trap := InvalidationRule(TRAP_OVER, 0.0, TRAP_REASON);
    var losses := InvalidationRule(LOSSES_OVER, 0.0, LOSSES_REASON);
    var block := InvalidationRule(BLOCK_OVER, 0.0, BlockReason(m));
    assert m.cooldownActive ==> cooldown in BrakeRules(m) && cooldown in PsychologyRules(m);
    assert m.repeatedMistake ==> mistake in BrakeRules(m) && mistake in PsychologyRules(m);
    assert m.trapPressure ==> trap in BrakeRules(m) && trap in PsychologyRules(m);
    assert m.lossSequence >= 3 ==> losses in BrakeRules(m) && losses in PsychologyRules(m);
    assert !m.tradeAllowed ==> block in BrakeRules(m) && block in PsychologyRules(m);
  }

  lemma BrakeRulesAreExact(m: PsychologyMemory)
    ensures forall r :: r in BrakeRules(m) <==>
              || (m.cooldownActive && r == InvalidationRule(COOLDOWN_OVER, 0.0, COOLDOWN_REASON))
              || (m.repeatedMistake && r == InvalidationRule(MISTAKE_OVER, 0.0, MISTAKE_REASON))
              || (m.trapPressure && r == InvalidationRule(TRAP_OVER, 0.0, TRAP_REASON))
              || (m.lossSequence >= 3 && r == InvalidationRule(LOSSES_OVER, 0.0, LOSSES_REASON))
              || (!m.tradeAllowed && r == InvalidationRule(BLOCK_OVER, 0.0, BlockReason(m)))
  {
    hide COOLDOWN_OVER, MISTAKE_OVER, TRAP_OVER, LOSSES_OVER, BLOCK_OVER, BlockReason;
  }

  /** Trading is blocked exactly by the cooldown, loss-sequence or block rule, or by the trap rule at a high density. */
  lemma BlockedIff(m: PsychologyMemory)
    ensures !TradeAllowed(m) <==>
            || HasRule(m, COOLDOWN_OVER) || HasRule(m, LOSSES_OVER) || HasRule(m, BLOCK_OVER)
            || (HasRule(m, TRAP_OVER) && m.trapDensity > 0.7)
  {
    RulesAreExact(m);
    hide HasRule;
  }

  // ----- The cooldown and the verdict -----

  /** While the countdown is positive, every refresh on the way answers "not allowed". */
  lemma CooldownBlocks(b: Brakes, start: real, visits: seq<Visit>)
    requires b.memory.cooldownActive && b.memory.cooldownRemaining > 0.0 && b.baseline == Some(start)
    requires QuietVisits(visits) && ForwardFrom(start, visits)
    requires LastTime(start, visits) - start < b.memory.cooldownRemaining
    ensures !TradeAllowed(RefreshRun(b, visits).memory)
  {
    hide RefreshRun;
    CooldownIsPathIndependent(b, start, visits);
  }

  function WithoutCooldown(m: PsychologyMemory): PsychologyMemory {
    m.(cooldownActive := false, cooldownRemaining := 0.0)
  }

  /** Once the countdown is over, the verdict is that of the same refreshes without any cooldown. */
  lemma CooldownLeavesNoTrace(b: Brakes, start: real, visits: seq<Visit>)
    requires b.memory.cooldownActive && b.memory.cooldownRemaining > 0.0 && b.baseline == Some(start)
    requires QuietVisits(visits) && ForwardFrom(start, visits)
    requires LastTime(start, visits) - start >= b.memory.cooldownRemaining
    ensures TradeAllowed(RefreshRun(b, visits).memory) <==>
            TradeAllowed(RefreshRun(Brakes(WithoutCooldown(b.memory), b.baseline), visits).memory)
  {
    CooldownIsPathIndependent(b, start, visits);
    OtherBrakesMoveAlone(b, visits);
    hide RefreshRun;
  }

  lemma {:induction false} OtherBrakesMoveAlone(b: Brakes, visits: seq<Visit>)
    requires QuietVisits(visits)
    ensures var c := Brakes(WithoutCooldown(b.memory), b.baseline);
            RefreshRun(c, visits).memory == WithoutCooldown(RefreshRun(b, visits).memory)
  {
    if visits != [] {
      var n := |visits| - 1;
      OtherBrakesMoveAlone(b, visits[..n]);
      var m := RefreshRun(b, visits[..n]);
      var last := visits[n];
      assert NoCooldownReport(last.signals);
      ToldAlone(Decayed(m, last.now).memory, last.signals);
      assert WithoutCooldown(Decayed(m, last.now).memory) == WithoutCooldown(m.memory);
      hide ToldAll;
    }
  }

  lemma {:induction false} ToldAlone(m: PsychologyMemory, signals: seq<PsychologySignal>)
    requires NoCooldownReport(signals)
    ensures ToldAll(WithoutCooldown(m), signals) == WithoutCooldown(ToldAll(m, signals))
  {
    if signals != [] {
      var n := |signals| - 1;
      ToldAlone(m, signals[..n]);
      OtherSignal(ToldAll(m, signals[..n]), signals[n]);
      hide Told;
    }
  }

  lemma OtherSignal(m: PsychologyMemory, signal: PsychologySignal)
    requires !signal.CooldownStatus?
    ensures Told(WithoutCooldown(m), signal) == WithoutCooldown(Told(m, signal))
  {
  }

  /** The caution level in hundredths: thirty for a configured caution of one, and what each brake adds. */
  lemma CautionInPoints(m: PsychologyMemory)
    ensures var points := 30.0 * m.cautionLevel
                          + (if m.cooldownActive then 25.0 else 0.0)
                          + (if m.repeatedMistake then 20.0 else 0.0)
                          + (if !m.trapPressure then 0.0 else if m.trapDensity >= 0.5 then 15.0
                             else 30.0 * m.trapDensity)
                          + (if m.lossSequence <= 0 then 0.0 else if m.lossSequence >= 3 then 30.0
                             else 10.0 * m.lossSequence as real)
                          + (if m.mistakeCount <= 0 then 0.0 else if m.mistakeCount >= 3 then 15.0
                             else 5.0 * m.mistakeCount as real);
            100.0 * CautionLevel(m) == if points < 0.0 then 0.0 else if points > 100.0 then 100.0 else points
  {
  }

  /** What a signal tells beyond the keys it carries. */
  lemma SignalDefaults(m: PsychologyMemory)
    ensures forall reason :: Told(m, DisciplineReport(Some(false), Some(reason))).blockReason == reason
    ensures Told(m, DisciplineReport(Some(false), None)).blockReason == "Blocked by discipline report"
    ensures forall reason :: Told(m, DisciplineReport(Some(true), reason)).blockReason == m.blockReason
    ensures forall active :: Told(m, CooldownStatus(active, None)).cooldownRemaining == 0.0
    ensures forall remaining :: Told(m, CooldownStatus(None, Some(remaining))) == m.(cooldownRemaining := remaining)
  {
  }

  /** The head leans to the bearish side exactly while it forbids trading, and grows surer with what it has heard. */
  lemma BiasAndConfidence(m: PsychologyMemory, hasSignals: bool)
    ensures BrakeBias(m) == Bearish <==> !TradeAllowed(m)
    ensures BrakeBias(m) == Neutral <==> TradeAllowed(m)
    ensures 10.0 * PsychologyBaseConfidence(m, hasSignals)
            == (if hasSignals then 4.0 else 0.0) + (if !m.tradeAllowed || m.cooldownActive then 0.0 else 3.0)
               + (if m.mistakeCount <= 0 && m.lossCount <= 0 then 0.0 else 2.0)
  {
  }

  /** Every further loss in the sequence, and every brake that comes on, can only raise the caution level. */
  lemma CautionIsMonotone(m: PsychologyMemory, w: PsychologyMemory)
    requires m.cautionLevel <= w.cautionLevel && m.lossSequence <= w.lossSequence && m.mistakeCount <= w.mistakeCount
    requires (m.cooldownActive ==> w.cooldownActive) && (m.repeatedMistake ==> w.repeatedMistake)
    requires (m.trapPressure ==> w.trapPressure) && m.trapDensity <= w.trapDensity && w.trapDensity >= 0.0
    ensures 0.0 <= CautionLevel(m) <= CautionLevel(w) <= 1.0
  {
    CountCautionMonotone(m.lossSequence, w.lossSequence, 0.10, 0.30);
    CountCautionMonotone(m.mistakeCount, w.mistakeCount, 0.05, 0.15);
    assert TrapCaution(m) <= TrapCaution(w);
    hide CountCaution, TrapCaution;
  }

  lemma CountCautionMonotone(c: int, d: int, each: real, most: real)
    requires c <= d && each > 0.0 && most > 0.0
    ensures CountCaution(c, each, most) <= CountCaution(d, each, most)
  {
    assert c as real * each <= d as real * each;
    assert d > 0 ==> d as real * each > 0.0;
  }
}
