/** What holds over whole runs of the Captain: any sequence of heavy cycles, ticks and calls, in any order. */
module CaptainRuns {
  import opened SharedTypes
  import opened Numerics
  import opened SessionPolicy
  import opened Confluence
  import opened Conviction
  import opened PermissionGate
  import opened TradeSupervision
  import opened FloorSummaries
  import opened CaptainEngine

  function After(s: CaptainState, run: seq<Event>): CaptainState {
    if run == [] then s else Step(After(s, run[..|run| - 1]), run[|run| - 1])
  }

  /** The state in which event `i` of the run arrives. */
  function Before(s: CaptainState, run: seq<Event>, i: nat): CaptainState
    requires i <= |run|
  {
    After(s, run[..i])
  }

  lemma {:induction false} AfterSplit(s: CaptainState, a: seq<Event>, b: seq<Event>)
    ensures After(s, a + b) == After(After(s, a), b)
  {
    if b == [] {
      assert a + b == a;
    } else {
      var n := |b| - 1;
      assert (a + b)[..|a + b| - 1] == a + b[..n];
      AfterSplit(s, a, b[..n]);
    }
  }

  lemma AfterStep(s: CaptainState, run: seq<Event>, i: nat)
    requires i < |run|
    ensures Before(s, run, i + 1) == Step(Before(s, run, i), run[i])
  {
    assert run[..i + 1][..i] == run[..i];
  }

  lemma {:induction false} RunKeepsValid(s: CaptainState, run: seq<Event>)
    requires ValidState(s)
    ensures ValidState(After(s, run))
  {
    if run != [] {
      RunKeepsValid(s, run[..|run| - 1]);
      StepKeepsValid(After(s, run[..|run| - 1]), run[|run| - 1]);
    }
  }

  lemma InitIsValid(today: int)
    ensures ValidState(Init(today))
  {
  }

  /** A heavy cycle that the gate lets through. */
  predicate OpenCycle(s: CaptainState, e: Event) {
    e.Heavy? && GateVerdict(Opened(s, e.inp), e.inp) == []
  }

  function Traded(s: CaptainState, e: Event): Option<Direction> {
    if OpenCycle(s, e) then TradeDecision(Opened(s, e.inp), e.inp) else None
  }

  function OpenCycles(s: CaptainState, run: seq<Event>): nat {
    if run == [] then 0
    else
      var n := |run| - 1;
      OpenCycles(s, run[..n]) + (if OpenCycle(After(s, run[..n]), run[n]) then 1 else 0)
  }

  ghost predicate NoTrade(s: CaptainState, run: seq<Event>) {
    forall i :: 0 <= i < |run| ==> Traded(Before(s, run, i), run[i]).None?
  }

  /** NoTrade can be read off event by event. */
  lemma NoTradeUnfolds(s: CaptainState, run: seq<Event>)
    requires run != []
    ensures var n := |run| - 1;
            NoTrade(s, run) <==> NoTrade(s, run[..n]) && Traded(After(s, run[..n]), run[n]).None?
  {
    hide Step, Traded;
    var n := |run| - 1;
    forall i | 0 <= i < n ensures Before(s, run[..n], i) == Before(s, run, i) && run[..n][i] == run[i] {
      assert run[..n][..i] == run[..i];
    }
    if NoTrade(s, run) {
      assert Traded(Before(s, run, n), run[n]).None?;
    }
    if NoTrade(s, run[..n]) && Traded(After(s, run[..n]), run[n]).None? {
      forall i | 0 <= i < |run| ensures Traded(Before(s, run, i), run[i]).None? {
        if i < n {
          assert Traded(Before(s, run[..n], i), run[..n][i]).None?;
        }
      }
    }
    if NoTrade(s, run) {
      forall i | 0 <= i < n ensures Traded(Before(s, run[..n], i), run[..n][i]).None? {
        assert Traded(Before(s, run, i), run[i]).None?;
      }
    }
  }

  ghost predicate NoSessionStart(run: seq<Event>) {
    forall e :: e in run ==> !e.SessionStart?
  }

  ghost predicate ContractReports(run: seq<Event>) {
    forall e :: e in run && e.Heavy? ==> UnitConfidence(e.inp.reports)
  }

  // ----- What one event does to the counters -----

  lemma ActiveTradeStep(s: CaptainState, e: Event)
    ensures s.activeTrade.Some? ==> Traded(s, e).None?
    ensures s.activeTrade.Some? && !e.TradeComplete? && !e.SessionStart? ==> Step(s, e).activeTrade.Some?
    ensures Traded(s, e).Some? ==> Step(s, e).activeTrade.Some?
    ensures s.activeTrade.None? && Step(s, e).activeTrade.Some? ==> Traded(s, e).Some?
  {
    hide BlockedBy, FinalScores;
    if OpenCycle(s, e) {
      NoActiveTradePastGate(Opened(s, e.inp), e.inp);
    }
  }

  lemma CooldownStep(s: CaptainState, e: Event)
    requires !e.TradeComplete? && !e.SessionStart?
    ensures Step(s, e).cooldown == MaxI(0, s.cooldown - (if OpenCycle(s, e) then 1 else 0))
  {
  }

  lemma CyclesStep(s: CaptainState, e: Event)
    requires !e.SessionStart?
    ensures Step(s, e).cycles == if Traded(s, e).Some? then 0 else s.cycles + (if OpenCycle(s, e) then 1 else 0)
  {
    hide BlockedBy, FinalScores;
  }

  // ----- One trade at a time -----

  lemma TradedIsHeavy(s: CaptainState, e: Event)
    requires Traded(s, e).Some?
    ensures e.Heavy?
  {
  }

  /** A cycle decides TRADE exactly when it sets the active trade; nothing else ever sets it. */
  lemma TradeSetsActive(s: CaptainState, e: Event)
    ensures Traded(s, e).Some? <==> s.activeTrade.None? && Step(s, e).activeTrade.Some?
    ensures e.Heavy? ==>
              (Traded(s, e).Some? <==> HeavyOut(s, e.inp).Decided? && HeavyOut(s, e.inp).trade.Some?)
  {
    if OpenCycle(s, e) {
      NoActiveTradePastGate(Opened(s, e.inp), e.inp);
    }
  }

  /**
   No TRADE outside 9:45 to 13:00 IST on weekdays, against the psychology head, on CRITICAL data or without capital.
  */
  lemma TradesRespectTheGate(s: CaptainState, e: Event)
    requires Traded(s, e).Some?
    ensures e.inp.time.day % 7 < 5 && 4 * 60 + 15 <= e.inp.time.minute < 7 * 60 + 30
    ensures FindReport(e.inp.reports, PsychologyHead).Some? ==>
              FindReport(e.inp.reports, PsychologyHead).value.tradeAllowed
    ensures e.inp.summary.Some? ==> !e.inp.summary.value.dataHealth.CriticalHealth?
    ensures e.inp.mode.Some? && e.inp.capital > 0.0
  {
    var s1 := Opened(s, e.inp);
    var x := GateInputOf(e.inp, s1.activeTrade.Some?);
    BlockedByIsExact(x, s1.gateLock.locked, s1.gateGuard.granted);
    assert Passes(MarketOpenCheck, x, s1.gateLock.locked, s1.gateGuard.granted);
    assert Passes(PsychologyCheck, x, s1.gateLock.locked, s1.gateGuard.granted);
    assert Passes(DataHealthCheck, x, s1.gateLock.locked, s1.gateGuard.granted);
    assert Passes(ModeCheck, x, s1.gateLock.locked, s1.gateGuard.granted);
    assert Passes(SessionCheck, x, s1.gateLock.locked, s1.gateGuard.granted);
    assert Passes(CapitalCheck, x, s1.gateLock.locked, s1.gateGuard.granted);
    TradingWindow(e.inp.time);
  }

  lemma {:induction false} ActiveTradePersists(s: CaptainState, run: seq<Event>)
    requires s.activeTrade.Some?
    requires forall e :: e in run ==> !e.TradeComplete? && !e.SessionStart?
    ensures After(s, run).activeTrade.Some?
  {
    hide Step;
    if run != [] {
      var n := |run| - 1;
      ActiveTradePersists(s, run[..n]);
      ActiveTradeStep(After(s, run[..n]), run[n]);
    }
  }

  /** Between two TRADEs of any run lies a completed trade or a session start. */
  lemma TradesAreSeparated(s: CaptainState, run: seq<Event>, i: nat, j: nat)
    requires i < j < |run|
    requires Traded(Before(s, run, i), run[i]).Some? && Traded(Before(s, run, j), run[j]).Some?
    ensures exists k :: i < k < j && (run[k].TradeComplete? || run[k].SessionStart?)
  {
    hide Step, Traded;
    if forall k :: i < k < j ==> !run[k].TradeComplete? && !run[k].SessionStart? {
      var mid, between := Before(s, run, i + 1), run[i + 1..j];
      AfterStep(s, run, i);
      ActiveTradeStep(Before(s, run, i), run[i]);
      ActiveTradePersists(mid, between);
      assert run[..j] == run[..i + 1] + between;
      AfterSplit(s, run[..i + 1], between);
      ActiveTradeStep(Before(s, run, j), run[j]);
      assert false;
    }
  }

  // ----- Cooldown spacing -----

  lemma {:induction false} CooldownCountsOpenCycles(s: CaptainState, run: seq<Event>)
    requires forall e :: e in run ==> !e.TradeComplete? && !e.SessionStart?
    ensures After(s, run).cooldown == MaxI(0, s.cooldown - OpenCycles(s, run))
  {
    hide Step, OpenCycle;
    if run != [] {
      CooldownCountsOpenCycles(s, run[..|run| - 1]);
      CooldownStep(After(s, run[..|run| - 1]), run[|run| - 1]);
    }
  }

  /**
   After a completion that set cooldown k, the first k - 1 cycles that pass the gate cannot trade and the first
   k arm no plan; `passed` is the part of the run before the cycle in question.
  */
  lemma CooldownSpacing(s: CaptainState, cls: Option<TradeClass>, passed: seq<Event>, e: Event)
    requires forall x :: x in passed ==> !x.TradeComplete? && !x.SessionStart?
    requires OpenCycle(After(CompleteNext(s, cls), passed), e)
    ensures var s1 := After(CompleteNext(s, cls), passed);
            var nth := OpenCycles(CompleteNext(s, cls), passed) + 1;
            && (nth < CooldownOf(cls) ==> Traded(s1, e).None?)
            && (nth <= CooldownOf(cls) ==> HeavyOut(s1, e.inp).armed.None?)
  {
    hide BlockedBy, FinalScores, Step, ScoreInputOf, ConfluenceOf, ShouldTrade, ClassOf, Buildable;
    CooldownCountsOpenCycles(CompleteNext(s, cls), passed);
  }

  // ----- Interventions -----

  /** The tick as the system runner sends it: a price and a candle index, everything else at its default. */
  predicate RunnerTick(x: LightInput) {
    x.regime.NoRegime? && x.oppositeStrength == 0.0 && x.oiHealthy && !x.dataCritical && !x.riskEvent
  }

  /**
   No thesis review is ever made while a trade is active, so ticks sent the way the runner sends them never
   raise an intervention, in any run.
  */
  lemma RunnerNeverIntervenes(today: int, run: seq<Event>, x: LightInput)
    requires RunnerTick(x)
    ensures var out := LightOut(After(Init(today), run), x);
            out.intervention.Some? ==> out.intervention.value.NoIntervention?
  {
    InitIsValid(today);
    RunKeepsValid(Init(today), run);
    var s := After(Init(today), run);
    WithoutReviews(InterventionInputOf(s.activeTrade, x));
  }
}
