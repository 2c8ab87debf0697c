/**
 The Captain (captain_engine.py): the heavy cycle of a candle close, the light cycle of a tick, and the session
 calls around them. `Step` says what each call does to the runtime state; `CaptainEngine` is the object itself,
 proved to take exactly those steps.
*/
module CaptainEngine {
  import opened SharedTypes
  import opened SessionPolicy
  import opened Confluence
  import opened Conviction
  import opened LossLock
  import opened OverrideGuard
  import opened PermissionGate
  import opened ArmedPlans
  import opened TradeSupervision
  import opened FloorSummaries
  import opened RegimeDetection
  import opened TradeClasses
  import opened TradeConstruction

  /**
   What a heavy cycle receives. `opposition` is what the checks of the opposite-case engine would find; it is
   arbitrary here.
  */
  datatype HeavyInput = HeavyInput(
    reports: seq<Entry>,
    opposition: OppositeCase,
    summary: Option<FloorSummary>,
    time: Timestamp,
    now: real,
    mode: Option<ExecutionMode>,
    capital: real,
    price: real,
    zone: Option<real>,
    candle: int,
    atmStrike: real,
    lotSize: int)

  datatype LightInput = LightInput(
    tick: Tick,
    regime: Regime,
    oppositeStrength: real,
    oiHealthy: bool,
    dataCritical: bool,
    riskEvent: bool)

  // ----- What a heavy cycle derives from its input -----

  predicate CoreHeadStale(reports: seq<Entry>) {
    var smc, ict := FindReport(reports, SmcHead), FindReport(reports, IctHead);
    (smc.Some? && smc.value.state.Stale?) || (ict.Some? && ict.value.state.Stale?)
  }

  function PresenceOf(summary: Option<FloorSummary>): SetupPresence {
    match summary
    case None => UnknownPresence
    case Some(f) =>
      if f.setupPresence.Some? then f.setupPresence.value
      else if f.activeSetups > 0 then HasSetup
      else if f.absenceContext.Some? then f.absenceContext.value
      else if f.readyHeads >= 3 then ReadyNoSetup
      else if f.uncertainHeads >= 2 then UncertainNoSetup
      else if f.staleHeads >= 2 then StaleNoSetup
      else UnknownPresence
  }

  function DirectionOf(dominant: Bias): Option<Direction> {
    match dominant
    case Bullish => Some(Buy)
    case Bearish => Some(Sell)
    case Neutral => None
  }

  function GateInputOf(inp: HeavyInput, activeTrade: bool): GateInput {
    GateInput(inp.time,
              if inp.summary.Some? then Some(inp.summary.value.dataHealth) else None,
              FindReport(inp.reports, PsychologyHead),
              activeTrade, inp.mode, inp.capital)
  }

  /** `_direction_from_confluence`, the text that the cycle hands to the opposite-case engine. */
  function ProposedDirection(dominant: Bias): string {
    match dominant
    case Bullish => "BUY"
    case Bearish => "SELL"
    case Neutral => ""
  }

  /** `analyze` looks at the reports only for a direction it knows. */
  function AnalyzeOpposite(direction: string, found: OppositeCase): OppositeCase {
    if direction == "BULLISH" || direction == "BEARISH" then found else OppositeCase(false, 0.0)
  }

  function RegimeOf(inp: HeavyInput): Regime {
    DetectRegime(inp.summary, inp.reports)
  }

  /** The inputs of the scores while the class is still unknown. */
  function UnclassifiedInput(inp: HeavyInput, cycles: nat): ScoreInput {
    var confluence := ConfluenceOf(inp.reports);
    ScoreInput(confluence.quality, confluence.conflict,
               Some(AnalyzeOpposite(ProposedDirection(confluence.dominant), inp.opposition)), RegimeOf(inp),
               FindReport(inp.reports, PsychologyHead), PhaseOf(inp.time), CoreHeadStale(inp.reports),
               PresenceOf(inp.summary), None, cycles)
  }

  /** Steps 14 and 15: the idea suggests, the class engine decides, both before any adjustment or decay. */
  function ClassOf(inp: HeavyInput): Option<TradeClass> {
    var x := UnclassifiedInput(inp, 0);
    AssignedClass(DirectionOf(ConfluenceOf(inp.reports).dominant).Some?, x.quality, x.regime, x.phase,
                  RawScores(x).band)
  }

  function ScoreInputOf(inp: HeavyInput, cycles: nat): ScoreInput {
    UnclassifiedInput(inp, cycles).(cls := ClassOf(inp))
  }

  /** The two engines speak different languages, so every cycle scores against an absent opposite case. */
  lemma OppositeCaseIsAlwaysAbsent(inp: HeavyInput, cycles: nat)
    ensures ScoreInputOf(inp, cycles).opposite == Some(OppositeCase(false, 0.0))
  {
    hide ConfluenceOf;
    assert |"BULLISH"| == |"BEARISH"| == 7 && |"BUY"| == 3 && |"SELL"| == 4;
  }

  /** The two directions that engine knows, and the two the cycle has. */
  lemma DirectionTexts(found: OppositeCase)
    ensures AnalyzeOpposite("BULLISH", found) == AnalyzeOpposite("BEARISH", found) == found
    ensures ProposedDirection(Bullish) == "BUY" && ProposedDirection(Bearish) == "SELL"
            && ProposedDirection(Neutral) == ""
    ensures DirectionOf(Bullish) == Some(Buy) && DirectionOf(Bearish) == Some(Sell) && DirectionOf(Neutral) == None
  {
  }

  lemma RawScoresIgnoreClass(x: ScoreInput, cls: Option<TradeClass>, cycles: nat)
    ensures RawScores(x.(cls := cls, cycles := cycles)) == RawScores(x)
  {
  }

  function CooldownOf(cls: Option<TradeClass>): nat {
    match cls
    case None => 2
    case Some(Scalp) => 1
    case Some(Continuation) => 3
    case Some(Reversal) => 5
    case Some(LiquidityReclaim) => 4
    case Some(OptionsPressure) => 3
  }

  // ----- State and steps -----

  /** `attached`: the gate still holds the lock and the guard that the engine's own calls act on. */
  datatype CaptainState = CaptainState(
    activeTrade: Option<ActiveTrade>,
    cooldown: nat,
    cycles: nat,
    candle: int,
    lock: LockState,
    guard: GuardFlags,
    gateLock: LockState,
    gateGuard: GuardFlags,
    attached: bool,
    book: PlanBook,
    reviews: seq<ThesisReview>,
    interventions: seq<InterventionDecision>)

  datatype HeavyOutcome =
    | Blocked(failed: seq<Check>)
    | Decided(trade: Option<Direction>, scores: Scores, armed: Option<nat>, purged: seq<nat>)

  datatype LightOutcome = LightOutcome(watch: WatchResult, intervention: Option<InterventionDecision>)

  function Init(today: int): CaptainState {
    var lock := FreshLock(3, today);
    CaptainState(None, 0, 0, 0, lock, NO_OVERRIDE, lock, NO_OVERRIDE, true, EMPTY_BOOK, [], [])
  }

  function WithLock(s: CaptainState, lock: LockState): CaptainState {
    s.(lock := lock, gateLock := if s.attached then lock else s.gateLock)
  }

  function WithGuard(s: CaptainState, guard: GuardFlags): CaptainState {
    s.(guard := guard, gateGuard := if s.attached then guard else s.gateGuard)
  }

  /** The candle index is stored and the daily reset runs before the gate is asked. */
  function Opened(s: CaptainState, inp: HeavyInput): CaptainState {
    WithLock(s.(candle := inp.candle), AfterNewDay(s.lock, inp.time.day))
  }

  function GateVerdict(s: CaptainState, inp: HeavyInput): seq<Check> {
    BlockedBy(GateInputOf(inp, s.activeTrade.Some?), s.gateLock.locked, s.gateGuard.granted)
  }

  /** The primary zone of the summary, or the price where there is none. */
  function ArmingZone(inp: HeavyInput): real {
    Or(inp.zone, inp.price)
  }

  function ArmedBook(s: CaptainState, inp: HeavyInput): PlanBook {
    var direction := DirectionOf(ConfluenceOf(inp.reports).dominant);
    if direction.Some? && ClassOf(inp).Some? && s.cooldown == 0 then
      Created(s.book, direction.value, ClassOf(inp).value, ArmingZone(inp), inp.candle, inp.now)
    else s.book
  }

  /** The constructor is asked only for a viable, directed trade, with the scores as the decay left them. */
  predicate Buildable(inp: HeavyInput, direction: Option<Direction>, band: ConvictionBand) {
    direction.Some? && Constructable(direction.value, inp.atmStrike, inp.capital, inp.lotSize, band)
  }

  function TradeDecision(s: CaptainState, inp: HeavyInput): Option<Direction> {
    var scores := FinalScores(ScoreInputOf(inp, s.cycles));
    var direction := DirectionOf(ConfluenceOf(inp.reports).dominant);
    if s.cooldown <= 1 && ShouldTrade(scores) && Buildable(inp, direction, scores.band) then direction else None
  }

  /** What a cycle that passed the gate reports. */
  function OpenOut(s: CaptainState, inp: HeavyInput): HeavyOutcome {
    var book := ArmedBook(s, inp);
    Decided(TradeDecision(s, inp), FinalScores(ScoreInputOf(inp, s.cycles)),
            if book == s.book then None else Some(s.book.issued),
            PurgedIds(book.plans, inp.candle))
  }

  /** What a cycle that passed the gate leaves behind. */
  function OpenNext(s: CaptainState, inp: HeavyInput): CaptainState {
    var book := ArmedBook(s, inp);
    var trade := TradeDecision(s, inp);
    s.(book := book.(plans := PurgeAll(book.plans, inp.candle)),
       cooldown := if s.cooldown > 0 then s.cooldown - 1 else 0,
       cycles := if trade.Some? then 0 else s.cycles + 1,
       activeTrade := if trade.Some? then Some(ActiveTrade(trade.value, Or(ClassOf(inp), Scalp)))
                      else s.activeTrade)
  }

  function HeavyOut(s: CaptainState, inp: HeavyInput): HeavyOutcome {
    var s1 := Opened(s, inp);
    var failed := GateVerdict(s1, inp);
    if failed != [] then Blocked(failed) else OpenOut(s1, inp)
  }

  function HeavyNext(s: CaptainState, inp: HeavyInput): CaptainState {
    var s1 := Opened(s, inp);
    if GateVerdict(s1, inp) != [] then s1 else OpenNext(s1, inp)
  }

  function InterventionInputOf(trade: Option<ActiveTrade>, x: LightInput): InterventionInput {
    InterventionInput(trade, x.regime, x.oppositeStrength, x.oiHealthy, x.dataCritical, x.riskEvent)
  }

  function LightOut(s: CaptainState, x: LightInput): LightOutcome {
    LightOutcome(WatchResultOf(s.book.plans, x.tick),
                 if s.activeTrade.Some?
                 then Some(InterventionFor(LatestReview(s.reviews), InterventionInputOf(s.activeTrade, x)))
                 else None)
  }

  function LightNext(s: CaptainState, x: LightInput): CaptainState {
    var d := LightOut(s, x).intervention;
    s.(book := s.book.(plans := WatchAll(s.book.plans, x.tick)),
       interventions := if d.Some? then s.interventions + [d.value] else s.interventions)
  }

  function CompleteNext(s: CaptainState, cls: Option<TradeClass>): CaptainState {
    s.(activeTrade := None, cooldown := CooldownOf(cls))
  }

  /** The engine gets a new lock and a new guard; the gate keeps the old ones. */
  function SessionNext(s: CaptainState, today: int): CaptainState {
    CaptainState(None, 0, 0, 0, FreshLock(3, today), NO_OVERRIDE, s.gateLock, s.gateGuard, false,
                 PlanBook([], s.book.issued), [], [])
  }

  datatype Event =
    | Heavy(inp: HeavyInput)
    | Light(tickInput: LightInput)
    | TradeComplete(cls: Option<TradeClass>)
    | LossRecorded(today: int)
    | SessionStart(today: int)
    | ModeSet(mode: ExecutionMode)
    | LockReset(date: int)
    | OverrideAsked
    | OverrideAnswered(grant: bool)
    | OverrideCleared

  function Step(s: CaptainState, e: Event): CaptainState {
    match e
    case Heavy(inp) => HeavyNext(s, inp)
    case Light(x) => LightNext(s, x)
    case TradeComplete(cls) => CompleteNext(s, cls)
    case LossRecorded(today) => WithLock(s, AfterLoss(s.lock, today))
    case SessionStart(today) => SessionNext(s, today)
    case ModeSet(mode) => WithLock(s, AfterMode(s.lock, mode))
    case LockReset(date) => WithLock(s, AfterReset(s.lock, date))
    case OverrideAsked => WithGuard(s, AfterRequire(s.guard))
    case OverrideAnswered(grant) => WithGuard(s, if grant then AfterGrant(s.guard) else AfterDeny(s.guard))
    case OverrideCleared => WithGuard(s, NO_OVERRIDE)
  }

  ghost predicate ValidState(s: CaptainState) {
    && Consistent(s.lock)
    && Consistent(s.gateLock)
    && (s.attached ==> s.gateLock == s.lock && s.gateGuard == s.guard)
    && ValidBook(s.book)
    && s.reviews == []
  }

  lemma ValidStateHasBook(s: CaptainState)
    requires ValidState(s)
    ensures ValidBook(s.book)
  {
  }

  lemma LockStepKeepsValid(s: CaptainState, lock: LockState)
    requires ValidState(s) && Consistent(lock)
    ensures ValidState(WithLock(s, lock))
  {
  }

  lemma PurgeKeepsIds(plans: seq<Plan>, candle: int)
    ensures forall i :: 0 <= i < |plans| ==> PurgeAll(plans, candle)[i].id == plans[i].id
  {
    hide ClassExpired;
  }

  lemma OpenNextKeepsValid(s: CaptainState, inp: HeavyInput)
    requires ValidState(s)
    ensures ValidState(OpenNext(s, inp))
  {
    hide FinalScores, Consistent, ClassOf, ConfluenceOf, ScoreInputOf, Buildable, ShouldTrade, CaptainPlan, PurgeOne;
    var book := ArmedBook(s, inp);
    assert ValidBook(book) by {
      if book != s.book {
        CreatedKeepsValid(s.book, DirectionOf(ConfluenceOf(inp.reports).dominant).value, ClassOf(inp).value,
                          ArmingZone(inp), inp.candle, inp.now);
      }
    }
    PurgeKeepsIds(book.plans, inp.candle);
    assert ValidBook(OpenNext(s, inp).book);
  }

  lemma HeavyNextKeepsValid(s: CaptainState, inp: HeavyInput)
    requires ValidState(s)
    ensures ValidState(HeavyNext(s, inp))
  {
    hide OpenNext, GateVerdict;
    LockStaysConsistent(s.lock, inp.time.day, Alert);
    LockStepKeepsValid(s.(candle := inp.candle), AfterNewDay(s.lock, inp.time.day));
    OpenNextKeepsValid(Opened(s, inp), inp);
  }

  lemma LightNextKeepsValid(s: CaptainState, x: LightInput)
    requires ValidState(s)
    ensures ValidState(LightNext(s, x))
  {
    hide Consistent, InterventionFor, WatchResultOf, WatchOne;
    var b := LightNext(s, x).book;
    forall i | 0 <= i < |b.plans| ensures b.plans[i].id == s.book.plans[i].id {
      WatchKeepsId(s.book.plans[i], x.tick);
    }
  }

  lemma SessionKeepsValid(s: CaptainState, today: int)
    requires ValidState(s)
    ensures ValidState(SessionNext(s, today))
  {
    FreshLockIsConsistent(3, today);
  }

  lemma StepKeepsValid(s: CaptainState, e: Event)
    requires ValidState(s)
    ensures ValidState(Step(s, e))
  {
    hide HeavyNext, LightNext, Consistent;
    match e {
      case Heavy(inp) => HeavyNextKeepsValid(s, inp);
      case Light(x) => LightNextKeepsValid(s, x);
      case LossRecorded(today) =>
        LockStaysConsistent(s.lock, today, Alert);
        LockStepKeepsValid(s, AfterLoss(s.lock, today));
      case ModeSet(mode) =>
        LockStaysConsistent(s.lock, 0, mode);
        LockStepKeepsValid(s, AfterMode(s.lock, mode));
      case LockReset(date) =>
        LockStaysConsistent(s.lock, date, Alert);
        LockStepKeepsValid(s, AfterReset(s.lock, date));
      case SessionStart(today) =>
        SessionKeepsValid(s, today);
      case _ =>
    }
  }

  lemma NoActiveTradePastGate(s: CaptainState, inp: HeavyInput)
    requires GateVerdict(s, inp) == []
    ensures s.activeTrade.None?
  {
  }

  // ----- The object -----

  class CaptainEngine {
    var lossLock: LossLockManager
    var overrideGuard: OverrideGuard
    const gate: PermissionGate
    const planEngine: ArmedPlanEngine
    const supervisor: ActiveTradeSupervisor
    const interventionEngine: InterventionEngine
    var activeTrade: Option<ActiveTrade>
    var candleIndex: int
    var cyclesWithoutTrade: nat
    var cooldownRemaining: nat

    ghost predicate Valid()
      reads this, lossLock, overrideGuard, gate.lossLock, gate.overrideGuard, planEngine, supervisor, interventionEngine
    {
      && gate.overrideGuard != null
      && (lossLock == gate.lossLock <==> overrideGuard == gate.overrideGuard)
      && interventionEngine.Valid()
      && ValidState(View())
    }

    ghost function View(): CaptainState
      requires gate.overrideGuard != null
      reads this, lossLock, overrideGuard, gate.lossLock, gate.overrideGuard, planEngine, supervisor, interventionEngine
    {
      CaptainState(activeTrade, cooldownRemaining, cyclesWithoutTrade, candleIndex,
                   lossLock.State(), overrideGuard.Flags(),
                   gate.lossLock.State(), gate.overrideGuard.Flags(), lossLock == gate.lossLock,
                   planEngine.Book(), supervisor.reviews, interventionEngine.history)
    }

    constructor (today: int)
      ensures Valid() && View() == Init(today)
    {
      var lock := new LossLockManager(None, today);
      var guard := new OverrideGuard();
      lossLock := lock;
      overrideGuard := guard;
      gate := new PermissionGate(lock, guard);
      planEngine := new ArmedPlanEngine();
      supervisor := new ActiveTradeSupervisor();
      interventionEngine := new InterventionEngine();
      activeTrade := None;
      candleIndex := 0;
      cyclesWithoutTrade := 0;
      cooldownRemaining := 0;
    }

    method HeavyCycle(inp: HeavyInput) returns (out: HeavyOutcome)
      requires Valid()
      modifies this, lossLock, planEngine
      ensures Valid() && View() == HeavyNext(old(View()), inp)
      ensures out == HeavyOut(old(View()), inp)
    {
      hide ValidState, BlockedBy, OpenNext, OpenOut, ValidBook;
      ghost var s := View();
      ValidStateHasBook(s);
      StepKeepsValid(s, Heavy(inp));
      candleIndex := inp.candle;
      var _ := lossLock.CheckAndResetIfNewDay(inp.time.day);
      ghost var s1 := View();
      assert s1 == Opened(s, inp);

      // Steps 1 and 2: the permission gate
      var failed, _ := gate.CheckAll(GateInputOf(inp, activeTrade.Some?));
      assert failed == GateVerdict(s1, inp);
      if failed != [] {
        return Blocked(failed);
      }
      out := DecideCycle(inp);
    }

    /** Steps 3 to 23, for a cycle that passed the gate. */
    method DecideCycle(inp: HeavyInput) returns (out: HeavyOutcome)
      requires gate.overrideGuard != null && candleIndex == inp.candle
      requires GateVerdict(View(), inp) == [] && ValidBook(planEngine.Book())
      modifies this, planEngine
      ensures lossLock == old(lossLock) && overrideGuard == old(overrideGuard)
      ensures View() == OpenNext(old(View()), inp)
      ensures out == OpenOut(old(View()), inp)
    {
      hide FinalScores, GateVerdict, ArmedBook, ValidBook, ConfluenceOf, ScoreInputOf, UnclassifiedInput, ClassOf,
        ShouldTrade, Buildable;
      // Step 20 would review the thesis of an active trade, but the gate has already turned such a cycle away.
      NoActiveTradePastGate(View(), inp);
      assert activeTrade.None?;

      var confluence := ComputeConfluence(inp.reports);
      var direction := DirectionOf(confluence.dominant);
      var cls, scores := ScoreCycle(inp, confluence, direction);
      var viable := ShouldTrade(scores);
      var armed, purged := ArmAndPurge(direction, cls, inp);
      var trade := CloseCycle(viable, direction, cls, scores.band, inp);
      out := Decided(trade, scores, armed, purged);
    }

    /** Steps 3, 9, 10 and 12 to 19: story, opposite case, scores, class, adjustments, decay. */
    method ScoreCycle(inp: HeavyInput, confluence: ConfluenceResult, direction: Option<Direction>)
      returns (cls: Option<TradeClass>, scores: Scores)
      requires confluence == ConfluenceOf(inp.reports) && direction == DirectionOf(confluence.dominant)
      ensures cls == ClassOf(inp)
      ensures scores == FinalScores(ScoreInputOf(inp, cyclesWithoutTrade))
    {
      hide DetectRegime, RawScores, AdjustScores, DecayScores, AssignedClass, CoreHeadStale, PresenceOf, ConfluenceOf,
        PhaseOf, FindReport;
      var regime := DetectRegime(inp.summary, inp.reports);
      var phase := PhaseOf(inp.time);
      var opposite := AnalyzeOpposite(ProposedDirection(confluence.dominant), inp.opposition);
      var coreStale := CoreHeadStale(inp.reports);
      var presence := PresenceOf(inp.summary);
      var x := ScoreInput(confluence.quality, confluence.conflict, Some(opposite), regime,
                          FindReport(inp.reports, PsychologyHead), phase, coreStale, presence, None, 0);
      var raw := ComputeRawScores(x);
      cls := AssignTradeClass(direction.Some?, confluence.quality, regime, phase, raw.band);
      RawScoresIgnoreClass(x, cls, cyclesWithoutTrade);
      scores := AdjustAndDecay(raw, coreStale, presence, cls, cyclesWithoutTrade);
    }

    /** Steps 17 and 18: arm a plan unless the cooldown runs, then purge by class window. */
    method ArmAndPurge(direction: Option<Direction>, cls: Option<TradeClass>, inp: HeavyInput)
      returns (armed: Option<nat>, purged: seq<nat>)
      requires gate.overrideGuard != null && candleIndex == inp.candle && ValidBook(planEngine.Book())
      requires direction == DirectionOf(ConfluenceOf(inp.reports).dominant) && cls == ClassOf(inp)
      modifies planEngine
      ensures var book := ArmedBook(old(View()), inp);
              && planEngine.Book() == book.(plans := PurgeAll(book.plans, inp.candle))
              && purged == PurgedIds(book.plans, inp.candle)
              && armed == if book == old(planEngine.Book()) then None else Some(old(planEngine.issued))
    {
      hide ConfluenceOf, ClassOf, ValidBook;
      armed := None;
      if direction.Some? && cls.Some? && cooldownRemaining == 0 {
        armed := Some(planEngine.issued);
        CreatedKeepsValid(planEngine.Book(), direction.value, cls.value, ArmingZone(inp), inp.candle, inp.now);
        BuildArmedPlan(direction.value, cls.value, inp);
      }
      purged := planEngine.PurgeExpired(inp.candle);
    }

    /** Step 21 and the state updates after it: the cooldown ticks down first, then the trade may open. */
    method CloseCycle(viable: bool, direction: Option<Direction>, cls: Option<TradeClass>, band: ConvictionBand,
                      inp: HeavyInput)
      returns (trade: Option<Direction>)
      modifies this
      ensures trade == if old(cooldownRemaining) <= 1 && viable && Buildable(inp, direction, band)
                       then direction else None
      ensures cooldownRemaining == if old(cooldownRemaining) > 0 then old(cooldownRemaining) - 1 else 0
      ensures cyclesWithoutTrade == if trade.Some? then 0 else old(cyclesWithoutTrade) + 1
      ensures activeTrade == if trade.Some? then Some(ActiveTrade(trade.value, Or(cls, Scalp))) else old(activeTrade)
      ensures lossLock == old(lossLock) && overrideGuard == old(overrideGuard) && candleIndex == old(candleIndex)
    {
      if cooldownRemaining > 0 {
        cooldownRemaining := cooldownRemaining - 1;
      }
      var constructable := false;
      if cooldownRemaining == 0 && viable && direction.Some? {
        constructable := Constructable(direction.value, inp.atmStrike, inp.capital, inp.lotSize, band);
      }
      if constructable {
        trade := direction;
        activeTrade := Some(ActiveTrade(direction.value, Or(cls, Scalp)));
        cyclesWithoutTrade := 0;
      } else {
        trade := None;
        cyclesWithoutTrade := cyclesWithoutTrade + 1;
      }
    }

    method BuildArmedPlan(direction: Direction, cls: TradeClass, inp: HeavyInput)
      requires candleIndex == inp.candle
      modifies planEngine
      ensures planEngine.Book() == Created(old(planEngine.Book()), direction, cls, ArmingZone(inp), inp.candle, inp.now)
    {
      var zone := if inp.zone.Some? then inp.zone.value else inp.price;
      var trigger, invalidation;
      if direction.Buy? {
        trigger, invalidation := Above(zone), zone * 0.995;
      } else {
        trigger, invalidation := Below(zone), zone * 1.005;
      }
      var window := ExpiryWindow(cls);
      var expiry := if window > 0 then Candles(window, Some(candleIndex), 0) else AfterMinutes(30.0);
      var _ := planEngine.CreatePlan(direction, cls, trigger, expiry, invalidation, candleIndex, inp.now);
    }

    method LightCycle(x: LightInput) returns (out: LightOutcome)
      requires Valid()
      modifies planEngine, interventionEngine
      ensures Valid() && View() == LightNext(old(View()), x)
      ensures out == LightOut(old(View()), x)
    {
      hide ValidState, InterventionFor, WatchResultOf, WatchAll, ValidBook;
      ValidStateHasBook(View());
      StepKeepsValid(View(), Light(x));
      var watch := planEngine.WatchPlans(x.tick);
      var intervention: Option<InterventionDecision> := None;
      if activeTrade.Some? {
        var d := interventionEngine.EvaluateIntervention(supervisor, InterventionInputOf(activeTrade, x));
        intervention := Some(d);
      }
      out := LightOutcome(watch, intervention);
    }

    method OnTradeComplete(cls: Option<TradeClass>)
      requires Valid()
      modifies this, supervisor
      ensures Valid() && View() == CompleteNext(old(View()), cls)
    {
      activeTrade := None;
      supervisor.ClearActiveTrade();
      cooldownRemaining := CooldownOf(cls);
    }

    method RecordLoss(today: int)
      requires Valid()
      modifies lossLock
      ensures Valid() && View() == Step(old(View()), LossRecorded(today))
    {
      StepKeepsValid(View(), LossRecorded(today));
      var _ := lossLock.RecordLoss(today);
    }

    /** Replaces the lock and the guard, but not the gate that holds the first ones. */
    method StartSession(today: int)
      requires Valid()
      modifies this, planEngine, supervisor, interventionEngine
      ensures Valid() && View() == SessionNext(old(View()), today)
      ensures fresh(lossLock) && fresh(overrideGuard)
    {
      hide ValidState, FreshLock, WellFormedReview, CountInterventions;
      SessionKeepsValid(View(), today);
      activeTrade := None;
      candleIndex := 0;
      cyclesWithoutTrade := 0;
      cooldownRemaining := 0;
      lossLock := new LossLockManager(None, today);
      overrideGuard := new OverrideGuard();
      planEngine.ClearSession();
      supervisor.ClearSession();
      interventionEngine.ClearSession();
    }
  }
}
