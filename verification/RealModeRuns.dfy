/** The loss lock and the override over whole runs: which REAL cycles are stopped, and how long a grant lasts. */
module RealModeRuns {
  import opened SharedTypes
  import opened Confluence
  import opened Conviction
  import opened PermissionGate
  import opened CaptainEngine
  import opened CaptainRuns
  import opened LossLock
  import opened ArmedPlans
  import opened TradeSupervision
  import opened OverrideGuard
  import opened CaptainLockout

  // ----- Loss lock -----

  function ModeAfter(run: seq<Event>): ExecutionMode {
    if run == [] then Alert
    else if run[|run| - 1].ModeSet? then run[|run| - 1].mode
    else ModeAfter(run[..|run| - 1])
  }

  /** The day of the last counter reset; `today` is the day of construction. */
  function ResetDay(today: int, run: seq<Event>): int {
    if run == [] then today
    else
      var day := ResetDay(today, run[..|run| - 1]);
      match run[|run| - 1]
      case Heavy(inp) => if inp.time.day > day then inp.time.day else day
      case LockReset(date) => date
      case _ => day
  }

  predicate Resets(today: int, run: seq<Event>, e: Event) {
    e.LockReset? || (e.Heavy? && e.inp.time.day > ResetDay(today, run))
  }

  /** The losses recorded in REAL mode since the last counter reset. */
  function RealLosses(today: int, run: seq<Event>): nat {
    if run == [] then 0
    else
      var init, last := run[..|run| - 1], run[|run| - 1];
      if Resets(today, init, last) then 0
      else RealLosses(today, init) + (if last.LossRecorded? && ModeAfter(init).Real? then 1 else 0)
  }

  lemma LockStep(s: CaptainState, e: Event)
    requires !e.SessionStart? && s.attached && s.gateLock == s.lock && s.gateGuard == s.guard
    ensures var t := Step(s, e);
            && t.attached && t.gateLock == t.lock && t.gateGuard == t.guard
            && t.lock == (match e
                          case Heavy(inp) => AfterNewDay(s.lock, inp.time.day)
                          case LossRecorded(today) => AfterLoss(s.lock, today)
                          case ModeSet(mode) => AfterMode(s.lock, mode)
                          case LockReset(date) => AfterReset(s.lock, date)
                          case _ => s.lock)
  {
  }

  /** Without a session start, engine and gate share one lock, and it knows exactly the counted losses. */
  lemma {:induction false} LockCountsRealLosses(today: int, run: seq<Event>)
    requires NoSessionStart(run)
    ensures var s := After(Init(today), run);
            && s.attached && s.gateLock == s.lock && s.gateGuard == s.guard
            && s.lock.maxLosses == 3
            && s.lock.mode == ModeAfter(run)
            && s.lock.resetDate == ResetDay(today, run)
            && s.lock.count == RealLosses(today, run)
            && (s.lock.locked <==> RealLosses(today, run) >= 3)
  {
    hide Step;
    if run != [] {
      LockCountsRealLosses(today, run[..|run| - 1]);
      LockStep(After(Init(today), run[..|run| - 1]), run[|run| - 1]);
    }
  }

  lemma RealLockVerdict(s: CaptainState, inp: HeavyInput)
    requires inp.mode == Some(Real)
    ensures RealModeLockCheck in GateVerdict(s, inp) <==> s.gateLock.locked && !s.gateGuard.granted
  {
  }

  /**
   End to end: without a session start, a REAL cycle is stopped by `real_mode_lock` exactly when three REAL
   losses stand since the last reset, this cycle's own new-day reset included, and no override is granted. A
   stopped cycle opens no trade.
  */
  lemma RealCyclesBlockAfterThreeLosses(today: int, run: seq<Event>, inp: HeavyInput)
    requires NoSessionStart(run) && inp.mode == Some(Real)
    ensures var s := After(Init(today), run);
            var stopped := RealLosses(today, run + [Heavy(inp)]) >= 3 && !s.guard.granted;
            && (stopped <==> HeavyOut(s, inp).Blocked? && RealModeLockCheck in HeavyOut(s, inp).failed)
            && (stopped ==> HeavyNext(s, inp).activeTrade == s.activeTrade && Traded(s, Heavy(inp)).None?)
  {
    var s := After(Init(today), run);
    LockCountsRealLosses(today, run);
    assert (run + [Heavy(inp)])[..|run|] == run;
    RealLockVerdict(Opened(s, inp), inp);
    hide BlockedBy, FinalScores, OpenOut, OpenNext;
  }

  lemma {:induction false} DetachedGateIsFrozen(s: CaptainState, run: seq<Event>)
    requires !s.attached
    ensures var t := After(s, run);
            !t.attached && t.gateLock == s.gateLock && t.gateGuard == s.gateGuard
  {
    hide Step;
    if run != [] {
      DetachedGateIsFrozen(s, run[..|run| - 1]);
      DetachedStep(After(s, run[..|run| - 1]), run[|run| - 1]);
    }
  }

  lemma DetachedStep(s: CaptainState, e: Event)
    requires !s.attached
    ensures !Step(s, e).attached && Step(s, e).gateLock == s.gateLock && Step(s, e).gateGuard == s.gateGuard
  {
    hide BlockedBy, FinalScores;
  }

  /**
   From the first session start on, the REAL check of every cycle repeats the verdict of that moment: open for
   ever if the lock was open, whatever is lost later, and closed for ever if it was closed without an override,
   whatever the calendar or the operator do.
  */
  lemma SessionStartFreezesRealLock(s: CaptainState, today: int, later: seq<Event>, inp: HeavyInput)
    requires inp.mode == Some(Real)
    ensures var t := After(SessionNext(s, today), later);
            RealModeLockCheck in GateVerdict(Opened(t, inp), inp) <==> s.gateLock.locked && !s.gateGuard.granted
  {
    var t0 := SessionNext(s, today);
    DetachedGateIsFrozen(t0, later);
    RealLockVerdict(Opened(After(t0, later), inp), inp);
  }

  /** The gate is attached exactly until the first session start. */
  lemma {:induction false} AttachedUntilSessionStart(today: int, run: seq<Event>)
    ensures After(Init(today), run).attached <==> NoSessionStart(run)
  {
    hide BlockedBy, FinalScores;
    if run != [] {
      var init, last := run[..|run| - 1], run[|run| - 1];
      AttachedUntilSessionStart(today, init);
      assert run == init + [last];
      if !NoSessionStart(init) {
        var e :| e in init && e.SessionStart?;
        assert e in run;
      }
    }
  }

  // ----- What the running system does -----

  /**
   The count follows the mode of the lock, not the mode of the cycles: unless someone sets the lock itself to REAL, no
   run ever locks it, and no cycle, REAL ones included, is ever stopped by it.
  */
  lemma {:induction false} WithoutRealModeNeverLocks(today: int, run: seq<Event>, inp: HeavyInput)
    requires forall i :: 0 <= i < |run| ==> run[i] != ModeSet(Real)
    ensures var s := After(Init(today), run);
            && UnlockedAndUnreal(s.lock) && UnlockedAndUnreal(s.gateLock)
            && RealModeLockCheck !in GateVerdict(Opened(s, inp), inp)
  {
    hide Step;
    if run != [] {
      WithoutRealModeNeverLocks(today, run[..|run| - 1], inp);
      UnrealStep(After(Init(today), run[..|run| - 1]), run[|run| - 1]);
    }
    UnlockedVerdict(After(Init(today), run), inp);
  }

  ghost predicate UnlockedAndUnreal(lock: LockState) {
    !lock.locked && !lock.mode.Real?
  }

  lemma UnrealStep(s: CaptainState, e: Event)
    requires UnlockedAndUnreal(s.lock) && UnlockedAndUnreal(s.gateLock) && e != ModeSet(Real)
    ensures UnlockedAndUnreal(Step(s, e).lock) && UnlockedAndUnreal(Step(s, e).gateLock)
  {
    hide BlockedBy, FinalScores, ConfluenceOf, ClassOf, WatchResultOf, InterventionFor;
  }

  lemma UnlockedVerdict(s: CaptainState, inp: HeavyInput)
    requires !s.lock.locked && !s.gateLock.locked
    ensures RealModeLockCheck !in GateVerdict(Opened(s, inp), inp)
  {
    var t := Opened(s, inp);
    BlockedByIsExact(GateInputOf(inp, t.activeTrade.Some?), t.gateLock.locked, t.gateGuard.granted);
    hide BlockedBy;
  }

  /**
   The runner starts a session each morning. A session start before the first loss detaches the gate from a lock that
   is open, so `real_mode_lock` never stops a cycle again, whatever is lost afterwards.
  */
  lemma MorningStartOpensRealLockForGood(today: int, before: seq<Event>, start: int, later: seq<Event>, inp: HeavyInput)
    requires NoSessionStart(before) && forall e :: e in before ==> !e.LossRecorded?
    requires inp.mode == Some(Real)
    ensures var t := After(SessionNext(After(Init(today), before), start), later);
            RealModeLockCheck !in GateVerdict(Opened(t, inp), inp)
  {
    LockCountsRealLosses(today, before);
    NoLossesCounted(today, before);
    SessionStartFreezesRealLock(After(Init(today), before), start, later, inp);
  }

  lemma {:induction false} NoLossesCounted(today: int, run: seq<Event>)
    requires forall e :: e in run ==> !e.LossRecorded?
    ensures RealLosses(today, run) == 0
  {
    if run != [] {
      NoLossesCounted(today, run[..|run| - 1]);
      assert run[|run| - 1] in run;
    }
  }

  // ----- How long an override lasts -----

  /** The operator's calls that end a grant; everything else, trades included, leaves it. */
  predicate EndsGrant(e: Event) {
    e.OverrideAsked? || e.OverrideCleared? || (e.OverrideAnswered? && !e.grant)
  }

  ghost predicate AlwaysGranted(s: CaptainState, run: seq<Event>) {
    forall i :: 0 <= i <= |run| ==> Before(s, run, i).gateGuard.granted
  }

  lemma GrantStep(s: CaptainState, e: Event)
    requires s.attached && s.guard == s.gateGuard && s.guard.granted && !e.SessionStart?
    ensures var t := Step(s, e);
            t.attached && t.guard == t.gateGuard && (t.gateGuard.granted <==> !EndsGrant(e))
  {
    hide BlockedBy, FinalScores, ConfluenceOf, ClassOf, WatchResultOf, InterventionFor;
  }

  lemma AttachedStep(s: CaptainState, e: Event)
    requires s.attached && s.guard == s.gateGuard && !e.SessionStart?
    ensures Step(s, e).attached && Step(s, e).guard == Step(s, e).gateGuard
  {
    hide BlockedBy, FinalScores, ConfluenceOf, ClassOf, WatchResultOf, InterventionFor;
  }

  lemma {:induction false} StaysAttached(s: CaptainState, run: seq<Event>)
    requires s.attached && s.guard == s.gateGuard && NoSessionStart(run)
    ensures After(s, run).attached && After(s, run).guard == After(s, run).gateGuard
  {
    hide Step;
    if run != [] {
      StaysAttached(s, run[..|run| - 1]);
      AttachedStep(After(s, run[..|run| - 1]), run[|run| - 1]);
    }
  }

  lemma AlwaysGrantedUnfolds(s: CaptainState, run: seq<Event>)
    requires run != []
    ensures AlwaysGranted(s, run) <==> AlwaysGranted(s, run[..|run| - 1]) && After(s, run).gateGuard.granted
  {
    hide Step, After;
    var n := |run| - 1;
    assert run[..n + 1] == run;
    forall i | 0 <= i <= n ensures Before(s, run[..n], i) == Before(s, run, i) {
      assert run[..n][..i] == run[..i];
    }
    if AlwaysGranted(s, run) {
      assert Before(s, run, n + 1).gateGuard.granted;
      forall i | 0 <= i <= n ensures Before(s, run[..n], i).gateGuard.granted {
        assert Before(s, run, i).gateGuard.granted;
      }
    }
    if AlwaysGranted(s, run[..n]) && After(s, run).gateGuard.granted {
      forall i | 0 <= i <= n + 1 ensures Before(s, run, i).gateGuard.granted {
        assert i == n + 1 || Before(s, run[..n], i).gateGuard.granted;
      }
    }
  }

  /**
   An override is documented to cover one trade. In the code a grant lasts, over any run without a session start, if
   and only if the operator neither asks again, nor denies, nor clears.
  */
  lemma {:induction false} GrantLastsIff(s: CaptainState, run: seq<Event>)
    requires s.attached && s.guard == s.gateGuard && s.guard.granted && NoSessionStart(run)
    ensures AlwaysGranted(s, run) <==> forall e :: e in run ==> !EndsGrant(e)
  {
    hide Step;
    if run == [] {
      assert run[..0] == [];
    } else {
      var n := |run| - 1;
      assert run == run[..n] + [run[n]];
      GrantLastsIff(s, run[..n]);
      AlwaysGrantedUnfolds(s, run);
      StaysAttached(s, run[..n]);
      if AlwaysGranted(s, run[..n]) {
        assert Before(s, run[..n], n).gateGuard.granted;
        assert run[..n][..n] == run[..n];
        GrantStep(After(s, run[..n]), run[n]);
      }
    }
  }

  /** While the grant lasts the REAL lock stops no cycle, however many have traded. */
  lemma OverrideOutlivesTrades(s: CaptainState, run: seq<Event>, inp: HeavyInput)
    requires s.attached && s.guard == s.gateGuard && s.guard.granted && NoSessionStart(run) && inp.mode == Some(Real)
    requires forall e :: e in run ==> !EndsGrant(e)
    ensures var t := After(s, run);
            t.attached && t.gateGuard.granted && RealModeLockCheck !in GateVerdict(Opened(t, inp), inp)
  {
    hide Step;
    GrantLastsIff(s, run);
    StaysAttached(s, run);
    assert run[..|run|] == run && Before(s, run, |run|).gateGuard.granted;
    RealLockVerdict(Opened(After(s, run), inp), inp);
  }

  // ----- Two trades on one grant -----

  function RealCycle(candle: int): Event {
    Heavy(IdealCycle(Continuation, Real, candle))
  }

  /** Three REAL losses close the lock, and the operator grants an override. */
  function LossesAndGrant(): seq<Event> {
    [ModeSet(Real), LossRecorded(0), LossRecorded(0), LossRecorded(0), OverrideAsked, OverrideAnswered(true)]
  }

  /** Two REAL cycles trade on that one grant, the second as soon as the cooldown of the first allows. */
  function TwoTradeRun(): seq<Event> {
    LossesAndGrant()
    + [RealCycle(1), TradeComplete(Some(Continuation)), RealCycle(2), RealCycle(3), RealCycle(4)]
  }

  /** Locked, granted, shared with the gate, and not yet due for the daily reset. */
  ghost predicate LockedButGranted(s: CaptainState) {
    && s.attached && s.lock == s.gateLock && s.guard == s.gateGuard
    && s.lock.locked && s.guard.granted && s.lock.resetDate == 0
  }

  lemma RealCycleStep(s: CaptainState, candle: int)
    requires LockedButGranted(s) && s.activeTrade.None? && s.cycles < 4
    ensures var t := Step(s, RealCycle(candle));
            && LockedButGranted(t)
            && OpenCycle(s, RealCycle(candle))
            && (s.cooldown <= 1 ==> Traded(s, RealCycle(candle)) == Some(Buy) && t.activeTrade.Some? && t.cycles == 0)
            && (s.cooldown > 1 ==> t.activeTrade.None? && t.cycles == s.cycles + 1 && t.cooldown == s.cooldown - 1)
  {
    var inp := IdealCycle(Continuation, Real, candle);
    assert inp.time.day == 0 && inp.(capital := 25000.0) == inp;
    IdealCyclePassesGate(s, Continuation, Real, candle, 25000.0);
    if s.cooldown <= 1 {
      IdealCycleTrades(s, Continuation, Real, candle);
    } else {
      CoolingNeverTrades(s, RealCycle(candle));
    }
    CyclesStep(s, RealCycle(candle));
    CooldownStep(s, RealCycle(candle));
    ActiveTradeStep(s, RealCycle(candle));
    LockStep(s, RealCycle(candle));
    GrantStep(s, RealCycle(candle));
    hide Step, OpenCycle, Traded, IdealCycle;
  }

  lemma CoolingNeverTrades(s: CaptainState, e: Event)
    requires s.cooldown > 1
    ensures Traded(s, e).None?
  {
    hide BlockedBy, FinalScores, ConfluenceOf, ClassOf, ScoreInputOf;
  }

  /** Shared lock and guard, nothing traded or cooled yet. */
  ghost predicate Stands(s: CaptainState, lock: LockState, guard: GuardFlags) {
    && s.attached && s.lock == s.gateLock == lock && s.guard == s.gateGuard == guard
    && s.activeTrade.None? && s.cycles == 0 && s.cooldown == 0
  }

  lemma OperatorStep(s: CaptainState, e: Event, lock: LockState, guard: GuardFlags)
    requires Stands(s, lock, guard)
    ensures match e
            case ModeSet(mode) => Stands(Step(s, e), AfterMode(lock, mode), guard)
            case LossRecorded(today) => Stands(Step(s, e), AfterLoss(lock, today), guard)
            case OverrideAsked => Stands(Step(s, e), lock, AfterRequire(guard))
            case OverrideAnswered(grant) =>
              Stands(Step(s, e), lock, if grant then AfterGrant(guard) else AfterDeny(guard))
            case _ => true
  {
    hide HeavyNext, LightNext, AfterLoss;
  }

  lemma OperatorRunStep(s: CaptainState, run: seq<Event>, i: nat, lock: LockState, guard: GuardFlags)
    requires i < |run| && Stands(Before(s, run, i), lock, guard)
    ensures match run[i]
            case ModeSet(mode) => Stands(Before(s, run, i + 1), AfterMode(lock, mode), guard)
            case LossRecorded(today) => Stands(Before(s, run, i + 1), AfterLoss(lock, today), guard)
            case OverrideAsked => Stands(Before(s, run, i + 1), lock, AfterRequire(guard))
            case OverrideAnswered(grant) =>
              Stands(Before(s, run, i + 1), lock, if grant then AfterGrant(guard) else AfterDeny(guard))
            case _ => true
  {
    hide Step, AfterLoss, AfterMode, Stands;
    AfterStep(s, run, i);
    OperatorStep(Before(s, run, i), run[i], lock, guard);
  }

  function ThreeLosses(lock: LockState): LockState {
    AfterLoss(AfterLoss(AfterLoss(AfterMode(lock, Real), 0), 0), 0)
  }

  lemma ThreeLossesLock()
    ensures ThreeLosses(FreshLock(3, 0)).locked && ThreeLosses(FreshLock(3, 0)).resetDate == 0
  {
  }

  lemma OperatorChain(s: CaptainState, run: seq<Event>, lock: LockState)
    requires |run| == 6 && Stands(Before(s, run, 0), lock, NO_OVERRIDE)
    requires run[0] == ModeSet(Real) && run[1] == run[2] == run[3] == LossRecorded(0)
    requires run[4] == OverrideAsked && run[5] == OverrideAnswered(true)
    ensures Stands(Before(s, run, 6), ThreeLosses(lock), GuardFlags(false, true))
  {
    hide Step, After, AfterLoss, AfterMode, Stands;
    var inReal := AfterMode(lock, Real);
    OperatorRunStep(s, run, 0, lock, NO_OVERRIDE);
    OperatorRunStep(s, run, 1, inReal, NO_OVERRIDE);
    OperatorRunStep(s, run, 2, AfterLoss(inReal, 0), NO_OVERRIDE);
    OperatorRunStep(s, run, 3, AfterLoss(AfterLoss(inReal, 0), 0), NO_OVERRIDE);
    OperatorRunStep(s, run, 4, ThreeLosses(lock), NO_OVERRIDE);
    OperatorRunStep(s, run, 5, ThreeLosses(lock), GuardFlags(true, false));
  }

  lemma LocksGranted()
    ensures LockedButGranted(After(Init(0), LossesAndGrant()))
    ensures var s := After(Init(0), LossesAndGrant()); s.activeTrade.None? && s.cycles == 0 && s.cooldown == 0
  {
    var run := LossesAndGrant();
    assert run[..0] == [] && run[..6] == run;
    assert Before(Init(0), run, 0) == Init(0);
    assert Stands(Init(0), FreshLock(3, 0), NO_OVERRIDE);
    hide Step, After, Stands, ThreeLosses, FreshLock, Init;
    OperatorChain(Init(0), run, FreshLock(3, 0));
    ThreeLossesLock();
    StandsGranted(After(Init(0), run), ThreeLosses(FreshLock(3, 0)));
  }

  lemma StandsGranted(s: CaptainState, lock: LockState)
    requires Stands(s, lock, GuardFlags(false, true)) && lock.locked && lock.resetDate == 0
    ensures LockedButGranted(s) && s.activeTrade.None? && s.cycles == 0 && s.cooldown == 0
  {
  }

  /** The promise of one trade per override breaks: both cycles trade while the lock is closed, on the same grant. */
  lemma TwoTradesOnOneGrant()
    ensures var run := TwoTradeRun();
            && |run| == 11 && run[6].Heavy? && run[10].Heavy?
            && (forall i :: 6 <= i < |run| ==>
                  !run[i].OverrideAsked? && !run[i].OverrideAnswered? && !run[i].OverrideCleared?)
            && Before(Init(0), run, 6).gateLock.locked && Traded(Before(Init(0), run, 6), run[6]).Some?
            && Before(Init(0), run, 10).gateLock.locked && Traded(Before(Init(0), run, 10), run[10]).Some?
  {
    hide Step, HeavyNext, After, IdealCycle, Traded, OpenCycle;
    var run := TwoTradeRun();
    assert run[..6] == LossesAndGrant();
    LocksGranted();
    hide LossesAndGrant;
    RealCycleStep(Before(Init(0), run, 6), 1);
    AfterStep(Init(0), run, 6);
    CompletionKeepsGrant(Before(Init(0), run, 7));
    AfterStep(Init(0), run, 7);
    RealCycleStep(Before(Init(0), run, 8), 2);
    AfterStep(Init(0), run, 8);
    RealCycleStep(Before(Init(0), run, 9), 3);
    AfterStep(Init(0), run, 9);
    RealCycleStep(Before(Init(0), run, 10), 4);
  }

  lemma CompletionKeepsGrant(s: CaptainState)
    requires LockedButGranted(s)
    ensures var t := Step(s, TradeComplete(Some(Continuation)));
            LockedButGranted(t) && t.activeTrade.None? && t.cooldown == 3 && t.cycles == s.cycles
  {
  }
}
