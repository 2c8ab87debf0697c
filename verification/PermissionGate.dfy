/** The eight checks that open every heavy cycle (permission_gate.py). */
module PermissionGate {
  import opened SharedTypes
  import opened SessionPolicy
  import opened LossLock
  import opened OverrideGuard

  datatype Check =
    | MarketOpenCheck | PsychologyCheck | ActiveTradeCheck | DataHealthCheck
    | RealModeLockCheck | ModeCheck | SessionCheck | CapitalCheck

  datatype GateInput = GateInput(
    time: Timestamp,
    dataHealth: Option<DataHealth>,
    psychology: Option<HeadReport>,
    activeTrade: bool,
    mode: Option<ExecutionMode>,
    capital: real)

  predicate RealModeLockPasses(mode: Option<ExecutionMode>, locked: bool, granted: bool) {
    mode != Some(Real) || !locked || granted
  }

  predicate Passes(c: Check, x: GateInput, locked: bool, granted: bool) {
    match c
    case MarketOpenCheck => IsMarketOpen(x.time)
    case PsychologyCheck => x.psychology.Some? ==> x.psychology.value.tradeAllowed
    case ActiveTradeCheck => !x.activeTrade
    case DataHealthCheck => x.dataHealth != Some(CriticalHealth)
    case RealModeLockCheck => RealModeLockPasses(x.mode, locked, granted)
    case ModeCheck => x.mode.Some?
    case SessionCheck => StrictnessOf(PhaseOf(x.time)) == Normal
    case CapitalCheck => x.capital > 0.0
  }

  /** One step of `check_all`: a failing check is appended to the list. */
  function Collect(blockedBy: seq<Check>, c: Check, passes: bool): seq<Check> {
    if passes then blockedBy else blockedBy + [c]
  }

  /** All failing checks, in the order in which the gate runs them. */
  function BlockedBy(x: GateInput, locked: bool, granted: bool): seq<Check> {
    var s1 := Collect([], MarketOpenCheck, Passes(MarketOpenCheck, x, locked, granted));
    var s2 := Collect(s1, PsychologyCheck, Passes(PsychologyCheck, x, locked, granted));
    var s3 := Collect(s2, ActiveTradeCheck, Passes(ActiveTradeCheck, x, locked, granted));
    var s4 := Collect(s3, DataHealthCheck, Passes(DataHealthCheck, x, locked, granted));
    var s5 := Collect(s4, RealModeLockCheck, Passes(RealModeLockCheck, x, locked, granted));
    var s6 := Collect(s5, ModeCheck, Passes(ModeCheck, x, locked, granted));
    var s7 := Collect(s6, SessionCheck, Passes(SessionCheck, x, locked, granted));
    Collect(s7, CapitalCheck, Passes(CapitalCheck, x, locked, granted))
  }

  /** The list names exactly the failing checks; the cycle is allowed when all eight pass. */
  lemma BlockedByIsExact(x: GateInput, locked: bool, granted: bool)
    ensures forall c :: c in BlockedBy(x, locked, granted) <==> !Passes(c, x, locked, granted)
    ensures BlockedBy(x, locked, granted) == [] <==> forall c :: Passes(c, x, locked, granted)
  {
  }

  /** The gate keeps the very objects it was built with. */
  class PermissionGate {
    const lossLock: LossLockManager
    const overrideGuard: OverrideGuard?

    constructor (lossLock: LossLockManager, overrideGuard: OverrideGuard?)
      ensures this.lossLock == lossLock && this.overrideGuard == overrideGuard
    {
      this.lossLock := lossLock;
      this.overrideGuard := overrideGuard;
    }

    function Granted(): bool
      reads this, overrideGuard
    {
      overrideGuard != null && overrideGuard.overrideGranted
    }

    method CheckAll(x: GateInput) returns (blockedBy: seq<Check>, primary: Option<Check>)
      ensures blockedBy == BlockedBy(x, lossLock.isLocked, Granted())
      ensures primary == if blockedBy == [] then None else Some(blockedBy[0])
    {
      hide IsMarketOpen, PhaseOf, StrictnessOf, RealModeLockPasses, Collect;
      var granted := overrideGuard != null && overrideGuard.overrideGranted;
      blockedBy := Collect([], MarketOpenCheck, IsMarketOpen(x.time));
      blockedBy := Collect(blockedBy, PsychologyCheck, x.psychology.Some? ==> x.psychology.value.tradeAllowed);
      blockedBy := Collect(blockedBy, ActiveTradeCheck, !x.activeTrade);
      blockedBy := Collect(blockedBy, DataHealthCheck, x.dataHealth != Some(CriticalHealth));
      blockedBy := Collect(blockedBy, RealModeLockCheck, RealModeLockPasses(x.mode, lossLock.isLocked, granted));
      blockedBy := Collect(blockedBy, ModeCheck, x.mode.Some?);
      blockedBy := Collect(blockedBy, SessionCheck, StrictnessOf(PhaseOf(x.time)) == Normal);
      blockedBy := Collect(blockedBy, CapitalCheck, x.capital > 0.0);
      primary := if blockedBy == [] then None else Some(blockedBy[0]);
    }
  }
}
