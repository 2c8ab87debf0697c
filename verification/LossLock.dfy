/** The REAL-mode loss lock (loss_lock_manager.py). Dates are day numbers. */
module LossLock {
  import opened SharedTypes
  import opened Numerics

  datatype LossEntry = LossEntry(mode: ExecutionMode, countAtTime: nat)

  datatype LockState = LockState(
    maxLosses: int,
    count: nat,
    locked: bool,
    lockedDate: Option<int>,
    mode: ExecutionMode,
    resetDate: int,
    history: seq<LossEntry>)

  function FreshLock(maxLosses: int, today: int): LockState {
    LockState(maxLosses, 0, false, None, Alert, today, [])
  }

  /** Only REAL-mode losses count, and from the limit on every one of them locks. */
  function AfterLoss(s: LockState, today: int): LockState {
    if !s.mode.Real? then s
    else
      var t := s.(count := s.count + 1, history := s.history + [LossEntry(s.mode, s.count + 1)]);
      if t.count >= s.maxLosses then t.(locked := true, lockedDate := Some(today)) else t
  }

  function AfterReset(s: LockState, date: int): LockState {
    s.(count := 0, locked := false, lockedDate := None, resetDate := date, history := [])
  }

  function AfterNewDay(s: LockState, today: int): LockState {
    if today > s.resetDate then AfterReset(s, today) else s
  }

  function AfterMode(s: LockState, mode: ExecutionMode): LockState {
    s.(mode := mode)
  }

  /**
   The count is the length of the kept history, the entries number themselves, and the lock is closed exactly
   from the limit on. A limit of 0 or less behaves like 1: nothing locks before the first loss.
  */
  ghost predicate Consistent(s: LockState) {
    && s.count == |s.history|
    && (forall i :: 0 <= i < |s.history| ==> s.history[i] == LossEntry(Real, i + 1))
    && (s.locked <==> s.count >= MaxI(1, s.maxLosses))
    && (s.locked <==> s.lockedDate.Some?)
  }

  lemma LockStaysConsistent(s: LockState, today: int, mode: ExecutionMode)
    requires Consistent(s)
    ensures Consistent(AfterLoss(s, today))
    ensures Consistent(AfterReset(s, today))
    ensures Consistent(AfterNewDay(s, today))
    ensures Consistent(AfterMode(s, mode))
  {
  }

  lemma FreshLockIsConsistent(maxLosses: int, today: int)
    ensures Consistent(FreshLock(maxLosses, today))
  {
  }

  class LossLockManager {
    const maxLosses: int
    var lossCount: nat
    var isLocked: bool
    var lockedDate: Option<int>
    var currentMode: ExecutionMode
    var resetDate: int
    var lossHistory: seq<LossEntry>

    function State(): LockState
      reads this
    {
      LockState(maxLosses, lossCount, isLocked, lockedDate, currentMode, resetDate, lossHistory)
    }

    constructor (limit: Option<int>, today: int)
      ensures State() == FreshLock(if limit.Some? then limit.value else 3, today)
    {
      maxLosses := if limit.Some? then limit.value else 3;
      lossCount := 0;
      isLocked := false;
      lockedDate := None;
      currentMode := Alert;
      resetDate := today;
      lossHistory := [];
    }

    /** Returns true on every REAL loss at or past the limit, also when the lock was closed before. */
    method RecordLoss(today: int) returns (locks: bool)
      modifies this
      ensures State() == AfterLoss(old(State()), today)
      ensures locks <==> old(currentMode).Real? && old(lossCount) + 1 >= maxLosses
      ensures locks ==> isLocked
    {
      if !currentMode.Real? {
        return false;
      }
      lossHistory := lossHistory + [LossEntry(currentMode, lossCount + 1)];
      lossCount := lossCount + 1;
      if lossCount >= maxLosses {
        isLocked := true;
        lockedDate := Some(today);
        return true;
      }
      return false;
    }

    method ResetCounter(date: int)
      modifies this
      ensures State() == AfterReset(old(State()), date)
    {
      lossCount := 0;
      isLocked := false;
      lockedDate := None;
      resetDate := date;
      lossHistory := [];
    }

    method SetMode(mode: ExecutionMode)
      modifies this
      ensures State() == AfterMode(old(State()), mode)
    {
      currentMode := mode;
    }

    method CheckAndResetIfNewDay(today: int) returns (reset: bool)
      modifies this
      ensures State() == AfterNewDay(old(State()), today)
      ensures reset <==> today > old(resetDate)
    {
      reset := today > resetDate;
      if reset {
        ResetCounter(today);
      }
    }

    method RemainingBeforeLock() returns (n: nat)
      requires Consistent(State())
      ensures n == 0 <==> (isLocked || maxLosses <= 0)
      ensures !isLocked && maxLosses >= 1 ==> n == maxLosses - lossCount
    {
      n := if isLocked then 0 else MaxI(0, maxLosses - lossCount);
    }
  }
}
