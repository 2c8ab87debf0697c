/** Operator confirmation for REAL trades under the loss lock (override_guard.py). */
module OverrideGuard {

  /** The two flags the permission gate can see. */
  datatype GuardFlags = GuardFlags(required: bool, granted: bool)

  const NO_OVERRIDE := GuardFlags(false, false)

  function AfterRequire(f: GuardFlags): GuardFlags {
    GuardFlags(true, false)
  }

  function AfterGrant(f: GuardFlags): GuardFlags {
    if f.required then GuardFlags(false, true) else f
  }

  function AfterDeny(f: GuardFlags): GuardFlags {
    NO_OVERRIDE
  }

  class OverrideRecord {
    var granted: bool
    var reason: string

    constructor (granted: bool, reason: string)
      ensures this.granted == granted && this.reason == reason
    {
      this.granted := granted;
      this.reason := reason;
    }
  }

  class OverrideGuard {
    var overrideRequired: bool
    var overrideGranted: bool
    var current: OverrideRecord?
    var history: seq<OverrideRecord>

    function Flags(): GuardFlags
      reads this
    {
      GuardFlags(overrideRequired, overrideGranted)
    }

    /** A pending request and its record go together, and a pending record still says "not granted". */
    ghost predicate Valid()
      reads this, current
    {
      && (overrideRequired <==> current != null)
      && (current != null ==> !current.granted)
      && !(overrideRequired && overrideGranted)
    }

    constructor ()
      ensures Valid() && Flags() == NO_OVERRIDE && history == []
    {
      overrideRequired := false;
      overrideGranted := false;
      current := null;
      history := [];
    }

    /** A new request withdraws an earlier grant and leaves an unanswered request out of the history. */
    method RequireOverride(reason: string)
      requires Valid()
      modifies this
      ensures Valid() && Flags() == AfterRequire(old(Flags()))
      ensures fresh(current) && current.reason == reason
      ensures history == old(history)
    {
      overrideRequired := true;
      overrideGranted := false;
      current := new OverrideRecord(false, reason);
    }

    /**
     Answers the pending request once: the record is stamped, filed and released, so no later call can change
     it. Without a pending request nothing happens.
    */
    method GrantOverride(operatorReason: string) returns (ok: bool)
      requires Valid()
      modifies this, current
      ensures Valid() && Flags() == AfterGrant(old(Flags()))
      ensures ok == old(overrideRequired)
      ensures !ok ==> history == old(history) && current == old(current)
      ensures ok ==> current == null && history == old(history) + [old(current)]
      ensures ok ==> old(current).granted && old(current).reason == operatorReason
    {
      if !overrideRequired {
        return false;
      }
      overrideGranted := true;
      overrideRequired := false;
      current.granted := true;
      current.reason := operatorReason;
      history := history + [current];
      current := null;
      return true;
    }

    method DenyOverride(reason: string)
      requires Valid()
      modifies this, current
      ensures Valid() && Flags() == AfterDeny(old(Flags())) && current == null
      ensures old(current) == null ==> history == old(history)
      ensures old(current) != null ==> history == old(history) + [old(current)]
      ensures old(current) != null ==> !old(current).granted && old(current).reason == reason
    {
      overrideGranted := false;
      overrideRequired := false;
      if current != null {
        current.granted := false;
        current.reason := reason;
        history := history + [current];
        current := null;
      }
    }

    method ClearOverride()
      requires Valid()
      modifies this
      ensures Valid() && Flags() == NO_OVERRIDE && current == null && history == old(history)
    {
      overrideRequired := false;
      overrideGranted := false;
      current := null;
    }

    /**
     Files the pending record itself, not a copy: the entry made here is the very object that a later grant or
     denial stamps and files a second time.
    */
    method LogOverride() returns (logged: OverrideRecord)
      requires Valid()
      modifies this
      ensures Valid() && Flags() == old(Flags()) && current == old(current)
      ensures history == old(history) + [logged]
      ensures current != null ==> logged == current
      ensures current == null ==> fresh(logged) && !logged.granted
    {
      if current != null {
        logged := current;
      } else {
        logged := new OverrideRecord(false, "Standalone audit entry (no active override)");
      }
      history := history + [logged];
    }
  }
}
