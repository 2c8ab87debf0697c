/**
 Armed conditional plans: created by the heavy cycle, watched on every tick, purged by class window
 (armed_plan_engine.py, setup_expiry_manager.py and `_build_armed_plan` of captain_engine.py).
*/
module ArmedPlans {
  import opened SharedTypes
  import opened Numerics

  datatype PlanState = Watching | Triggered | Expired | Invalidated | Cancelled

  datatype Trigger =
    | Above(level: real) | Below(level: real) | Between(low: real, high: real)
    | Reclaim(level: real) | Touch(level: real) | NoTrigger

  datatype Side = OnlyAbove | OnlyBelow | AnySide

  datatype Expiry =
    | Candles(count: int, createdAtCandle: Option<int>, elapsed: int)
    | PriceBeyond(level: real, side: Side)
    | AfterMinutes(minutes: real)
    | NoExpiry

  /** `createdAt` is in seconds. */
  datatype Plan = Plan(
    id: nat,
    direction: Direction,
    cls: TradeClass,
    trigger: Trigger,
    expiry: Expiry,
    invalidation: real,
    state: PlanState,
    createdAt: real)

  /** What a light cycle shows to the plans. */
  datatype Tick = Tick(price: real, candle: int, now: real)

  // ----- The three tests -----

  predicate TriggerMet(t: Trigger, price: real) {
    match t
    case Above(level) => price >= level
    case Below(level) => price <= level
    case Between(low, high) => low <= price <= high
    case Reclaim(level) => price >= level
    case Touch(level) => AbsR(price - level) <= level * 0.001
    case NoTrigger => false
  }

  predicate ExpiryMet(e: Expiry, createdAt: real, t: Tick) {
    match e
    case Candles(count, _, elapsed) => elapsed >= count
    case PriceBeyond(level, OnlyAbove) => t.price > level
    case PriceBeyond(level, OnlyBelow) => t.price < level
    case PriceBeyond(level, AnySide) => AbsR(t.price - level) > AbsR(level * 0.02)
    case AfterMinutes(minutes) => (t.now - createdAt) / 60.0 >= minutes
    case NoExpiry => false
  }

  predicate InvalidationMet(p: Plan, price: real) {
    && p.invalidation != 0.0
    && (match p.direction
        case Buy => price < p.invalidation
        case Sell => price > p.invalidation)
  }

  /** The tick writes the elapsed candles into the plan before it looks at it. */
  function Aged(p: Plan, candle: int): Plan {
    if p.expiry.Candles? && candle > 0 && p.expiry.createdAtCandle.Some? then
      p.(expiry := p.expiry.(elapsed := MaxI(0, candle - p.expiry.createdAtCandle.value)))
    else p
  }

  function Verdict(p: Plan, t: Tick): PlanState {
    if InvalidationMet(p, t.price) then Invalidated
    else if ExpiryMet(p.expiry, p.createdAt, t) then Expired
    else if TriggerMet(p.trigger, t.price) then Triggered
    else Watching
  }

  function WatchOne(p: Plan, t: Tick): Plan {
    if p.state.Watching? then
      var q := Aged(p, t.candle);
      q.(state := Verdict(q, t))
    else p
  }

  // ----- Class windows -----

  /** 0 means "not bound to candles". */
  function ExpiryWindow(cls: TradeClass): nat {
    match cls
    case Scalp => 2
    case Continuation => 4
    case Reversal => 3
    case LiquidityReclaim => 0
    case OptionsPressure => 0
  }

  function CreationCandle(p: Plan): int {
    match p.expiry
    case Candles(_, Some(c), _) => c
    case _ => 0
  }

  /** The heavy cycle's own expiry test: by class, and blind to a creation candle of 0. */
  predicate ClassExpired(p: Plan, candle: int) {
    && ExpiryWindow(p.cls) != 0
    && CreationCandle(p) != 0
    && candle - CreationCandle(p) >= ExpiryWindow(p.cls)
  }

  function PurgeOne(p: Plan, candle: int): Plan {
    if p.state.Watching? && ClassExpired(p, candle) then p.(state := Expired) else p
  }

  // ----- The book of plans -----

  /** The plan dictionary in insertion order. `issued` counts the identifiers handed out, so they never repeat. */
  datatype PlanBook = PlanBook(plans: seq<Plan>, issued: nat)

  const EMPTY_BOOK := PlanBook([], 0)

  ghost predicate ValidBook(b: PlanBook) {
    && (forall i :: 0 <= i < |b.plans| ==> b.plans[i].id < b.issued)
    && (forall i, j :: 0 <= i < j < |b.plans| ==> b.plans[i].id != b.plans[j].id)
  }

  /** `_build_armed_plan`: trigger at the zone, invalidation half a percent behind it, expiry by class. */
  function CaptainPlan(id: nat, direction: Direction, cls: TradeClass, zone: real, candle: int, now: real): Plan {
    Plan(id, direction, cls,
         if direction.Buy? then Above(zone) else Below(zone),
         if ExpiryWindow(cls) > 0 then Candles(ExpiryWindow(cls), Some(candle), 0) else AfterMinutes(30.0),
         if direction.Buy? then zone * 0.995 else zone * 1.005,
         Watching, now)
  }

  /** A plan that left `_build_armed_plan` with this zone and may have been watched since. */
  ghost predicate BuiltByCaptain(p: Plan, zone: real) {
    && p.trigger == (if p.direction.Buy? then Above(zone) else Below(zone))
    && p.invalidation == (if p.direction.Buy? then zone * 0.995 else zone * 1.005)
    && (if ExpiryWindow(p.cls) > 0
        then p.expiry.Candles? && p.expiry.count == ExpiryWindow(p.cls) && p.expiry.createdAtCandle.Some?
        else p.expiry == AfterMinutes(30.0))
  }

  function Created(b: PlanBook, direction: Direction, cls: TradeClass, zone: real, candle: int, now: real): PlanBook {
    PlanBook(b.plans + [CaptainPlan(b.issued, direction, cls, zone, candle, now)], b.issued + 1)
  }

  function WatchAll(plans: seq<Plan>, t: Tick): (r: seq<Plan>)
    ensures |r| == |plans|
    ensures forall i :: 0 <= i < |plans| ==> r[i] == WatchOne(plans[i], t)
  {
    if plans == [] then []
    else WatchAll(plans[..|plans| - 1], t) + [WatchOne(plans[|plans| - 1], t)]
  }

  function PurgeAll(plans: seq<Plan>, candle: int): (r: seq<Plan>)
    ensures |r| == |plans|
    ensures forall i :: 0 <= i < |plans| ==> r[i] == PurgeOne(plans[i], candle)
  {
    if plans == [] then []
    else PurgeAll(plans[..|plans| - 1], candle) + [PurgeOne(plans[|plans| - 1], candle)]
  }

  /** The plans that this tick moves from WATCHING to `target`, in dictionary order. */
  function MovedTo(plans: seq<Plan>, t: Tick, target: PlanState): seq<nat> {
    if plans == [] then []
    else
      var last := plans[|plans| - 1];
      MovedTo(plans[..|plans| - 1], t, target)
      + (if last.state.Watching? && WatchOne(last, t).state == target then [last.id] else [])
  }

  function PurgedIds(plans: seq<Plan>, candle: int): seq<nat> {
    if plans == [] then []
    else
      var last := plans[|plans| - 1];
      PurgedIds(plans[..|plans| - 1], candle)
      + (if last.state.Watching? && ClassExpired(last, candle) then [last.id] else [])
  }

  function Active(plans: seq<Plan>): seq<Plan> {
    if plans == [] then []
    else
      var last := plans[|plans| - 1];
      Active(plans[..|plans| - 1]) + (if last.state.Watching? then [last] else [])
  }

  datatype WatchResult = WatchResult(triggered: seq<nat>, expired: seq<nat>, invalidated: seq<nat>, activeCount: nat)

  function WatchResultOf(plans: seq<Plan>, t: Tick): WatchResult {
    WatchResult(MovedTo(plans, t, Triggered), MovedTo(plans, t, Expired), MovedTo(plans, t, Invalidated),
                |Active(WatchAll(plans, t))|)
  }

  lemma WatchKeepsId(p: Plan, t: Tick)
    ensures WatchOne(p, t).id == p.id
  {
  }

  lemma NoneMoved(plans: seq<Plan>, t: Tick)
    requires plans == []
    ensures forall target :: MovedTo(plans, t, target) == []
  {
  }

  lemma NonePurged(plans: seq<Plan>, candle: int)
    requires plans == []
    ensures PurgedIds(plans, candle) == []
  {
  }

  lemma PurgedIdsStep(plans: seq<Plan>, i: nat, candle: int)
    requires i < |plans|
    ensures PurgedIds(plans[..i + 1], candle) == PurgedIds(plans[..i], candle)
            + (if plans[i].state.Watching? && ClassExpired(plans[i], candle) then [plans[i].id] else [])
  {
    hide ClassExpired;
    assert plans[..i + 1][..i] == plans[..i];
  }

  lemma CreatedKeepsValid(b: PlanBook, direction: Direction, cls: TradeClass, zone: real, candle: int, now: real)
    requires ValidBook(b)
    ensures ValidBook(Created(b, direction, cls, zone, candle, now))
  {
  }

  lemma MovedToStep(plans: seq<Plan>, i: nat, t: Tick)
    requires i < |plans|
    ensures forall target ::
              MovedTo(plans[..i + 1], t, target) == MovedTo(plans[..i], t, target)
              + (if plans[i].state.Watching? && WatchOne(plans[i], t).state == target then [plans[i].id] else [])
  {
    hide WatchOne;
    assert plans[..i + 1][..i] == plans[..i];
  }

  lemma FinishedStays(p: Plan, t: Tick)
    requires !p.state.Watching?
    ensures WatchOne(p, t) == p
  {
  }

  class ArmedPlanEngine {
    var plans: seq<Plan>
    var issued: nat

    function Book(): PlanBook
      reads this
    {
      PlanBook(plans, issued)
    }

    constructor ()
      ensures Book() == EMPTY_BOOK
    {
      plans := [];
      issued := 0;
    }

    /** A candle expiry is stamped with the creation candle when that candle is positive. */
    method CreatePlan(direction: Direction, cls: TradeClass, trigger: Trigger, expiry: Expiry, invalidation: real,
                      candle: int, now: real)
      returns (p: Plan)
      modifies this
      ensures p.id == old(issued) && p.state == Watching && p.createdAt == now
      ensures p.direction == direction && p.cls == cls && p.trigger == trigger && p.invalidation == invalidation
      ensures p.expiry == if expiry.Candles? && candle > 0 then expiry.(createdAtCandle := Some(candle)) else expiry
      ensures Book() == PlanBook(old(plans) + [p], old(issued) + 1)
    {
      var stamped := expiry;
      if expiry.Candles? && candle > 0 {
        stamped := expiry.(createdAtCandle := Some(candle));
      }
      p := Plan(issued, direction, cls, trigger, stamped, invalidation, Watching, now);
      plans := plans + [p];
      issued := issued + 1;
    }

    /** No look at the current state: a finished plan is moved just the same. */
    method TransitionPlan(id: nat, target: PlanState) returns (found: bool)
      requires ValidBook(Book())
      modifies this
      ensures ValidBook(Book())
      ensures issued == old(issued) && |plans| == |old(plans)|
      ensures found <==> exists i :: 0 <= i < |old(plans)| && old(plans)[i].id == id
      ensures forall i :: 0 <= i < |plans| ==>
                plans[i] == if old(plans)[i].id == id then old(plans)[i].(state := target) else old(plans)[i]
      ensures forall i :: 0 <= i < |plans| && old(plans)[i].id == id ==>
                plans == old(plans)[i := old(plans)[i].(state := target)]
    {
      for i := 0 to |plans|
        invariant plans == old(plans)
        invariant forall j :: 0 <= j < i ==> plans[j].id != id
      {
        if plans[i].id == id {
          plans := plans[i := plans[i].(state := target)];
          return true;
        }
      }
      return false;
    }

    /** One plan of the light cycle: aged first, then moved by the first test that holds. */
    method WatchPlan(i: nat, t: Tick)
      requires ValidBook(Book()) && i < |plans| && plans[i].state.Watching?
      modifies this
      ensures ValidBook(Book())
      ensures plans == old(plans)[i := WatchOne(old(plans)[i], t)] && issued == old(issued)
    {
      var p := Aged(plans[i], t.candle);
      plans := plans[i := p];
      if InvalidationMet(p, t.price) {
        var _ := TransitionPlan(p.id, Invalidated);
      } else if ExpiryMet(p.expiry, p.createdAt, t) {
        var _ := TransitionPlan(p.id, Expired);
      } else if TriggerMet(p.trigger, t.price) {
        var _ := TransitionPlan(p.id, Triggered);
      }
    }

    method WatchPlans(t: Tick) returns (r: WatchResult)
      requires ValidBook(Book())
      modifies this
      ensures ValidBook(Book())
      ensures plans == WatchAll(old(plans), t) && issued == old(issued)
      ensures r == WatchResultOf(old(plans), t)
    {
      hide WatchOne, ValidBook, MovedTo;
      var triggered, expired, invalidated := [], [], [];
      ghost var before := plans;
      NoneMoved(before[..0], t);
      for i := 0 to |plans|
        invariant |plans| == |before| && issued == old(issued)
        invariant ValidBook(Book())
        invariant forall j :: 0 <= j < i ==> plans[j] == WatchOne(before[j], t)
        invariant forall j :: i <= j < |plans| ==> plans[j] == before[j]
        invariant triggered == MovedTo(before[..i], t, Triggered)
        invariant expired == MovedTo(before[..i], t, Expired)
        invariant invalidated == MovedTo(before[..i], t, Invalidated)
      {
        MovedToStep(before, i, t);
        WatchKeepsId(plans[i], t);
        if plans[i].state.Watching? {
          WatchPlan(i, t);
          match plans[i].state {
            case Triggered => triggered := triggered + [plans[i].id];
            case Expired => expired := expired + [plans[i].id];
            case Invalidated => invalidated := invalidated + [plans[i].id];
            case _ =>
          }
        } else {
          FinishedStays(plans[i], t);
        }
      }
      assert before[..|before|] == before && plans == WatchAll(before, t);
      var active := ActivePlans();
      r := WatchResult(triggered, expired, invalidated, |active|);
    }

    method ActivePlans() returns (active: seq<Plan>)
      ensures active == Active(plans)
    {
      active := [];
      for i := 0 to |plans|
        invariant active == Active(plans[..i])
      {
        assert plans[..i + 1][..i] == plans[..i];
        if plans[i].state.Watching? {
          active := active + [plans[i]];
        }
      }
      assert plans[..|plans|] == plans;
    }

    /** Step 18 of the heavy cycle: find the active plans past their class window and expire each of them. */
    method PurgeExpired(candle: int) returns (purged: seq<nat>)
      requires ValidBook(Book())
      modifies this
      ensures ValidBook(Book())
      ensures plans == PurgeAll(old(plans), candle) && issued == old(issued)
      ensures purged == PurgedIds(old(plans), candle)
    {
      hide ValidBook, PurgedIds, ClassExpired;
      purged := [];
      ghost var before := plans;
      NonePurged(before[..0], candle);
      for i := 0 to |plans|
        invariant |plans| == |before| && issued == old(issued)
        invariant ValidBook(Book())
        invariant forall j :: 0 <= j < i ==> plans[j] == PurgeOne(before[j], candle)
        invariant forall j :: i <= j < |plans| ==> plans[j] == before[j]
        invariant purged == PurgedIds(before[..i], candle)
      {
        PurgedIdsStep(before, i, candle);
        if plans[i].state.Watching? && ClassExpired(plans[i], candle) {
          purged := purged + [plans[i].id];
          var _ := TransitionPlan(plans[i].id, Expired);
        }
      }
      assert before[..|before|] == before;
    }

    method ClearSession()
      modifies this
      ensures Book() == PlanBook([], old(issued))
    {
      plans := [];
    }
  }

  // ----- Conservation and the reported lists -----

  lemma {:induction false} ActiveKeepsOrder(plans: seq<Plan>, p: Plan)
    ensures p in Active(plans) <==> p in plans && p.state.Watching?
  {
    if plans != [] {
      var init, last := plans[..|plans| - 1], plans[|plans| - 1];
      assert plans == init + [last];
      ActiveKeepsOrder(init, p);
    }
  }

  /** Every active plan is triggered, expired, invalidated, or counted as still active: one of the four. */
  lemma {:induction false} WatchConserves(plans: seq<Plan>, t: Tick)
    ensures |Active(plans)| == |MovedTo(plans, t, Triggered)| + |MovedTo(plans, t, Expired)|
                               + |MovedTo(plans, t, Invalidated)| + |Active(WatchAll(plans, t))|
  {
    if plans != [] {
      var init, last := plans[..|plans| - 1], plans[|plans| - 1];
      WatchConserves(init, t);
      var after := WatchAll(plans, t);
      assert after[..|after| - 1] == WatchAll(init, t);
    }
  }

  /** A reported plan was WATCHING before and is in the reported state after. */
  lemma {:induction false} MovedToIsExact(plans: seq<Plan>, t: Tick, target: PlanState, id: nat)
    ensures id in MovedTo(plans, t, target) <==>
            exists i :: 0 <= i < |plans| && plans[i].id == id && plans[i].state.Watching?
                        && WatchOne(plans[i], t).state == target
  {
    if plans != [] {
      var n := |plans| - 1;
      MovedToIsExact(plans[..n], t, target, id);
      if i :| && 0 <= i < |plans| && plans[i].id == id && plans[i].state.Watching?
              && WatchOne(plans[i], t).state == target {
        if i < n {
          assert plans[..n][i] == plans[i];
        }
      }
      if id in MovedTo(plans[..n], t, target) {
        var i :| 0 <= i < n && plans[..n][i].id == id && plans[..n][i].state.Watching?
                 && WatchOne(plans[..n][i], t).state == target;
        assert plans[i] == plans[..n][i];
      }
    }
  }

  lemma {:induction false} PurgedIdsAreExact(plans: seq<Plan>, candle: int, id: nat)
    ensures id in PurgedIds(plans, candle) <==>
            exists i :: 0 <= i < |plans| && plans[i].id == id && plans[i].state.Watching?
              && ClassExpired(plans[i], candle)
  {
    if plans != [] {
      var n := |plans| - 1;
      PurgedIdsAreExact(plans[..n], candle, id);
      if i :| 0 <= i < |plans| && plans[i].id == id && plans[i].state.Watching? && ClassExpired(plans[i], candle) {
        if i < n {
          assert plans[..n][i] == plans[i];
        }
      }
      if id in PurgedIds(plans[..n], candle) {
        var i :| 0 <= i < n && plans[..n][i].id == id && plans[..n][i].state.Watching?
          && ClassExpired(plans[..n][i], candle);
        assert plans[i] == plans[..n][i];
      }
    }
  }

  // ----- Price corridor -----

  /** Trigger and invalidation exclude each other at every price exactly for zones that are not negative. */
  lemma TriggerExcludesInvalidation(p: Plan, zone: real)
    requires BuiltByCaptain(p, zone)
    ensures zone >= 0.0 <==> forall price :: !(TriggerMet(p.trigger, price) && InvalidationMet(p, price))
  {
    if zone < 0.0 {
      assert TriggerMet(p.trigger, zone) && InvalidationMet(p, zone);
    }
  }

  /** A Captain plan that survives a tick pins the price between its invalidation and its trigger. */
  lemma SurvivorsAreInCorridor(p: Plan, zone: real, t: Tick)
    requires BuiltByCaptain(p, zone) && zone > 0.0
    requires WatchOne(p, t).state == Watching
    ensures p.direction.Buy? ==> 0.995 * zone <= t.price < zone
    ensures p.direction.Sell? ==> zone < t.price <= 1.005 * zone
  {
  }

  // ----- What a tick does, by price and clock -----

  /** The price has left the zone of a Captain plan by half a percent against its direction. */
  ghost predicate BeyondZone(d: Direction, zone: real, price: real) {
    zone != 0.0 && (if d.Buy? then price < 0.995 * zone else price > 1.005 * zone)
  }

  ghost predicate ReachedZone(d: Direction, zone: real, price: real) {
    if d.Buy? then price >= zone else price <= zone
  }

  /** Two, four or three candles, or thirty minutes; a tick without a candle index goes by the last one written down. */
  ghost predicate WindowOver(p: Plan, t: Tick) {
    if p.cls.Scalp? || p.cls.Continuation? || p.cls.Reversal? then
      var window := if p.cls.Scalp? then 2 else if p.cls.Continuation? then 4 else 3;
      && p.expiry.Candles? && p.expiry.createdAtCandle.Some?
      && (if t.candle > 0 then t.candle - p.expiry.createdAtCandle.value >= window else p.expiry.elapsed >= window)
    else t.now - p.createdAt >= 1800.0
  }

  /**
   A WATCHING Captain plan is invalidated beyond its zone, else expired once its window is over, else triggered where
   the price has reached the zone, and else it stays.
  */
  lemma TickOutcome(p: Plan, zone: real, t: Tick)
    requires BuiltByCaptain(p, zone) && p.state.Watching?
    ensures WatchOne(p, t).state == if BeyondZone(p.direction, zone, t.price) then Invalidated
                                    else if WindowOver(p, t) then Expired
                                    else if ReachedZone(p.direction, zone, t.price) then Triggered
                                    else Watching
  {
  }

  /** A new plan of the Captain: at its zone, half a percent behind it, for its window or for half an hour. */
  lemma NewPlan(id: nat, d: Direction, cls: TradeClass, zone: real, candle: int, now: real)
    ensures var p := CaptainPlan(id, d, cls, zone, candle, now);
            && p.id == id && p.direction == d && p.cls == cls && p.state == Watching && p.createdAt == now
            && p.trigger == (if d == Buy then Above(zone) else Below(zone))
            && 1000.0 * p.invalidation == (if d == Buy then 995.0 else 1005.0) * zone
            && p.expiry == (match cls
                            case Scalp => Candles(2, Some(candle), 0)
                            case Continuation => Candles(4, Some(candle), 0)
                            case Reversal => Candles(3, Some(candle), 0)
                            case _ => AfterMinutes(30.0))
  {
  }

  /**
   The purge of a heavy cycle ends a WATCHING plan of a candle-bound class whose stamp is old enough, and no other.
  */
  lemma PurgeOutcome(p: Plan, candle: int)
    ensures var window := if p.cls.Scalp? then 2 else if p.cls.Continuation? then 4 else 3;
            PurgeOne(p, candle) == if && p.state.Watching? && (p.cls.Scalp? || p.cls.Continuation? || p.cls.Reversal?)
                                      && p.expiry.Candles? && p.expiry.createdAtCandle.Some?
                                      && p.expiry.createdAtCandle.value != 0
                                      && candle - p.expiry.createdAtCandle.value >= window
                                   then p.(state := Expired) else p
  {
  }

  /** A tick writes the candles since creation, never fewer than none, into a stamped plan; others it leaves alone. */
  lemma AgedByCandles(p: Plan, candle: int)
    ensures p.expiry.Candles? && candle > 0 && p.expiry.createdAtCandle.Some? ==>
              var created := p.expiry.createdAtCandle.value;
              Aged(p, candle) == p.(expiry := Candles(p.expiry.count, Some(created),
                                                      if candle < created then 0 else candle - created))
    ensures !p.expiry.Candles? || candle <= 0 || p.expiry.createdAtCandle == None ==> Aged(p, candle) == p
  {
  }

  /** The triggers and expiries that only direct callers use; a reclaim needs no earlier price below the level. */
  lemma OtherTriggers(level: real, low: real, high: real, price: real)
    ensures TriggerMet(Between(low, high), price) <==> low <= price && price <= high
    ensures TriggerMet(Reclaim(level), price) <==> TriggerMet(Above(level), price)
    ensures level >= 0.0 ==> (TriggerMet(Touch(level), price) <==> 0.999 * level <= price <= 1.001 * level)
    ensures level < 0.0 ==> !TriggerMet(Touch(level), price)
    ensures !TriggerMet(NoTrigger, price)
  {
  }

  lemma OtherExpiries(level: real, createdAt: real, t: Tick)
    ensures ExpiryMet(PriceBeyond(level, OnlyAbove), createdAt, t) <==> t.price > level
    ensures ExpiryMet(PriceBeyond(level, OnlyBelow), createdAt, t) <==> t.price < level
    ensures level >= 0.0 ==> (ExpiryMet(PriceBeyond(level, AnySide), createdAt, t) <==>
                              t.price < 0.98 * level || t.price > 1.02 * level)
    ensures !ExpiryMet(NoExpiry, createdAt, t)
  {
  }

  // ----- Two expiry mechanisms -----

  /**
   When tick-level expiry through the `elapsed` field and the class test of the heavy cycle agree on a Captain plan. A
   tick with a positive candle rewrites the field, whatever it held and wherever the candle index moved: they agree
   exactly unless the plan was created at candle 0 and its window has passed. A tick without one reads the old field,
   which the class test can confirm only for a plan from before candle 0.
  */
  lemma ExpiryMechanismsAgree(p: Plan, zone: real, t: Tick)
    requires BuiltByCaptain(p, zone) && ExpiryWindow(p.cls) > 0
    ensures (ExpiryMet(Aged(p, t.candle).expiry, p.createdAt, t) <==> ClassExpired(p, t.candle)) <==>
            if t.candle > 0 then CreationCandle(p) != 0 || t.candle < ExpiryWindow(p.cls)
            else
              p.expiry.elapsed >= ExpiryWindow(p.cls) <==>
              CreationCandle(p) < 0 && t.candle - CreationCandle(p) >= ExpiryWindow(p.cls)
  {
  }

  lemma WatchKeepsBuild(p: Plan, zone: real, t: Tick, candle: int)
    requires BuiltByCaptain(p, zone)
    ensures BuiltByCaptain(WatchOne(p, t), zone) && BuiltByCaptain(PurgeOne(p, candle), zone)
    ensures CreationCandle(WatchOne(p, t)) == CreationCandle(p) == CreationCandle(PurgeOne(p, candle))
  {
  }
}
