/** Armed plans over whole runs: each is finished once, few are alive at a time, and survivors pin the price. */
module PlanRuns {
  import opened SharedTypes
  import opened Sequences
  import opened Confluence
  import opened Conviction
  import opened FloorSummaries
  import opened RegimeDetection
  import opened TradeClasses
  import opened ScoreOrder
  import opened PermissionGate
  import opened ArmedPlans
  import opened CaptainEngine
  import opened CaptainRuns
  import opened CaptainLockout

  /** The three ways in which an event can change the plan book. */
  lemma BookStep(s: CaptainState, e: Event)
    ensures match e
            case Heavy(inp) =>
              Step(s, e).book == if OpenCycle(s, e)
                                 then var b := ArmedBook(s, inp); b.(plans := PurgeAll(b.plans, inp.candle))
                                 else s.book
            case Light(x) => Step(s, e).book == s.book.(plans := WatchAll(s.book.plans, x.tick))
            case SessionStart(_) => Step(s, e).book == PlanBook([], s.book.issued)
            case _ => Step(s, e).book == s.book
  {
    hide FinalScores, BlockedBy;
    if e.Heavy? {
      assert ArmedBook(Opened(s, e.inp), e.inp) == ArmedBook(s, e.inp);
    }
  }

  // ----- Each plan is finished once -----

  ghost predicate Live(b: PlanBook, id: nat) {
    exists i :: 0 <= i < |b.plans| && b.plans[i].id == id && b.plans[i].state.Watching?
  }

  /** Handed out, and not (or no longer) WATCHING. */
  ghost predicate Retired(b: PlanBook, id: nat) {
    id < b.issued && !Live(b, id)
  }

  /** Event `e` puts `id` into one of its result lists. */
  predicate Reports(s: CaptainState, e: Event, id: nat) {
    match e
    case Heavy(inp) => OpenCycle(s, e) && id in PurgedIds(ArmedBook(s, inp).plans, inp.candle)
    case Light(x) =>
      var r := WatchResultOf(s.book.plans, x.tick);
      id in r.triggered || id in r.expired || id in r.invalidated
    case _ => false
  }

  /** `Reports` is about the lists that the cycles really return. */
  lemma ReportsAreReturned(s: CaptainState, e: Event, id: nat)
    ensures e.Heavy? ==>
              (Reports(s, e, id) <==> HeavyOut(s, e.inp).Decided? && id in HeavyOut(s, e.inp).purged)
    ensures e.Light? ==>
              var w := LightOut(s, e.tickInput).watch;
              (Reports(s, e, id) <==> id in w.triggered + w.expired + w.invalidated)
  {
    hide FinalScores, BlockedBy;
    if e.Heavy? {
      assert ArmedBook(Opened(s, e.inp), e.inp) == ArmedBook(s, e.inp);
    }
  }

  lemma RetiredAfterWatch(b: PlanBook, t: Tick, id: nat)
    requires Retired(b, id)
    ensures Retired(b.(plans := WatchAll(b.plans, t)), id)
  {
  }

  lemma RetiredAfterPurge(b: PlanBook, candle: int, id: nat)
    requires Retired(b, id)
    ensures Retired(b.(plans := PurgeAll(b.plans, candle)), id)
  {
  }

  lemma RetiredAfterArming(s: CaptainState, inp: HeavyInput, id: nat)
    requires Retired(s.book, id)
    ensures Retired(ArmedBook(s, inp), id)
  {
  }

  lemma RetiredStep(s: CaptainState, e: Event, id: nat)
    requires Retired(s.book, id)
    ensures Retired(Step(s, e).book, id)
  {
    hide Step, ArmedBook, OpenCycle;
    BookStep(s, e);
    match e {
      case Heavy(inp) =>
        if OpenCycle(s, e) {
          RetiredAfterArming(s, inp, id);
          RetiredAfterPurge(ArmedBook(s, inp), inp.candle, id);
        }
      case Light(x) => RetiredAfterWatch(s.book, x.tick, id);
      case _ =>
    }
  }

  lemma {:induction false} RetiredForGood(s: CaptainState, run: seq<Event>, id: nat)
    requires Retired(s.book, id)
    ensures Retired(After(s, run).book, id)
  {
    hide Step;
    if run != [] {
      RetiredForGood(s, run[..|run| - 1], id);
      RetiredStep(After(s, run[..|run| - 1]), run[|run| - 1], id);
    }
  }

  lemma WatchReportRetires(b: PlanBook, t: Tick, id: nat, target: PlanState)
    requires ValidBook(b) && id in MovedTo(b.plans, t, target) && !target.Watching?
    ensures Live(b, id)
    ensures Retired(b.(plans := WatchAll(b.plans, t)), id)
  {
    MovedToIsExact(b.plans, t, target, id);
    var i :| 0 <= i < |b.plans| && b.plans[i].id == id && b.plans[i].state.Watching?
             && WatchOne(b.plans[i], t).state == target;
    var c := b.(plans := WatchAll(b.plans, t));
    forall j | 0 <= j < |c.plans| && c.plans[j].id == id ensures c.plans[j].state == target {
      assert b.plans[j].id == id;
      assert i == j;
    }
  }

  /** A plan is never purged in the cycle that arms it. */
  lemma ArmedPlansAreYoung(s: CaptainState, inp: HeavyInput)
    requires ValidBook(s.book)
    ensures var b := ArmedBook(s, inp);
            && ValidBook(b)
            && forall i :: 0 <= i < |b.plans| && ClassExpired(b.plans[i], inp.candle) ==>
                 i < |s.book.plans| && s.book.plans[i] == b.plans[i]
  {
    hide ConfluenceOf;
  }

  lemma PurgeReportRetires(s: CaptainState, inp: HeavyInput, id: nat)
    requires ValidBook(s.book) && id in PurgedIds(ArmedBook(s, inp).plans, inp.candle)
    ensures Live(s.book, id)
    ensures var b := ArmedBook(s, inp); Retired(b.(plans := PurgeAll(b.plans, inp.candle)), id)
  {
    var b := ArmedBook(s, inp);
    ArmedPlansAreYoung(s, inp);
    hide ArmedBook, ClassExpired;
    PurgedIdsAreExact(b.plans, inp.candle, id);
    var i :| 0 <= i < |b.plans| && b.plans[i].id == id && b.plans[i].state.Watching?
      && ClassExpired(b.plans[i], inp.candle);
    assert s.book.plans[i] == b.plans[i];
    var c := b.(plans := PurgeAll(b.plans, inp.candle));
    forall j | 0 <= j < |c.plans| && c.plans[j].id == id ensures c.plans[j].state.Expired? {
      assert b.plans[j].id == id;
      assert i == j;
    }
  }

  lemma ReportRetires(s: CaptainState, e: Event, id: nat)
    requires ValidState(s) && Reports(s, e, id)
    ensures Live(s.book, id)
    ensures Retired(Step(s, e).book, id)
  {
    hide Step, ArmedBook, OpenCycle, MovedTo, WatchAll;
    BookStep(s, e);
    match e {
      case Heavy(inp) => PurgeReportRetires(s, inp, id);
      case Light(x) =>
        if id in MovedTo(s.book.plans, x.tick, Triggered) {
          WatchReportRetires(s.book, x.tick, id, Triggered);
        } else if id in MovedTo(s.book.plans, x.tick, Expired) {
          WatchReportRetires(s.book, x.tick, id, Expired);
        } else {
          WatchReportRetires(s.book, x.tick, id, Invalidated);
        }
      case _ =>
    }
  }

  /** A tick puts a plan into one list at most. */
  lemma TickListsAreDisjoint(b: PlanBook, t: Tick, id: nat, x: PlanState, y: PlanState)
    requires ValidBook(b)
    requires id in MovedTo(b.plans, t, x) && id in MovedTo(b.plans, t, y)
    ensures x == y
  {
    MovedToIsExact(b.plans, t, x, id);
    MovedToIsExact(b.plans, t, y, id);
    var i :| 0 <= i < |b.plans| && b.plans[i].id == id && WatchOne(b.plans[i], t).state == x;
    var j :| 0 <= j < |b.plans| && b.plans[j].id == id && WatchOne(b.plans[j], t).state == y;
    assert i == j;
  }

  /**
   Over a whole run of any events, session starts included, a plan is reported by one event at most and never
   WATCHES again after it.
  */
  lemma ReportedOnce(s: CaptainState, run: seq<Event>, i: nat, j: nat, id: nat)
    requires ValidState(s) && i < j < |run|
    requires Reports(Before(s, run, i), run[i], id)
    ensures !Reports(Before(s, run, j), run[j], id)
    ensures Retired(Before(s, run, j).book, id)
  {
    hide Step, Reports;
    RunKeepsValid(s, run[..i]);
    RunKeepsValid(s, run[..j]);
    ReportRetires(Before(s, run, i), run[i], id);
    AfterStep(s, run, i);
    var between := run[i + 1..j];
    RetiredForGood(Before(s, run, i + 1), between, id);
    assert run[..j] == run[..i + 1] + between;
    AfterSplit(s, run[..i + 1], between);
    if Reports(Before(s, run, j), run[j], id) {
      ReportRetires(Before(s, run, j), run[j], id);
    }
  }

  // ----- Few plans are alive at a time -----

  predicate CandleBound(p: Plan) {
    p.state.Watching? && ExpiryWindow(p.cls) > 0
  }

  /** The creation candles of the WATCHING candle-bound plans, oldest first. */
  function AliveCandles(plans: seq<Plan>): seq<int> {
    if plans == [] then []
    else
      var last := plans[|plans| - 1];
      AliveCandles(plans[..|plans| - 1]) + (if CandleBound(last) then [CreationCandle(last)] else [])
  }

  function ZoneOf(p: Plan): real {
    match p.trigger
    case Above(level) => level
    case Below(level) => level
    case _ => 0.0
  }

  /** Every plan in the book was built by the Captain. */
  ghost predicate AllBuilt(plans: seq<Plan>) {
    forall p :: p in plans ==> BuiltByCaptain(p, ZoneOf(p))
  }

  /** Every WATCHING candle-bound plan was created in (0, open] and was inside its window at candle `open`. */
  ghost predicate InWindow(plans: seq<Plan>, open: int) {
    forall p :: p in plans && CandleBound(p) ==>
      0 < CreationCandle(p) <= open && open - CreationCandle(p) < ExpiryWindow(p.cls)
  }

  /** Created in strictly increasing candle order, all of them. */
  ghost predicate CreatedInOrder(plans: seq<Plan>, top: int) {
    && (forall p :: p in plans && ExpiryWindow(p.cls) > 0 ==> CreationCandle(p) <= top)
    && (forall i, j :: 0 <= i < j < |plans| && ExpiryWindow(plans[i].cls) > 0 && ExpiryWindow(plans[j].cls) > 0 ==>
          CreationCandle(plans[i]) < CreationCandle(plans[j]))
  }

  lemma {:induction false} AliveCandlesFromPlans(plans: seq<Plan>, c: int)
    ensures c in AliveCandles(plans) <==> exists p :: p in plans && CandleBound(p) && CreationCandle(p) == c
  {
    if plans != [] {
      var init, last := plans[..|plans| - 1], plans[|plans| - 1];
      assert plans == init + [last];
      AliveCandlesFromPlans(init, c);
      assert forall p :: p in plans <==> p in init || p == last;
    }
  }

  lemma {:induction false} AliveCandlesIncrease(plans: seq<Plan>, top: int)
    requires CreatedInOrder(plans, top)
    ensures Increasing(AliveCandles(plans))
  {
    if plans != [] {
      var n := |plans| - 1;
      forall p | p in plans[..n] ensures p in plans {}
      AliveCandlesIncrease(plans[..n], top);
      if CandleBound(plans[n]) {
        EarlierCandles(plans, n, top);
        hide CandleBound, CreatedInOrder, CreationCandle;
        var xs := AliveCandles(plans);
        forall i, j | 0 <= i < j < |xs| ensures xs[i] < xs[j] {
          assert xs[i] in AliveCandles(plans[..n]);
        }
      }
    }
  }

  lemma EarlierCandles(plans: seq<Plan>, n: nat, top: int)
    requires CreatedInOrder(plans, top) && n == |plans| - 1 && CandleBound(plans[n])
    ensures forall c :: c in AliveCandles(plans[..n]) ==> c < CreationCandle(plans[n])
  {
    forall c | c in AliveCandles(plans[..n]) ensures c < CreationCandle(plans[n]) {
      AliveCandlesFromPlans(plans[..n], c);
      var p :| p in plans[..n] && CandleBound(p) && CreationCandle(p) == c;
      var i :| 0 <= i < n && plans[i] == p;
    }
  }

  lemma {:induction false} IncreasingSpread(xs: seq<int>)
    requires Increasing(xs) && xs != []
    ensures xs[|xs| - 1] - xs[0] >= |xs| - 1
  {
    if |xs| > 1 {
      IncreasingSpread(xs[..|xs| - 1]);
    }
  }

  /** Distinct creation candles within the largest window leave no more plans than that window has candles. */
  lemma AtMostWindowAlive(plans: seq<Plan>, open: int, most: nat)
    requires CreatedInOrder(plans, open) && InWindow(plans, open)
    requires forall p :: p in plans && CandleBound(p) ==> ExpiryWindow(p.cls) <= most
    ensures |AliveCandles(plans)| <= most
  {
    var xs := AliveCandles(plans);
    AliveCandlesIncrease(plans, open);
    if xs != [] {
      IncreasingSpread(xs);
      AliveCandlesFromPlans(plans, xs[0]);
      AliveCandlesFromPlans(plans, xs[|xs| - 1]);
      assert xs[0] in xs && xs[|xs| - 1] in xs;
    }
  }

  /** The candle of the last cycle that passed the gate in this session, or 0. */
  function LastOpen(s: CaptainState, run: seq<Event>): int {
    if run == [] then 0
    else
      var n := |run| - 1;
      if run[n].SessionStart? then 0
      else if OpenCycle(After(s, run[..n]), run[n]) then run[n].inp.candle
      else LastOpen(s, run[..n])
  }

  /** The cycles that pass the gate carry positive candle indices that grow strictly within a session. */
  ghost predicate CandlesIncrease(s: CaptainState, run: seq<Event>) {
    run == [] ||
    (var n := |run| - 1;
     CandlesIncrease(s, run[..n])
     && (OpenCycle(After(s, run[..n]), run[n]) ==> run[n].inp.candle > LastOpen(s, run[..n])))
  }

  ghost predicate PopulationInvariant(b: PlanBook, open: int) {
    AllBuilt(b.plans) && CreatedInOrder(b.plans, open) && InWindow(b.plans, open) && 0 <= open
  }

  lemma WatchKeepsPopulation(b: PlanBook, t: Tick, open: int)
    requires PopulationInvariant(b, open)
    ensures PopulationInvariant(b.(plans := WatchAll(b.plans, t)), open)
  {
    var c := WatchAll(b.plans, t);
    forall i | 0 <= i < |c|
      ensures BuiltByCaptain(c[i], ZoneOf(c[i]))
      ensures CreationCandle(c[i]) == CreationCandle(b.plans[i]) && c[i].cls == b.plans[i].cls
      ensures CandleBound(c[i]) ==> CandleBound(b.plans[i])
    {
      assert c[i] == WatchOne(b.plans[i], t) && b.plans[i] in b.plans;
      WatchKeepsBuild(b.plans[i], ZoneOf(b.plans[i]), t, 0);
    }
  }

  lemma ArmingKeepsOrder(s: CaptainState, inp: HeavyInput, open: int)
    requires PopulationInvariant(s.book, open) && inp.candle > open
    ensures AllBuilt(ArmedBook(s, inp).plans)
    ensures CreatedInOrder(ArmedBook(s, inp).plans, inp.candle)
    ensures forall p :: p in ArmedBook(s, inp).plans && CandleBound(p) ==> 0 < CreationCandle(p) <= inp.candle
  {
    hide ClassOf, ConfluenceOf;
    var c := ArmedBook(s, inp).plans;
    forall p | p in c
      ensures BuiltByCaptain(p, ZoneOf(p))
      ensures ExpiryWindow(p.cls) > 0 ==> CreationCandle(p) <= inp.candle
      ensures CandleBound(p) ==> 0 < CreationCandle(p)
    {
      if p !in s.book.plans {
        assert p == c[|c| - 1];
      }
    }
  }

  lemma PurgeRestoresWindow(plans: seq<Plan>, candle: int)
    requires AllBuilt(plans) && CreatedInOrder(plans, candle)
    requires forall p :: p in plans && CandleBound(p) ==> 0 < CreationCandle(p) <= candle
    ensures AllBuilt(PurgeAll(plans, candle)) && CreatedInOrder(PurgeAll(plans, candle), candle)
    ensures InWindow(PurgeAll(plans, candle), candle)
  {
    var c := PurgeAll(plans, candle);
    forall i | 0 <= i < |c|
      ensures BuiltByCaptain(c[i], ZoneOf(c[i]))
      ensures CreationCandle(c[i]) == CreationCandle(plans[i]) && c[i].cls == plans[i].cls
      ensures CandleBound(c[i]) ==> CandleBound(plans[i]) && !ClassExpired(plans[i], candle)
    {
      assert c[i] == PurgeOne(plans[i], candle) && plans[i] in plans;
    }
  }

  lemma OpenCycleIsHeavy(s: CaptainState, e: Event)
    ensures OpenCycle(s, e) ==> e.Heavy?
  {
  }

  lemma PopulationStep(s: CaptainState, e: Event, open: int)
    requires PopulationInvariant(s.book, open)
    requires OpenCycle(s, e) ==> e.inp.candle > open
    ensures var next := if e.SessionStart? then 0 else if OpenCycle(s, e) then e.inp.candle else open;
            PopulationInvariant(Step(s, e).book, next)
  {
    hide Step, OpenCycle, ArmedBook, BuiltByCaptain;
    BookStep(s, e);
    OpenCycleIsHeavy(s, e);
    match e {
      case Heavy(inp) =>
        if OpenCycle(s, e) {
          ArmingKeepsOrder(s, inp, open);
          PurgeRestoresWindow(ArmedBook(s, inp).plans, inp.candle);
        }
      case Light(x) => WatchKeepsPopulation(s.book, x.tick, open);
      case _ =>
    }
  }

  lemma {:induction false} PopulationHolds(today: int, run: seq<Event>)
    requires CandlesIncrease(Init(today), run)
    ensures var s := After(Init(today), run);
            PopulationInvariant(s.book, LastOpen(Init(today), run))
  {
    hide Step, OpenCycle, PopulationInvariant;
    if run == [] {
      EmptyPopulation();
    } else {
      var n := |run| - 1;
      PopulationHolds(today, run[..n]);
      var s := After(Init(today), run[..n]);
      OpenCycleIsHeavy(s, run[n]);
      PopulationStep(s, run[n], LastOpen(Init(today), run[..n]));
    }
  }

  lemma EmptyPopulation()
    ensures PopulationInvariant(EMPTY_BOOK, 0)
  {
  }

  /**
   On every run whose gate-passing cycles carry growing candles, however ticks, blocked cycles at any candle and calls
   are mixed in: at most four candle-bound plans are WATCHING, their creation candles are distinct, and at the last
   cycle that passed the gate each was younger than its class window.
  */
  lemma PopulationBound(today: int, run: seq<Event>)
    requires CandlesIncrease(Init(today), run)
    ensures var plans := After(Init(today), run).book.plans;
            && |AliveCandles(plans)| <= 4
            && Increasing(AliveCandles(plans))
            && forall p :: p in plans && CandleBound(p) ==>
                 LastOpen(Init(today), run) - CreationCandle(p) < ExpiryWindow(p.cls)
  {
    hide Step, OpenCycle, BuiltByCaptain;
    PopulationHolds(today, run);
    var plans := After(Init(today), run).book.plans;
    AtMostWindowAlive(plans, LastOpen(Init(today), run), 4);
    AliveCandlesIncrease(plans, LastOpen(Init(today), run));
  }

  // ----- With the summaries of the system -----

  /** A cycle with a built summary never sees a trend, so the only class it can compute is SCALP. */
  lemma BuiltCyclesScalp(inp: HeavyInput)
    requires UnitConfidence(inp.reports)
    requires inp.summary == Some(SummaryOf(inp.reports)) || inp.summary == Some(EMPTY_SUMMARY)
    ensures ClassOf(inp) == None || ClassOf(inp) == Some(Scalp)
  {
    hide ConfluenceOf, SummaryOf, SummaryRegime, ClassOf;
    CycleIsBounded(inp, 0);
    CycleClassIsAssigned(inp, 0);
    BuiltSummariesNeverTrend(inp.summary.value);
    hide Classified, DetectRegime;
    RegimeStaysSideways(inp);
    ClassByBand(ScoreInputOf(inp, 0), Directed(inp));
  }

  lemma RegimeStaysSideways(inp: HeavyInput)
    requires inp.summary.Some? && Sideways(SummaryRegime(inp.summary.value))
    ensures Sideways(ScoreInputOf(inp, 0).regime)
  {
    hide ConfluenceOf, SummaryRegime;
  }

  ghost predicate AllScalps(plans: seq<Plan>) {
    forall p :: p in plans ==> p.cls.Scalp?
  }

  lemma ScalpStep(s: CaptainState, e: Event)
    requires AllScalps(s.book.plans)
    requires e.Heavy? ==> ClassOf(e.inp) == None || ClassOf(e.inp) == Some(Scalp)
    ensures AllScalps(Step(s, e).book.plans)
  {
    hide Step, OpenCycle, ConfluenceOf, ClassOf, Verdict, ClassExpired;
    BookStep(s, e);
    match e {
      case Heavy(inp) =>
        var b := ArmedBook(s, inp).plans;
        assert AllScalps(b);
        forall p | p in PurgeAll(b, inp.candle) ensures p.cls.Scalp? {
          var i :| 0 <= i < |b| && PurgeAll(b, inp.candle)[i] == p;
          assert b[i] in b;
        }
      case Light(x) =>
        forall p | p in WatchAll(s.book.plans, x.tick) ensures p.cls.Scalp? {
          var i :| 0 <= i < |s.book.plans| && WatchAll(s.book.plans, x.tick)[i] == p;
          assert s.book.plans[i] in s.book.plans;
        }
      case _ =>
    }
  }

  lemma {:induction false} BuiltRunsArmScalps(today: int, run: seq<Event>)
    requires ContractReports(run) && BuiltSummaries(run)
    ensures AllScalps(After(Init(today), run).book.plans)
  {
    hide Step, ClassOf, UnitConfidence;
    if run != [] {
      var n := |run| - 1;
      BuiltRunsArmScalps(today, run[..n]);
      if run[n].Heavy? {
        assert run[n] in run;
        BuiltCyclesScalp(run[n].inp);
      }
      ScalpStep(After(Init(today), run[..n]), run[n]);
    }
  }

  /** With the summaries the system really builds at most two candle-bound plans are WATCHING. */
  lemma BuiltPopulationBound(today: int, run: seq<Event>)
    requires CandlesIncrease(Init(today), run) && ContractReports(run) && BuiltSummaries(run)
    ensures |AliveCandles(After(Init(today), run).book.plans)| <= 2
  {
    hide Step, OpenCycle, BuiltByCaptain;
    PopulationHolds(today, run);
    BuiltRunsArmScalps(today, run);
    AtMostWindowAlive(After(Init(today), run).book.plans, LastOpen(Init(today), run), 2);
  }

  // ----- The bounds are met -----

  /** An ideal cycle that no capital can pay for. */
  function UnpaidCycle(cls: TradeClass, candle: int): HeavyInput {
    IdealCycle(cls, Alert, candle).(capital := 1.0)
  }

  /** Unpaid ideal cycles on candles 1 to `k`, each arming a plan of the class. */
  function ArmingRun(cls: TradeClass, k: nat): seq<Event> {
    if k == 0 then [] else ArmingRun(cls, k - 1) + [Heavy(UnpaidCycle(cls, k))]
  }

  lemma ArmingCycle(s: CaptainState, cls: TradeClass, k: nat)
    requires cls.Continuation? || cls.Scalp?
    requires s.activeTrade.None? && s.cooldown == 0
    ensures var t := Step(s, Heavy(UnpaidCycle(cls, k)));
            && t.activeTrade.None? && t.cooldown == 0
            && t.book.plans == PurgeAll(s.book.plans + [CaptainPlan(s.book.issued, Buy, cls, 100.0, k, 0.0)], k)
  {
    var e := Heavy(UnpaidCycle(cls, k));
    assert e.inp.candle == k;
    PennilessCycle(s, cls, k);
    ArmingBook(s, cls, k);
    ActiveTradeStep(s, e);
    CooldownStep(s, e);
    BookStep(s, e);
    hide Step, OpenCycle, Traded, ArmedBook, IdealCycle, CaptainPlan, PurgeAll;
  }

  lemma ArmingBook(s: CaptainState, cls: TradeClass, k: nat)
    requires s.cooldown == 0 && (cls.Continuation? || cls.Scalp?)
    ensures ArmedBook(s, UnpaidCycle(cls, k)) == Created(s.book, Buy, cls, 100.0, k, 0.0)
  {
    var inp := UnpaidCycle(cls, k);
    assert inp.candle == k && inp.price == 100.0 && inp.zone == None && inp.now == 0.0;
    IdealParts(cls, Alert, k);
    IdealClass(cls, Alert, k, 0);
    assert ConfluenceOf(inp.reports) == ConfluenceOf(IdealCycle(cls, Alert, k).reports);
    assert ClassOf(inp) == ClassOf(IdealCycle(cls, Alert, k));
    hide ClassOf, ConfluenceOf, UnpaidCycle, Created;
  }

  lemma {:induction false} ArmingRunPlans(today: int, cls: TradeClass, k: nat)
    requires cls.Continuation? || cls.Scalp?
    requires k <= ExpiryWindow(cls)
    ensures var s := After(Init(today), ArmingRun(cls, k));
            && s.activeTrade.None? && s.cooldown == 0 && |s.book.plans| == k
            && forall i :: 0 <= i < k ==>
                 var p := s.book.plans[i]; p.state.Watching? && p.cls == cls && CreationCandle(p) == i + 1
  {
    hide Step, FinalScores, BlockedBy, ConfluenceOf, PurgeAll;
    if k > 0 {
      ArmingRunPlans(today, cls, k - 1);
      assert ArmingRun(cls, k)[..|ArmingRun(cls, k)| - 1] == ArmingRun(cls, k - 1);
      var s := After(Init(today), ArmingRun(cls, k - 1));
      ArmingCycle(s, cls, k);
      var p := CaptainPlan(s.book.issued, Buy, cls, 100.0, k, 0.0);
      assert p.state.Watching? && p.cls == cls && CreationCandle(p) == k;
      hide CaptainPlan, After;
      YoungPlansStay(s.book.plans + [p], k);
    }
  }

  lemma YoungPlansStay(plans: seq<Plan>, candle: int)
    requires forall i :: 0 <= i < |plans| ==> candle - CreationCandle(plans[i]) < ExpiryWindow(plans[i].cls)
    ensures PurgeAll(plans, candle) == plans
  {
  }

  lemma {:induction false} AllAlive(plans: seq<Plan>)
    requires forall p :: p in plans ==> CandleBound(p)
    ensures |AliveCandles(plans)| == |plans|
  {
    if plans != [] {
      forall p | p in plans[..|plans| - 1] ensures p in plans {}
      assert plans[|plans| - 1] in plans;
      AllAlive(plans[..|plans| - 1]);
    }
  }

  /** The bound of four is met. */
  lemma FourPlansCanBeAlive(today: int)
    ensures |AliveCandles(After(Init(today), ArmingRun(Continuation, 4)).book.plans)| == 4
  {
    hide Step, FinalScores, BlockedBy, ConfluenceOf, After;
    ArmingRunPlans(today, Continuation, 4);
    AllAlive(After(Init(today), ArmingRun(Continuation, 4)).book.plans);
  }

  lemma {:induction false} ScalpsCarrySummaries(k: nat)
    ensures BuiltSummaries(ArmingRun(Scalp, k))
  {
    hide SummaryOf;
    if k > 0 {
      ScalpsCarrySummaries(k - 1);
      assert UnpaidCycle(Scalp, k).summary == Some(SummaryOf(UnpaidCycle(Scalp, k).reports));
    }
  }

  /** The bound of two is met by cycles that carry the summary of their own reports. */
  lemma TwoScalpsCanBeAlive(today: int)
    ensures BuiltSummaries(ArmingRun(Scalp, 2))
    ensures |AliveCandles(After(Init(today), ArmingRun(Scalp, 2)).book.plans)| == 2
  {
    var run := ArmingRun(Scalp, 2);
    ScalpsCarrySummaries(2);
    hide Step, FinalScores, BlockedBy, ConfluenceOf, After, SummaryOf, BuiltSummaries, ArmingRun;
    ArmingRunPlans(today, Scalp, 2);
    AllAlive(After(Init(today), run).book.plans);
  }

  // ----- What a tick of a run reports -----

  /**
   After any run, a tick names a WATCHING plan `invalidated` exactly beyond its zone, `expired` exactly if it is not and
   its window is over, `triggered` exactly if neither holds and the price has reached the zone; the book says the same.
  */
  lemma TickReports(today: int, run: seq<Event>, x: LightInput, i: nat)
    requires i < |After(Init(today), run).book.plans| && After(Init(today), run).book.plans[i].state.Watching?
    ensures var s := After(Init(today), run);
            var p, w, q := s.book.plans[i], LightOut(s, x).watch, LightNext(s, x).book.plans[i];
            var beyond := BeyondZone(p.direction, ZoneOf(p), x.tick.price);
            var over, reached := WindowOver(p, x.tick), ReachedZone(p.direction, ZoneOf(p), x.tick.price);
            && q.id == p.id
            && (p.id in w.invalidated <==> beyond) && (q.state == Invalidated <==> beyond)
            && (p.id in w.expired <==> !beyond && over) && (q.state == Expired <==> !beyond && over)
            && (p.id in w.triggered <==> !beyond && !over && reached)
            && (q.state == Triggered <==> !beyond && !over && reached)
            && (q.state == Watching <==> !beyond && !over && !reached)
  {
    hide Step, BeyondZone, WindowOver, ReachedZone, WatchOne;
    var s := After(Init(today), run);
    var plans := s.book.plans;
    InitIsValid(today);
    RunKeepsValid(Init(today), run);
    ValidStateHasBook(s);
    RunKeepsBuilt(Init(today), run);
    assert plans[i] in plans;
    TickOutcome(plans[i], ZoneOf(plans[i]), x.tick);
    WatchKeepsId(plans[i], x.tick);
    OnlyPlanOfItsId(s.book, i);
    MovedToIsExact(plans, x.tick, Invalidated, plans[i].id);
    MovedToIsExact(plans, x.tick, Expired, plans[i].id);
    MovedToIsExact(plans, x.tick, Triggered, plans[i].id);
    hide After, ValidState, ValidBook, BuiltByCaptain, MovedTo, AllBuilt;
  }

  lemma OnlyPlanOfItsId(b: PlanBook, i: nat)
    requires ValidBook(b) && i < |b.plans|
    ensures forall j :: 0 <= j < |b.plans| && b.plans[j].id == b.plans[i].id ==> j == i
  {
  }

  // ----- Candle 0 -----

  /**
   Called directly, with the candle index left at its default of 0, the heavy cycle arms a plan that no later cycle
   purges. Only ticks still end it: the same window, once passed, does.
  */
  lemma CandleZeroIsNeverPurged(today: int, candle: int, t: Tick)
    requires t.candle >= ExpiryWindow(Continuation)
    ensures var plans := Step(Init(today), Heavy(UnpaidCycle(Continuation, 0))).book.plans;
            && |plans| == 1 && plans[0].state.Watching? && PurgeAll(plans, candle) == plans
            && ExpiryMet(Aged(plans[0], t.candle).expiry, plans[0].createdAt, t)
  {
    hide Step, IdealCycle, PurgeOne;
    ArmingCycle(Init(today), Continuation, 0);
    var p := CaptainPlan(0, Buy, Continuation, 100.0, 0, 0.0);
    assert CreationCandle(p) == 0 && p.cls.Continuation?;
    UnstampedStays(p, 0);
    UnstampedStays(p, candle);
  }

  lemma UnstampedStays(p: Plan, candle: int)
    requires CreationCandle(p) == 0
    ensures PurgeAll([p], candle) == [p]
  {
    assert PurgeOne(p, candle) == p;
  }

  // ----- Price corridor -----

  lemma BuiltStep(s: CaptainState, e: Event)
    requires AllBuilt(s.book.plans)
    ensures AllBuilt(Step(s, e).book.plans)
  {
    hide Step, OpenCycle, ConfluenceOf;
    BookStep(s, e);
    match e {
      case Heavy(inp) =>
        if OpenCycle(s, e) {
          var b := ArmedBook(s, inp).plans;
          forall p | p in b ensures BuiltByCaptain(p, ZoneOf(p)) {
            if p !in s.book.plans {
              assert p == b[|b| - 1];
            }
          }
          BuiltAfterPurge(b, inp.candle);
        }
      case Light(x) => BuiltAfterWatch(s.book.plans, x.tick);
      case _ =>
    }
  }

  lemma BuiltAfterPurge(plans: seq<Plan>, candle: int)
    requires AllBuilt(plans)
    ensures AllBuilt(PurgeAll(plans, candle))
  {
    forall p | p in PurgeAll(plans, candle) ensures BuiltByCaptain(p, ZoneOf(p)) {
      var i :| 0 <= i < |plans| && PurgeAll(plans, candle)[i] == p;
      assert plans[i] in plans;
      WatchKeepsBuild(plans[i], ZoneOf(plans[i]), Tick(0.0, 0, 0.0), candle);
    }
  }

  lemma BuiltAfterWatch(plans: seq<Plan>, t: Tick)
    requires AllBuilt(plans)
    ensures AllBuilt(WatchAll(plans, t))
  {
    forall p | p in WatchAll(plans, t) ensures BuiltByCaptain(p, ZoneOf(p)) {
      var i :| 0 <= i < |plans| && WatchAll(plans, t)[i] == p;
      assert plans[i] in plans;
      WatchKeepsBuild(plans[i], ZoneOf(plans[i]), t, 0);
    }
  }

  lemma {:induction false} RunKeepsBuilt(s: CaptainState, run: seq<Event>)
    requires AllBuilt(s.book.plans)
    ensures AllBuilt(After(s, run).book.plans)
  {
    hide Step, AllBuilt;
    if run != [] {
      RunKeepsBuilt(s, run[..|run| - 1]);
      BuiltStep(After(s, run[..|run| - 1]), run[|run| - 1]);
    }
  }

  /**
   After every tick of every run, each plan still WATCHING whose zone is positive pins the tick's price: at or
   above its invalidation and below its trigger for BUY, and the mirror image for SELL.
  */
  lemma PriceCorridor(today: int, run: seq<Event>, x: LightInput, p: Plan)
    requires p in LightNext(After(Init(today), run), x).book.plans
    requires p.state.Watching? && ZoneOf(p) > 0.0
    ensures p.direction.Buy? ==> 0.995 * ZoneOf(p) <= x.tick.price < ZoneOf(p)
    ensures p.direction.Sell? ==> ZoneOf(p) < x.tick.price <= 1.005 * ZoneOf(p)
  {
    hide Step;
    var plans := After(Init(today), run).book.plans;
    RunKeepsBuilt(Init(today), run);
    var i :| 0 <= i < |plans| && WatchAll(plans, x.tick)[i] == p;
    assert plans[i] in plans;
    WatchKeepsBuild(plans[i], ZoneOf(plans[i]), x.tick, 0);
    assert ZoneOf(p) == ZoneOf(plans[i]);
    SurvivorsAreInCorridor(plans[i], ZoneOf(p), x.tick);
  }
}
