# The trading floors of junior_aladdin, verified

A Dafny model of the decision core of junior_aladdin: the Floor 5 Captain as a two-speed state machine, the
department heads of Floor 4 that feed it, the packet ingress of Floor 3 and the candle feed of the system runner.
Objects that the original updates in place are classes here; each method is proved to take exactly the step of a
specification function, and the theorems are proved about those steps, over every input and every run.

Verify everything with `dafny verify dfyconfig.toml`.

## What is proved

The Captain (`CaptainEngine.dfy`, `CaptainRuns.dfy`, `CaptainLockout.dfy`, `RealModeRuns.dfy`, `PlanRuns.dfy`,
`RunnerDays.dfy`, `CycleLaws.dfy`, `DisciplineRuns.dfy`). A heavy cycle runs per candle, a light cycle per tick, and
losses, completed trades, operator calls and session starts come in between, in any order. The engine's sub-engines
are objects of their own (`ArmedPlans.dfy`, `LossLock.dfy`, `OverrideGuard.dfy`, `PermissionGate.dfy`,
`TradeSupervision.dfy`), shared between engine and gate as in the original.
Over whole runs:

- five idle cycles end trading until the next session, and four do not; with the summaries that Floor 4 really builds a
  single idle cycle does; exactly which states can still trade, with the class that is assigned;
- exactly when a cycle trades, in numbers; trades are separated by completions, spaced by cooldowns, and confined to
  one window of the day; a running psychology cooldown stops every cycle;
- three REAL losses stop REAL cycles exactly until a reset or an override, as long as no session was started; a grant
  lasts exactly until the operator ends it;
- a plan is finished once, four plans at most are alive, two with built summaries, a tick reports each
  plan by price and clock alone, and a living plan pins the price between two levels; the days of the runner are such runs.

What a cycle decides on (`FloorSummaries.dfy`, `RegimeDetection.dfy`, `TradeClasses.dfy`, `TradeConstruction.dfy`): the
summary Floor 4 builds, the regime read from it, the class assigned to it, and whether the trade can be paid for.

The arithmetic under it (`Confluence.dfy`, `Conviction.dfy`, `ScoreOrder.dfy`, `BrokenOrders.dfy`, `Numerics.dfy`):
when the two core heads outvote all others, why order does not matter, which scores can be reached, and for which
classes, idle counts and penalties a better cycle keeps the better score.

The heads (`HeadTypes.dfy`, `SmcInterpretation.dfy`, `IctInterpretation.dfy`, `MacroInterpretation.dfy`,
`Psychology.dfy`, `HeadContract.dfy`): their reports meet the locked contract exactly if the clock runs forward and the
ICT quality is not negative; what their branches add up to; cooldowns that depend on the last refresh time only.

Their memory and their rules (`HeadMemory.dfy`, `Invalidation.dfy`): a TTL cache that refines a live map, recalls what
was remembered last and hides its cleaning; merging that is idempotent and associative up to placeholders; a trigger
that latches.

The feeds (`CandleFeed.dfy`, `Timeline.dfy`, `Replay.dfy`): an incremental candle that is the batch candle, a timeline
that is the newest part of its history, and a replay that ingress never rejects.

## Where the code and its documentation disagree

The model follows the code; each point is a theorem below.

- An override is documented as a one-time grant. The Captain never clears it: it lasts exactly until the operator asks
  again, denies or clears (`GrantLastsIff`), and one grant can carry two trades (`TwoTradesOnOneGrant`).
- `start_session` replaces the loss lock and the guard, but the gate keeps the old ones (`SessionStartFreezesRealLock`).
  The runner starts a session each morning; with no loss before the first one, the lock never stops a cycle again
  (`MorningStartOpensRealLockForGood`).
- The loss lock counts by its own mode, which no caller outside it sets: it stays open even for cycles in REAL mode
  (`WithoutRealModeNeverLocks`).
- The market story reads the summary key `dominant_bias`; Floor 4 writes `dominant_floor_bias`. With a built summary the
  market never trends (`BuiltSummariesNeverTrend`), and one idle cycle ends trading (`OneIdleCycleEndsTrading`).
- REVERSAL and OPTIONS_PRESSURE are classes of trades, but no trade can ever carry them (`TradeIsReachableIff`).
- A strike outside the money is documented to need STRONG conviction. At a whole ATM strike no heavy cycle ever chooses
  it and the branch for STRONG never decides (`CyclesStayInTheMoney`, `WholeOutsideStrikeIff`); at a fractional one a
  TRADABLE band can end up there (`FractionalStrikeGoesOutside`).
- More confluence can lower the final conviction: it may turn a cycle without a class into a SCALP, which decays three
  times as fast (`ClassBreaksMonotonicity`, with the exact idle counts in `AssignedOrderIff`).
- The suggestion of the trade idea never decides the class of a cycle (`ClassByBand`), and with built summaries the
  penalties for stale or uncertain silence are never reached (`BuiltPresence`).
- Severity NORMAL never arises, and six of the eleven interventions are never taken (`SeverityCases`, `ActionCases`).
- A reclaim trigger is documented to need a price below the level first. The level alone meets it (`OtherTriggers`).
- `max_items = 0` is documented as unlimited. It keeps one item (`StepKeepsItemsValid`).
- The gate documents LUNCH as a phase of HIGH strictness that blocks. The code gives it NORMAL, so trading runs to 13:00
  (`TradingWindow`).
- The thesis review of step 20 cannot run, so ticks of the runner never intervene (`RunnerNeverIntervenes`).
- The heavy cycle asks the opposite-case engine for BUY or SELL, which it does not know: the case is always absent there
  (`OppositeCaseIsAlwaysAbsent`).
- The purge of the heavy cycle is blind to plans created at candle 0 (`ExpiryMechanismsAgree`). A day may begin with
  candle 0 (`CandleZeroOccurs`), but the gate is shut then (`OpenCandles`), so only a direct caller that leaves the
  candle index at its default of 0 gets such a plan (`CandleZeroIsNeverPurged`).
- Freshness jumps up at 120 seconds (`FreshnessBoundsLaterIff`).
- A new cooldown is shortened by the pause since the last one, and the first cooldown of a head is lengthened by the wait
  for its next refresh (`ReportedCooldownIsRightIff`, `FirstCooldownIsLengthened`).
- Every session start registers the price tracker again, which multiplies volumes
  (`SessionsMultiplyVolume`, `SecondSessionDoublesVolume`).
- A stale core head penalises a better score more (`StaleHeadsBreakMonotonicity`, with its condition in
  `StalePipelineOrderIff`).
- `rejected_count` of a direct load counts errors (`LoadCountsAddUpIff`, `TwoErrorsCountTwice`); a payload timestamp
  is checked but not used (`StampKeepsInputsTimelyIff`).

## Modelling conventions

Floats are reals, and the calls of `round` round half to even exactly. Dates are day numbers with day 0 a Monday, times of
day are minutes, and every clock read is a parameter, one per call. Identifiers are a counter. Dictionaries are sequences
in insertion order, absent keys are `None`, and string constants that only select a branch are constructors. Theorems
about scores take reports whose confidence lies in [0, 1], as every head computes it (`ComputeConfidence`,
`ReadingsAreGood`). A summary handed to the Captain is arbitrary unless a theorem says that Floor 4 built it.

## Model

| member | source | states |
|---|---|---|
| `CaptainLockout.FiveIdleCyclesEndTrading` | junior_aladdin/floor_5_captain/captain_engine.py:555-655 | Decay lockout over any run: once five cycles have passed the gate without a trade, no later cycle trades until the session starts again, whatever the heads report (with confidences in [0, 1]) and whichever trade completes in between |
| `CaptainLockout.FourIdleCyclesStillTrade` | junior_aladdin/floor_5_captain/captain_engine.py:555-655 | Five is exact: after a run of four idle cycles some cycle still trades, with the class that is assigned to it |
| `CaptainLockout.OneIdleCycleEndsTrading` | junior_aladdin/floor_5_captain/market_story_engine.py:155-159 | With the summaries that Floor 4 builds (or the empty one) a single idle cycle ends trading for the session, in any run, because the market is never seen to trend |
| `CaptainLockout.TradeIsReachableIff` | junior_aladdin/floor_5_captain/captain_engine.py:582-605 | Some cycle that is assigned the given class can trade if and only if no trade is active, at most one cooldown cycle is left and the idle cycles are below the limit of the class: CONTINUATION 4, LIQUIDITY_RECLAIM 5, SCALP 1, any other class never |
| `CaptainLockout.BuiltTradeIsReachableIff` | junior_aladdin/floor_4_heads/floor_summary_builder.py:174-217 | With the summary built from its own reports some cycle can trade if and only if no trade is active, at most one cooldown cycle is left and no cycle has idled yet |
| `CaptainLockout.BuiltSummariesTradeAtOnce` | junior_aladdin/floor_5_captain/captain_engine.py:378-384 | A cycle with a built summary that trades is the first one of its decay counter |
| `CaptainLockout.TradeNeedsFreshness` | junior_aladdin/floor_5_captain/captain_engine.py:960-986 | A cycle that trades was below the idle limits of its regime and of its assigned class, and had at most one cooldown cycle left |
| `CaptainLockout.CycleClassIsAssigned` | junior_aladdin/floor_5_captain/captain_engine.py:488-494 | The class that a cycle decays with is the one the class engine gives to its own direction, regime, session, quality and raw band |
| `CaptainLockout.IdealCycleTrades` | junior_aladdin/floor_5_captain/captain_engine.py:582-605 | The witnesses of reachability, at the default capital and lot: one full-trust report (alone for a trend, at half confidence for a weak trend, with its built summary for a scalp) is assigned that class and trades from every state that is fresh enough |
| `CaptainLockout.IdleCyclesAdd` | junior_aladdin/floor_5_captain/captain_engine.py:650-655 | Over a run without trades the decay counter grows by exactly the number of cycles that passed the gate |
| `CaptainLockout.LockedOutForGood` | junior_aladdin/floor_5_captain/captain_engine.py:555-567 | From a counter of five on, no run without a session start contains a trade, and the counter stays at five or more |
| `CaptainLockout.LockedOutByOne` | junior_aladdin/floor_5_captain/captain_engine.py:555-567 | The same from a counter of one on when every cycle carries a built summary |
| `RealModeRuns.LockCountsRealLosses` | junior_aladdin/floor_5_captain/loss_lock_manager.py:56-131 | Without a session start, engine and gate share one lock and one guard; its count is the number of REAL-mode losses since the last reset, and it is locked if and only if that is at least three |
| `RealModeRuns.RealCyclesBlockAfterThreeLosses` | junior_aladdin/floor_5_captain/permission_gate.py:243-270 | Without a session start, a REAL cycle is stopped by `real_mode_lock` if and only if three REAL losses stand since the last reset (its own new-day reset included) and no override is granted; a stopped cycle opens no trade |
| `RealModeRuns.WithoutRealModeNeverLocks` | junior_aladdin/floor_5_captain/loss_lock_manager.py:133-139 | The count follows the mode of the lock: in a run that never sets the lock itself to REAL neither lock ever closes, and no cycle is stopped by it, whatever mode the cycles carry |
| `RealModeRuns.SessionStartFreezesRealLock` | junior_aladdin/floor_5_captain/captain_engine.py:1375-1377 | From a session start on the REAL check of every later cycle repeats the verdict of that moment, because the gate keeps the replaced lock and guard |
| `RealModeRuns.MorningStartOpensRealLockForGood` | junior_aladdin/system_runner.py:483-494 | A session start before the first loss, as the runner makes each morning, keeps `real_mode_lock` out of every later cycle of any run, whatever is lost |
| `RealModeRuns.AttachedUntilSessionStart` | junior_aladdin/floor_5_captain/captain_engine.py:248-255 | The gate reads the lock and the guard that the engine acts on exactly until the first session start |
| `RealModeRuns.GrantLastsIff` | junior_aladdin/floor_5_captain/override_guard.py:95-164 | Over any run without a session start a grant stands at every prefix if and only if the operator neither asks again, nor denies, nor clears; trades do not end it |
| `RealModeRuns.OverrideOutlivesTrades` | junior_aladdin/floor_5_captain/override_guard.py:95-164 | While the grant stands no REAL cycle is stopped by the lock, however many have traded |
| `RealModeRuns.TwoTradesOnOneGrant` | junior_aladdin/floor_5_captain/override_guard.py:95-130 | A concrete run in which two REAL cycles trade on one grant while the lock is closed |
| `CaptainRuns.TradeSetsActive` | junior_aladdin/floor_5_captain/captain_engine.py:650-655 | A cycle decides TRADE exactly when it turns the active trade from absent to present; no other event ever sets it |
| `CaptainRuns.TradesAreSeparated` | junior_aladdin/floor_5_captain/captain_engine.py:349-374 | Between two TRADEs of any run lies a completed trade or a session start |
| `CaptainRuns.TradesRespectTheGate` | junior_aladdin/floor_5_captain/captain_engine.py:341-374 | No TRADE outside 9:45 to 13:00 IST on weekdays, against the psychology head, on CRITICAL data, or without mode and capital |
| `CaptainRuns.CooldownSpacing` | junior_aladdin/floor_5_captain/captain_engine.py:582-589 | After a completion that set cooldown k, the first k-1 cycles past the gate cannot trade and the first k arm no plan |
| `CaptainRuns.CooldownCountsOpenCycles` | junior_aladdin/floor_5_captain/captain_engine.py:582-585 | Over a run, the cooldown falls by one for each cycle past the gate, stops at zero, and by nothing else |
| `CaptainRuns.RunnerNeverIntervenes` | junior_aladdin/system_runner.py:461-469 | Ticks as the runner sends them (price and candle index only) never raise an intervention, in any run, because no thesis review ever exists |
| `PlanRuns.PopulationBound` | junior_aladdin/floor_5_captain/captain_engine.py:531-553 | On every run whose gate-passing cycles carry growing positive candle indices per session, blocked cycles at any candle included: at most four candle-bound plans are WATCHING, their creation candles are distinct, and at the last cycle past the gate each was younger than its class window |
| `PlanRuns.PopulationHolds` | junior_aladdin/floor_5_captain/setup_expiry_manager.py:182-215 | The invariant behind the bound, kept by every event of every such run |
| `PlanRuns.BuiltPopulationBound` | junior_aladdin/floor_5_captain/market_story_engine.py:155-159 | With the summaries that Floor 4 builds only SCALP plans are armed, and at most two are WATCHING |
| `PlanRuns.BuiltCyclesScalp` | junior_aladdin/floor_5_captain/market_story_engine.py:128-193 | A cycle with a built summary computes the class SCALP or none |
| `PlanRuns.TwoScalpsCanBeAlive` | junior_aladdin/floor_5_captain/setup_expiry_manager.py:29-35 | The bound of two is met by two cycles that carry the summary of their own reports |
| `RunnerDays.RunnerDayKeepsBounds` | junior_aladdin/system_runner.py:233-286 | Over days of the runner, each a session start and then heavy cycles with the candle indices of its feed, the blocked candle 0 included, with anything in between: the indices meet the condition of both bounds, so four plans, or two with built summaries, are never exceeded |
| `RunnerDays.OpenCandles` | junior_aladdin/floor_5_captain/permission_gate.py:119-183 | With the minute of the runner, a cycle that passes the gate carries a candle index from 30 to 224, so no plan of the running system is created at candle 0 |
| `RunnerDays.DayGrows` | junior_aladdin/system_runner.py:106-113 | Strictly increasing candle indices of a day are enough for the indices past the gate to grow within the session |
| `RunnerDays.ClocksAgree` | junior_aladdin/system_runner.py:72-78 | The minute the session policy reads off UTC is the minute of the runner in market time |
| `PlanRuns.CandleZeroIsNeverPurged` | junior_aladdin/floor_5_captain/setup_expiry_manager.py:182-215 | A heavy cycle called directly with the default candle index 0 arms a plan that no later cycle purges, at any candle, while a tick past the window still ends it |
| `PlanRuns.FourPlansCanBeAlive` | junior_aladdin/floor_5_captain/setup_expiry_manager.py:29-35 | The bound of four is met by a run of four cycles |
| `PlanRuns.TickReports` | junior_aladdin/floor_5_captain/armed_plan_engine.py:416-499 | After any run, a tick names a WATCHING plan invalidated exactly half a percent beyond its zone, expired exactly if it is not and its window of 2, 4 or 3 candles or 30 minutes is over, triggered exactly if neither holds and the price has reached the zone; the state in the book says the same |
| `PlanRuns.ReportedOnce` | junior_aladdin/floor_5_captain/armed_plan_engine.py:416-523 | Over a whole run of any events a plan is named in one result at most, and after that it never WATCHES again |
| `PlanRuns.ReportsAreReturned` | junior_aladdin/floor_5_captain/captain_engine.py:1107-1190 | The notion of being reported is exactly membership in the lists that the heavy and the light cycle return |
| `PlanRuns.TickListsAreDisjoint` | junior_aladdin/floor_5_captain/armed_plan_engine.py:451-490 | A tick puts a plan into one of its three lists at most |
| `PlanRuns.ArmedPlansAreYoung` | junior_aladdin/floor_5_captain/captain_engine.py:531-553 | A plan is never purged in the cycle that arms it |
| `PlanRuns.RetiredForGood` | junior_aladdin/floor_5_captain/armed_plan_engine.py:416-430 | A plan that is no longer WATCHING stays so through any run |
| `PlanRuns.PriceCorridor` | junior_aladdin/floor_5_captain/captain_engine.py:921-930 | After every tick of every run, a plan still WATCHING with a positive zone L has 0.995 L <= p < L for BUY and L < p <= 1.005 L for SELL |
| `PlanRuns.BookStep` | junior_aladdin/floor_5_captain/captain_engine.py:531-553 | The only ways an event can change the plan book: arm and purge, watch, or clear |
| `CaptainEngine.CaptainEngine.constructor` | junior_aladdin/floor_5_captain/captain_engine.py:231-294 | A new engine is in the initial state, its gate holding the very lock and guard of the engine |
| `CaptainEngine.CaptainEngine.HeavyCycle` | junior_aladdin/floor_5_captain/captain_engine.py:300-374 | The candle-close cycle: candle index and daily reset first, then the gate; a blocked cycle changes nothing else, any other takes the full step; the outcome names the failed checks or the decision |
| `CaptainEngine.CaptainEngine.DecideCycle` | junior_aladdin/floor_5_captain/captain_engine.py:376-655 | Steps 3 to 23 take exactly the specified step and return its decision, scores, armed plan and purged plans; regime, class and constructability are computed on the way, and step 20 is shown to be unreachable |
| `CaptainEngine.CaptainEngine.ScoreCycle` | junior_aladdin/floor_5_captain/captain_engine.py:378-567 | Regime, opposite case and raw scores first, the class from them, then adjustments and decay by that class: the scores are those of the whole pipeline for the class the cycle assigns |
| `CaptainEngine.RawScoresIgnoreClass` | junior_aladdin/floor_5_captain/captain_engine.py:452-494 | The raw scores depend on neither class nor idle cycles, so the class can be computed from them |
| `CaptainEngine.CaptainEngine.ArmAndPurge` | junior_aladdin/floor_5_captain/captain_engine.py:531-553 | A plan is armed only with direction, class and no cooldown, before the purge; the purge names exactly the plans past their window |
| `CaptainEngine.CaptainEngine.CloseCycle` | junior_aladdin/floor_5_captain/captain_engine.py:582-655 | The cooldown ticks down before the trade test; only a viable, directed trade that the constructor can build opens; the decay counter is cleared by a trade and grows otherwise; a trade without class is a SCALP |
| `CycleLaws.TradeIff` | junior_aladdin/floor_5_captain/captain_engine.py:582-655 | A cycle trades in a direction if and only if the gate is open, at most one cooldown cycle is left, the reports take that side, the final conviction is at least 60 and above the doubt, and the trade can be built |
| `CycleLaws.OpenIff` | junior_aladdin/floor_5_captain/captain_engine.py:340-374 | The gate is open exactly in the weekday minutes 255 to 449 of UTC, with a psychology report that allows trading or none, no active trade, data that is not CRITICAL, a mode, capital, and for a REAL cycle an open lock or a grant |
| `CycleLaws.GateNames` | junior_aladdin/floor_5_captain/permission_gate.py:119-183 | Each of the eight checks fails, by name, exactly under its own condition |
| `CycleLaws.RawConvictionOfCycle` | junior_aladdin/floor_5_captain/conviction_engine.py:230-297 | The raw conviction of a cycle past the gate in numbers: 60 points for full agreement, 25, 15 or 7.5 for the regime, one and a half for or against the hour, less what the psychology report costs |
| `CycleLaws.RawDoubtOfCycle` | junior_aladdin/floor_5_captain/conviction_engine.py:303-361 | The doubt of a cycle in numbers: 20 for a conflict, up to 25 for agreement under 0.4, the regime and the psychology report |
| `CycleLaws.FinalScoresOfCycle` | junior_aladdin/floor_5_captain/captain_engine.py:496-567 | Stale core heads, missing setups and the idle cycles of the class in numbers, and a tradable band exactly from 60 on |
| `CycleLaws.BuiltPresence` | junior_aladdin/floor_4_heads/floor_summary_builder.py:72-168 | With a built summary a cycle sees setups or none, so the penalties for stale or uncertain silence are never reached |
| `CycleLaws.PresenceByCounts` | junior_aladdin/floor_5_captain/captain_engine.py:827-871 | What a summary without that field is read as |
| `CycleLaws.CoreStaleIff` | junior_aladdin/floor_5_captain/captain_engine.py:803-825 | A core head is stale exactly if the SMC or the ICT report is |
| `CycleLaws.CooldownsByClass` | junior_aladdin/floor_5_captain/captain_engine.py:1392-1420 | The cooldown each class leaves behind |
| `CycleLaws.HeavyOutcomeSays` | junior_aladdin/floor_5_captain/captain_engine.py:340-680 | The outcome of a heavy cycle names the failed checks, or the trade, the scores, the new plan and the purged ones |
| `CycleLaws.HeavyLeaves` | junior_aladdin/floor_5_captain/captain_engine.py:582-655 | What a heavy cycle leaves behind: the trade with its side and class, both counters, and after a blocked cycle nothing but the lock |
| `CycleLaws.ArmsIff` | junior_aladdin/floor_5_captain/captain_engine.py:531-544 | A plan is armed exactly with a direction, a class and no cooldown, at the zone of the input or its price |
| `CycleLaws.LightLeaves` | junior_aladdin/floor_5_captain/captain_engine.py:1107-1190 | A tick asks for an intervention exactly with an active trade, remembers the answer and changes no counter |
| `CycleLaws.SessionResets` | junior_aladdin/floor_5_captain/captain_engine.py:1352-1390 | A session start carries over nothing but plan identifiers and what the gate holds |
| `CycleLaws.StartsEmpty` | junior_aladdin/floor_5_captain/captain_engine.py:231-294 | The initial state in full |
| `CycleLaws.OverrideCalls` | junior_aladdin/floor_5_captain/override_guard.py:70-164 | What each operator call does to the override |
| `CycleLaws.LossCalls` | junior_aladdin/floor_5_captain/loss_lock_manager.py:56-131 | A recorded loss and a new day in numbers |
| `CaptainEngine.DirectionTexts` | junior_aladdin/floor_5_captain/captain_engine.py:443-450 | The opposite-case engine knows BULLISH and BEARISH, the cycle says BUY and SELL |
| `CaptainEngine.CaptainEngine.BuildArmedPlan` | junior_aladdin/floor_5_captain/captain_engine.py:904-955 | The armed plan has its trigger at the zone (or price), its invalidation half a percent behind it, and its expiry by class |
| `CaptainEngine.CaptainEngine.LightCycle` | junior_aladdin/floor_5_captain/captain_engine.py:1107-1190 | A tick watches the plans and, only with an active trade, evaluates an intervention; nothing else of the state changes |
| `CaptainEngine.CaptainEngine.OnTradeComplete` | junior_aladdin/floor_5_captain/captain_engine.py:1392-1420 | The active trade is cleared and the cooldown set by class; the decay counter stays |
| `CaptainEngine.CaptainEngine.RecordLoss` | junior_aladdin/floor_5_captain/captain_engine.py:1422-1440 | A loss reaches the engine lock, and the gate too while they are the same object |
| `CaptainEngine.CaptainEngine.StartSession` | junior_aladdin/floor_5_captain/captain_engine.py:1352-1390 | Counters, plans, reviews and interventions are cleared and a fresh lock and guard made, while the gate keeps the old ones |
| `CaptainEngine.StepKeepsValid` | junior_aladdin/floor_5_captain/captain_engine.py:231-294 | Every event keeps the whole state consistent: lock, detached gate lock, plan identifiers, and the absence of reviews |
| `CaptainEngine.OppositeCaseIsAlwaysAbsent` | junior_aladdin/floor_5_captain/captain_engine.py:443-450 | The cycle asks the opposite-case engine for BUY or SELL, which it does not know, so it scores against an absent case whatever the reports say |
| `CaptainEngine.NoActiveTradePastGate` | junior_aladdin/floor_5_captain/captain_engine.py:349-374 | A cycle that passes the gate has no active trade, so the thesis review of step 20 never runs |
| `FloorSummaries.Build` | junior_aladdin/floor_4_heads/floor_summary_builder.py:72-168 | The summary of a report dictionary: health, presence of setups, counts, and a bias snapshot whose only text key is `dominant_floor_bias` |
| `FloorSummaries.BuildBiasSnapshot` | junior_aladdin/floor_4_heads/floor_summary_builder.py:174-217 | The loop over the six heads gives the majority direction, ties neutral |
| `FloorSummaries.ComputeAbsence` | junior_aladdin/floor_4_heads/floor_summary_builder.py:471-502 | The loop over the setup heads remembers the worst state: stale before uncertain before ready |
| `RegimeDetection.BuiltRegimeCases` | junior_aladdin/floor_5_captain/market_story_engine.py:128-193 | With the summary built from them, reports lead to UNCLEAR if more than half are stale, else to CHOP if one of SMC, ICT, Technical and Options is bullish and another bearish, and else to RANGE |
| `RegimeDetection.SummaryRegimeCases` | junior_aladdin/floor_5_captain/market_story_engine.py:128-193 | The regime of any summary, case by case: stale majority, conflict, direction and confidence |
| `RegimeDetection.ReportsRegimeCases` | junior_aladdin/floor_5_captain/market_story_engine.py:195-234 | The regime without a summary, case by case: no voice, a mean confidence under 0.4, the larger side, strong from 0.7 on |
| `CaptainLockout.BuiltConviction` | junior_aladdin/floor_5_captain/captain_engine.py:378-462 | With its own built summary a cycle scores seven and a half regime points, and none if most reports are stale or the setup heads take both sides |
| `CaptainLockout.SplitHeadsHardlyTrade` | junior_aladdin/floor_5_captain/captain_engine.py:960-986 | Without a clear market such a cycle trades only at an agreement of at least 0.974 |
| `FloorSummaries.HealthCases` | junior_aladdin/floor_4_heads/floor_summary_builder.py:422-447 | CRITICAL from half of the reports stale on, DEGRADED from three tenths on, CAUTION for any stale or two uncertain ones |
| `FloorSummaries.BuiltFields` | junior_aladdin/floor_4_heads/floor_summary_builder.py:72-168 | The fields the Captain reads off a built summary: setups, absence, mean confidence, conflict, counts and health |
| `FloorSummaries.AbsenceCases` | junior_aladdin/floor_4_heads/floor_summary_builder.py:471-502 | The reason for missing setups is the worst state among the setup heads |
| `FloorSummaries.FloorBiasCases` | junior_aladdin/floor_4_heads/floor_summary_builder.py:174-217 | The dashboard direction needs a strict majority over each of the other two |
| `FloorSummaries.EmptySummaryIsSilent` | junior_aladdin/floor_4_heads/floor_summary_builder.py:72-168 | An empty summary holds nothing against a cycle |
| `RegimeDetection.BuiltSummariesNeverTrend` | junior_aladdin/floor_5_captain/market_story_engine.py:155-159 | The story reads the key `dominant_bias`, which neither a built summary nor the empty one has, so with any of them the regime is RANGE, CHOP or UNCLEAR |
| `RegimeDetection.SummaryTrendsIff` | junior_aladdin/floor_5_captain/market_story_engine.py:128-193 | With a summary the regime is directed if and only if the summary has that key with a direction, confidence of at least 0.4 and no majority of stale heads |
| `TradeClasses.ScoreClasses` | junior_aladdin/floor_5_captain/trade_class_engine.py:425-436 | The loop scores exactly the classes whose minimum band is reached, in table order |
| `TradeClasses.AssignTradeClass` | junior_aladdin/floor_5_captain/trade_class_engine.py:390-467 | The suggestion of the idea survives unless the best class is better by more than a fifth |
| `TradeClasses.ScoredAre` | junior_aladdin/floor_5_captain/trade_class_engine.py:425-436 | The scored rows are exactly the eligible rows, weighted by session and quality |
| `TradeClasses.ClearWinnerIsChosen` | junior_aladdin/floor_5_captain/trade_class_engine.py:438-467 | A row that beats all eligible ones by a fifth is assigned whatever was suggested |
| `TradeClasses.ClassOfTradableBand` | junior_aladdin/floor_5_captain/trade_class_engine.py:153-212 | From a tradable band on the class depends on the regime alone: CONTINUATION in a trend, LIQUIDITY_RECLAIM in a weak trend, SCALP in a sideways market |
| `TradeClasses.ClassOfWeakBand` | junior_aladdin/floor_5_captain/trade_class_engine.py:93-148 | Below a tradable band only a SCALP is eligible, and it is assigned in every regime |
| `TradeClasses.SidewaysIsNeverStrong` | junior_aladdin/floor_5_captain/conviction_engine.py:256-297 | A sideways market never reaches a STRONG band |
| `TradeClasses.RegimeLocksOut` | junior_aladdin/floor_5_captain/confidence_decay_engine.py:142-207 | With the class that the engine assigns, a cycle passes the trade test only below the idle limit of its regime (trend 4, weak trend 5, sideways 1) and of its class |
| `TradeClasses.BelowLimitTrades` | junior_aladdin/floor_5_captain/confidence_decay_engine.py:142-164 | Below that limit every regime passes the trade test with the class it is assigned, so the limits are exact |
| `TradeClasses.ClassOfRejectBand` | junior_aladdin/floor_5_captain/trade_class_engine.py:425-441 | A rejected band, or a cycle without a direction, gets no class |
| `TradeConstruction.WholeOutsideStrikeIff` | junior_aladdin/floor_5_captain/trade_constructor.py:296-352 | At a whole ATM strike the strike outside the money is chosen if and only if the band is not tradable and the capital covers 95 but not 100 a unit, whatever the direction and the lot |
| `TradeConstruction.OutsideStrikeIff` | junior_aladdin/floor_5_captain/trade_constructor.py:296-352 | The same for any ATM strike: the outside premium fits, the ATM premium does not, and with a tradable band neither does the one inside the money |
| `TradeConstruction.FractionalStrikeGoesOutside` | junior_aladdin/floor_5_captain/trade_constructor.py:331-346 | At an ATM strike of 100.5 a merely TRADABLE sale is placed outside the money, because truncated strikes make it cheaper |
| `CaptainLockout.CyclesStayInTheMoney` | junior_aladdin/floor_5_captain/captain_engine.py:591-605 | At a whole ATM strike, as the runner always gives, no cycle that reaches the constructor ever chooses the strike outside the money, so the branch for STRONG conviction never decides |
| `TradeClasses.SuggestionCases` | junior_aladdin/floor_5_captain/trade_idea_generator.py:220-262 | What the idea suggests in each session and regime |
| `TradeClasses.ChosenCases` | junior_aladdin/floor_5_captain/trade_class_engine.py:438-467 | A suggestion stands as long as six fifths of its score reach the best one |
| `TradeClasses.SessionWeights` | junior_aladdin/floor_5_captain/trade_class_engine.py:206-212 | The weight of each session |
| `TradeConstruction.PremiumByDistance` | junior_aladdin/floor_5_captain/trade_constructor.py:596-628 | A unit costs 100 at the money, a tenth less for each point away, and never under 10 |
| `TradeConstruction.FreeLots` | junior_aladdin/floor_5_captain/trade_constructor.py:136-262 | Without a positive lot any capital will do |
| `TradeConstruction.ZeroStrike` | junior_aladdin/floor_5_captain/trade_constructor.py:198-216 | A strike of zero counts as none |
| `TradeConstruction.ConstructableIff` | junior_aladdin/floor_5_captain/trade_constructor.py:296-392 | At a whole ATM strike and a positive lot a trade can be built if and only if the capital covers 95 a unit, whatever the band and the direction |
| `ArmedPlans.ArmedPlanEngine.constructor` | junior_aladdin/floor_5_captain/armed_plan_engine.py:239-246 | A new engine has no plans |
| `ArmedPlans.ArmedPlanEngine.CreatePlan` | junior_aladdin/floor_5_captain/armed_plan_engine.py:252-307 | A plan is filed WATCHING under a fresh identifier; a candle expiry is stamped with the creation candle if that is positive |
| `ArmedPlans.ArmedPlanEngine.TransitionPlan` | junior_aladdin/floor_5_captain/armed_plan_engine.py:505-523 | The shared transition of ticks and purges: the named plan, and no other, takes the target state whatever state it was in; unknown identifiers change nothing |
| `ArmedPlans.ArmedPlanEngine.WatchPlan` | junior_aladdin/floor_5_captain/armed_plan_engine.py:431-490 | One WATCHING plan is aged and moved by the first of invalidation, expiry and trigger that holds; no other plan changes |
| `ArmedPlans.ArmedPlanEngine.WatchPlans` | junior_aladdin/floor_5_captain/armed_plan_engine.py:416-499 | One tick treats every WATCHING plan so and returns the lists of moved plans and the active count |
| `ArmedPlans.ArmedPlanEngine.PurgeExpired` | junior_aladdin/floor_5_captain/setup_expiry_manager.py:101-122 | The WATCHING plans past their class window, and no others, become EXPIRED and are returned |
| `ArmedPlans.ArmedPlanEngine.ActivePlans` | junior_aladdin/floor_5_captain/armed_plan_engine.py:374-383 | The WATCHING plans in order |
| `ArmedPlans.ArmedPlanEngine.ClearSession` | junior_aladdin/floor_5_captain/armed_plan_engine.py:566-569 | The plans go, but identifiers are never reused |
| `ArmedPlans.WatchAll` | junior_aladdin/floor_5_captain/armed_plan_engine.py:431-499 | A tick treats each plan on its own and keeps their order |
| `ArmedPlans.PurgeAll` | junior_aladdin/floor_5_captain/setup_expiry_manager.py:101-122 | A purge treats each plan on its own and keeps their order |
| `ArmedPlans.WatchConserves` | junior_aladdin/floor_5_captain/armed_plan_engine.py:416-499 | Plans active before a tick = triggered + expired + invalidated + active after it |
| `ArmedPlans.MovedToIsExact` | junior_aladdin/floor_5_captain/armed_plan_engine.py:451-490 | A plan is in a result list if and only if it was WATCHING and this tick moved it to that state |
| `ArmedPlans.PurgedIdsAreExact` | junior_aladdin/floor_5_captain/setup_expiry_manager.py:101-122 | A plan is purged if and only if it was WATCHING and past its class window |
| `ArmedPlans.ActiveKeepsOrder` | junior_aladdin/floor_5_captain/armed_plan_engine.py:374-383 | The active list holds exactly the WATCHING plans |
| `ArmedPlans.TriggerExcludesInvalidation` | junior_aladdin/floor_5_captain/armed_plan_engine.py:525-549 | For a plan built by the Captain, trigger and invalidation exclude each other at every price if and only if its zone is not negative, so their order is irrelevant for real prices |
| `ArmedPlans.SurvivorsAreInCorridor` | junior_aladdin/floor_5_captain/armed_plan_engine.py:106-157 | A plan built by the Captain that survives a tick pins the price between invalidation and trigger |
| `ArmedPlans.ExpiryMechanismsAgree` | junior_aladdin/floor_5_captain/armed_plan_engine.py:184-190 | When tick-level expiry and the class test of the heavy cycle give the same verdict, for every tick: with a positive candle, which rewrites `elapsed`, if and only if the plan was not created at candle 0 or its window is still open, even if the candle index goes backwards; without one, if and only if the old field agrees, which past the window takes a plan from before candle 0 |
| `ArmedPlans.TickOutcome` | junior_aladdin/floor_5_captain/armed_plan_engine.py:431-490 | The new state of a Captain plan by price, candle and clock alone |
| `ArmedPlans.NewPlan` | junior_aladdin/floor_5_captain/captain_engine.py:904-955 | A new plan of the Captain in numbers: at its zone, half a percent behind it, for 2, 4 or 3 candles or 30 minutes |
| `ArmedPlans.PurgeOutcome` | junior_aladdin/floor_5_captain/setup_expiry_manager.py:182-215 | The purge ends a WATCHING plan of a candle-bound class whose stamp is 2, 4 or 3 candles old, and changes no other |
| `ArmedPlans.AgedByCandles` | junior_aladdin/floor_5_captain/armed_plan_engine.py:441-449 | A tick writes the candles since creation into a stamped plan and leaves others alone |
| `ArmedPlans.OtherTriggers` | junior_aladdin/floor_5_captain/armed_plan_engine.py:106-157 | The trigger kinds of direct callers by price; a reclaim is met by the level alone |
| `ArmedPlans.OtherExpiries` | junior_aladdin/floor_5_captain/armed_plan_engine.py:159-232 | The expiry kinds of direct callers by price |
| `ArmedPlans.WatchKeepsBuild` | junior_aladdin/floor_5_captain/armed_plan_engine.py:441-449 | Watching and purging change neither trigger, invalidation, window nor creation candle |
| `Conviction.ComputeConvictionScore` | junior_aladdin/floor_5_captain/conviction_engine.py:230-297 | The accumulated score equals its closed form: weighted confluence, opposite case, regime, psychology and session, clamped to [0, 100] |
| `Conviction.ComputeNoTradeScore` | junior_aladdin/floor_5_captain/conviction_engine.py:303-361 | The no-trade score equals its closed form over opposite case, conflict, psychology and regime, clamped |
| `Conviction.AddPsychologyDoubt` | junior_aladdin/floor_5_captain/conviction_engine.py:339-348 | The psychology share of the no-trade score |
| `Conviction.ApplyAdjustments` | junior_aladdin/floor_5_captain/captain_engine.py:496-522 | Stale core heads and missing setups change both scores in place, in order, and the band is recomputed |
| `Conviction.ComputeRawScores` | junior_aladdin/floor_5_captain/conviction_engine.py:99-161 | The raw scores of step 13, which the class is chosen by |
| `Conviction.AdjustAndDecay` | junior_aladdin/floor_5_captain/captain_engine.py:496-567 | Adjustments and decay in the order of the heavy cycle, decay only after an idle cycle |
| `Conviction.DecayLocksOut` | junior_aladdin/floor_5_captain/confidence_decay_engine.py:159-191 | ELITE is unreachable, and a class at or past its decay threshold (SCALP 2, REVERSAL 3, CONTINUATION or none 4, others 7) cannot pass the trade test, even where another class would be assigned |
| `BrokenOrders.HeavyCyclesKeepOrder` | junior_aladdin/floor_5_captain/captain_engine.py:436-567 | Two heavy cycles without stale core heads, the second no worse in quality, opposite case, restraint and idle cycles: its final conviction is no lower unless the class it computes for itself overtakes the other in decay, and its final band is never lower if both have a direction, or neither |
| `BrokenOrders.ClassBreaksMonotonicity` | junior_aladdin/floor_5_captain/captain_engine.py:488-494 | Two heavy cycles after one idle cycle, the second with more confluence and everything else equal: the first has no class and ends at 35.9, the second is a SCALP and ends at 28.0 |
| `BrokenOrders.IdlingOnlyLowers` | junior_aladdin/floor_5_captain/captain_engine.py:555-567 | For one and the same cycle further idle cycles only lower final conviction and band, stale core heads included |
| `ScoreOrder.AssignedOrderIff` | junior_aladdin/floor_5_captain/confidence_decay_engine.py:142-207 | Over all pairs of ordered inputs with computed classes, the order of final convictions is certain for exactly these idle counts m and n of the worse and the better: not m < 3n and m < 9 when the better has a direction, and not m < 2n and m < 18 when only the worse has one |
| `ScoreOrder.AssignedOrder` | junior_aladdin/floor_5_captain/confidence_decay_engine.py:142-207 | The order of scores and bands for one such pair, with the class pairs that break it: no class against SCALP, and LIQUIDITY_RECLAIM against no class |
| `ScoreOrder.ClassByBand` | junior_aladdin/floor_5_captain/trade_class_engine.py:390-467 | Direction, raw band and regime fix the class: none without a direction or below WEAK, SCALP at WEAK, the class of the regime from TRADABLE on |
| `Conviction.PipelineKeepsOrder` | junior_aladdin/floor_5_captain/captain_engine.py:496-567 | Adjustments and decay keep the order of raw scores whenever the decay factors are in order |
| `Conviction.StalePipelineOrderIff` | junior_aladdin/floor_5_captain/captain_engine.py:496-509 | With a stale core head in both, the adjusted scores of two ordered inputs keep their order if and only if the worse raw score was tradable, or the better one was not, or ten points lie between them |
| `Conviction.StaleOrderIff` | junior_aladdin/floor_5_captain/captain_engine.py:500-522 | The same for any two scores and any presence of setups |
| `BrokenOrders.StaleHeadsBreakMonotonicity` | junior_aladdin/floor_5_captain/captain_engine.py:500-509 | Two real heavy cycles, the second with more confluence and everything else equal, end at 54.9 and 45.0 |
| `BrokenOrders.ContestedScoreInput` | junior_aladdin/floor_5_captain/captain_engine.py:432-494 | The reports of the example cycles lead through confluence, regime, raw band and class to exactly their score inputs |
| `Conviction.BandCases` | junior_aladdin/floor_5_captain/captain_types.py:354-371 | The bands by their thresholds 40, 60, 75 and 90 |
| `Conviction.OppositeInPoints` | junior_aladdin/floor_5_captain/conviction_engine.py:256-262 | What an opposite case takes off the conviction and adds to the doubt |
| `Conviction.RawConvictionCeiling` | junior_aladdin/floor_5_captain/conviction_engine.py:256-297 | Raw conviction lies in [0, 86.5] for every input with quality at most 1 |
| `Conviction.StaleCoreNeedsSeventyFive` | junior_aladdin/floor_5_captain/captain_engine.py:500-522 | With a stale SMC or ICT head a tradable band needs a pre-penalty score of 75, and without setup penalty or decay it is reached exactly from there |
| `Conviction.BandMonotone` | junior_aladdin/floor_5_captain/captain_types.py:354-371 | A higher score never has a lower band |
| `Conviction.RawIsMonotone` | junior_aladdin/floor_5_captain/conviction_engine.py:230-297 | The raw score alone is monotone in the same order |
| `Conviction.DecayIsMonotone` | junior_aladdin/floor_5_captain/confidence_decay_engine.py:166-207 | Decay keeps the order of scores and bands when the factor falls |
| `Confluence.ComputeConfluence` | junior_aladdin/floor_5_captain/confluence_engine.py:95-205 | The loop and the comparisons compute the specified result: dominant direction by weight then name, quality as its share, aligned and opposing heads in order, conflict |
| `Confluence.DirectionalReports` | junior_aladdin/floor_5_captain/confluence_engine.py:318-334 | All reports but the psychology head, in dictionary order |
| `Confluence.SumVotes` | junior_aladdin/floor_5_captain/confluence_engine.py:125-157 | The running totals are the tallies of the three directions |
| `Confluence.Directional` | junior_aladdin/floor_5_captain/confluence_engine.py:318-334 | Exactly the reports of the other heads remain |
| `Confluence.FullVotes` | junior_aladdin/floor_5_captain/confluence_engine.py:36-43 | At full trust a head votes with its confidence times 1.0, 0.9, 0.7, 0.6, 0.4, or 0.5 for a name it does not know |
| `Confluence.StateScalesVote` | junior_aladdin/floor_5_captain/confluence_engine.py:45-50 | An uncertain report has 0.6 of the ready vote, a stale one 0.3 |
| `Confluence.TagScalesVote` | junior_aladdin/floor_5_captain/confluence_engine.py:52-57 | A warm tag leaves 0.75 of the fresh vote, a stale one 0.4 |
| `Confluence.ContextScalesVote` | junior_aladdin/floor_5_captain/confluence_engine.py:241-260 | For SMC and ICT a context quality from 0.5 on, or none, leaves 0.8 of the full vote, a lower one 0.5; for other heads it changes nothing |
| `Confluence.BetterReportsVoteMore` | junior_aladdin/floor_5_captain/confluence_engine.py:207-239 | A readier, fresher and no less confident report in better context never votes for less |
| `Confluence.DominantCases` | junior_aladdin/floor_5_captain/confluence_engine.py:161-175 | The direction with the most weight; on a tie neutral before bullish before bearish |
| `Confluence.AlignedAndOpposing` | junior_aladdin/floor_5_captain/confluence_engine.py:176-205 | Exactly the heads that stand with the dominant direction, and those that take a side against it, psychology never |
| `Confluence.NamesInOrder` | junior_aladdin/floor_5_captain/confluence_engine.py:176-205 | Both lists keep the order of the dictionary |
| `Confluence.ConflictIff` | junior_aladdin/floor_5_captain/confluence_engine.py:262-311 | A conflict is a bullish and a bearish head with agreement under 0.6, or under 0.7 when SMC and ICT both take a side against the dominant direction |
| `Confluence.NoWeightNoQuality` | junior_aladdin/floor_5_captain/confluence_engine.py:161-175 | Without any weight the quality is zero, and without directional heads the result is neutral and empty |
| `Confluence.TrustWeightBounds` | junior_aladdin/floor_5_captain/confluence_engine.py:207-240 | A trust weight is positive and at most the priority of the head |
| `Confluence.VoteBounds` | junior_aladdin/floor_5_captain/confluence_engine.py:125-150 | A vote lies between 0 and the priority, and is positive exactly with positive confidence |
| `Confluence.QualityIsAShare` | junior_aladdin/floor_5_captain/confluence_engine.py:161-186 | With any weight, quality lies in [1/3, 1] and is 1 if and only if one direction carries all of it |
| `Confluence.ReportedQualityBounds` | junior_aladdin/floor_5_captain/confluence_engine.py:161-205 | The rounded quality is in [0, 1] for every dictionary of reports |
| `Confluence.CoreHeadsDecide` | junior_aladdin/floor_5_captain/confluence_engine.py:36-43 | Once SMC and ICT agree with a joint vote above 1.7, no combination of the other three named heads, present or not, changes the direction |
| `Confluence.FullTrustCoreHeadsDecide` | junior_aladdin/floor_5_captain/confluence_engine.py:36-57 | At full trust and confidence 1 two agreeing core heads always set the direction |
| `Confluence.CoreThresholdIsTight` | junior_aladdin/floor_5_captain/confluence_engine.py:36-43 | At a joint vote of exactly 1.7 the three support heads can turn the direction |
| `Confluence.SupportBudget` | junior_aladdin/floor_5_captain/confluence_engine.py:36-43 | Technical, options and macro heads bring at most 0.7 + 0.6 + 0.4 to one direction |
| `Confluence.OrderIndependence` | junior_aladdin/floor_5_captain/confluence_engine.py:95-205 | Direction, quality and conflict are the same for every order of the report dictionary |
| `Confluence.ConflictNeedsBothSides` | junior_aladdin/floor_5_captain/confluence_engine.py:262-311 | A conflict implies a bullish and a bearish directional head, and an agreement below 0.7 |
| `TradeSupervision.ActiveTradeSupervisor.ReviewThesis` | junior_aladdin/floor_5_captain/active_trade_supervisor.py:115-220 | The review collects exactly the concerns of its five checks in order, remembers the trade it was given, and is appended to the reviews |
| `TradeSupervision.ActiveTradeSupervisor.ShouldIntervene` | junior_aladdin/floor_5_captain/active_trade_supervisor.py:440-452 | Yes means that the intervention engine intervenes with at least CAUTION on every input; no means that it never gives a broken thesis as its trigger |
| `TradeSupervision.ActiveTradeSupervisor.ClearActiveTrade` | junior_aladdin/floor_5_captain/active_trade_supervisor.py:476-478 | Forgets the trade and keeps the reviews |
| `TradeSupervision.ActiveTradeSupervisor.ClearSession` | junior_aladdin/floor_5_captain/active_trade_supervisor.py:480-483 | Forgets both |
| `TradeSupervision.ActiveTradeSupervisor.constructor` | junior_aladdin/floor_5_captain/active_trade_supervisor.py:106-109 | Starts without trade and reviews |
| `TradeSupervision.ReviewsAreWellFormed` | junior_aladdin/floor_5_captain/active_trade_supervisor.py:143-203 | Flags, concerns and recommendation of every review are in step; a macro shift always brings a second concern |
| `TradeSupervision.ReviewFlags` | junior_aladdin/floor_5_captain/active_trade_supervisor.py:226-335 | The flags of a review from its price, story and class: a leeway of 3, 8 or 5 thousandths of the zone, a hostile regime, a bias against the trade |
| `TradeSupervision.OppositeStrongerIff` | junior_aladdin/floor_5_captain/active_trade_supervisor.py:337-382 | The opposite case is stronger exactly if the confluence has a direction and has turned against the original one or fallen under 0.3 |
| `TradeSupervision.ReviewWithoutTrade` | junior_aladdin/floor_5_captain/active_trade_supervisor.py:115-220 | Without a trade only the confluence can raise a concern |
| `TradeSupervision.RecommendationCases` | junior_aladdin/floor_5_captain/active_trade_supervisor.py:384-417 | Two of zone, opposite case and regime demand an intervention, one of the first two alone prepares the exit |
| `TradeSupervision.InterventionEngine.constructor` | junior_aladdin/floor_5_captain/intervention_engine.py:143-146 | Starts with an empty history |
| `TradeSupervision.InterventionEngine.EvaluateIntervention` | junior_aladdin/floor_5_captain/intervention_engine.py:152-284 | The decision takes its trigger from the first scenario and its severity from the worst, is appended to the history, and is counted only if it intervenes |
| `TradeSupervision.InterventionEngine.ClearSession` | junior_aladdin/floor_5_captain/intervention_engine.py:595-598 | History and count are cleared together |
| `TradeSupervision.TriggerCases` | junior_aladdin/floor_5_captain/intervention_engine.py:186-245 | The trigger is the first of the five scenarios that holds, and without any there is no intervention |
| `TradeSupervision.SeverityCases` | junior_aladdin/floor_5_captain/intervention_engine.py:225-245 | Every intervention is a CAUTION or an EMERGENCY_OVERRIDE, the latter exactly under the stated conditions; NORMAL never arises |
| `TradeSupervision.ActionCases` | junior_aladdin/floor_5_captain/intervention_engine.py:477-493 | The action of each trigger and severity; the five actions for NORMAL and LOCK_IN_PROFITS are never taken |
| `TradeSupervision.HighestIsMaximum` | junior_aladdin/floor_5_captain/intervention_engine.py:225-245 | The overall severity is attained by a finding and bounds them all |
| `TradeSupervision.DemandedInterventionHappens` | junior_aladdin/floor_5_captain/intervention_engine.py:186-245 | For every review input: a review that recommends INTERVENTION_REQUIRED makes the engine intervene with at least CAUTION, whatever its other arguments |
| `TradeSupervision.ThesisBreakMeansRequired` | junior_aladdin/floor_5_captain/intervention_engine.py:287-330 | A `thesis_break` trigger comes if and only if the review requires intervention and its concerns are not just zone and opposite case |
| `TradeSupervision.WithoutReviews` | junior_aladdin/floor_5_captain/intervention_engine.py:332-475 | Without any review only regime, options or emergency arguments can raise an intervention, exactly as stated |
| `LossLock.LossLockManager.constructor` | junior_aladdin/floor_5_captain/loss_lock_manager.py:38-50 | A fresh lock with the default limit of three |
| `LossLock.LossLockManager.RecordLoss` | junior_aladdin/floor_5_captain/loss_lock_manager.py:56-89 | Only REAL losses count and are numbered; from the limit on each of them locks and returns true, also when already locked |
| `LossLock.LossLockManager.ResetCounter` | junior_aladdin/floor_5_captain/loss_lock_manager.py:118-131 | Count, lock, date and history are cleared together |
| `LossLock.LossLockManager.SetMode` | junior_aladdin/floor_5_captain/loss_lock_manager.py:133-139 | Only the mode changes |
| `LossLock.LossLockManager.CheckAndResetIfNewDay` | junior_aladdin/floor_5_captain/loss_lock_manager.py:174-194 | Resets exactly on a later day than the last reset |
| `LossLock.LossLockManager.RemainingBeforeLock` | junior_aladdin/floor_5_captain/loss_lock_manager.py:107-116 | Zero exactly when locked (for a positive limit), else the distance to the limit |
| `LossLock.LockStaysConsistent` | junior_aladdin/floor_5_captain/loss_lock_manager.py:56-131 | Every operation keeps: count = numbered history, and locked if and only if the count reached the limit |
| `LossLock.FreshLockIsConsistent` | junior_aladdin/floor_5_captain/loss_lock_manager.py:38-50 | The invariant holds at the start |
| `OverrideGuard.OverrideRecord.constructor` | junior_aladdin/floor_5_captain/override_guard.py:23-37 | A record holds its verdict and reason |
| `OverrideGuard.OverrideGuard.constructor` | junior_aladdin/floor_5_captain/override_guard.py:59-64 | Nothing required, nothing granted |
| `OverrideGuard.OverrideGuard.RequireOverride` | junior_aladdin/floor_5_captain/override_guard.py:70-85 | A request withdraws an earlier grant and makes a fresh record that is not yet in the history |
| `OverrideGuard.OverrideGuard.GrantOverride` | junior_aladdin/floor_5_captain/override_guard.py:95-130 | Grants only a pending request, stamps that very record, files it once and releases it; otherwise nothing changes |
| `OverrideGuard.OverrideGuard.DenyOverride` | junior_aladdin/floor_5_captain/override_guard.py:132-146 | Both flags fall; a pending record is stamped and filed |
| `OverrideGuard.OverrideGuard.ClearOverride` | junior_aladdin/floor_5_captain/override_guard.py:156-164 | Both flags fall and the history stays |
| `OverrideGuard.OverrideGuard.LogOverride` | junior_aladdin/floor_5_captain/override_guard.py:166-191 | Files the pending record itself (not a copy), or a fresh standalone entry |
| `PermissionGate.PermissionGate.constructor` | junior_aladdin/floor_5_captain/permission_gate.py:69-88 | The gate keeps the objects it is given |
| `PermissionGate.PermissionGate.CheckAll` | junior_aladdin/floor_5_captain/permission_gate.py:90-183 | All eight checks run in order against the gate's own lock and guard; the primary reason is the first failure |
| `PermissionGate.BlockedByIsExact` | junior_aladdin/floor_5_captain/permission_gate.py:119-183 | The list names exactly the failing checks, and it is empty exactly when all eight pass |
| `SessionPolicy.PhaseCases` | junior_aladdin/floor_5_captain/session_policy.py:91-104 | The phases in minutes of IST |
| `SessionPolicy.MarketMinutes` | junior_aladdin/floor_5_captain/session_policy.py:171-191 | Market hours and strictness in minutes of UTC |
| `SessionPolicy.HourPoints` | junior_aladdin/floor_5_captain/session_policy.py:117-130 | What each phase adds to or takes off the conviction |
| `SessionPolicy.TradingWindow` | junior_aladdin/floor_5_captain/session_policy.py:171-191 | Market hours and session strictness together leave exactly 9:45 to 13:00 IST on a weekday |
| `HeadMemory.HeadMemoryStore.constructor` | junior_aladdin/floor_4_heads/head_memory_base.py:182-187 | An empty store |
| `HeadMemory.HeadMemoryStore.Remember` | junior_aladdin/floor_4_heads/head_memory_base.py:211-247 | Refuses a TTL that is not positive; otherwise evicts for a new key at capacity and inserts or overwrites in place |
| `HeadMemory.HeadMemoryStore.Recall` | junior_aladdin/floor_4_heads/head_memory_base.py:249-271 | The value of a live item, else nothing; an expired item is dropped only with auto-cleanup |
| `HeadMemory.HeadMemoryStore.Forget` | junior_aladdin/floor_4_heads/head_memory_base.py:273-285 | Removes the key if it is there and says so |
| `HeadMemory.HeadMemoryStore.ClearExpired` | junior_aladdin/floor_4_heads/head_memory_base.py:287-305 | Keeps exactly the unexpired items in order and counts the others |
| `HeadMemory.HeadMemoryStore.GetContext` | junior_aladdin/floor_4_heads/head_memory_base.py:307-329 | All stored items in order, expired ones first removed on request |
| `HeadMemory.HeadMemoryStore.Clear` | junior_aladdin/floor_4_heads/head_memory_base.py:335-337 | Empties the store |
| `HeadMemory.IndexOf` | junior_aladdin/floor_4_heads/head_memory_base.py:211-271 | Finds a key or proves it absent |
| `HeadMemory.Oldest` | junior_aladdin/floor_4_heads/head_memory_base.py:341-363 | The first oldest item, among expired ones if any are asked for |
| `HeadMemory.Victim` | junior_aladdin/floor_4_heads/head_memory_base.py:341-363 | A non-empty store always has a victim |
| `HeadMemory.StoreRefinesLiveMap` | junior_aladdin/floor_4_heads/head_memory_base.py:211-329 | Every call is a step of a live map that drops its oldest live entry only when a new key meets a full map |
| `HeadMemory.StepKeepsItemsValid` | junior_aladdin/floor_4_heads/head_memory_base.py:211-329 | Every call keeps the keys distinct and the size within capacity; a `max_items` of 0 or less acts as 1 |
| `HeadMemory.RunFollowsLiveMap` | junior_aladdin/floor_4_heads/head_memory_base.py:211-363 | After any run with a forward clock and distinct creation times, the unexpired part of the store is the live map, and the size never exceeds the capacity |
| `HeadMemory.CleanupIsInvisible` | junior_aladdin/floor_4_heads/head_memory_base.py:287-329 | Runs with the same remembers and forgets recall the same values ever after, wherever `clear_expired`, `get_context` or `recall` are inserted and whether or not auto-cleanup is on |
| `HeadMemory.RecallReturnsLastRemembered` | junior_aladdin/floor_4_heads/head_memory_base.py:249-271 | After any timed run a recall at t returns v exactly if the last call that remembered the key with a positive TTL, not followed by a forget of it and not pushed out at full capacity as the oldest live entry, remembered v and t is before its time plus its TTL |
| `HeadMemory.RecallIsLive` | junior_aladdin/floor_4_heads/head_memory_base.py:249-271 | A recall returns the value of the live entry of the key, and nothing exactly if there is none |
| `HeadMemory.LiveEntryIsKept` | junior_aladdin/floor_4_heads/head_memory_base.py:211-363 | The live map holds exactly what the last remembers of the keys filed and nothing pushed out |
| `HeadMemory.StoredAfterCall` | junior_aladdin/floor_4_heads/head_memory_base.py:249-329 | Which items stay stored after a recall, forget, clear or context call; an expired one leaves only when it is cleaned up |
| `HeadMemory.EvictionMeaning` | junior_aladdin/floor_4_heads/head_memory_base.py:341-363 | Evicting an expired victim leaves the live set alone; a live victim is its oldest member |
| `HeadMemory.LiveVictim` | junior_aladdin/floor_4_heads/head_memory_base.py:341-363 | With nothing expired the victim is the oldest live item, and only it goes |
| `HeadMemory.ExpiredVictim` | junior_aladdin/floor_4_heads/head_memory_base.py:341-363 | An expired victim is invisible |
| `HeadMemory.RememberRefines` | junior_aladdin/floor_4_heads/head_memory_base.py:211-247 | Remembering refines the live map |
| `HeadMemory.ForgetRefines` | junior_aladdin/floor_4_heads/head_memory_base.py:273-285 | Forgetting removes exactly the key |
| `HeadMemory.UnexpiredIsExact` | junior_aladdin/floor_4_heads/head_memory_base.py:287-305 | Clearing keeps exactly the unexpired items with distinct keys |
| `HeadMemory.RecallReadsLiveItems` | junior_aladdin/floor_4_heads/head_memory_base.py:249-271 | Recall depends on the live set alone |
| `CandleFeed.CandleRunner.constructor` | junior_aladdin/system_runner.py:140-176 | The runner starts without session, candle or buffer |
| `CandleFeed.CandleRunner.TrackPrice` | junior_aladdin/system_runner.py:506-549 | One tick as the tracker takes it; the guard of the running low is shown never to fail |
| `CandleFeed.CandleRunner.ReceiveData` | junior_aladdin/system_runner.py:506-551 | Every registered tracker sees the tick once |
| `CandleFeed.CandleRunner.OnCandleClose` | junior_aladdin/system_runner.py:284-410 | An open candle joins the buffer, which keeps its last hundred, the accumulator is reset, and the heavy cycle is run on that buffer and index, unless Floors 3 and 4 fail on the way, which is caught |
| `CandleFeed.CandleRunner.StartSession` | junior_aladdin/system_runner.py:483-551 | A session start resets the Captain, forgets the last candle index and registers one more tracker |
| `CandleFeed.CandleRunner.OnMarketTick` | junior_aladdin/system_runner.py:266-286 | Starts the session if needed, runs a heavy cycle exactly when the index changed, and always ends with a light cycle |
| `CandleFeed.CandleRunner.MainLoopPass` | junior_aladdin/system_runner.py:233-264 | One pass of the main loop is a market tick in market hours and idle otherwise, with exactly these calls to the Captain |
| `CandleFeed.LightCyclesFollowCloses` | junior_aladdin/system_runner.py:266-286 | Over any run every light cycle comes after a candle close of its session, failed or not, and carries the index of the last one |
| `CandleFeed.SecondSessionDoublesVolume` | junior_aladdin/system_runner.py:483-551 | A run with two sessions in which a tick of volume 10 makes a candle of volume 20 |
| `CandleFeed.SessionsMultiplyVolume` | junior_aladdin/system_runner.py:551 | Over any run, against a runner that registers its tracker once, every buffered candle has the same open, high, low, close and stamp, and its volume is multiplied by the trackers registered by then if and only if there is one or the first volume is not negative |
| `CandleFeed.OnceFollowsBatches` | junior_aladdin/system_runner.py:506-551 | The single-tracker run stays in step with the real one and follows the same batches |
| `CandleFeed.CandleRunner.OnIdle` | junior_aladdin/system_runner.py:471-479 | Ends the session and touches nothing else; the accumulator survives the night |
| `CandleFeed.AcceptedIff` | junior_aladdin/system_runner.py:506-543 | Which raw ticks reach the candle, and with which price and volume |
| `CandleFeed.HoursOfTheDay` | junior_aladdin/system_runner.py:80-113 | Market hours and candle index by weekday and minute |
| `CandleFeed.RunFollowsBatches` | junior_aladdin/system_runner.py:314-358 | After any run the accumulator is the batch bar of the ticks since the last close, and the buffer holds the batch candles of the last hundred non-empty minutes in order |
| `CandleFeed.BarGrows` | junior_aladdin/system_runner.py:527-549 | Adding a tick to first/maximum/minimum/last/volume is the same as recomputing them |
| `CandleFeed.DeliveredCopies` | junior_aladdin/system_runner.py:506-551 | Delivering a tick k times is one price update and k volume additions |
| `CandleFeed.TrackersMultiplyVolume` | junior_aladdin/system_runner.py:551 | k trackers leave open, high, low and close alone; the volume is k times as large if and only if k is 1 or the first volume is not negative |
| `CandleFeed.OneHeavyCyclePerMinute` | junior_aladdin/system_runner.py:106-113 | On one day with a forward clock, after any run that left the session closed, the heavy cycles carry strictly increasing candle indices between 0 and 375 |
| `CandleFeed.CandleZeroOccurs` | junior_aladdin/system_runner.py:106-113 | The first heavy cycle of a day that starts on time carries candle 0 |
| `CandleFeed.CallsGoOn` | junior_aladdin/system_runner.py:233-286 | The calls of a day are what a run adds to the calls before it |
| `Timeline.NarrativeTimeline.constructor` | junior_aladdin/floor_5_captain/narrative_timeline_engine.py:105-113 | An empty timeline |
| `Timeline.NarrativeTimeline.AddEvent` | junior_aladdin/floor_5_captain/narrative_timeline_engine.py:119-158 | Appends and prunes to the newest `max_events`; the count stays in step |
| `Timeline.NarrativeTimeline.AddEvents` | junior_aladdin/floor_5_captain/narrative_timeline_engine.py:160-183 | Adding one by one keeps the newest of everything |
| `Timeline.NarrativeTimeline.UpdateFromMarketStory` | junior_aladdin/floor_5_captain/narrative_timeline_engine.py:185-210 | Records a shift exactly from a known, different regime |
| `Timeline.NarrativeTimeline.GetRecentEvents` | junior_aladdin/floor_5_captain/narrative_timeline_engine.py:232-242 | The newest `count` events, newest first; a count of 0 returns them all |
| `Timeline.NarrativeTimeline.ClearSession` | junior_aladdin/floor_5_captain/narrative_timeline_engine.py:326-331 | Empties the timeline |
| `Timeline.TimelineIsNewestHistory` | junior_aladdin/floor_5_captain/narrative_timeline_engine.py:148-156 | After any history the timeline is exactly its last `max_events` events |
| `Timeline.RecentEventsOfHistory` | junior_aladdin/floor_5_captain/narrative_timeline_engine.py:232-242 | Reading back gives the newest events of the whole history as long as they fit |
| `Sequences.NewestIsSuffix` | junior_aladdin/floor_5_captain/narrative_timeline_engine.py:152-156 | Pruning keeps the newest elements, as many as asked for |
| `Numerics.NearestEvenIff` | junior_aladdin/floor_5_captain/conviction_engine.py:155-161 | Rounding goes to the nearest integer and to the even one of two equally near |
| `Numerics.RoundsOnGrid` | junior_aladdin/floor_5_captain/conviction_engine.py:155-161 | Rounding to places is rounding the scaled number |
| `Numerics.Clamps` | junior_aladdin/floor_5_captain/conviction_engine.py:290-297 | Clamping, case by case |
| `Numerics.Extremes` | junior_aladdin/system_runner.py:527-549 | Maximum, minimum and absolute value by their bounds |
| `Sequences.NewestOfNewest` | junior_aladdin/floor_5_captain/narrative_timeline_engine.py:152-156 | Pruning early loses nothing that a later pruning would keep |
| `Psychology.PsychologyHead.constructor` | junior_aladdin/floor_4_heads/psychology_head.py:93-106 | The configured brakes and no decay baseline |
| `Psychology.PsychologyHead.DecayCooldown` | junior_aladdin/floor_4_heads/psychology_head.py:320-344 | One decay step; without an active cooldown not even the baseline moves |
| `Psychology.PsychologyHead.ProcessSignal` | junior_aladdin/floor_4_heads/psychology_head.py:285-318 | What one signal changes, with absent keys keeping the old value |
| `Psychology.PsychologyHead.ProcessSignals` | junior_aladdin/floor_4_heads/psychology_head.py:285-318 | Signals are applied in order |
| `Psychology.PsychologyHead.Refresh` | junior_aladdin/floor_4_heads/psychology_head.py:190-203 | Decay first, then the signals, then the verdict and the caution level |
| `Psychology.CooldownIsPathIndependent` | junior_aladdin/floor_4_heads/psychology_head.py:320-344 | From a baseline t0 with r0 left and no new cooldown report, any non-decreasing refresh times ending at tn leave max(0, r0 - (tn - t0)), active exactly while that is positive |
| `Psychology.FirstCooldownStartsAtNextRefresh` | junior_aladdin/floor_4_heads/psychology_head.py:326-331 | A first cooldown, reported to a head without a baseline, counts from the first refresh after the report |
| `Psychology.ReportedCooldownIsRightIff` | junior_aladdin/floor_4_heads/psychology_head.py:326-344 | A reported cooldown seen later within its length is right if and only if the last baseline was the moment of the report or, for a head without a baseline, the first refresh after it is at that moment |
| `Psychology.FirstCooldownIsLengthened` | junior_aladdin/floor_4_heads/psychology_head.py:326-331 | Ten minutes reported to a head without a baseline are still ten minutes at the next refresh, however late |
| `Psychology.BaselineAtReport` | junior_aladdin/floor_4_heads/psychology_head.py:326-331 | A refresh moves the baseline exactly if a cooldown was already active (or the baseline was there already) |
| `Psychology.CooldownAfterPauseIsLost` | junior_aladdin/floor_4_heads/psychology_head.py:326-344 | A ten-minute cooldown reported an hour after the previous one ran out is over at the next refresh |
| `Psychology.FlagIsLastVerdict` | junior_aladdin/floor_4_heads/psychology_head.py:304-311 | The repeated-mistake flag is the verdict of the last report whose failures were 0 or at least 2 |
| `Psychology.FailuresAreTracked` | junior_aladdin/floor_4_heads/psychology_head.py:304-307 | The remembered failures are those of the last report that carried them |
| `Psychology.CautionIsMonotone` | junior_aladdin/floor_4_heads/psychology_head.py:362-396 | The caution level is in [0, 1] and rises with every loss, every mistake and every brake that comes on, trap pressure included |
| `Psychology.BlockedIff` | junior_aladdin/floor_4_heads/psychology_head.py:346-360 | Trading is blocked if and only if the rules hold the cooldown, loss-sequence or block rule, or the trap rule at a density above 0.7 |
| `Psychology.RulesAreExact` | junior_aladdin/floor_4_heads/psychology_head.py:415-475 | Each brake that is on has its rule, and no other has |
| `Psychology.CooldownBlocks` | junior_aladdin/floor_4_heads/psychology_head.py:346-360 | While the countdown is positive every refresh of any run answers that trading is not allowed |
| `Psychology.CooldownLeavesNoTrace` | junior_aladdin/floor_4_heads/psychology_head.py:320-360 | Once it is over, the verdict is that of the same refreshes without any cooldown |
| `DisciplineRuns.CooldownStopsCycles` | junior_aladdin/floor_5_captain/permission_gate.py:198-212 | Over any run of refreshes, every heavy cycle that carries the report of the head is stopped by the psychology check, and trades nothing, until the countdown has run out |
| `DisciplineRuns.GateFollowsVerdict` | junior_aladdin/floor_5_captain/permission_gate.py:198-212 | The gate names the psychology check exactly if the report it carries forbids trading |
| `Psychology.CautionInPoints` | junior_aladdin/floor_4_heads/psychology_head.py:362-396 | The caution level in points: what each brake adds |
| `Psychology.SignalDefaults` | junior_aladdin/floor_4_heads/psychology_head.py:285-318 | What a signal changes beyond the keys it carries |
| `Psychology.BiasAndConfidence` | junior_aladdin/floor_4_heads/psychology_head.py:398-413 | The bias is bearish exactly while trading is forbidden; the base confidence in points |
| `Psychology.BlocksAreExplained` | junior_aladdin/floor_4_heads/psychology_head.py:415-475 | A blocked trade always comes with a rule for its brake; the baseline rule appears exactly when no brake is on, and then nothing blocks |
| `Invalidation.RuleTriggered` | junior_aladdin/floor_4_heads/invalidation_formatter.py:213-243 | The keyword and price branches decide exactly the specified breach |
| `Invalidation.WatchableRules` | junior_aladdin/floor_4_heads/invalidation_formatter.py:213-243 | Some market breaks a rule if and only if it is about structure, or about price at a positive level |
| `Invalidation.BrokenCases` | junior_aladdin/floor_4_heads/invalidation_formatter.py:213-243 | Which rules a market breaks, by the words of the rule and by numbers |
| `Invalidation.UnpricedRules` | junior_aladdin/floor_4_heads/invalidation_formatter.py:213-243 | A rule without a price breaks through the structure of the market alone |
| `Text.MentionsIff` | junior_aladdin/floor_4_heads/invalidation_formatter.py:213-243 | A text mentions a word exactly if it is some text before it, the word and some text after it |
| `Text.LowerIsPointwise` | junior_aladdin/floor_4_heads/invalidation_formatter.py:213-218 | Lower-casing maps the ASCII capitals and nothing else |
| `Invalidation.CheckInvalidation` | junior_aladdin/floor_4_heads/invalidation_formatter.py:147-262 | The loop returns the broken and the pending rules, one reason per broken rule, and the total |
| `Invalidation.CheckIsPartition` | junior_aladdin/floor_4_heads/invalidation_formatter.py:195-250 | Each rule lands on exactly one side, both sides keep the order of the rules, and the check triggers exactly if some rule is broken |
| `Invalidation.PositionsAreExact` | junior_aladdin/floor_4_heads/invalidation_formatter.py:195-250 | The positions of the broken (pending) rules, strictly increasing |
| `Invalidation.MergeInvalidations` | junior_aladdin/floor_4_heads/invalidation_formatter.py:265-314 | The nested loop with its seen-set keeps the first rule of each condition and any trigger |
| `Invalidation.AbsorbRules` | junior_aladdin/floor_4_heads/invalidation_formatter.py:288-293 | One dict joins the merge |
| `Invalidation.FirstOfEachIsExact` | junior_aladdin/floor_4_heads/invalidation_formatter.py:284-296 | The merged rules sit exactly at the first occurrences of their conditions, in order |
| `Invalidation.FirstPositionsAreExact` | junior_aladdin/floor_4_heads/invalidation_formatter.py:284-296 | The positions of the first rules are strictly increasing and are exactly those without an earlier rule of the same condition |
| `Invalidation.FirstOfEachIsDistinct` | junior_aladdin/floor_4_heads/invalidation_formatter.py:284-296 | Merged conditions are pairwise distinct |
| `Invalidation.FirstOfPrefix` | junior_aladdin/floor_4_heads/invalidation_formatter.py:284-296 | Merging an already merged beginning changes nothing |
| `Invalidation.FirstOfSuffix` | junior_aladdin/floor_4_heads/invalidation_formatter.py:284-296 | Merging an already merged end changes nothing |
| `Invalidation.MergingMergesIff` | junior_aladdin/floor_4_heads/invalidation_formatter.py:265-314 | Merging two merges equals merging everything at once if and only if no side is empty, both are, or the placeholder of the empty side is already where it would go |
| `Invalidation.MergeOfMerges` | junior_aladdin/floor_4_heads/invalidation_formatter.py:265-314 | What a merge of two merges is, in every case |
| `Invalidation.MergeIsIdempotent` | junior_aladdin/floor_4_heads/invalidation_formatter.py:265-314 | Merging a merge changes nothing and its conditions are distinct |
| `Invalidation.InvalidationManager.constructor` | junior_aladdin/floor_4_heads/invalidation_formatter.py:354-367 | The manager starts untriggered with its processed rules |
| `Invalidation.InvalidationManager.GetInvalidation` | junior_aladdin/floor_4_heads/invalidation_formatter.py:385-392 | The dict carries the current rules and the current trigger |
| `Invalidation.InvalidationManager.CheckMarket` | junior_aladdin/floor_4_heads/invalidation_formatter.py:394-417 | A check reports the market and sets the trigger only the first time |
| `Invalidation.InvalidationManager.MarkTriggered` | junior_aladdin/floor_4_heads/invalidation_formatter.py:419-428 | A manual mark replaces time, and reasons only if given |
| `Invalidation.InvalidationManager.Reset` | junior_aladdin/floor_4_heads/invalidation_formatter.py:430-439 | The trigger and its reasons are cleared, the rules stay |
| `Invalidation.InvalidationManager.Add` | junior_aladdin/floor_4_heads/invalidation_formatter.py:441-448 | A new rule joins without touching the trigger |
| `Invalidation.MarkAndReset` | junior_aladdin/floor_4_heads/invalidation_formatter.py:419-448 | A mark holds whatever was checked before, a reset leaves only the rules, a new rule leaves the trigger |
| `Invalidation.ProcessedKeeps` | junior_aladdin/floor_4_heads/invalidation_formatter.py:354-383 | What a rule says is kept, and one without a severity is hard |
| `Invalidation.TriggerLatches` | junior_aladdin/floor_4_heads/invalidation_formatter.py:394-439 | Between resets and manual marks the trigger keeps its time and reasons; an unset one is set by the first check that fires, with that check's reasons |
| `Replay.ValidatePacket` | junior_aladdin/floor_3_calculations/f3_contracts.py:55-136 | The errors of the input contract in order; none exactly for an admissible packet |
| `Replay.ValidateReplayPacket` | junior_aladdin/floor_3_calculations/f3_contracts.py:404-435 | The same plus the live-only flag |
| `Replay.ValidateTimestamp` | junior_aladdin/floor_3_calculations/f3_ingress.py:181-238 | No error exactly in replay mode or for a timely packet |
| `Replay.ConsumeFloor2Output` | junior_aladdin/floor_3_calculations/f3_ingress.py:69-137 | The loop accepts, rejects or skips each packet as specified |
| `Replay.LoadDirect` | junior_aladdin/floor_3_calculations/f3_replay_adapter.py:285-333 | Keeps the packets without errors in order and collects all errors of the others |
| `Replay.IngressConserves` | junior_aladdin/floor_3_calculations/f3_ingress.py:94-125 | In any mode, accepted + rejected + packets with empty data = input length |
| `Replay.AcceptedIsOrderedImage` | junior_aladdin/floor_3_calculations/f3_ingress.py:94-125 | Accepted inputs are the conversions of exactly the passing packets with data, in packet order |
| `Replay.AcceptedAtIsExact` | junior_aladdin/floor_3_calculations/f3_ingress.py:94-125 | Which positions those are |
| `Replay.ReplayPassesIngress` | junior_aladdin/floor_3_calculations/f3_replay_adapter.py:304-333 | Replay-mode ingress rejects none of the packets kept by a direct load, however old |
| `Replay.ReplayReproducesLiveIff` | junior_aladdin/floor_3_calculations/f3_contracts.py:389-400 | With distinct packet identifiers a replay yields the very inputs of the live cycle if and only if each admissible packet with data was timely then exactly if it is not flagged live-only |
| `Replay.ReplayReproducesLive` | junior_aladdin/floor_3_calculations/f3_contracts.py:389-400 | The sufficient half for any batch, repeated identifiers included |
| `Replay.LoadCountsAddUpIff` | junior_aladdin/floor_3_calculations/f3_replay_adapter.py:326-333 | Accepted and rejected counts of a load add up to its packets if and only if no packet has two errors, since errors are counted |
| `Replay.TwoErrorsCountTwice` | junior_aladdin/floor_3_calculations/f3_replay_adapter.py:326-333 | A packet with two errors counts as two rejected packets |
| `Replay.LoadSucceedsIff` | junior_aladdin/floor_3_calculations/f3_replay_adapter.py:103-106 | A load succeeds if and only if it had packets and each is replayable; it then keeps them all |
| `Replay.AllKept` | junior_aladdin/floor_3_calculations/f3_replay_adapter.py:304-333 | Replayable packets are all kept |
| `Replay.NoErrors` | junior_aladdin/floor_3_calculations/f3_replay_adapter.py:304-333 | A load without errors saw only replayable packets |
| `Replay.PassesByNumbers` | junior_aladdin/floor_3_calculations/f3_ingress.py:181-238 | A live packet passes exactly if it is admissible and its stamp, or else its source time or arrival, is at most 1800 s old and 5 s ahead; replay mode asks for the contract alone |
| `Replay.AdmissibleIff` | junior_aladdin/floor_3_calculations/f3_contracts.py:55-136 | The input contract in the own words of a packet |
| `Replay.ConvertedFields` | junior_aladdin/floor_3_calculations/f3_ingress.py:241-282 | Phase, symbol and data of the input a packet becomes |
| `Replay.HasDataIff` | junior_aladdin/floor_3_calculations/f3_ingress.py:241-282 | Which packets are skipped as empty |
| `Replay.ConvertedIffData` | junior_aladdin/floor_3_calculations/f3_ingress.py:241-282 | A packet is converted exactly if its data is not empty, keeping identifier and time |
| `Replay.StampKeepsInputsTimelyIff` | junior_aladdin/floor_3_calculations/f3_ingress.py:181-238 | For every payload stamp: all accepted live inputs with that stamp have a timestamp inside the window if and only if the stamp is missing, null, or itself a time outside the window; a current stamp, or one that is no datetime, lets inputs of any age in |
| `Replay.UnstampedInputIsTimely` | junior_aladdin/floor_3_calculations/f3_ingress.py:181-238 | A live packet without a stamp of its own enters with a timestamp inside the window |
| `HeadTypes.ComputeConfidence` | junior_aladdin/floor_4_heads/head_types.py:213-236 | Confidence is a unit value for every blend of inputs |
| `HeadTypes.FreshnessByAge` | junior_aladdin/floor_4_heads/head_types.py:139-173 | The freshness score by age in seconds |
| `HeadTypes.TagByAge` | junior_aladdin/floor_4_heads/head_types.py:139-173 | The tag by age |
| `HeadTypes.ApproxByAge` | junior_aladdin/floor_4_heads/head_base.py:283-308 | The coarse freshness that enters a confidence |
| `HeadTypes.ConfidenceInPoints` | junior_aladdin/floor_4_heads/head_types.py:213-236 | Forty parts base, twenty freshness, twenty-five quality, fifteen strength |
| `HeadTypes.FreshnessInUnitIff` | junior_aladdin/floor_4_heads/head_types.py:139-173 | The freshness score is never negative and exceeds 1 exactly if the clock ran backwards |
| `HeadTypes.FreshnessBoundsLaterIff` | junior_aladdin/floor_4_heads/head_types.py:163-168 | Freshness is not antitone: a reading bounds every later one if and only if it is at most 60 s old or at least 120 s |
| `HeadTypes.FreshnessFallsWithinTag` | junior_aladdin/floor_4_heads/head_types.py:160-173 | Within one tag the score only falls |
| `HeadTypes.BiasThreshold` | junior_aladdin/floor_4_heads/head_types.py:181-210 | A side wins if and only if its opponents hold at most three signals for every ten of its own |
| `HeadTypes.BiasIsSymmetric` | junior_aladdin/floor_4_heads/head_types.py:181-210 | Swapping the counts swaps the bias |
| `HeadTypes.SharedEvidenceNeutralises` | junior_aladdin/floor_4_heads/head_types.py:181-210 | Evidence counted on both sides can only take a bias away |
| `SmcInterpretation.Interpret` | junior_aladdin/floor_4_heads/smc_head.py:99-347 | The branches and loops compute the specified reading |
| `SmcInterpretation.ZonesOf` | junior_aladdin/floor_4_heads/smc_head.py:170-195 | The levels of active gaps and blocks, in order |
| `SmcInterpretation.SmcRules` | junior_aladdin/floor_4_heads/smc_head.py:278-283 | There is always a rule |
| `SmcInterpretation.PriceRulesBoundZones` | junior_aladdin/floor_4_heads/smc_head.py:245-269 | The swing-low rule lies under every zone level and comes only with a bullish structure, the swing-high rule over every level and only with a bearish one, and the closed-gap rule over every level and only with a gap setup |
| `SmcInterpretation.SmcVotes` | junior_aladdin/floor_4_heads/smc_head.py:153-168 | What votes for either side |
| `SmcInterpretation.DirectionalSetups` | junior_aladdin/floor_4_heads/smc_head.py:216-243 | The setups of a directional reading, each exactly under its condition |
| `SmcInterpretation.NeutralSetups` | junior_aladdin/floor_4_heads/smc_head.py:216-243 | The setups without a direction |
| `SmcInterpretation.SmcQualityInPoints` | junior_aladdin/floor_4_heads/smc_head.py:376-415 | Context quality in points |
| `SmcInterpretation.SmcConfidence` | junior_aladdin/floor_4_heads/smc_head.py:417-446 | Base confidence in points, and what the reading of any signals carries |
| `SmcInterpretation.SmcSilence` | junior_aladdin/floor_4_heads/smc_head.py:351-374 | The reading without signals |
| `SmcInterpretation.QualityInUnit` | junior_aladdin/floor_4_heads/smc_head.py:376-415 | The context quality is a unit value |
| `SmcInterpretation.DirectionalBiasHasSetup` | junior_aladdin/floor_4_heads/smc_head.py:158-243 | A directional SMC bias always names a primary setup |
| `SmcInterpretation.BackupWithoutPrimaryIff` | junior_aladdin/floor_4_heads/smc_head.py:216-243 | A backup without a primary happens if and only if there is no bias, no bullish zone and some bearish one |
| `SmcInterpretation.ConfirmedChochOnlyNeutralises` | junior_aladdin/floor_4_heads/smc_head.py:153-168 | Confirmed changes of character count for both sides, so they never create a bias |
| `SmcInterpretation.LevelsAreExtremes` | junior_aladdin/floor_4_heads/smc_head.py:449-472 | The highest and lowest zone levels are attained and bound all non-zero levels |
| `SmcInterpretation.SelectedAreSignals` | junior_aladdin/floor_4_heads/smc_head.py:121-156 | The categories hold exactly the matching signals |
| `IctInterpretation.Interpret` | junior_aladdin/floor_4_heads/ict_head.py:87-313 | The branches compute the specified reading |
| `IctInterpretation.CountVotes` | junior_aladdin/floor_4_heads/ict_head.py:148-173 | The counters of both sides |
| `IctInterpretation.IctRules` | junior_aladdin/floor_4_heads/ict_head.py:241-246 | There is always a rule |
| `IctInterpretation.IctVotes` | junior_aladdin/floor_4_heads/ict_head.py:148-173 | What votes for either side |
| `IctInterpretation.IctSetups` | junior_aladdin/floor_4_heads/ict_head.py:194-218 | Each setup exactly under its condition |
| `IctInterpretation.LastOfIsLatest` | junior_aladdin/floor_4_heads/ict_head.py:103-146 | The evidence is the latest signal of each kind |
| `IctInterpretation.IctConfidence` | junior_aladdin/floor_4_heads/ict_head.py:358-373 | Base confidence in points, and what the reading of any signals carries |
| `IctInterpretation.IctSilence` | junior_aladdin/floor_4_heads/ict_head.py:315-337 | The reading without signals |
| `IctInterpretation.IctRulesAreExact` | junior_aladdin/floor_4_heads/ict_head.py:220-246 | How many rules there are and at which prices |
| `IctInterpretation.QualityInUnitIff` | junior_aladdin/floor_4_heads/ict_head.py:339-356 | The context quality never exceeds 1, and it is non-negative exactly from a delivery score of minus the ten-fold quality of the other evidence on, which lies in [-9, 0] |
| `IctInterpretation.BiasWithoutSetupIff` | junior_aladdin/floor_4_heads/ict_head.py:194-218 | A directional ICT bias has no setup if and only if one side's liquidity is unswept and nothing else was seen |
| `IctInterpretation.AreaResistsOpposition` | junior_aladdin/floor_4_heads/ict_head.py:148-173 | Discount keeps the bias from turning bearish whatever else is seen, and premium from turning bullish |
| `MacroInterpretation.Interpret` | junior_aladdin/floor_4_heads/macro_head.py:87-274 | The loops and branches compute the specified reading |
| `MacroInterpretation.HearVix` | junior_aladdin/floor_4_heads/macro_head.py:113-120 | The last VIX value wins |
| `MacroInterpretation.HearFlows` | junior_aladdin/floor_4_heads/macro_head.py:122-127 | The last flow report wins |
| `MacroInterpretation.HearEvents` | junior_aladdin/floor_4_heads/macro_head.py:129-140 | The calendar loop |
| `MacroInterpretation.HearEnvironment` | junior_aladdin/floor_4_heads/macro_head.py:142-145 | The last environment wins |
| `MacroInterpretation.HearAll` | junior_aladdin/floor_4_heads/macro_head.py:107-145 | The four loops together |
| `MacroInterpretation.CautionInPoints` | junior_aladdin/floor_4_heads/macro_head.py:147-168 | Caution in points: volatility, selling, events, environment |
| `MacroInterpretation.MacroBiasCases` | junior_aladdin/floor_4_heads/macro_head.py:170-182 | The bias, each exactly under its condition |
| `MacroInterpretation.QuietUntilHeard` | junior_aladdin/floor_4_heads/macro_head.py:107-145 | What the head assumes until a signal of a kind is heard |
| `MacroInterpretation.LastHeardWins` | junior_aladdin/floor_4_heads/macro_head.py:107-145 | The last value of its kind wins |
| `MacroInterpretation.MacroConfidence` | junior_aladdin/floor_4_heads/macro_head.py:303-318 | Base confidence in points, and what the reading of any signals carries |
| `MacroInterpretation.MacroSilence` | junior_aladdin/floor_4_heads/macro_head.py:278-301 | The reading without signals |
| `MacroInterpretation.GateRulesCount` | junior_aladdin/floor_4_heads/macro_head.py:184-209 | Which gate rules there are |
| `MacroInterpretation.MacroRules` | junior_aladdin/floor_4_heads/macro_head.py:204-209 | There is always a rule |
| `MacroInterpretation.EventRiskIsMaximum` | junior_aladdin/floor_4_heads/macro_head.py:129-140 | The flag says that the highest risk of the calendar, in any order, is above one half |
| `MacroInterpretation.BearishMacroIsExplained` | junior_aladdin/floor_4_heads/macro_head.py:170-209 | A bearish macro bias always comes with a gate rule |
| `HeadContract.Validate` | junior_aladdin/floor_4_heads/head_report_schema.py:111-226 | A report is valid if and only if it meets the contract; the failures name exactly the fields that break it, in order |
| `HeadContract.ValidateSetups` | junior_aladdin/floor_4_heads/head_report_schema.py:132-186 | The locked rules on invalidation, quality and setups |
| `HeadContract.FailuresAreExact` | junior_aladdin/floor_4_heads/head_report_schema.py:111-226 | The collected failures are exactly the broken fields |
| `HeadContract.ContractByHead` | junior_aladdin/floor_4_heads/head_report_schema.py:111-226 | The contract head by head: who needs a quality, who must not name setups, and who is unknown |
| `HeadContract.DepartmentHead.constructor` | junior_aladdin/floor_4_heads/head_base.py:74-82 | A head without an update and with an empty memory |
| `HeadContract.DepartmentHead.Refresh` | junior_aladdin/floor_4_heads/head_base.py:93-152 | The report speaks of the previous update; the update time and the memory (setup, bias and confidence of this report) move only afterwards |
| `HeadContract.ReportStates` | junior_aladdin/floor_4_heads/head_base.py:207-228 | State, tag and freshness of a report by age and confidence |
| `HeadContract.ReportCarriesReading` | junior_aladdin/floor_4_heads/head_base.py:230-281 | Everything else in a report is what the head made of its input, under its own name |
| `HeadContract.PsychologyConfidence` | junior_aladdin/floor_4_heads/psychology_head.py:205-283 | The confidence of the Psychology Head in points |
| `HeadContract.ReportPassesIff` | junior_aladdin/floor_4_heads/head_base.py:230-281 | A report of the SMC, ICT, Macro or Psychology Head meets the contract if and only if the clock did not run backwards since the last update and an ICT delivery score is not below what the other evidence covers |
| `HeadContract.AllReportsPassIff` | junior_aladdin/floor_4_heads/head_base.py:93-152 | Over any run of a head, all its reports pass if and only if its clock never ran backwards and no delivery score fell below that bound |
| `HeadContract.DeliveryScoreSuffices` | junior_aladdin/floor_4_heads/ict_head.py:142-146 | Delivery scores that are not negative are enough for the ICT quality |
| `HeadContract.ReadingsAreGood` | junior_aladdin/floor_4_heads/head_base.py:174-203 | Every interpretation has rules, a unit confidence, a quality where it is required and no setups where they are locked |
| `HeadContract.StaleReportsIff` | junior_aladdin/floor_4_heads/head_base.py:207-228 | A report is STALE if and only if it is the first of its head or the last update is ten minutes old |

## Left out

- Floating-point error: scores are exact reals, so results at a band edge can differ from doubles in the last bit.
- `recent_loss`, moods, silence reasons, snapshots, dashboard text and the permission score: nothing decides on them.
- The text of the market story, the personality and the setup memory zones inside the heavy cycle: of these only the
  regime reaches the decision. What the checks of the opposite-case engine find is an input.
- Entry, stop and target plans of the trade constructor: they describe a trade that is already decided.
- Witness lines, signal picks and the other texts of a floor summary, and the counts beside its bias.
- Aliasing of plan objects handed out by `get_plan` and friends: plans are values inside the plan engine.
- Operator calls on the lock and the guard between cycles are events of a run; their effect is what the methods of
  `LossLockManager` and `OverrideGuard` ensure.
- `set_state` of the Psychology Head, which presets its brakes: nothing in the system calls it.
- The narrative timeline is proved on its own and not threaded through the heavy cycle.
- SmcInterpretation.Interpret: does not model trigger and zone lists beyond the levels that rules quote, nor text
  fields and numbers quoted inside rule texts; no other modelled step reads them.
- IctInterpretation.Interpret: does not model the zone list and the text fields, for the same reason.
- MacroInterpretation.Interpret: does not model event triggers, event names and text, for the same reason.
- The Technical and Options Heads: the contract asks of them only what every head is asked, and they would add easy cases.
- Case folding and matching of rule texts beyond ASCII letters.
- CandleFeed.CandleRunner.OnCandleClose: does not model an exception inside the Captain's own heavy cycle or behind
  it, whose methods do not raise in the model; a failure before the Captain is reached is modelled.
- ATM strike and health monitor updates of the runner.
- Replay sessions looked up in Side C, and everything behind ingress in Floor 3.
- Logins, sockets, REST, configuration files and logging.
