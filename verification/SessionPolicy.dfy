/** Session phases, market hours and the two per-phase tables (session_policy.py, captain_types.py). */
module SessionPolicy {

  /** A UTC instant. Day 0 is a Monday. */
  datatype Timestamp = Timestamp(day: int, minute: MinuteOfDay)

  type MinuteOfDay = m: int | 0 <= m < 1440 witness 0

  datatype SessionPhase = Opening | GoldenMorning | Lunch | Closing

  datatype Strictness = Normal | High | VeryHigh

  const MARKET_OPEN := 9 * 60 + 15
  const OPENING_END := 9 * 60 + 45
  const GOLDEN_MORNING_END := 11 * 60
  const LUNCH_END := 13 * 60
  const MARKET_CLOSE := 15 * 60 + 30

  /** IST is UTC + 5:30, wrapped at midnight. */
  function IstMinute(t: Timestamp): MinuteOfDay {
    (t.minute + 330) % 1440
  }

  function PhaseAt(total: int): SessionPhase {
    if total < MARKET_OPEN || total > MARKET_CLOSE then Opening
    else if total < OPENING_END then Opening
    else if total < GOLDEN_MORNING_END then GoldenMorning
    else if total < LUNCH_END then Lunch
    else Closing
  }

  function PhaseOf(t: Timestamp): SessionPhase {
    PhaseAt(IstMinute(t))
  }

  function AggressionModifier(phase: SessionPhase): real {
    match phase
    case Opening => -0.2
    case GoldenMorning => 0.1
    case Lunch => -0.1
    case Closing => -0.2
  }

  function StrictnessOf(phase: SessionPhase): Strictness {
    match phase
    case Opening => High
    case GoldenMorning => Normal
    case Lunch => Normal
    case Closing => VeryHigh
  }

  /** The weekday is read off the UTC date, the hour off the IST clock. */
  predicate IsMarketOpen(t: Timestamp) {
    t.day % 7 < 5 && MARKET_OPEN <= IstMinute(t) < MARKET_CLOSE
  }

  /**
   The two time checks of the gate together leave one window: 9:45 to 13:00 IST on a UTC weekday, which is
   4:15 to 7:30 UTC, so the UTC weekday is the IST weekday. LUNCH is inside it, although the gate's own
   documentation calls LUNCH a HIGH phase.
  */
  lemma TradingWindow(t: Timestamp)
    ensures (IsMarketOpen(t) && StrictnessOf(PhaseOf(t)) == Normal)
            <==> (t.day % 7 < 5 && 4 * 60 + 15 <= t.minute < 7 * 60 + 30)
  {
  }

  /** The two time checks in minutes of UTC. */
  lemma MarketMinutes(t: Timestamp)
    ensures IsMarketOpen(t) <==> t.day % 7 < 5 && 225 <= t.minute < 600
    ensures StrictnessOf(PhaseOf(t)) == Normal <==> 255 <= t.minute < 450
  {
  }

  /** The phases in minutes of IST; before the market and after it counts as OPENING, the last minute as CLOSING. */
  lemma PhaseCases(t: Timestamp)
    ensures var ist := (t.minute + 330) % 1440;
            && (PhaseOf(t) == GoldenMorning <==> 585 <= ist < 660)
            && (PhaseOf(t) == Lunch <==> 660 <= ist < 780)
            && (PhaseOf(t) == Closing <==> 780 <= ist <= 930)
            && (PhaseOf(t) == Opening <==> ist < 585 || 930 < ist)
  {
  }

  /**
   In points of conviction: golden morning adds one and a half, lunch takes as much, both ends of the day take three.
  */
  lemma HourPoints(phase: SessionPhase)
    ensures 150.0 * AggressionModifier(phase)
            == if phase == GoldenMorning then 15.0 else if phase == Lunch then -15.0 else -30.0
  {
  }
}
