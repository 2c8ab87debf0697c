/** Freshness, bias and confidence, the arithmetic all department heads share (head_types.py, head_base.py). */
module HeadTypes {
  import opened SharedTypes
  import opened Numerics

  /** The side a signal names. */
  datatype Side = BullSide | BearSide | NoSide

  /** What a head makes of its signals, before freshness and state are added. */
  datatype Interpretation = Interpretation(
    bias: Bias,
    confidence: real,
    primarySetup: Option<string>,
    backupSetup: Option<string>,
    rules: seq<InvalidationRule>,
    contextQuality: Option<real>,
    eventRisk: bool,
    cautionLevel: real,
    tradeAllowed: bool,
    cooldownActive: bool,
    repeatedMistake: bool,
    trapPressure: bool)

  /** The rule without a price that a head appends when `holds`. */
  function RuleIf(holds: bool, condition: string, reason: string): seq<InvalidationRule> {
    if holds then [InvalidationRule(condition, 0.0, reason)] else []
  }

  const FRESH_MAX_SECONDS := 120.0
  const WARM_MAX_SECONDS := 600.0
  const STALE_MAX_SECONDS := 1800.0

  function FreshnessScore(seconds: real): real {
    if seconds < FRESH_MAX_SECONDS then MaxR(0.0, 1.0 - seconds / FRESH_MAX_SECONDS)
    else if seconds < WARM_MAX_SECONDS then
      MaxR(0.0, 0.5 - (seconds - FRESH_MAX_SECONDS) / (WARM_MAX_SECONDS - FRESH_MAX_SECONDS) * 0.3)
    else if seconds < STALE_MAX_SECONDS then
      MaxR(0.0, 0.2 - (seconds - WARM_MAX_SECONDS) / (STALE_MAX_SECONDS - WARM_MAX_SECONDS) * 0.15)
    else 0.0
  }

  function FreshnessTagOf(seconds: real): FreshnessTag {
    if seconds < FRESH_MAX_SECONDS then FreshTag
    else if seconds < WARM_MAX_SECONDS then WarmTag
    else StaleTag
  }

  /** The coarse score that enters a head's confidence. */
  function ApproxFreshness(seconds: Option<real>): real {
    match seconds
    case None => 0.5
    case Some(s) => if s < 120.0 then 1.0 else if s < 600.0 then 0.7 else if s < 1800.0 then 0.4 else 0.1
  }

  function BiasFromSignals(bullish: nat, bearish: nat): Bias {
    if bullish + bearish == 0 then Neutral
    else
      var majority, minority := MaxI(bullish, bearish), MinI(bullish, bearish);
      if minority as real / majority as real > 0.3 then Neutral
      else if bullish > bearish then Bullish
      else Bearish
  }

  function ComputeConfidence(base: real, freshness: real, quality: real, strength: real): (r: real)
    ensures 0.0 <= r <= 1.0
  {
    ClampUnit(base * 0.4 + freshness * 0.2 + quality * 0.25 + strength * 0.15)
  }

  // ----- Freshness -----

  /** A score outside [0, 1] means exactly that the clock went backwards. */
  lemma FreshnessInUnitIff(seconds: real)
    ensures 0.0 <= FreshnessScore(seconds)
    ensures FreshnessScore(seconds) <= 1.0 <==> seconds >= 0.0
  {
  }

  /**
   Freshness is not antitone in age: at 120 s it jumps from 0 back up to 0.5. A reading bounds every later one exactly
   if it is at most a minute old or past the jump.
  */
  lemma FreshnessBoundsLaterIff(seconds: real)
    ensures (forall later :: seconds <= later ==> FreshnessScore(later) <= FreshnessScore(seconds))
            <==> seconds <= 60.0 || seconds >= 120.0
  {
    assert FreshnessScore(120.0) == 0.5;
    if 60.0 < seconds < 120.0 {
      assert seconds <= 120.0 && FreshnessScore(seconds) < FreshnessScore(120.0);
    } else {
      forall later | seconds <= later ensures FreshnessScore(later) <= FreshnessScore(seconds) {
      }
    }
  }

  /** Within one band of the tag the score only falls. */
  lemma FreshnessFallsWithinTag(seconds: real, later: real)
    requires seconds <= later && FreshnessTagOf(seconds) == FreshnessTagOf(later)
    ensures FreshnessScore(later) <= FreshnessScore(seconds)
  {
  }

  // ----- Bias -----

  /** A side needs more than its share: its opponents may hold at most three signals for every ten of its own. */
  lemma BiasThreshold(bullish: nat, bearish: nat)
    ensures BiasFromSignals(bullish, bearish) == Bullish <==> bullish > 0 && 10 * bearish <= 3 * bullish
    ensures BiasFromSignals(bullish, bearish) == Bearish <==> bearish > 0 && 10 * bullish <= 3 * bearish
  {
    if bullish + bearish > 0 {
      var majority, minority := MaxI(bullish, bearish), MinI(bullish, bearish);
      RatioTest(minority, majority);
    }
  }

  lemma RatioTest(minority: nat, majority: nat)
    requires majority > 0
    ensures minority as real / majority as real > 0.3 <==> 10 * minority > 3 * majority
  {
    RatioAbove(minority as real, majority as real, 0.3);
  }

  lemma RatioAbove(x: real, y: real, ratio: real)
    requires y > 0.0
    ensures x / y > ratio <==> x > ratio * y
  {
  }

  function Opposite(b: Bias): Bias {
    match b
    case Bullish => Bearish
    case Bearish => Bullish
    case Neutral => Neutral
  }

  lemma BiasIsSymmetric(bullish: nat, bearish: nat)
    ensures BiasFromSignals(bearish, bullish) == Opposite(BiasFromSignals(bullish, bearish))
  {
  }

  /** Evidence counted on both sides can only take a bias away. */
  lemma SharedEvidenceNeutralises(bullish: nat, bearish: nat, shared: nat)
    ensures BiasFromSignals(bullish + shared, bearish + shared) != Neutral ==>
              shared == 0 || BiasFromSignals(bullish, bearish) == BiasFromSignals(bullish + shared, bearish + shared)
  {
    BiasThreshold(bullish, bearish);
    BiasThreshold(bullish + shared, bearish + shared);
  }

  // ----- The arithmetic in seconds and points -----

  /**
   From one down to nothing in two minutes, from one half to a fifth in ten, from a fifth to a twentieth in thirty.
  */
  lemma FreshnessByAge(seconds: real)
    ensures seconds < 120.0 ==> 120.0 * FreshnessScore(seconds) == 120.0 - seconds
    ensures 120.0 <= seconds < 600.0 ==> 1600.0 * FreshnessScore(seconds) == 800.0 - (seconds - 120.0)
    ensures 600.0 <= seconds < 1800.0 ==> 8000.0 * FreshnessScore(seconds) == 1600.0 - (seconds - 600.0)
    ensures 1800.0 <= seconds ==> FreshnessScore(seconds) == 0.0
  {
  }

  lemma TagByAge(seconds: real)
    ensures FreshnessTagOf(seconds) == FreshTag <==> seconds < 120.0
    ensures FreshnessTagOf(seconds) == StaleTag <==> seconds >= 600.0
  {
  }

  /** The coarse score in tenths. */
  lemma ApproxByAge(seconds: real)
    ensures 10.0 * ApproxFreshness(Some(seconds))
            == if seconds >= 1800.0 then 1.0 else if seconds >= 600.0 then 4.0 else if seconds >= 120.0 then 7.0
               else 10.0
    ensures 10.0 * ApproxFreshness(None) == 5.0
  {
  }

  /** Forty parts base, twenty freshness, twenty-five quality, fifteen strength. */
  lemma ConfidenceInPoints(base: real, freshness: real, quality: real, strength: real)
    ensures var points := 40.0 * base + 20.0 * freshness + 25.0 * quality + 15.0 * strength;
            100.0 * ComputeConfidence(base, freshness, quality, strength)
            == if points < 0.0 then 0.0 else if points > 100.0 then 100.0 else points
  {
  }
}
