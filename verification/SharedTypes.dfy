/** The enums and records of shared/types.py and captain_types.py that decisions depend on. */
module SharedTypes {

  datatype Option<+T> = None | Some(value: T)

  /** `d.get(key, otherwise)` */
  function Or<T>(o: Option<T>, otherwise: T): T {
    if o.Some? then o.value else otherwise
  }

  datatype Bias = Bullish | Bearish | Neutral

  datatype HeadState = Ready | Uncertain | Stale

  datatype FreshnessTag = FreshTag | WarmTag | StaleTag

  datatype TradeClass = Scalp | Continuation | Reversal | LiquidityReclaim | OptionsPressure

  datatype ExecutionMode = Alert | Paper | Real

  datatype DataHealth = GoodHealth | CautionHealth | DegradedHealth | StaleHealth | CriticalHealth

  datatype Direction = Buy | Sell

  /** The regime strings of the market story; `NoRegime` is the empty string. */
  datatype Regime = TrendUp | TrendDown | WeakUp | WeakDown | Range | Chop | Unclear | NoRegime | OtherRegime

  datatype HeadName =
    | SmcHead | IctHead | TechnicalHead | OptionsHead | MacroHead | PsychologyHead
    | OtherHead(name: string)

  datatype InvalidationRule = InvalidationRule(condition: string, priceLevel: real, reason: string)

  /** A department head's report, without its dashboard text. */
  datatype HeadReport = HeadReport(
    headName: HeadName,
    state: HeadState,
    freshnessScore: real,
    freshnessTag: FreshnessTag,
    bias: Bias,
    confidence: real,
    primarySetup: Option<string>,
    backupSetup: Option<string>,
    invalidation: seq<InvalidationRule>,
    contextQuality: Option<real>,
    eventRisk: bool,
    cautionLevel: real,
    tradeAllowed: bool,
    cooldownActive: bool,
    repeatedMistake: bool,
    trapPressure: bool)
}
