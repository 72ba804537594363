/** The settings of a backtest run, reduced to the fields the engine branches on. */
module Config {
  import opened Market

  datatype Strategy = Sepa | Rsi2 | Core

  datatype Stage = NoExit | First | Second | Third | Trailing

  /** The value of the ExitStage enumeration. */
  function Rank(stage: Stage): nat {
    match stage
    case NoExit => 0
    case First => 1
    case Second => 2
    case Third => 3
    case Trailing => 4
  }

  datatype EntryStopMode = AtrDynamic | LivePolicy
  datatype SlotPolicy = Fixed | LiveWeighted
  datatype ExitPolicy = Ladder | Channel
  datatype Sizing = Nominal | Risk

  datatype ExitRules = ExitRules(
    exitPolicy: ExitPolicy,
    entryStopMode: EntryStopMode,
    sepaStopLossPct: real, rsi2StopLossPct: real, coreStopLossPct: real,
    minStopPct: real, maxStopPct: real, atrMultiplier: real,
    firstExitPct: real, firstExitRatio: real,
    secondExitPct: real, secondExitRatio: real,
    thirdExitPct: real, thirdExitRatio: real,
    trailingStopPct: real, trailingActivatePct: real,
    coreTrailingStopPct: real, coreTrailingActivatePct: real,
    atrLinked: bool, atrLinkMultiplier: real, atrLinkCapPct: real,
    regimeExit: bool,
    minHoldingDays: int, sepaMaxHoldingDays: int, rsi2MaxHoldingDays: int,
    staleExitDays: int, staleExitPnlPct: real,
    staleHighDays: int, staleHighMinPnlPct: real,
    compositeExit: bool, compositeMinStage: Stage, compositeMa5BufferPct: real, compositePrevLow: bool,
    postExitStaleDays: int, postExitStalePnlPct: real)

  datatype BacktestConfig = BacktestConfig(
    exits: ExitRules,
    useT1: bool,
    sepaOn: bool, rsi2On: bool, coreOn: bool,
    allocation: map<Strategy, real>, budgetCap: bool,
    maxPositionsShort: int, maxPositionsCore: int,
    riskMaxPositions: int, maxPositionsWeighted: real,
    basePositionPct: real, maxPositionPct: real, minCashReservePct: real, minPositionValue: real,
    sizing: Sizing, riskPerTradePct: real, riskMaxPositionPct: real,
    slotPolicy: SlotPolicy,
    sepaMinScore: real, rsi2MinScore: real, coreMinScore: real)

  /** The cap on short-term slots the engine fixes when it is built. */
  function MaxShort(cfg: BacktestConfig): real {
    match cfg.slotPolicy
    case LiveWeighted => cfg.maxPositionsWeighted
    case Fixed =>
      if cfg.sizing.Risk? then cfg.riskMaxPositions as real else cfg.maxPositionsShort as real
  }

  datatype RegimeTargets = RegimeTargets(firstExitPct: real, secondExitPct: real, thirdExitPct: real,
                                         trailingStopPct: real, stopLossPct: real)

  /** BT_REGIME_EXIT_PARAMS. */
  function TargetsOf(regime: Regime): RegimeTargets {
    match regime
    case Bullish => RegimeTargets(10.0, 15.0, 25.0, 4.0, 5.0)
    case Neutral => RegimeTargets(10.0, 12.0, 20.0, 3.0, 4.0)
    case Bearish => RegimeTargets(5.0, 8.0, 14.0, 2.0, 3.5)
  }

  /** Exit ratios are fractions of what is left. */
  ghost predicate RatiosAreFractions(rules: ExitRules) {
    && 0.0 <= rules.firstExitRatio <= 1.0
    && 0.0 <= rules.secondExitRatio <= 1.0
    && 0.0 <= rules.thirdExitRatio <= 1.0
  }

  /** No stop distance exceeds the whole price. */
  ghost predicate StopsAreFractions(rules: ExitRules) {
    && rules.sepaStopLossPct <= 100.0 && rules.rsi2StopLossPct <= 100.0 && rules.coreStopLossPct <= 100.0
    && rules.minStopPct <= 100.0 && rules.maxStopPct <= 100.0
  }

  /** HOLDING_POLICIES["none"]: every holding rule pushed out to 999 days. */
  ghost predicate HoldingPolicyNone(rules: ExitRules) {
    && rules.staleExitDays == 999 && rules.staleExitPnlPct == 0.0
    && rules.staleHighDays == 999 && rules.staleHighMinPnlPct == 0.0
    && rules.sepaMaxHoldingDays == 999 && rules.rsi2MaxHoldingDays == 999
    && rules.minHoldingDays == 2
  }
}
