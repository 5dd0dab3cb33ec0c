/** Violations, rule verdicts and rule reports. */
module Verdicts {
  import opened Common

  /** The rules of the default library by name, plus rules registered by a user under an id of their own. */
  datatype RuleId =
    | DailyDrawdown | MaxDrawdown | TrailingDrawdown | ProfitTarget | MinTradingDays
    | MinProfitableDays | Consistency | NewsTrading | OvernightHolding | WeekendHolding
    | MaxPositionSize | MaxOpenPositions | MaxDailyTrades | TimeLimit | Cooldown
    | Hedging | GridTrading | CopyTrading | StopLossRequired | TakeProfitRequired
    | HftScalping | PerTradeMaxLoss | Inactivity | MaxTotalLots | TradingHours
    | Margin | CrossAccountHedging | LowcapExposure
    | Custom(uuid: int)

  datatype Severity = Info | Warning | Hard | LiquidateSeverity

  /** What a violation is about. Several rules share the custom kind, and a user's rule may declare any kind. */
  datatype ViolationKind =
    | DailyDrawdownKind | MaxDrawdownKind | TrailingDrawdownKind | ProfitTargetMissedKind | MinTradingDaysKind
    | MinProfitableDaysKind | ConsistencyKind | NewsTradingKind | OvernightHoldingKind | WeekendHoldingKind
    | MaxPositionSizeKind | MaxLotSizeKind | MaxOpenPositionsKind | MaxDailyTradesKind | TimeLimitKind
    | CooldownKind | HedgingKind | GridTradingKind | CopyTradingKind | MissingStopLossKind
    | MissingTakeProfitKind | CrossAccountHedgingKind | LowcapExposureKind | CustomKind

  /** The kind that a rule of the default library declares. */
  function DefaultKind(id: RuleId): ViolationKind {
    match id
    case DailyDrawdown => DailyDrawdownKind
    case MaxDrawdown => MaxDrawdownKind
    case TrailingDrawdown => TrailingDrawdownKind
    case ProfitTarget => ProfitTargetMissedKind
    case MinTradingDays => MinTradingDaysKind
    case MinProfitableDays => MinProfitableDaysKind
    case Consistency => ConsistencyKind
    case NewsTrading => NewsTradingKind
    case OvernightHolding => OvernightHoldingKind
    case WeekendHolding => WeekendHoldingKind
    case MaxPositionSize => MaxPositionSizeKind
    case MaxTotalLots => MaxLotSizeKind
    case MaxOpenPositions => MaxOpenPositionsKind
    case MaxDailyTrades => MaxDailyTradesKind
    case TimeLimit => TimeLimitKind
    case Cooldown => CooldownKind
    case Hedging => HedgingKind
    case GridTrading => GridTradingKind
    case CopyTrading => CopyTradingKind
    case StopLossRequired => MissingStopLossKind
    case TakeProfitRequired => MissingTakeProfitKind
    case CrossAccountHedging => CrossAccountHedgingKind
    case LowcapExposure => LowcapExposureKind
    case _ => CustomKind
  }

  datatype Violation = Violation(
    rule: RuleId,
    kind: ViolationKind,
    severity: Severity,
    breachValue: Option<Money>,
    threshold: Option<Money>)

  function Plain(rule: RuleId, severity: Severity): Violation {
    Violation(rule, DefaultKind(rule), severity, None, None)
  }

  function WithBreach(rule: RuleId, severity: Severity, breach: Money, threshold: Money): Violation {
    Violation(rule, DefaultKind(rule), severity, Some(breach), Some(threshold))
  }

  datatype RuleVerdict =
    | Pass
    | Warn(violation: Violation)
    | Fail(violation: Violation)
    | SoftFail(violation: Violation)
    | Liquidate(violation: Violation)
    | TargetHit(violation: Violation)
    | Emergency(violation: Violation)
    | EarlyWarning(violation: Violation)
    | GapFlagged(violation: Violation)
    | Skip

  datatype EvaluationScope = PreTrade | PostTrade | OnTickScope | Periodic | OnDemandScope

  datatype RuleReport = RuleReport(
    ruleId: RuleId,
    verdict: RuleVerdict,
    scope: EvaluationScope,
    priority: nat)
}
