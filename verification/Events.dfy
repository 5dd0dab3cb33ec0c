/** Domain events, as the pipeline emits them and the event store keeps them. */
module DomainEvents {
  import opened Common
  import opened Plans
  import opened Accounts
  import opened Verdicts

  datatype LiquidationReason = RuleBreach(kind: ViolationKind) | EmergencyStopReason

  datatype Snapshot = Snapshot(
    status: AccountStatus,
    balance: Money,
    equity: Money,
    peakEquity: Money,
    peakBalance: Money,
    dayStartBalance: Money,
    activeTradingDays: nat,
    tradingDayIndex: nat,
    targetReachedAt: Option<Timestamp>,
    version: nat)

  datatype EventKind =
    | AccountStarted(plan: ChallengePlan)
    | AccountStatusChanged(from: AccountStatus, to: AccountStatus)
    | AccountSnapshotted(snapshot: Snapshot)
    | OrderEvent
    | TradeFilled(trade: Trade)
    | PositionOpened(positionId: int, symbol: Symbol, side: PositionSide, qty: real)
    | PositionClosed(positionId: int, realizedPnl: Money)
    | TickEvaluated(equity: Money)
    | DayRolledOver(newDayIndex: nat, dayStart: Money)
    | RuleViolated(violation: Violation)
    | PlanUpgraded(fromPhase: ChallengePhase, toPhase: ChallengePhase)
    | PayoutRequested(profitBasis: Money, amount: Money)
    | PayoutApproved(amount: Money, feeRefund: Money)
    | LiquidationRequested(positions: seq<Position>, reason: LiquidationReason)
    | OverrideCleared

  datatype DomainEvent = DomainEvent(accountId: int, kind: EventKind, occurredAt: Timestamp)
}
