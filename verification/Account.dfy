/** The account aggregate: lifecycle status, money fields, day counters, fills and positions. */
module Accounts {
  import opened Common
  import opened Plans

  datatype AccountType = Phase1Type | Phase2Type | FundedType | DemoType

  datatype AccountStatus =
    | Pending
    | Active
    | TargetHitPending
    | Passed
    | Failed
    | FundedLive
    | PayoutPending
    | Closed
    | EmergencyStopped

  predicate IsBreachTerminal(s: AccountStatus) {
    s.Failed? || s.EmergencyStopped?
  }

  datatype Symbol = Symbol(name: string)

  datatype PositionSide = Long | Short

  datatype PositionStatus = Open | ClosedPosition | Liquidated

  datatype Position = Position(
    id: int,
    symbol: Symbol,
    side: PositionSide,
    openedAt: Timestamp,
    closedAt: Option<Timestamp>,
    status: PositionStatus,
    avgEntryPrice: real,
    openedQuantity: real,
    openQuantity: real,
    realizedPnl: Money)

  predicate IsOpen(p: Position) {
    p.status.Open? && p.openQuantity > 0.0
  }

  datatype Quote = Quote(bid: real, ask: real, ts: Timestamp)

  /** Longs are valued at the bid, shorts at the ask. */
  function UnrealizedPnl(p: Position, q: Quote): Money {
    if !IsOpen(p) then 0.0
    else match p.side
      case Long => (q.bid - p.avgEntryPrice) * p.openQuantity
      case Short => (p.avgEntryPrice - q.ask) * p.openQuantity
  }

  datatype TradeSide = Entry | Exit | Reverse

  datatype TradeExit = TradeExit(
    positionId: int,
    realizedPnl: Money,
    closedQuantity: real,
    entryPrice: real)

  datatype Trade = Trade(
    symbol: Symbol,
    side: PositionSide,
    tradeSide: TradeSide,
    price: real,
    quantity: real,
    commission: Money,
    swap: Money,
    executedAt: Timestamp,
    exitInfo: Option<TradeExit>)

  /** Realized profit of an exit; an entry realizes nothing. */
  function GrossPnl(t: Trade): Money {
    if t.exitInfo.Some? then t.exitInfo.value.realizedPnl else 0.0
  }

  function NetPnl(t: Trade): Money {
    GrossPnl(t) - t.commission - t.swap
  }

  datatype Account = Account(
    id: int,
    accountType: AccountType,
    status: AccountStatus,
    plan: ChallengePlan,
    initialBalance: Money,
    balance: Money,
    equity: Money,
    estimatedEquity: Money,
    estimatedBalance: Money,
    peakEquity: Money,
    peakBalance: Money,
    startedAt: Option<Timestamp>,
    deadline: Option<Timestamp>,
    dayStartBalance: Money,
    dayStartEquity: Money,
    intradayPeakEquity: Money,
    tradingDayIndex: nat,
    activeTradingDays: nat,
    dayCountedToday: bool,
    todayRealizedPnl: Money,
    totalRealizedPnl: Money,
    totalCommissions: Money,
    totalSwaps: Money,
    largestDayProfit: Money,
    largestDayLoss: Money,
    sumPositiveDaysProfit: Money,
    profitableDaysCount: nat,
    qualifyingTradingDaysCount: nat,
    currentTradingDayStart: Option<Timestamp>,
    targetReachedAt: Option<Timestamp>,
    targetReachedOnDay: Option<nat>,
    version: nat,
    lastTickTs: Option<Timestamp>,
    lastTradeAt: Option<Timestamp>,
    payoutCount: nat,
    balanceAtLastPayout: Money,
    lastPayoutAt: Option<Timestamp>,
    refundUsed: bool,
    statusBeforeBreach: Option<AccountStatus>,
    openPositions: seq<Position>,
    todayTrades: seq<Trade>)

  function TypeOfPhase(p: ChallengePhase): AccountType {
    match p
    case Phase1 => Phase1Type
    case Phase2 => Phase2Type
    case Funded => FundedType
  }

  function NewAccount(id: int, plan: ChallengePlan): Account {
    var b := plan.initialBalanceMoney;
    Account(
      id := id, accountType := TypeOfPhase(plan.phase), status := Pending, plan := plan,
      initialBalance := b, balance := b, equity := b, estimatedEquity := b, estimatedBalance := b,
      peakEquity := b, peakBalance := b, startedAt := None, deadline := None,
      dayStartBalance := b, dayStartEquity := b, intradayPeakEquity := b,
      tradingDayIndex := 0, activeTradingDays := 0, dayCountedToday := false,
      todayRealizedPnl := 0.0, totalRealizedPnl := 0.0, totalCommissions := 0.0, totalSwaps := 0.0,
      largestDayProfit := 0.0, largestDayLoss := 0.0, sumPositiveDaysProfit := 0.0,
      profitableDaysCount := 0, qualifyingTradingDaysCount := 0, currentTradingDayStart := None,
      targetReachedAt := None, targetReachedOnDay := None, version := 0, lastTickTs := None,
      lastTradeAt := None, payoutCount := 0, balanceAtLastPayout := b, lastPayoutAt := None,
      refundUsed := false, statusBeforeBreach := None, openPositions := [], todayTrades := [])
  }

  /** Starting moves a pending account to active and opens its first trading day. */
  function Start(a: Account, at: Timestamp): Result<Account> {
    if !a.status.Pending? then Err(InvalidState)
    else
      Ok(a.(
         status := Active,
         startedAt := Some(at),
         currentTradingDayStart := Some(TradingDayStart(a.plan, at)),
         deadline := if a.plan.timeLimitDays.Some? then Some(at + a.plan.timeLimitDays.value * DAY) else a.deadline))
  }
}
