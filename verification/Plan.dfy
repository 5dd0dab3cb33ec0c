/** Challenge plans: the settings of an evaluation program and its trading-day calendar. */
module Plans {
  import opened Common

  datatype ChallengePhase = Phase1 | Phase2 | Funded

  function Rank(p: ChallengePhase): nat {
    match p
    case Phase1 => 0
    case Phase2 => 1
    case Funded => 2
  }

  datatype LossReference = Static | Trailing | EodTrailing | IntradayTrail

  datatype DailyLossType = NoDailyLoss | PctInitial | PctPriorDay | TrailingIntradayHigh

  datatype ConsistencyType = NoConsistency | BestDayPctOfTotal | BestDayPctOfPositiveDays

  datatype PayoutCycle = OnDemandCycle | BiWeekly | Monthly

  datatype PayoutConfig = PayoutConfig(
    minimumPayout: Money,
    cycle: PayoutCycle,
    tiers: seq<real>)

  /** Hour of the daily reset. The original aborts on an hour outside 0..23. */
  type ResetHour = h: nat | h < 24 witness 0

  datatype ChallengePlan = ChallengePlan(
    phase: ChallengePhase,
    initialBalanceMoney: Money,
    profitTargetPct: real,
    maxDailyDrawdownPct: real,
    maxTotalDrawdownPct: real,
    maxLossReference: LossReference,
    drawdownOnBalance: bool,
    trailingDrawdownEnabled: bool,
    trailingDrawdownPct: real,
    minTradingDays: nat,
    timeLimitDays: Option<nat>,
    maxPositionLots: Option<real>,
    maxTotalLots: Option<real>,
    maxOpenPositions: Option<nat>,
    maxDailyTrades: Option<nat>,
    newsTradingAllowed: bool,
    overnightHoldingAllowed: bool,
    weekendHoldingAllowed: bool,
    hedgingAllowed: bool,
    gridTradingAllowed: bool,
    requireStopLoss: bool,
    requireTakeProfit: bool,
    consistencyPct: Option<real>,
    cooldownSeconds: nat,
    copyTradingAllowed: bool,
    refundable: bool,
    leverage: nat,
    tradingHours: Option<(nat, nat)>,
    hasTimezone: bool,
    dayResetTime: ResetHour,
    perTradeMaxLossPct: Option<real>,
    perTradeMaxLossMoney: Option<Money>,
    hftBanEnabled: bool,
    hftMinRoundTripSeconds: nat,
    inactivityDays: Option<nat>,
    refundFeeAmount: Money,
    dailyLossType: DailyLossType,
    dailyLossSoft: bool,
    consistencyType: ConsistencyType,
    eodTrailLocksAtStart: bool,
    minProfitableDays: Option<nat>,
    crossAccountHedgingProhibited: bool,
    lowcapExposureLimitPct: Option<real>,
    consistencyAppliesOnFundedStage: bool,
    qualifyingDayThresholdPct: Option<real>,
    qualifyingDayPnlBandPct: Option<real>,
    payoutConfig: Option<PayoutConfig>)

  /** The plan that new plans start from. */
  const DEFAULT_PLAN := ChallengePlan(
    phase := Phase1, initialBalanceMoney := 10000.0, profitTargetPct := 0.08, maxDailyDrawdownPct := 0.05,
    maxTotalDrawdownPct := 0.1, maxLossReference := Trailing, drawdownOnBalance := false,
    trailingDrawdownEnabled := false, trailingDrawdownPct := 0.0, minTradingDays := 3, timeLimitDays := Some(30),
    maxPositionLots := Some(5.0), maxTotalLots := Some(30.0), maxOpenPositions := Some(20), maxDailyTrades := Some(50),
    newsTradingAllowed := false, overnightHoldingAllowed := true, weekendHoldingAllowed := false,
    hedgingAllowed := true, gridTradingAllowed := true, requireStopLoss := false, requireTakeProfit := false,
    consistencyPct := Some(0.5), cooldownSeconds := 0, copyTradingAllowed := false, refundable := true,
    leverage := 100, tradingHours := None, hasTimezone := false, dayResetTime := 0, perTradeMaxLossPct := None,
    perTradeMaxLossMoney := None, hftBanEnabled := false, hftMinRoundTripSeconds := 60, inactivityDays := None,
    refundFeeAmount := 0.0, dailyLossType := PctPriorDay, dailyLossSoft := false,
    consistencyType := BestDayPctOfPositiveDays, eodTrailLocksAtStart := false, minProfitableDays := None,
    crossAccountHedgingProhibited := false, lowcapExposureLimitPct := None, consistencyAppliesOnFundedStage := false,
    qualifyingDayThresholdPct := None, qualifyingDayPnlBandPct := None,
    payoutConfig := Some(PayoutConfig(100.0, OnDemandCycle, [0.8, 0.9, 1.0])))

  /** The internal-consistency check a plan passes before use. */
  predicate Validated(p: ChallengePlan) {
    && p.initialBalanceMoney > 0.0
    && p.profitTargetPct >= 0.0
    && 0.0 <= p.maxDailyDrawdownPct <= 1.0
    && 0.0 <= p.maxTotalDrawdownPct <= 1.0
    && (p.consistencyPct.Some? ==> 0.0 <= p.consistencyPct.value <= 1.0)
    && (p.tradingHours.Some? ==> p.tradingHours.value.0 <= 24 && p.tradingHours.value.1 <= 24)
  }

  const DAY: int := 86400
  const HOUR: int := 3600

  /** Midnight of the UTC date that holds `t`. */
  function Midnight(t: Timestamp): Timestamp {
    t / DAY * DAY
  }

  /** Reset boundary at or before `now` (UTC calendar). */
  function TradingDayStart(p: ChallengePlan, now: Timestamp): Timestamp {
    var resetToday := Midnight(now) + p.dayResetTime * HOUR;
    if now >= resetToday then resetToday else resetToday - DAY
  }

  /** Reset time on the date after the date of `current` (UTC calendar). */
  function NextTradingDayStart(p: ChallengePlan, current: Timestamp): Timestamp {
    Midnight(current) + DAY + p.dayResetTime * HOUR
  }

  /** A time that is a reset boundary of the plan. */
  predicate IsBoundary(p: ChallengePlan, t: Timestamp) {
    t - Midnight(t) == p.dayResetTime * HOUR
  }

  lemma {:induction false} MidnightUnique(t: Timestamp, m: Timestamp)
    requires m % DAY == 0 && m <= t < m + DAY
    ensures Midnight(t) == m
  {
  }

  /** A trading day is exactly the boundary at or before the time, at most one day back. */
  lemma {:induction false} TradingDayStartIsBoundary(p: ChallengePlan, now: Timestamp)
    ensures var d := TradingDayStart(p, now); IsBoundary(p, d) && d <= now < d + DAY
  {
    var d := TradingDayStart(p, now);
    var resetToday := Midnight(now) + p.dayResetTime * HOUR;
    MidnightUnique(d, if now >= resetToday then Midnight(now) else Midnight(now) - DAY);
  }

  /** Consecutive boundaries are one day apart, and every boundary starts its own trading day. */
  lemma {:induction false} NextOfBoundary(p: ChallengePlan, t: Timestamp)
    requires IsBoundary(p, t)
    ensures NextTradingDayStart(p, t) == t + DAY
    ensures IsBoundary(p, t + DAY)
    ensures TradingDayStart(p, t) == t
  {
    MidnightUnique(t + DAY, Midnight(t) + DAY);
  }

  /** The next boundary is a boundary and lies strictly ahead, whatever the given time. */
  lemma {:induction false} NextAhead(p: ChallengePlan, t: Timestamp)
    ensures NextTradingDayStart(p, t) > t
    ensures IsBoundary(p, NextTradingDayStart(p, t))
  {
    MidnightUnique(NextTradingDayStart(p, t), Midnight(t) + DAY);
  }

  /** Two boundaries differ by a whole number of days. */
  lemma {:induction false} BoundariesWholeDays(p: ChallengePlan, s: Timestamp, t: Timestamp)
    requires IsBoundary(p, s) && IsBoundary(p, t)
    ensures (t - s) % DAY == 0
  {
    assert t - s == (t / DAY - s / DAY) * DAY;
  }
}
