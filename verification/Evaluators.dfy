/** Rule context and the money rules of the default library. */
module Evaluators {
  import opened Common
  import opened Plans
  import opened Accounts
  import opened Verdicts

  datatype RuleContextKind = OnOrderSubmit | OnTradeFill | OnTick | OnDayRollover | OnEndOfDay | OnDemand

  /** Who vouches for the equity: only a broker report may end an account. */
  datatype EquityInput =
    | BrokerReported(equity: Money, balance: Money)
    | Estimated(equity: Money, balance: Money)

  datatype RuleContext = RuleContext(
    account: Account,
    openPositions: seq<Position>,
    todayTrades: seq<Trade>,
    latestTrade: Option<Trade>,
    kind: RuleContextKind,
    equityInput: EquityInput,
    serverTime: Timestamp)

  datatype RuleUnit = Percent | MoneyUnit

  datatype FailurePolicy = WarnPolicy | SoftFailPolicy | FailPolicy | GapFlaggedPolicy

  /** Settings bound from a rule-pack entry; a rule without them reads the plan. */
  datatype RuleParams = RuleParams(
    value: Option<real>,
    unit: Option<RuleUnit>,
    basis: Option<LossReference>,
    toleranceCents: Option<int>,
    priority: Option<nat>,
    earlyWarningPct: Option<real>,
    enabled: bool,
    failurePolicy: Option<FailurePolicy>)

  type Params = Option<RuleParams>

  function Tolerance(p: Params): Money {
    if p.Some? && p.value.toleranceCents.Some? then p.value.toleranceCents.value as real / 100.0 else 0.01
  }

  function WarnPct(p: Params): real {
    if p.Some? && p.value.earlyWarningPct.Some? then p.value.earlyWarningPct.value else 0.8
  }

  // ----- Maximum drawdown -----

  function EffectiveBasis(p: Params, plan: ChallengePlan): LossReference {
    if p.Some? && p.value.basis.Some? then p.value.basis.value else plan.maxLossReference
  }

  /** The balance or equity that the floor of a mode is anchored on. */
  function Anchor(basis: LossReference, a: Account): Money {
    match basis
    case Static => a.initialBalance
    case Trailing => a.peakBalance
    case EodTrailing => a.dayStartBalance
    case IntradayTrail => if a.plan.drawdownOnBalance then a.peakBalance else a.peakEquity
  }

  /** The loss fraction; an absolute money value is first divided by the anchor. */
  function EffectivePct(p: Params, a: Account): real {
    if p.Some? && p.value.value.Some? then
      var v := p.value.value.value;
      var reference := Anchor(EffectiveBasis(p, a.plan), a);
      if p.value.unit == Some(MoneyUnit) && reference != 0.0 then v / reference else v
    else a.plan.maxTotalDrawdownPct
  }

  function Floor(basis: LossReference, pct: real, a: Account): Money {
    match basis
    case EodTrailing =>
      var unlocked := a.dayStartBalance - pct * a.initialBalance;
      if a.plan.eodTrailLocksAtStart then Min(unlocked, a.initialBalance) else unlocked
    case _ => Anchor(basis, a) - pct * Anchor(basis, a)
  }

  function CurrentValue(a: Account, equity: Money): Money {
    if a.plan.drawdownOnBalance then a.balance else equity
  }

  predicate MaxDrawdownEnabled(p: Params, ctx: RuleContext) {
    (p.Some? ==> p.value.enabled) && EffectivePct(p, ctx.account) > 0.0
  }

  function EvaluateMaxDrawdown(p: Params, ctx: RuleContext): Result<RuleVerdict> {
    var a := ctx.account;
    var pct := EffectivePct(p, a);
    if pct <= 0.0 then Ok(Pass)
    else if a.startedAt.None? || ctx.equityInput.Estimated? then Ok(GapFlagged(Plain(MaxDrawdown, Info)))
    else
      var basis := EffectiveBasis(p, a.plan);
      var current := CurrentValue(a, ctx.equityInput.equity);
      var floor := Floor(basis, pct, a);
      var dd := Max(Anchor(basis, a) - current, 0.0);
      var limit := Max(Anchor(basis, a) - floor, 0.0);
      if current < floor - Tolerance(p) then
        Ok(Liquidate(WithBreach(MaxDrawdown, LiquidateSeverity, dd, limit)))
      else if current <= floor + limit * WarnPct(p) then
        Ok(EarlyWarning(WithBreach(MaxDrawdown, Warning, dd, limit)))
      else Ok(Pass)
  }

  // ----- Daily drawdown -----

  function DailyPct(p: Params, a: Account): real {
    if p.Some? && p.value.value.Some? then p.value.value.value else a.plan.maxDailyDrawdownPct
  }

  function DayStart(a: Account): Money {
    if a.plan.drawdownOnBalance then a.dayStartBalance else a.dayStartEquity
  }

  /** What the daily loss is measured from. */
  function DailyAnchor(a: Account): Money {
    match a.plan.dailyLossType
    case TrailingIntradayHigh => if a.plan.drawdownOnBalance then a.peakBalance else a.intradayPeakEquity
    case _ => DayStart(a)
  }

  /** What the daily loss is a fraction of. */
  function DailyReference(a: Account): Money {
    if a.plan.dailyLossType.PctInitial? then a.initialBalance else DailyAnchor(a)
  }

  predicate DailyDrawdownEnabled(p: Params, ctx: RuleContext) {
    (p.Some? ==> p.value.enabled) && DailyPct(p, ctx.account) > 0.0
  }

  function EvaluateDailyDrawdown(p: Params, ctx: RuleContext): Result<RuleVerdict> {
    var a := ctx.account;
    var pct := DailyPct(p, a);
    if pct <= 0.0 then Ok(Pass)
    else if a.startedAt.None? || ctx.equityInput.Estimated? then Ok(GapFlagged(Plain(DailyDrawdown, Info)))
    else if a.plan.dailyLossType.NoDailyLoss? then Ok(Pass)
    else
      var current := CurrentValue(a, a.equity);
      var dd := Max(DailyAnchor(a) - current, 0.0);
      var limit := pct * DailyReference(a);
      if dd > limit + Tolerance(p) then
        if a.plan.dailyLossSoft then Ok(EarlyWarning(WithBreach(DailyDrawdown, Warning, dd, limit)))
        else Ok(Liquidate(WithBreach(DailyDrawdown, LiquidateSeverity, dd, limit)))
      else if dd >= limit * WarnPct(p) then
        // The warning text divides by the limit: a zero limit aborts the rule.
        if limit == 0.0 then Err(RulePanic)
        else Ok(EarlyWarning(WithBreach(DailyDrawdown, Warning, dd, limit)))
      else Ok(Pass)
  }

  // ----- Trailing drawdown -----

  function EffectiveTrailMoney(p: Params, a: Account): Option<Money> {
    if p.Some? then
      if !p.value.enabled || p.value.value.None? then None
      else if p.value.unit == Some(MoneyUnit) then Some(p.value.value.value)
      else Some(p.value.value.value * a.peakEquity)
    else if !a.plan.trailingDrawdownEnabled then None
    else Some(a.plan.trailingDrawdownPct * a.peakEquity)
  }

  predicate TrailingDrawdownEnabled(p: Params, ctx: RuleContext) {
    if p.Some? then p.value.enabled && p.value.value.Some?
    else ctx.account.plan.trailingDrawdownEnabled && ctx.account.plan.trailingDrawdownPct > 0.0
  }

  function EvaluateTrailingDrawdown(p: Params, ctx: RuleContext): Result<RuleVerdict> {
    var a := ctx.account;
    var trail := EffectiveTrailMoney(p, a);
    if trail.None? then Ok(Pass)
    else if a.startedAt.None? || ctx.equityInput.Estimated? then Ok(GapFlagged(Plain(TrailingDrawdown, Info)))
    else
      var equity := ctx.equityInput.equity;
      var floor := a.peakEquity - trail.value;
      var warnFloor := floor + trail.value * 0.2;
      if equity < floor then
        Ok(Liquidate(WithBreach(TrailingDrawdown, LiquidateSeverity, floor - equity, trail.value)))
      else if equity < warnFloor then
        Ok(EarlyWarning(WithBreach(TrailingDrawdown, Warning, warnFloor - equity, trail.value)))
      else Ok(Pass)
  }

  // ----- Per-trade maximum loss -----

  function EffectiveLimitMoney(p: Params, a: Account): Option<Money> {
    if p.Some? then
      if p.value.unit == Some(MoneyUnit) then Some(if p.value.value.Some? then p.value.value.value else 0.0)
      else if p.value.value.None? then None
      else Some(p.value.value.value * a.balance)
    else
      match (a.plan.perTradeMaxLossPct, a.plan.perTradeMaxLossMoney)
      case (Some(pct), Some(m)) => Some(Min(pct * a.balance, m))
      case (Some(pct), None) => Some(pct * a.balance)
      case (None, Some(m)) => Some(m)
      case (None, None) => None
  }

  predicate PerTradeMaxLossEnabled(p: Params, ctx: RuleContext) {
    if p.Some? then p.value.enabled && p.value.value.Some?
    else ctx.account.plan.perTradeMaxLossPct.Some? || ctx.account.plan.perTradeMaxLossMoney.Some?
  }

  function EvaluatePerTradeMaxLoss(p: Params, ctx: RuleContext): Result<RuleVerdict> {
    if ctx.latestTrade.None? then Ok(Pass)
    else
      var t := ctx.latestTrade.value;
      var limit := EffectiveLimitMoney(p, ctx.account);
      if !t.tradeSide.Exit? || t.exitInfo.None? || GrossPnl(t) >= 0.0 || limit.None? then Ok(Pass)
      else if -GrossPnl(t) > limit.value + Tolerance(p) then
        if ctx.equityInput.BrokerReported? then Ok(Liquidate(Plain(PerTradeMaxLoss, LiquidateSeverity)))
        else Ok(Warn(Plain(PerTradeMaxLoss, Warning)))
      else if -GrossPnl(t) >= limit.value * 0.8 then Ok(EarlyWarning(Plain(PerTradeMaxLoss, Warning)))
      else Ok(Pass)
  }

  // ----- Consistency -----

  /** The cap as a fraction; `None` when nothing is configured. */
  function EffectiveCap(p: Params, a: Account): Option<real> {
    if p.Some? then
      if !p.value.enabled || p.value.value.None? || a.sumPositiveDaysProfit == 0.0 then None
      else if p.value.unit == Some(MoneyUnit) then Some(p.value.value.value / a.sumPositiveDaysProfit)
      else p.value.value
    else a.plan.consistencyPct
  }

  function ConsistencyDenominator(t: ConsistencyType, a: Account): Money {
    match t
    case NoConsistency => 0.0
    case BestDayPctOfTotal => a.totalRealizedPnl
    case BestDayPctOfPositiveDays => a.sumPositiveDaysProfit
  }

  predicate ConsistencyEnabled(p: Params, ctx: RuleContext) {
    if p.Some? then p.value.enabled && p.value.value.Some?
    else
      && !(ctx.account.plan.phase.Funded? && !ctx.account.plan.consistencyAppliesOnFundedStage)
      && ctx.account.plan.consistencyPct.Some?
  }

  function EvaluateConsistency(p: Params, ctx: RuleContext): Result<RuleVerdict> {
    var a := ctx.account;
    var cap := EffectiveCap(p, a);
    var denominator := ConsistencyDenominator(a.plan.consistencyType, a);
    if a.plan.consistencyType.NoConsistency? || cap.None? then Ok(Pass)
    else if denominator <= 0.0 || a.largestDayProfit <= 0.0 then Ok(Pass)
    else if a.largestDayProfit > cap.value * denominator then
      Ok(Warn(WithBreach(Consistency, Warning, a.largestDayProfit, cap.value * denominator)))
    else Ok(Pass)
  }

  // ----- Profit target -----

  function TargetAmount(p: Params, a: Account): Money {
    if p.Some? && p.value.value.Some? then
      if p.value.unit == Some(MoneyUnit) then p.value.value.value else p.value.value.value * a.initialBalance
    else a.plan.profitTargetPct * a.initialBalance
  }

  predicate ProfitTargetEnabled(p: Params, ctx: RuleContext) {
    if p.Some? then p.value.enabled else ctx.account.plan.profitTargetPct > 0.0
  }

  function EvaluateProfitTarget(p: Params, ctx: RuleContext): Result<RuleVerdict> {
    var a := ctx.account;
    var target := TargetAmount(p, a);
    var net := a.balance - a.initialBalance;
    if (p.Some? && !p.value.enabled) || target <= 0.0 then Ok(Pass)
    else if a.targetReachedAt.None? && net >= target then
      Ok(TargetHit(WithBreach(ProfitTarget, Info, Max(net, 0.0), target)))
    else if a.targetReachedAt.Some? then Ok(Pass)
    else if a.deadline.Some? && ctx.serverTime > a.deadline.value then
      Ok(Fail(WithBreach(ProfitTarget, Hard, target, target)))
    else Ok(Pass)
  }

  // ----- Laws of the drawdown arithmetic -----

  /** The locked end-of-day floor is held at the initial balance. */
  predicate LockBinds(pct: real, a: Account) {
    a.plan.eodTrailLocksAtStart && a.dayStartBalance - pct * a.initialBalance > a.initialBalance
  }

  /** When an absolute limit `v` lies that many dollars below its anchor. In the end-of-day mode the buffer is scaled by
      initial over day-start balance and the lock may hold the floor; elsewhere only a zero anchor spoils it. */
  predicate KeepsDollars(basis: LossReference, v: Money, pct: real, a: Account) {
    if !basis.EodTrailing? then v == 0.0 || Anchor(basis, a) != 0.0
    else if LockBinds(pct, a) then a.dayStartBalance - a.initialBalance == v
    else v == 0.0 || a.initialBalance == if a.dayStartBalance == 0.0 then 1.0 else a.dayStartBalance
  }

  /** A money-unit limit keeps its dollar meaning exactly under that condition, in all four modes. */
  lemma {:induction false} MoneyUnitKeepsItsDollars(p: Params, a: Account)
    requires p.Some? && p.value.unit == Some(MoneyUnit) && p.value.value.Some?
    ensures var basis, v, pct := EffectiveBasis(p, a.plan), p.value.value.value, EffectivePct(p, a);
      Floor(basis, pct, a) == Anchor(basis, a) - v <==> KeepsDollars(basis, v, pct, a)
  {
    var basis, v := EffectiveBasis(p, a.plan), p.value.value.value;
    if basis.EodTrailing? {
      ScaledBuffer(v, if a.dayStartBalance == 0.0 then 1.0 else a.dayStartBalance, a.initialBalance);
    } else if Anchor(basis, a) != 0.0 {
      ScaledBuffer(v, Anchor(basis, a), Anchor(basis, a));
    }
  }

  /** A drifting limit: 500 dollars under the end-of-day mode are not 500 dollars on a day that opened at 11000. */
  lemma {:induction false} EndOfDayMoneyDrifts(p: RuleParams)
    requires p.unit == Some(MoneyUnit) && p.value == Some(500.0) && p.basis.None?
    ensures var a := NewAccount(0, DEFAULT_PLAN.(maxLossReference := EodTrailing)).(dayStartBalance := 11000.0);
      Floor(EodTrailing, EffectivePct(Some(p), a), a) != 10500.0
  {
    MoneyUnitKeepsItsDollars(
      Some(p), NewAccount(0, DEFAULT_PLAN.(maxLossReference := EodTrailing)).(dayStartBalance := 11000.0));
  }

  lemma {:induction false} ScaledBuffer(v: real, r: real, i: real)
    requires r != 0.0
    ensures v / r * i == v <==> v == 0.0 || i == r
  {
    var q := v / r;
    assert q * r == v;
    if q * i == v {
      assert q * (i - r) == 0.0;
    }
  }

  /** Breach against a floor, as every mode of the maximum-drawdown rule tests it. */
  predicate Breaches(basis: LossReference, pct: real, tolerance: Money, a: Account, current: Money) {
    current < Floor(basis, pct, a) - tolerance
  }

  /** The rule liquidates exactly on a started, broker-reported account below its floor less the tolerance. */
  lemma {:induction false} LiquidatesIffBreached(p: Params, ctx: RuleContext)
    ensures var a := ctx.account; var v := EvaluateMaxDrawdown(p, ctx);
      v.Ok? && (v.value.Liquidate? <==>
        && EffectivePct(p, a) > 0.0 && a.startedAt.Some? && ctx.equityInput.BrokerReported?
        && Breaches(EffectiveBasis(p, a.plan), EffectivePct(p, a), Tolerance(p), a,
                    CurrentValue(a, ctx.equityInput.equity)))
  {
  }

  lemma {:induction false} UseAgainstWarning(anchor: Money, floor: Money, current: Money, share: real)
    ensures current <= floor + (anchor - floor) * share <==> anchor - current >= (anchor - floor) * (1.0 - share)
  {
    assert (anchor - floor) * (1.0 - share) == (anchor - floor) - (anchor - floor) * share;
  }

  /** Short of a breach the rule warns exactly once the loss has used up the complement of the configured share, so with
      the default of 80% it warns from 20% of the limit on. */
  lemma {:induction false} WarnsFromTheComplement(p: Params, ctx: RuleContext)
    requires var a := ctx.account; EffectivePct(p, a) > 0.0 && a.startedAt.Some? && ctx.equityInput.BrokerReported?
    requires var a := ctx.account; var basis := EffectiveBasis(p, a.plan);
      Floor(basis, EffectivePct(p, a), a) <= Anchor(basis, a)
    ensures var a := ctx.account; var v := EvaluateMaxDrawdown(p, ctx);
      var basis, current := EffectiveBasis(p, a.plan), CurrentValue(a, ctx.equityInput.equity);
      var limit := Anchor(basis, a) - Floor(basis, EffectivePct(p, a), a);
      v.Ok? && (v.value.EarlyWarning? <==>
        && !Breaches(basis, EffectivePct(p, a), Tolerance(p), a, current)
        && Anchor(basis, a) - current >= limit * (1.0 - WarnPct(p)))
  {
    var a := ctx.account;
    var basis := EffectiveBasis(p, a.plan);
    UseAgainstWarning(Anchor(basis, a), Floor(basis, EffectivePct(p, a), a),
                      CurrentValue(a, ctx.equityInput.equity), WarnPct(p));
  }

  /** The consistency rule's warning on the same account under a given denominator and cap. */
  predicate Warns(ctx: RuleContext, t: ConsistencyType, cap: real) {
    var plan := ctx.account.plan.(consistencyType := t, consistencyPct := Some(cap));
    var v := EvaluateConsistency(None, ctx.(account := ctx.account.(plan := plan)));
    v.Ok? && v.value.Warn?
  }

  lemma {:induction false} WarnsIff(ctx: RuleContext, t: ConsistencyType, cap: real)
    requires !t.NoConsistency?
    ensures var a := ctx.account; var denominator := ConsistencyDenominator(t, a);
      Warns(ctx, t, cap) <==> denominator > 0.0 && a.largestDayProfit > 0.0 && a.largestDayProfit > cap * denominator
  {
  }

  /** With a positive cap that the best day meets exactly against the total, only the smaller sum is exceeded. */
  lemma {:induction false} SeparatingCap(best: Money, total: Money, positive: Money)
    requires best > 0.0 && 0.0 < positive < total
    ensures var cap := best / total; cap > 0.0 && cap * total == best && cap * positive < best
  {
    var cap := best / total;
    assert cap * total == best;
    assert cap * (total - positive) > 0.0;
  }

  predicate BothPositive(a: Account) {
    a.largestDayProfit > 0.0 && a.totalRealizedPnl > 0.0 && a.sumPositiveDaysProfit > 0.0
  }

  lemma {:induction false} WarnsToo(ctx: RuleContext, cap: real)
    requires BothPositive(ctx.account) && ctx.account.totalRealizedPnl <= ctx.account.sumPositiveDaysProfit && cap >= 0.0
    requires Warns(ctx, BestDayPctOfPositiveDays, cap)
    ensures Warns(ctx, BestDayPctOfTotal, cap)
  {
    WarnsIff(ctx, BestDayPctOfPositiveDays, cap);
    WarnsIff(ctx, BestDayPctOfTotal, cap);
    MulMono(cap, ctx.account.totalRealizedPnl, ctx.account.sumPositiveDaysProfit);
  }

  lemma {:induction false} WarnsAlone(ctx: RuleContext)
    requires BothPositive(ctx.account) && ctx.account.totalRealizedPnl > ctx.account.sumPositiveDaysProfit
    ensures var cap := ctx.account.largestDayProfit / ctx.account.totalRealizedPnl;
      cap > 0.0 && Warns(ctx, BestDayPctOfPositiveDays, cap) && !Warns(ctx, BestDayPctOfTotal, cap)
  {
    var a := ctx.account;
    SeparatingCap(a.largestDayProfit, a.totalRealizedPnl, a.sumPositiveDaysProfit);
    WarnsIff(ctx, BestDayPctOfPositiveDays, a.largestDayProfit / a.totalRealizedPnl);
    WarnsIff(ctx, BestDayPctOfTotal, a.largestDayProfit / a.totalRealizedPnl);
  }

  /** A warning against the positive days implies one against the total, for every nonnegative cap. */
  ghost predicate TotalIsStricter(ctx: RuleContext) {
    forall cap: real :: cap >= 0.0 && Warns(ctx, BestDayPctOfPositiveDays, cap) ==> Warns(ctx, BestDayPctOfTotal, cap)
  }

  /** Once both denominators are positive, that holds exactly when the total does not exceed the positive days' sum. */
  lemma {:induction false} TotalIsTheStricterDenominator(ctx: RuleContext)
    requires BothPositive(ctx.account)
    ensures TotalIsStricter(ctx) <==> ctx.account.totalRealizedPnl <= ctx.account.sumPositiveDaysProfit
  {
    if ctx.account.totalRealizedPnl <= ctx.account.sumPositiveDaysProfit {
      forall cap: real | cap >= 0.0 && Warns(ctx, BestDayPctOfPositiveDays, cap)
        ensures Warns(ctx, BestDayPctOfTotal, cap)
      {
        WarnsToo(ctx, cap);
      }
    } else {
      WarnsAlone(ctx);
    }
  }

  lemma {:induction false} MulMono(k: real, x: real, y: real)
    requires k >= 0.0 && x <= y
    ensures k * x <= k * y
  {
  }
}
