/** The event pipeline: day catch-up, state transition, rule evaluation, decision. */
module Pipelines {
  import opened Common
  import opened Plans
  import opened Accounts
  import opened States
  import opened Payouts
  import opened Verdicts
  import opened Decisions
  import opened Evaluators
  import opened Registries
  import opened DomainEvents

  /** Inputs of the pipeline. `Ev` prefixes keep them apart from the domain events they cause. */
  datatype PipelineEvent =
    | EvStarted(at: Timestamp)
    | EvOrder(submittedAt: Timestamp)
    | EvTrade(trade: Trade)
    | EvTick(quote: Quote, brokerEquity: Money, brokerBalance: Money)
    | EvEstimate(quote: Quote)
    | EvRollover(hadTradesToday: bool)
    | EvEndOfDay
    | EvOnDemand
    | EvEmergencyStop(at: Timestamp)
    | EvOverride(accountId: int, reason: string, actorId: string, at: Timestamp)
    | EvPayoutRequest
    | EvPayoutApprove

  function EventTimestamp(ev: PipelineEvent, now: Timestamp): Timestamp {
    match ev
    case EvStarted(at) => at
    case EvOrder(at) => at
    case EvTrade(t) => t.executedAt
    case EvTick(q, _, _) => q.ts
    case EvEstimate(q) => q.ts
    case EvEmergencyStop(at) => at
    case EvOverride(_, _, _, at) => at
    case _ => now
  }

  datatype Outcome = Outcome(account: Account, events: seq<DomainEvent>)

  // ----- Day catch-up -----

  /** Resets passed on the way from a stored start to a later boundary: the first leads to the
      boundary after the stored date, the others are one day apart. */
  function Crossings(p: ChallengePlan, stored: Timestamp, boundary: Timestamp): nat {
    var next := NextTradingDayStart(p, stored);
    if stored >= boundary then 0
    else if next >= boundary then 1
    else 1 + (boundary - next) / DAY
  }

  predicate Behind(a: Account, ts: Timestamp) {
    a.currentTradingDayStart.Some? && a.currentTradingDayStart.value < TradingDayStart(a.plan, ts)
  }

  /** Number of days that an event at `ts` closes. */
  function DaysBehind(a: Account, ts: Timestamp): nat {
    if Behind(a, ts) then Crossings(a.plan, a.currentTradingDayStart.value, TradingDayStart(a.plan, ts)) else 0
  }

  /** The whole catch-up in one step: the day's result is booked once, the index jumps. */
  function CatchUp(a: Account, ts: Timestamp): Account {
    if Behind(a, ts) then
      OpenDay(BookDay(a, a.todayRealizedPnl != 0.0), a.tradingDayIndex + DaysBehind(a, ts), TradingDayStart(a.plan, ts))
    else a
  }

  /** From a boundary, the resets passed are exactly the days between. */
  lemma {:induction false} CrossingsFromBoundary(p: ChallengePlan, stored: Timestamp, boundary: Timestamp)
    requires IsBoundary(p, stored) && IsBoundary(p, boundary) && stored <= boundary
    ensures Crossings(p, stored, boundary) == (boundary - stored) / DAY
    ensures stored + Crossings(p, stored, boundary) * DAY == boundary
  {
    NextOfBoundary(p, stored);
    BoundariesWholeDays(p, stored, boundary);
  }

  /** State of the loop after `closed` rollovers from `a0`: booked once, standing on a boundary, the rest to go. */
  ghost predicate OnTheWay(a0: Account, ts: Timestamp, a: Account, closed: nat) {
    && a.currentTradingDayStart.Some?
    && var start, eventDay := a.currentTradingDayStart.value, TradingDayStart(a0.plan, ts);
    && IsBoundary(a0.plan, start) && start <= eventDay
    && a == OpenDay(BookDay(a0, a0.todayRealizedPnl != 0.0), a0.tradingDayIndex + closed, start)
    && closed + (eventDay - start) / DAY == DaysBehind(a0, ts)
  }

  /** The time the loop hands to a rollover: the event itself on the last day, the next reset before. */
  function LoopTarget(p: ChallengePlan, start: Timestamp, ts: Timestamp): Timestamp {
    var next := NextTradingDayStart(p, start);
    if next >= TradingDayStart(p, ts) then ts else next
  }

  lemma {:induction false} FirstRollover(a0: Account, ts: Timestamp, now: Timestamp)
    requires Behind(a0, ts)
    ensures var target := LoopTarget(a0.plan, a0.currentTradingDayStart.value, ts);
      OnTheWay(a0, ts, RolloverDay(a0, a0.todayRealizedPnl != 0.0, Some(target), now), 1)
  {
    var start := a0.currentTradingDayStart.value;
    var next := NextTradingDayStart(a0.plan, start);
    NextAhead(a0.plan, start);
    NextOfBoundary(a0.plan, next);
    TradingDayStartIsBoundary(a0.plan, ts);
  }

  lemma {:induction false} LaterRollover(a0: Account, ts: Timestamp, a: Account, closed: nat, now: Timestamp)
    requires OnTheWay(a0, ts, a, closed) && a.currentTradingDayStart.value < TradingDayStart(a0.plan, ts)
    ensures var target := LoopTarget(a0.plan, a.currentTradingDayStart.value, ts);
      OnTheWay(a0, ts, RolloverDay(a, false, Some(target), now), closed + 1)
  {
    var start, eventDay := a.currentTradingDayStart.value, TradingDayStart(a0.plan, ts);
    TradingDayStartIsBoundary(a0.plan, ts);
    NextOfBoundary(a0.plan, start);
    NextOfBoundary(a0.plan, start + DAY);
    BoundariesWholeDays(a0.plan, start, eventDay);
  }

  /** The engine's loop: one rollover per day until the stored start reaches the event's day. */
  method CatchUpDays(state: AccountState, ts: Timestamp, now: Timestamp) returns (rolled: bool)
    modifies state
    ensures rolled == Behind(old(state.account), ts)
    ensures state.account == CatchUp(old(state.account), ts)
  {
    ghost var a0 := state.account;
    var eventDay := TradingDayStart(state.account.plan, ts);
    var current := eventDay;
    if state.account.currentTradingDayStart.Some? {
      current := state.account.currentTradingDayStart.value;
    }
    rolled := eventDay > current;
    if !rolled {
      return;
    }
    ghost var closed := 0;
    var first := true;
    while state.account.currentTradingDayStart.None? || state.account.currentTradingDayStart.value < eventDay
      invariant state.account.currentTradingDayStart.Some?
      invariant if first then state.account == a0 else OnTheWay(a0, ts, state.account, closed)
      decreases eventDay - state.account.currentTradingDayStart.value
    {
      ghost var a := state.account;
      NextAhead(a0.plan, a.currentTradingDayStart.value);
      if first {
        FirstRollover(a0, ts, now);
      } else {
        LaterRollover(a0, ts, a, closed, now);
      }
      var hadTrades := if first then state.account.todayRealizedPnl != 0.0 else false;
      closed := if first then 1 else closed + 1;
      first := false;
      var next := NextTradingDayStart(state.account.plan, state.account.currentTradingDayStart.value);
      if next >= eventDay {
        state.Rollover(hadTrades, Some(ts), now);
      } else {
        state.Rollover(hadTrades, Some(next), now);
      }
    }
  }

  function CatchUpEvents(a: Account, ts: Timestamp): seq<DomainEvent> {
    if Behind(a, ts) then
      var b := CatchUp(a, ts);
      [DomainEvent(a.id, DayRolledOver(b.tradingDayIndex, b.dayStartBalance), ts)]
    else []
  }

  // ----- State transition of one event -----

  function TradesSince(trades: seq<Trade>, start: Timestamp): seq<Trade> {
    if trades == [] then []
    else
      var rest := TradesSince(Front(trades), start);
      if Last(trades).executedAt >= start then rest + [Last(trades)] else rest
  }

  /** Fills of earlier days are dropped before an event is applied. */
  function DropOldTrades(a: Account, ts: Timestamp): Account {
    a.(todayTrades := TradesSince(a.todayTrades, TradingDayStart(a.plan, ts)))
  }

  function FindPosition(ps: seq<Position>, id: int): Option<Position> {
    if ps == [] then None else if ps[0].id == id then Some(ps[0]) else FindPosition(ps[1..], id)
  }

  function WithoutPosition(ps: seq<Position>, id: int): seq<Position> {
    if ps == [] then []
    else
      var rest := WithoutPosition(Front(ps), id);
      if Last(ps).id == id then rest else rest + [Last(ps)]
  }

  /** The position a fill leaves behind: a new one, or the closed form of the one it exits. */
  function FillPosition(t: Trade, open: seq<Position>, freshId: int): Result<Position> {
    if !t.tradeSide.Exit? then
      Ok(Position(freshId, t.symbol, t.side, t.executedAt, None, Open, t.price, t.quantity, t.quantity, 0.0))
    else if t.exitInfo.None? then Err(Persistence)
    else
      var x := t.exitInfo.value;
      match FindPosition(open, x.positionId)
      case Some(p) =>
        Ok(p.(status := ClosedPosition, closedAt := Some(t.executedAt), realizedPnl := x.realizedPnl, openQuantity := 0.0))
      case None =>
        Ok(Position(x.positionId, t.symbol, t.side, t.executedAt, Some(t.executedAt), ClosedPosition,
                    x.entryPrice, x.closedQuantity, 0.0, x.realizedPnl))
  }

  const STALE_TICK_SECONDS: int := 10 * 60

  /** A broker tick is refused when more than ten whole minutes old or not newer than the last one. */
  predicate TickRefused(a: Account, q: Quote, now: Timestamp) {
    now - q.ts >= STALE_TICK_SECONDS + 60 || (a.lastTickTs.Some? && q.ts <= a.lastTickTs.value)
  }

  /** Unicode white space. */
  predicate IsSpace(c: char) {
    || '\U{9}' <= c <= '\U{D}' || c == ' ' || c == '\U{85}' || c == '\U{A0}' || c == '\U{1680}'
    || '\U{2000}' <= c <= '\U{200A}' || c == '\U{2028}' || c == '\U{2029}' || c == '\U{202F}'
    || c == '\U{205F}' || c == '\U{3000}'
  }

  predicate Blank(s: string) {
    forall c :: c in s ==> IsSpace(c)
  }

  function TradedAccount(a: Account, t: Trade): Account {
    MarkActiveDay(RealizePnl(a, GrossPnl(t), t.commission, t.swap, t.executedAt))
  }

  function PayoutRequestEvents(a: Account, quote: PayoutQuote, now: Timestamp): seq<DomainEvent> {
    [DomainEvent(a.id, PayoutRequested(quote.profitBasis, quote.amount), now)]
    + if a.status.PayoutPending? then []
      else [DomainEvent(a.id, AccountStatusChanged(a.status, PayoutPending), now)]
  }

  function ApproveOutcome(a: Account, c: PayoutConfig, now: Timestamp): Result<Outcome> {
    var quote := OwnQuote(a, c, now);
    if quote.rejected.Some? then Err(InvalidState)
    else
      match Paid(a, quote.amount, quote.feeRefund, now)
      case Err(e) => Err(e)
      case Ok(b) =>
        Ok(Outcome(b.(refundUsed := b.refundUsed || quote.feeRefund > 0.0),
                   [DomainEvent(a.id, PayoutApproved(quote.amount, quote.feeRefund), now)]))
  }

  function RequestOutcome(a: Account, c: PayoutConfig, now: Timestamp): Result<Outcome> {
    var quote := OwnQuote(a, c, now);
    if quote.rejected.Some? then Err(InvalidState)
    else
      match MarkPayoutPending(a)
      case Err(e) => Err(e)
      case Ok(b) => Ok(Outcome(b, PayoutRequestEvents(a, quote, now)))
  }

  /** The account and events of one input, before any rule runs. */
  function Transition(a: Account, ev: PipelineEvent, now: Timestamp): Result<Outcome> {
    match ev
    case EvStarted(at) =>
      (match Start(a, at)
       case Err(e) => Err(e)
       case Ok(b) => Ok(Outcome(b, [DomainEvent(a.id, AccountStarted(a.plan), at)])))
    case EvOrder(_) => Ok(Outcome(a, []))
    case EvTrade(t) =>
      if t.tradeSide.Exit? && t.exitInfo.None? then Err(Persistence)
      else Ok(Outcome(TradedAccount(a, t), [DomainEvent(a.id, TradeFilled(t), t.executedAt)]))
    case EvTick(q, equity, balance) =>
      if TickRefused(a, q, now) then Err(TickRejected)
      else Ok(Outcome(BrokerReport(a, equity, balance), [DomainEvent(a.id, TickEvaluated(equity), q.ts)]))
    case EvEstimate(q) =>
      var equity := EquityAfterTick(a.balance, a.openPositions, q);
      Ok(Outcome(Estimate(a, equity, a.balance), [DomainEvent(a.id, TickEvaluated(equity), q.ts)]))
    case EvRollover(had) =>
      var b := RolloverDay(a, had, None, now);
      Ok(Outcome(b, [DomainEvent(a.id, DayRolledOver(b.tradingDayIndex, b.dayStartBalance), now)]))
    case EvEndOfDay => Ok(Outcome(a, []))
    case EvOnDemand => Ok(Outcome(a, []))
    case EvEmergencyStop(at) =>
      Ok(Outcome(Stop(a), [DomainEvent(a.id, AccountStatusChanged(a.status, EmergencyStopped), at)]))
    case EvOverride(accountId, reason, actorId, at) =>
      if Blank(reason) || Blank(actorId) || accountId != a.id then Err(InvalidState)
      else
        (match ClearBreach(a)
         case Err(e) => Err(e)
         case Ok(b) =>
           Ok(Outcome(b, [DomainEvent(a.id, AccountStatusChanged(Failed, Active), at),
                          DomainEvent(a.id, OverrideCleared, at)])))
    case EvPayoutRequest =>
      if a.plan.payoutConfig.None? then Err(InvalidState) else RequestOutcome(a, a.plan.payoutConfig.value, now)
    case EvPayoutApprove =>
      if a.plan.payoutConfig.None? then Err(InvalidState) else ApproveOutcome(a, a.plan.payoutConfig.value, now)
  }

  function ContextKind(ev: PipelineEvent): RuleContextKind {
    match ev
    case EvOrder(_) => OnOrderSubmit
    case EvTrade(_) => OnTradeFill
    case EvTick(_, _, _) => OnTick
    case EvEstimate(_) => OnTick
    case EvRollover(_) => OnDayRollover
    case EvEndOfDay => OnEndOfDay
    case _ => OnDemand
  }

  /** The position and trade lists that an event finds. */
  datatype Lists = Lists(positions: seq<Position>, trades: seq<Trade>)

  function ListsOf(a: Account): Lists {
    Lists(a.openPositions, a.todayTrades)
  }

  /** The rules see the account after the transition, with the lists from before it: a fill is not yet among them, and
      a rollover still shows the fills of the day it closed. */
  function BuildContext(b: Account, lists: Lists, ev: PipelineEvent, now: Timestamp): RuleContext {
    RuleContext(
      b, lists.positions, lists.trades,
      if ev.EvTrade? then Some(ev.trade) else None,
      ContextKind(ev),
      match ev
      case EvTick(_, equity, balance) => BrokerReported(equity, balance)
      case EvEstimate(_) => Estimated(b.estimatedEquity, b.estimatedBalance)
      case _ => Estimated(0.0, 0.0),
      now)
  }

  /** After the rules, a fill enters the position and trade lists. */
  function ConsumeFill(b: Account, ev: PipelineEvent, freshId: int): Account {
    if !ev.EvTrade? then b
    else
      match FillPosition(ev.trade, b.openPositions, freshId)
      case Err(_) => b
      case Ok(p) =>
        var rest := WithoutPosition(b.openPositions, p.id);
        b.(openPositions := if IsOpen(p) then rest + [p] else rest, todayTrades := b.todayTrades + [ev.trade])
  }

  // ----- Decision -----

  function NextPhase(p: ChallengePhase): ChallengePhase {
    match p
    case Phase1 => Phase2
    case Phase2 => Funded
    case Funded => Phase1
  }

  /** Target hit, still pending, and enough active days. */
  predicate Eligible(a: Account) {
    a.targetReachedAt.Some? && a.status.TargetHitPending? && a.activeTradingDays >= a.plan.minTradingDays
  }

  /** A promoted account starts its next phase from its current balance and equity. */
  function FreshPhase(a: Account): Account {
    a.(status := Active,
       targetReachedAt := None,
       targetReachedOnDay := None,
       activeTradingDays := 0,
       tradingDayIndex := 0,
       dayCountedToday := false,
       todayRealizedPnl := 0.0,
       largestDayProfit := 0.0,
       largestDayLoss := 0.0,
       sumPositiveDaysProfit := 0.0,
       dayStartBalance := a.balance,
       dayStartEquity := a.equity,
       currentTradingDayStart := None,
       peakEquity := a.equity,
       peakBalance := a.balance)
  }

  /** The account once a target hit has been stamped. */
  function AfterTarget(a: Account, d: Decision, at: Timestamp): Account {
    if d.kind == KTargetHit then MarkTargetReached(a, at) else a
  }

  function TargetEvents(a: Account, d: Decision, at: Timestamp): seq<DomainEvent> {
    if d.kind == KTargetHit then [DomainEvent(a.id, AccountStatusChanged(a.status, TargetHitPending), at)] else []
  }

  /** A hit target with enough days promotes; from the funded phase there is nowhere to go. */
  function AfterPromotion(a: Account): Result<Account> {
    if !Eligible(a) then Ok(a)
    else
      match UpgradePhase(a, NextPhase(a.plan.phase))
      case Err(e) => Err(e)
      case Ok(b) => Ok(FreshPhase(b))
  }

  function PromotionEvents(a: Account, at: Timestamp): seq<DomainEvent> {
    if !Eligible(a) then []
    else
      [DomainEvent(a.id, AccountStatusChanged(TargetHitPending, Passed), at),
       DomainEvent(a.id, PlanUpgraded(a.plan.phase, NextPhase(a.plan.phase)), at)]
  }

  function AfterTermination(a: Account, d: Decision): Account {
    match StatusTarget(d.kind)
    case None => a
    case Some(s) => a.(statusBeforeBreach := Some(a.status), status := s)
  }

  function FirstSevere(vs: seq<Violation>): Option<ViolationKind> {
    if vs == [] then None
    else if vs[0].severity.LiquidateSeverity? then Some(vs[0].kind)
    else FirstSevere(vs[1..])
  }

  function ReasonOf(d: Decision): LiquidationReason {
    if d.kind == KEmergency then EmergencyStopReason
    else if FirstSevere(d.allViolations).Some? then RuleBreach(FirstSevere(d.allViolations).value)
    else RuleBreach(if d.allViolations == [] then CustomKind else d.allViolations[0].kind)
  }

  function OpenOnly(ps: seq<Position>): seq<Position> {
    if ps == [] then []
    else if IsOpen(Last(ps)) then OpenOnly(Front(ps)) + [Last(ps)]
    else OpenOnly(Front(ps))
  }

  function TerminationEvents(a: Account, d: Decision, at: Timestamp): seq<DomainEvent> {
    match StatusTarget(d.kind)
    case None => []
    case Some(s) =>
      [DomainEvent(a.id, AccountStatusChanged(a.status, s), at)]
      + if d.kind == KLiquidate || d.kind == KEmergency
        then [DomainEvent(a.id, LiquidationRequested(OpenOnly(a.openPositions), ReasonOf(d)), at)] else []
  }

  function ApplyDecision(a: Account, d: Decision, at: Timestamp): Result<Outcome> {
    var hit := AfterTarget(a, d, at);
    match AfterPromotion(hit)
    case Err(e) => Err(e)
    case Ok(b) =>
      Ok(Outcome(AfterTermination(b, d),
                 TargetEvents(a, d, at) + PromotionEvents(hit, at) + TerminationEvents(b, d, at)))
  }

  // ----- The whole step -----

  /** One input with the clock, the next unused position id, and whatever the rules reported on it. */
  datatype Input = Input(event: PipelineEvent, now: Timestamp, freshId: int, reports: seq<RuleReport>)

  /** The account an input is applied to, once the days are caught up. */
  function Ready(a: Account, ev: PipelineEvent, now: Timestamp): Account {
    var ts := EventTimestamp(ev, now);
    DropOldTrades(if ev.EvRollover? then a else CatchUp(a, ts), ts)
  }

  function ReadyEvents(a: Account, ev: PipelineEvent, now: Timestamp): seq<DomainEvent> {
    if ev.EvRollover? then [] else CatchUpEvents(a, EventTimestamp(ev, now))
  }

  function StampTick(a: Account, ev: PipelineEvent): Account {
    match ev
    case EvTick(q, _, _) => a.(lastTickTs := Some(q.ts))
    case EvEstimate(q) => a.(lastTickTs := Some(q.ts))
    case _ => a
  }

  function ViolationEvents(id: int, vs: seq<Violation>, at: Timestamp): seq<DomainEvent> {
    if vs == [] then [] else ViolationEvents(id, Front(vs), at) + [DomainEvent(id, RuleViolated(Last(vs)), at)]
  }

  /** Events that close a step: an extra status event on a failing decision, then one per violation. */
  function ClosingEvents(id: int, reports: seq<RuleReport>, now: Timestamp): seq<DomainEvent> {
    var k := Arbitrate(reports).kind;
    (if k == KFail || k == KLiquidate then [DomainEvent(id, AccountStatusChanged(Active, Failed), now)] else [])
    + ViolationEvents(id, ViolationsOf(reports), now)
  }

  /** What follows the transition: the fill is consumed and the decision carried out. */
  function Conclude(b: Account, i: Input): Result<Outcome> {
    match ApplyDecision(ConsumeFill(b, i.event, i.freshId), Arbitrate(i.reports), i.now)
    case Err(e) => Err(e)
    case Ok(d) => Ok(Outcome(StampTick(d.account, i.event), d.events + ClosingEvents(b.id, i.reports, i.now)))
  }

  /** The step on an account, given what the rules report: the universal form over all rule sets. */
  function Step(a: Account, i: Input): Result<Outcome> {
    match Transition(Ready(a, i.event, i.now), i.event, i.now)
    case Err(e) => Err(e)
    case Ok(t) =>
      match Conclude(t.account, i)
      case Err(e) => Err(e)
      case Ok(d) => Ok(Outcome(d.account, ReadyEvents(a, i.event, i.now) + t.events + d.events))
  }

  /** The step under a given rule set: the rules report on the account after the transition. */
  function StepWithRules(rules: seq<Rule>, a: Account, ev: PipelineEvent, now: Timestamp, freshId: int): Result<Outcome> {
    var r := Ready(a, ev, now);
    match Transition(r, ev, now)
    case Err(e) => Err(e)
    case Ok(t) => Step(a, Input(ev, now, freshId, EvaluateRules(rules, BuildContext(t.account, ListsOf(r), ev, now))))
  }
}
