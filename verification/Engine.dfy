/** The pipeline as the engine runs it: the working copy is updated in place, events are pushed in order. */
module Engines {
  import opened Common
  import opened Plans
  import opened Accounts
  import opened States
  import opened Payouts
  import opened Verdicts
  import opened Decisions
  import opened Registries
  import opened DomainEvents
  import opened Pipelines

  method RetainTrades(trades: seq<Trade>, start: Timestamp) returns (kept: seq<Trade>)
    ensures kept == TradesSince(trades, start)
  {
    kept := [];
    for i := 0 to |trades|
      invariant kept == TradesSince(trades[..i], start)
    {
      PrefixGrows(trades, i);
      if trades[i].executedAt >= start {
        kept := kept + [trades[i]];
      }
    }
    WholePrefix(trades);
  }

  method RetainPositions(ps: seq<Position>, id: int) returns (kept: seq<Position>)
    ensures kept == WithoutPosition(ps, id)
  {
    kept := [];
    for i := 0 to |ps|
      invariant kept == WithoutPosition(ps[..i], id)
    {
      PrefixGrows(ps, i);
      if ps[i].id != id {
        kept := kept + [ps[i]];
      }
    }
    WholePrefix(ps);
  }

  /** The reset that starts the next phase, field by field. */
  method ResetForPhase(state: AccountState)
    modifies state
    ensures state.account == FreshPhase(old(state.account))
  {
    state.account := state.account.(status := Active, targetReachedAt := None, targetReachedOnDay := None);
    state.account := state.account.(activeTradingDays := 0, tradingDayIndex := 0, dayCountedToday := false);
    state.account := state.account.(todayRealizedPnl := 0.0, largestDayProfit := 0.0, largestDayLoss := 0.0);
    state.account := state.account.(sumPositiveDaysProfit := 0.0);
    state.account := state.account.(dayStartBalance := state.account.balance);
    state.account := state.account.(dayStartEquity := state.account.equity);
    state.account := state.account.(currentTradingDayStart := None);
    state.account := state.account.(peakEquity := state.account.equity);
    state.account := state.account.(peakBalance := state.account.balance);
  }

  method Promote(state: AccountState, at: Timestamp) returns (ok: bool, events: seq<DomainEvent>)
    modifies state
    ensures ok == AfterPromotion(old(state.account)).Ok?
    ensures ok ==> state.account == AfterPromotion(old(state.account)).value
    ensures ok ==> events == PromotionEvents(old(state.account), at)
  {
    ok, events := true, [];
    if Eligible(state.account) {
      var fromPhase := state.account.plan.phase;
      var next := NextPhase(fromPhase);
      events := events + [DomainEvent(state.account.id, AccountStatusChanged(state.account.status, Passed), at)];
      state.account := state.account.(status := Passed);
      ok := state.TryUpgradePhase(next);
      if ok {
        ResetForPhase(state);
        events := events + [DomainEvent(state.account.id, PlanUpgraded(fromPhase, next), at)];
      }
    }
  }

  method ExecuteDecision(state: AccountState, d: Decision, at: Timestamp) returns (r: Result<seq<DomainEvent>>)
    modifies state
    ensures r.Ok? == ApplyDecision(old(state.account), d, at).Ok?
    ensures r.Err? ==> r.error == ApplyDecision(old(state.account), d, at).error
    ensures r.Ok? ==> Outcome(state.account, r.value) == ApplyDecision(old(state.account), d, at).value
  {
    var events: seq<DomainEvent> := [];
    if d.kind == KTargetHit {
      events := events + [DomainEvent(state.account.id, AccountStatusChanged(state.account.status, TargetHitPending), at)];
      state.StampTargetReached(at);
    }
    var ok, promoted := Promote(state, at);
    if !ok {
      return Err(InvalidState);
    }
    events := events + promoted;
    var target := StatusTarget(d.kind);
    if target.Some? {
      var ended := [DomainEvent(state.account.id, AccountStatusChanged(state.account.status, target.value), at)];
      state.account := state.account.(statusBeforeBreach := Some(state.account.status));
      state.account := state.account.(status := target.value);
      if d.kind == KLiquidate || d.kind == KEmergency {
        ended := ended
        + [DomainEvent(state.account.id, LiquidationRequested(OpenOnly(state.account.openPositions), ReasonOf(d)), at)];
      }
      events := events + ended;
    }
    r := Ok(events);
  }

  /** Payout inputs; the others are in `ApplyEvent`. */
  method ApplyPayout(state: AccountState, ev: PipelineEvent, now: Timestamp) returns (r: Result<seq<DomainEvent>>)
    requires ev.EvPayoutRequest? || ev.EvPayoutApprove?
    modifies state
    ensures r.Ok? == Transition(old(state.account), ev, now).Ok?
    ensures r.Err? ==> r.error == Transition(old(state.account), ev, now).error
    ensures r.Ok? ==> Outcome(state.account, r.value) == Transition(old(state.account), ev, now).value
  {
    if state.account.plan.payoutConfig.None? {
      return Err(InvalidState);
    }
    var quote := OwnQuote(state.account, state.account.plan.payoutConfig.value, now);
    if quote.rejected.Some? {
      return Err(InvalidState);
    }
    if ev.EvPayoutRequest? {
      var from := state.account.status;
      var ok := state.TryMarkPayoutPending();
      if !ok {
        return Err(InvalidState);
      }
      var events := [DomainEvent(state.account.id, PayoutRequested(quote.profitBasis, quote.amount), now)];
      if from != state.account.status {
        events := events + [DomainEvent(state.account.id, AccountStatusChanged(from, state.account.status), now)];
      }
      return Ok(events);
    }
    var ok := RecordPayout(state, quote.amount, quote.feeRefund, now);
    if !ok {
      return Err(InvalidState);
    }
    state.account := state.account.(refundUsed := state.account.refundUsed || quote.feeRefund > 0.0);
    r := Ok([DomainEvent(state.account.id, PayoutApproved(quote.amount, quote.feeRefund), now)]);
  }

  method ApplyEvent(state: AccountState, ev: PipelineEvent, now: Timestamp) returns (r: Result<seq<DomainEvent>>)
    modifies state
    ensures r.Ok? == Transition(old(state.account), ev, now).Ok?
    ensures r.Err? ==> r.error == Transition(old(state.account), ev, now).error
    ensures r.Ok? ==> Outcome(state.account, r.value) == Transition(old(state.account), ev, now).value
  {
    var id := state.account.id;
    match ev {
      case EvStarted(at) =>
        var started := Start(state.account, at);
        if started.Err? {
          return Err(started.error);
        }
        var event := DomainEvent(id, AccountStarted(state.account.plan), at);
        state.account := started.value;
        r := Ok([event]);
      case EvTrade(t) =>
        state.ApplyRealizedPnl(GrossPnl(t), t.commission, t.swap, t.executedAt);
        state.MarkActiveTradingDay();
        if t.tradeSide.Exit? && t.exitInfo.None? {
          return Err(Persistence);
        }
        r := Ok([DomainEvent(id, TradeFilled(t), t.executedAt)]);
      case EvTick(q, equity, balance) =>
        if TickRefused(state.account, q, now) {
          return Err(TickRejected);
        }
        state.UpdateEquity(equity);
        state.UpdateBalance(balance);
        r := Ok([DomainEvent(id, TickEvaluated(equity), q.ts)]);
      case EvEstimate(q) =>
        var equity := ValueAtQuote(state.account.balance, state.account.openPositions, q);
        state.SetEstimatedEquity(equity, state.account.balance);
        r := Ok([DomainEvent(id, TickEvaluated(equity), q.ts)]);
      case EvRollover(had) =>
        state.Rollover(had, None, now);
        r := Ok([DomainEvent(id, DayRolledOver(state.account.tradingDayIndex, state.account.dayStartBalance), now)]);
      case EvEmergencyStop(at) =>
        var from := state.account.status;
        state.EmergencyStop();
        r := Ok([DomainEvent(id, AccountStatusChanged(from, EmergencyStopped), at)]);
      case EvOverride(accountId, reason, actorId, at) =>
        if Blank(reason) || Blank(actorId) || accountId != id {
          return Err(InvalidState);
        }
        var ok := state.TryClearBreach();
        if !ok {
          return Err(InvalidState);
        }
        r := Ok([DomainEvent(id, AccountStatusChanged(Failed, Active), at), DomainEvent(id, OverrideCleared, at)]);
      case EvPayoutRequest => r := ApplyPayout(state, ev, now);
      case EvPayoutApprove => r := ApplyPayout(state, ev, now);
      case _ => r := Ok([]);
    }
  }

  method ApplyFill(state: AccountState, ev: PipelineEvent, freshId: int)
    modifies state
    ensures state.account == ConsumeFill(old(state.account), ev, freshId)
  {
    if ev.EvTrade? {
      var position := FillPosition(ev.trade, state.account.openPositions, freshId);
      if position.Ok? {
        var open := RetainPositions(state.account.openPositions, position.value.id);
        state.account := state.account.(openPositions := open);
        if IsOpen(position.value) {
          state.account := state.account.(openPositions := state.account.openPositions + [position.value]);
        }
        state.account := state.account.(todayTrades := state.account.todayTrades + [ev.trade]);
      }
    }
  }

  method CollectClosing(id: int, reports: seq<RuleReport>, kind: DecisionKind, now: Timestamp)
    returns (events: seq<DomainEvent>)
    requires kind == Arbitrate(reports).kind
    ensures events == ClosingEvents(id, reports, now)
  {
    var violations := ViolationsOf(reports);
    var found: seq<DomainEvent> := [];
    for i := 0 to |violations|
      invariant found == ViolationEvents(id, violations[..i], now)
    {
      PrefixGrows(violations, i);
      found := found + [DomainEvent(id, RuleViolated(violations[i]), now)];
    }
    WholePrefix(violations);
    events := [];
    if kind == KFail || kind == KLiquidate {
      events := [DomainEvent(id, AccountStatusChanged(Active, Failed), now)];
    }
    events := events + found;
  }

  class Pipeline {
    const registry: RuleRegistry

    constructor (r: RuleRegistry)
      ensures registry == r
    {
      registry := r;
    }

    /** Days are caught up and old fills dropped before the event is applied. */
    method Prepare(state: AccountState, ev: PipelineEvent, now: Timestamp) returns (events: seq<DomainEvent>)
      requires state as object != registry
      modifies state
      ensures state.account == Ready(old(state.account), ev, now)
      ensures events == ReadyEvents(old(state.account), ev, now)
    {
      var ts := EventTimestamp(ev, now);
      events := [];
      if !ev.EvRollover? {
        var rolled := CatchUpDays(state, ts, now);
        if rolled {
          events := [DomainEvent(state.account.id,
                                 DayRolledOver(state.account.tradingDayIndex, state.account.dayStartBalance), ts)];
        }
      }
      var trades := RetainTrades(state.account.todayTrades, TradingDayStart(state.account.plan, ts));
      state.account := state.account.(todayTrades := trades);
    }

    /** The first half of a step, up to rule evaluation. */
    method Advance(state: AccountState, ev: PipelineEvent, now: Timestamp)
      returns (r: Result<seq<DomainEvent>>, lists: Lists)
      requires state as object != registry
      modifies state
      ensures lists == ListsOf(Ready(old(state.account), ev, now))
      ensures var t := Transition(Ready(old(state.account), ev, now), ev, now);
        && r.Ok? == t.Ok?
        && (r.Err? ==> r.error == t.error)
        && (r.Ok? ==> state.account == t.value.account
                      && r.value == ReadyEvents(old(state.account), ev, now) + t.value.events)
    {
      var before := Prepare(state, ev, now);
      lists := Lists(state.account.openPositions, state.account.todayTrades);
      r := ApplyEvent(state, ev, now);
      if r.Ok? {
        r := Ok(before + r.value);
      }
    }

    /** The second half of a step, after rule evaluation. */
    method Finish(state: AccountState, i: Input) returns (r: Result<Outcome>)
      modifies state
      ensures r == Conclude(old(state.account), i)
    {
      var id := state.account.id;
      var decision := FromReports(i.reports);
      ApplyFill(state, i.event, i.freshId);
      var decided := ExecuteDecision(state, decision, i.now);
      if decided.Err? {
        return Err(decided.error);
      }
      state.account := StampTick(state.account, i.event);
      var closing := CollectClosing(id, i.reports, decision.kind, i.now);
      r := Ok(Outcome(state.account, decided.value + closing));
    }

    /** Processing an input is the step function under the registered rules. */
    method Process(account: Account, ev: PipelineEvent, now: Timestamp, freshId: int) returns (r: Result<Outcome>)
      ensures r == StepWithRules(registry.rules, account, ev, now, freshId)
    {
      var state := new AccountState(account);
      var advanced, lists := Advance(state, ev, now);
      if advanced.Err? {
        return Err(advanced.error);
      }
      var reports := registry.Evaluate(BuildContext(state.account, lists, ev, now));
      var finished := Finish(state, Input(ev, now, freshId, reports));
      if finished.Err? {
        return Err(finished.error);
      }
      r := Ok(Outcome(finished.value.account, advanced.value + finished.value.events));
    }
  }
}
