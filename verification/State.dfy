/** Account transitions. The functions say what a transition yields; class `AccountState` is the
    engine's working copy, whose methods assign the fields one after the other. */
module States {
  import opened Common
  import opened Plans
  import opened Accounts

  // ----- Specification -----

  function RealizePnl(a: Account, pnl: Money, commission: Money, swap: Money, at: Timestamp): Account {
    var net := pnl - commission - swap;
    var balance := a.balance + net;
    a.(balance := balance,
       equity := balance,
       peakBalance := Max(a.peakBalance, balance),
       todayRealizedPnl := a.todayRealizedPnl + net,
       totalRealizedPnl := a.totalRealizedPnl + net,
       totalCommissions := a.totalCommissions + commission,
       totalSwaps := a.totalSwaps + swap,
       lastTradeAt := Some(at))
  }

  function BrokerReport(a: Account, equity: Money, balance: Money): Account {
    a.(equity := equity,
       peakEquity := Max(a.peakEquity, equity),
       intradayPeakEquity := Max(a.intradayPeakEquity, equity),
       balance := balance,
       peakBalance := Max(a.peakBalance, balance))
  }

  function Estimate(a: Account, equity: Money, balance: Money): Account {
    a.(estimatedEquity := equity, estimatedBalance := balance)
  }

  predicate MeetsShare(threshold: Option<real>, amount: Money, initial: Money) {
    threshold.Some? ==> amount >= threshold.value * initial
  }

  /** A day that counts under the plan's qualifying thresholds, when it sets any. */
  predicate Qualifies(a: Account) {
    && (a.plan.qualifyingDayThresholdPct.Some? || a.plan.qualifyingDayPnlBandPct.Some?)
    && MeetsShare(a.plan.qualifyingDayThresholdPct, Abs(a.todayRealizedPnl), a.initialBalance)
    && MeetsShare(a.plan.qualifyingDayPnlBandPct, Abs(a.todayRealizedPnl), a.initialBalance)
  }

  /** Books the closing day's result into the per-day tallies. */
  function BookDay(a: Account, hadTrades: bool): Account {
    if !hadTrades then a
    else
      var net := a.todayRealizedPnl;
      a.(largestDayProfit := Max(a.largestDayProfit, net),
         largestDayLoss := Min(a.largestDayLoss, net),
         sumPositiveDaysProfit := a.sumPositiveDaysProfit + Max(net, 0.0),
         profitableDaysCount := a.profitableDaysCount + (if net > 0.0 then 1 else 0),
         qualifyingTradingDaysCount := a.qualifyingTradingDaysCount + (if Qualifies(a) then 1 else 0),
         activeTradingDays := a.activeTradingDays + (if a.dayCountedToday then 0 else 1))
  }

  /** Opens the next day from the current balance and equity. */
  function OpenDay(a: Account, index: nat, start: Timestamp): Account {
    a.(tradingDayIndex := index,
       dayStartBalance := a.balance,
       dayStartEquity := a.equity,
       intradayPeakEquity := a.equity,
       todayRealizedPnl := 0.0,
       todayTrades := [],
       dayCountedToday := false,
       currentTradingDayStart := Some(start))
  }

  function RolloverTarget(a: Account, targetTs: Option<Timestamp>, now: Timestamp): Timestamp {
    if targetTs.Some? then TradingDayStart(a.plan, targetTs.value)
    else
      NextTradingDayStart(
        a.plan,
        if a.currentTradingDayStart.Some? then a.currentTradingDayStart.value else TradingDayStart(a.plan, now))
  }

  function RolloverDay(a: Account, hadTrades: bool, targetTs: Option<Timestamp>, now: Timestamp): Account {
    OpenDay(BookDay(a, hadTrades), a.tradingDayIndex + 1, RolloverTarget(a, targetTs, now))
  }

  function MarkActiveDay(a: Account): Account {
    if a.dayCountedToday then a
    else a.(activeTradingDays := a.activeTradingDays + 1, dayCountedToday := true)
  }

  function UpgradePhase(a: Account, to: ChallengePhase): Result<Account> {
    if Rank(to) == Rank(a.plan.phase) + 1
    then Ok(a.(plan := a.plan.(phase := to), accountType := TypeOfPhase(to)))
    else Err(InvalidState)
  }

  function MarkTargetReached(a: Account, at: Timestamp): Account {
    if a.targetReachedAt.Some? then a
    else
      a.(targetReachedAt := Some(at),
         targetReachedOnDay := Some(a.tradingDayIndex),
         status := if a.status.Active? then TargetHitPending else a.status)
  }

  function Stop(a: Account): Account {
    a.(statusBeforeBreach := if a.statusBeforeBreach.None? then Some(a.status) else a.statusBeforeBreach,
       status := EmergencyStopped)
  }

  function ClearBreach(a: Account): Result<Account> {
    if !IsBreachTerminal(a.status) then Err(InvalidState)
    else
      Ok(a.(
         status :=
           if a.statusBeforeBreach.Some? then a.statusBeforeBreach.value
           else if a.accountType.FundedType? then FundedLive else Active,
         statusBeforeBreach := None))
  }

  function MarkPayoutPending(a: Account): Result<Account> {
    if a.status.FundedLive? || a.status.PayoutPending? then Ok(a.(status := PayoutPending))
    else Err(InvalidState)
  }

  /** Balance plus the valuation of every open position at one quote. */
  function EquityAfterTick(balance: Money, positions: seq<Position>, q: Quote): Money {
    if positions == [] then balance
    else EquityAfterTick(balance, Front(positions), q) + UnrealizedPnl(Last(positions), q)
  }

  // ----- The engine's working copy -----

  class AccountState {
    var account: Account

    constructor (a: Account)
      ensures account == a
    {
      account := a;
    }

    method ApplyRealizedPnl(pnl: Money, commission: Money, swap: Money, at: Timestamp)
      modifies this
      ensures account == RealizePnl(old(account), pnl, commission, swap, at)
    {
      var net := pnl - commission - swap;
      account := account.(balance := account.balance + net);
      account := account.(equity := account.balance);
      if account.balance > account.peakBalance {
        account := account.(peakBalance := account.balance);
      }
      account := account.(todayRealizedPnl := account.todayRealizedPnl + net);
      account := account.(totalRealizedPnl := account.totalRealizedPnl + net);
      account := account.(totalCommissions := account.totalCommissions + commission);
      account := account.(totalSwaps := account.totalSwaps + swap);
      account := account.(lastTradeAt := Some(at));
    }

    method UpdateEquity(equity: Money)
      modifies this
      ensures account == old(account).(equity := equity,
                                       peakEquity := Max(old(account).peakEquity, equity),
                                       intradayPeakEquity := Max(old(account).intradayPeakEquity, equity))
    {
      account := account.(equity := equity);
      if equity > account.peakEquity {
        account := account.(peakEquity := equity);
      }
      if equity > account.intradayPeakEquity {
        account := account.(intradayPeakEquity := equity);
      }
    }

    method UpdateBalance(balance: Money)
      modifies this
      ensures account == old(account).(balance := balance,
                                       peakBalance := Max(old(account).peakBalance, balance))
    {
      account := account.(balance := balance);
      if balance > account.peakBalance {
        account := account.(peakBalance := balance);
      }
    }

    method SetEstimatedEquity(equity: Money, balance: Money)
      modifies this
      ensures account == Estimate(old(account), equity, balance)
    {
      account := account.(estimatedEquity := equity);
      account := account.(estimatedBalance := balance);
    }

    method TallyResult()
      modifies this
      ensures account == old(account).(
                           largestDayProfit := Max(old(account).largestDayProfit, old(account).todayRealizedPnl),
                           largestDayLoss := Min(old(account).largestDayLoss, old(account).todayRealizedPnl),
                           sumPositiveDaysProfit := old(account).sumPositiveDaysProfit + Max(old(account).todayRealizedPnl, 0.0),
                           profitableDaysCount := old(account).profitableDaysCount + (if old(account).todayRealizedPnl > 0.0 then 1 else 0))
    {
      var net := account.todayRealizedPnl;
      if net > account.largestDayProfit {
        account := account.(largestDayProfit := net);
      }
      if net < account.largestDayLoss {
        account := account.(largestDayLoss := net);
      }
      if net > 0.0 {
        account := account.(sumPositiveDaysProfit := account.sumPositiveDaysProfit + net);
        account := account.(profitableDaysCount := account.profitableDaysCount + 1);
      }
    }

    method TallyQualifyingDay()
      modifies this
      ensures account == old(account).(
                           qualifyingTradingDaysCount := old(account).qualifyingTradingDaysCount + (if Qualifies(old(account)) then 1 else 0))
    {
      var thresholdsSet := account.plan.qualifyingDayThresholdPct.Some? || account.plan.qualifyingDayPnlBandPct.Some?;
      if thresholdsSet {
        var absPnl := Abs(account.todayRealizedPnl);
        var notionalOk := MeetsShare(account.plan.qualifyingDayThresholdPct, absPnl, account.initialBalance);
        var bandOk := MeetsShare(account.plan.qualifyingDayPnlBandPct, absPnl, account.initialBalance);
        if notionalOk && bandOk {
          account := account.(qualifyingTradingDaysCount := account.qualifyingTradingDaysCount + 1);
        }
      }
    }

    /** The part of a rollover that runs only for a day with trades. */
    method FreezeDay()
      modifies this
      ensures account == BookDay(old(account), true)
    {
      TallyResult();
      TallyQualifyingDay();
      if !account.dayCountedToday {
        account := account.(activeTradingDays := account.activeTradingDays + 1);
      }
    }

    method Rollover(hadTrades: bool, targetTs: Option<Timestamp>, now: Timestamp)
      modifies this
      ensures account == RolloverDay(old(account), hadTrades, targetTs, now)
    {
      if hadTrades {
        FreezeDay();
      }
      account := account.(tradingDayIndex := account.tradingDayIndex + 1);
      account := account.(dayStartBalance := account.balance);
      account := account.(dayStartEquity := account.equity);
      account := account.(intradayPeakEquity := account.equity);
      account := account.(todayRealizedPnl := 0.0);
      account := account.(todayTrades := []);
      account := account.(dayCountedToday := false);
      var start;
      match targetTs {
        case Some(ts) => start := TradingDayStart(account.plan, ts);
        case None =>
          var current := TradingDayStart(account.plan, now);
          if account.currentTradingDayStart.Some? {
            current := account.currentTradingDayStart.value;
          }
          start := NextTradingDayStart(account.plan, current);
      }
      account := account.(currentTradingDayStart := Some(start));
    }

    method MarkActiveTradingDay()
      modifies this
      ensures account == MarkActiveDay(old(account))
    {
      if !account.dayCountedToday {
        account := account.(activeTradingDays := account.activeTradingDays + 1);
        account := account.(dayCountedToday := true);
      }
    }

    method TryUpgradePhase(to: ChallengePhase) returns (ok: bool)
      modifies this
      ensures ok == UpgradePhase(old(account), to).Ok?
      ensures account == if ok then UpgradePhase(old(account), to).value else old(account)
    {
      match (account.plan.phase, to) {
        case (Phase1, Phase2) => ok := true;
        case (Phase2, Funded) => ok := true;
        case _ => ok := false;
      }
      if ok {
        account := account.(plan := account.plan.(phase := to));
        account := account.(accountType := TypeOfPhase(to));
      }
    }

    method StampTargetReached(at: Timestamp)
      modifies this
      ensures account == MarkTargetReached(old(account), at)
    {
      if account.targetReachedAt.None? {
        account := account.(targetReachedAt := Some(at));
        account := account.(targetReachedOnDay := Some(account.tradingDayIndex));
        if account.status.Active? {
          account := account.(status := TargetHitPending);
        }
      }
    }

    method EmergencyStop()
      modifies this
      ensures account == Stop(old(account))
    {
      if account.statusBeforeBreach.None? {
        account := account.(statusBeforeBreach := Some(account.status));
      }
      account := account.(status := EmergencyStopped);
    }

    method TryClearBreach() returns (ok: bool)
      modifies this
      ensures ok == ClearBreach(old(account)).Ok?
      ensures account == if ok then ClearBreach(old(account)).value else old(account)
    {
      ok := account.status.Failed? || account.status.EmergencyStopped?;
      if ok {
        var fallback := if account.accountType.FundedType? then FundedLive else Active;
        if account.statusBeforeBreach.Some? {
          fallback := account.statusBeforeBreach.value;
        }
        account := account.(status := fallback);
        account := account.(statusBeforeBreach := None);
      }
    }

    method TryMarkPayoutPending() returns (ok: bool)
      modifies this
      ensures ok == MarkPayoutPending(old(account)).Ok?
      ensures account == if ok then MarkPayoutPending(old(account)).value else old(account)
    {
      match account.status {
        case FundedLive =>
          account := account.(status := PayoutPending);
          ok := true;
        case PayoutPending => ok := true;
        case _ => ok := false;
      }
    }
  }

  method ValueAtQuote(balance: Money, positions: seq<Position>, q: Quote) returns (equity: Money)
    ensures equity == EquityAfterTick(balance, positions, q)
  {
    var unreal := 0.0;
    for i := 0 to |positions|
      invariant balance + unreal == EquityAfterTick(balance, positions[..i], q)
    {
      PrefixGrows(positions, i);
      if IsOpen(positions[i]) {
        unreal := unreal + UnrealizedPnl(positions[i], q);
      }
    }
    WholePrefix(positions);
    equity := balance + unreal;
  }
}
