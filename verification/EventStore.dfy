/** The append-only event log and the account rebuilt from it. */
module EventStores {
  import opened Common
  import opened Accounts
  import opened Verdicts
  import opened DomainEvents

  /** Status that a replayed violation leaves behind, if any. */
  function ViolationStatus(kind: ViolationKind): Option<AccountStatus> {
    match kind
    case DailyDrawdownKind | MaxDrawdownKind | TrailingDrawdownKind => Some(Failed)
    case ProfitTargetMissedKind => Some(Passed)
    case _ => None
  }

  function ClosePosition(ps: seq<Position>, id: int, pnl: Money, at: Timestamp): seq<Position> {
    if ps == [] then []
    else if ps[0].id == id then
      [ps[0].(status := ClosedPosition, closedAt := Some(at), realizedPnl := pnl, openQuantity := 0.0)] + ps[1..]
    else [ps[0]] + ClosePosition(ps[1..], id, pnl, at)
  }

  function Restore(a: Account, s: Snapshot): Account {
    a.(status := s.status, balance := s.balance, equity := s.equity, peakEquity := s.peakEquity,
       peakBalance := s.peakBalance, dayStartBalance := s.dayStartBalance, activeTradingDays := s.activeTradingDays,
       tradingDayIndex := s.tradingDayIndex, targetReachedAt := s.targetReachedAt, version := s.version)
  }

  /** What replay does with one event. */
  function ReplayEvent(a: Account, e: DomainEvent): Result<Account> {
    match e.kind
    case AccountStarted(_) => Start(a, e.occurredAt)
    case AccountStatusChanged(_, to) => Ok(a.(status := to))
    case TradeFilled(t) =>
      var balance := a.balance + NetPnl(t);
      Ok(a.(balance := balance,
            totalRealizedPnl := a.totalRealizedPnl + NetPnl(t),
            peakBalance := Max(a.peakBalance, balance)))
    case DayRolledOver(index, dayStart) =>
      Ok(a.(activeTradingDays := a.activeTradingDays + (if a.todayRealizedPnl != 0.0 then 1 else 0),
            tradingDayIndex := index, dayStartBalance := dayStart, todayRealizedPnl := 0.0))
    case TickEvaluated(equity) => Ok(a.(equity := equity, peakEquity := Max(a.peakEquity, equity)))
    case AccountSnapshotted(s) => Ok(Restore(a, s))
    case OrderEvent => Ok(a)
    case PositionOpened(id, symbol, side, qty) =>
      if exists p :: p in a.openPositions && p.id == id then Ok(a)
      else
        Ok(a.(openPositions := a.openPositions
           + [Position(id, symbol, side, e.occurredAt, None, Open, 0.0, qty, qty, 0.0)]))
    case PositionClosed(id, pnl) => Ok(a.(openPositions := ClosePosition(a.openPositions, id, pnl, e.occurredAt)))
    case RuleViolated(v) =>
      Ok(if ViolationStatus(v.kind).Some? then a.(status := ViolationStatus(v.kind).value) else a)
    case PlanUpgraded(_, to) => Ok(a.(accountType := TypeOfPhase(to)))
    case PayoutRequested(_, _) => Ok(a.(status := PayoutPending))
    case PayoutApproved(amount, feeRefund) =>
      Ok(a.(balance := a.balance - amount,
            balanceAtLastPayout := a.balance - amount,
            lastPayoutAt := Some(e.occurredAt),
            payoutCount := a.payoutCount + 1,
            refundUsed := a.refundUsed || feeRefund > 0.0,
            status := FundedLive))
    case LiquidationRequested(_, _) => Ok(a.(status := Closed))
    case OverrideCleared => Ok(a.(status := Active))
  }

  function ReplayAll(a: Account, events: seq<DomainEvent>): Result<Account> {
    if events == [] then Ok(a)
    else
      match ReplayAll(a, Front(events))
      case Err(e) => Err(e)
      case Ok(b) => ReplayEvent(b, Last(events))
  }

  /** The account rebuilt from a log, which has to open with the start of the account. */
  function Rebuilt(id: int, log: seq<DomainEvent>): Result<Account> {
    if log == [] || !log[0].kind.AccountStarted? then Err(NotFound)
    else ReplayAll(NewAccount(id, log[0].kind.plan), log)
  }

  function LogOf(events: map<int, seq<DomainEvent>>, id: int): seq<DomainEvent> {
    if id in events then events[id] else []
  }

  class InMemoryEventStore {
    var events: map<int, seq<DomainEvent>>

    constructor ()
      ensures events == map[]
    {
      events := map[];
    }

    /** An appended event ends its own account's log; no other log changes. */
    method Append(e: DomainEvent)
      modifies this
      ensures forall id :: LogOf(events, id) ==
                (if id == e.accountId then LogOf(old(events), id) + [e] else LogOf(old(events), id))
    {
      var log := LogOf(events, e.accountId);
      events := events[e.accountId := log + [e]];
    }

    /** The last `n` events, or all of them when there are fewer. */
    method Recent(id: int, n: nat) returns (r: seq<DomainEvent>)
      ensures |r| == if |LogOf(events, id)| < n then |LogOf(events, id)| else n
      ensures r == LogOf(events, id)[|LogOf(events, id)| - |r|..]
    {
      var all := LogOf(events, id);
      r := if |all| > n then all[|all| - n..] else all;
    }

    method Replay(id: int) returns (r: Result<Account>)
      ensures r == Rebuilt(id, LogOf(events, id))
    {
      var log := LogOf(events, id);
      if log == [] || !log[0].kind.AccountStarted? {
        return Err(NotFound);
      }
      var acc := NewAccount(id, log[0].kind.plan);
      ghost var first := acc;
      for i := 0 to |log|
        invariant ReplayAll(first, log[..i]) == Ok(acc)
      {
        PrefixGrows(log, i);
        match ReplayEvent(acc, log[i]) {
          case Err(e) =>
            ReplayErrorStays(first, log, i + 1);
            return Err(e);
          case Ok(b) => acc := b;
        }
      }
      WholePrefix(log);
      r := Ok(acc);
    }
  }

  /** Once an event is refused, the rest of the log cannot repair it. */
  lemma {:induction false} ReplayErrorStays(a: Account, log: seq<DomainEvent>, k: nat)
    requires k <= |log| && ReplayAll(a, log[..k]).Err?
    ensures ReplayAll(a, log) == ReplayAll(a, log[..k])
  {
    if k == |log| {
      assert log[..k] == log;
    } else {
      assert log[..k] == Front(log)[..k];
      ReplayErrorStays(a, Front(log), k);
    }
  }

  lemma {:induction false} ReplayConcat(a: Account, xs: seq<DomainEvent>, ys: seq<DomainEvent>)
    requires ReplayAll(a, xs).Ok?
    ensures ReplayAll(a, xs + ys) == ReplayAll(ReplayAll(a, xs).value, ys)
  {
    if ys == [] {
      assert xs + ys == xs;
    } else {
      assert Front(xs + ys) == xs + Front(ys);
      ReplayConcat(a, xs, Front(ys));
    }
  }
}
