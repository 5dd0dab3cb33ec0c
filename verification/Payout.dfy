/** Payout quotes and their execution on a funded account. */
module Payouts {
  import opened Common
  import opened Plans
  import opened Accounts
  import opened States

  datatype PayoutError =
    | BelowMinimum(minimum: Money)
    | CycleNotReached(nextAllowedAt: Timestamp)
    | NoProfit

  datatype PayoutQuote = PayoutQuote(
    profitBasis: Money,
    traderShare: real,
    feeRefund: Money,
    amount: Money,
    rejected: Option<PayoutError>)

  function MinGap(c: PayoutCycle): Option<int> {
    match c
    case OnDemandCycle => None
    case BiWeekly => Some(14 * DAY)
    case Monthly => Some(30 * DAY)
  }

  /** Tiers apply in order of payouts; the last one repeats. */
  function TraderShareFor(c: PayoutConfig, payoutCount: nat): real {
    if c.tiers == [] then 0.0
    else if payoutCount < |c.tiers| then c.tiers[payoutCount]
    else Last(c.tiers)
  }

  function QuotePayout(
    a: Account, c: PayoutConfig, lastPayoutAt: Option<Timestamp>, watermark: Option<Money>,
    refundUsed: bool, now: Timestamp): PayoutQuote
  {
    var reference := if watermark.Some? then watermark.value else a.initialBalance;
    var basis := Max(a.balance - reference, 0.0);
    var share := TraderShareFor(c, a.payoutCount);
    var fee := if a.payoutCount == 0 && !refundUsed then a.plan.refundFeeAmount else 0.0;
    var amount := basis * share + fee;
    var gap := MinGap(c.cycle);
    PayoutQuote(
      basis, share, fee, amount,
      if basis <= 0.0 then Some(NoProfit)
      else if amount < c.minimumPayout then Some(BelowMinimum(c.minimumPayout))
      else if gap.Some? && lastPayoutAt.Some? && now < lastPayoutAt.value + gap.value
      then Some(CycleNotReached(lastPayoutAt.value + gap.value))
      else None)
  }

  /** The quote the pipeline asks for, from the account's own bookkeeping. */
  function OwnQuote(a: Account, c: PayoutConfig, now: Timestamp): PayoutQuote {
    QuotePayout(a, c, a.lastPayoutAt, Some(a.balanceAtLastPayout), a.refundUsed, now)
  }

  function Paid(a: Account, amount: Money, feeRefund: Money, at: Timestamp): Result<Account> {
    if !a.status.FundedLive? && !a.status.PayoutPending? then Err(InvalidState)
    else
      Ok(a.(
         payoutCount := a.payoutCount + 1,
         balanceAtLastPayout := a.balance,
         lastPayoutAt := Some(at),
         balance := a.balance - amount + feeRefund,
         status := FundedLive))
  }

  /** The firm pays the trader: the cash leaves the balance, and the watermark becomes the balance before it. */
  method RecordPayout(state: AccountState, amount: Money, feeRefund: Money, at: Timestamp) returns (ok: bool)
    modifies state
    ensures ok == Paid(old(state.account), amount, feeRefund, at).Ok?
    ensures state.account ==
            if ok then Paid(old(state.account), amount, feeRefund, at).value else old(state.account)
  {
    if !state.account.status.FundedLive? && !state.account.status.PayoutPending? {
      return false;
    }
    state.account := state.account.(payoutCount := state.account.payoutCount + 1);
    state.account := state.account.(balanceAtLastPayout := state.account.balance);
    state.account := state.account.(lastPayoutAt := Some(at));
    state.account := state.account.(balance := state.account.balance - amount + feeRefund);
    if state.account.status.PayoutPending? {
      state.account := state.account.(status := FundedLive);
    }
    return true;
  }
}
