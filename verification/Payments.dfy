/** Payouts over runs: no profit is paid twice, and money is conserved. */
module Payments {
  import opened Common
  import opened Plans
  import opened Accounts
  import opened States
  import opened Payouts
  import opened Pipelines
  import opened Runs

  predicate Approves(a: Account, i: Input) {
    i.event.EvPayoutApprove? && Step(a, i).Ok?
  }

  /** The quote behind an approval, taken on the account once its days are caught up. */
  function ApprovedQuote(a: Account, i: Input): Option<PayoutQuote> {
    if Approves(a, i) && a.plan.payoutConfig.Some?
    then Some(OwnQuote(Ready(a, i.event, i.now), a.plan.payoutConfig.value, i.now)) else None
  }

  /** The approved quotes of a run, in order. */
  function Approvals(a: Account, inputs: seq<Input>): seq<PayoutQuote> {
    if inputs == [] then []
    else
      var rest, q := Approvals(a, Front(inputs)), ApprovedQuote(After(a, Front(inputs)), Last(inputs));
      if q.Some? then rest + [q.value] else rest
  }

  function Bases(qs: seq<PayoutQuote>): Money {
    if qs == [] then 0.0 else Bases(Front(qs)) + Last(qs).profitBasis
  }

  /** Cash paid out, refunds included. */
  function Cash(qs: seq<PayoutQuote>): Money {
    if qs == [] then 0.0 else Cash(Front(qs)) + Last(qs).amount
  }

  /** Profit share paid out, refunds excluded: what leaves the balance. */
  function Shares(qs: seq<PayoutQuote>): Money {
    if qs == [] then 0.0 else Shares(Front(qs)) + (Last(qs).amount - Last(qs).feeRefund)
  }

  /** Every tier pays the trader between nothing and all of the profit. */
  predicate SharesWithinOne(p: ChallengePlan) {
    p.payoutConfig.Some? ==> forall s :: s in p.payoutConfig.value.tiers ==> 0.0 <= s <= 1.0
  }

  lemma {:induction false} ShareWithinOne(c: PayoutConfig, n: nat)
    requires forall s :: s in c.tiers ==> 0.0 <= s <= 1.0
    ensures 0.0 <= TraderShareFor(c, n) <= 1.0
  {
    if c.tiers != [] {
      assert TraderShareFor(c, n) in c.tiers;
    }
  }

  lemma {:induction false} MulSign(x: real, y: real)
    requires x > 0.0
    ensures x * y >= 0.0 <==> y >= 0.0
  {
  }

  lemma {:induction false} ShareOfBasis(basis: Money, share: real)
    requires basis > 0.0
    ensures basis * share <= basis <==> share <= 1.0
    ensures basis * share >= 0.0 <==> share >= 0.0
  {
    MulSign(basis, share);
    MulSign(basis, 1.0 - share);
    assert basis * (1.0 - share) == basis - basis * share;
  }

  // ----- One step -----

  /** What an approved quote says about the account it was taken on: the whole gain over the watermark is the basis,
      and the part paid out is within the basis exactly as the tier's share is within one. */
  predicate QuoteFits(a: Account, q: PayoutQuote) {
    && a.plan.payoutConfig.Some?
    && var share := TraderShareFor(a.plan.payoutConfig.value, a.payoutCount);
    && q.profitBasis == a.balance - a.balanceAtLastPayout && q.profitBasis > 0.0
    && q.feeRefund == (if a.payoutCount == 0 && !a.refundUsed then a.plan.refundFeeAmount else 0.0)
    && (q.amount - q.feeRefund <= q.profitBasis <==> share <= 1.0)
    && (q.amount - q.feeRefund >= 0.0 <==> share >= 0.0)
  }

  predicate PaidOut(a: Account, q: PayoutQuote, b: Account) {
    && b.balanceAtLastPayout == a.balance
    && b.payoutCount == a.payoutCount + 1
    && b.balance == a.balance - (q.amount - q.feeRefund)
    && b.totalRealizedPnl == a.totalRealizedPnl
  }

  lemma {:induction false} QuoteShare(q: PayoutQuote)
    requires q.amount == q.profitBasis * q.traderShare + q.feeRefund && q.profitBasis > 0.0
    ensures q.amount - q.feeRefund <= q.profitBasis <==> q.traderShare <= 1.0
    ensures q.amount - q.feeRefund >= 0.0 <==> q.traderShare >= 0.0
  {
    ShareOfBasis(q.profitBasis, q.traderShare);
  }

  lemma {:induction false} ApprovalTransition(r: Account, now: Timestamp)
    requires Transition(r, EvPayoutApprove, now).Ok?
    ensures r.plan.payoutConfig.Some?
    ensures var q := OwnQuote(r, r.plan.payoutConfig.value, now);
      QuoteFits(r, q) && PaidOut(r, q, Transition(r, EvPayoutApprove, now).value.account)
  {
    QuoteShare(OwnQuote(r, r.plan.payoutConfig.value, now));
  }

  lemma {:induction false} OtherTransition(r: Account, ev: PipelineEvent, now: Timestamp)
    requires Transition(r, ev, now).Ok? && !ev.EvPayoutApprove?
    ensures var t := Transition(r, ev, now).value.account;
      && t.balanceAtLastPayout == r.balanceAtLastPayout && t.payoutCount == r.payoutCount
      && (!ev.EvTick? ==> t.balance - t.totalRealizedPnl == r.balance - r.totalRealizedPnl)
  {
  }

  lemma {:induction false} ReadyMoney(a: Account, ev: PipelineEvent, now: Timestamp)
    ensures var r := Ready(a, ev, now);
      && r.balance == a.balance && r.totalRealizedPnl == a.totalRealizedPnl
      && r.balanceAtLastPayout == a.balanceAtLastPayout && r.payoutCount == a.payoutCount
      && r.plan == a.plan && r.refundUsed == a.refundUsed
  {
  }

  lemma {:induction false} ConclusionMoney(t: Account, i: Input)
    requires Conclude(t, i).Ok?
    ensures var c := Conclude(t, i).value.account;
      && c.balance == t.balance && c.totalRealizedPnl == t.totalRealizedPnl
      && c.balanceAtLastPayout == t.balanceAtLastPayout && c.payoutCount == t.payoutCount
  {
    BeforePromotionFrame(t, i);
    ConclusionFrame(t, i);
  }

  /** An approval pays on exactly the gain over the watermark and lifts the watermark to the balance before it. */
  lemma {:induction false} ApprovalStep(a: Account, i: Input)
    requires Approves(a, i)
    ensures ApprovedQuote(a, i).Some?
    ensures QuoteFits(a, ApprovedQuote(a, i).value) && PaidOut(a, ApprovedQuote(a, i).value, Next(a, i))
  {
    var r, t := StepStages(a, i);
    ReadyMoney(a, i.event, i.now);
    ApprovalTransition(r, i.now);
    ConclusionMoney(t, i);
  }

  /** The balance once a share of the gain over the watermark is drawn from it. */
  function Drawn(balance: Money, watermark: Money, share: real): Money {
    balance - (balance - watermark) * share
  }

  lemma {:induction false} DrawnBelow(balance: Money, watermark: Money, share: real)
    requires balance > watermark
    ensures Drawn(balance, watermark, share) <= balance <==> share >= 0.0
  {
    MulSign(balance - watermark, share);
  }

  /** The share that the account's next payout is due. */
  function NextShare(a: Account): real {
    if a.plan.payoutConfig.Some? then TraderShareFor(a.plan.payoutConfig.value, a.payoutCount) else 0.0
  }

  lemma {:induction false} TransitionDraws(r: Account, now: Timestamp)
    requires Transition(r, EvPayoutApprove, now).Ok?
    ensures r.balance > r.balanceAtLastPayout
    ensures Transition(r, EvPayoutApprove, now).value.account.balance
         == Drawn(r.balance, r.balanceAtLastPayout, NextShare(r))
  {
  }

  lemma {:induction false} ReadyShare(a: Account, ev: PipelineEvent, now: Timestamp)
    ensures NextShare(Ready(a, ev, now)) == NextShare(a)
  {
    ReadyMoney(a, ev, now);
  }

  lemma {:induction false} ApprovalDraws(a: Account, i: Input)
    requires Approves(a, i)
    ensures a.balance > a.balanceAtLastPayout
    ensures Next(a, i).balance == Drawn(a.balance, a.balanceAtLastPayout, NextShare(a))
  {
    var r, t := StepStages(a, i);
    ReadyMoney(a, i.event, i.now);
    ReadyShare(a, i.event, i.now);
    TransitionDraws(r, i.now);
    ConclusionMoney(t, i);
    assert Next(a, i).balance == t.balance;
  }

  lemma {:induction false} OtherStep(a: Account, i: Input)
    requires !Approves(a, i)
    ensures ApprovedQuote(a, i).None?
    ensures var b := Next(a, i);
      && b.balanceAtLastPayout == a.balanceAtLastPayout && b.payoutCount == a.payoutCount
      && (!i.event.EvTick? ==> b.balance - b.totalRealizedPnl == a.balance - a.totalRealizedPnl)
  {
    if Step(a, i).Ok? {
      var r, t := StepStages(a, i);
      ReadyMoney(a, i.event, i.now);
      OtherTransition(r, i.event, i.now);
      ConclusionMoney(t, i);
    }
  }

  // ----- Runs -----

  /** Over every run from any account: the approved profit bases add up to exactly the rise of the watermark, and
      each of them is positive, so the watermark rises with every payout and no profit is a basis twice. */
  lemma {:induction false} WatermarkTelescopes(a: Account, inputs: seq<Input>)
    ensures var b, qs := After(a, inputs), Approvals(a, inputs);
      && Bases(qs) == b.balanceAtLastPayout - a.balanceAtLastPayout
      && b.payoutCount == a.payoutCount + |qs|
      && forall q :: q in qs ==> q.profitBasis > 0.0
  {
    if inputs != [] {
      var before, i := After(a, Front(inputs)), Last(inputs);
      WatermarkTelescopes(a, Front(inputs));
      if Approves(before, i) {
        ApprovalStep(before, i);
        var rest, q := Approvals(a, Front(inputs)), ApprovedQuote(before, i).value;
        FrontLast(rest, q);
      } else {
        OtherStep(before, i);
      }
    }
  }

  /** What may have been paid in cash between two accounts of a run. */
  function Allowance(a: Account, b: Account): Money {
    b.balanceAtLastPayout - a.balanceAtLastPayout
    + if a.payoutCount == 0 && b.payoutCount > 0 then a.plan.refundFeeAmount else 0.0
  }

  lemma {:induction false} AllowanceGrows(a: Account, before: Account, i: Input)
    requires SharesWithinOne(a.plan) && a.plan.refundFeeAmount >= 0.0
    requires SamePlan(a.plan, before.plan) && before.payoutCount >= a.payoutCount && Approves(before, i)
    ensures ApprovedQuote(before, i).Some?
    ensures ApprovedQuote(before, i).value.amount <= Allowance(a, Next(before, i)) - Allowance(a, before)
  {
    ApprovalStep(before, i);
    ShareWithinOne(before.plan.payoutConfig.value, before.payoutCount);
  }

  lemma {:induction false} CountGrows(a: Account, inputs: seq<Input>)
    ensures After(a, inputs).payoutCount >= a.payoutCount
  {
    WatermarkTelescopes(a, inputs);
  }

  /** Over every run: with shares between zero and one and a nonnegative fee, all cash paid is at most the rise of
      the watermark plus a single fee refund. */
  lemma {:induction false} CashIsBounded(a: Account, inputs: seq<Input>)
    requires SharesWithinOne(a.plan) && a.plan.refundFeeAmount >= 0.0
    ensures Cash(Approvals(a, inputs)) <= Allowance(a, After(a, inputs))
  {
    if inputs != [] {
      var before, i := After(a, Front(inputs)), Last(inputs);
      CashIsBounded(a, Front(inputs));
      if Approves(before, i) {
        CountGrows(a, Front(inputs));
        RunsKeepThePlan(a, Front(inputs));
        AllowanceGrows(a, before, i);
        FrontLast(Approvals(a, Front(inputs)), ApprovedQuote(before, i).value);
      } else {
        OtherStep(before, i);
      }
    }
  }

  /** An approval leaves the balance at or above the previous watermark exactly when its share is at most one. */
  lemma {:induction false} ApprovalKeepsWatermark(a: Account, i: Input)
    requires Approves(a, i)
    ensures a.plan.payoutConfig.Some?
    ensures Next(a, i).balance >= a.balanceAtLastPayout
            <==> TraderShareFor(a.plan.payoutConfig.value, a.payoutCount) <= 1.0
  {
    ApprovalStep(a, i);
  }

  /** Conservation over every run without broker ticks: the balance moves by the realized result less the profit
      shares paid out, and by nothing else. */
  lemma {:induction false} BalanceIsConserved(a: Account, inputs: seq<Input>)
    requires forall i :: i in inputs ==> !i.event.EvTick?
    ensures var b := After(a, inputs);
      b.balance == a.balance + (b.totalRealizedPnl - a.totalRealizedPnl) - Shares(Approvals(a, inputs))
  {
    if inputs != [] {
      var before, i := After(a, Front(inputs)), Last(inputs);
      BalanceIsConserved(a, Front(inputs));
      if Approves(before, i) {
        ApprovalStep(before, i);
        var rest, q := Approvals(a, Front(inputs)), ApprovedQuote(before, i).value;
        FrontLast(rest, q);
      } else {
        OtherStep(before, i);
      }
    }
  }

  // ----- When an account goes live -----

  /** The statuses from which money can be paid out. */
  predicate Live(s: AccountStatus) {
    s.FundedLive? || s.PayoutPending?
  }

  /** Neither live nor about to be by giving back a remembered status. */
  predicate Dormant(a: Account) {
    !Live(a.status) && (a.statusBeforeBreach.Some? ==> !Live(a.statusBeforeBreach.value))
  }

  /** A breach remembers what came before it. */
  predicate RemembersBreach(a: Account) {
    IsBreachTerminal(a.status) ==> a.statusBeforeBreach.Some?
  }

  /** Accepted overrides of a run. */
  function Overrides(a: Account, inputs: seq<Input>): nat {
    if inputs == [] then 0
    else
      Overrides(a, Front(inputs))
      + if Last(inputs).event.EvOverride? && Step(After(a, Front(inputs)), Last(inputs)).Ok? then 1 else 0
  }

  lemma {:induction false} TransitionDormant(r: Account, ev: PipelineEvent, now: Timestamp)
    requires Dormant(r) && Transition(r, ev, now).Ok? && (ev.EvOverride? ==> RemembersBreach(r))
    ensures !ev.EvPayoutApprove? && Dormant(Transition(r, ev, now).value.account)
    ensures RemembersBreach(r) && !ev.EvOverride? ==> RemembersBreach(Transition(r, ev, now).value.account)
  {
  }

  lemma {:induction false} ConclusionDormant(t: Account, i: Input)
    requires Dormant(t) && Conclude(t, i).Ok?
    ensures Dormant(Conclude(t, i).value.account)
    ensures RemembersBreach(t) ==> RemembersBreach(Conclude(t, i).value.account)
  {
    ConclusionStatuses(t, i);
  }

  lemma {:induction false} StepDormant(a: Account, i: Input)
    requires Dormant(a) && (i.event.EvOverride? ==> RemembersBreach(a))
    ensures !Approves(a, i) && Dormant(Next(a, i))
    ensures RemembersBreach(a) && !i.event.EvOverride? ==> RemembersBreach(Next(a, i))
  {
    if Step(a, i).Ok? {
      var r, t := StepStages(a, i);
      TransitionDormant(r, i.event, i.now);
      ConclusionDormant(t, i);
    }
  }

  /** Over every run from a new account: until a second override is accepted no account is live and nothing is paid out.
      Promotion alone never makes an account live. */
  lemma {:induction false} NoPayoutBeforeTwoOverrides(id: int, plan: ChallengePlan, inputs: seq<Input>)
    requires Overrides(NewAccount(id, plan), inputs) <= 1
    ensures var a, b := NewAccount(id, plan), After(NewAccount(id, plan), inputs);
      && Approvals(a, inputs) == [] && Dormant(b)
      && (Overrides(a, inputs) == 0 ==> RemembersBreach(b))
  {
    if inputs != [] {
      var a := NewAccount(id, plan);
      var before, i := After(a, Front(inputs)), Last(inputs);
      NoPayoutBeforeTwoOverrides(id, plan, Front(inputs));
      if Step(before, i).Ok? {
        StepDormant(before, i);
      }
    }
  }

  /** And the second override can: on a funded account that was terminated twice it falls back to live. */
  lemma {:induction false} SecondOverrideGoesLive(a: Account)
    requires a.accountType.FundedType? && IsBreachTerminal(a.status)
    requires a.statusBeforeBreach.Some? && IsBreachTerminal(a.statusBeforeBreach.value)
    ensures ClearBreach(a).Ok? && ClearBreach(ClearBreach(a).value).Ok?
    ensures ClearBreach(ClearBreach(a).value).value.status.FundedLive?
  {
  }
}
