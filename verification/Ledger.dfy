/** Peaks, floors and the daily ledger over runs. */
module Ledgers {
  import opened Common
  import opened Plans
  import opened Accounts
  import opened States
  import opened Payouts
  import opened Evaluators
  import opened Decisions
  import opened Pipelines
  import opened Runs
  import opened Payments

  // ----- Peaks -----

  /** The balance peak covers the balance and the balance the day opened with. */
  predicate PeakCovers(a: Account) {
    a.peakBalance >= a.balance && a.peakBalance >= a.dayStartBalance
  }

  predicate SharesNonnegative(p: ChallengePlan) {
    p.payoutConfig.Some? ==> forall s :: s in p.payoutConfig.value.tiers ==> s >= 0.0
  }

  lemma {:induction false} NextShareNonnegative(a: Account)
    requires SharesNonnegative(a.plan)
    ensures NextShare(a) >= 0.0
  {
    if a.plan.payoutConfig.Some? && a.plan.payoutConfig.value.tiers != [] {
      assert NextShare(a) in a.plan.payoutConfig.value.tiers;
    }
  }

  /** Peaks only rise, and no cash is ever paid into the balance by a payout of nonnegative share. */
  lemma {:induction false} TransitionPeaks(r: Account, ev: PipelineEvent, now: Timestamp)
    requires Transition(r, ev, now).Ok?
    ensures var t := Transition(r, ev, now).value.account;
      && t.peakBalance >= r.peakBalance && t.peakEquity >= r.peakEquity && t.initialBalance == r.initialBalance
      && (PeakCovers(r) && !ev.EvPayoutApprove? ==> PeakCovers(t))
      && (ev.EvPayoutApprove? ==> t.peakBalance == r.peakBalance && t.dayStartBalance == r.dayStartBalance)
  {
  }

  lemma {:induction false} ReadyPeaks(a: Account, ev: PipelineEvent, now: Timestamp)
    ensures var r := Ready(a, ev, now);
      && r.peakBalance == a.peakBalance && r.peakEquity == a.peakEquity && r.initialBalance == a.initialBalance
      && (PeakCovers(a) ==> PeakCovers(r))
      && r.plan == a.plan
  {
  }

  lemma {:induction false} ConclusionPeaks(t: Account, i: Input)
    requires Conclude(t, i).Ok?
    ensures var c := Conclude(t, i).value.account;
      && c.initialBalance == t.initialBalance
      && (PeakCovers(t) ==> PeakCovers(c))
      && (!Eligible(BeforePromotion(t, i)) ==> c.peakBalance == t.peakBalance && c.peakEquity == t.peakEquity)
  {
    BeforePromotionFrame(t, i);
    ConclusionFrame(t, i);
  }

  lemma {:induction false} StepPeaks(a: Account, i: Input)
    ensures var b := Next(a, i);
      && b.initialBalance == a.initialBalance
      && (!Promotes(a, i) ==> b.peakBalance >= a.peakBalance && b.peakEquity >= a.peakEquity)
      && (PeakCovers(a) && !i.event.EvPayoutApprove? ==> PeakCovers(b))
  {
    if Step(a, i).Ok? {
      var r, t := StepStages(a, i);
      ReadyPeaks(a, i.event, i.now);
      TransitionPeaks(r, i.event, i.now);
      ConclusionPeaks(t, i);
    }
  }

  /** An approval leaves the account live, so it never promotes. */
  lemma {:induction false} ApprovalsNeverPromote(a: Account, i: Input)
    requires Approves(a, i)
    ensures !Promotes(a, i)
  {
    var r, t := StepStages(a, i);
    BeforePromotionFrame(t, i);
  }

  lemma {:induction false} ApprovalDayStart(a: Account, i: Input)
    requires Approves(a, i) && PeakCovers(a)
    ensures Next(a, i).peakBalance == a.peakBalance && Next(a, i).dayStartBalance <= a.peakBalance
  {
    ApprovalsNeverPromote(a, i);
    var r, t := StepStages(a, i);
    ReadyPeaks(a, i.event, i.now);
    TransitionPeaks(r, i.event, i.now);
    ConclusionPeaks(t, i);
    BeforePromotionFrame(t, i);
    ConclusionFrame(t, i);
  }

  /** An approval keeps the cover exactly when the balance, less the tier's share of its gain over the watermark, does
      not exceed the peak: always for a share that is not negative, and for a negative one as far as the peak allows. */
  lemma {:induction false} ApprovalPeaks(a: Account, i: Input)
    requires Approves(a, i) && PeakCovers(a)
    ensures PeakCovers(Next(a, i)) <==> Drawn(a.balance, a.balanceAtLastPayout, NextShare(a)) <= a.peakBalance
    ensures NextShare(a) >= 0.0 ==> PeakCovers(Next(a, i))
  {
    ApprovalDraws(a, i);
    ApprovalDayStart(a, i);
    DrawnBelow(a.balance, a.balanceAtLastPayout, NextShare(a));
  }

  /** A plan whose only tier takes half the profit from the firm's side; plan validation does not look at tiers. */
  const NEGATIVE_TIER_PLAN :=
    DEFAULT_PLAN.(refundFeeAmount := 1000.0, payoutConfig := Some(PayoutConfig(100.0, OnDemandCycle, [-0.5])))

  /** A failing approval: at its own peak of 11000 a live account under that plan has its first payout approved, and the
      balance ends at 11500. */
  lemma {:induction false} NegativeTierBreaksCover(now: Timestamp)
    ensures Validated(NEGATIVE_TIER_PLAN)
    ensures var a := NewAccount(0, NEGATIVE_TIER_PLAN).(status := FundedLive, balance := 11000.0, peakBalance := 11000.0);
      var i := Input(EvPayoutApprove, now, 0, []);
      PeakCovers(a) && Approves(a, i) && !PeakCovers(Next(a, i))
  {
    var a := NewAccount(0, NEGATIVE_TIER_PLAN).(status := FundedLive, balance := 11000.0, peakBalance := 11000.0);
    var i := Input(EvPayoutApprove, now, 0, []);
    NegativeTierIsApproved(a, i);
    ApprovalPeaks(a, i);
  }

  lemma {:induction false} NegativeTierIsApproved(a: Account, i: Input)
    requires a == NewAccount(0, NEGATIVE_TIER_PLAN).(status := FundedLive, balance := 11000.0, peakBalance := 11000.0)
    requires i.event == EvPayoutApprove && i.reports == []
    ensures Approves(a, i)
  {
    var r := Ready(a, i.event, i.now);
    assert r.balance == 11000.0 && r.plan == NEGATIVE_TIER_PLAN && r.status.FundedLive? && r.targetReachedAt.None?;
    var quote := OwnQuote(r, NEGATIVE_TIER_PLAN.payoutConfig.value, i.now);
    assert quote.profitBasis == 1000.0 && quote.amount == 500.0;
    var t := Transition(r, i.event, i.now).value.account;
    assert t.status.FundedLive?;
    DecisionMeaning([]);
  }

  /** Over every run from a new account whose tiers are nonnegative: the balance peak covers balance and day start. */
  lemma {:induction false} PeakCoversRuns(id: int, plan: ChallengePlan, inputs: seq<Input>)
    requires SharesNonnegative(plan)
    ensures PeakCovers(After(NewAccount(id, plan), inputs))
  {
    if inputs != [] {
      var a := NewAccount(id, plan);
      var before, i := After(a, Front(inputs)), Last(inputs);
      PeakCoversRuns(id, plan, Front(inputs));
      RunsKeepThePlan(a, Front(inputs));
      if Approves(before, i) {
        ApprovalPeaks(before, i);
        NextShareNonnegative(before);
      } else {
        StepPeaks(before, i);
      }
    }
  }

  /** And whatever the tiers, as long as at most one override was accepted: nothing is paid out before. */
  lemma {:induction false} PeakCoversBeforePayouts(id: int, plan: ChallengePlan, inputs: seq<Input>)
    requires Overrides(NewAccount(id, plan), inputs) <= 1
    ensures PeakCovers(After(NewAccount(id, plan), inputs))
  {
    if inputs != [] {
      var a := NewAccount(id, plan);
      var before, i := After(a, Front(inputs)), Last(inputs);
      PeakCoversBeforePayouts(id, plan, Front(inputs));
      NoPayoutBeforeTwoOverrides(id, plan, Front(inputs));
      if Step(before, i).Ok? {
        StepDormant(before, i);
        StepPeaks(before, i);
      }
    }
  }

  /** Over every run without a promotion, from any account: neither peak falls. */
  lemma {:induction false} PeaksNeverFall(a: Account, inputs: seq<Input>)
    requires Promotions(a, inputs) == 0
    ensures var b := After(a, inputs);
      b.peakBalance >= a.peakBalance && b.peakEquity >= a.peakEquity && b.initialBalance == a.initialBalance
  {
    if inputs != [] {
      PeaksNeverFall(a, Front(inputs));
      StepPeaks(After(a, Front(inputs)), Last(inputs));
    }
  }

  // ----- Floors -----

  lemma {:induction false} ScaledFloor(x: Money, y: Money, pct: real)
    requires x <= y && pct <= 1.0
    ensures x - pct * x <= y - pct * y
  {
    MulMono(1.0 - pct, x, y);
    assert (1.0 - pct) * x == x - pct * x;
    assert (1.0 - pct) * y == y - pct * y;
  }

  lemma {:induction false} FloorsRise(a: Account, b: Account, pct: real)
    requires pct <= 1.0 && a.peakBalance <= b.peakBalance && a.peakEquity <= b.peakEquity
    requires a.plan.drawdownOnBalance == b.plan.drawdownOnBalance && a.initialBalance == b.initialBalance
    ensures Floor(Static, pct, a) == Floor(Static, pct, b)
    ensures Floor(Trailing, pct, a) <= Floor(Trailing, pct, b)
    ensures Floor(IntradayTrail, pct, a) <= Floor(IntradayTrail, pct, b)
  {
    ScaledFloor(a.peakBalance, b.peakBalance, pct);
    ScaledFloor(a.peakEquity, b.peakEquity, pct);
  }

  lemma {:induction false} StaticFloorIsLowest(a: Account, pct: real)
    requires pct <= 1.0 && a.initialBalance <= a.peakBalance && a.initialBalance <= a.peakEquity
    ensures Floor(Static, pct, a) <= Floor(Trailing, pct, a)
    ensures Floor(Static, pct, a) <= Floor(IntradayTrail, pct, a)
  {
    ScaledFloor(a.initialBalance, a.peakBalance, pct);
    ScaledFloor(a.initialBalance, a.peakEquity, pct);
  }

  /** Over every run without a promotion: the floors that trail a peak never fall, for any fraction up to one. */
  lemma {:induction false} TrailingFloorsNeverFall(a: Account, inputs: seq<Input>, pct: real)
    requires Promotions(a, inputs) == 0 && pct <= 1.0
    ensures Floor(Trailing, pct, a) <= Floor(Trailing, pct, After(a, inputs))
    ensures Floor(IntradayTrail, pct, a) <= Floor(IntradayTrail, pct, After(a, inputs))
    ensures Floor(Static, pct, a) == Floor(Static, pct, After(a, inputs))
  {
    PeaksNeverFall(a, inputs);
    RunsKeepThePlan(a, inputs);
    FloorsRise(a, After(a, inputs), pct);
  }

  /** In the first phase of a validated plan, over every run: whatever breaches the static floor also breaches
      both trailing floors. */
  lemma {:induction false} StaticIsTheMildest(id: int, plan: ChallengePlan, inputs: seq<Input>, tolerance: Money, current: Money)
    requires Validated(plan) && Promotions(NewAccount(id, plan), inputs) == 0
    ensures var a := After(NewAccount(id, plan), inputs); var pct := plan.maxTotalDrawdownPct;
      Breaches(Static, pct, tolerance, a, current) ==>
        Breaches(Trailing, pct, tolerance, a, current) && Breaches(IntradayTrail, pct, tolerance, a, current)
  {
    var a := NewAccount(id, plan);
    PeaksNeverFall(a, inputs);
    StaticFloorIsLowest(After(a, inputs), plan.maxTotalDrawdownPct);
  }

  /** Locking the end-of-day floor only ever spares accounts, and it spares some equity exactly when the day
      opened more than one buffer above the initial balance. */
  lemma {:induction false} LockSpares(a: Account, pct: real)
    ensures var locked := a.(plan := a.plan.(eodTrailLocksAtStart := true));
      var unlocked := a.(plan := a.plan.(eodTrailLocksAtStart := false));
      && Floor(EodTrailing, pct, locked) <= Floor(EodTrailing, pct, unlocked)
      && (Floor(EodTrailing, pct, locked) < Floor(EodTrailing, pct, unlocked)
          <==> a.dayStartBalance > a.initialBalance + pct * a.initialBalance)
  {
  }

  // ----- Daily ledger -----

  /** The results of the days closed along a run, in order. */
  function ClosedDays(a: Account, inputs: seq<Input>): seq<Money> {
    if inputs == [] then []
    else
      var rest, before, i := ClosedDays(a, Front(inputs)), After(a, Front(inputs)), Last(inputs);
      if Step(before, i).Ok? && DaysClosed(before, i) > 0 then rest + [before.todayRealizedPnl] else rest
  }

  function PositivePart(days: seq<Money>): Money {
    if days == [] then 0.0 else PositivePart(Front(days)) + Max(Last(days), 0.0)
  }

  function BestDay(days: seq<Money>): Money {
    if days == [] then 0.0 else Max(BestDay(Front(days)), Last(days))
  }

  function WorstDay(days: seq<Money>): Money {
    if days == [] then 0.0 else Min(WorstDay(Front(days)), Last(days))
  }

  function PositiveCount(days: seq<Money>): nat {
    if days == [] then 0 else PositiveCount(Front(days)) + if Last(days) > 0.0 then 1 else 0
  }

  /** Explicit rollovers are flagged as the engine's own are: traded exactly when the day's result is not zero. */
  predicate FlagsHonest(a: Account, inputs: seq<Input>) {
    inputs == [] ||
    (FlagsHonest(a, Front(inputs)) &&
     (Last(inputs).event.EvRollover? ==>
        Last(inputs).event.hadTradesToday == (After(a, Front(inputs)).todayRealizedPnl != 0.0)))
  }

  /** The per-day tallies of an account against a list of closed days. */
  predicate Books(a: Account, days: seq<Money>) {
    && a.totalRealizedPnl == Sum(days) + a.todayRealizedPnl
    && a.sumPositiveDaysProfit == PositivePart(days)
    && a.largestDayProfit == BestDay(days)
    && a.largestDayLoss == WorstDay(days)
    && a.profitableDaysCount == PositiveCount(days)
  }

  lemma {:induction false} DayBounds(days: seq<Money>)
    ensures BestDay(days) >= 0.0 && WorstDay(days) <= 0.0
    ensures Sum(days) <= PositivePart(days)
  {
    if days != [] {
      DayBounds(Front(days));
    }
  }

  /** Closing the day moves today's result into the list. */
  lemma {:induction false} CloseBooks(a: Account, days: seq<Money>, index: nat, start: Timestamp)
    requires Books(a, days)
    ensures Books(OpenDay(BookDay(a, a.todayRealizedPnl != 0.0), index, start), days + [a.todayRealizedPnl])
  {
    DayBounds(days);
    FrontLast(days, a.todayRealizedPnl);
  }

  lemma {:induction false} CrossingsPositive(a: Account, ts: Timestamp)
    ensures DaysBehind(a, ts) > 0 <==> Behind(a, ts)
  {
  }

  lemma {:induction false} ReadyBooks(a: Account, ev: PipelineEvent, now: Timestamp, days: seq<Money>)
    requires Books(a, days)
    ensures var r := Ready(a, ev, now); var ts := EventTimestamp(ev, now);
      && Books(r, if !ev.EvRollover? && Behind(a, ts) then days + [a.todayRealizedPnl] else days)
      && (ev.EvRollover? ==> r.todayRealizedPnl == a.todayRealizedPnl)
  {
    var ts := EventTimestamp(ev, now);
    CloseBooks(a, days, a.tradingDayIndex + DaysBehind(a, ts), TradingDayStart(a.plan, ts));
  }

  /** Apart from a rollover an event moves the total and today's result together and leaves the day tallies alone. */
  lemma {:induction false} TransitionTallies(r: Account, ev: PipelineEvent, now: Timestamp)
    requires Transition(r, ev, now).Ok? && !ev.EvRollover?
    ensures var t := Transition(r, ev, now).value.account;
      && t.totalRealizedPnl - t.todayRealizedPnl == r.totalRealizedPnl - r.todayRealizedPnl
      && t.sumPositiveDaysProfit == r.sumPositiveDaysProfit
      && t.largestDayProfit == r.largestDayProfit
      && t.largestDayLoss == r.largestDayLoss
      && t.profitableDaysCount == r.profitableDaysCount
  {
  }

  lemma {:induction false} TransitionBooks(r: Account, ev: PipelineEvent, now: Timestamp, days: seq<Money>)
    requires Transition(r, ev, now).Ok? && Books(r, days)
    requires ev.EvRollover? ==> ev.hadTradesToday == (r.todayRealizedPnl != 0.0)
    ensures Books(Transition(r, ev, now).value.account, if ev.EvRollover? then days + [r.todayRealizedPnl] else days)
  {
    if ev.EvRollover? {
      CloseBooks(r, days, r.tradingDayIndex + 1, RolloverTarget(r, None, now));
    } else {
      TransitionTallies(r, ev, now);
    }
  }

  lemma {:induction false} ConclusionBooks(t: Account, i: Input, days: seq<Money>)
    requires Conclude(t, i).Ok? && Books(t, days) && !Eligible(BeforePromotion(t, i))
    ensures Books(Conclude(t, i).value.account, days)
  {
    BeforePromotionFrame(t, i);
    ConclusionFrame(t, i);
  }

  lemma {:induction false} StepBooks(a: Account, i: Input, days: seq<Money>)
    requires Books(a, days) && Step(a, i).Ok? && !Promotes(a, i)
    requires i.event.EvRollover? ==> i.event.hadTradesToday == (a.todayRealizedPnl != 0.0)
    ensures Books(Next(a, i), if DaysClosed(a, i) > 0 then days + [a.todayRealizedPnl] else days)
  {
    var r, t := StepStages(a, i);
    var ts := EventTimestamp(i.event, i.now);
    CrossingsPositive(a, ts);
    ReadyBooks(a, i.event, i.now, days);
    var ready := if !i.event.EvRollover? && Behind(a, ts) then days + [a.todayRealizedPnl] else days;
    TransitionBooks(r, i.event, i.now, ready);
    ConclusionBooks(t, i, if i.event.EvRollover? then ready + [r.todayRealizedPnl] else ready);
  }

  /** Over every run of the first phase with honestly flagged rollovers: total result, positive-days sum, best and
      worst day and the count of profitable days are those of the list of closed days. */
  lemma {:induction false} BooksBalance(id: int, plan: ChallengePlan, inputs: seq<Input>)
    requires Promotions(NewAccount(id, plan), inputs) == 0 && FlagsHonest(NewAccount(id, plan), inputs)
    ensures Books(After(NewAccount(id, plan), inputs), ClosedDays(NewAccount(id, plan), inputs))
  {
    if inputs != [] {
      var a := NewAccount(id, plan);
      BooksBalance(id, plan, Front(inputs));
      var before := After(a, Front(inputs));
      if Step(before, Last(inputs)).Ok? {
        StepBooks(before, Last(inputs), ClosedDays(a, Front(inputs)));
      }
    }
  }

  /** So at a day boundary of the first phase with a positive total, a consistency warning against the winning days
      implies one against the total: the total is the stricter denominator, although the source calls the other
      one stricter. */
  lemma {:induction false} ConsistencyOrder(id: int, plan: ChallengePlan, inputs: seq<Input>, ctx: RuleContext, cap: real)
    requires Promotions(NewAccount(id, plan), inputs) == 0 && FlagsHonest(NewAccount(id, plan), inputs)
    requires ctx.account == After(NewAccount(id, plan), inputs)
    requires ctx.account.todayRealizedPnl == 0.0 && ctx.account.totalRealizedPnl > 0.0 && cap >= 0.0
    ensures Warns(ctx, BestDayPctOfPositiveDays, cap) ==> Warns(ctx, BestDayPctOfTotal, cap)
  {
    BooksBalance(id, plan, inputs);
    DayBounds(ClosedDays(NewAccount(id, plan), inputs));
    if Warns(ctx, BestDayPctOfPositiveDays, cap) {
      TotalIsTheStricterDenominator(ctx);
    }
  }
}
