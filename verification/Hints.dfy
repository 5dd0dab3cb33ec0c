/** Floor hints: whole-cent thresholds that tell the broker bridge when the next tick can breach. */
module Hints {
  import opened Common
  import opened Plans
  import opened Accounts
  import opened States
  import opened Verdicts
  import opened Evaluators

  const I64_LIMIT: int := 0x8000_0000_0000_0000

  /** Truncation toward zero; out of the 64-bit range it falls back to zero. */
  function ToCents(m: Money): int {
    var c := m * 100.0;
    var n := if c >= 0.0 then c.Floor else -((-c).Floor);
    if -I64_LIMIT <= n < I64_LIMIT then n else 0
  }

  function DailyHintReference(a: Account): Money {
    match a.plan.dailyLossType
    case PctInitial => a.initialBalance
    case TrailingIntradayHigh => a.intradayPeakEquity
    case _ => a.dayStartEquity
  }

  function DailyHintFloor(a: Account): Money {
    DailyHintReference(a) - a.plan.maxDailyDrawdownPct * DailyHintReference(a)
  }

  function FloorDailyCents(a: Account): Option<int> {
    var pct := a.plan.maxDailyDrawdownPct;
    if !a.plan.drawdownOnBalance && !a.plan.dailyLossType.NoDailyLoss? && pct > 0.0
    then Some(ToCents(DailyHintFloor(a))) else None
  }

  function TotalHintFloor(a: Account): Money {
    var pct := a.plan.maxTotalDrawdownPct;
    var buffer := pct * a.initialBalance;
    match a.plan.maxLossReference
    case Static => a.initialBalance - buffer
    case Trailing => a.peakBalance - pct * a.peakBalance
    case EodTrailing =>
      var unlocked := a.dayStartBalance - buffer;
      if a.plan.eodTrailLocksAtStart then Min(unlocked, a.initialBalance) else unlocked
    case IntradayTrail => a.peakEquity - pct * a.peakEquity
  }

  function FloorTotalCents(a: Account): Option<int> {
    if !a.plan.drawdownOnBalance && a.plan.maxTotalDrawdownPct > 0.0 then Some(ToCents(TotalHintFloor(a))) else None
  }

  // ----- Whole cents against a floor -----

  predicate InRange(floor: Money) {
    0.0 <= floor * 100.0 < I64_LIMIT as real
  }

  /** An amount of `n` cents lies more than one cent below a floor exactly when `n` is at most two below the hint, or one
      below it and the floor is not a whole number of cents. */
  lemma {:induction false} CentsAgainstFloor(floor: Money, n: int)
    requires InRange(floor)
    ensures n as real / 100.0 < floor - 0.01 <==>
            n <= ToCents(floor) - 2 || (n == ToCents(floor) - 1 && floor * 100.0 != ToCents(floor) as real)
  {
    var c := floor * 100.0;
    var h := c.Floor;
    assert h as real <= c < h as real + 1.0;
    assert h < I64_LIMIT && ToCents(floor) == h;
    assert n as real / 100.0 < floor - 0.01 <==> n as real + 1.0 < c;
    if n <= h - 2 {
      assert n as real + 1.0 <= h as real - 1.0;
    } else if n >= h {
      assert n as real + 1.0 >= h as real + 1.0;
    } else {
      assert n as real + 1.0 == h as real;
    }
  }

  // ----- The next broker tick -----

  /** The context of a broker tick of `n` cents of equity on an account whose day it falls into. */
  function TickContext(a: Account, n: int, balance: Money, now: Timestamp): RuleContext {
    var e := n as real / 100.0;
    var b := BrokerReport(a, e, balance);
    RuleContext(b, b.openPositions, b.todayTrades, None, OnTick, BrokerReported(e, balance), now)
  }

  predicate IsLiquidate(r: Result<RuleVerdict>) {
    r.Ok? && r.value.Liquidate?
  }

  lemma {:induction false} HintUsesTheRulesFloor(a: Account)
    requires !a.plan.drawdownOnBalance
    ensures TotalHintFloor(a) == Floor(a.plan.maxLossReference, a.plan.maxTotalDrawdownPct, a)
  {
  }

  lemma {:induction false} Scaled(pct: real, x: Money)
    requires 0.0 <= pct <= 1.0 && x >= 0.0
    ensures 0.0 <= pct * x <= x
  {
  }

  lemma {:induction false} NegativePeak(pct: real, x: Money)
    requires pct <= 1.0 && x < 0.0 && x - pct * x >= 0.0
    ensures pct == 1.0
  {
    assert x - pct * x == (1.0 - pct) * x;
  }

  lemma {:induction false} RisingPeak(pct: real, peak: Money, e: Money)
    requires 0.0 < pct <= 1.0 && peak - pct * peak >= 0.0 && e > peak
    ensures e - pct * e == peak - pct * peak || (peak - pct * peak <= peak && e - pct * e <= e)
  {
    if peak < 0.0 {
      NegativePeak(pct, peak);
    } else {
      Scaled(pct, peak);
      Scaled(pct, e);
    }
  }

  /** The trailing floor once a tick has reported a balance. */
  function RaisedFloor(a: Account, balance: Money): Money {
    var peak := Max(a.peakBalance, balance);
    peak - a.plan.maxTotalDrawdownPct * peak
  }

  /** The floor that decides a tick: the hint's, unless the tick itself raises the balance peak that the floor trails. */
  function TickFloor(a: Account, balance: Money): Money {
    if a.plan.maxLossReference.Trailing? then RaisedFloor(a, balance) else TotalHintFloor(a)
  }

  /** A started account on an equity basis, with a fraction up to one and an equity floor that is not negative. */
  predicate TickDecides(a: Account) {
    && !a.plan.drawdownOnBalance && 0.0 < a.plan.maxTotalDrawdownPct <= 1.0 && a.startedAt.Some?
    && (a.plan.maxLossReference.IntradayTrail? ==> TotalHintFloor(a) >= 0.0)
  }

  /** A tick moves a floor only by lifting a peak. On the equity peak the new floor does not exceed the new equity. */
  lemma {:induction false} FloorAfterTick(a: Account, e: Money, balance: Money)
    requires TickDecides(a)
    ensures var after := Floor(a.plan.maxLossReference, a.plan.maxTotalDrawdownPct, BrokerReport(a, e, balance));
      || after == TickFloor(a, balance)
      || (a.plan.maxLossReference.IntradayTrail? && TotalHintFloor(a) <= a.peakEquity < e && after <= e)
  {
    var b, pct := BrokerReport(a, e, balance), a.plan.maxTotalDrawdownPct;
    match a.plan.maxLossReference {
      case Trailing => assert Floor(Trailing, pct, b) == b.peakBalance - pct * b.peakBalance;
      case IntradayTrail =>
        assert Floor(IntradayTrail, pct, b) == b.peakEquity - pct * b.peakEquity;
        if e > a.peakEquity {
          RisingPeak(pct, a.peakEquity, e);
        } else {
          assert b.peakEquity == a.peakEquity;
        }
      case _ => HintUsesTheRulesFloor(a);
    }
  }

  /** The accounts that a total-loss hint is given for, with a floor in the range of the conversion. */
  predicate HintApplies(a: Account) {
    TickDecides(a) && InRange(TotalHintFloor(a))
  }

  lemma {:induction false} TotalTick(a: Account, n: int, balance: Money, now: Timestamp)
    requires TickDecides(a)
    ensures IsLiquidate(EvaluateMaxDrawdown(None, TickContext(a, n, balance, now)))
            <==> (n + 1) as real < TickFloor(a, balance) * 100.0
  {
    var e := n as real / 100.0;
    FloorAfterTick(a, e, balance);
    CentsBelow(TickFloor(a, balance), n);
    LiquidatesIffBreached(None, TickContext(a, n, balance, now));
  }

  /** What every next broker tick of whole cents on the same trading day does, in all four modes: as long as it does not raise the balance peak
      that a trailing floor follows, it liquidates exactly when two or more cents below the hint, or one cent below a
      floor that is not in whole cents; otherwise exactly when more than a cent below the raised floor. */
  lemma {:induction false} TotalHintBrackets(a: Account, n: int, balance: Money, now: Timestamp)
    requires HintApplies(a)
    ensures FloorTotalCents(a).Some?
    ensures var h := FloorTotalCents(a).value;
      IsLiquidate(EvaluateMaxDrawdown(None, TickContext(a, n, balance, now))) <==>
      if a.plan.maxLossReference.Trailing? && balance > a.peakBalance then (n + 1) as real < RaisedFloor(a, balance) * 100.0
      else n <= h - 2 || (n == h - 1 && TotalHintFloor(a) * 100.0 != h as real)
  {
    TotalTick(a, n, balance, now);
    CentsBelow(TotalHintFloor(a), n);
    CentsAgainstFloor(TotalHintFloor(a), n);
  }

  /** No tick at or above `h` cents liquidates under the total rule, and every tick two or more cents below it does. */
  ghost predicate TotalBracketedAt(a: Account, h: int, balance: Money, now: Timestamp) {
    forall n: int ::
      && (n >= h ==> !IsLiquidate(EvaluateMaxDrawdown(None, TickContext(a, n, balance, now))))
      && (n <= h - 2 ==> IsLiquidate(EvaluateMaxDrawdown(None, TickContext(a, n, balance, now))))
  }

  lemma {:induction false} HintRange(floor: Money)
    requires InRange(floor)
    ensures ToCents(floor) as real <= floor * 100.0 < (ToCents(floor) + 1) as real
  {
  }

  lemma {:induction false} RaisedIsHigher(a: Account, balance: Money)
    requires a.plan.maxTotalDrawdownPct <= 1.0 && a.plan.maxLossReference.Trailing?
    ensures TotalHintFloor(a) <= RaisedFloor(a, balance)
  {
    var pct, peak := a.plan.maxTotalDrawdownPct, Max(a.peakBalance, balance);
    MulMono(1.0 - pct, a.peakBalance, peak);
    assert (1.0 - pct) * a.peakBalance == a.peakBalance - pct * a.peakBalance;
    assert (1.0 - pct) * peak == peak - pct * peak;
  }

  /** On the same trading day the hint brackets the rule at a reported balance in every mode, with one exact exception: in the trailing
      mode a balance that lifts the raised floor more than a cent above the hint. */
  lemma {:induction false} TotalHintBracketsIff(a: Account, balance: Money, now: Timestamp)
    requires HintApplies(a)
    ensures FloorTotalCents(a).Some?
    ensures var h := FloorTotalCents(a).value;
      TotalBracketedAt(a, h, balance, now)
      <==> (a.plan.maxLossReference.Trailing? ==> RaisedFloor(a, balance) * 100.0 <= (h + 1) as real)
  {
    var h := FloorTotalCents(a).value;
    HintRange(TotalHintFloor(a));
    if a.plan.maxLossReference.Trailing? {
      RaisedIsHigher(a, balance);
    }
    TotalTick(a, h, balance, now);
    if TickFloor(a, balance) * 100.0 <= (h + 1) as real {
      forall n: int
        ensures n >= h ==> !IsLiquidate(EvaluateMaxDrawdown(None, TickContext(a, n, balance, now)))
        ensures n <= h - 2 ==> IsLiquidate(EvaluateMaxDrawdown(None, TickContext(a, n, balance, now)))
      {
        TotalTick(a, n, balance, now);
      }
    }
  }

  /** A failing tick: a new account of the default plan has its hint at 9000.00, and a tick of exactly that equity
      liquidates when it also reports a balance of 12000. */
  lemma {:induction false} TrailingHintMisses(now: Timestamp)
    ensures var a := Start(NewAccount(0, DEFAULT_PLAN), 0).value;
      && FloorTotalCents(a) == Some(900000)
      && IsLiquidate(EvaluateMaxDrawdown(None, TickContext(a, 900000, 12000.0, now)))
  {
    var a := Start(NewAccount(0, DEFAULT_PLAN), 0).value;
    assert TotalHintFloor(a) == 9000.0;
    assert RaisedFloor(a, 12000.0) == 10800.0;
    TotalTick(a, 900000, 12000.0, now);
  }

  /** The rule's daily breach point: below it, less a cent, a hard daily rule liquidates. */
  function DailyFloor(a: Account): Money {
    DailyAnchor(a) - a.plan.maxDailyDrawdownPct * DailyReference(a)
  }

  lemma {:induction false} DailyLiquidatesIff(ctx: RuleContext)
    requires var a := ctx.account;
      && a.plan.maxDailyDrawdownPct > 0.0 && !a.plan.dailyLossType.NoDailyLoss? && !a.plan.dailyLossSoft
      && a.startedAt.Some? && ctx.equityInput.BrokerReported? && a.plan.maxDailyDrawdownPct * DailyReference(a) >= 0.0
    ensures IsLiquidate(EvaluateDailyDrawdown(None, ctx))
            <==> CurrentValue(ctx.account, ctx.account.equity) < DailyFloor(ctx.account) - 0.01
  {
  }

  lemma {:induction false} DailyFloorAfterTick(a: Account, e: Money, balance: Money)
    requires a.plan.dailyLossType.PctPriorDay? || a.plan.dailyLossType.TrailingIntradayHigh?
    requires !a.plan.drawdownOnBalance && 0.0 < a.plan.maxDailyDrawdownPct <= 1.0 && DailyHintReference(a) >= 0.0
    ensures var b := BrokerReport(a, e, balance);
      && a.plan.maxDailyDrawdownPct * DailyReference(b) >= 0.0
      && (DailyFloor(b) == DailyHintFloor(a) || (DailyHintFloor(a) <= DailyHintReference(a) < e && DailyFloor(b) <= e))
  {
    var pct := a.plan.maxDailyDrawdownPct;
    Scaled(pct, DailyHintReference(a));
    if a.plan.dailyLossType.TrailingIntradayHigh? && e > a.intradayPeakEquity {
      Scaled(pct, e);
    }
  }

  /** On the same trading day the daily hint brackets the hard daily rule in the same way when the limit is a share of the prior day or trails the
      intraday high. */
  lemma {:induction false} DailyHintBrackets(a: Account, n: int, balance: Money, now: Timestamp)
    requires a.plan.dailyLossType.PctPriorDay? || a.plan.dailyLossType.TrailingIntradayHigh?
    requires !a.plan.drawdownOnBalance && !a.plan.dailyLossSoft && 0.0 < a.plan.maxDailyDrawdownPct <= 1.0
    requires a.startedAt.Some? && DailyHintReference(a) >= 0.0 && InRange(DailyHintFloor(a))
    ensures FloorDailyCents(a).Some?
    ensures var h := FloorDailyCents(a).value;
      IsLiquidate(EvaluateDailyDrawdown(None, TickContext(a, n, balance, now))) <==>
      n <= h - 2 || (n == h - 1 && DailyHintFloor(a) * 100.0 != h as real)
  {
    assert DailyReference(a) == DailyHintReference(a) && DailyFloor(a) == DailyHintFloor(a);
    MovingTick(a, n, balance, now);
    CentsBelow(DailyHintFloor(a), n);
    CentsAgainstFloor(DailyHintFloor(a), n);
  }

  /** Under a limit on the initial balance the hint misses the rule's breach point by exactly the day's opening gain: the
      hint subtracts from the initial balance, the rule from the day's start. */
  lemma {:induction false} InitialHintIsOffByTheDayStart(a: Account)
    requires a.plan.dailyLossType.PctInitial? && !a.plan.drawdownOnBalance
    ensures DailyFloor(a) - DailyHintFloor(a) == a.dayStartEquity - a.initialBalance
  {
  }

  lemma {:induction false} CentsBelow(floor: Money, n: int)
    ensures n as real / 100.0 < floor - 0.01 <==> (n + 1) as real < floor * 100.0
  {
  }

  /** No tick at or above `h` cents liquidates under the daily rule, and every tick two or more cents below it does. */
  ghost predicate DailyBracketedAt(a: Account, h: int, balance: Money, now: Timestamp) {
    forall n: int ::
      && (n >= h ==> !IsLiquidate(EvaluateDailyDrawdown(None, TickContext(a, n, balance, now))))
      && (n <= h - 2 ==> IsLiquidate(EvaluateDailyDrawdown(None, TickContext(a, n, balance, now))))
  }

  /** A hard daily limit on an equity basis whose amount is not negative. */
  predicate DailyDecides(a: Account) {
    && !a.plan.drawdownOnBalance && !a.plan.dailyLossSoft && !a.plan.dailyLossType.NoDailyLoss?
    && 0.0 < a.plan.maxDailyDrawdownPct <= 1.0 && a.startedAt.Some? && DailyReference(a) >= 0.0
  }

  /** In all three modes a tick liquidates exactly when more than a cent below the floor it finds. */
  lemma {:induction false} DailyTick(a: Account, n: int, balance: Money, now: Timestamp)
    requires DailyDecides(a)
    ensures IsLiquidate(EvaluateDailyDrawdown(None, TickContext(a, n, balance, now)))
            <==> (n + 1) as real < DailyFloor(a) * 100.0
  {
    if a.plan.dailyLossType.PctInitial? {
      InitialTick(a, n, balance, now);
    } else {
      MovingTick(a, n, balance, now);
    }
  }

  lemma {:induction false} BelowEither(e: Money, floor: Money, after: Money)
    requires after == floor || (floor <= e && after <= e)
    ensures e < after - 0.01 <==> e < floor - 0.01
  {
  }

  lemma {:induction false} MovingTick(a: Account, n: int, balance: Money, now: Timestamp)
    requires DailyDecides(a) && !a.plan.dailyLossType.PctInitial?
    ensures IsLiquidate(EvaluateDailyDrawdown(None, TickContext(a, n, balance, now)))
            <==> (n + 1) as real < DailyFloor(a) * 100.0
  {
    assert DailyHintReference(a) == DailyReference(a) == DailyAnchor(a);
    DailyFloorAfterTick(a, n as real / 100.0, balance);
    BelowEither(n as real / 100.0, DailyFloor(a), DailyFloor(BrokerReport(a, n as real / 100.0, balance)));
    DailyLiquidatesIff(TickContext(a, n, balance, now));
    CentsBelow(DailyFloor(a), n);
  }

  lemma {:induction false} InitialTick(a: Account, n: int, balance: Money, now: Timestamp)
    requires a.plan.dailyLossType.PctInitial? && !a.plan.drawdownOnBalance && !a.plan.dailyLossSoft
    requires a.plan.maxDailyDrawdownPct > 0.0 && a.initialBalance >= 0.0 && a.startedAt.Some?
    ensures IsLiquidate(EvaluateDailyDrawdown(None, TickContext(a, n, balance, now)))
            <==> (n + 1) as real < DailyFloor(a) * 100.0
  {
    var ctx := TickContext(a, n, balance, now);
    assert DailyFloor(ctx.account) == DailyFloor(a);
    DailyLiquidatesIff(ctx);
    CentsBelow(DailyFloor(a), n);
  }

  /** So under that limit, on the same trading day, the hint brackets the rule exactly when the day's opening gain in cents, together with the
      fraction of a cent that the hint dropped, stays within a cent. */
  lemma {:induction false} InitialHintBracketsIff(a: Account, balance: Money, now: Timestamp)
    requires a.plan.dailyLossType.PctInitial? && !a.plan.drawdownOnBalance && !a.plan.dailyLossSoft
    requires a.plan.maxDailyDrawdownPct > 0.0 && a.initialBalance >= 0.0 && a.startedAt.Some?
    ensures FloorDailyCents(a).Some?
    ensures var h := FloorDailyCents(a).value;
      var gap, dropped := (a.dayStartEquity - a.initialBalance) * 100.0, DailyHintFloor(a) * 100.0 - h as real;
      DailyBracketedAt(a, h, balance, now) <==> -1.0 < gap + dropped <= 1.0
  {
    var h := FloorDailyCents(a).value;
    InitialHintIsOffByTheDayStart(a);
    InitialTick(a, h, balance, now);
    InitialTick(a, h - 2, balance, now);
    if (h - 1) as real < DailyFloor(a) * 100.0 <= (h + 1) as real {
      forall n: int
        ensures n >= h ==> !IsLiquidate(EvaluateDailyDrawdown(None, TickContext(a, n, balance, now)))
        ensures n <= h - 2 ==> IsLiquidate(EvaluateDailyDrawdown(None, TickContext(a, n, balance, now)))
      {
        InitialTick(a, n, balance, now);
      }
    }
  }

  /** A failing account: the default plan with such a limit, on a day that opened at 11000. The hint is 9500.00, and a
      tick of 10000.00 liquidates. */
  lemma {:induction false} InitialHintMisses(balance: Money, now: Timestamp)
    ensures var plan := DEFAULT_PLAN.(dailyLossType := PctInitial);
      var a := Start(NewAccount(0, plan), 0).value.(dayStartEquity := 11000.0);
      && FloorDailyCents(a) == Some(950000)
      && IsLiquidate(EvaluateDailyDrawdown(None, TickContext(a, 1000000, balance, now)))
  {
    var plan := DEFAULT_PLAN.(dailyLossType := PctInitial);
    var a := Start(NewAccount(0, plan), 0).value.(dayStartEquity := 11000.0);
    assert DailyHintFloor(a) == 9500.0;
    assert DailyFloor(a) == 10500.0;
    InitialTick(a, 1000000, balance, now);
  }

  // ----- The handler that issues the hints -----

  /** A broker report as the evaluation handler takes it: unlike the engine it does not lift the intraday peak. */
  function HandlerReport(a: Account, equity: Money, balance: Money): Account {
    BrokerReport(a, equity, balance).(intradayPeakEquity := a.intradayPeakEquity)
  }

  function ReportContext(b: Account, now: Timestamp): RuleContext {
    RuleContext(b, b.openPositions, b.todayTrades, None, OnTick, BrokerReported(b.equity, b.balance), now)
  }

  /** The daily rule's liquidation on an account as last reported. */
  predicate DailyLiquidates(b: Account, now: Timestamp) {
    IsLiquidate(EvaluateDailyDrawdown(None, ReportContext(b, now)))
  }

  /** The floor under an intraday high. */
  function IntradayFloor(pct: real, high: Money): Money {
    high - pct * high
  }

  lemma {:induction false} IntradayLiquidatesIff(b: Account, now: Timestamp)
    requires DailyDecides(b) && b.plan.dailyLossType.TrailingIntradayHigh?
    ensures DailyLiquidates(b, now) <==>
            b.equity < IntradayFloor(b.plan.maxDailyDrawdownPct, b.intradayPeakEquity) - 0.01
  {
    Scaled(b.plan.maxDailyDrawdownPct, b.intradayPeakEquity);
    DailyLiquidatesIff(ReportContext(b, now));
  }

  lemma {:induction false} HigherHigh(pct: real, low: Money, high: Money)
    requires 0.0 < pct <= 1.0 && 0.0 <= low <= high
    ensures IntradayFloor(pct, low) <= IntradayFloor(pct, high) <= high
  {
    MulMono(1.0 - pct, low, high);
    assert (1.0 - pct) * low == low - pct * low;
    assert (1.0 - pct) * high == high - pct * high;
    Scaled(pct, high);
  }

  lemma {:induction false} TwoHighs(pct: real, was: Money, e1: Money, e2: Money)
    requires 0.0 < pct <= 1.0 && 0.0 <= was
    ensures var peak := Max(Max(was, e1), e2);
      (e2 < IntradayFloor(pct, peak) - 0.01) != (e2 < IntradayFloor(pct, was) - 0.01) <==>
      e1 > was && IntradayFloor(pct, was) - 0.01 <= e2 < IntradayFloor(pct, e1) - 0.01
  {
    HigherHigh(pct, was, Max(was, e1));
    HigherHigh(pct, Max(was, e1), Max(Max(was, e1), e2));
  }

  lemma {:induction false} TwoReports(a: Account, e1: Money, b1: Money, e2: Money, b2: Money)
    requires DailyDecides(a) && a.plan.dailyLossType.TrailingIntradayHigh?
    ensures var engine := BrokerReport(BrokerReport(a, e1, b1), e2, b2);
      DailyDecides(engine) && engine.equity == e2 && engine.plan == a.plan
      && engine.intradayPeakEquity == Max(Max(a.intradayPeakEquity, e1), e2)
    ensures var handler := HandlerReport(HandlerReport(a, e1, b1), e2, b2);
      DailyDecides(handler) && handler.equity == e2 && handler.plan == a.plan
      && handler.intradayPeakEquity == a.intradayPeakEquity >= 0.0
  {
  }

  /** Handler and engine against the intraday high: after a first report the two differ on a second one exactly when the
      first set a new high and the second lies more than a cent below that high's floor but not below the old one's. */
  lemma {:induction false} HandlerForgetsTheHigh(a: Account, e1: Money, b1: Money, e2: Money, b2: Money, now: Timestamp)
    requires DailyDecides(a) && a.plan.dailyLossType.TrailingIntradayHigh?
    ensures var engine := BrokerReport(BrokerReport(a, e1, b1), e2, b2);
      var handler := HandlerReport(HandlerReport(a, e1, b1), e2, b2);
      var pct, was := a.plan.maxDailyDrawdownPct, a.intradayPeakEquity;
      DailyLiquidates(engine, now) != DailyLiquidates(handler, now) <==>
      e1 > was && IntradayFloor(pct, was) - 0.01 <= e2 < IntradayFloor(pct, e1) - 0.01
  {
    TwoReports(a, e1, b1, e2, b2);
    IntradayLiquidatesIff(BrokerReport(BrokerReport(a, e1, b1), e2, b2), now);
    IntradayLiquidatesIff(HandlerReport(HandlerReport(a, e1, b1), e2, b2), now);
    TwoHighs(a.plan.maxDailyDrawdownPct, a.intradayPeakEquity, e1, e2);
  }
}
