/** Floor hints against the ticks that the engine processes: it catches up the days before it applies a tick. */
module HintTicks {
  import opened Common
  import opened Plans
  import opened Accounts
  import opened Evaluators
  import opened Hints
  import opened Pipelines

  /** The account that a tick finds: days caught up and old fills dropped. */
  function Found(a: Account, ts: Timestamp): Account {
    DropOldTrades(CatchUp(a, ts), ts)
  }

  /** The context in which the engine's rules see a tick of `n` cents of equity. */
  function EngineContext(a: Account, q: Quote, n: int, balance: Money, now: Timestamp): RuleContext
    requires !TickRefused(a, q, now)
  {
    var ev := EvTick(q, n as real / 100.0, balance);
    var r := Ready(a, ev, now);
    BuildContext(Transition(r, ev, now).value.account, ListsOf(r), ev, now)
  }

  /** It is the context of the tick on the account it finds. */
  lemma {:induction false} EngineTick(a: Account, q: Quote, n: int, balance: Money, now: Timestamp)
    requires !TickRefused(a, q, now)
    ensures EngineContext(a, q, n, balance, now) == TickContext(Found(a, q.ts), n, balance, now)
  {
  }

  /** Catching up moves only the day's own figures. */
  lemma {:induction false} FoundFrame(a: Account, ts: Timestamp)
    ensures var m := Found(a, ts);
      && m.plan == a.plan && m.initialBalance == a.initialBalance && m.startedAt == a.startedAt
      && m.peakBalance == a.peakBalance && m.peakEquity == a.peakEquity
      && m.dayStartBalance == (if Behind(a, ts) then a.balance else a.dayStartBalance)
      && m.dayStartEquity == (if Behind(a, ts) then a.equity else a.dayStartEquity)
      && m.intradayPeakEquity == (if Behind(a, ts) then a.equity else a.intradayPeakEquity)
  {
  }

  // ----- The total-loss hint -----

  /** The end-of-day floor of a day that opens at a balance. */
  function EndOfDayFloor(a: Account, opening: Money): Money {
    var unlocked := opening - a.plan.maxTotalDrawdownPct * a.initialBalance;
    if a.plan.eodTrailLocksAtStart then Min(unlocked, a.initialBalance) else unlocked
  }

  /** The floor that decides an engine tick: a tick of a later day finds an end-of-day floor drawn from the balance at
      which the account stands. */
  function EngineFloor(a: Account, ts: Timestamp, balance: Money): Money {
    if a.plan.maxLossReference.EodTrailing? && Behind(a, ts) then EndOfDayFloor(a, a.balance) else TickFloor(a, balance)
  }

  /** Of the floors, only the end-of-day one looks at the day's opening. */
  lemma {:induction false} FloorFrame(a: Account, m: Account, balance: Money)
    requires m.plan == a.plan && m.initialBalance == a.initialBalance
    requires m.peakBalance == a.peakBalance && m.peakEquity == a.peakEquity
    ensures TickFloor(m, balance) ==
            if a.plan.maxLossReference.EodTrailing? then EndOfDayFloor(a, m.dayStartBalance) else TickFloor(a, balance)
    ensures !a.plan.maxLossReference.EodTrailing? ==> TotalHintFloor(m) == TotalHintFloor(a)
  {
  }

  lemma {:induction false} FoundFloor(a: Account, ts: Timestamp, balance: Money)
    requires TickDecides(a)
    ensures TickDecides(Found(a, ts)) && TickFloor(Found(a, ts), balance) == EngineFloor(a, ts, balance)
  {
    FoundFrame(a, ts);
    FloorFrame(a, a, balance);
    FloorFrame(a, Found(a, ts), balance);
  }

  lemma {:induction false} EngineTotalTick(a: Account, q: Quote, n: int, balance: Money, now: Timestamp)
    requires TickDecides(a) && !TickRefused(a, q, now)
    ensures IsLiquidate(EvaluateMaxDrawdown(None, EngineContext(a, q, n, balance, now)))
            <==> (n + 1) as real < EngineFloor(a, q.ts, balance) * 100.0
  {
    EngineTick(a, q, n, balance, now);
    FoundFloor(a, q.ts, balance);
    TotalTick(Found(a, q.ts), n, balance, now);
  }

  /** At or above `h` cents no engine tick of the quote and balance liquidates, and two or more cents below each does. */
  ghost predicate TotalBracketed(a: Account, h: int, q: Quote, balance: Money, now: Timestamp)
    requires !TickRefused(a, q, now)
  {
    forall n: int ::
      && (n >= h ==> !IsLiquidate(EvaluateMaxDrawdown(None, EngineContext(a, q, n, balance, now))))
      && (n <= h - 2 ==> IsLiquidate(EvaluateMaxDrawdown(None, EngineContext(a, q, n, balance, now))))
  }

  /** The hint brackets the ticks that the engine accepts, at any later time, exactly when the floor they meet lies within
      a cent of it. */
  lemma {:induction false} EngineTotalHintIff(a: Account, q: Quote, balance: Money, now: Timestamp)
    requires TickDecides(a) && !TickRefused(a, q, now)
    ensures FloorTotalCents(a).Some?
    ensures var h := FloorTotalCents(a).value;
      TotalBracketed(a, h, q, balance, now)
      <==> (h - 1) as real < EngineFloor(a, q.ts, balance) * 100.0 <= (h + 1) as real
  {
    var h := FloorTotalCents(a).value;
    EngineTotalTick(a, q, h, balance, now);
    EngineTotalTick(a, q, h - 2, balance, now);
    if (h - 1) as real < EngineFloor(a, q.ts, balance) * 100.0 <= (h + 1) as real {
      forall n: int
        ensures n >= h ==> !IsLiquidate(EvaluateMaxDrawdown(None, EngineContext(a, q, n, balance, now)))
        ensures n <= h - 2 ==> IsLiquidate(EvaluateMaxDrawdown(None, EngineContext(a, q, n, balance, now)))
      {
        EngineTotalTick(a, q, n, balance, now);
      }
    }
  }

  /** In the static and the intraday mode, and in the end-of-day mode while the day lasts, the hint always brackets. */
  lemma {:induction false} SteadyHintBrackets(a: Account, q: Quote, balance: Money, now: Timestamp)
    requires HintApplies(a) && !TickRefused(a, q, now) && !a.plan.maxLossReference.Trailing?
    requires a.plan.maxLossReference.EodTrailing? ==> !Behind(a, q.ts)
    ensures TotalBracketed(a, FloorTotalCents(a).value, q, balance, now)
  {
    HintRange(TotalHintFloor(a));
    EngineTotalHintIff(a, q, balance, now);
  }

  /** A failing tick: an end-of-day account of the default plan that stands at 12000 has its hint at 9000.00, and a tick of
      10500.00 on the next day liquidates. */
  lemma {:induction false} NextDayHintMisses(q: Quote)
    requires q.ts == DAY
    ensures var a := Start(NewAccount(0, DEFAULT_PLAN.(maxLossReference := EodTrailing)), 0).value.(balance := 12000.0);
      && FloorTotalCents(a) == Some(900000) && !TickRefused(a, q, DAY)
      && IsLiquidate(EvaluateMaxDrawdown(None, EngineContext(a, q, 1050000, 12000.0, DAY)))
  {
    var a := Start(NewAccount(0, DEFAULT_PLAN.(maxLossReference := EodTrailing)), 0).value.(balance := 12000.0);
    assert TotalHintFloor(a) == 9000.0;
    assert Behind(a, DAY);
    assert EngineFloor(a, DAY, 12000.0) == 11000.0;
    EngineTotalTick(a, q, 1050000, 12000.0, DAY);
  }

  // ----- The daily hint -----

  /** The floor of the daily rule that an engine tick meets: a later day is measured from the equity it opens with. */
  function EngineDailyFloor(a: Account, ts: Timestamp): Money {
    if !Behind(a, ts) then DailyFloor(a)
    else a.equity - a.plan.maxDailyDrawdownPct * if a.plan.dailyLossType.PctInitial? then a.initialBalance else a.equity
  }

  /** The daily rule decides both on the hinted day and on the day of the tick. */
  predicate DailyDecidesAt(a: Account, ts: Timestamp) {
    DailyDecides(a) && (Behind(a, ts) && !a.plan.dailyLossType.PctInitial? ==> a.equity >= 0.0)
  }

  lemma {:induction false} FoundDailyFloor(a: Account, ts: Timestamp)
    requires DailyDecidesAt(a, ts)
    ensures DailyDecides(Found(a, ts)) && DailyFloor(Found(a, ts)) == EngineDailyFloor(a, ts)
  {
    FoundFrame(a, ts);
  }

  lemma {:induction false} EngineDailyTick(a: Account, q: Quote, n: int, balance: Money, now: Timestamp)
    requires DailyDecidesAt(a, q.ts) && !TickRefused(a, q, now)
    ensures IsLiquidate(EvaluateDailyDrawdown(None, EngineContext(a, q, n, balance, now)))
            <==> (n + 1) as real < EngineDailyFloor(a, q.ts) * 100.0
  {
    EngineTick(a, q, n, balance, now);
    FoundDailyFloor(a, q.ts);
    DailyTick(Found(a, q.ts), n, balance, now);
  }

  ghost predicate DailyBracketed(a: Account, h: int, q: Quote, balance: Money, now: Timestamp)
    requires !TickRefused(a, q, now)
  {
    forall n: int ::
      && (n >= h ==> !IsLiquidate(EvaluateDailyDrawdown(None, EngineContext(a, q, n, balance, now))))
      && (n <= h - 2 ==> IsLiquidate(EvaluateDailyDrawdown(None, EngineContext(a, q, n, balance, now))))
  }

  /** The daily hint brackets the ticks that the engine accepts, in all three modes and at any later time, exactly when the
      floor they meet lies within a cent of it. */
  lemma {:induction false} EngineDailyHintIff(a: Account, q: Quote, balance: Money, now: Timestamp)
    requires DailyDecidesAt(a, q.ts) && !TickRefused(a, q, now)
    ensures FloorDailyCents(a).Some?
    ensures var h := FloorDailyCents(a).value;
      DailyBracketed(a, h, q, balance, now)
      <==> (h - 1) as real < EngineDailyFloor(a, q.ts) * 100.0 <= (h + 1) as real
  {
    var h := FloorDailyCents(a).value;
    EngineDailyTick(a, q, h, balance, now);
    EngineDailyTick(a, q, h - 2, balance, now);
    if (h - 1) as real < EngineDailyFloor(a, q.ts) * 100.0 <= (h + 1) as real {
      forall n: int
        ensures n >= h ==> !IsLiquidate(EvaluateDailyDrawdown(None, EngineContext(a, q, n, balance, now)))
        ensures n <= h - 2 ==> IsLiquidate(EvaluateDailyDrawdown(None, EngineContext(a, q, n, balance, now)))
      {
        EngineDailyTick(a, q, n, balance, now);
      }
    }
  }

  /** A failing tick: an account of the default plan with an equity of 12000 has its daily hint at 9500.00, and a tick of
      11000.00 on the next day liquidates. */
  lemma {:induction false} NextDayDailyHintMisses(q: Quote)
    requires q.ts == DAY
    ensures var a := Start(NewAccount(0, DEFAULT_PLAN), 0).value.(equity := 12000.0);
      && FloorDailyCents(a) == Some(950000) && !TickRefused(a, q, DAY)
      && IsLiquidate(EvaluateDailyDrawdown(None, EngineContext(a, q, 1100000, 12000.0, DAY)))
  {
    var a := Start(NewAccount(0, DEFAULT_PLAN), 0).value.(equity := 12000.0);
    assert DailyHintFloor(a) == 9500.0;
    assert Behind(a, DAY);
    assert EngineDailyFloor(a, DAY) == 11400.0;
    EngineDailyTick(a, q, 1100000, 12000.0, DAY);
  }
}
