/** Every started run can be replayed, and what its replay always, never or sometimes keeps beyond the money fields. */
module ReplayRecords {
  import opened Common
  import opened Plans
  import opened Accounts
  import opened Payouts
  import opened Verdicts
  import opened Decisions
  import opened DomainEvents
  import opened Pipelines
  import opened Runs
  import opened EventStores
  import opened Replays
  import opened ReplayStatuses

  // ----- Replay refuses nothing but a second start -----

  ghost predicate NoStart(events: seq<DomainEvent>) {
    forall e :: e in events ==> !e.kind.AccountStarted?
  }

  lemma {:induction false} NoStartReplays(a: Account, events: seq<DomainEvent>)
    requires NoStart(events)
    ensures ReplayAll(a, events).Ok?
  {
    if events != [] {
      NoStartReplays(a, Front(events));
      assert Last(events) in events;
    }
  }

  lemma {:induction false} TransitionNoStart(r: Account, ev: PipelineEvent, now: Timestamp)
    requires Transition(r, ev, now).Ok? && !r.status.Pending?
    ensures NoStart(Transition(r, ev, now).value.events)
  {
  }

  lemma {:induction false} ConclusionNoStart(t: Account, i: Input)
    requires Conclude(t, i).Ok?
    ensures NoStart(Conclude(t, i).value.events)
  {
    ConclusionEventsNeutral(t, i);
  }

  lemma {:induction false} StepNoStart(a: Account, i: Input)
    requires Underway(a) && Step(a, i).Ok?
    ensures NoStart(Emitted(a, i))
  {
    var r, t := StepStages(a, i);
    TransitionNoStart(r, i.event, i.now);
    ConclusionNoStart(t, i);
    EmittedSplit(a, i);
  }

  /** The first step of a started run: its events open with the start. */
  lemma {:induction false} StartStep(id: int, plan: ChallengePlan, i: Input)
    requires i.event.EvStarted? && Step(NewAccount(id, plan), i).Ok?
    ensures var a := NewAccount(id, plan);
      && Emitted(a, i) == [DomainEvent(id, AccountStarted(plan), i.event.at)]
                          + Conclude(Start(a, i.event.at).value, i).value.events
      && Conclude(Start(a, i.event.at).value, i).Ok? && Underway(Next(a, i))
      && Next(a, i) == Conclude(Start(a, i.event.at).value, i).value.account
  {
    var a := NewAccount(id, plan);
    var r, t := StepStages(a, i);
    assert r == a;
    assert t == Start(a, i.event.at).value;
    TransitionUnderway(r, i.event, i.now);
    ConclusionUnderway(t, i);
    EmittedSplit(a, i);
    assert ReadyEvents(a, i.event, i.now) == [];
  }

  lemma {:induction false} StartReplays(id: int, plan: ChallengePlan, i: Input)
    requires i.event.EvStarted? && Step(NewAccount(id, plan), i).Ok?
    ensures var a := NewAccount(id, plan); var t := Start(a, i.event.at).value;
      && Conclude(t, i).Ok? && ReplayAll(a, Emitted(a, i)) == ReplayAll(t, Conclude(t, i).value.events)
      && ReplayAll(a, Emitted(a, i)).Ok?
  {
    var a := NewAccount(id, plan);
    StartStep(id, plan, i);
    var t, start := Start(a, i.event.at).value, [DomainEvent(id, AccountStarted(plan), i.event.at)];
    SingleReplay(a, start[0]);
    ReplayConcat(a, start, Conclude(t, i).value.events);
    ConclusionNoStart(t, i);
    NoStartReplays(t, Conclude(t, i).value.events);
  }

  /** Every run that starts a new account, whatever its inputs, leaves a log that replays without error. */
  lemma {:induction false} StartedRunsReplay(id: int, plan: ChallengePlan, inputs: seq<Input>)
    requires StartsAccount(NewAccount(id, plan), inputs)
    ensures var a, log := NewAccount(id, plan), Log(NewAccount(id, plan), inputs);
      && log != [] && log[0].kind == AccountStarted(plan)
      && Rebuilt(id, log) == ReplayAll(a, log) && Rebuilt(id, log).Ok?
      && Underway(After(a, inputs))
  {
    var a := NewAccount(id, plan);
    if |inputs| == 1 {
      assert Front(inputs) == [];
      StartStep(id, plan, inputs[0]);
      StartReplays(id, plan, inputs[0]);
      assert [] + Emitted(a, inputs[0]) == Emitted(a, inputs[0]);
    } else {
      StartedRunsReplay(id, plan, Front(inputs));
      var before, i := After(a, Front(inputs)), Last(inputs);
      StepUnderway(before, i);
      var log, more := Log(a, Front(inputs)), Emitted(before, i);
      ReplayConcat(a, log, more);
      if Step(before, i).Ok? {
        StepNoStart(before, i);
      }
      NoStartReplays(Rebuilt(id, log).value, more);
    }
  }

  /** So every started run whose status and equity the log carries is rebuilt with both. */
  lemma {:induction false} StartedRunsKeepStatus(id: int, plan: ChallengePlan, inputs: seq<Input>)
    requires StartsAccount(NewAccount(id, plan), inputs) && AllCarried(NewAccount(id, plan), inputs)
    ensures var b, s := After(NewAccount(id, plan), inputs), Rebuilt(id, Log(NewAccount(id, plan), inputs));
      s.Ok? && s.value.status == b.status && s.value.equity == b.equity
  {
    StartedRunsReplay(id, plan, inputs);
    StatusReplaysOverRuns(NewAccount(id, plan), inputs);
  }

  // ----- What replay always keeps, and what it never counts -----

  /** The payout record and the account type agree; the replayed account has counted no trading day. */
  predicate SameRecord(a: Account, s: Account) {
    && s.payoutCount == a.payoutCount && s.lastPayoutAt == a.lastPayoutAt && s.refundUsed == a.refundUsed
    && s.accountType == a.accountType
    && s.activeTradingDays == 0 && s.todayRealizedPnl == 0.0
  }

  /** Events that leave all of these fields alone in a replay. */
  predicate Unrecorded(e: DomainEvent) {
    !e.kind.PayoutApproved? && !e.kind.PlanUpgraded? && !e.kind.AccountSnapshotted? && !e.kind.DayRolledOver?
  }

  lemma {:induction false} UnrecordedEvent(a: Account, s: Account, e: DomainEvent)
    requires SameRecord(a, s) && Unrecorded(e) && ReplayEvent(s, e).Ok?
    ensures SameRecord(a, ReplayEvent(s, e).value)
  {
  }

  lemma {:induction false} UnrecordedReplay(a: Account, s: Account, events: seq<DomainEvent>)
    requires SameRecord(a, s) && ReplayAll(s, events).Ok? && forall e :: e in events ==> Unrecorded(e)
    ensures SameRecord(a, ReplayAll(s, events).value)
  {
    if events != [] {
      UnrecordedReplay(a, s, Front(events));
      assert Unrecorded(Last(events));
      UnrecordedEvent(a, ReplayAll(s, Front(events)).value, Last(events));
    }
  }

  lemma {:induction false} ReadyKeepsRecord(a: Account, s: Account, ev: PipelineEvent, now: Timestamp)
    requires SameRecord(a, s)
    ensures SameRecord(Ready(a, ev, now), s)
  {
  }

  lemma {:induction false} DayRecord(a: Account, s: Account, e: DomainEvent)
    requires SameRecord(a, s) && e.kind.DayRolledOver?
    ensures ReplayEvent(s, e).Ok? && SameRecord(a, ReplayEvent(s, e).value)
  {
  }

  lemma {:induction false} ReadyRecord(a: Account, s: Account, ev: PipelineEvent, now: Timestamp)
    requires SameRecord(a, s)
    ensures ReplayAll(s, ReadyEvents(a, ev, now)).Ok?
    ensures SameRecord(Ready(a, ev, now), ReplayAll(s, ReadyEvents(a, ev, now)).value)
  {
    ReadyKeepsRecord(a, s, ev, now);
    if !ev.EvRollover? && Behind(a, EventTimestamp(ev, now)) {
      var e := ReadyEvents(a, ev, now)[0];
      SingleReplay(s, e);
      DayRecord(Ready(a, ev, now), s, e);
    }
  }

  lemma {:induction false} ApprovalRecord(r: Account, s: Account, now: Timestamp)
    requires SameRecord(r, s) && Transition(r, EvPayoutApprove, now).Ok?
    ensures var o, q := Transition(r, EvPayoutApprove, now).value, ReplayAll(s, Transition(r, EvPayoutApprove, now).value.events);
      q.Ok? && SameRecord(o.account, q.value)
  {
    var events := Transition(r, EvPayoutApprove, now).value.events;
    SingleReplay(s, events[0]);
    assert events == [events[0]];
  }

  lemma {:induction false} RolloverRecord(r: Account, s: Account, ev: PipelineEvent, now: Timestamp)
    requires SameRecord(r, s) && ev.EvRollover?
    ensures var o, q := Transition(r, ev, now).value, ReplayAll(s, Transition(r, ev, now).value.events);
      q.Ok? && SameRecord(o.account, q.value)
  {
    var events := Transition(r, ev, now).value.events;
    SingleReplay(s, events[0]);
    assert events == [events[0]];
  }

  lemma {:induction false} OtherRecord(r: Account, ev: PipelineEvent, now: Timestamp)
    requires Transition(r, ev, now).Ok? && !ev.EvPayoutApprove? && !ev.EvRollover?
    ensures var o := Transition(r, ev, now).value;
      && (forall e :: e in o.events ==> Unrecorded(e))
      && forall s :: SameRecord(r, s) ==> SameRecord(o.account, s)
  {
  }

  lemma {:induction false} TransitionRecord(r: Account, s: Account, ev: PipelineEvent, now: Timestamp)
    requires SameRecord(r, s) && !r.status.Pending? && Transition(r, ev, now).Ok?
    ensures var o, q := Transition(r, ev, now).value, ReplayAll(s, Transition(r, ev, now).value.events);
      q.Ok? && SameRecord(o.account, q.value)
  {
    if ev.EvPayoutApprove? {
      ApprovalRecord(r, s, now);
    } else if ev.EvRollover? {
      RolloverRecord(r, s, ev, now);
    } else {
      OtherRecord(r, ev, now);
      TransitionNoStart(r, ev, now);
      NoStartReplays(s, Transition(r, ev, now).value.events);
      UnrecordedReplay(r, s, Transition(r, ev, now).value.events);
      OtherRecord(r, ev, now);
    }
  }

  /** The record after the promotion test. */
  lemma {:induction false} PromotionRecord(h: Account, s: Account, at: Timestamp)
    requires SameRecord(h, s) && AfterPromotion(h).Ok?
    ensures var q := ReplayAll(s, PromotionEvents(h, at)); q.Ok? && SameRecord(AfterPromotion(h).value, q.value)
  {
    if Eligible(h) {
      var events := PromotionEvents(h, at);
      assert events == [events[0]] + [events[1]];
      SingleReplay(s, events[0]);
      SingleReplay(ReplayAll(s, [events[0]]).value, events[1]);
      ReplayConcat(s, [events[0]], [events[1]]);
    }
  }

  lemma {:induction false} QuietPart(a: Account, s: Account, events: seq<DomainEvent>)
    requires SameRecord(a, s) && NoStart(events) && forall e :: e in events ==> Unrecorded(e)
    ensures ReplayAll(s, events).Ok? && SameRecord(a, ReplayAll(s, events).value)
  {
    NoStartReplays(s, events);
    UnrecordedReplay(a, s, events);
  }

  lemma {:induction false} DecisionRecord(f: Account, s: Account, d: Decision, at: Timestamp)
    requires SameRecord(f, s) && ApplyDecision(f, d, at).Ok?
    ensures var o, q := ApplyDecision(f, d, at).value, ReplayAll(s, ApplyDecision(f, d, at).value.events);
      q.Ok? && SameRecord(o.account, q.value)
  {
    var h := AfterTarget(f, d, at);
    var b := AfterPromotion(h).value;
    var x, y, z := TargetEvents(f, d, at), PromotionEvents(h, at), TerminationEvents(b, d, at);
    assert SameRecord(h, s);
    QuietPart(h, s, x);
    var s1 := ReplayAll(s, x).value;
    PromotionRecord(h, s1, at);
    var s2 := ReplayAll(s1, y).value;
    QuietPart(b, s2, z);
    ReplayConcat(s, x, y);
    ReplayConcat(s, x + y, z);
  }

  lemma {:induction false} ClosingUnrecorded(id: int, reports: seq<RuleReport>, now: Timestamp)
    ensures NoStart(ClosingEvents(id, reports, now))
    ensures forall e :: e in ClosingEvents(id, reports, now) ==> Unrecorded(e)
  {
    ViolationsUnrecorded(id, ViolationsOf(reports), now);
  }

  lemma {:induction false} ViolationsUnrecorded(id: int, vs: seq<Violation>, at: Timestamp)
    ensures forall e :: e in ViolationEvents(id, vs, at) ==> e.kind.RuleViolated?
  {
    if vs != [] {
      ViolationsUnrecorded(id, Front(vs), at);
    }
  }

  lemma {:induction false} ConclusionRecord(t: Account, s: Account, i: Input)
    requires SameRecord(t, s) && Conclude(t, i).Ok?
    ensures var o, q := Conclude(t, i).value, ReplayAll(s, Conclude(t, i).value.events);
      q.Ok? && SameRecord(o.account, q.value)
  {
    var f, d := ConsumeFill(t, i.event, i.freshId), Arbitrate(i.reports);
    DecisionRecord(f, s, d, i.now);
    var decided, closing := ApplyDecision(f, d, i.now).value, ClosingEvents(t.id, i.reports, i.now);
    ClosingUnrecorded(t.id, i.reports, i.now);
    QuietPart(decided.account, ReplayAll(s, decided.events).value, closing);
    ReplayConcat(s, decided.events, closing);
  }

  lemma {:induction false} StepRecord(a: Account, s: Account, i: Input)
    requires SameRecord(a, s) && Underway(a) && Step(a, i).Ok?
    ensures var q := ReplayAll(s, Emitted(a, i)); q.Ok? && SameRecord(Next(a, i), q.value)
  {
    var r, t := StepStages(a, i);
    var o := Transition(r, i.event, i.now).value;
    var x, y, z := ReadyEvents(a, i.event, i.now), o.events, Conclude(t, i).value.events;
    ReadyRecord(a, s, i.event, i.now);
    var s1 := ReplayAll(s, x).value;
    TransitionRecord(r, s1, i.event, i.now);
    var s2 := ReplayAll(s1, y).value;
    ConclusionRecord(t, s2, i);
    EmittedSplit(a, i);
    ReplayConcat(s1, y, z);
    ReplayConcat(s, x, y + z);
  }

  /** Over every started run, whatever its inputs: the rebuilt account has the pipeline's payout count, last payout time,
      refund flag and account type, and it has counted no active trading day, however many there were. */
  lemma {:induction false} ReplayKeepsTheRecord(id: int, plan: ChallengePlan, inputs: seq<Input>)
    requires StartsAccount(NewAccount(id, plan), inputs)
    ensures var s := Rebuilt(id, Log(NewAccount(id, plan), inputs));
      s.Ok? && SameRecord(After(NewAccount(id, plan), inputs), s.value)
  {
    var a := NewAccount(id, plan);
    StartedRunsReplay(id, plan, inputs);
    if |inputs| == 1 {
      assert Front(inputs) == [];
      StartStep(id, plan, inputs[0]);
      StartReplays(id, plan, inputs[0]);
      ConclusionRecord(Start(a, inputs[0].event.at).value, Start(a, inputs[0].event.at).value, inputs[0]);
      assert [] + Emitted(a, inputs[0]) == Emitted(a, inputs[0]);
    } else {
      var before, i := After(a, Front(inputs)), Last(inputs);
      ReplayKeepsTheRecord(id, plan, Front(inputs));
      StartedRunsReplay(id, plan, Front(inputs));
      var log, more := Log(a, Front(inputs)), Emitted(before, i);
      ReplayConcat(a, log, more);
      if Step(before, i).Ok? {
        StepRecord(before, Rebuilt(id, log).value, i);
      } else {
        assert log + more == log;
      }
    }
  }

  // ----- Watermark and equity peak -----

  /** Only an approval writes the replayed watermark, and only a tick the replayed equity peak. */
  lemma {:induction false} UntouchedReplay(s: Account, events: seq<DomainEvent>)
    requires ReplayAll(s, events).Ok? && forall e :: e in events ==> !e.kind.AccountSnapshotted?
    ensures (forall e :: e in events ==> !e.kind.PayoutApproved?) ==>
              ReplayAll(s, events).value.balanceAtLastPayout == s.balanceAtLastPayout
    ensures (forall e :: e in events ==> !e.kind.TickEvaluated?) ==>
              ReplayAll(s, events).value.peakEquity == s.peakEquity
    ensures (forall e :: e in events ==> !e.kind.PayoutApproved? && !e.kind.TradeFilled?) ==>
              ReplayAll(s, events).value.balance == s.balance
  {
    if events != [] {
      assert forall e :: e in events <==> e in Front(events) || e == Last(events);
      UntouchedReplay(s, Front(events));
    }
  }

  /** Events that touch neither. */
  ghost predicate Untouching(events: seq<DomainEvent>) {
    forall e :: e in events ==>
      !e.kind.AccountSnapshotted? && !e.kind.PayoutApproved? && !e.kind.TickEvaluated? && !e.kind.TradeFilled?
  }

  lemma {:induction false} ReadyUntouching(a: Account, ev: PipelineEvent, now: Timestamp)
    ensures Untouching(ReadyEvents(a, ev, now)) && NoStart(ReadyEvents(a, ev, now))
  {
  }

  lemma {:induction false} ConclusionUntouching(t: Account, i: Input)
    requires Conclude(t, i).Ok?
    ensures Untouching(Conclude(t, i).value.events)
  {
    var f, d := ConsumeFill(t, i.event, i.freshId), Arbitrate(i.reports);
    var h := AfterTarget(f, d, i.now);
    var b := AfterPromotion(h).value;
    assert Untouching(TargetEvents(f, d, i.now)) && Untouching(PromotionEvents(h, i.now));
    assert Untouching(TerminationEvents(b, d, i.now));
    ViolationsUnrecorded(t.id, ViolationsOf(i.reports), i.now);
    assert Untouching(ClosingEvents(t.id, i.reports, i.now));
  }

  /** The two fields after replaying a step come from its transition alone, replayed on some account `m`. */
  lemma {:induction false} StepTouches(a: Account, s: Account, i: Input) returns (m: Account)
    requires Underway(a) && Step(a, i).Ok?
    ensures m.balance == s.balance && m.balanceAtLastPayout == s.balanceAtLastPayout && m.peakEquity == s.peakEquity
    ensures var events := Transition(Ready(a, i.event, i.now), i.event, i.now).value.events;
        && ReplayAll(m, events).Ok? && ReplayAll(s, Emitted(a, i)).Ok?
        && ReplayAll(s, Emitted(a, i)).value.balanceAtLastPayout == ReplayAll(m, events).value.balanceAtLastPayout
        && ReplayAll(s, Emitted(a, i)).value.peakEquity == ReplayAll(m, events).value.peakEquity
  {
    var r, t := StepStages(a, i);
    var x, y, z := ReadyEvents(a, i.event, i.now), Transition(r, i.event, i.now).value.events, Conclude(t, i).value.events;
    ReadyUntouching(a, i.event, i.now);
    NoStartReplays(s, x);
    UntouchedReplay(s, x);
    m := ReplayAll(s, x).value;
    TransitionNoStart(r, i.event, i.now);
    NoStartReplays(m, y);
    ConclusionNoStart(t, i);
    ConclusionUntouching(t, i);
    NoStartReplays(ReplayAll(m, y).value, z);
    UntouchedReplay(ReplayAll(m, y).value, z);
    EmittedSplit(a, i);
    ReplayConcat(m, y, z);
    ReplayConcat(s, x, y + z);
  }

  /** The cash of an approval, refund included; nothing for other inputs. */
  function CashOf(r: Account, ev: PipelineEvent, now: Timestamp): Money {
    if ev.EvPayoutApprove? && r.plan.payoutConfig.Some? then OwnQuote(r, r.plan.payoutConfig.value, now).amount else 0.0
  }

  lemma {:induction false} TransitionWatermark(r: Account, m: Account, ev: PipelineEvent, now: Timestamp)
    requires Transition(r, ev, now).Ok? && ReplayAll(m, Transition(r, ev, now).value.events).Ok?
    requires m.balance == r.balance && m.balanceAtLastPayout == r.balanceAtLastPayout
    ensures var o := Transition(r, ev, now).value; var q := ReplayAll(m, o.events).value;
      q.balanceAtLastPayout == o.account.balanceAtLastPayout - CashOf(r, ev, now)
  {
    var events := Transition(r, ev, now).value.events;
    if ev.EvPayoutApprove? {
      SingleReplay(m, events[0]);
      assert events == [events[0]];
    } else {
      UntouchedReplay(m, events);
    }
  }

  lemma {:induction false} ConclusionWatermark(t: Account, i: Input)
    requires Conclude(t, i).Ok?
    ensures Conclude(t, i).value.account.balanceAtLastPayout == t.balanceAtLastPayout
  {
    BeforePromotionFrame(t, i);
    ConclusionFrame(t, i);
  }

  lemma {:induction false} ReadyKeepsMoney(a: Account, ev: PipelineEvent, now: Timestamp)
    ensures var r := Ready(a, ev, now);
      r.balance == a.balance && r.balanceAtLastPayout == a.balanceAtLastPayout && r.peakEquity == a.peakEquity
  {
  }

  /** Replay stamps the watermark after the payout: from equal balance and watermark it falls short of the pipeline's by
      exactly the cash paid, so it agrees exactly when the input pays nothing. */
  lemma {:induction false} WatermarkReplaysExactly(a: Account, s: Account, i: Input)
    requires Underway(a) && Step(a, i).Ok?
    requires s.balance == a.balance && s.balanceAtLastPayout == a.balanceAtLastPayout
    ensures ReplayAll(s, Emitted(a, i)).Ok?
    ensures ReplayAll(s, Emitted(a, i)).value.balanceAtLastPayout
         == Next(a, i).balanceAtLastPayout - CashOf(Ready(a, i.event, i.now), i.event, i.now)
  {
    var r, t := StepStages(a, i);
    var m := StepTouches(a, s, i);
    ReadyKeepsMoney(a, i.event, i.now);
    TransitionWatermark(r, m, i.event, i.now);
    ConclusionWatermark(t, i);
  }

  /** The equity peak that the log knows after an event: estimates raise it too. */
  function LoggedPeak(r: Account, ev: PipelineEvent): Money {
    if ev.EvTick? || ev.EvEstimate? then Max(r.peakEquity, LoggedEquity(r, ev)) else r.peakEquity
  }

  lemma {:induction false} TransitionPeak(r: Account, m: Account, ev: PipelineEvent, now: Timestamp)
    requires Transition(r, ev, now).Ok? && ReplayAll(m, Transition(r, ev, now).value.events).Ok?
    requires m.peakEquity == r.peakEquity
    ensures var o := Transition(r, ev, now).value;
      && ReplayAll(m, o.events).value.peakEquity == LoggedPeak(r, ev)
      && o.account.peakEquity == if ev.EvEstimate? then r.peakEquity else LoggedPeak(r, ev)
  {
    var events := Transition(r, ev, now).value.events;
    if ev.EvTick? || ev.EvEstimate? {
      SingleReplay(m, events[0]);
      assert events == [events[0]];
    } else {
      UntouchedReplay(m, events);
    }
  }

  lemma {:induction false} ConclusionPeak(t: Account, i: Input)
    requires Conclude(t, i).Ok?
    ensures Conclude(t, i).value.account.peakEquity == if Eligible(BeforePromotion(t, i)) then t.equity else t.peakEquity
  {
    BeforePromotionFrame(t, i);
    ConclusionFrame(t, i);
  }

  /** From equal equity peaks, replaying one accepted input agrees again exactly when an estimate does not exceed the peak
      and a promotion finds the equity at it. */
  lemma {:induction false} PeakReplaysExactly(a: Account, s: Account, i: Input)
    requires Underway(a) && Step(a, i).Ok? && s.peakEquity == a.peakEquity
    ensures ReplayAll(s, Emitted(a, i)).Ok? && Settled(a, i).Some?
    ensures var r := Ready(a, i.event, i.now);
      ReplayAll(s, Emitted(a, i)).value.peakEquity == Next(a, i).peakEquity <==>
      if Promotes(a, i) then Settled(a, i).value.equity == LoggedPeak(r, i.event)
      else i.event.EvEstimate? ==> LoggedEquity(r, i.event) <= r.peakEquity
  {
    var r, t := StepStages(a, i);
    var m := StepTouches(a, s, i);
    ReadyKeepsMoney(a, i.event, i.now);
    TransitionPeak(r, m, i.event, i.now);
    BeforePromotionFrame(t, i);
    ConclusionPeak(t, i);
  }
}
