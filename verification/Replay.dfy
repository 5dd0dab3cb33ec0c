/** Replay against the pipeline: when the log rebuilds the account's money and day fields. */
module Replays {
  import opened Common
  import opened Plans
  import opened Accounts
  import opened Verdicts
  import opened Decisions
  import opened DomainEvents
  import opened Pipelines
  import opened Runs
  import opened EventStores

  /** The fields that replay is meant to rebuild. */
  predicate Agrees(a: Account, s: Account) {
    && a.balance == s.balance
    && a.totalRealizedPnl == s.totalRealizedPnl
    && a.peakBalance == s.peakBalance
    && a.tradingDayIndex == s.tradingDayIndex
    && a.dayStartBalance == s.dayStartBalance
  }

  /** Events that touch none of those fields. */
  predicate Neutral(e: DomainEvent) {
    match e.kind
    case AccountStatusChanged(_, _) | TickEvaluated(_) | RuleViolated(_) | PlanUpgraded(_, _)
      | PayoutRequested(_, _) | LiquidationRequested(_, _) | OverrideCleared => true
    case _ => false
  }

  lemma {:induction false} NeutralReplay(s: Account, events: seq<DomainEvent>)
    requires forall e :: e in events ==> Neutral(e)
    ensures ReplayAll(s, events).Ok? && Agrees(s, ReplayAll(s, events).value)
  {
    if events != [] {
      assert Neutral(Last(events));
      NeutralReplay(s, Front(events));
    }
  }

  lemma {:induction false} SingleReplay(s: Account, e: DomainEvent)
    ensures ReplayAll(s, [e]) == ReplayEvent(s, e)
  {
    assert Front([e]) == [];
  }

  lemma {:induction false} ViolationEventsNeutral(id: int, vs: seq<Violation>, at: Timestamp)
    ensures forall e :: e in ViolationEvents(id, vs, at) ==> Neutral(e)
  {
    if vs != [] {
      ViolationEventsNeutral(id, Front(vs), at);
    }
  }

  lemma {:induction false} DecisionEventsNeutral(a: Account, d: Decision, at: Timestamp)
    requires ApplyDecision(a, d, at).Ok?
    ensures forall e :: e in ApplyDecision(a, d, at).value.events ==> Neutral(e)
  {
    var hit := AfterTarget(a, d, at);
    var b := AfterPromotion(hit).value;
    assert forall e :: e in TargetEvents(a, d, at) ==> Neutral(e);
    assert forall e :: e in PromotionEvents(hit, at) ==> Neutral(e);
    assert forall e :: e in TerminationEvents(b, d, at) ==> Neutral(e);
  }

  lemma {:induction false} ConclusionEventsNeutral(t: Account, i: Input)
    requires Conclude(t, i).Ok?
    ensures forall e :: e in Conclude(t, i).value.events ==> Neutral(e)
  {
    var f, d := ConsumeFill(t, i.event, i.freshId), Arbitrate(i.reports);
    DecisionEventsNeutral(f, d, i.now);
    ViolationEventsNeutral(t.id, ViolationsOf(i.reports), i.now);
    var closing := ClosingEvents(t.id, i.reports, i.now);
    assert forall e :: e in closing ==> Neutral(e);
    assert Conclude(t, i).value.events == ApplyDecision(f, d, i.now).value.events + closing;
  }

  // ----- One step -----

  lemma {:induction false} ReadyReplay(a: Account, s: Account, ev: PipelineEvent, now: Timestamp)
    requires Agrees(a, s)
    ensures ReplayAll(s, ReadyEvents(a, ev, now)).Ok?
    ensures Agrees(Ready(a, ev, now), ReplayAll(s, ReadyEvents(a, ev, now)).value)
  {
    var ts := EventTimestamp(ev, now);
    if !ev.EvRollover? && Behind(a, ts) {
      SingleReplay(s, ReadyEvents(a, ev, now)[0]);
    }
  }

  /** When an input's transition is in the log: a tick must repeat the known balance at or below its peak, and an approval
      must not refund a fee. */
  predicate TransitionLogged(r: Account, ev: PipelineEvent) {
    && (ev.EvTick? ==> ev.brokerBalance == r.balance <= r.peakBalance)
    && (ev.EvPayoutApprove? ==> r.payoutCount > 0 || r.refundUsed || r.plan.refundFeeAmount == 0.0)
  }

  /** How far a replayed transition can be off: only balance and peak, and the peak only by a raised balance. */
  predicate AlmostAgrees(t: Account, s: Account) {
    && t.totalRealizedPnl == s.totalRealizedPnl
    && t.tradingDayIndex == s.tradingDayIndex
    && t.dayStartBalance == s.dayStartBalance
    && (t.peakBalance == s.peakBalance || t.peakBalance == t.balance > s.peakBalance)
  }

  lemma {:induction false} NeutralTransition(r: Account, s: Account, ev: PipelineEvent, now: Timestamp)
    requires Agrees(r, s) && Transition(r, ev, now).Ok?
    requires !ev.EvStarted? && !ev.EvTrade? && !ev.EvRollover? && !ev.EvPayoutApprove?
    ensures var o, q := Transition(r, ev, now).value, ReplayAll(s, Transition(r, ev, now).value.events);
      && q.Ok? && AlmostAgrees(o.account, q.value)
      && (Agrees(o.account, q.value) <==> TransitionLogged(r, ev))
  {
    NeutralReplay(s, Transition(r, ev, now).value.events);
  }

  lemma {:induction false} TransitionReplay(r: Account, s: Account, ev: PipelineEvent, now: Timestamp)
    requires Agrees(r, s) && Underway(r) && Transition(r, ev, now).Ok?
    ensures var o, q := Transition(r, ev, now).value, ReplayAll(s, Transition(r, ev, now).value.events);
      && q.Ok? && AlmostAgrees(o.account, q.value)
      && (Agrees(o.account, q.value) <==> TransitionLogged(r, ev))
  {
    if ev.EvTrade? || ev.EvRollover? || ev.EvPayoutApprove? {
      var events := Transition(r, ev, now).value.events;
      SingleReplay(s, events[0]);
      assert events == [events[0]];
    } else {
      NeutralTransition(r, s, ev, now);
    }
  }

  /** When a whole input is in the log: its transition is, and a promotion finds nothing to reset. */
  predicate Logged(a: Account, i: Input) {
    && TransitionLogged(Ready(a, i.event, i.now), i.event)
    && (Promotes(a, i) ==>
          var h := Settled(a, i).value;
          h.tradingDayIndex == 0 && h.dayStartBalance == h.balance == h.peakBalance)
  }

  lemma {:induction false} ConclusionReplay(t: Account, s: Account, i: Input)
    requires Conclude(t, i).Ok? && AlmostAgrees(t, s)
    ensures var o, q := Conclude(t, i).value, ReplayAll(s, Conclude(t, i).value.events);
      && q.Ok?
      && (Agrees(o.account, q.value) <==>
          && Agrees(t, s)
          && (Eligible(BeforePromotion(t, i)) ==>
                t.tradingDayIndex == 0 && t.dayStartBalance == t.balance == t.peakBalance))
  {
    ConclusionEventsNeutral(t, i);
    NeutralReplay(s, Conclude(t, i).value.events);
    BeforePromotionFrame(t, i);
    ConclusionFrame(t, i);
  }

  lemma {:induction false} EmittedSplit(a: Account, i: Input)
    requires Step(a, i).Ok?
    ensures var o := Transition(Ready(a, i.event, i.now), i.event, i.now).value;
      Emitted(a, i) == ReadyEvents(a, i.event, i.now) + (o.events + Conclude(o.account, i).value.events)
  {
  }

  /** One successful input on an account that agrees with its replay: replay accepts the new events, and it agrees
      again exactly when the input was one the log can carry. */
  lemma {:induction false} StepReplay(a: Account, s: Account, i: Input)
    requires Agrees(a, s) && Underway(a) && Step(a, i).Ok?
    ensures ReplayAll(s, Emitted(a, i)).Ok?
    ensures Agrees(Next(a, i), ReplayAll(s, Emitted(a, i)).value) <==> Logged(a, i)
  {
    var r, t := StepStages(a, i);
    ReadyReplay(a, s, i.event, i.now);
    var s1 := ReplayAll(s, ReadyEvents(a, i.event, i.now)).value;
    TransitionReplay(r, s1, i.event, i.now);
    var o := Transition(r, i.event, i.now).value;
    var s2 := ReplayAll(s1, o.events).value;
    ConclusionReplay(t, s2, i);
    BeforePromotionFrame(t, i);
    EmittedSplit(a, i);
    ReplayConcat(s, ReadyEvents(a, i.event, i.now), o.events + Conclude(t, i).value.events);
    ReplayConcat(s1, o.events, Conclude(t, i).value.events);
  }

  // ----- Runs -----

  /** Every accepted input of the run is one the log can carry. */
  predicate AllLogged(a: Account, inputs: seq<Input>) {
    inputs == [] ||
    (AllLogged(a, Front(inputs)) &&
     (Step(After(a, Front(inputs)), Last(inputs)).Ok? ==> Logged(After(a, Front(inputs)), Last(inputs))))
  }

  /** The run opens with the successful start of a new account. */
  predicate StartsAccount(a: Account, inputs: seq<Input>) {
    inputs != [] && inputs[0].event.EvStarted? && Step(a, inputs[0]).Ok?
  }

  lemma {:induction false} FirstStep(id: int, plan: ChallengePlan, i: Input)
    requires i.event.EvStarted? && Step(NewAccount(id, plan), i).Ok? && Logged(NewAccount(id, plan), i)
    ensures var a := NewAccount(id, plan);
      && Emitted(a, i) != [] && Emitted(a, i)[0].kind == AccountStarted(plan)
      && ReplayAll(a, Emitted(a, i)).Ok? && Agrees(Next(a, i), ReplayAll(a, Emitted(a, i)).value)
      && Underway(Next(a, i))
  {
    var a := NewAccount(id, plan);
    var r, t := StepStages(a, i);
    EmittedSplit(a, i);
    assert ReadyEvents(a, i.event, i.now) == [];
    assert r.plan == plan && r.status.Pending?;
    var o := Transition(r, i.event, i.now).value;
    assert o.events == [DomainEvent(id, AccountStarted(plan), i.event.at)];
    SingleReplay(a, o.events[0]);
    assert [o.events[0]] == o.events;
    var s := ReplayAll(a, o.events).value;
    assert Agrees(t, s);
    ConclusionReplay(t, s, i);
    BeforePromotionFrame(t, i);
    ReplayConcat(a, o.events, Conclude(t, i).value.events);
    assert [] + (o.events + Conclude(t, i).value.events) == o.events + Conclude(t, i).value.events;
    TransitionUnderway(r, i.event, i.now);
    ConclusionUnderway(t, i);
  }

  /** Over every run that starts a new account and stays within what the log can carry: the whole log replays without
      error to the pipeline's own balance, realized result, balance peak, day index and day-start balance. */
  lemma {:induction false} ReplayRebuildsRuns(id: int, plan: ChallengePlan, inputs: seq<Input>)
    requires StartsAccount(NewAccount(id, plan), inputs) && AllLogged(NewAccount(id, plan), inputs)
    ensures var a, log := NewAccount(id, plan), Log(NewAccount(id, plan), inputs);
      && log != [] && log[0].kind == AccountStarted(plan)
      && Rebuilt(id, log).Ok? && Agrees(After(a, inputs), Rebuilt(id, log).value)
      && Underway(After(a, inputs))
  {
    var a := NewAccount(id, plan);
    if |inputs| == 1 {
      assert Front(inputs) == [];
      FirstStep(id, plan, inputs[0]);
      assert [] + Emitted(a, inputs[0]) == Emitted(a, inputs[0]);
    } else {
      ReplayRebuildsRuns(id, plan, Front(inputs));
      var before, i := After(a, Front(inputs)), Last(inputs);
      StepUnderway(before, i);
      var log, more := Log(a, Front(inputs)), Emitted(before, i);
      ReplayConcat(a, log, more);
      if Step(before, i).Ok? {
        StepReplay(before, Rebuilt(id, log).value, i);
      } else {
        assert log + more == log;
      }
    }
  }

  /** Events that neither report a broker balance nor pay out. */
  predicate Quiet(ev: PipelineEvent) {
    !ev.EvTick? && !ev.EvPayoutApprove?
  }

  lemma {:induction false} QuietRunsAreLogged(a: Account, inputs: seq<Input>)
    requires Promotions(a, inputs) == 0 && forall k :: 0 <= k < |inputs| ==> Quiet(inputs[k].event)
    ensures AllLogged(a, inputs)
  {
    if inputs != [] {
      QuietRunsAreLogged(a, Front(inputs));
    }
  }

  /** In particular: a run that starts a new account and has neither broker ticks, payout approvals nor promotions is
      rebuilt from its log. */
  lemma {:induction false} QuietRunsReplay(id: int, plan: ChallengePlan, inputs: seq<Input>)
    requires StartsAccount(NewAccount(id, plan), inputs) && Promotions(NewAccount(id, plan), inputs) == 0
    requires forall k :: 0 <= k < |inputs| ==> Quiet(inputs[k].event)
    ensures var a, s := NewAccount(id, plan), Rebuilt(id, Log(NewAccount(id, plan), inputs));
      s.Ok? && Agrees(After(a, inputs), s.value)
  {
    QuietRunsAreLogged(NewAccount(id, plan), inputs);
    ReplayRebuildsRuns(id, plan, inputs);
  }

  /** And no further: one more accepted input makes replay diverge exactly when the log cannot carry it. */
  lemma {:induction false} ReplayDivergesExactly(id: int, plan: ChallengePlan, inputs: seq<Input>, i: Input)
    requires StartsAccount(NewAccount(id, plan), inputs) && AllLogged(NewAccount(id, plan), inputs)
    requires Step(After(NewAccount(id, plan), inputs), i).Ok?
    ensures var a := NewAccount(id, plan); var b := After(a, inputs);
      var s := Rebuilt(id, Log(a, inputs) + Emitted(b, i));
      s.Ok? && (Agrees(Next(b, i), s.value) <==> Logged(b, i))
  {
    var a := NewAccount(id, plan);
    ReplayRebuildsRuns(id, plan, inputs);
    var b, log := After(a, inputs), Log(a, inputs);
    StepReplay(b, Rebuilt(id, log).value, i);
    ReplayConcat(a, log, Emitted(b, i));
  }
}
