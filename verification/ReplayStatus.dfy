/** Status and equity under replay: what the log makes of them, and when that is what the pipeline has. */
module ReplayStatuses {
  import opened Common
  import opened Accounts
  import opened States
  import opened Payouts
  import opened Verdicts
  import opened Decisions
  import opened DomainEvents
  import opened Pipelines
  import opened Runs
  import opened EventStores

  // ----- The two fields along a log -----

  /** Status after one replayed event. */
  function StatusAfter(s: AccountStatus, e: DomainEvent): AccountStatus {
    match e.kind
    case AccountStarted(_) => Active
    case AccountStatusChanged(_, to) => to
    case AccountSnapshotted(snapshot) => snapshot.status
    case RuleViolated(v) => if ViolationStatus(v.kind).Some? then ViolationStatus(v.kind).value else s
    case PayoutRequested(_, _) => PayoutPending
    case PayoutApproved(_, _) => FundedLive
    case LiquidationRequested(_, _) => Closed
    case OverrideCleared => Active
    case _ => s
  }

  function StatusAlong(s: AccountStatus, events: seq<DomainEvent>): AccountStatus {
    if events == [] then s else StatusAfter(StatusAlong(s, Front(events)), Last(events))
  }

  /** Equity after one replayed event. */
  function EquityAfter(equity: Money, e: DomainEvent): Money {
    match e.kind
    case TickEvaluated(reported) => reported
    case AccountSnapshotted(snapshot) => snapshot.equity
    case _ => equity
  }

  function EquityAlong(equity: Money, events: seq<DomainEvent>): Money {
    if events == [] then equity else EquityAfter(EquityAlong(equity, Front(events)), Last(events))
  }

  lemma {:induction false} EventFollows(a: Account, e: DomainEvent)
    requires ReplayEvent(a, e).Ok?
    ensures ReplayEvent(a, e).value.status == StatusAfter(a.status, e)
    ensures ReplayEvent(a, e).value.equity == EquityAfter(a.equity, e)
  {
  }

  /** A replay that succeeds has the status and the equity of the log. */
  lemma {:induction false} ReplayFollowsLog(a: Account, events: seq<DomainEvent>)
    requires ReplayAll(a, events).Ok?
    ensures ReplayAll(a, events).value.status == StatusAlong(a.status, events)
    ensures ReplayAll(a, events).value.equity == EquityAlong(a.equity, events)
  {
    if events != [] {
      ReplayFollowsLog(a, Front(events));
      EventFollows(ReplayAll(a, Front(events)).value, Last(events));
    }
  }

  lemma {:induction false} AlongConcat(s: AccountStatus, equity: Money, xs: seq<DomainEvent>, ys: seq<DomainEvent>)
    ensures StatusAlong(s, xs + ys) == StatusAlong(StatusAlong(s, xs), ys)
    ensures EquityAlong(equity, xs + ys) == EquityAlong(EquityAlong(equity, xs), ys)
  {
    if ys == [] {
      assert xs + ys == xs;
    } else {
      AlongConcat(s, equity, xs, Front(ys));
      assert Front(xs + ys) == xs + Front(ys);
    }
  }

  lemma {:induction false} AlongOne(s: AccountStatus, equity: Money, e: DomainEvent)
    ensures StatusAlong(s, [e]) == StatusAfter(s, e) && EquityAlong(equity, [e]) == EquityAfter(equity, e)
  {
    assert Front([e]) == [];
  }

  lemma {:induction false} AlongTwo(s: AccountStatus, equity: Money, d: DomainEvent, e: DomainEvent)
    ensures StatusAlong(s, [d, e]) == StatusAfter(StatusAfter(s, d), e)
    ensures EquityAlong(equity, [d, e]) == EquityAfter(EquityAfter(equity, d), e)
  {
    AlongOne(s, equity, d);
    assert Front([d, e]) == [d];
  }

  lemma {:induction false} ShortAlong(s: AccountStatus, equity: Money, events: seq<DomainEvent>)
    requires |events| <= 2
    ensures StatusAlong(s, events) ==
            if |events| == 0 then s
            else if |events| == 1 then StatusAfter(s, events[0])
            else StatusAfter(StatusAfter(s, events[0]), events[1])
    ensures EquityAlong(equity, events) ==
            if |events| == 0 then equity
            else if |events| == 1 then EquityAfter(equity, events[0])
            else EquityAfter(EquityAfter(equity, events[0]), events[1])
  {
    if |events| == 1 {
      AlongOne(s, equity, events[0]);
      assert events == [events[0]];
    } else if |events| == 2 {
      AlongTwo(s, equity, events[0], events[1]);
      assert events == [events[0], events[1]];
    }
  }

  // ----- The parts of a step -----

  /** The status that the last status-bearing violation leaves in a replay, if there is one. */
  function LastStatus(vs: seq<Violation>): Option<AccountStatus> {
    if vs == [] then None
    else if ViolationStatus(Last(vs).kind).Some? then ViolationStatus(Last(vs).kind)
    else LastStatus(Front(vs))
  }

  lemma {:induction false} ViolationsAlong(s: AccountStatus, equity: Money, id: int, vs: seq<Violation>, at: Timestamp)
    ensures StatusAlong(s, ViolationEvents(id, vs, at)) == (if LastStatus(vs).Some? then LastStatus(vs).value else s)
    ensures EquityAlong(equity, ViolationEvents(id, vs, at)) == equity
  {
    if vs != [] {
      ViolationsAlong(s, equity, id, Front(vs), at);
      FrontLast(ViolationEvents(id, Front(vs), at), DomainEvent(id, RuleViolated(Last(vs)), at));
    }
  }

  /** What an event's own entries leave behind: an override is logged as a return to active. */
  function LoggedStatus(ev: PipelineEvent, t: Account): AccountStatus {
    if ev.EvOverride? then Active else t.status
  }

  lemma {:induction false} ReadyAlong(a: Account, s: AccountStatus, equity: Money, ev: PipelineEvent, now: Timestamp)
    ensures StatusAlong(s, ReadyEvents(a, ev, now)) == s && EquityAlong(equity, ReadyEvents(a, ev, now)) == equity
    ensures Ready(a, ev, now).status == a.status && Ready(a, ev, now).equity == a.equity
  {
    if !ev.EvRollover? && Behind(a, EventTimestamp(ev, now)) {
      AlongOne(s, equity, ReadyEvents(a, ev, now)[0]);
      assert ReadyEvents(a, ev, now) == [ReadyEvents(a, ev, now)[0]];
    }
  }

  lemma {:induction false} RequestAlong(r: Account, quote: PayoutQuote, now: Timestamp)
    ensures StatusAlong(r.status, PayoutRequestEvents(r, quote, now)) == PayoutPending
  {
    ShortAlong(r.status, 0.0, PayoutRequestEvents(r, quote, now));
  }

  lemma {:induction false} TransitionStatus(r: Account, ev: PipelineEvent, now: Timestamp)
    requires Transition(r, ev, now).Ok?
    ensures var o := Transition(r, ev, now).value;
      StatusAlong(r.status, o.events) == LoggedStatus(ev, o.account)
  {
    if ev.EvPayoutRequest? {
      RequestAlong(r, OwnQuote(r, r.plan.payoutConfig.value, now), now);
    } else {
      ShortAlong(r.status, 0.0, Transition(r, ev, now).value.events);
    }
  }

  /** The equity that an event logs: a tick's and an estimate's, and none for a fill. */
  function LoggedEquity(r: Account, ev: PipelineEvent): Money {
    match ev
    case EvTick(_, equity, _) => equity
    case EvEstimate(q) => EquityAfterTick(r.balance, r.openPositions, q)
    case _ => r.equity
  }

  lemma {:induction false} TransitionEquity(r: Account, ev: PipelineEvent, now: Timestamp)
    requires Transition(r, ev, now).Ok?
    ensures EquityAlong(r.equity, Transition(r, ev, now).value.events) == LoggedEquity(r, ev)
  {
    ShortAlong(r.status, r.equity, Transition(r, ev, now).value.events);
  }

  /** What the events of a decision leave behind. */
  function DecidedStatus(s: AccountStatus, hit: Account, k: DecisionKind): AccountStatus {
    if k == KLiquidate || k == KEmergency then Closed
    else if k == KFail then Failed
    else if Eligible(hit) then Passed
    else if k == KTargetHit then TargetHitPending
    else s
  }

  lemma {:induction false} TargetAlong(s: AccountStatus, e: Money, a: Account, d: Decision, at: Timestamp)
    ensures StatusAlong(s, TargetEvents(a, d, at)) == if d.kind == KTargetHit then TargetHitPending else s
    ensures EquityAlong(e, TargetEvents(a, d, at)) == e
  {
    ShortAlong(s, e, TargetEvents(a, d, at));
  }

  lemma {:induction false} PromotionAlong(s: AccountStatus, e: Money, h: Account, at: Timestamp)
    ensures StatusAlong(s, PromotionEvents(h, at)) == if Eligible(h) then Passed else s
    ensures EquityAlong(e, PromotionEvents(h, at)) == e
  {
    ShortAlong(s, e, PromotionEvents(h, at));
  }

  lemma {:induction false} TerminationAlong(s: AccountStatus, e: Money, b: Account, d: Decision, at: Timestamp)
    ensures StatusAlong(s, TerminationEvents(b, d, at)) ==
            if d.kind == KLiquidate || d.kind == KEmergency then Closed else if d.kind == KFail then Failed else s
    ensures EquityAlong(e, TerminationEvents(b, d, at)) == e
  {
    ShortAlong(s, e, TerminationEvents(b, d, at));
  }

  lemma {:induction false} DecisionAlong(s: AccountStatus, e: Money, a: Account, d: Decision, at: Timestamp)
    requires ApplyDecision(a, d, at).Ok?
    ensures var events := ApplyDecision(a, d, at).value.events;
      StatusAlong(s, events) == DecidedStatus(s, AfterTarget(a, d, at), d.kind) && EquityAlong(e, events) == e
  {
    var hit := AfterTarget(a, d, at);
    var b := AfterPromotion(hit).value;
    var x, y, z := TargetEvents(a, d, at), PromotionEvents(hit, at), TerminationEvents(b, d, at);
    TargetAlong(s, e, a, d, at);
    PromotionAlong(StatusAlong(s, x), e, hit, at);
    TerminationAlong(StatusAlong(StatusAlong(s, x), y), e, b, d, at);
    AlongConcat(s, e, x + y, z);
    AlongConcat(s, e, x, y);
  }

  lemma {:induction false} ClosingAlong(s: AccountStatus, e: Money, id: int, reports: seq<RuleReport>, now: Timestamp)
    ensures var k, last := Arbitrate(reports).kind, LastStatus(ViolationsOf(reports));
      StatusAlong(s, ClosingEvents(id, reports, now)) ==
        if last.Some? then last.value else if k == KFail || k == KLiquidate then Failed else s
    ensures EquityAlong(e, ClosingEvents(id, reports, now)) == e
  {
    var k, vs := Arbitrate(reports).kind, ViolationEvents(id, ViolationsOf(reports), now);
    var failed := [DomainEvent(id, AccountStatusChanged(Active, Failed), now)];
    AlongOne(s, e, failed[0]);
    ViolationsAlong(s, e, id, ViolationsOf(reports), now);
    ViolationsAlong(Failed, e, id, ViolationsOf(reports), now);
    AlongConcat(s, e, failed, vs);
    assert [] + vs == vs;
  }

  /** The status that a replay of an accepted input ends with, in terms of the account before the promotion test. */
  function ReplayedStatus(s: AccountStatus, h: Account, reports: seq<RuleReport>): AccountStatus {
    var k, last := Arbitrate(reports).kind, LastStatus(ViolationsOf(reports));
    if last.Some? then last.value
    else if k == KFail || k == KLiquidate then Failed
    else DecidedStatus(s, h, k)
  }

  lemma {:induction false} ConclusionAlong(s: AccountStatus, e: Money, t: Account, i: Input)
    requires Conclude(t, i).Ok?
    ensures var events := Conclude(t, i).value.events;
      && StatusAlong(s, events) == ReplayedStatus(s, BeforePromotion(t, i), i.reports)
      && EquityAlong(e, events) == e
  {
    var f, d := ConsumeFill(t, i.event, i.freshId), Arbitrate(i.reports);
    var decided := ApplyDecision(f, d, i.now).value.events;
    DecisionAlong(s, e, f, d, i.now);
    ClosingAlong(StatusAlong(s, decided), e, t.id, i.reports, i.now);
    AlongConcat(s, e, decided, ClosingEvents(t.id, i.reports, i.now));
  }

  // ----- One step -----

  lemma {:induction false} EmittedAlong(a: Account, i: Input)
    requires Step(a, i).Ok?
    ensures var r := Ready(a, i.event, i.now); var t := Transition(r, i.event, i.now).value.account;
      && StatusAlong(a.status, Emitted(a, i))
         == ReplayedStatus(LoggedStatus(i.event, t), BeforePromotion(t, i), i.reports)
      && EquityAlong(a.equity, Emitted(a, i)) == LoggedEquity(r, i.event)
  {
    var r, t := StepStages(a, i);
    var o := Transition(r, i.event, i.now).value;
    var x, y, z := ReadyEvents(a, i.event, i.now), o.events, Conclude(t, i).value.events;
    ReadyAlong(a, a.status, a.equity, i.event, i.now);
    TransitionStatus(r, i.event, i.now);
    TransitionEquity(r, i.event, i.now);
    ConclusionAlong(LoggedStatus(i.event, t), LoggedEquity(r, i.event), t, i);
    AlongConcat(a.status, a.equity, x + y, z);
    AlongConcat(a.status, a.equity, x, y);
  }

  /** When the log carries the status of an input: no violation that bears a status, unless it is the status the account
      ends with; no emergency and no promotion; a target hit only where it is taken up; and an override only back to
      active. */
  predicate StatusLogged(a: Account, i: Input)
    requires Settled(a, i).Some?
  {
    var h, k, last := Settled(a, i).value, Arbitrate(i.reports).kind, LastStatus(ViolationsOf(i.reports));
    if k == KEmergency then false
    else if k == KFail || k == KLiquidate then last.None? || last.value.Failed?
    else if Eligible(h) then false
    else if last.Some? then last.value == h.status
    else if k == KTargetHit then h.status.TargetHitPending?
    else !i.event.EvOverride? || h.status.Active?
  }

  lemma {:induction false} ConclusionStatus(t: Account, i: Input)
    requires Conclude(t, i).Ok?
    ensures var k, h := Arbitrate(i.reports).kind, BeforePromotion(t, i);
      Conclude(t, i).value.account.status ==
        if k == KEmergency then EmergencyStopped
        else if k == KFail || k == KLiquidate then Failed
        else if Eligible(h) then Active
        else h.status
  {
    ConclusionStatuses(t, i);
  }

  lemma {:induction false} BeforePromotionStatus(t: Account, i: Input)
    requires Arbitrate(i.reports).kind != KTargetHit
    ensures BeforePromotion(t, i).status == t.status
  {
  }

  /** `EmergencyStopped` is no violation's status. */
  lemma {:induction false} LastStatusRange(vs: seq<Violation>)
    ensures LastStatus(vs).Some? ==> LastStatus(vs).value.Failed? || LastStatus(vs).value.Passed?
  {
    if vs != [] {
      LastStatusRange(Front(vs));
    }
  }

  /** One accepted input: replaying its events from the account's own status gives the new status exactly when the log
      carries it. */
  lemma {:induction false} StatusReplaysExactly(a: Account, i: Input)
    requires Step(a, i).Ok?
    ensures Settled(a, i).Some?
    ensures StatusAlong(a.status, Emitted(a, i)) == Next(a, i).status <==> StatusLogged(a, i)
  {
    var r, t := StepStages(a, i);
    EmittedAlong(a, i);
    ConclusionStatus(t, i);
    LastStatusRange(ViolationsOf(i.reports));
    if Arbitrate(i.reports).kind != KTargetHit {
      BeforePromotionStatus(t, i);
    }
  }

  lemma {:induction false} ConclusionEquity(t: Account, i: Input)
    requires Conclude(t, i).Ok?
    ensures Conclude(t, i).value.account.equity == t.equity
  {
    BeforePromotionFrame(t, i);
    ConclusionFrame(t, i);
  }

  lemma {:induction false} TransitionKeepsEquity(r: Account, ev: PipelineEvent, now: Timestamp)
    requires Transition(r, ev, now).Ok?
    ensures Transition(r, ev, now).value.account.equity ==
            match ev case EvTrade(t) => r.balance + NetPnl(t) case EvTick(_, e, _) => e case _ => r.equity
  {
  }

  /** When the log carries the equity: a fill must leave it at the balance it had, and an estimate at the reported one. */
  predicate EquityLogged(a: Account, i: Input) {
    var r := Ready(a, i.event, i.now);
    && (i.event.EvTrade? ==> r.balance + NetPnl(i.event.trade) == r.equity)
    && (i.event.EvEstimate? ==> EquityAfterTick(r.balance, r.openPositions, i.event.quote) == r.equity)
  }

  /** One accepted input: replaying its events from the account's own equity gives the new equity exactly when the log
      carries it. */
  lemma {:induction false} EquityReplaysExactly(a: Account, i: Input)
    requires Step(a, i).Ok?
    ensures EquityAlong(a.equity, Emitted(a, i)) == Next(a, i).equity <==> EquityLogged(a, i)
  {
    var r, t := StepStages(a, i);
    EmittedAlong(a, i);
    TransitionKeepsEquity(r, i.event, i.now);
    ConclusionEquity(t, i);
  }

  // ----- Runs -----

  predicate AllCarried(a: Account, inputs: seq<Input>) {
    inputs == [] ||
    (AllCarried(a, Front(inputs)) &&
     var before, i := After(a, Front(inputs)), Last(inputs);
     (Step(before, i).Ok? ==> Settled(before, i).Some? && StatusLogged(before, i) && EquityLogged(before, i)))
  }

  /** Over every run whose inputs the log carries: it ends with the pipeline's own status and equity, so every replay of
      it that succeeds does. */
  lemma {:induction false} StatusReplaysOverRuns(a: Account, inputs: seq<Input>)
    requires AllCarried(a, inputs)
    ensures StatusAlong(a.status, Log(a, inputs)) == After(a, inputs).status
    ensures EquityAlong(a.equity, Log(a, inputs)) == After(a, inputs).equity
    ensures var s := ReplayAll(a, Log(a, inputs));
      s.Ok? ==> s.value.status == After(a, inputs).status && s.value.equity == After(a, inputs).equity
  {
    if inputs != [] {
      var before, i := After(a, Front(inputs)), Last(inputs);
      StatusReplaysOverRuns(a, Front(inputs));
      AlongConcat(a.status, a.equity, Log(a, Front(inputs)), Emitted(before, i));
      if Step(before, i).Ok? {
        StatusReplaysExactly(before, i);
        EquityReplaysExactly(before, i);
      }
    }
    if ReplayAll(a, Log(a, inputs)).Ok? {
      ReplayFollowsLog(a, Log(a, inputs));
    }
  }

  /** A warning replays as a failure: whenever the last status-bearing violation of an accepted input is a drawdown
      rule's and the decision ends nothing, the log says failed, though no account that was not failed becomes so. */
  lemma {:induction false} WarningReplaysAsFailure(a: Account, i: Input)
    requires Step(a, i).Ok? && !a.status.Failed? && !i.event.EvOverride?
    requires LastStatus(ViolationsOf(i.reports)) == Some(Failed) && StatusTarget(Arbitrate(i.reports).kind).None?
    ensures StatusAlong(a.status, Emitted(a, i)).Failed? && !Next(a, i).status.Failed?
  {
    var r, t := StepStages(a, i);
    EmittedAlong(a, i);
    ConclusionStatus(t, i);
    BeforePromotionFrame(t, i);
    ReadyAlong(a, a.status, a.equity, i.event, i.now);
    TransitionNotFailed(r, i.event, i.now);
  }

  lemma {:induction false} TransitionNotFailed(r: Account, ev: PipelineEvent, now: Timestamp)
    requires Transition(r, ev, now).Ok? && !r.status.Failed? && !ev.EvOverride?
    ensures !Transition(r, ev, now).value.account.status.Failed?
  {
  }
}
