/** Runs of the pipeline: what every reachable account satisfies. */
module Runs {
  import opened Common
  import opened Plans
  import opened Accounts
  import opened States
  import opened Verdicts
  import opened Decisions
  import opened DomainEvents
  import opened Pipelines

  /** The account after one input; a rejected input leaves it as it was. */
  function Next(a: Account, i: Input): Account {
    match Step(a, i)
    case Ok(o) => o.account
    case Err(_) => a
  }

  function Emitted(a: Account, i: Input): seq<DomainEvent> {
    match Step(a, i)
    case Ok(o) => o.events
    case Err(_) => []
  }

  function After(a: Account, inputs: seq<Input>): Account {
    if inputs == [] then a else Next(After(a, Front(inputs)), Last(inputs))
  }

  /** The events of a whole run, in order. */
  function Log(a: Account, inputs: seq<Input>): seq<DomainEvent> {
    if inputs == [] then [] else Log(a, Front(inputs)) + Emitted(After(a, Front(inputs)), Last(inputs))
  }

  // ----- Stages of a step -----

  /** The account just before the promotion test. */
  function BeforePromotion(t: Account, i: Input): Account {
    AfterTarget(ConsumeFill(t, i.event, i.freshId), Arbitrate(i.reports), i.now)
  }

  function Settled(a: Account, i: Input): Option<Account> {
    match Transition(Ready(a, i.event, i.now), i.event, i.now)
    case Err(_) => None
    case Ok(t) => Some(BeforePromotion(t.account, i))
  }

  predicate Promotes(a: Account, i: Input) {
    Step(a, i).Ok? && Settled(a, i).Some? && Eligible(Settled(a, i).value)
  }

  /** A successful step passes through the prepared account `r` and the transition's account `t`. */
  lemma {:induction false} StepStages(a: Account, i: Input) returns (r: Account, t: Account)
    requires Step(a, i).Ok?
    ensures r == Ready(a, i.event, i.now)
    ensures Transition(r, i.event, i.now).Ok? && t == Transition(r, i.event, i.now).value.account
    ensures Conclude(t, i).Ok? && Next(a, i) == Conclude(t, i).value.account
    ensures Settled(a, i) == Some(BeforePromotion(t, i))
    ensures Promotes(a, i) == Eligible(BeforePromotion(t, i))
  {
    r := Ready(a, i.event, i.now);
    t := Transition(r, i.event, i.now).value.account;
  }

  /** Up to the promotion test only the lists, the target and the status change. */
  lemma {:induction false} BeforePromotionFrame(t: Account, i: Input)
    ensures var h := BeforePromotion(t, i);
      && h == t.(openPositions := h.openPositions, todayTrades := h.todayTrades, status := h.status,
                 targetReachedAt := h.targetReachedAt, targetReachedOnDay := h.targetReachedOnDay)
      && (h.status == t.status || (t.status.Active? && t.targetReachedAt.None? && h.status.TargetHitPending?))
      && (t.targetReachedAt.Some? ==> h.targetReachedAt == t.targetReachedAt)
  {
  }

  /** The end of a step: a fresh phase when promoted, and then at most a change of status. */
  lemma {:induction false} ConclusionFrame(t: Account, i: Input)
    requires Conclude(t, i).Ok?
    ensures var h, c := BeforePromotion(t, i), Conclude(t, i).value.account;
      var p := if Eligible(h) then FreshPhase(h.(plan := h.plan.(phase := NextPhase(h.plan.phase)), accountType := c.accountType)) else h;
      && (Eligible(h) ==> !h.plan.phase.Funded?)
      && c == p.(status := c.status, statusBeforeBreach := c.statusBeforeBreach, lastTickTs := c.lastTickTs)
      && (c.status == p.status || IsBreachTerminal(c.status))
  {
  }

  // ----- Days, boundaries, and when promotion may come -----

  predicate DaysHold(a: Account) {
    a.activeTradingDays <= a.tradingDayIndex + if a.dayCountedToday then 1 else 0
  }

  predicate OnBoundary(a: Account) {
    a.currentTradingDayStart.Some? ==> IsBoundary(a.plan, a.currentTradingDayStart.value)
  }

  predicate SamePlan(p: ChallengePlan, q: ChallengePlan) {
    p.(phase := q.phase) == q
  }

  lemma {:induction false} SamePlanExtends(p: ChallengePlan, q: ChallengePlan, r: ChallengePlan)
    requires SamePlan(p, q) && (r == q || r == q.(phase := r.phase))
    ensures SamePlan(p, r)
  {
  }

  /** Days that a successful input closes. */
  function DaysClosed(a: Account, i: Input): nat {
    if i.event.EvRollover? then 1 else DaysBehind(a, EventTimestamp(i.event, i.now))
  }

  /** Days closed since the current phase began, counted along the run. */
  function DaysInPhase(a: Account, inputs: seq<Input>): nat {
    if inputs == [] then 0
    else
      var before, i := After(a, Front(inputs)), Last(inputs);
      if Step(before, i).Err? then DaysInPhase(a, Front(inputs))
      else if Promotes(before, i) then 0
      else DaysInPhase(a, Front(inputs)) + DaysClosed(before, i)
  }

  lemma {:induction false} TransitionDays(r: Account, ev: PipelineEvent, now: Timestamp)
    requires Transition(r, ev, now).Ok?
    requires DaysHold(r) && OnBoundary(r)
    ensures var t := Transition(r, ev, now).value.account;
      && DaysHold(t) && OnBoundary(t) && t.plan == r.plan
      && t.tradingDayIndex == r.tradingDayIndex + (if ev.EvRollover? then 1 else 0)
  {
    match ev {
      case EvStarted(at) => TradingDayStartIsBoundary(r.plan, at);
      case EvRollover(_) =>
        TradingDayStartIsBoundary(r.plan, now);
        NextAhead(r.plan, if r.currentTradingDayStart.Some? then r.currentTradingDayStart.value
                          else TradingDayStart(r.plan, now));
      case _ =>
    }
  }

  lemma {:induction false} CatchUpDaysHold(a: Account, ts: Timestamp)
    requires DaysHold(a) && OnBoundary(a)
    ensures var b := CatchUp(a, ts);
      && DaysHold(b) && OnBoundary(b) && b.plan == a.plan
      && b.tradingDayIndex == a.tradingDayIndex + DaysBehind(a, ts)
  {
    TradingDayStartIsBoundary(a.plan, ts);
  }

  lemma {:induction false} StepDays(a: Account, i: Input)
    requires Step(a, i).Ok?
    requires DaysHold(a) && OnBoundary(a)
    ensures var b := Next(a, i);
      && DaysHold(b) && OnBoundary(b)
      && DaysHold(Settled(a, i).value)
      && Settled(a, i).value.tradingDayIndex == a.tradingDayIndex + DaysClosed(a, i)
      && b.tradingDayIndex == (if Promotes(a, i) then 0 else a.tradingDayIndex + DaysClosed(a, i))
      && Settled(a, i).value.plan == a.plan
  {
    var r, t := StepStages(a, i);
    CatchUpDaysHold(a, EventTimestamp(i.event, i.now));
    TransitionDays(r, i.event, i.now);
    BeforePromotionFrame(t, i);
    ConclusionFrame(t, i);
  }

  lemma {:induction false} RunDays(id: int, plan: ChallengePlan, inputs: seq<Input>)
    ensures var a := After(NewAccount(id, plan), inputs);
      && DaysHold(a) && OnBoundary(a)
      && a.tradingDayIndex == DaysInPhase(NewAccount(id, plan), inputs)
  {
    if inputs != [] {
      RunDays(id, plan, Front(inputs));
      var before := After(NewAccount(id, plan), Front(inputs));
      if Step(before, Last(inputs)).Ok? {
        StepDays(before, Last(inputs));
      }
    }
  }

  /** Over every run: a promotion comes only after at least `minTradingDays - 1` days have been closed in the
      phase, and with exactly that many only if the current day has already been counted. */
  lemma {:induction false} NoEarlyPromotion(id: int, plan: ChallengePlan, inputs: seq<Input>, i: Input)
    requires Promotes(After(NewAccount(id, plan), inputs), i)
    ensures var a := After(NewAccount(id, plan), inputs);
      var closed := DaysInPhase(NewAccount(id, plan), inputs) + DaysClosed(a, i);
      closed + 1 >= plan.minTradingDays
      && (closed + 1 == plan.minTradingDays ==> Settled(a, i).value.dayCountedToday)
  {
    RunDays(id, plan, inputs);
    RunsKeepThePlan(NewAccount(id, plan), inputs);
    StepDays(After(NewAccount(id, plan), inputs), i);
  }

  /** Over every run: when an input catches up, the stored start reaches the event's own trading day, and the
      index has moved by exactly the whole days between the two boundaries. */
  lemma {:induction false} CatchUpIsExact(id: int, plan: ChallengePlan, inputs: seq<Input>, ts: Timestamp)
    ensures var a := After(NewAccount(id, plan), inputs); var b := CatchUp(a, ts);
      Behind(a, ts) ==>
        && b.currentTradingDayStart == Some(TradingDayStart(a.plan, ts))
        && (b.tradingDayIndex - a.tradingDayIndex) * DAY == b.currentTradingDayStart.value - a.currentTradingDayStart.value
        && !Behind(b, ts)
        && b.balance == a.balance && b.totalRealizedPnl == a.totalRealizedPnl
        && b.sumPositiveDaysProfit == a.sumPositiveDaysProfit + Max(a.todayRealizedPnl, 0.0)
  {
    RunDays(id, plan, inputs);
    var a := After(NewAccount(id, plan), inputs);
    if Behind(a, ts) {
      TradingDayStartIsBoundary(a.plan, ts);
      CrossingsFromBoundary(a.plan, a.currentTradingDayStart.value, TradingDayStart(a.plan, ts));
    }
  }

  // ----- Phases and targets -----

  function Promotions(a: Account, inputs: seq<Input>): nat {
    if inputs == [] then 0
    else Promotions(a, Front(inputs)) + if Promotes(After(a, Front(inputs)), Last(inputs)) then 1 else 0
  }

  /** How plan, target and identity move between two accounts, depending on a promotion between them. */
  predicate PhaseMoves(a: Account, b: Account, promoted: bool) {
    && b.plan == (if promoted then a.plan.(phase := NextPhase(a.plan.phase)) else a.plan)
    && (promoted ==> !a.plan.phase.Funded?)
    && (a.targetReachedAt.Some? ==> b.targetReachedAt == if promoted then None else a.targetReachedAt)
    && b.id == a.id
  }

  lemma {:induction false} TransitionPhase(r: Account, ev: PipelineEvent, now: Timestamp)
    requires Transition(r, ev, now).Ok?
    ensures PhaseMoves(r, Transition(r, ev, now).value.account, false)
  {
  }

  lemma {:induction false} ConclusionPhase(t: Account, i: Input)
    requires Conclude(t, i).Ok?
    ensures PhaseMoves(t, Conclude(t, i).value.account, Eligible(BeforePromotion(t, i)))
  {
    BeforePromotionFrame(t, i);
    ConclusionFrame(t, i);
  }

  lemma {:induction false} ReadyPhase(a: Account, ev: PipelineEvent, now: Timestamp)
    ensures PhaseMoves(a, Ready(a, ev, now), false)
  {
  }

  lemma {:induction false} PhaseMovesCompose(a: Account, b: Account, c: Account, promoted: bool)
    requires PhaseMoves(a, b, false) && PhaseMoves(b, c, promoted)
    ensures PhaseMoves(a, c, promoted)
  {
  }

  lemma {:induction false} StepPhase(a: Account, i: Input)
    ensures PhaseMoves(a, Next(a, i), Promotes(a, i))
  {
    if Step(a, i).Ok? {
      var r, t := StepStages(a, i);
      ReadyPhase(a, i.event, i.now);
      TransitionPhase(r, i.event, i.now);
      ConclusionPhase(t, i);
      PhaseMovesCompose(a, r, t, false);
      PhaseMovesCompose(a, t, Next(a, i), Promotes(a, i));
    }
  }

  lemma {:induction false} RunsKeepThePlan(a: Account, inputs: seq<Input>)
    ensures SamePlan(a.plan, After(a, inputs).plan) && After(a, inputs).id == a.id
  {
    if inputs != [] {
      var before := After(a, Front(inputs));
      RunsKeepThePlan(a, Front(inputs));
      StepPhase(before, Last(inputs));
      SamePlanExtends(a.plan, before.plan, Next(before, Last(inputs)).plan);
    }
  }

  /** Over every run from any account: the phase rank never falls, it counts the promotions, so there are at most two. */
  lemma {:induction false} PromotionsCountPhases(a: Account, inputs: seq<Input>)
    ensures Rank(After(a, inputs).plan.phase) == Rank(a.plan.phase) + Promotions(a, inputs)
    ensures Promotions(a, inputs) <= 2
  {
    if inputs != [] {
      PromotionsCountPhases(a, Front(inputs));
      StepPhase(After(a, Front(inputs)), Last(inputs));
    }
  }

  /** Once reached, the target time stays the same until a promotion. */
  lemma {:induction false} TargetIsSticky(a: Account, inputs: seq<Input>)
    requires a.targetReachedAt.Some? && Promotions(a, inputs) == 0
    ensures After(a, inputs).targetReachedAt == a.targetReachedAt
  {
    if inputs != [] {
      TargetIsSticky(a, Front(inputs));
      StepPhase(After(a, Front(inputs)), Last(inputs));
    }
  }

  // ----- The funded phase has no successor -----

  /** Funded and due for a promotion that does not exist. */
  predicate Stuck(a: Account) {
    a.plan.phase.Funded? && Eligible(a)
  }

  /** No accepted input leaves an account stuck: the one that would is refused. */
  lemma {:induction false} StepNeverStuck(a: Account, i: Input)
    requires Step(a, i).Ok?
    ensures !Stuck(Next(a, i))
  {
    var r, t := StepStages(a, i);
    BeforePromotionFrame(t, i);
    ConclusionFrame(t, i);
  }

  /** Over every run from an account that is not stuck, such as a new one: none is ever reached. */
  lemma {:induction false} NeverStuck(a: Account, inputs: seq<Input>)
    requires !Stuck(a)
    ensures !Stuck(After(a, inputs))
  {
    if inputs != [] {
      var before := After(a, Front(inputs));
      NeverStuck(a, Front(inputs));
      if Step(before, Last(inputs)).Ok? {
        StepNeverStuck(before, Last(inputs));
      }
    }
  }

  /** On a funded account an input whose event applies is refused exactly when it makes the account due. */
  lemma {:induction false} FundedRefusalIff(a: Account, i: Input)
    requires a.plan.phase.Funded? && Settled(a, i).Some?
    ensures Step(a, i).Err? <==> Eligible(Settled(a, i).value)
  {
    var r := Ready(a, i.event, i.now);
    ReadyPhase(a, i.event, i.now);
    TransitionPhase(r, i.event, i.now);
    BeforePromotionFrame(Transition(r, i.event, i.now).value.account, i);
  }

  lemma {:induction false} SingleDecision(report: RuleReport)
    ensures Arbitrate([report]).kind == KindOf(report.verdict)
  {
    DecisionMeaning([report]);
    assert report in [report];
  }

  lemma {:induction false} ReadyKeepsTarget(a: Account, ev: PipelineEvent, now: Timestamp)
    ensures var r := Ready(a, ev, now);
      && r.status == a.status && r.targetReachedAt == a.targetReachedAt && r.plan == a.plan
      && r.activeTradingDays >= a.activeTradingDays
  {
  }

  lemma {:induction false} HitMakesDue(a: Account, d: Decision, at: Timestamp)
    requires a.status.Active? && a.targetReachedAt.None? && a.activeTradingDays >= a.plan.minTradingDays
    ensures Eligible(AfterTarget(a, d, at)) <==> d.kind == KTargetHit
  {
  }

  /** An order changes nothing by itself, so only the decision can make the account due. */
  lemma {:induction false} OrderSettles(a: Account, at: Timestamp, now: Timestamp, freshId: int, reports: seq<RuleReport>)
    ensures Settled(a, Input(EvOrder(at), now, freshId, reports))
         == Some(AfterTarget(Ready(a, EvOrder(at), now), Arbitrate(reports), now))
  {
  }

  /** So a funded, active account with its days loses the very input that hits the target: an order on which the rules
      report the hit is refused, and the same order without the report goes through. */
  lemma {:induction false} FundedHitIsRefused(a: Account, at: Timestamp, now: Timestamp, freshId: int, hit: RuleReport)
    requires a.plan.phase.Funded? && a.status.Active? && a.targetReachedAt.None?
    requires a.activeTradingDays >= a.plan.minTradingDays && hit.verdict.TargetHit?
    ensures Step(a, Input(EvOrder(at), now, freshId, [hit])).Err?
    ensures Step(a, Input(EvOrder(at), now, freshId, [])).Ok?
  {
    var r := Ready(a, EvOrder(at), now);
    ReadyKeepsTarget(a, EvOrder(at), now);
    SingleDecision(hit);
    HitMakesDue(r, Arbitrate([hit]), now);
    HitMakesDue(r, Arbitrate([]), now);
    OrderSettles(a, at, now, freshId, [hit]);
    OrderSettles(a, at, now, freshId, []);
    FundedRefusalIff(a, Input(EvOrder(at), now, freshId, [hit]));
    FundedRefusalIff(a, Input(EvOrder(at), now, freshId, []));
  }

  /** A caller may still supply a stuck account, since the engine keeps none: it rejects every input except an emergency
      stop and never changes. */
  lemma {:induction false} StuckStaysStuck(a: Account, inputs: seq<Input>)
    requires Stuck(a)
    requires forall i :: i in inputs ==> !i.event.EvEmergencyStop?
    ensures After(a, inputs) == a && Log(a, inputs) == []
  {
    if inputs != [] {
      StuckStaysStuck(a, Front(inputs));
      StuckStepRejected(a, Last(inputs));
    }
  }

  lemma {:induction false} TransitionKeepsEligible(r: Account, ev: PipelineEvent, now: Timestamp)
    requires Transition(r, ev, now).Ok? && Eligible(r) && !ev.EvEmergencyStop?
    ensures var t := Transition(r, ev, now).value.account; Eligible(t) && t.plan == r.plan
  {
  }

  lemma {:induction false} StuckStepRejected(a: Account, i: Input)
    requires Stuck(a) && !i.event.EvEmergencyStop?
    ensures Step(a, i).Err?
  {
    if Step(a, i).Ok? {
      var r, t := StepStages(a, i);
      assert Eligible(r) && r.plan == a.plan;
      TransitionKeepsEligible(r, i.event, i.now);
      BeforePromotionFrame(t, i);
      ConclusionFrame(t, i);
    }
  }

  // ----- Statuses -----

  /** The status with which a step leaves the promotion test. */
  function PromotedStatus(h: Account): AccountStatus {
    if Eligible(h) then Active else h.status
  }

  lemma {:induction false} PromotionStatuses(h: Account)
    requires AfterPromotion(h).Ok?
    ensures AfterPromotion(h).value.status == PromotedStatus(h)
    ensures AfterPromotion(h).value.statusBeforeBreach == h.statusBeforeBreach
  {
  }

  lemma {:induction false} DecisionStatuses(f: Account, d: Decision, at: Timestamp)
    requires ApplyDecision(f, d, at).Ok?
    ensures var h, c, target := AfterTarget(f, d, at), ApplyDecision(f, d, at).value.account, StatusTarget(d.kind);
      && c.status == (if target.Some? then target.value else PromotedStatus(h))
      && c.statusBeforeBreach == (if target.Some? then Some(PromotedStatus(h)) else h.statusBeforeBreach)
  {
    PromotionStatuses(AfterTarget(f, d, at));
  }

  /** The status a step ends with and the one it remembers: a terminating decision takes both over. */
  lemma {:induction false} ConclusionStatuses(t: Account, i: Input)
    requires Conclude(t, i).Ok?
    ensures var h, c := BeforePromotion(t, i), Conclude(t, i).value.account;
      var target := StatusTarget(Arbitrate(i.reports).kind);
      && c.status == (if target.Some? then target.value else PromotedStatus(h))
      && c.statusBeforeBreach == (if target.Some? then Some(PromotedStatus(h)) else t.statusBeforeBreach)
      && (h.status == t.status || (t.status.Active? && h.status.TargetHitPending?))
  {
    BeforePromotionFrame(t, i);
    DecisionStatuses(ConsumeFill(t, i.event, i.freshId), Arbitrate(i.reports), i.now);
  }

  // ----- Days after a promotion -----

  /** Started for good: the account is not pending and no override can make it pending again. */
  predicate Underway(a: Account) {
    !a.status.Pending? && a.statusBeforeBreach != Some(Pending)
  }

  lemma {:induction false} StepUnderway(a: Account, i: Input)
    requires Underway(a)
    ensures Underway(Next(a, i))
  {
    if Step(a, i).Ok? {
      var r, t := StepStages(a, i);
      TransitionUnderway(r, i.event, i.now);
      ConclusionUnderway(t, i);
    }
  }

  lemma {:induction false} TransitionUnderway(r: Account, ev: PipelineEvent, now: Timestamp)
    requires (Underway(r) || (ev.EvStarted? && r.statusBeforeBreach.None?)) && Transition(r, ev, now).Ok?
    ensures Underway(Transition(r, ev, now).value.account)
  {
  }

  lemma {:induction false} ConclusionUnderway(t: Account, i: Input)
    requires Underway(t) && Conclude(t, i).Ok?
    ensures Underway(Conclude(t, i).value.account)
  {
    ConclusionStatuses(t, i);
  }

  /** A remembered status belongs to a breach. */
  predicate Remembers(a: Account) {
    a.statusBeforeBreach.Some? ==> IsBreachTerminal(a.status)
  }

  lemma {:induction false} TransitionRemembers(r: Account, ev: PipelineEvent, now: Timestamp)
    requires Remembers(r) && Transition(r, ev, now).Ok?
    ensures Remembers(Transition(r, ev, now).value.account)
  {
  }

  lemma {:induction false} ConclusionRemembers(t: Account, i: Input)
    requires Remembers(t) && Conclude(t, i).Ok?
    ensures Remembers(Conclude(t, i).value.account)
  {
    ConclusionStatuses(t, i);
  }

  /** Over every run from a new account: a status is remembered only while the account is failed or stopped. */
  lemma {:induction false} RunsRemember(id: int, plan: ChallengePlan, inputs: seq<Input>)
    ensures Remembers(After(NewAccount(id, plan), inputs))
  {
    if inputs != [] {
      RunsRemember(id, plan, Front(inputs));
      var before, i := After(NewAccount(id, plan), Front(inputs)), Last(inputs);
      if Step(before, i).Ok? {
        var r, t := StepStages(before, i);
        TransitionRemembers(r, i.event, i.now);
        ConclusionRemembers(t, i);
      }
    }
  }

  /** Underway without a stored day start: nothing to catch up from. */
  predicate Undated(a: Account) {
    a.currentTradingDayStart.None? && Underway(a)
  }

  /** A promotion forgets the day start and restarts the day index. */
  lemma {:induction false} PromotionUndates(a: Account, i: Input)
    requires Remembers(a) && Promotes(a, i)
    ensures Undated(Next(a, i)) && Next(a, i).tradingDayIndex == 0
  {
    var r, t := StepStages(a, i);
    TransitionRemembers(r, i.event, i.now);
    BeforePromotionFrame(t, i);
    PromotionConcludes(t, i);
  }

  lemma {:induction false} PromotionConcludes(t: Account, i: Input)
    requires Conclude(t, i).Ok? && Eligible(BeforePromotion(t, i)) && t.statusBeforeBreach.None?
    ensures var c := Conclude(t, i).value.account; Undated(c) && c.tradingDayIndex == 0
  {
    BeforePromotionFrame(t, i);
    ConclusionFrame(t, i);
    ConclusionStatuses(t, i);
  }

  lemma {:induction false} TransitionUndated(r: Account, ev: PipelineEvent, now: Timestamp)
    requires Undated(r) && Transition(r, ev, now).Ok? && !ev.EvRollover?
    ensures var t := Transition(r, ev, now).value.account;
      t.currentTradingDayStart.None? && t.tradingDayIndex == r.tradingDayIndex
  {
  }

  /** Without a day start, an input other than a rollover gives none, and moves the day index only by a promotion. */
  lemma {:induction false} UndatedStep(a: Account, i: Input)
    requires Undated(a) && !i.event.EvRollover?
    ensures Undated(Next(a, i))
    ensures Next(a, i).tradingDayIndex == if Promotes(a, i) then 0 else a.tradingDayIndex
  {
    StepUnderway(a, i);
    if Step(a, i).Ok? {
      var r, t := StepStages(a, i);
      TransitionUndated(r, i.event, i.now);
      BeforePromotionFrame(t, i);
      ConclusionFrame(t, i);
    }
  }

  /** Over every run without explicit rollovers from an account without a day start, such as a freshly promoted one: no
      day is ever opened again, however far the clock moves. */
  lemma {:induction false} UndatedUntilRollover(a: Account, inputs: seq<Input>)
    requires Undated(a) && forall k :: 0 <= k < |inputs| ==> !inputs[k].event.EvRollover?
    ensures Undated(After(a, inputs)) && After(a, inputs).tradingDayIndex <= a.tradingDayIndex
  {
    if inputs != [] {
      UndatedUntilRollover(a, Front(inputs));
      UndatedStep(After(a, Front(inputs)), Last(inputs));
    }
  }

  lemma {:induction false} OneDayIsTooFew(a: Account, i: Input)
    requires Undated(a) && DaysHold(a) && a.tradingDayIndex == 0 && a.plan.minTradingDays >= 2 && !i.event.EvRollover?
    ensures !Promotes(a, i)
    ensures DaysHold(Next(a, i)) && Next(a, i).plan == a.plan
  {
    StepPhase(a, i);
    if Step(a, i).Ok? {
      StepDays(a, i);
    }
  }

  lemma {:induction false} NoPromotionInOneDay(a: Account, inputs: seq<Input>)
    requires Undated(a) && DaysHold(a) && a.tradingDayIndex == 0 && a.plan.minTradingDays >= 2
    requires forall k :: 0 <= k < |inputs| ==> !inputs[k].event.EvRollover?
    ensures var b := After(a, inputs);
      Promotions(a, inputs) == 0 && Undated(b) && DaysHold(b) && b.tradingDayIndex == 0 && b.plan == a.plan
  {
    if inputs != [] {
      NoPromotionInOneDay(a, Front(inputs));
      UndatedStep(After(a, Front(inputs)), Last(inputs));
      OneDayIsTooFew(After(a, Front(inputs)), Last(inputs));
    }
  }

  /** Over every run from a new account that asks for two trading days or more: after a promotion no further promotion
      comes without an explicit rollover, since the days are no longer caught up. */
  lemma {:induction false} NextPromotionNeedsRollover(
    id: int, plan: ChallengePlan, inputs: seq<Input>, i: Input, later: seq<Input>)
    requires plan.minTradingDays >= 2 && Promotes(After(NewAccount(id, plan), inputs), i)
    requires forall k :: 0 <= k < |later| ==> !later[k].event.EvRollover?
    ensures Promotions(Next(After(NewAccount(id, plan), inputs), i), later) == 0
  {
    var a := After(NewAccount(id, plan), inputs);
    RunDays(id, plan, inputs);
    RunsRemember(id, plan, inputs);
    RunsKeepThePlan(NewAccount(id, plan), inputs);
    StepDays(a, i);
    StepPhase(a, i);
    PromotionUndates(a, i);
    NoPromotionInOneDay(Next(a, i), later);
  }

  // ----- Breach states -----

  lemma {:induction false} TransitionKeepsBreach(r: Account, ev: PipelineEvent, now: Timestamp)
    requires Transition(r, ev, now).Ok? && IsBreachTerminal(r.status) && !ev.EvOverride?
    ensures IsBreachTerminal(Transition(r, ev, now).value.account.status)
  {
  }

  lemma {:induction false} ConclusionKeepsBreach(t: Account, i: Input)
    requires IsBreachTerminal(t.status) && Conclude(t, i).Ok?
    ensures IsBreachTerminal(Conclude(t, i).value.account.status)
  {
    ConclusionStatuses(t, i);
  }

  lemma {:induction false} StepKeepsBreach(a: Account, i: Input)
    requires IsBreachTerminal(a.status) && !i.event.EvOverride?
    ensures IsBreachTerminal(Next(a, i).status)
  {
    if Step(a, i).Ok? {
      var r, t := StepStages(a, i);
      TransitionKeepsBreach(r, i.event, i.now);
      ConclusionKeepsBreach(t, i);
    }
  }

  /** From a failed or stopped account, no inputs without an override reach any other status. */
  lemma {:induction false} BreachIsAbsorbing(a: Account, inputs: seq<Input>)
    requires IsBreachTerminal(a.status)
    requires forall i :: i in inputs ==> !i.event.EvOverride?
    ensures IsBreachTerminal(After(a, inputs).status)
  {
    if inputs != [] {
      BreachIsAbsorbing(a, Front(inputs));
      StepKeepsBreach(After(a, Front(inputs)), Last(inputs));
    }
  }

  /** An emergency stop always succeeds and always ends in a breach state, from every account and whatever the rules report. */
  lemma {:induction false} EmergencyStopStops(a: Account, i: Input)
    requires i.event.EvEmergencyStop?
    ensures Step(a, i).Ok? && IsBreachTerminal(Next(a, i).status)
  {
    var r := Ready(a, i.event, i.now);
    var t := Transition(r, i.event, i.now).value.account;
    assert t == Stop(r);
    var h := AfterTarget(ConsumeFill(t, i.event, i.freshId), Arbitrate(i.reports), i.now);
    assert h.status.EmergencyStopped? && AfterPromotion(h).Ok?;
    ConclusionKeepsBreach(t, i);
  }

  /** A terminating decision followed by an override gives the account back exactly when it was not due for
      promotion; only the remembered status is gone. */
  lemma {:induction false} OverrideUndoesTermination(a: Account, d: Decision, at: Timestamp)
    requires StatusTarget(d.kind).Some? && ApplyDecision(a, d, at).Ok?
    ensures var failed := ApplyDecision(a, d, at).value.account;
      && ClearBreach(failed).Ok?
      && (ClearBreach(failed).value == a.(statusBeforeBreach := None) <==> !Eligible(a))
  {
  }

  /** A second terminating decision overwrites the remembered status with a breach status,
      so one override no longer brings the account back to life. */
  lemma {:induction false} SecondTerminationDefeatsOverride(a: Account, d: Decision, at: Timestamp)
    requires IsBreachTerminal(a.status) && StatusTarget(d.kind).Some?
    ensures ApplyDecision(a, d, at).Ok?
    ensures var failed := ApplyDecision(a, d, at).value.account;
      ClearBreach(failed).Ok? && IsBreachTerminal(ClearBreach(failed).value.status)
  {
  }
}
