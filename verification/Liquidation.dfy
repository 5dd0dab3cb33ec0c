/** Liquidation over the whole pipeline: it takes a broker tick. */
module Liquidations {
  import opened Common
  import opened Accounts
  import opened Verdicts
  import opened Decisions
  import opened Registries
  import opened DomainEvents
  import opened Pipelines
  import opened Runs

  predicate AsksLiquidation(e: DomainEvent) {
    e.kind.LiquidationRequested?
  }

  ghost predicate NoneAsk(events: seq<DomainEvent>) {
    forall e :: e in events ==> !AsksLiquidation(e)
  }

  lemma {:induction false} ViolationsAskNothing(id: int, vs: seq<Violation>, at: Timestamp)
    ensures NoneAsk(ViolationEvents(id, vs, at))
  {
    if vs != [] {
      ViolationsAskNothing(id, Front(vs), at);
    }
  }

  lemma {:induction false} TransitionAsksNothing(r: Account, ev: PipelineEvent, now: Timestamp)
    requires Transition(r, ev, now).Ok?
    ensures NoneAsk(Transition(r, ev, now).value.events)
  {
  }

  predicate Liquidating(d: Decision) {
    d.kind == KLiquidate || d.kind == KEmergency
  }

  /** A decision asks for liquidation exactly when it is a liquidation or an emergency, and then for every open position. */
  lemma {:induction false} DecisionAsks(a: Account, d: Decision, at: Timestamp)
    requires ApplyDecision(a, d, at).Ok?
    ensures !Liquidating(d) ==> NoneAsk(ApplyDecision(a, d, at).value.events)
    ensures Liquidating(d) ==>
              DomainEvent(a.id, LiquidationRequested(OpenOnly(a.openPositions), ReasonOf(d)), at)
              in ApplyDecision(a, d, at).value.events
  {
    var hit := AfterTarget(a, d, at);
    var b := AfterPromotion(hit).value;
    var target, promoted, ended := TargetEvents(a, d, at), PromotionEvents(hit, at), TerminationEvents(b, d, at);
    assert ApplyDecision(a, d, at).value.events == target + promoted + ended;
    assert NoneAsk(target) && NoneAsk(promoted);
    if Liquidating(d) {
      assert ended[1] == DomainEvent(a.id, LiquidationRequested(OpenOnly(a.openPositions), ReasonOf(d)), at);
      assert ended[1] in ended;
    } else {
      assert NoneAsk(ended);
    }
  }

  lemma {:induction false} ConclusionAsks(t: Account, i: Input)
    requires Conclude(t, i).Ok?
    ensures (exists e :: e in Conclude(t, i).value.events && AsksLiquidation(e)) <==> Liquidating(Arbitrate(i.reports))
  {
    var f, d := ConsumeFill(t, i.event, i.freshId), Arbitrate(i.reports);
    DecisionAsks(f, d, i.now);
    ViolationsAskNothing(t.id, ViolationsOf(i.reports), i.now);
    var decided, closing := ApplyDecision(f, d, i.now).value.events, ClosingEvents(t.id, i.reports, i.now);
    assert NoneAsk(closing);
    assert Conclude(t, i).value.events == decided + closing;
    if Liquidating(d) {
      var e := DomainEvent(f.id, LiquidationRequested(OpenOnly(f.openPositions), ReasonOf(d)), i.now);
      assert e in Conclude(t, i).value.events && AsksLiquidation(e);
    }
  }

  /** A successful input emits a liquidation request exactly when the rules decide for liquidation or emergency. */
  lemma {:induction false} StepAsks(a: Account, i: Input)
    requires Step(a, i).Ok?
    ensures (exists e :: e in Emitted(a, i) && AsksLiquidation(e)) <==> Liquidating(Arbitrate(i.reports))
  {
    var r, t := StepStages(a, i);
    TransitionAsksNothing(r, i.event, i.now);
    ConclusionAsks(t, i);
    var ready, moved := ReadyEvents(a, i.event, i.now), Transition(r, i.event, i.now).value.events;
    assert NoneAsk(ready);
    assert Emitted(a, i) == ready + moved + Conclude(t, i).value.events;
    if Liquidating(Arbitrate(i.reports)) {
      var e :| e in Conclude(t, i).value.events && AsksLiquidation(e);
      assert e in Emitted(a, i);
    }
  }

  /** Under any selection of the default rules, only a broker tick can lead to a liquidation request: not a fill, however
      large its loss, not an estimate, and not an emergency stop either. */
  lemma {:induction false} OnlyBrokerTicksLiquidate(
    simple: SimpleRules, ids: seq<RuleId>, a: Account, ev: PipelineEvent, now: Timestamp, freshId: int)
    requires !ev.EvTick?
    ensures var r := StepWithRules(RulesFor(simple, ids), a, ev, now, freshId);
      r.Ok? ==> NoneAsk(r.value.events)
  {
    var rules := RulesFor(simple, ids);
    if StepWithRules(rules, a, ev, now, freshId).Ok? {
      var r := Ready(a, ev, now);
      var t := Transition(r, ev, now).value;
      var ctx := BuildContext(t.account, ListsOf(r), ev, now);
      EstimatesNeverLiquidate(simple, ids, ctx);
      StepAsks(a, Input(ev, now, freshId, EvaluateRules(rules, ctx)));
    }
  }
}
