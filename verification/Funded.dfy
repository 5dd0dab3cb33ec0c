/** Funded accounts under the default rules: what happens at the profit target. */
module FundedPhase {
  import opened Common
  import opened Accounts
  import opened Verdicts
  import opened Decisions
  import opened Evaluators
  import opened Registries
  import opened Pipelines
  import opened Runs

  lemma {:induction false} RunningRuleReports(rules: seq<Rule>, ctx: RuleContext, k: nat)
    requires k < |rules| && rules[k].isEnabled(ctx) && Registries.Runs(rules[k], ctx.kind)
    ensures ReportOf(rules[k], ctx) in EvaluateRules(rules, ctx)
  {
    if k < |rules| - 1 {
      RunningRuleReports(Front(rules), ctx, k);
    }
  }

  /** The context in which the rules see a tick. */
  function ContextOf(a: Account, ev: PipelineEvent, now: Timestamp): RuleContext
    requires Transition(Ready(a, ev, now), ev, now).Ok?
  {
    var r := Ready(a, ev, now);
    BuildContext(Transition(r, ev, now).value.account, ListsOf(r), ev, now)
  }

  /** A positive target of a starting balance, and a balance that reaches it. */
  predicate Reaches(pct: real, initial: Money, balance: Money) {
    pct > 0.0 && pct * initial > 0.0 && balance - initial >= pct * initial
  }

  /** The broker's balance is at or above the target of an account that has not hit it yet. */
  predicate AtTarget(a: Account, balance: Money) {
    a.targetReachedAt.None? && Reaches(a.plan.profitTargetPct, a.initialBalance, balance)
  }

  lemma {:induction false} TickContextAtTarget(a: Account, ev: PipelineEvent, now: Timestamp)
    requires ev.EvTick? && AtTarget(a, ev.brokerBalance) && Transition(Ready(a, ev, now), ev, now).Ok?
    ensures var ctx := ContextOf(a, ev, now);
      && ctx.kind.OnTick? && ctx.account.balance == ev.brokerBalance && AtTarget(ctx.account, ctx.account.balance)
  {
  }

  lemma {:induction false} TargetRuleHits(simple: SimpleRules, ids: seq<RuleId>, ctx: RuleContext)
    requires ProfitTarget in ids && ctx.kind.OnTick? && AtTarget(ctx.account, ctx.account.balance)
    ensures exists r :: r in EvaluateRules(RulesFor(simple, ids), ctx) && r.verdict.TargetHit?
  {
    var k :| 0 <= k < |ids| && ids[k] == ProfitTarget;
    var rules := RulesFor(simple, ids);
    assert rules[k] == DefaultRule(simple, ProfitTarget);
    RunningRuleReports(rules, ctx, k);
    assert ReportOf(rules[k], ctx).verdict.TargetHit?;
  }

  lemma {:induction false} TickKeepsDays(a: Account, ev: PipelineEvent, now: Timestamp)
    requires ev.EvTick? && Transition(Ready(a, ev, now), ev, now).Ok?
    ensures var t := Transition(Ready(a, ev, now), ev, now).value.account;
      && t.status == a.status && t.targetReachedAt == a.targetReachedAt && t.plan == a.plan
      && t.activeTradingDays >= a.activeTradingDays
  {
    ReadyKeepsTarget(a, ev, now);
  }

  lemma {:induction false} TickSettles(a: Account, i: Input)
    requires i.event.EvTick? && Transition(Ready(a, i.event, i.now), i.event, i.now).Ok?
    ensures Settled(a, i)
         == Some(AfterTarget(Transition(Ready(a, i.event, i.now), i.event, i.now).value.account, Arbitrate(i.reports), i.now))
  {
  }

  /** A funded, active account with its days whose broker balance stands at or above the target: under any selection of
      the default rules with the target rule in it, a tick that applies is accepted exactly when some rule reports more
      than a target hit. A healthy account at its target therefore loses every tick. */
  lemma {:induction false} FundedTicksAtTarget(
    simple: SimpleRules, ids: seq<RuleId>, a: Account, ev: PipelineEvent, now: Timestamp, freshId: int)
    requires ProfitTarget in ids && a.plan.phase.Funded? && a.status.Active?
    requires a.activeTradingDays >= a.plan.minTradingDays
    requires ev.EvTick? && AtTarget(a, ev.brokerBalance) && Transition(Ready(a, ev, now), ev, now).Ok?
    ensures StepWithRules(RulesFor(simple, ids), a, ev, now, freshId).Ok? <==>
            exists r :: r in EvaluateRules(RulesFor(simple, ids), ContextOf(a, ev, now))
                        && IntrinsicWeight(KindOf(r.verdict)) > IntrinsicWeight(KTargetHit)
  {
    var ctx := ContextOf(a, ev, now);
    var reports := EvaluateRules(RulesFor(simple, ids), ctx);
    var i := Input(ev, now, freshId, reports);
    TickContextAtTarget(a, ev, now);
    TargetRuleHits(simple, ids, ctx);
    TickKeepsDays(a, ev, now);
    TickSettles(a, i);
    HitMakesDue(Transition(Ready(a, ev, now), ev, now).value.account, Arbitrate(reports), now);
    FundedRefusalIff(a, i);
    HitUnlessStronger(reports);
  }

  lemma {:induction false} HitUnlessStronger(reports: seq<RuleReport>)
    requires exists r :: r in reports && r.verdict.TargetHit?
    ensures Arbitrate(reports).kind == KTargetHit <==>
            !exists r :: r in reports && IntrinsicWeight(KindOf(r.verdict)) > IntrinsicWeight(KTargetHit)
  {
    DecisionMeaning(reports);
    var k := Arbitrate(reports).kind;
    assert IntrinsicWeight(k) >= IntrinsicWeight(KTargetHit);
    if IntrinsicWeight(k) == IntrinsicWeight(KTargetHit) {
      WeightInjective(k, KTargetHit);
    }
  }

  // ----- One profit for two phases -----

  /** A promotion keeps balance, starting balance and target, and forgets that the target was hit. */
  lemma {:induction false} PromotionKeepsProfit(a: Account, i: Input)
    requires Promotes(a, i)
    ensures var h, b := Settled(a, i).value, Next(a, i);
      && b.balance == h.balance && b.initialBalance == h.initialBalance && b.targetReachedAt.None?
      && b.plan.profitTargetPct == h.plan.profitTargetPct
  {
    var r, t := StepStages(a, i);
    ConclusionFrame(t, i);
  }

  lemma {:induction false} TickAtTargetHits(
    simple: SimpleRules, ids: seq<RuleId>, b: Account, ev: PipelineEvent, now: Timestamp)
    requires ProfitTarget in ids && ev.EvTick? && AtTarget(b, ev.brokerBalance)
    requires Transition(Ready(b, ev, now), ev, now).Ok?
    ensures exists r :: r in EvaluateRules(RulesFor(simple, ids), ContextOf(b, ev, now)) && r.verdict.TargetHit?
  {
    TickContextAtTarget(b, ev, now);
    TargetRuleHits(simple, ids, ContextOf(b, ev, now));
  }

  /** Such a balance is at the target of the next phase too. */
  lemma {:induction false} PromotedAtTarget(a: Account, i: Input, balance: Money)
    requires Promotes(a, i)
    requires Reaches(Settled(a, i).value.plan.profitTargetPct, Settled(a, i).value.initialBalance, balance)
    ensures AtTarget(Next(a, i), balance)
  {
    PromotionKeepsProfit(a, i);
  }

  /** So the profit that passed one phase passes the next: on the account `b` that a promotion gave, every tick that applies
      and reports a balance at or above the target is a target hit again, under any selection of the default rules with
      the target rule. */
  lemma {:induction false} SameProfitHitsAgain(
    simple: SimpleRules, ids: seq<RuleId>, a: Account, i: Input, b: Account, ev: PipelineEvent, now: Timestamp)
    requires Promotes(a, i) && b == Next(a, i)
    requires ProfitTarget in ids && ev.EvTick? && Transition(Ready(b, ev, now), ev, now).Ok?
    requires Reaches(Settled(a, i).value.plan.profitTargetPct, Settled(a, i).value.initialBalance, ev.brokerBalance)
    ensures exists r :: r in EvaluateRules(RulesFor(simple, ids), ContextOf(b, ev, now)) && r.verdict.TargetHit?
  {
    PromotedAtTarget(a, i, ev.brokerBalance);
    TickAtTargetHits(simple, ids, b, ev, now);
  }
}
