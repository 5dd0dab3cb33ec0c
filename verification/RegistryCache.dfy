/** The per-plan registry cache: when a cached registry decides like one built for the plan at hand. */
module RegistryCaches {
  import opened Common
  import opened Plans
  import opened Accounts
  import opened Verdicts
  import opened Evaluators
  import opened Registries

  /** The plan fields that feed the cache key. Three fields that pruning reads are not among them. */
  datatype PlanKey = PlanKey(
    money: (Money, real, real, real, LossReference, bool, bool, real),
    days: (nat, Option<nat>, ResetHour),
    positions: (Option<real>, Option<real>, Option<nat>, Option<nat>),
    newsTradingAllowed: bool,
    overnightHoldingAllowed: bool,
    weekendHoldingAllowed: bool,
    hedgingAllowed: bool,
    gridTradingAllowed: bool,
    copyTradingAllowed: bool,
    requiredStops: (bool, bool),
    consistencyPct: Option<real>,
    cooldownSeconds: nat,
    leverage: nat,
    tradingHours: Option<(nat, nat)>,
    perTradeMaxLossPct: Option<real>,
    perTradeMaxLossMoney: Option<Money>,
    hftBanEnabled: bool,
    hftMinRoundTripSeconds: nat,
    inactivityDays: Option<nat>,
    phase: ChallengePhase,
    hasTimezone: bool,
    payout: (bool, bool, Money))

  function KeyOf(p: ChallengePlan): PlanKey {
    PlanKey(
      (p.initialBalanceMoney, p.profitTargetPct, p.maxDailyDrawdownPct, p.maxTotalDrawdownPct,
       p.maxLossReference, p.drawdownOnBalance, p.trailingDrawdownEnabled, p.trailingDrawdownPct),
      (p.minTradingDays, p.timeLimitDays, p.dayResetTime),
      (p.maxPositionLots, p.maxTotalLots, p.maxOpenPositions, p.maxDailyTrades),
      p.newsTradingAllowed, p.overnightHoldingAllowed, p.weekendHoldingAllowed,
      p.hedgingAllowed, p.gridTradingAllowed, p.copyTradingAllowed,
      (p.requireStopLoss, p.requireTakeProfit),
      p.consistencyPct, p.cooldownSeconds, p.leverage, p.tradingHours,
      p.perTradeMaxLossPct, p.perTradeMaxLossMoney,
      p.hftBanEnabled, p.hftMinRoundTripSeconds, p.inactivityDays,
      p.phase, p.hasTimezone,
      (p.payoutConfig.Some?, p.refundable, p.refundFeeAmount))
  }

  /** What a cached registry stands for: the ids of its default rules in order. */
  type Cached = seq<RuleId>

  type Cache = map<PlanKey, Cached>

  /** What a call returns: the cached registry of the plan's key, or one built for the plan. */
  function Answered(c: Cache, plan: ChallengePlan): Cached {
    if KeyOf(plan) in c then c[KeyOf(plan)] else Kept(plan, DEFAULT_IDS)
  }

  /** The cache after a call. */
  function Called(c: Cache, plan: ChallengePlan): Cache {
    c[KeyOf(plan) := Answered(c, plan)]
  }

  lemma {:induction false} SameEntry<K, V>(m: map<K, V>, k: K)
    requires k in m
    ensures m[k := m[k]] == m
  {
  }

  /** The shared cache. A registry is never changed once it is in. */
  class RegistryCache {
    const simple: SimpleRules
    var registries: map<PlanKey, RuleRegistry>
    ghost var contents: Cache

    ghost predicate Valid()
      reads this, registries.Values
    {
      && registries.Keys == contents.Keys
      && forall k :: k in registries ==> registries[k].Valid() && registries[k].rules == RulesFor(simple, contents[k])
    }

    constructor (rules: SimpleRules)
      ensures Valid() && contents == map[] && simple == rules
    {
      simple := rules;
      registries := map[];
      contents := map[];
    }

    /** The first locked section: a lookup, which hands out the shared registry itself. */
    method Lookup(plan: ChallengePlan) returns (r: Option<RuleRegistry>)
      requires Valid()
      ensures r.Some? ==> KeyOf(plan) in contents && r.value.Valid() && r.value.rules == RulesFor(simple, contents[KeyOf(plan)])
      ensures r.None? ==> KeyOf(plan) !in contents
      ensures r == if KeyOf(plan) in registries then Some(registries[KeyOf(plan)]) else None
    {
      r := if KeyOf(plan) in registries then Some(registries[KeyOf(plan)]) else None;
    }

    /** The second locked section: an insertion after a miss, whatever the cache holds by then. */
    method Insert(plan: ChallengePlan, registry: RuleRegistry)
      requires Valid() && registry.Valid() && registry.rules == RulesFor(simple, Kept(plan, DEFAULT_IDS))
      modifies this
      ensures Valid() && registries == old(registries)[KeyOf(plan) := registry]
      ensures contents == old(contents)[KeyOf(plan) := Kept(plan, DEFAULT_IDS)]
    {
      registries := registries[KeyOf(plan) := registry];
      contents := contents[KeyOf(plan) := Kept(plan, DEFAULT_IDS)];
    }

    /** A call without another caller between its two sections: a hit hands out the stored registry, a miss builds one
        and stores it. */
    method GetOrBuild(plan: ChallengePlan) returns (r: RuleRegistry)
      requires Valid()
      modifies this
      ensures Valid() && contents == Called(old(contents), plan)
      ensures r.Valid() && r.rules == RulesFor(simple, Answered(old(contents), plan))
      ensures if KeyOf(plan) in old(registries) then r == old(registries)[KeyOf(plan)] else fresh(r)
      ensures registries == old(registries)[KeyOf(plan) := r]
    {
      var hit := Lookup(plan);
      if hit.Some? {
        r := hit.value;
        SameEntry(registries, KeyOf(plan));
        SameEntry(contents, KeyOf(plan));
        return;
      }
      r := BuildRegistry(simple, Some(plan));
      assert Valid();
      Insert(plan, r);
    }
  }

  // ----- Insertions -----

  /** An insertion under any plan that some caller missed; lookups do not change the cache. */
  function Filled(plans: seq<ChallengePlan>): Cache {
    if plans == [] then map[] else Filled(Front(plans))[KeyOf(Last(plans)) := Kept(Last(plans), DEFAULT_IDS)]
  }

  /** Whatever is found in the cache was built for an inserted plan of the same key. */
  lemma {:induction false} FoundWasInserted(plans: seq<ChallengePlan>, key: PlanKey)
    ensures key in Filled(plans) <==> exists q :: q in plans && KeyOf(q) == key
    ensures key in Filled(plans) ==>
              exists q :: q in plans && KeyOf(q) == key && Filled(plans)[key] == Kept(q, DEFAULT_IDS)
  {
    if plans != [] {
      FoundWasInserted(Front(plans), key);
      assert forall q :: q in plans <==> q in Front(plans) || q == Last(plans);
    }
  }

  /** The cached plan enables every omitted rule that the plan at hand needs. */
  predicate Covers(q: ChallengePlan, p: ChallengePlan) {
    && (p.minProfitableDays.Some? ==> q.minProfitableDays.Some?)
    && (p.crossAccountHedgingProhibited ==> q.crossAccountHedgingProhibited)
    && (p.lowcapExposureLimitPct.Some? ==> q.lowcapExposureLimitPct.Some?)
  }

  lemma {:induction false} KeyKeeps(q: ChallengePlan, p: ChallengePlan, id: RuleId)
    requires KeyOf(q) == KeyOf(p) && Covers(q, p) && Keeps(p, id)
    ensures Keeps(q, id)
  {
  }

  lemma {:induction false} CoveringPreserves(simple: SimpleRules, q: ChallengePlan, ids: seq<RuleId>, ctx: RuleContext)
    requires KeyOf(q) == KeyOf(ctx.account.plan) && Covers(q, ctx.account.plan)
    ensures EvaluateRules(RulesFor(simple, Kept(q, ids)), ctx) == EvaluateRules(RulesFor(simple, ids), ctx)
  {
    if ids != [] {
      var p, id := ctx.account.plan, Last(ids);
      CoveringPreserves(simple, q, Front(ids), ctx);
      var rules := RulesFor(simple, ids);
      assert Front(rules) == RulesFor(simple, Front(ids));
      if Keeps(q, id) {
        var kept := RulesFor(simple, Kept(q, ids));
        assert Front(Kept(q, ids)) == Kept(q, Front(ids));
        assert Front(kept) == RulesFor(simple, Kept(q, Front(ids)));
      } else {
        if Keeps(p, id) {
          KeyKeeps(q, p, id);
        }
        PrunedIsDisabled(id, ctx);
      }
    }
  }

  /** Some report names the rule. */
  predicate Names(reports: seq<RuleReport>, id: RuleId) {
    reports != [] && (Last(reports).ruleId == id || Names(Front(reports), id))
  }

  lemma {:induction false} NamesSnoc(reports: seq<RuleReport>, r: RuleReport, id: RuleId)
    ensures Names(reports + [r], id) <==> r.ruleId == id || Names(reports, id)
  {
    FrontLast(reports, r);
  }

  lemma {:induction false} EnabledIsNamed(simple: SimpleRules, ids: seq<RuleId>, ctx: RuleContext, id: RuleId)
    requires ctx.kind.OnDemand? && DefaultEnabled(id, ctx)
    ensures Names(EvaluateRules(RulesFor(simple, ids), ctx), id) <==> id in ids
  {
    if ids != [] {
      EnabledIsNamed(simple, Front(ids), ctx, id);
      var rules, last := RulesFor(simple, ids), DefaultRule(simple, Last(ids));
      assert Front(rules) == RulesFor(simple, Front(ids)) && Last(rules) == last;
      NamesSnoc(EvaluateRules(Front(rules), ctx), ReportOf(last, ctx), id);
      assert id in ids <==> id in Front(ids) || id == Last(ids);
    }
  }

  lemma {:induction false} KeptMembers(plan: ChallengePlan, ids: seq<RuleId>, id: RuleId)
    ensures id in Kept(plan, ids) <==> id in ids && Keeps(plan, id)
  {
    if ids != [] {
      KeptMembers(plan, Front(ids), id);
    }
  }

  /** An on-demand context on a fresh account of the plan. */
  function ProbeContext(p: ChallengePlan): RuleContext {
    RuleContext(NewAccount(0, p), [], [], None, OnDemand, Estimated(0.0, 0.0), 0)
  }

  lemma {:induction false} MissingRuleShows(simple: SimpleRules, q: ChallengePlan, p: ChallengePlan, id: RuleId)
    requires id in DEFAULT_IDS && Keeps(p, id) && !Keeps(q, id) && DefaultEnabled(id, ProbeContext(p))
    ensures EvaluateRules(RulesFor(simple, Kept(q, DEFAULT_IDS)), ProbeContext(p))
         != EvaluateRules(RulesFor(simple, Kept(p, DEFAULT_IDS)), ProbeContext(p))
  {
    KeptMembers(q, DEFAULT_IDS, id);
    KeptMembers(p, DEFAULT_IDS, id);
    EnabledIsNamed(simple, Kept(q, DEFAULT_IDS), ProbeContext(p), id);
    EnabledIsNamed(simple, Kept(p, DEFAULT_IDS), ProbeContext(p), id);
  }

  lemma {:induction false} OmittedAreDefault()
    ensures MinProfitableDays in DEFAULT_IDS && CrossAccountHedging in DEFAULT_IDS && LowcapExposure in DEFAULT_IDS
  {
    assert DEFAULT_IDS[5] == MinProfitableDays && DEFAULT_IDS[26] == CrossAccountHedging && DEFAULT_IDS[27] == LowcapExposure;
  }

  ghost predicate DecidesAlike(simple: SimpleRules, q: ChallengePlan, p: ChallengePlan) {
    forall ctx: RuleContext :: ctx.account.plan == p ==>
      EvaluateRules(RulesFor(simple, Kept(q, DEFAULT_IDS)), ctx)
      == EvaluateRules(RulesFor(simple, Kept(p, DEFAULT_IDS)), ctx)
  }

  lemma {:induction false} CoveredDecidesAlike(simple: SimpleRules, q: ChallengePlan, p: ChallengePlan)
    requires KeyOf(q) == KeyOf(p) && Covers(q, p)
    ensures DecidesAlike(simple, q, p)
  {
    forall ctx: RuleContext | ctx.account.plan == p
      ensures EvaluateRules(RulesFor(simple, Kept(q, DEFAULT_IDS)), ctx)
           == EvaluateRules(RulesFor(simple, Kept(p, DEFAULT_IDS)), ctx)
    {
      CoveringPreserves(simple, q, DEFAULT_IDS, ctx);
      PruningPreserves(simple, DEFAULT_IDS, ctx);
    }
  }

  lemma {:induction false} UncoveredDecidesOtherwise(simple: SimpleRules, q: ChallengePlan, p: ChallengePlan)
    requires !Covers(q, p)
    ensures !DecidesAlike(simple, q, p)
  {
    OmittedAreDefault();
    var id := if p.minProfitableDays.Some? && q.minProfitableDays.None? then MinProfitableDays
              else if p.crossAccountHedgingProhibited && !q.crossAccountHedgingProhibited then CrossAccountHedging
              else LowcapExposure;
    MissingRuleShows(simple, q, p, id);
    assert ProbeContext(p).account.plan == p;
  }

  /** A registry cached under the same key gives the reports of the plan's own registry in every context exactly when the
      plan it was built for covers the plan on the three fields that the key leaves out. */
  lemma {:induction false} CachedDecidesAlikeIff(simple: SimpleRules, q: ChallengePlan, p: ChallengePlan)
    requires KeyOf(q) == KeyOf(p)
    ensures DecidesAlike(simple, q, p) <==> Covers(q, p)
  {
    if Covers(q, p) {
      CoveredDecidesAlike(simple, q, p);
    } else {
      UncoveredDecidesOtherwise(simple, q, p);
    }
  }

  // ----- Runs of calls -----

  function CacheAfter(calls: seq<ChallengePlan>): Cache {
    if calls == [] then map[] else Called(CacheAfter(Front(calls)), Last(calls))
  }

  /** The first call of a key. */
  function FirstOf(calls: seq<ChallengePlan>, key: PlanKey): Option<ChallengePlan> {
    if calls == [] then None
    else
      var first := FirstOf(Front(calls), key);
      if first.Some? then first else if KeyOf(Last(calls)) == key then Some(Last(calls)) else None
  }

  lemma {:induction false} CacheHoldsTheFirst(calls: seq<ChallengePlan>, key: PlanKey)
    ensures var c, first := CacheAfter(calls), FirstOf(calls, key);
      && (key in c <==> first.Some?)
      && (first.Some? ==> KeyOf(first.value) == key && c[key] == Kept(first.value, DEFAULT_IDS))
  {
    if calls != [] {
      CacheHoldsTheFirst(Front(calls), key);
    }
  }

  /** The plan whose registry a call gets after a history of calls: the first of its key, or itself. */
  function Served(calls: seq<ChallengePlan>, p: ChallengePlan): ChallengePlan {
    var first := FirstOf(calls, KeyOf(p));
    if first.Some? then first.value else p
  }

  lemma {:induction false} AnswerIsServed(calls: seq<ChallengePlan>, p: ChallengePlan)
    ensures Answered(CacheAfter(calls), p) == Kept(Served(calls, p), DEFAULT_IDS)
    ensures KeyOf(Served(calls, p)) == KeyOf(p)
  {
    CacheHoldsTheFirst(calls, KeyOf(p));
  }

  ghost predicate AnswersAlike(simple: SimpleRules, registry: Cached, p: ChallengePlan) {
    forall ctx: RuleContext :: ctx.account.plan == p ==>
      EvaluateRules(RulesFor(simple, registry), ctx) == EvaluateRules(RulesFor(simple, Kept(p, DEFAULT_IDS)), ctx)
  }

  /** After every history of calls, the registry that a call returns gives the plan's own reports in every context
      exactly when the first call of the same key, or the call itself, covers the plan. */
  lemma {:induction false} CallDecidesAlikeIff(simple: SimpleRules, calls: seq<ChallengePlan>, p: ChallengePlan)
    ensures AnswersAlike(simple, Answered(CacheAfter(calls), p), p) <==> Covers(Served(calls, p), p)
  {
    var q := Served(calls, p);
    AnswerIsServed(calls, p);
    CachedDecidesAlikeIff(simple, q, p);
    assert AnswersAlike(simple, Kept(q, DEFAULT_IDS), p) <==> DecidesAlike(simple, q, p);
  }

  /** A misled call: after the default plan was served, the same plan with a minimum of seven profitable days gets a
      registry without the rule it needs. */
  lemma {:induction false} CacheMisleads(simple: SimpleRules)
    ensures !AnswersAlike(simple, Answered(CacheAfter([DEFAULT_PLAN]), DEFAULT_PLAN.(minProfitableDays := Some(7))),
                          DEFAULT_PLAN.(minProfitableDays := Some(7)))
  {
    var p := DEFAULT_PLAN.(minProfitableDays := Some(7));
    var calls := [DEFAULT_PLAN];
    assert Front(calls) == [] && Last(calls) == DEFAULT_PLAN;
    assert KeyOf(DEFAULT_PLAN) == KeyOf(p);
    assert FirstOf(calls, KeyOf(p)) == Some(DEFAULT_PLAN);
    CallDecidesAlikeIff(simple, [DEFAULT_PLAN], p);
  }

  // ----- Concurrent callers -----

  /** The last stored plan of a key. */
  function LastOf(stored: seq<ChallengePlan>, key: PlanKey): Option<ChallengePlan> {
    if stored == [] then None
    else if KeyOf(Last(stored)) == key then Some(Last(stored))
    else LastOf(Front(stored), key)
  }

  lemma {:induction false} FilledHoldsTheLast(stored: seq<ChallengePlan>, key: PlanKey)
    ensures var c, last := Filled(stored), LastOf(stored, key);
      && (key in c <==> last.Some?)
      && (last.Some? ==> KeyOf(last.value) == key && c[key] == Kept(last.value, DEFAULT_IDS))
  {
    if stored != [] {
      FilledHoldsTheLast(Front(stored), key);
    }
  }

  /** Whatever concurrent callers stored, in any interleaving of the locked sections: a call returns a registry with the
      plan's own reports in every context exactly when the last stored plan of its key, if any, covers the plan. */
  lemma {:induction false} StoredDecidesAlikeIff(simple: SimpleRules, stored: seq<ChallengePlan>, p: ChallengePlan)
    ensures var last := LastOf(stored, KeyOf(p));
      AnswersAlike(simple, Answered(Filled(stored), p), p) <==> (last.Some? ==> Covers(last.value, p))
  {
    var last := LastOf(stored, KeyOf(p));
    FilledHoldsTheLast(stored, KeyOf(p));
    var q := if last.Some? then last.value else p;
    CachedDecidesAlikeIff(simple, q, p);
    assert AnswersAlike(simple, Kept(q, DEFAULT_IDS), p) <==> DecidesAlike(simple, q, p);
  }

  /** Whatever was stored by callers that missed, in any interleaving of the locked sections: when the stored plans of
      the same key cover the plan, a call returns, on a hit or a miss, a registry with the reports of the full library. */
  lemma {:induction false} CachePreservesReports(simple: SimpleRules, stored: seq<ChallengePlan>, ctx: RuleContext)
    requires forall q :: q in stored && KeyOf(q) == KeyOf(ctx.account.plan) ==> Covers(q, ctx.account.plan)
    ensures EvaluateRules(RulesFor(simple, Answered(Filled(stored), ctx.account.plan)), ctx)
         == EvaluateRules(RulesFor(simple, DEFAULT_IDS), ctx)
  {
    var key := KeyOf(ctx.account.plan);
    FoundWasInserted(stored, key);
    if key in Filled(stored) {
      var q :| q in stored && KeyOf(q) == key && Filled(stored)[key] == Kept(q, DEFAULT_IDS);
      CoveringPreserves(simple, q, DEFAULT_IDS, ctx);
    } else {
      PruningPreserves(simple, DEFAULT_IDS, ctx);
    }
  }
}
