/** The rule registry: an ordered list of rules with an index by id, the default library, and plan pruning. */
module Registries {
  import opened Common
  import opened Plans
  import opened Verdicts
  import opened Evaluators
  import opened Decisions

  /** A rule as the engine sees it. A panic inside `evaluate` shows as an error. */
  datatype Rule = Rule(
    id: RuleId,
    kind: ViolationKind,
    scope: EvaluationScope,
    priority: nat,
    failurePolicy: Option<FailurePolicy>,
    isEnabled: RuleContext -> bool,
    evaluate: RuleContext -> Result<RuleVerdict>)

  // ----- Evaluation -----

  function FailureVerdict(r: Rule): RuleVerdict {
    var v := Violation(r.id, r.kind, Warning, None, None);
    match r.failurePolicy
    case Some(SoftFailPolicy) => SoftFail(v)
    case Some(FailPolicy) => Fail(v)
    case Some(GapFlaggedPolicy) => GapFlagged(v)
    case _ => Warn(v)
  }

  function VerdictOf(r: Rule, ctx: RuleContext): RuleVerdict {
    match r.evaluate(ctx)
    case Ok(v) => v
    case Err(_) => FailureVerdict(r)
  }

  function ScopeOf(k: RuleContextKind): EvaluationScope {
    match k
    case OnOrderSubmit => PreTrade
    case OnTradeFill => PostTrade
    case OnTick => OnTickScope
    case OnDayRollover => Periodic
    case OnEndOfDay => Periodic
    case OnDemand => OnDemandScope
  }

  /** The scope test inside evaluation: an on-demand request runs every rule. */
  predicate Runs(r: Rule, k: RuleContextKind) {
    k.OnDemand? || r.scope == ScopeOf(k) || r.scope.OnDemandScope?
  }

  function ReportOf(r: Rule, ctx: RuleContext): RuleReport {
    RuleReport(r.id, VerdictOf(r, ctx), r.scope, r.priority)
  }

  function EvaluateRules(rules: seq<Rule>, ctx: RuleContext): seq<RuleReport> {
    if rules == [] then []
    else
      var r, rest := Last(rules), EvaluateRules(Front(rules), ctx);
      if r.isEnabled(ctx) && Runs(r, ctx.kind) then rest + [ReportOf(r, ctx)] else rest
  }

  /** The published list of rules for a context kind. */
  function Applicable(rules: seq<Rule>, k: RuleContextKind): seq<Rule> {
    if rules == [] then []
    else
      var r, rest := Last(rules), Applicable(Front(rules), k);
      if r.scope == ScopeOf(k) || r.scope.OnDemandScope? then rest + [r] else rest
  }

  function EnabledReports(rules: seq<Rule>, ctx: RuleContext): seq<RuleReport> {
    if rules == [] then []
    else
      var r, rest := Last(rules), EnabledReports(Front(rules), ctx);
      if r.isEnabled(ctx) then rest + [ReportOf(r, ctx)] else rest
  }

  // ----- The list the registry stands for -----

  /** Position of the rule with this id, or the length when there is none. */
  function IndexOf(rules: seq<Rule>, id: RuleId): (i: nat)
    ensures i <= |rules|
    ensures i < |rules| ==> rules[i].id == id
    ensures forall j :: 0 <= j < i ==> rules[j].id != id
  {
    if rules == [] then 0
    else
      var i := IndexOf(Front(rules), id);
      if i < |rules| - 1 || Last(rules).id == id then i else i + 1
  }

  function Registered(rules: seq<Rule>, r: Rule): seq<Rule> {
    var i := IndexOf(rules, r.id);
    if i < |rules| then rules[i := r] else rules + [r]
  }

  function Unregistered(rules: seq<Rule>, id: RuleId): seq<Rule> {
    var i := IndexOf(rules, id);
    if i < |rules| then Removed(rules, i) else rules
  }

  function Lookup(rules: seq<Rule>, id: RuleId): Option<Rule> {
    var i := IndexOf(rules, id);
    if i < |rules| then Some(rules[i]) else None
  }

  ghost predicate DistinctIds(rules: seq<Rule>) {
    forall i, j :: 0 <= i < j < |rules| ==> rules[i].id != rules[j].id
  }

  datatype RegistryOp = Register(rule: Rule) | Unregister(id: RuleId)

  function ApplyOp(rules: seq<Rule>, op: RegistryOp): seq<Rule> {
    match op
    case Register(r) => Registered(rules, r)
    case Unregister(id) => Unregistered(rules, id)
  }

  function ApplyOps(rules: seq<Rule>, ops: seq<RegistryOp>): seq<Rule> {
    if ops == [] then rules else ApplyOp(ApplyOps(rules, Front(ops)), Last(ops))
  }

  // ----- The registry -----

  class RuleRegistry {
    var rules: seq<Rule>
    var byId: map<RuleId, nat>

    /** The index is the exact inverse of the ids in the list. */
    ghost predicate Valid()
      reads this
    {
      && (forall i :: 0 <= i < |rules| ==> rules[i].id in byId && byId[rules[i].id] == i)
      && (forall id :: id in byId ==> byId[id] < |rules| && rules[byId[id]].id == id)
    }

    constructor ()
      ensures Valid() && rules == []
    {
      rules := [];
      byId := map[];
    }

    lemma {:induction false} IndexAgrees(id: RuleId)
      requires Valid()
      ensures DistinctIds(rules)
      ensures id in byId <==> IndexOf(rules, id) < |rules|
      ensures id in byId ==> byId[id] == IndexOf(rules, id)
    {
    }

    method Add(rule: Rule)
      requires Valid()
      modifies this
      ensures Valid() && rules == Registered(old(rules), rule)
    {
      IndexAgrees(rule.id);
      if rule.id in byId {
        rules := rules[byId[rule.id] := rule];
      } else {
        var idx := |rules|;
        rules := rules + [rule];
        byId := byId[rule.id := idx];
      }
    }

    /** Rebuilds the index from the list. */
    method Reindex()
      requires DistinctIds(rules)
      modifies this`byId
      ensures Valid()
    {
      byId := map[];
      for i := 0 to |rules|
        invariant forall j :: 0 <= j < i ==> rules[j].id in byId && byId[rules[j].id] == j
        invariant forall k :: k in byId ==> byId[k] < i && rules[byId[k]].id == k
      {
        byId := byId[rules[i].id := i];
      }
    }

    method Remove(id: RuleId)
      requires Valid()
      modifies this
      ensures Valid() && rules == Unregistered(old(rules), id)
    {
      IndexAgrees(id);
      if id in byId {
        var idx := byId[id];
        RemovalKeepsDistinct(rules, idx);
        rules := Removed(rules, idx);
        Reindex();
      }
    }

    method Get(id: RuleId) returns (r: Option<Rule>)
      requires Valid()
      ensures r == Lookup(rules, id)
    {
      IndexAgrees(id);
      r := if id in byId then Some(rules[byId[id]]) else None;
    }

    method Evaluate(ctx: RuleContext) returns (reports: seq<RuleReport>)
      ensures reports == EvaluateRules(rules, ctx)
    {
      reports := [];
      for i := 0 to |rules|
        invariant reports == EvaluateRules(rules[..i], ctx)
      {
        var rule := rules[i];
        PrefixGrows(rules, i);
        if !rule.isEnabled(ctx) {
          continue;
        }
        if !Runs(rule, ctx.kind) {
          continue;
        }
        var verdict;
        match rule.evaluate(ctx) {
          case Ok(v) => verdict := v;
          case Err(_) => verdict := FailureVerdict(rule);
        }
        reports := reports + [RuleReport(rule.id, verdict, rule.scope, rule.priority)];
      }
      WholePrefix(rules);
    }
  }

  lemma {:induction false} RemovalKeepsDistinct(rules: seq<Rule>, i: nat)
    requires i < |rules| && DistinctIds(rules)
    ensures DistinctIds(Removed(rules, i))
  {
  }

  // ----- Laws of the registry -----

  /** The first position with an id is the index of that id. */
  lemma {:induction false} IndexUnique(rules: seq<Rule>, id: RuleId, i: nat)
    requires i <= |rules|
    requires i < |rules| ==> rules[i].id == id
    requires forall j :: 0 <= j < i ==> rules[j].id != id
    ensures IndexOf(rules, id) == i
  {
  }

  /** Where an id sits after a registration. */
  lemma {:induction false} RegisterIndex(rules: seq<Rule>, r: Rule, id: RuleId)
    ensures var after := Registered(rules, r);
      IndexOf(after, id) == if id != r.id && IndexOf(rules, id) == |rules| then |after| else IndexOf(rules, id)
  {
    var after := Registered(rules, r);
    var i := IndexOf(rules, id);
    assert forall j :: 0 <= j < |rules| ==> after[j].id == rules[j].id;
    IndexUnique(after, id, if id != r.id && i == |rules| then |after| else i);
  }

  lemma {:induction false} RegisterKeepsIds(rules: seq<Rule>, r: Rule)
    ensures var after := Registered(rules, r);
      && |rules| <= |after|
      && (forall j :: 0 <= j < |rules| ==> after[j].id == rules[j].id)
      && (Lookup(rules, r.id).Some? ==> |after| == |rules|)
      && (Lookup(rules, r.id).None? ==> after == rules + [r])
  {
  }

  lemma {:induction false} RegisterKeepsDistinct(rules: seq<Rule>, r: Rule)
    requires DistinctIds(rules)
    ensures DistinctIds(Registered(rules, r))
  {
    RegisterKeepsIds(rules, r);
  }

  lemma {:induction false} RegisterLookup(rules: seq<Rule>, r: Rule, id: RuleId)
    ensures Lookup(Registered(rules, r), id) == if id == r.id then Some(r) else Lookup(rules, id)
  {
    RegisterIndex(rules, r, id);
  }

  /** One registration: ids stay distinct, a replacement keeps every position, other lookups are untouched. */
  lemma {:induction false} RegisterLaws(rules: seq<Rule>, r: Rule, id: RuleId)
    requires DistinctIds(rules)
    ensures DistinctIds(Registered(rules, r))
    ensures Lookup(Registered(rules, r), id) == if id == r.id then Some(r) else Lookup(rules, id)
    ensures Lookup(rules, r.id).Some? ==>
              |Registered(rules, r)| == |rules| &&
              forall j :: 0 <= j < |rules| ==> Registered(rules, r)[j].id == rules[j].id
    ensures Lookup(rules, r.id).None? ==> Registered(rules, r) == rules + [r]
  {
    RegisterKeepsIds(rules, r);
    RegisterKeepsDistinct(rules, r);
    RegisterLookup(rules, r, id);
  }

  lemma {:induction false} FoundAt(rules: seq<Rule>, id: RuleId, i: nat)
    requires DistinctIds(rules) && i < |rules| && rules[i].id == id
    ensures Lookup(rules, id) == Some(rules[i])
  {
    IndexUnique(rules, id, i);
  }

  lemma {:induction false} NotFound(rules: seq<Rule>, id: RuleId)
    requires forall j :: 0 <= j < |rules| ==> rules[j].id != id
    ensures Lookup(rules, id) == None
  {
  }

  /** Removing another rule leaves the lookup of an id alone, wherever the two rules sit. */
  lemma {:induction false} UnregisterLookup(rules: seq<Rule>, k: nat, id: RuleId)
    requires DistinctIds(rules) && k < |rules|
    ensures Lookup(Removed(rules, k), id) == if id == rules[k].id then None else Lookup(rules, id)
  {
    RemovalKeepsDistinct(rules, k);
    var i := IndexOf(rules, id);
    if i == k || i == |rules| {
      NotFound(Removed(rules, k), id);
    } else {
      FoundAt(Removed(rules, k), id, if i < k then i else i - 1);
    }
  }

  /** One removal: the id is gone, ids stay distinct, other lookups are untouched. */
  lemma {:induction false} UnregisterLaws(rules: seq<Rule>, gone: RuleId, id: RuleId)
    requires DistinctIds(rules)
    ensures DistinctIds(Unregistered(rules, gone))
    ensures Lookup(Unregistered(rules, gone), id) == if id == gone then None else Lookup(rules, id)
  {
    if IndexOf(rules, gone) < |rules| {
      RemovalKeepsDistinct(rules, IndexOf(rules, gone));
      UnregisterLookup(rules, IndexOf(rules, gone), id);
    }
  }

  /** What the history says about one id: its last registration, unless it was removed since. */
  function LastWord(ops: seq<RegistryOp>, id: RuleId): Option<Rule> {
    if ops == [] then None
    else match Last(ops)
      case Register(r) => if r.id == id then Some(r) else LastWord(Front(ops), id)
      case Unregister(gone) => if gone == id then None else LastWord(Front(ops), id)
  }

  /** After any sequence of registrations and removals the registry is the map its history describes. */
  lemma {:induction false} RegistryIsItsHistory(ops: seq<RegistryOp>, id: RuleId)
    ensures DistinctIds(ApplyOps([], ops))
    ensures Lookup(ApplyOps([], ops), id) == LastWord(ops, id)
  {
    if ops != [] {
      RegistryIsItsHistory(Front(ops), id);
      match Last(ops) {
        case Register(r) => RegisterLaws(ApplyOps([], Front(ops)), r, id);
        case Unregister(gone) => UnregisterLaws(ApplyOps([], Front(ops)), gone, id);
      }
    }
  }

  lemma {:induction false} EnabledSnoc(rest: seq<Rule>, r: Rule, ctx: RuleContext)
    ensures EnabledReports(rest + [r], ctx)
         == if r.isEnabled(ctx) then EnabledReports(rest, ctx) + [ReportOf(r, ctx)] else EnabledReports(rest, ctx)
  {
    FrontLast(rest, r);
  }

  /** Outside on-demand requests, evaluation reports exactly the enabled rules of the published list, in order. */
  lemma {:induction false} EvaluationFollowsApplicable(rules: seq<Rule>, ctx: RuleContext)
    requires !ctx.kind.OnDemand?
    ensures EvaluateRules(rules, ctx) == EnabledReports(Applicable(rules, ctx.kind), ctx)
  {
    if rules != [] {
      EvaluationFollowsApplicable(Front(rules), ctx);
      EnabledSnoc(Applicable(Front(rules), ctx.kind), Last(rules), ctx);
    }
  }

  /** On demand the published list is too short: the two agree exactly when every enabled rule is an on-demand rule. */
  lemma {:induction false} OnDemandExceedsApplicable(rules: seq<Rule>, ctx: RuleContext)
    requires ctx.kind.OnDemand?
    ensures
      if forall r :: r in rules && r.isEnabled(ctx) ==> r.scope.OnDemandScope?
      then EvaluateRules(rules, ctx) == EnabledReports(Applicable(rules, ctx.kind), ctx)
      else |EvaluateRules(rules, ctx)| > |EnabledReports(Applicable(rules, ctx.kind), ctx)|
  {
    if rules != [] {
      OnDemandExceedsApplicable(Front(rules), ctx);
      EnabledSnoc(Applicable(Front(rules), ctx.kind), Last(rules), ctx);
      assert forall x :: x in rules <==> x in Front(rules) || x == Last(rules);
    }
  }

  // ----- The default library -----

  const DEFAULT_IDS: seq<RuleId> := [
    DailyDrawdown, MaxDrawdown, TrailingDrawdown, ProfitTarget, MinTradingDays,
    MinProfitableDays, Consistency, NewsTrading, OvernightHolding, WeekendHolding,
    MaxPositionSize, MaxOpenPositions, MaxDailyTrades, TimeLimit, Cooldown,
    Hedging, GridTrading, CopyTrading, StopLossRequired, TakeProfitRequired,
    HftScalping, PerTradeMaxLoss, Inactivity, MaxTotalLots, TradingHours,
    Margin, CrossAccountHedging, LowcapExposure]

  function DefaultScope(id: RuleId): EvaluationScope {
    match id
    case DailyDrawdown | MaxDrawdown | TrailingDrawdown | ProfitTarget | OvernightHolding | WeekendHolding
      | TimeLimit | CrossAccountHedging | LowcapExposure => OnTickScope
    case MinTradingDays | MinProfitableDays | Consistency | Inactivity => Periodic
    case CopyTrading | HftScalping | PerTradeMaxLoss => PostTrade
    case _ => PreTrade
  }

  function DefaultPriority(id: RuleId): nat {
    match id
    case MaxDrawdown => 1000
    case DailyDrawdown => 900
    case PerTradeMaxLoss => 800
    case Inactivity => 500
    case _ => 100
  }

  predicate DefaultEnabled(id: RuleId, ctx: RuleContext) {
    var plan := ctx.account.plan;
    match id
    case DailyDrawdown => DailyDrawdownEnabled(None, ctx)
    case MaxDrawdown => MaxDrawdownEnabled(None, ctx)
    case TrailingDrawdown => TrailingDrawdownEnabled(None, ctx)
    case ProfitTarget => ProfitTargetEnabled(None, ctx)
    case MinTradingDays => plan.minTradingDays > 0
    case MinProfitableDays => plan.minProfitableDays.Some?
    case Consistency => ConsistencyEnabled(None, ctx)
    case NewsTrading => !plan.newsTradingAllowed
    case OvernightHolding => !plan.overnightHoldingAllowed
    case WeekendHolding => !plan.weekendHoldingAllowed
    case MaxPositionSize => plan.maxPositionLots.Some?
    case MaxOpenPositions => plan.maxOpenPositions.Some?
    case MaxDailyTrades => plan.maxDailyTrades.Some?
    case TimeLimit => plan.timeLimitDays.Some? || ctx.account.deadline.Some?
    case Cooldown => plan.cooldownSeconds > 0
    case Hedging => !plan.hedgingAllowed
    case GridTrading => !plan.gridTradingAllowed
    case CopyTrading => !plan.copyTradingAllowed
    case StopLossRequired => plan.requireStopLoss
    case TakeProfitRequired => plan.requireTakeProfit
    case HftScalping => plan.hftBanEnabled
    case PerTradeMaxLoss => PerTradeMaxLossEnabled(None, ctx)
    case Inactivity => plan.inactivityDays.Some?
    case MaxTotalLots => plan.maxTotalLots.Some?
    case TradingHours => plan.tradingHours.Some?
    case Margin => true
    case CrossAccountHedging => plan.crossAccountHedgingProhibited
    case LowcapExposure => plan.lowcapExposureLimitPct.Some?
    case Custom(_) => false
  }

  /** Verdicts that a rule outside the money rules can give. */
  predicate CanReport(id: RuleId, v: RuleVerdict) {
    match id
    case NewsTrading | MaxOpenPositions | MaxDailyTrades | Hedging | StopLossRequired | MaxTotalLots
      | TradingHours | Margin => v.Pass? || v.Fail?
    case Cooldown | GridTrading | TakeProfitRequired | HftScalping | CrossAccountHedging | LowcapExposure =>
      v.Pass? || v.Warn?
    case _ => v.Pass? || v.Warn? || v.Fail?
  }

  ghost predicate WithinRange(f: (RuleId, RuleContext) -> Result<RuleVerdict>) {
    forall id, ctx :: f(id, ctx).Ok? ==> CanReport(id, f(id, ctx).value)
  }

  /** Any behaviour of the rules that are not modelled in detail: each stays within its verdicts or errs. */
  type SimpleRules = f: (RuleId, RuleContext) -> Result<RuleVerdict> | WithinRange(f)
    witness (id: RuleId, ctx: RuleContext) => Ok(Pass)

  function DefaultEvaluate(simple: SimpleRules, id: RuleId, ctx: RuleContext): Result<RuleVerdict> {
    match id
    case DailyDrawdown => EvaluateDailyDrawdown(None, ctx)
    case MaxDrawdown => EvaluateMaxDrawdown(None, ctx)
    case TrailingDrawdown => EvaluateTrailingDrawdown(None, ctx)
    case ProfitTarget => EvaluateProfitTarget(None, ctx)
    case Consistency => EvaluateConsistency(None, ctx)
    case PerTradeMaxLoss => EvaluatePerTradeMaxLoss(None, ctx)
    case _ => simple(id, ctx)
  }

  function DefaultRule(simple: SimpleRules, id: RuleId): Rule {
    Rule(id, DefaultKind(id), DefaultScope(id), DefaultPriority(id), None,
         ctx => DefaultEnabled(id, ctx),
         ctx => DefaultEvaluate(simple, id, ctx))
  }

  function RulesFor(simple: SimpleRules, ids: seq<RuleId>): (rules: seq<Rule>)
    ensures |rules| == |ids|
    ensures forall i :: 0 <= i < |ids| ==> rules[i] == DefaultRule(simple, ids[i])
  {
    if ids == [] then [] else RulesFor(simple, Front(ids)) + [DefaultRule(simple, Last(ids))]
  }

  // ----- Pruning by plan -----

  /** Whether the plan keeps a rule of the default library. */
  predicate Keeps(plan: ChallengePlan, id: RuleId) {
    match id
    case HftScalping => plan.hftBanEnabled
    case PerTradeMaxLoss => plan.perTradeMaxLossPct.Some? || plan.perTradeMaxLossMoney.Some?
    case Inactivity => plan.inactivityDays.Some?
    case MinProfitableDays => plan.minProfitableDays.Some?
    case CrossAccountHedging => plan.crossAccountHedgingProhibited
    case LowcapExposure => plan.lowcapExposureLimitPct.Some?
    case Hedging => !plan.hedgingAllowed
    case GridTrading => !plan.gridTradingAllowed
    case CopyTrading => !plan.copyTradingAllowed
    case NewsTrading => !plan.newsTradingAllowed
    case Cooldown => plan.cooldownSeconds != 0
    case _ => true
  }

  function Kept(plan: ChallengePlan, ids: seq<RuleId>): seq<RuleId> {
    if ids == [] then []
    else if Keeps(plan, Last(ids)) then Kept(plan, Front(ids)) + [Last(ids)]
    else Kept(plan, Front(ids))
  }

  ghost predicate DistinctRuleIds(ids: seq<RuleId>) {
    forall i, j :: 0 <= i < j < |ids| ==> ids[i] != ids[j]
  }

  /** Place of a rule in the default library. */
  function Ordinal(id: RuleId): nat {
    match id
    case DailyDrawdown => 0 case MaxDrawdown => 1 case TrailingDrawdown => 2 case ProfitTarget => 3
    case MinTradingDays => 4 case MinProfitableDays => 5 case Consistency => 6 case NewsTrading => 7
    case OvernightHolding => 8 case WeekendHolding => 9 case MaxPositionSize => 10 case MaxOpenPositions => 11
    case MaxDailyTrades => 12 case TimeLimit => 13 case Cooldown => 14 case Hedging => 15
    case GridTrading => 16 case CopyTrading => 17 case StopLossRequired => 18 case TakeProfitRequired => 19
    case HftScalping => 20 case PerTradeMaxLoss => 21 case Inactivity => 22 case MaxTotalLots => 23
    case TradingHours => 24 case Margin => 25 case CrossAccountHedging => 26 case LowcapExposure => 27
    case Custom(_) => 28
  }

  lemma {:induction false} DefaultIdsDistinct()
    ensures DistinctRuleIds(DEFAULT_IDS)
  {
    forall i | 0 <= i < |DEFAULT_IDS| ensures Ordinal(DEFAULT_IDS[i]) == i {
    }
    forall i, j | 0 <= i < j < |DEFAULT_IDS| ensures DEFAULT_IDS[i] != DEFAULT_IDS[j] {
      assert Ordinal(DEFAULT_IDS[i]) == i && Ordinal(DEFAULT_IDS[j]) == j;
    }
  }

  lemma {:induction false} KeptIsSubset(plan: ChallengePlan, ids: seq<RuleId>, id: RuleId)
    requires id !in ids
    ensures id !in Kept(plan, ids)
  {
    if ids != [] {
      KeptIsSubset(plan, Front(ids), id);
    }
  }

  lemma {:induction false} NewRuleIsAppended(simple: SimpleRules, ids: seq<RuleId>, id: RuleId)
    requires id !in ids
    ensures Registered(RulesFor(simple, ids), DefaultRule(simple, id)) == RulesFor(simple, ids + [id])
  {
    var rules := RulesFor(simple, ids);
    assert forall j :: 0 <= j < |rules| ==> rules[j].id == ids[j];
    IndexUnique(rules, id, |rules|);
    FrontLast(ids, id);
  }

  /** The rules of a library that a plan keeps; without a plan, all of them. */
  function Selected(plan: Option<ChallengePlan>, library: seq<RuleId>): seq<RuleId> {
    if plan.Some? then Kept(plan.value, library) else library
  }

  lemma {:induction false} RegisterNext(simple: SimpleRules, plan: Option<ChallengePlan>, seen: seq<RuleId>, id: RuleId)
    requires id !in seen
    ensures var now, next := Selected(plan, seen), Selected(plan, seen + [id]);
      if plan.Some? && !Keeps(plan.value, id) then next == now
      else RulesFor(simple, next) == Registered(RulesFor(simple, now), DefaultRule(simple, id))
  {
    FrontLast(seen, id);
    if plan.Some? {
      KeptIsSubset(plan.value, seen, id);
    }
    NewRuleIsAppended(simple, Selected(plan, seen), id);
  }

  /** Registers one rule of the library unless the plan drops it. */
  method RegisterOne(simple: SimpleRules, plan: Option<ChallengePlan>, r: RuleRegistry, ghost seen: seq<RuleId>, id: RuleId)
    requires r.Valid() && r.rules == RulesFor(simple, Selected(plan, seen)) && id !in seen
    modifies r
    ensures r.Valid() && r.rules == RulesFor(simple, Selected(plan, seen + [id]))
  {
    RegisterNext(simple, plan, seen, id);
    if plan.Some? && !Keeps(plan.value, id) {
      return;
    }
    r.Add(DefaultRule(simple, id));
  }

  /** Registers the rules of a library one by one, skipping those the plan drops. */
  method RegisterAll(simple: SimpleRules, library: seq<RuleId>, plan: Option<ChallengePlan>) returns (r: RuleRegistry)
    requires DistinctRuleIds(library)
    ensures fresh(r) && r.Valid()
    ensures r.rules == RulesFor(simple, Selected(plan, library))
  {
    r := new RuleRegistry();
    for i := 0 to |library|
      invariant fresh(r) && r.Valid()
      invariant r.rules == RulesFor(simple, Selected(plan, library[..i]))
    {
      PrefixGrows(library, i);
      RegisterOne(simple, plan, r, library[..i], library[i]);
    }
    WholePrefix(library);
  }

  /** Builds the default library, or its pruned form for a plan. */
  method BuildRegistry(simple: SimpleRules, plan: Option<ChallengePlan>) returns (r: RuleRegistry)
    ensures fresh(r) && r.Valid()
    ensures r.rules == RulesFor(simple, Selected(plan, DEFAULT_IDS))
  {
    DefaultIdsDistinct();
    r := RegisterAll(simple, DEFAULT_IDS, plan);
  }

  /** A pruned rule is disabled on every account that carries the plan. */
  lemma {:induction false} PrunedIsDisabled(id: RuleId, ctx: RuleContext)
    requires !Keeps(ctx.account.plan, id)
    ensures !DefaultEnabled(id, ctx)
  {
  }

  lemma {:induction false} PruningPreserves(simple: SimpleRules, ids: seq<RuleId>, ctx: RuleContext)
    ensures EvaluateRules(RulesFor(simple, Kept(ctx.account.plan, ids)), ctx) == EvaluateRules(RulesFor(simple, ids), ctx)
  {
    if ids != [] {
      var plan, id := ctx.account.plan, Last(ids);
      PruningPreserves(simple, Front(ids), ctx);
      var rules := RulesFor(simple, ids);
      assert Front(rules) == RulesFor(simple, Front(ids));
      if Keeps(plan, id) {
        var kept := RulesFor(simple, Kept(plan, ids));
        assert Front(Kept(plan, ids)) == Kept(plan, Front(ids));
        assert Front(kept) == RulesFor(simple, Kept(plan, Front(ids)));
      } else {
        PrunedIsDisabled(id, ctx);
        assert Kept(plan, ids) == Kept(plan, Front(ids));
      }
    }
  }

  /** Dropping the rules a plan cannot enable changes no report on any account that carries the plan. */
  lemma {:induction false} PruningPreservesReports(simple: SimpleRules, ctx: RuleContext)
    ensures EvaluateRules(RulesFor(simple, Kept(ctx.account.plan, DEFAULT_IDS)), ctx)
         == EvaluateRules(RulesFor(simple, DEFAULT_IDS), ctx)
  {
    PruningPreserves(simple, DEFAULT_IDS, ctx);
  }

  // ----- Estimates never liquidate -----

  predicate Liquidates(v: RuleVerdict) {
    v.Liquidate? || v.Emergency?
  }

  /** No default rule asks for liquidation on estimated equity, whatever its parameters. */
  lemma {:induction false} MoneyRulesSpareEstimates(p: Params, ctx: RuleContext)
    requires ctx.equityInput.Estimated?
    ensures var v := EvaluateMaxDrawdown(p, ctx); v.Ok? ==> !Liquidates(v.value)
    ensures var v := EvaluateDailyDrawdown(p, ctx); v.Ok? ==> !Liquidates(v.value)
    ensures var v := EvaluateTrailingDrawdown(p, ctx); v.Ok? ==> !Liquidates(v.value)
    ensures var v := EvaluatePerTradeMaxLoss(p, ctx); v.Ok? ==> !Liquidates(v.value)
  {
  }

  lemma {:induction false} DefaultRuleSparesEstimates(simple: SimpleRules, id: RuleId, ctx: RuleContext)
    requires ctx.equityInput.Estimated?
    ensures !Liquidates(VerdictOf(DefaultRule(simple, id), ctx))
  {
    MoneyRulesSpareEstimates(None, ctx);
    var v := DefaultEvaluate(simple, id, ctx);
    assert DefaultRule(simple, id).evaluate(ctx) == v;
  }

  /** No default rule ever answers with an emergency. */
  lemma {:induction false} NoDefaultEmergency(simple: SimpleRules, id: RuleId, ctx: RuleContext)
    ensures !VerdictOf(DefaultRule(simple, id), ctx).Emergency?
  {
    var v := DefaultEvaluate(simple, id, ctx);
    assert DefaultRule(simple, id).evaluate(ctx) == v;
  }

  lemma {:induction false} ReportsComeFromRules(rules: seq<Rule>, ctx: RuleContext, report: RuleReport)
    requires report in EvaluateRules(rules, ctx)
    ensures exists i :: 0 <= i < |rules| && report == ReportOf(rules[i], ctx)
  {
    if report in EvaluateRules(Front(rules), ctx) {
      ReportsComeFromRules(Front(rules), ctx, report);
      var i :| 0 <= i < |rules| - 1 && report == ReportOf(Front(rules)[i], ctx);
      assert report == ReportOf(rules[i], ctx);
    } else {
      assert report == ReportOf(rules[|rules| - 1], ctx);
    }
  }

  lemma {:induction false} ReportSparesEstimates(simple: SimpleRules, ids: seq<RuleId>, ctx: RuleContext, report: RuleReport)
    requires report in EvaluateRules(RulesFor(simple, ids), ctx)
    ensures !report.verdict.Emergency? && (ctx.equityInput.Estimated? ==> !report.verdict.Liquidate?)
  {
    var rules := RulesFor(simple, ids);
    ReportsComeFromRules(rules, ctx, report);
    var i :| 0 <= i < |rules| && report == ReportOf(rules[i], ctx);
    NoDefaultEmergency(simple, ids[i], ctx);
    if ctx.equityInput.Estimated? {
      DefaultRuleSparesEstimates(simple, ids[i], ctx);
    }
  }

  /** Any selection of default rules decides on estimated equity without liquidation or emergency,
      rule failures included; an emergency never comes from the default rules at all. */
  lemma {:induction false} EstimatesNeverLiquidate(simple: SimpleRules, ids: seq<RuleId>, ctx: RuleContext)
    ensures var k := Arbitrate(EvaluateRules(RulesFor(simple, ids), ctx)).kind;
      k != KEmergency && (ctx.equityInput.Estimated? ==> k != KLiquidate)
  {
    var reports := EvaluateRules(RulesFor(simple, ids), ctx);
    forall report | report in reports
      ensures KindOf(report.verdict) != KEmergency
      ensures ctx.equityInput.Estimated? ==> KindOf(report.verdict) != KLiquidate
    {
      ReportSparesEstimates(simple, ids, ctx, report);
    }
    UnreportedKind(reports, KEmergency);
    if ctx.equityInput.Estimated? {
      UnreportedKind(reports, KLiquidate);
    }
  }
}
