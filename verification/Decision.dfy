/** Arbitration: many rule reports become one decision. */
module Decisions {
  import opened Common
  import opened Verdicts
  import opened Accounts

  datatype DecisionKind =
    | KPass | KWarn | KEarlyWarning | KTargetHit | KGapFlagged | KSoftFail | KFail | KLiquidate | KEmergency

  datatype DecisionReason =
    | AllRulesPassed
    | Warnings(all: seq<Violation>)
    | EarlyWarnings(all: seq<Violation>)
    | Winner(violation: Violation)

  datatype Decision = Decision(
    kind: DecisionKind,
    reason: DecisionReason,
    winningPriority: nat,
    allViolations: seq<Violation>)

  /** Documented strength of each decision kind. */
  function IntrinsicWeight(k: DecisionKind): nat {
    match k
    case KEmergency => 10000
    case KLiquidate => 1000
    case KFail => 900
    case KSoftFail => 850
    case KGapFlagged => 800
    case KTargetHit => 100
    case KEarlyWarning => 50
    case KWarn => 40
    case KPass => 0
  }

  function StatusTarget(k: DecisionKind): Option<AccountStatus> {
    match k
    case KFail => Some(Failed)
    case KLiquidate => Some(Failed)
    case KEmergency => Some(EmergencyStopped)
    case _ => None
  }

  function KindOf(v: RuleVerdict): DecisionKind {
    match v
    case Pass => KPass
    case Skip => KPass
    case Warn(_) => KWarn
    case EarlyWarning(_) => KEarlyWarning
    case TargetHit(_) => KTargetHit
    case GapFlagged(_) => KGapFlagged
    case SoftFail(_) => KSoftFail
    case Fail(_) => KFail
    case Liquidate(_) => KLiquidate
    case Emergency(_) => KEmergency
  }

  // ----- Reference definition: the join of the reported kinds -----

  function Join(a: DecisionKind, b: DecisionKind): DecisionKind {
    if IntrinsicWeight(a) < IntrinsicWeight(b) then b else a
  }

  function JoinAll(reports: seq<RuleReport>): DecisionKind {
    if reports == [] then KPass
    else Join(JoinAll(Front(reports)), KindOf(Last(reports).verdict))
  }

  /** The reports of one kind with their priorities, in order. */
  function OfKind(reports: seq<RuleReport>, k: DecisionKind): seq<(nat, Violation)> {
    if reports == [] then []
    else
      var r, rest := Last(reports), OfKind(Front(reports), k);
      if KindOf(r.verdict) == k && k != KPass then rest + [(r.priority, r.verdict.violation)] else rest
  }

  function ViolationsOf(reports: seq<RuleReport>): seq<Violation> {
    if reports == [] then []
    else
      var r, rest := Last(reports), ViolationsOf(Front(reports));
      if KindOf(r.verdict) != KPass then rest + [r.verdict.violation] else rest
  }

  function Seconds(xs: seq<(nat, Violation)>): seq<Violation> {
    if xs == [] then [] else Seconds(Front(xs)) + [Last(xs).1]
  }

  /** The entry of highest priority; among equal priorities the one seen last. */
  function PickWinner(xs: seq<(nat, Violation)>): (w: (nat, Violation))
    requires xs != []
  {
    if |xs| == 1 then xs[0]
    else
      var w := PickWinner(Front(xs));
      if w.0 <= Last(xs).0 then Last(xs) else w
  }

  /** The decision for a sequence of reports, by the join. */
  function Arbitrate(reports: seq<RuleReport>): Decision {
    var k := JoinAll(reports);
    var xs := OfKind(reports, k);
    if k == KPass || xs == [] then Decision(KPass, AllRulesPassed, 0, ViolationsOf(reports))
    else
      var w := PickWinner(xs);
      Decision(
        k,
        match k
        case KWarn => Warnings(Seconds(xs))
        case KEarlyWarning => EarlyWarnings(Seconds(xs))
        case _ => Winner(w.1),
        w.0,
        ViolationsOf(reports))
  }

  // ----- The engine's form: nine lists filled by a loop, then a chain of tests -----

  datatype Buckets = Buckets(
    emergencies: seq<(nat, Violation)>,
    liquidates: seq<(nat, Violation)>,
    fails: seq<(nat, Violation)>,
    softFails: seq<(nat, Violation)>,
    gapFlagged: seq<(nat, Violation)>,
    targetHits: seq<(nat, Violation)>,
    earlyWarnings: seq<(nat, Violation)>,
    warnings: seq<(nat, Violation)>)

  ghost predicate Sorted(b: Buckets, reports: seq<RuleReport>) {
    && b.emergencies == OfKind(reports, KEmergency)
    && b.liquidates == OfKind(reports, KLiquidate)
    && b.fails == OfKind(reports, KFail)
    && b.softFails == OfKind(reports, KSoftFail)
    && b.gapFlagged == OfKind(reports, KGapFlagged)
    && b.targetHits == OfKind(reports, KTargetHit)
    && b.earlyWarnings == OfKind(reports, KEarlyWarning)
    && b.warnings == OfKind(reports, KWarn)
  }

  /** One iteration of the collecting loop. */
  method Collect(b: Buckets, r: RuleReport, ghost seen: seq<RuleReport>) returns (c: Buckets)
    requires Sorted(b, seen)
    ensures Sorted(c, seen + [r])
  {
    FrontLast(seen, r);
    var prio := r.priority;
    match r.verdict {
      case Emergency(v) => c := b.(emergencies := b.emergencies + [(prio, v)]);
      case Liquidate(v) => c := b.(liquidates := b.liquidates + [(prio, v)]);
      case Fail(v) => c := b.(fails := b.fails + [(prio, v)]);
      case SoftFail(v) => c := b.(softFails := b.softFails + [(prio, v)]);
      case TargetHit(v) => c := b.(targetHits := b.targetHits + [(prio, v)]);
      case EarlyWarning(v) => c := b.(earlyWarnings := b.earlyWarnings + [(prio, v)]);
      case GapFlagged(v) => c := b.(gapFlagged := b.gapFlagged + [(prio, v)]);
      case Warn(v) => c := b.(warnings := b.warnings + [(prio, v)]);
      case _ => c := b;
    }
  }

  method FromReports(reports: seq<RuleReport>) returns (d: Decision)
    ensures d == Arbitrate(reports)
  {
    var all: seq<Violation> := [];
    var b := Buckets([], [], [], [], [], [], [], []);
    for i := 0 to |reports|
      invariant all == ViolationsOf(reports[..i])
      invariant Sorted(b, reports[..i])
    {
      PrefixGrows(reports, i);
      b := Collect(b, reports[i], reports[..i]);
      var v := reports[i].verdict;
      if !v.Pass? && !v.Skip? {
        all := all + [v.violation];
      }
    }
    WholePrefix(reports);
    d := Select(b, all, reports);
  }

  /** The priority chain: the first nonempty list names the decision. */
  method Select(b: Buckets, all: seq<Violation>, ghost reports: seq<RuleReport>) returns (d: Decision)
    requires Sorted(b, reports) && all == ViolationsOf(reports)
    ensures d == Arbitrate(reports)
  {
    JoinIsStrongest(reports);
    if b.emergencies != [] {
      var w := PickWinner(b.emergencies);
      return Decision(KEmergency, Winner(w.1), w.0, all);
    }
    if b.liquidates != [] {
      var w := PickWinner(b.liquidates);
      return Decision(KLiquidate, Winner(w.1), w.0, all);
    }
    if b.fails != [] {
      var w := PickWinner(b.fails);
      return Decision(KFail, Winner(w.1), w.0, all);
    }
    if b.softFails != [] {
      var w := PickWinner(b.softFails);
      return Decision(KSoftFail, Winner(w.1), w.0, all);
    }
    if b.gapFlagged != [] {
      var w := PickWinner(b.gapFlagged);
      return Decision(KGapFlagged, Winner(w.1), w.0, all);
    }
    if b.targetHits != [] {
      var w := PickWinner(b.targetHits);
      return Decision(KTargetHit, Winner(w.1), w.0, all);
    }
    if b.earlyWarnings != [] {
      var w := PickWinner(b.earlyWarnings);
      return Decision(KEarlyWarning, EarlyWarnings(Seconds(b.earlyWarnings)), w.0, all);
    }
    if b.warnings != [] {
      var w := PickWinner(b.warnings);
      return Decision(KWarn, Warnings(Seconds(b.warnings)), w.0, all);
    }
    return Decision(KPass, AllRulesPassed, 0, all);
  }

  // ----- Laws -----

  /** The join is a reported kind (or pass) and no report outweighs it. */
  lemma {:induction false} JoinIsStrongest(reports: seq<RuleReport>)
    ensures forall k :: OfKind(reports, k) != [] ==> IntrinsicWeight(k) <= IntrinsicWeight(JoinAll(reports))
    ensures JoinAll(reports) == KPass || OfKind(reports, JoinAll(reports)) != []
  {
    if reports != [] {
      JoinIsStrongest(Front(reports));
    }
  }

  /** Membership form: what every report says about the join. */
  lemma {:induction false} JoinBounds(reports: seq<RuleReport>)
    ensures forall r :: r in reports ==> IntrinsicWeight(KindOf(r.verdict)) <= IntrinsicWeight(JoinAll(reports))
    ensures JoinAll(reports) == KPass || exists r :: r in reports && KindOf(r.verdict) == JoinAll(reports)
  {
    if reports != [] {
      JoinBounds(Front(reports));
      assert forall r :: r in reports <==> r in Front(reports) || r == Last(reports);
    }
  }

  /** A kind that no report has is never decided. */
  lemma {:induction false} UnreportedKind(reports: seq<RuleReport>, k: DecisionKind)
    requires k != KPass && forall r :: r in reports ==> KindOf(r.verdict) != k
    ensures Arbitrate(reports).kind != k
  {
    JoinBounds(reports);
  }

  lemma {:induction false} WeightInjective(a: DecisionKind, b: DecisionKind)
    requires IntrinsicWeight(a) == IntrinsicWeight(b)
    ensures a == b
  {
  }

  /** The decision kind of two batches taken together is the stronger of the two kinds. */
  lemma {:induction false} KindOfConcat(xs: seq<RuleReport>, ys: seq<RuleReport>)
    ensures Arbitrate(xs + ys).kind == Join(Arbitrate(xs).kind, Arbitrate(ys).kind)
  {
    JoinIsStrongest(xs);
    JoinIsStrongest(ys);
    JoinIsStrongest(xs + ys);
    JoinAllConcat(xs, ys);
  }

  lemma {:induction false} JoinAllConcat(xs: seq<RuleReport>, ys: seq<RuleReport>)
    ensures JoinAll(xs + ys) == Join(JoinAll(xs), JoinAll(ys))
  {
    if ys == [] {
      assert xs + ys == xs;
    } else {
      assert Front(xs + ys) == xs + Front(ys);
      JoinAllConcat(xs, Front(ys));
    }
  }

  /** The highest priority among reports of the winning kind. */
  lemma {:induction false} WinnerIsHighest(xs: seq<(nat, Violation)>)
    requires xs != []
    ensures PickWinner(xs) in xs
    ensures forall x :: x in xs ==> x.0 <= PickWinner(xs).0
  {
    if |xs| > 1 {
      WinnerIsHighest(Front(xs));
      assert forall x :: x in xs <==> x in Front(xs) || x == Last(xs);
    }
  }

  /** No report outweighs the decision, some report earns it, and its priority is the highest of that kind. */
  lemma {:induction false} DecisionMeaning(reports: seq<RuleReport>)
    ensures var d := Arbitrate(reports);
      && (forall r :: r in reports ==> IntrinsicWeight(KindOf(r.verdict)) <= IntrinsicWeight(d.kind))
      && (d.kind == KPass <==> forall r :: r in reports ==> KindOf(r.verdict) == KPass)
      && (d.kind != KPass ==> Earned(reports, d.kind, d.winningPriority))
  {
    JoinBounds(reports);
    JoinIsStrongest(reports);
    if JoinAll(reports) != KPass {
      WinnerIsEarned(reports, JoinAll(reports));
    }
  }

  /** `p` is the highest priority among the reports of kind `k`, and one of them has it. */
  ghost predicate Earned(reports: seq<RuleReport>, k: DecisionKind, p: nat) {
    && (exists r :: r in reports && KindOf(r.verdict) == k && r.priority == p)
    && (forall r :: r in reports && KindOf(r.verdict) == k ==> r.priority <= p)
  }

  lemma {:induction false} WinnerIsEarned(reports: seq<RuleReport>, k: DecisionKind)
    requires k != KPass && OfKind(reports, k) != []
    ensures Earned(reports, k, PickWinner(OfKind(reports, k)).0)
  {
    OfKindMembers(reports, k);
    WinnerIsHighest(OfKind(reports, k));
    var w := PickWinner(OfKind(reports, k));
    assert (w.0, w.1) in OfKind(reports, k);
    forall r | r in reports && KindOf(r.verdict) == k ensures r.priority <= w.0 {
      assert (r.priority, r.verdict.violation) in OfKind(reports, k);
    }
  }

  /** Ties go to the report seen last, not first. */
  lemma {:induction false} TiesGoToTheLast(xs: seq<(nat, Violation)>, i: nat)
    requires i < |xs|
    requires forall j :: 0 <= j < |xs| ==> xs[j].0 <= xs[i].0
    requires forall j :: i < j < |xs| ==> xs[j].0 < xs[i].0
    ensures PickWinner(xs) == xs[i]
  {
    if |xs| > 1 {
      WinnerIsHighest(Front(xs));
      if i < |xs| - 1 {
        TiesGoToTheLast(Front(xs), i);
      }
    }
  }

  lemma {:induction false} OfKindMembers(reports: seq<RuleReport>, k: DecisionKind)
    requires k != KPass
    ensures forall p, v :: (p, v) in OfKind(reports, k) <==>
      exists r :: r in reports && r.priority == p && KindOf(r.verdict) == k && r.verdict.violation == v
  {
    if reports != [] {
      OfKindMembers(Front(reports), k);
      assert forall r :: r in reports <==> r in Front(reports) || r == Last(reports);
    }
  }

  ghost predicate SameReports(xs: seq<RuleReport>, ys: seq<RuleReport>) {
    forall r :: r in xs <==> r in ys
  }

  lemma {:induction false} JoinByMembers(xs: seq<RuleReport>, ys: seq<RuleReport>)
    requires SameReports(xs, ys)
    ensures JoinAll(xs) == JoinAll(ys)
  {
    JoinBounds(xs);
    JoinBounds(ys);
    WeightInjective(JoinAll(xs), JoinAll(ys));
  }

  lemma {:induction false} EarnedByMembers(xs: seq<RuleReport>, ys: seq<RuleReport>, k: DecisionKind, p: nat, q: nat)
    requires SameReports(xs, ys) && Earned(xs, k, p) && Earned(ys, k, q)
    ensures p == q
  {
  }

  /** What is decided, and with which priority, depends on the set of reports alone. */
  lemma {:induction false} DecidedByMembers(xs: seq<RuleReport>, ys: seq<RuleReport>)
    requires SameReports(xs, ys)
    ensures Arbitrate(xs).kind == Arbitrate(ys).kind && Arbitrate(xs).winningPriority == Arbitrate(ys).winningPriority
  {
    var k := JoinAll(xs);
    JoinByMembers(xs, ys);
    JoinIsStrongest(xs);
    JoinIsStrongest(ys);
    if k != KPass {
      WinnerIsEarned(xs, k);
      WinnerIsEarned(ys, k);
      EarnedByMembers(xs, ys, k, PickWinner(OfKind(xs, k)).0, PickWinner(OfKind(ys, k)).0);
    }
  }

  /** Reordering the reports changes neither the kind, the winning priority nor the collected violations. */
  lemma {:induction false} OrderIndependent(xs: seq<RuleReport>, ys: seq<RuleReport>)
    requires multiset(xs) == multiset(ys)
    ensures Arbitrate(xs).kind == Arbitrate(ys).kind
    ensures Arbitrate(xs).winningPriority == Arbitrate(ys).winningPriority
    ensures multiset(Arbitrate(xs).allViolations) == multiset(Arbitrate(ys).allViolations)
  {
    SameMembers(xs, ys);
    DecidedByMembers(xs, ys);
    BagOfViolations(xs);
    BagOfViolations(ys);
    BagPermutes(xs, ys);
  }

  lemma {:induction false} SameMembers(xs: seq<RuleReport>, ys: seq<RuleReport>)
    requires multiset(xs) == multiset(ys)
    ensures SameReports(xs, ys)
  {
    forall r ensures r in xs <==> r in ys {
      assert r in xs <==> r in multiset(xs);
      assert r in ys <==> r in multiset(ys);
    }
  }

  /** The violations of the reports as a multiset, report by report. */
  ghost function ViolationBag(reports: seq<RuleReport>): multiset<Violation> {
    if reports == [] then multiset{} else ViolationBag(Front(reports)) + Share(Last(reports))
  }

  ghost function Share(r: RuleReport): multiset<Violation> {
    if KindOf(r.verdict) != KPass then multiset{r.verdict.violation} else multiset{}
  }

  lemma {:induction false} BagOfViolations(reports: seq<RuleReport>)
    ensures multiset(ViolationsOf(reports)) == ViolationBag(reports)
  {
    if |reports| > 0 {
      BagOfViolations(Front(reports));
    }
  }

  lemma {:induction false} BagSnoc(rest: seq<RuleReport>, r: RuleReport)
    ensures ViolationBag(rest + [r]) == ViolationBag(rest) + Share(r)
  {
    FrontLast(rest, r);
  }

  lemma {:induction false} BagsCommute<T>(a: multiset<T>, b: multiset<T>, c: multiset<T>)
    ensures a + b + c == a + c + b
  {
  }

  lemma {:induction false} RemovedBag(xs: seq<RuleReport>, i: nat)
    requires i < |xs|
    ensures ViolationBag(xs) == ViolationBag(Removed(xs, i)) + Share(xs[i])
  {
    RemovedFront(xs, i);
    if i < |xs| - 1 {
      var rest, last := Removed(Front(xs), i), Last(xs);
      RemovedBag(Front(xs), i);
      BagSnoc(rest, last);
      BagsCommute(ViolationBag(rest), Share(xs[i]), Share(last));
    }
  }

  lemma {:induction false} BagPermutes(xs: seq<RuleReport>, ys: seq<RuleReport>)
    requires multiset(xs) == multiset(ys)
    ensures ViolationBag(xs) == ViolationBag(ys)
    decreases |xs|
  {
    assert |multiset(xs)| == |xs| && |multiset(ys)| == |ys|;
    if |xs| > 0 {
      assert xs[0] in multiset(ys);
      var i :| 0 <= i < |ys| && ys[i] == xs[0];
      RemovedMultiset(xs, 0);
      RemovedMultiset(ys, i);
      BagPermutes(Removed(xs, 0), Removed(ys, i));
      RemovedBag(xs, 0);
      RemovedBag(ys, i);
    }
  }
}
