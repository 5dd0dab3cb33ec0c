/** Risk helpers: drawdown of an equity curve, its duration, and portfolio exposure. */
module Risk {
  import opened Common
  import opened Accounts

  // ----- Drawdown of a curve -----

  /** Highest value seen, counted from zero. */
  function Peak(e: seq<Money>): Money {
    if e == [] then 0.0 else Max(Peak(Front(e)), Last(e))
  }

  lemma {:induction false} PeakBounds(e: seq<Money>)
    ensures Peak(e) >= 0.0
    ensures forall i :: 0 <= i < |e| ==> e[i] <= Peak(e)
    ensures Peak(e) == 0.0 || exists i :: 0 <= i < |e| && e[i] == Peak(e)
  {
    if e != [] {
      PeakBounds(Front(e));
      if Peak(e) != 0.0 {
        if Last(e) >= Peak(Front(e)) {
          assert e[|e| - 1] == Peak(e);
        } else {
          var i :| 0 <= i < |Front(e)| && Front(e)[i] == Peak(Front(e));
          assert e[i] == Peak(e);
        }
      }
    }
  }

  /** A drop of this size from a value to the same or a later one. */
  predicate IsDrop(e: seq<Money>, i: int, j: int, drop: Money) {
    0 <= i <= j < |e| && drop == e[i] - e[j]
  }

  /** The largest drop from a value to a later one; on a nonempty curve without negative values it is attained. */
  method MaxDrawdown(e: seq<Money>) returns (mdd: Money)
    ensures forall i, j :: 0 <= i <= j < |e| ==> e[i] - e[j] <= mdd
    ensures forall j :: 0 <= j < |e| ==> Peak(e[..j + 1]) - e[j] <= mdd
    ensures mdd == 0.0 || exists j :: 0 <= j < |e| && mdd == Peak(e[..j + 1]) - e[j]
    ensures e != [] && (forall i :: 0 <= i < |e| ==> e[i] >= 0.0) ==>
              exists i, j :: IsDrop(e, i, j, mdd)
    ensures mdd >= 0.0
  {
    var peak := 0.0;
    mdd := 0.0;
    for k := 0 to |e|
      invariant peak == Peak(e[..k])
      invariant mdd >= 0.0
      invariant forall j :: 0 <= j < k ==> Peak(e[..j + 1]) - e[j] <= mdd
      invariant mdd == 0.0 || exists j :: 0 <= j < k && mdd == Peak(e[..j + 1]) - e[j]
    {
      assert Front(e[..k + 1]) == e[..k];
      if e[k] > peak {
        peak := e[k];
      }
      var dd := peak - e[k];
      if dd > mdd {
        mdd := dd;
      }
    }
    forall i, j | 0 <= i <= j < |e| ensures e[i] - e[j] <= mdd {
      PeakBounds(e[..j + 1]);
      assert e[..j + 1][i] == e[i];
    }
    if e != [] && (forall i :: 0 <= i < |e| ==> e[i] >= 0.0) {
      AttainedByValues(e, mdd);
    }
  }

  lemma {:induction false} AttainedByValues(e: seq<Money>, mdd: Money)
    requires e != [] && forall i :: 0 <= i < |e| ==> e[i] >= 0.0
    requires mdd == 0.0 || exists j :: 0 <= j < |e| && mdd == Peak(e[..j + 1]) - e[j]
    requires mdd >= 0.0
    ensures exists i, j :: IsDrop(e, i, j, mdd)
  {
    if mdd == 0.0 {
      assert IsDrop(e, 0, 0, mdd);
    } else {
      var j :| 0 <= j < |e| && mdd == Peak(e[..j + 1]) - e[j];
      PeakBounds(e[..j + 1]);
      var i :| 0 <= i < j + 1 && e[..j + 1][i] == Peak(e[..j + 1]);
      assert IsDrop(e, i, j, mdd);
    }
  }

  // ----- Duration -----

  /** A sample above zero and above everything before it. */
  predicate IsRecord(e: seq<Money>, i: int) {
    0 <= i < |e| && e[i] > Peak(e[..i])
  }

  /** From a record to the next record or the end of the curve, at least two samples apart. */
  predicate IsGap(e: seq<Money>, s: int, t: int) {
    && IsRecord(e, s) && s + 2 <= t <= |e|
    && (t == |e| || IsRecord(e, t))
    && forall k :: s < k < t ==> !IsRecord(e, k)
  }

  /** `longest` is the length of the longest gap that ends before `bound`, or zero. */
  ghost predicate LongestBefore(e: seq<Money>, bound: int, longest: nat) {
    && (forall s, t :: IsGap(e, s, t) && t < bound ==> t - s <= longest)
    && (longest == 0 || exists s, t :: IsGap(e, s, t) && t - s == longest)
  }

  /** Where the scan stands after `i` samples: before any record, on one, or below one since `start`. */
  ghost predicate Scanning(e: seq<Money>, i: nat, peak: Money, start: Option<nat>) {
    && i <= |e| && peak == Peak(e[..i]) && peak >= 0.0
    && (peak == 0.0 ==> start.None? && forall k :: 0 <= k < i ==> !IsRecord(e, k))
    && (peak > 0.0 && start.None? ==> i > 0 && IsRecord(e, i - 1))
    && (start.Some? ==> start.value + 2 <= i && IsRecord(e, start.value)
                        && forall k :: start.value < k < i ==> !IsRecord(e, k))
  }

  /** A gap that ends at `t` starts at the record the scan stands below. */
  lemma {:induction false} GapEndsHere(e: seq<Money>, t: nat, peak: Money, start: Option<nat>, s: int)
    requires Scanning(e, t, peak, start) && IsGap(e, s, t)
    ensures start == Some(s)
  {
    PeakBounds(e[..t]);
  }

  lemma {:induction false} ScanSample(e: seq<Money>, i: nat, peak: Money, start: Option<nat>)
    requires Scanning(e, i, peak, start) && i < |e|
    ensures e[i] > peak ==> IsRecord(e, i) && Scanning(e, i + 1, e[i], None)
    ensures e[i] <= peak ==>
              !IsRecord(e, i) && Scanning(e, i + 1, peak, if start.None? && peak > 0.0 then Some(i - 1) else start)
  {
    PrefixGrows(e, i);
  }

  lemma {:induction false} ExtendLongest(e: seq<Money>, t: nat, peak: Money, start: Option<nat>, longest: nat)
    requires Scanning(e, t, peak, start) && LongestBefore(e, t, longest)
    requires t == |e| || IsRecord(e, t)
    ensures var len := if start.Some? then t - start.value else 0;
      LongestBefore(e, t + 1, if len > longest then len else longest)
  {
    if start.Some? {
      assert IsGap(e, start.value, t);
    }
    forall s | IsGap(e, s, t) ensures start == Some(s) {
      GapEndsHere(e, t, peak, start, s);
    }
  }

  /** The longest stay below a record, in samples; zero when every record is followed at once by another. */
  method MaxDrawdownDuration(e: seq<Money>) returns (longest: nat)
    ensures forall s, t :: IsGap(e, s, t) ==> t - s <= longest
    ensures longest == 0 || exists s, t :: IsGap(e, s, t) && t - s == longest
  {
    var peak := 0.0;
    var start: Option<nat> := None;
    longest := 0;
    for i := 0 to |e|
      invariant Scanning(e, i, peak, start) && LongestBefore(e, i, longest)
    {
      ScanSample(e, i, peak, start);
      if e[i] > peak {
        ExtendLongest(e, i, peak, start, longest);
        peak := e[i];
        if start.Some? {
          var len := i - start.value;
          if len > longest {
            longest := len;
          }
          start := None;
        }
      } else if start.None? && peak > 0.0 {
        start := Some(i - 1);
      }
    }
    ExtendLongest(e, |e|, peak, start, longest);
    if start.Some? {
      var len := |e| - start.value;
      if len > longest {
        longest := len;
      }
    }
  }

  // ----- Exposure -----

  datatype Exposure = Exposure(
    gross: Money,
    net: Money,
    longCount: nat,
    shortCount: nat,
    longVolume: real,
    shortVolume: real,
    netVolume: real,
    concentration: map<Symbol, Money>)

  function Mid(q: Quote): real {
    (q.bid + q.ask) / 2.0
  }

  predicate Counted(p: Position, quotes: map<Symbol, Quote>) {
    IsOpen(p) && p.symbol in quotes
  }

  function Notional(p: Position, quotes: map<Symbol, Quote>): Money
    requires Counted(p, quotes)
  {
    Mid(quotes[p.symbol]) * p.openQuantity
  }

  /** Notional of the counted positions in one symbol. */
  function SymbolNotional(ps: seq<Position>, quotes: map<Symbol, Quote>, symbol: Symbol): Money {
    if ps == [] then 0.0
    else
      SymbolNotional(Front(ps), quotes, symbol)
      + if Counted(Last(ps), quotes) && Last(ps).symbol == symbol then Notional(Last(ps), quotes) else 0.0
  }

  /** Sum of the values of a map over a set of its keys. */
  ghost function SumOver(m: map<Symbol, Money>, keys: set<Symbol>): Money
    requires keys <= m.Keys
  {
    if keys == {} then 0.0
    else
      var k :| k in keys;
      m[k] + SumOver(m, keys - {k})
  }

  lemma {:induction false} SumWithout(m: map<Symbol, Money>, keys: set<Symbol>, k: Symbol)
    requires keys <= m.Keys && k in keys
    ensures SumOver(m, keys) == m[k] + SumOver(m, keys - {k})
    decreases |keys|
  {
    var j :| j in keys && SumOver(m, keys) == m[j] + SumOver(m, keys - {j});
    if j != k {
      SumWithout(m, keys - {j}, k);
      SumWithout(m, keys - {k}, j);
      assert keys - {j} - {k} == keys - {k} - {j};
    }
  }

  lemma {:induction false} SumSame(m: map<Symbol, Money>, n: map<Symbol, Money>, keys: set<Symbol>)
    requires keys <= m.Keys && keys <= n.Keys && forall k :: k in keys ==> m[k] == n[k]
    ensures SumOver(m, keys) == SumOver(n, keys)
    decreases |keys|
  {
    if keys != {} {
      var k :| k in keys;
      SumWithout(m, keys, k);
      SumWithout(n, keys, k);
      SumSame(m, n, keys - {k});
    }
  }

  /** Adding an amount under a key adds it to the sum. */
  lemma {:induction false} SumAfterAdd(m: map<Symbol, Money>, k: Symbol, x: Money)
    ensures var n := m[k := (if k in m then m[k] else 0.0) + x];
      SumOver(n, n.Keys) == SumOver(m, m.Keys) + x
  {
    var n := m[k := (if k in m then m[k] else 0.0) + x];
    SumWithout(n, n.Keys, k);
    SumSame(n, m, m.Keys - {k});
    assert n.Keys - {k} == m.Keys - {k};
    if k in m {
      SumWithout(m, m.Keys, k);
    } else {
      assert m.Keys - {k} == m.Keys;
    }
  }

  const NOTHING := Exposure(0.0, 0.0, 0, 0, 0.0, 0.0, 0.0, map[])

  /** One more position. */
  function AddPosition(x: Exposure, p: Position, quotes: map<Symbol, Quote>): Exposure {
    if !Counted(p, quotes) then x
    else
      var n, long := Notional(p, quotes), p.side.Long?;
      var held := if p.symbol in x.concentration then x.concentration[p.symbol] else 0.0;
      Exposure(
        x.gross + n,
        if long then x.net + n else x.net - n,
        if long then x.longCount + 1 else x.longCount,
        if long then x.shortCount else x.shortCount + 1,
        if long then x.longVolume + p.openQuantity else x.longVolume,
        if long then x.shortVolume else x.shortVolume + p.openQuantity,
        if long then x.netVolume + p.openQuantity else x.netVolume - p.openQuantity,
        x.concentration[p.symbol := held + n])
  }

  function ExposureOf(ps: seq<Position>, quotes: map<Symbol, Quote>): Exposure {
    if ps == [] then NOTHING else AddPosition(ExposureOf(Front(ps), quotes), Last(ps), quotes)
  }

  method ComputeExposure(ps: seq<Position>, quotes: map<Symbol, Quote>) returns (x: Exposure)
    ensures x == ExposureOf(ps, quotes)
  {
    x := NOTHING;
    for i := 0 to |ps|
      invariant x == ExposureOf(ps[..i], quotes)
    {
      var p := ps[i];
      PrefixGrows(ps, i);
      if !IsOpen(p) || p.symbol !in quotes {
        continue;
      }
      var notional := Notional(p, quotes);
      x := x.(gross := x.gross + notional);
      match p.side {
        case Long =>
          x := x.(net := x.net + notional, longCount := x.longCount + 1,
                  longVolume := x.longVolume + p.openQuantity, netVolume := x.netVolume + p.openQuantity);
        case Short =>
          x := x.(net := x.net - notional, shortCount := x.shortCount + 1,
                  shortVolume := x.shortVolume + p.openQuantity, netVolume := x.netVolume - p.openQuantity);
      }
      var held := if p.symbol in x.concentration then x.concentration[p.symbol] else 0.0;
      x := x.(concentration := x.concentration[p.symbol := held + notional]);
    }
    WholePrefix(ps);
  }

  /** What is held per symbol is the notional of that symbol's positions, and adds up to the gross. */
  lemma {:induction false} ConcentrationLaws(ps: seq<Position>, quotes: map<Symbol, Quote>)
    ensures var x := ExposureOf(ps, quotes);
      && SumOver(x.concentration, x.concentration.Keys) == x.gross
      && forall s :: SymbolNotional(ps, quotes, s) == if s in x.concentration then x.concentration[s] else 0.0
  {
    if ps != [] {
      ConcentrationLaws(Front(ps), quotes);
      if Counted(Last(ps), quotes) {
        SumAfterAdd(ExposureOf(Front(ps), quotes).concentration, Last(ps).symbol, Notional(Last(ps), quotes));
      }
    }
  }

  /** Notional of the counted positions on one side. */
  function SideNotional(ps: seq<Position>, quotes: map<Symbol, Quote>, side: PositionSide): Money {
    if ps == [] then 0.0
    else
      SideNotional(Front(ps), quotes, side)
      + if Counted(Last(ps), quotes) && Last(ps).side == side then Notional(Last(ps), quotes) else 0.0
  }

  ghost predicate NonnegativeMids(quotes: map<Symbol, Quote>) {
    forall s :: s in quotes ==> Mid(quotes[s]) >= 0.0
  }

  lemma {:induction false} NotionalNonnegative(p: Position, quotes: map<Symbol, Quote>)
    requires Counted(p, quotes) && NonnegativeMids(quotes)
    ensures Notional(p, quotes) >= 0.0
  {
  }

  lemma {:induction false} SidesNonnegative(ps: seq<Position>, quotes: map<Symbol, Quote>, side: PositionSide)
    requires NonnegativeMids(quotes)
    ensures SideNotional(ps, quotes, side) >= 0.0
  {
    if ps != [] {
      SidesNonnegative(Front(ps), quotes, side);
      if Counted(Last(ps), quotes) {
        NotionalNonnegative(Last(ps), quotes);
      }
    }
  }

  lemma {:induction false} SideLaws(ps: seq<Position>, quotes: map<Symbol, Quote>)
    ensures var x := ExposureOf(ps, quotes);
      var long, short := SideNotional(ps, quotes, Long), SideNotional(ps, quotes, Short);
      && x.gross == long + short && x.net == long - short
      && x.netVolume == x.longVolume - x.shortVolume && x.longVolume >= 0.0 && x.shortVolume >= 0.0
  {
    if ps != [] {
      SideLaws(Front(ps), quotes);
    }
  }

  /** Gross and net are the sum and the difference of the two sides; with nonnegative prices the net never exceeds the
      gross, and volumes net out. */
  lemma {:induction false} NetWithinGross(ps: seq<Position>, quotes: map<Symbol, Quote>)
    ensures var x := ExposureOf(ps, quotes);
      && x.netVolume == x.longVolume - x.shortVolume
      && (NonnegativeMids(quotes) ==> -x.gross <= x.net <= x.gross)
  {
    SideLaws(ps, quotes);
    if NonnegativeMids(quotes) {
      SidesNonnegative(ps, quotes, Long);
      SidesNonnegative(ps, quotes, Short);
    }
  }
}
