/** Shared value types: optional values, results, money and time. */
module Common {

  /** Decimal amounts are exact reals; 28-digit rounding is not modelled. */
  type Money = real

  /** UTC timestamps in whole seconds since the epoch. */
  type Timestamp = int

  datatype Option<+T> = None | Some(value: T)

  datatype Error =
    | InvalidState
    | Persistence
    | TickRejected
    | NotFound
    | RulePanic

  datatype Result<+T> = Ok(value: T) | Err(error: Error)

  function Max(a: Money, b: Money): Money {
    if a < b then b else a
  }

  function Min(a: Money, b: Money): Money {
    if b < a then b else a
  }

  function Abs(a: Money): Money {
    if a < 0.0 then -a else a
  }

  function Last<T>(s: seq<T>): T
    requires s != []
  {
    s[|s| - 1]
  }

  function Front<T>(s: seq<T>): seq<T>
    requires s != []
  {
    s[..|s| - 1]
  }

  /** Sum of a sequence of amounts, the newest last. */
  function Sum(s: seq<Money>): Money {
    if s == [] then 0.0 else Sum(Front(s)) + Last(s)
  }

  lemma {:induction false} FrontLast<T>(xs: seq<T>, x: T)
    ensures Front(xs + [x]) == xs && Last(xs + [x]) == x
  {
  }

  lemma {:induction false} PrefixGrows<T>(xs: seq<T>, i: nat)
    requires i < |xs|
    ensures xs[..i + 1] == xs[..i] + [xs[i]]
    ensures Front(xs[..i + 1]) == xs[..i] && Last(xs[..i + 1]) == xs[i]
  {
  }

  lemma {:induction false} WholePrefix<T>(xs: seq<T>)
    ensures xs[..|xs|] == xs
  {
  }

  /** The sequence without its element at `i`. */
  function Removed<T>(xs: seq<T>, i: nat): (ys: seq<T>)
    requires i < |xs|
    ensures |ys| == |xs| - 1
    ensures forall j :: 0 <= j < |ys| ==> ys[j] == if j < i then xs[j] else xs[j + 1]
  {
    xs[..i] + xs[i + 1..]
  }

  lemma {:induction false} RemovedMultiset<T>(xs: seq<T>, i: nat)
    requires i < |xs|
    ensures multiset(Removed(xs, i)) == multiset(xs) - multiset{xs[i]}
  {
    assert xs == xs[..i] + [xs[i]] + xs[i + 1..];
  }

  lemma {:induction false} RemovedFront<T>(xs: seq<T>, i: nat)
    requires i < |xs|
    ensures if i == |xs| - 1 then Removed(xs, i) == Front(xs)
            else Removed(xs, i) == Removed(Front(xs), i) + [Last(xs)]
  {
  }
}
