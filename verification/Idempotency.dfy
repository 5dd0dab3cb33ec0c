/** The bounded, expiring store of first responses, and the retry window it gives. Each operation runs under one
    lock, so any interleaving of request handlers is a sequence of whole operations. */
module Idempotency {
  import opened Common

  /** Composite key of a request. */
  datatype Key = Key(text: string)

  datatype Entry = Entry(bodyHash: string, response: string, insertedAt: Timestamp)

  datatype IdempotencyOutcome = Fresh | Replay(response: string) | Conflict

  /** Contents of the store: the entries, and their keys in order of insertion. */
  datatype Inner = Inner(entries: map<Key, Entry>, order: seq<Key>)

  const EMPTY := Inner(map[], [])

  // ----- Specification -----

  /** The order without the given keys. */
  function WithoutKeys(order: seq<Key>, gone: set<Key>): seq<Key> {
    if order == [] then []
    else if Last(order) in gone then WithoutKeys(Front(order), gone)
    else WithoutKeys(Front(order), gone) + [Last(order)]
  }

  predicate Expired(e: Entry, ttl: nat, now: Timestamp) {
    now - e.insertedAt > ttl
  }

  function ExpiredKeys(s: Inner, ttl: nat, now: Timestamp): set<Key> {
    set k | k in s.entries && Expired(s.entries[k], ttl, now)
  }

  function Excluding(s: Inner, gone: set<Key>): Inner {
    Inner(s.entries - gone, WithoutKeys(s.order, gone))
  }

  function Pruned(s: Inner, ttl: nat, now: Timestamp): Inner {
    Excluding(s, ExpiredKeys(s, ttl, now))
  }

  function Keys(order: seq<Key>): set<Key> {
    set k | k in order
  }

  /** The store without its `n` oldest keys. */
  function Dropped(s: Inner, n: nat): Inner
    requires n <= |s.order|
  {
    Inner(s.entries - Keys(s.order[..n]), s.order[n..])
  }

  /** Drops the oldest keys until at most `capacity` are left. */
  function Evicted(s: Inner, capacity: nat): Inner {
    if |s.order| <= capacity then s else Dropped(s, |s.order| - capacity)
  }

  function Inserted(s: Inner, capacity: nat, key: Key, e: Entry): Inner {
    Evicted(Inner(s.entries[key := e], WithoutKeys(s.order, {key}) + [key]), capacity)
  }

  function Found(s: Inner, key: Key, bodyHash: string): IdempotencyOutcome {
    if key !in s.entries then Fresh
    else if s.entries[key].bodyHash == bodyHash then Replay(s.entries[key].response)
    else Conflict
  }

  datatype Op =
    | OpCheck(key: Key, bodyHash: string)
    | OpRemember(key: Key, bodyHash: string, response: string)
    | OpCheckAndRemember(key: Key, bodyHash: string, response: string)
    | OpLen

  datatype Config = Config(capacity: nat, ttl: nat)

  /** What an operation answers. */
  function Answer(s: Inner, c: Config, op: Op, now: Timestamp): IdempotencyOutcome {
    match op
    case OpCheck(key, hash) => Found(Pruned(s, c.ttl, now), key, hash)
    case OpCheckAndRemember(key, hash, _) => Found(Pruned(s, c.ttl, now), key, hash)
    case _ => Fresh
  }

  /** Whether an operation writes an entry under its key. */
  predicate Writes(s: Inner, c: Config, op: Op, now: Timestamp) {
    op.OpRemember? || (op.OpCheckAndRemember? && Answer(s, c, op, now).Fresh?)
  }

  /** The store after an operation. Remembering does not prune first. */
  function Applied(s: Inner, c: Config, op: Op, now: Timestamp): Inner {
    var base := if op.OpRemember? then s else Pruned(s, c.ttl, now);
    if Writes(s, c, op, now) then Inserted(base, c.capacity, op.key, Entry(op.bodyHash, op.response, now)) else base
  }

  // ----- The store -----

  class IdempotencyStore {
    const config: Config
    var entries: map<Key, Entry>
    var order: seq<Key>

    function Contents(): Inner
      reads this
    {
      Inner(entries, order)
    }

    constructor (c: Config)
      ensures config == c && Contents() == EMPTY
    {
      config := c;
      entries := map[];
      order := [];
    }

    /** Removes every occurrence of a key from the order. */
    method Retain(key: Key)
      modifies this`order
      ensures order == WithoutKeys(old(order), {key})
    {
      var was := order;
      var kept: seq<Key> := [];
      for i := 0 to |was|
        invariant kept == WithoutKeys(was[..i], {key})
        invariant order == was
      {
        PrefixGrows(was, i);
        if was[i] != key {
          kept := kept + [was[i]];
        }
      }
      WholePrefix(was);
      order := kept;
    }

    method Prune(now: Timestamp)
      modifies this
      ensures Contents() == Pruned(old(Contents()), config.ttl, now)
    {
      ghost var s := Contents();
      var expired := ExpiredKeys(Contents(), config.ttl, now);
      ghost var all, dropped := expired, {};
      ExcludeNone(s);
      while expired != {}
        invariant dropped + expired == all
        invariant Contents() == Excluding(s, dropped)
        decreases |expired|
      {
        var k :| k in expired;
        ExcludeOneMore(s, dropped, k);
        entries := entries - {k};
        Retain(k);
        expired := expired - {k};
        dropped := dropped + {k};
      }
    }

    /** Pushes a key to the end, writes its entry and evicts from the front. */
    method Insert(key: Key, e: Entry)
      modifies this
      ensures Contents() == Inserted(old(Contents()), config.capacity, key, e)
    {
      Retain(key);
      order := order + [key];
      entries := entries[key := e];
      ghost var s := Contents();
      ghost var gone := 0;
      while |order| > config.capacity
        invariant gone <= |s.order| && Contents() == Dropped(s, gone)
        invariant gone > 0 ==> |order| >= config.capacity
        decreases |order|
      {
        DropOneMore(s, gone);
        var evicted := order[0];
        order := order[1..];
        entries := entries - {evicted};
        gone := gone + 1;
      }
      if gone == 0 {
        assert Dropped(s, 0) == s;
      }
    }

    method Check(key: Key, bodyHash: string, now: Timestamp) returns (r: IdempotencyOutcome)
      modifies this
      ensures r == Answer(old(Contents()), config, OpCheck(key, bodyHash), now)
      ensures Contents() == Applied(old(Contents()), config, OpCheck(key, bodyHash), now)
    {
      Prune(now);
      r := Found(Contents(), key, bodyHash);
    }

    method Remember(key: Key, bodyHash: string, response: string, now: Timestamp)
      modifies this
      ensures Contents() == Applied(old(Contents()), config, OpRemember(key, bodyHash, response), now)
    {
      Insert(key, Entry(bodyHash, response, now));
    }

    method CheckAndRemember(key: Key, bodyHash: string, response: string, now: Timestamp)
      returns (r: IdempotencyOutcome)
      modifies this
      ensures r == Answer(old(Contents()), config, OpCheckAndRemember(key, bodyHash, response), now)
      ensures Contents() == Applied(old(Contents()), config, OpCheckAndRemember(key, bodyHash, response), now)
    {
      Prune(now);
      if key in entries {
        if entries[key].bodyHash == bodyHash {
          r := Replay(entries[key].response);
        } else {
          r := Conflict;
        }
      } else {
        Insert(key, Entry(bodyHash, response, now));
        r := Fresh;
      }
    }
  }

  // ----- Lemmas on orders -----

  lemma {:induction false} DropOneMore(s: Inner, n: nat)
    requires n < |s.order|
    ensures Dropped(s, n + 1) == Inner(Dropped(s, n).entries - {s.order[n]}, s.order[n..][1..])
    ensures s.order[n..][0] == s.order[n]
  {
    assert s.order[..n + 1] == s.order[..n] + [s.order[n]];
    assert Keys(s.order[..n + 1]) == Keys(s.order[..n]) + {s.order[n]};
  }

  lemma {:induction false} KeysSnoc(order: seq<Key>, k: Key)
    ensures Keys(order + [k]) == Keys(order) + {k}
  {
  }

  ghost predicate Distinct(order: seq<Key>) {
    forall i, j :: 0 <= i < j < |order| ==> order[i] != order[j]
  }

  /** The order lists exactly the keys of the entries, each once. */
  ghost predicate Represents(s: Inner) {
    Distinct(s.order) && Keys(s.order) == s.entries.Keys
  }

  lemma {:induction false} WithoutAbsent(order: seq<Key>, gone: set<Key>)
    requires forall i :: 0 <= i < |order| ==> order[i] !in gone
    ensures WithoutKeys(order, gone) == order
  {
    if |order| == 0 {
    } else {
      var n := |order| - 1;
      PrefixGrows(order, n);
      WholePrefix(order);
      WithoutAbsent(order[..n], gone);
      assert order[n] !in gone;
    }
  }

  lemma {:induction false} WithoutOneMore(order: seq<Key>, gone: set<Key>, k: Key)
    ensures WithoutKeys(WithoutKeys(order, gone), {k}) == WithoutKeys(order, gone + {k})
  {
    if order != [] {
      WithoutOneMore(Front(order), gone, k);
      var rest := WithoutKeys(Front(order), gone);
      FrontLast(rest, Last(order));
    }
  }

  lemma {:induction false} ExcludeNone(s: Inner)
    ensures Excluding(s, {}) == s
  {
    WithoutAbsent(s.order, {});
  }

  lemma {:induction false} ExcludeOneMore(s: Inner, gone: set<Key>, k: Key)
    ensures Excluding(Excluding(s, gone), {k}) == Excluding(s, gone + {k})
  {
    WithoutOneMore(s.order, gone, k);
    assert s.entries - gone - {k} == s.entries - (gone + {k});
  }

  /** Dropping keys leaves the others, each once. */
  lemma {:induction false} WithoutLaws(order: seq<Key>, gone: set<Key>)
    requires Distinct(order)
    ensures Distinct(WithoutKeys(order, gone))
    ensures Keys(WithoutKeys(order, gone)) == Keys(order) - gone
    ensures |WithoutKeys(order, gone)| <= |order|
  {
    if order != [] {
      WithoutLaws(Front(order), gone);
      var rest, k := WithoutKeys(Front(order), gone), Last(order);
      assert order == Front(order) + [k];
      KeysSnoc(Front(order), k);
      KeysSnoc(rest, k);
      assert k !in Keys(Front(order));
      assert k !in Keys(rest);
    }
  }

  /** Number of keys behind a key in the order. */
  function KeysBehind(order: seq<Key>, key: Key): nat {
    if order == [] || Last(order) == key then 0 else 1 + KeysBehind(Front(order), key)
  }

  /** Dropping other keys puts no more keys behind a key. */
  lemma {:induction false} BehindWithout(order: seq<Key>, gone: set<Key>, key: Key)
    requires key !in gone
    ensures KeysBehind(WithoutKeys(order, gone), key) <= KeysBehind(order, key)
  {
    if order != [] && Last(order) != key {
      BehindWithout(Front(order), gone, key);
      var rest := WithoutKeys(Front(order), gone);
      FrontLast(rest, Last(order));
    }
  }

  /** A key with fewer than `m` keys behind it is among the last `m`. */
  lemma {:induction false} BehindSuffix(order: seq<Key>, key: Key, n: nat)
    requires n <= |order| && key in order && KeysBehind(order, key) < |order| - n
    ensures key in order[n..] && KeysBehind(order[n..], key) == KeysBehind(order, key)
  {
    var tail := order[n..];
    assert Last(tail) == Last(order);
    if Last(order) != key {
      assert Front(order)[n..] == Front(tail);
      BehindSuffix(Front(order), key, n);
    }
  }

  // ----- Representation over runs -----

  datatype Timed = Timed(op: Op, at: Timestamp)

  function After(s: Inner, c: Config, ops: seq<Timed>): Inner {
    if ops == [] then s else Applied(After(s, c, Front(ops)), c, Last(ops).op, Last(ops).at)
  }

  /** The clock never runs backwards. */
  ghost predicate ClockOk(ops: seq<Timed>, from: Timestamp) {
    && (forall i :: 0 <= i < |ops| ==> from <= ops[i].at)
    && (forall i, j :: 0 <= i < j < |ops| ==> ops[i].at <= ops[j].at)
  }

  /** Keys in order of insertion time, none later than `now`. */
  ghost predicate Chronological(s: Inner, now: Timestamp) {
    && (forall k :: k in s.order ==> k in s.entries && s.entries[k].insertedAt <= now)
    && (forall i, j :: 0 <= i < j < |s.order| ==>
          s.entries[s.order[i]].insertedAt <= s.entries[s.order[j]].insertedAt)
  }

  lemma {:induction false} PrunedRepresents(s: Inner, ttl: nat, now: Timestamp)
    requires Represents(s)
    ensures var p := Pruned(s, ttl, now);
      && Represents(p) && |p.order| <= |s.order|
      && forall k :: k in p.entries <==> k in s.entries && !Expired(s.entries[k], ttl, now)
  {
    WithoutLaws(s.order, ExpiredKeys(s, ttl, now));
  }

  lemma {:induction false} WithoutChronological(order: seq<Key>, gone: set<Key>, entries: map<Key, Entry>, now: Timestamp)
    requires forall k :: k in order ==> k in entries
    requires Chronological(Inner(entries, order), now)
    ensures forall k :: k in WithoutKeys(order, gone) ==> k in order
    ensures Chronological(Inner(entries, WithoutKeys(order, gone)), now)
  {
    if order != [] {
      assert forall k :: k in Front(order) ==> k in order;
      WithoutChronological(Front(order), gone, entries, now);
      var rest, k := WithoutKeys(Front(order), gone), Last(order);
      forall j | 0 <= j < |rest| ensures entries[rest[j]].insertedAt <= entries[k].insertedAt {
        assert rest[j] in Front(order);
        var m :| 0 <= m < |order| - 1 && order[m] == rest[j];
      }
    }
  }

  lemma {:induction false} PushRepresents(s: Inner, key: Key, e: Entry)
    requires Represents(s)
    ensures var order := WithoutKeys(s.order, {key});
      && Represents(Inner(s.entries[key := e], order + [key]))
      && |order| <= |s.order|
  {
    WithoutLaws(s.order, {key});
    KeysSnoc(WithoutKeys(s.order, {key}), key);
    assert key !in Keys(WithoutKeys(s.order, {key}));
  }

  lemma {:induction false} PushChronological(s: Inner, key: Key, e: Entry)
    requires Represents(s) && Chronological(s, e.insertedAt)
    ensures Chronological(Inner(s.entries[key := e], WithoutKeys(s.order, {key}) + [key]), e.insertedAt)
  {
    WithoutChronological(s.order, {key}, s.entries, e.insertedAt);
    WithoutLaws(s.order, {key});
    var order := WithoutKeys(s.order, {key});
    forall k | k in order ensures k != key && k in s.entries {
      assert k in Keys(order);
    }
  }

  lemma {:induction false} DroppedRepresents(s: Inner, n: nat)
    requires Represents(s) && n <= |s.order|
    ensures Represents(Dropped(s, n))
  {
    var head, tail := s.order[..n], s.order[n..];
    forall k ensures k in Keys(tail) <==> k in Keys(s.order) && k !in Keys(head) {
      assert s.order == head + tail;
    }
  }

  lemma {:induction false} EvictedRepresents(s: Inner, capacity: nat, now: Timestamp)
    requires Represents(s)
    ensures var r := Evicted(s, capacity);
      Represents(r) && |r.order| <= capacity && (Chronological(s, now) ==> Chronological(r, now))
  {
    var n := |s.order| - capacity;
    if n > 0 {
      DroppedRepresents(s, n);
      var r := Dropped(s, n);
      if Chronological(s, now) {
        forall k | k in r.order ensures k in r.entries && k in s.order {
          assert k in Keys(r.order);
        }
      }
    }
  }

  /** One operation keeps the representation, the capacity and the chronology. */
  lemma {:induction false} StepRepresents(s: Inner, c: Config, op: Op, before: Timestamp, now: Timestamp)
    requires Represents(s) && |s.order| <= c.capacity && Chronological(s, before) && before <= now
    ensures var r := Applied(s, c, op, now);
      Represents(r) && |r.order| <= c.capacity && Chronological(r, now)
  {
    var base := if op.OpRemember? then s else Pruned(s, c.ttl, now);
    PrunedRepresents(s, c.ttl, now);
    PrunedChronological(s, c.ttl, now);
    if Writes(s, c, op, now) {
      var e := Entry(op.bodyHash, op.response, now);
      PushRepresents(base, op.key, e);
      PushChronological(base, op.key, e);
      EvictedRepresents(Inner(base.entries[op.key := e], WithoutKeys(base.order, {op.key}) + [op.key]), c.capacity, now);
    }
  }

  lemma {:induction false} PrunedChronological(s: Inner, ttl: nat, now: Timestamp)
    requires Represents(s) && Chronological(s, now)
    ensures Chronological(Pruned(s, ttl, now), now)
  {
    var gone := ExpiredKeys(s, ttl, now);
    WithoutChronological(s.order, gone, s.entries, now);
    WithoutLaws(s.order, gone);
    forall k | k in WithoutKeys(s.order, gone) ensures k !in gone {
      assert k in Keys(WithoutKeys(s.order, gone));
    }
  }

  /** Over every sequence of operations with a clock that never runs backwards: the order lists each stored key once,
      never more than the capacity, oldest insertion first. */
  lemma {:induction false} StoreRepresents(c: Config, ops: seq<Timed>, from: Timestamp)
    requires ClockOk(ops, from)
    ensures var s := After(EMPTY, c, ops);
      && Represents(s) && |s.order| <= c.capacity
      && Chronological(s, if ops == [] then from else Last(ops).at)
  {
    if ops != [] {
      var rest := Front(ops);
      StoreRepresents(c, rest, from);
      StepRepresents(After(EMPTY, c, rest), c, Last(ops).op, if rest == [] then from else Last(rest).at, Last(ops).at);
    }
  }

  // ----- Retry window -----

  /** Writes of keys other than `key` along a run. */
  function OtherWrites(s: Inner, c: Config, ops: seq<Timed>, key: Key): nat {
    if ops == [] then 0
    else
      var t := Last(ops);
      OtherWrites(s, c, Front(ops), key)
      + if Writes(After(s, c, Front(ops)), c, t.op, t.at) && t.op.key != key then 1 else 0
  }

  /** The entry is in place and at most `n` keys were inserted after it. */
  ghost predicate Holds(s: Inner, key: Key, e: Entry, n: nat) {
    key in s.entries && s.entries[key] == e && KeysBehind(s.order, key) <= n
  }

  lemma {:induction false} BehindPush(order: seq<Key>, key: Key, other: Key)
    requires key != other
    ensures KeysBehind(order + [other], key) == 1 + KeysBehind(order, key)
  {
    FrontLast(order, other);
  }

  /** A key with fewer keys behind it than the capacity survives the insertion of another key. */
  lemma {:induction false} InsertKeeps(s: Inner, c: Config, key: Key, e: Entry, n: nat, other: Key, f: Entry)
    requires Represents(s) && Holds(s, key, e, n) && other != key && n + 1 < c.capacity
    ensures Holds(Inserted(s, c.capacity, other, f), key, e, n + 1)
  {
    PushRepresents(s, other, f);
    BehindWithout(s.order, {other}, key);
    var pushed := Inner(s.entries[other := f], WithoutKeys(s.order, {other}) + [other]);
    BehindPush(WithoutKeys(s.order, {other}), key, other);
    assert key in Keys(pushed.order);
    var cut := |pushed.order| - c.capacity;
    if cut > 0 {
      BehindSuffix(pushed.order, key, cut);
      var head, tail := pushed.order[..cut], pushed.order[cut..];
      var j :| 0 <= j < |tail| && tail[j] == key;
      assert pushed.order[cut + j] == key;
      assert key !in head;
    }
  }

  lemma {:induction false} PruneKeeps(s: Inner, ttl: nat, key: Key, e: Entry, n: nat, now: Timestamp)
    requires Represents(s) && Holds(s, key, e, n) && !Expired(e, ttl, now)
    ensures Holds(Pruned(s, ttl, now), key, e, n)
  {
    BehindWithout(s.order, ExpiredKeys(s, ttl, now), key);
  }

  /** An operation within the entry's lifetime that does not rewrite it leaves it in place. */
  lemma {:induction false} StepHolds(s: Inner, c: Config, op: Op, now: Timestamp, key: Key, e: Entry, n: nat)
    requires Represents(s) && Holds(s, key, e, n) && !Expired(e, c.ttl, now)
    requires op.OpRemember? ==> op.key != key
    requires Writes(s, c, op, now) ==> n + 1 < c.capacity
    ensures Writes(s, c, op, now) ==> op.key != key
    ensures Holds(Applied(s, c, op, now), key, e, if Writes(s, c, op, now) then n + 1 else n)
  {
    var base := if op.OpRemember? then s else Pruned(s, c.ttl, now);
    PruneKeeps(s, c.ttl, key, e, n, now);
    PrunedRepresents(s, c.ttl, now);
    if Writes(s, c, op, now) {
      InsertKeeps(base, c, key, e, n, op.key, Entry(op.bodyHash, op.response, now));
    }
  }

  /** Writing a key into a store of positive capacity puts it last. */
  lemma {:induction false} FreshHolds(s: Inner, c: Config, op: Op, now: Timestamp)
    requires Represents(s) && Writes(s, c, op, now) && c.capacity > 0
    ensures Represents(Applied(s, c, op, now))
    ensures Holds(Applied(s, c, op, now), op.key, Entry(op.bodyHash, op.response, now), 0)
  {
    var base := if op.OpRemember? then s else Pruned(s, c.ttl, now);
    var e := Entry(op.bodyHash, op.response, now);
    PrunedRepresents(s, c.ttl, now);
    PushRepresents(base, op.key, e);
    var pushed := Inner(base.entries[op.key := e], WithoutKeys(base.order, {op.key}) + [op.key]);
    EvictedRepresents(pushed, c.capacity, now);
    var cut := |pushed.order| - c.capacity;
    if cut > 0 {
      BehindSuffix(pushed.order, op.key, cut);
      assert op.key in Keys(pushed.order[cut..]);
    }
  }

  /** One operation keeps the representation, whatever the clock says. */
  lemma {:induction false} AppliedRepresents(s: Inner, c: Config, op: Op, now: Timestamp)
    requires Represents(s)
    ensures Represents(Applied(s, c, op, now))
  {
    var base := if op.OpRemember? then s else Pruned(s, c.ttl, now);
    PrunedRepresents(s, c.ttl, now);
    if Writes(s, c, op, now) {
      var e := Entry(op.bodyHash, op.response, now);
      PushRepresents(base, op.key, e);
      EvictedRepresents(Inner(base.entries[op.key := e], WithoutKeys(base.order, {op.key}) + [op.key]), c.capacity, now);
    }
  }

  lemma {:induction false} RunHolds(s: Inner, c: Config, ops: seq<Timed>, key: Key, e: Entry)
    requires Represents(s) && Holds(s, key, e, 0)
    requires forall t :: t in ops ==> !Expired(e, c.ttl, t.at) && (t.op.OpRemember? ==> t.op.key != key)
    requires OtherWrites(s, c, ops, key) < c.capacity
    ensures Represents(After(s, c, ops))
    ensures Holds(After(s, c, ops), key, e, OtherWrites(s, c, ops, key))
  {
    if ops != [] {
      var rest, t := Front(ops), Last(ops);
      RunHolds(s, c, rest, key, e);
      var mid := After(s, c, rest);
      if Writes(mid, c, t.op, t.at) && t.op.key == key {
        PruneKeeps(mid, c.ttl, key, e, OtherWrites(s, c, rest, key), t.at);
      }
      StepHolds(mid, c, t.op, t.at, key, e, OtherWrites(s, c, rest, key));
      AppliedRepresents(mid, c, t.op, t.at);
    }
  }

  /** Retry window: take any history, a first request that is answered fresh, and any further operations of any handlers
      within its lifetime that write fewer than `capacity` other keys. A retry then gets exactly the first response
      back, the same key with another body is a conflict, and neither stores anything. */
  lemma {:induction false} RetryWindow(c: Config, history: seq<Timed>, first: Timed, later: seq<Timed>, retry: Timed)
    requires first.op.OpCheckAndRemember?
    requires Answer(After(EMPTY, c, history), c, first.op, first.at).Fresh?
    requires forall t :: t in later + [retry] ==> t.at <= first.at + c.ttl
    requires forall t :: t in later && t.op.OpRemember? ==> t.op.key != first.op.key
    requires retry.op.OpCheckAndRemember? && retry.op.key == first.op.key
    requires OtherWrites(Applied(After(EMPTY, c, history), c, first.op, first.at), c, later, first.op.key) < c.capacity
    ensures var stored := Applied(After(EMPTY, c, history), c, first.op, first.at);
      var s := After(stored, c, later);
      && Answer(s, c, retry.op, retry.at) ==
           (if retry.op.bodyHash == first.op.bodyHash then Replay(first.op.response) else Conflict)
      && Applied(s, c, retry.op, retry.at) == Pruned(s, c.ttl, retry.at)
  {
    HistoryRepresents(c, history);
    var key, e := first.op.key, Entry(first.op.bodyHash, first.op.response, first.at);
    FreshHolds(After(EMPTY, c, history), c, first.op, first.at);
    var stored := Applied(After(EMPTY, c, history), c, first.op, first.at);
    assert forall t :: t in later ==> t in later + [retry];
    RunHolds(stored, c, later, key, e);
    assert retry in later + [retry];
    PruneKeeps(After(stored, c, later), c.ttl, key, e, OtherWrites(stored, c, later, key), retry.at);
  }

  /** What a handler sends back after its own evaluation gave `own`: nothing but a refusal on a conflict. */
  function Sent(outcome: IdempotencyOutcome, own: string): Option<string> {
    match outcome
    case Fresh => Some(own)
    case Replay(cached) => Some(cached)
    case Conflict => None
  }

  /** Two handlers that evaluate the same request side by side send the same response: that of the one whose locked
      section came first, even when their evaluations differ. */
  lemma {:induction false} RacingHandlersAgree(c: Config, history: seq<Timed>, first: Timed, later: seq<Timed>, retry: Timed)
    requires first.op.OpCheckAndRemember? && retry.op.OpCheckAndRemember?
    requires retry.op.key == first.op.key && retry.op.bodyHash == first.op.bodyHash
    requires Answer(After(EMPTY, c, history), c, first.op, first.at).Fresh?
    requires forall t :: t in later + [retry] ==> t.at <= first.at + c.ttl
    requires forall t :: t in later && t.op.OpRemember? ==> t.op.key != first.op.key
    requires OtherWrites(Applied(After(EMPTY, c, history), c, first.op, first.at), c, later, first.op.key) < c.capacity
    ensures var before := After(EMPTY, c, history);
      var s := After(Applied(before, c, first.op, first.at), c, later);
      Sent(Answer(before, c, first.op, first.at), first.op.response)
      == Sent(Answer(s, c, retry.op, retry.at), retry.op.response) == Some(first.op.response)
  {
    RetryWindow(c, history, first, later, retry);
  }

  lemma {:induction false} HistoryRepresents(c: Config, ops: seq<Timed>)
    ensures Represents(After(EMPTY, c, ops))
  {
    if ops != [] {
      HistoryRepresents(c, Front(ops));
      AppliedRepresents(After(EMPTY, c, Front(ops)), c, Last(ops).op, Last(ops).at);
    }
  }

  lemma {:induction false} DropFirst(s: Inner)
    requires |s.order| > 0
    ensures Dropped(s, 1) == Inner(s.entries - {s.order[0]}, s.order[1..])
  {
    assert Keys(s.order[..1]) == {s.order[0]};
  }

  lemma {:induction false} TailOfPush<T>(xs: seq<T>, x: T)
    requires |xs| > 0
    ensures (xs + [x])[1..] == xs[1..] + [x] && (xs + [x])[0] == xs[0]
  {
  }

  lemma {:induction false} PushIntoFull(s: Inner, capacity: nat, key: Key, e: Entry)
    requires Represents(s) && |s.order| == capacity > 0 && key !in s.entries
    ensures Inserted(s, capacity, key, e) == Inner(s.entries[key := e] - {s.order[0]}, s.order[1..] + [key])
  {
    assert key !in Keys(s.order);
    WithoutAbsent(s.order, {key});
    TailOfPush(s.order, key);
    DropFirst(Inner(s.entries[key := e], s.order + [key]));
  }

  /** The bound is sharp: writing a new key into a full store evicts exactly the oldest key, however often that one was
      looked up, because looking up never moves a key. */
  lemma {:induction false} FullStoreEvictsTheOldest(s: Inner, c: Config, op: Op, now: Timestamp)
    requires Represents(s) && |s.order| == c.capacity > 0
    requires Writes(s, c, op, now) && op.key !in s.entries
    requires op.OpRemember? || Pruned(s, c.ttl, now) == s
    ensures var r := Applied(s, c, op, now);
      && s.order[0] !in r.entries && r.order == s.order[1..] + [op.key]
      && forall k :: k in s.entries && k != s.order[0] ==> k in r.entries && r.entries[k] == s.entries[k]
  {
    PushIntoFull(s, c.capacity, op.key, Entry(op.bodyHash, op.response, now));
    assert s.order[0] in Keys(s.order);
  }

  // ----- The window is no longer than the capacity -----

  lemma {:induction false} BehindPosition(order: seq<Key>, key: Key)
    requires key in order
    ensures KeysBehind(order, key) < |order| && order[|order| - 1 - KeysBehind(order, key)] == key
  {
    if Last(order) != key {
      BehindPosition(Front(order), key);
    }
  }

  /** Dropping keys that are not behind a key leaves as many behind it. */
  lemma {:induction false} BehindUnaffected(order: seq<Key>, gone: set<Key>, key: Key)
    requires key !in gone && KeysBehind(order, key) <= |order|
    requires forall j :: |order| - KeysBehind(order, key) <= j < |order| ==> order[j] !in gone
    ensures KeysBehind(WithoutKeys(order, gone), key) == KeysBehind(order, key)
  {
    if order != [] {
      var rest, k := WithoutKeys(Front(order), gone), Last(order);
      FrontLast(rest, k);
      if k != key {
        assert order[|order| - 1] !in gone;
        BehindUnaffected(Front(order), gone, key);
      }
    }
  }

  /** Dropping one key puts at most one key fewer behind another. */
  lemma {:induction false} BehindWithoutOne(order: seq<Key>, other: Key, key: Key)
    requires Distinct(order) && other != key
    ensures KeysBehind(WithoutKeys(order, {other}), key) + 1 >= KeysBehind(order, key)
  {
    if order != [] && Last(order) != key {
      var rest := Front(order);
      if Last(order) == other {
        WithoutAbsent(rest, {other});
      } else {
        BehindWithoutOne(rest, other, key);
        FrontLast(WithoutKeys(rest, {other}), Last(order));
      }
    }
  }

  lemma {:induction false} SuffixBehind(order: seq<Key>, key: Key, n: nat)
    requires n <= |order| && key in order[n..]
    ensures KeysBehind(order[n..], key) == KeysBehind(order, key)
  {
    var tail := order[n..];
    assert Last(tail) == Last(order);
    if Last(order) != key {
      assert Front(order)[n..] == Front(tail);
      SuffixBehind(Front(order), key, n);
    }
  }

  /** The key is gone or has at least `n` keys behind it. */
  ghost predicate Pushed(s: Inner, key: Key, n: nat) {
    key in s.entries ==> KeysBehind(s.order, key) >= n
  }

  /** While a key is alive, so is everything inserted after it. */
  lemma {:induction false} PrunePushed(s: Inner, ttl: nat, key: Key, n: nat, now: Timestamp)
    requires Represents(s) && Chronological(s, now) && Pushed(s, key, n)
    ensures Pushed(Pruned(s, ttl, now), key, n)
  {
    var gone := ExpiredKeys(s, ttl, now);
    if key in Pruned(s, ttl, now).entries {
      assert key in Keys(s.order);
      BehindPosition(s.order, key);
      var at := |s.order| - 1 - KeysBehind(s.order, key);
      forall j | at < j < |s.order| ensures s.order[j] !in gone {
        assert s.entries[s.order[at]].insertedAt <= s.entries[s.order[j]].insertedAt;
      }
      BehindUnaffected(s.order, gone, key);
    }
  }

  lemma {:induction false} EvictPushed(s: Inner, capacity: nat, key: Key, n: nat)
    requires Represents(s) && Pushed(s, key, n)
    ensures Pushed(Evicted(s, capacity), key, n)
  {
    var cut := |s.order| - capacity;
    if cut > 0 && key in Evicted(s, capacity).entries {
      assert key in Keys(s.order) && key !in Keys(s.order[..cut]);
      assert s.order == s.order[..cut] + s.order[cut..];
      SuffixBehind(s.order, key, cut);
    }
  }

  lemma {:induction false} InsertPushed(s: Inner, capacity: nat, key: Key, n: nat, other: Key, e: Entry)
    requires Represents(s) && Pushed(s, key, n) && other != key
    ensures Pushed(Inserted(s, capacity, other, e), key, if other in s.entries then n else n + 1)
  {
    var order := WithoutKeys(s.order, {other});
    PushRepresents(s, other, e);
    BehindPush(order, key, other);
    if other in s.entries {
      BehindWithoutOne(s.order, other, key);
    } else {
      assert other !in Keys(s.order);
      WithoutAbsent(s.order, {other});
    }
    EvictPushed(Inner(s.entries[other := e], order + [other]), capacity, key, if other in s.entries then n else n + 1);
  }

  /** The operation writes a key that the store does not hold. */
  predicate WritesNew(s: Inner, c: Config, op: Op, now: Timestamp) {
    Writes(s, c, op, now) && op.key !in (if op.OpRemember? then s else Pruned(s, c.ttl, now)).entries
  }

  lemma {:induction false} StepPushed(s: Inner, c: Config, op: Op, now: Timestamp, key: Key, n: nat)
    requires Represents(s) && Chronological(s, now) && Pushed(s, key, n)
    requires Writes(s, c, op, now) ==> op.key != key
    ensures Pushed(Applied(s, c, op, now), key, if WritesNew(s, c, op, now) then n + 1 else n)
  {
    var base := if op.OpRemember? then s else Pruned(s, c.ttl, now);
    PrunePushed(s, c.ttl, key, n, now);
    PrunedRepresents(s, c.ttl, now);
    if Writes(s, c, op, now) {
      InsertPushed(base, c.capacity, key, n, op.key, Entry(op.bodyHash, op.response, now));
    }
  }

  /** Writes of keys that were not in the store, along a run. */
  function NewWrites(s: Inner, c: Config, ops: seq<Timed>): nat {
    if ops == [] then 0
    else
      var t := Last(ops);
      NewWrites(s, c, Front(ops)) + if WritesNew(After(s, c, Front(ops)), c, t.op, t.at) then 1 else 0
  }

  /** No operation of the run writes the key; it may be looked up and retried at will. */
  predicate NeverWritten(s: Inner, c: Config, ops: seq<Timed>, key: Key) {
    ops == [] ||
    (var t := Last(ops);
     NeverWritten(s, c, Front(ops), key) && (Writes(After(s, c, Front(ops)), c, t.op, t.at) ==> t.op.key != key))
  }

  ghost predicate Sound(s: Inner, c: Config, now: Timestamp) {
    Represents(s) && |s.order| <= c.capacity && Chronological(s, now)
  }

  lemma {:induction false} RunPushed(s: Inner, c: Config, ops: seq<Timed>, from: Timestamp, key: Key)
    requires Sound(s, c, from) && ClockOk(ops, from)
    requires NeverWritten(s, c, ops, key)
    ensures Sound(After(s, c, ops), c, if ops == [] then from else Last(ops).at)
    ensures Pushed(After(s, c, ops), key, NewWrites(s, c, ops))
  {
    if ops != [] {
      var rest, t := Front(ops), Last(ops);
      RunPushed(s, c, rest, from, key);
      var mid, before := After(s, c, rest), if rest == [] then from else Last(rest).at;
      assert before <= t.at;
      StepRepresents(mid, c, t.op, before, t.at);
      assert Chronological(mid, t.at);
      StepPushed(mid, c, t.op, t.at, key, NewWrites(s, c, rest));
    }
  }

  /** The window is sharp, and retries do not stretch it: after any history, once at least `capacity` new keys were
      written and a given one was not, it is gone, however often it was looked up or retried meanwhile, and its next
      request is answered as fresh. */
  lemma {:induction false} WindowCloses(
    c: Config, history: seq<Timed>, later: seq<Timed>, retry: Timed, from: Timestamp, split: Timestamp)
    requires ClockOk(history, from) && from <= split && (history != [] ==> Last(history).at <= split)
    requires ClockOk(later, split)
    requires retry.op.OpCheckAndRemember? && NeverWritten(After(EMPTY, c, history), c, later, retry.op.key)
    requires NewWrites(After(EMPTY, c, history), c, later) >= c.capacity
    ensures Answer(After(After(EMPTY, c, history), c, later), c, retry.op, retry.at).Fresh?
  {
    StoreRepresents(c, history, from);
    var s := After(EMPTY, c, history);
    assert Chronological(s, split);
    RunPushed(s, c, later, split, retry.op.key);
    var b := After(s, c, later);
    if retry.op.key in b.entries {
      assert retry.op.key in Keys(b.order);
      BehindPosition(b.order, retry.op.key);
    }
  }

  // ----- Tenant scoping -----

  const NUL: char := '\0'

  function CompositeKey(tenant: Option<string>, endpoint: string, key: string): Key {
    match tenant
    case Some(t) => Key(t + [NUL] + endpoint + [NUL] + key)
    case None => Key(endpoint + [NUL] + key)
  }

  lemma {:induction false} LongerPieceDiffers(a: string, b: string, x: string, y: string)
    requires NUL !in b && |a| < |b|
    ensures a + [NUL] + x != b + [NUL] + y
  {
    assert (a + [NUL] + x)[|a|] == NUL;
    assert (b + [NUL] + y)[|a|] == b[|a|];
    assert b[|a|] in b;
  }

  /** Two strings without NUL, each followed by NUL and a rest, are equal only piece by piece. */
  lemma {:induction false} SplitAtNul(a: string, b: string, x: string, y: string)
    requires NUL !in a && NUL !in b && a + [NUL] + x == b + [NUL] + y
    ensures a == b && x == y
  {
    if |a| < |b| {
      LongerPieceDiffers(a, b, x, y);
    } else if |b| < |a| {
      LongerPieceDiffers(b, a, y, x);
    }
    var s := a + [NUL] + x;
    assert a == s[..|a|] && b == s[..|a|];
    assert x == s[|a| + 1..] && y == s[|a| + 1..];
  }

  /** With tenants and endpoints free of NUL, different requests never share an entry. */
  lemma {:induction false} TenantsNeverShare(t1: string, e1: string, k1: string, t2: string, e2: string, k2: string)
    requires NUL !in t1 && NUL !in t2 && NUL !in e1 && NUL !in e2
    ensures CompositeKey(Some(t1), e1, k1) == CompositeKey(Some(t2), e2, k2) <==> t1 == t2 && e1 == e2 && k1 == k2
  {
    var x1, x2 := e1 + [NUL] + k1, e2 + [NUL] + k2;
    assert CompositeKey(Some(t1), e1, k1).text == t1 + [NUL] + x1;
    assert CompositeKey(Some(t2), e2, k2).text == t2 + [NUL] + x2;
    if CompositeKey(Some(t1), e1, k1) == CompositeKey(Some(t2), e2, k2) {
      SplitAtNul(t1, t2, x1, x2);
      SplitAtNul(e1, e2, k1, k2);
    }
  }

  /** The key without a tenant is not scoped: it meets a tenant's key when its own key part holds a NUL. */
  lemma {:induction false} UnscopedKeysMeet(t: string, e: string, k: string)
    ensures CompositeKey(None, t, e + [NUL] + k) == CompositeKey(Some(t), e, k)
  {
    assert t + [NUL] + (e + [NUL] + k) == t + [NUL] + e + [NUL] + k;
  }
}
