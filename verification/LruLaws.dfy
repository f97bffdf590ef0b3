/** Laws of pyqgiswps/utils/lru.py over whole traces: a bigger cache always
    includes a smaller one, and the table is exactly the recent history. */
module LruLaws {
  import opened LruTable

  // ---- What every operation keeps --------------------------------------

  ghost predicate Valid<K, V>(t: Table<K, V>, capacity: nat) {
    Distinct(t) && |t| <= capacity
  }

  lemma WithoutFacts<K, V>(t: Table<K, V>, k: K)
    requires Distinct(t)
    ensures Distinct(Without(t, k)) && Keys(Without(t, k)) == Keys(t) - {k}
    ensures |Without(t, k)| == |t| - if k in Keys(t) then 1 else 0
  {
    OnlyDistinct(t, Keys(t) - {k});
    OnlyKeys(t, Keys(t) - {k});
    if k in Keys(t) {
      var i := IndexOf(t, k);
      WithoutAt(t, i);
    } else {
      WithoutAbsent(t, k);
    }
  }

  lemma NewestFacts<K, V>(t: Table<K, V>, n: nat)
    requires Distinct(t)
    ensures Distinct(Newest(t, n)) && Keys(Newest(t, n)) <= Keys(t)
    ensures |Newest(t, n)| == if |t| <= n then |t| else n
  {
    var d := |t| - |Newest(t, n)|;
    forall k | k in Keys(Newest(t, n)) ensures k in Keys(t) {
      var i := IndexOf(Newest(t, n), k);
      assert t[d + i].0 == k;
    }
  }

  lemma AppendFacts<K, V>(t: Table<K, V>, k: K, v: V)
    requires Distinct(t) && k !in Keys(t)
    ensures Distinct(t + [(k, v)]) && Keys(t + [(k, v)]) == Keys(t) + {k}
  {
    KeysConcat(t, [(k, v)]);
    KeysSingle((k, v));
    forall i | 0 <= i < |t| ensures t[i].0 != k {
      assert t[i].0 in Keys(t);
    }
  }

  lemma PutFacts<K, V>(t: Table<K, V>, capacity: nat, k: K, v: V)
    requires Distinct(t) && capacity > 0
    ensures Valid(Put(t, capacity, k, v), capacity)
    ensures k in Keys(Put(t, capacity, k, v)) && Find(Put(t, capacity, k, v), k) == v
  {
    WithoutFacts(t, k);
    NewestFacts(Without(t, k), capacity - 1);
    var t' := Put(t, capacity, k, v);
    AppendFacts(Newest(Without(t, k), capacity - 1), k, v);
    FindAt(t', |t'| - 1);
  }

  lemma TouchFacts<K, V>(t: Table<K, V>, k: K)
    requires Distinct(t) && k in Keys(t)
    ensures Distinct(Touch(t, k)) && |Touch(t, k)| == |t| && Keys(Touch(t, k)) == Keys(t)
  {
    WithoutFacts(t, k);
    AppendFacts(Without(t, k), k, Find(t, k));
  }

  lemma ApplyValid<K, V>(t: Table<K, V>, capacity: nat, op: Op<K, V>)
    requires Valid(t, capacity) && capacity > 0
    ensures Valid(Apply(t, capacity, op), capacity)
  {
    match op
    case Set(k, v) => PutFacts(t, capacity, k, v);
    case Get(k) => if k in Keys(t) { TouchFacts(t, k); }
    case Del(k) => WithoutFacts(t, k);
    case Clear =>
  }

  lemma {:induction false} RunValid<K, V>(capacity: nat, trace: seq<Op<K, V>>)
    requires capacity > 0
    ensures Valid(Run(capacity, trace), capacity)
  {
    if trace != [] {
      RunValid(capacity, trace[..|trace| - 1]);
      ApplyValid(Run(capacity, trace[..|trace| - 1]), capacity, trace[|trace| - 1]);
    }
  }

  /** A removal or a touch of one key keeps the value under every other. */
  lemma FindOther<K, V>(t: Table<K, V>, keep: set<K>, k: K)
    requires Distinct(t) && k in Keys(t) * keep
    ensures k in Keys(Only(t, keep)) && Find(Only(t, keep), k) == Find(t, k)
  {
    OnlyKeys(t, keep);
    OnlyDistinct(t, keep);
    var i := IndexOf(t, k);
    FindAt(t, i);
    assert t == t[..i] + ([t[i]] + t[i + 1..]);
    OnlyConcat(t[..i], [t[i]] + t[i + 1..], keep);
    OnlyConcat([t[i]], t[i + 1..], keep);
    OnlySingle(t[i], keep);
    assert Only(t, keep)[|Only(t[..i], keep)|] == t[i];
    FindAt(Only(t, keep), |Only(t[..i], keep)|);
  }

  lemma FindSuffix<K, V>(t: Table<K, V>, d: nat, k: K)
    requires Distinct(t) && d <= |t| && k in Keys(t[d..])
    ensures k in Keys(t) && Find(t[d..], k) == Find(t, k)
  {
    var i := IndexOf(t[d..], k);
    FindAt(t[d..], i);
    FindAt(t, d + i);
  }

  // ---- Inclusion -------------------------------------------------------

  /** The smaller cache holds a part of the bigger one, in the same order and
      with the same values, and lags by no more than the spare capacity. */
  ghost predicate Included<K, V>(small: Table<K, V>, big: Table<K, V>, m: nat, n: nat) {
    && Valid(small, m) && Valid(big, n)
    && Keys(small) <= Keys(big)
    && small == Only(big, Keys(small))
    && |big| - |small| <= n - m
  }

  /** Cutting the oldest entry of a part. */
  lemma PartTail<K, V>(a: Table<K, V>, b: Table<K, V>)
    requires Distinct(a) && Distinct(b) && a != [] && a == Only(b, Keys(a))
    ensures a[1..] == Only(b, Keys(a[1..]))
  {
    WithoutAt(a, 0);
    WithoutFacts(a, a[0].0);
    OnlyOnly(b, Keys(a), Keys(a[1..]));
    assert Keys(a) * Keys(a[1..]) == Keys(a[1..]);
    assert Without(a, a[0].0) == a[1..];
    OnlyAgree(a, Keys(a) - {a[0].0}, Keys(a[1..]));
  }

  /** Eviction before an insertion keeps the part relation. */
  lemma EvictIncluded<K, V>(a: Table<K, V>, b: Table<K, V>, m: nat, n: nat)
    requires 0 < m <= n && Included(a, b, m, n)
    ensures
      var a', b' := Newest(a, m - 1), Newest(b, n - 1);
      Included(a', b', m - 1, n - 1)
  {
    NewestFacts(a, m - 1);
    NewestFacts(b, n - 1);
    var a', b' := Newest(a, m - 1), Newest(b, n - 1);
    if |a| == m {
      PartTail(a, b);
      KeysCons(a);
    }
    assert a' == Only(b, Keys(a'));
    OnlyKeys(b, Keys(a'));
    if |b| == n {
      KeysCons(b);
      assert b == [b[0]] + b[1..];
      if b[0].0 in Keys(a) {
        assert Only(b, Keys(a))[0] == b[0];
        assert a == [b[0]] + a[1..];
        DistinctSplit([b[0]], a[1..]);
        KeysSingle(b[0]);
      }
      assert b[0].0 !in Keys(a');
      assert Only(b, Keys(a')) == Only(b', Keys(a'));
    }
  }

  lemma WithoutIncluded<K, V>(a: Table<K, V>, b: Table<K, V>, m: nat, n: nat, k: K)
    requires m <= n && Included(a, b, m, n)
    ensures Included(Without(a, k), Without(b, k), m, n)
  {
    WithoutFacts(a, k);
    WithoutFacts(b, k);
    OnlyOnly(b, Keys(a), Keys(a) - {k});
    OnlyOnly(b, Keys(b) - {k}, Keys(a) - {k});
    OnlyAgree(b, Keys(a) * (Keys(a) - {k}), (Keys(b) - {k}) * (Keys(a) - {k}));
  }

  lemma AppendIncluded<K, V>(a: Table<K, V>, b: Table<K, V>, m: nat, n: nat, k: K, v: V)
    requires m <= n && Included(a, b, m, n) && k !in Keys(b)
    ensures Included(a + [(k, v)], b + [(k, v)], m + 1, n + 1)
  {
    AppendFacts(a, k, v);
    AppendFacts(b, k, v);
    OnlyConcat(b, [(k, v)], Keys(a) + {k});
    OnlyAgree(b, Keys(a) + {k}, Keys(a));
    OnlyAll([(k, v)], Keys(a) + {k});
  }

  lemma ApplyIncluded<K, V>(a: Table<K, V>, b: Table<K, V>, m: nat, n: nat, op: Op<K, V>)
    requires 0 < m <= n && Included(a, b, m, n)
    ensures Included(Apply(a, m, op), Apply(b, n, op), m, n)
  {
    match op
    case Set(k, v) =>
      WithoutIncluded(a, b, m, n, k);
      WithoutFacts(b, k);
      EvictIncluded(Without(a, k), Without(b, k), m, n);
      NewestFacts(Without(b, k), n - 1);
      AppendIncluded(Newest(Without(a, k), m - 1), Newest(Without(b, k), n - 1), m - 1, n - 1, k, v);
    case Get(k) =>
      if k in Keys(a) {
        WithoutIncluded(a, b, m, n, k);
        WithoutFacts(a, k);
        WithoutFacts(b, k);
        FindOther(b, Keys(a), k);
        AppendIncluded(Without(a, k), Without(b, k), m, n, k, Find(b, k));
        TouchFacts(a, k);
        TouchFacts(b, k);
      } else if k in Keys(b) {
        WithoutIncluded(a, b, m, n, k);
        WithoutAbsent(a, k);
        TouchFacts(b, k);
        OnlyConcat(Without(b, k), [(k, Find(b, k))], Keys(a));
        OnlySingle((k, Find(b, k)), Keys(a));
      }
    case Del(k) => WithoutIncluded(a, b, m, n, k);
    case Clear =>
  }

  /** Run on the same operations, a cache of capacity m <= n holds at every
      moment a part of what a cache of capacity n holds. */
  lemma {:induction false} RunIncluded<K, V>(m: nat, n: nat, trace: seq<Op<K, V>>)
    requires 0 < m <= n
    ensures Included(Run(m, trace), Run(n, trace), m, n)
  {
    if trace != [] {
      var before, last := trace[..|trace| - 1], trace[|trace| - 1];
      RunIncluded(m, n, before);
      ApplyIncluded(Run(m, before), Run(n, before), m, n, last);
    }
  }

  // ---- Exactness -------------------------------------------------------

  ghost predicate Touches<K, V>(trace: seq<Op<K, V>>) {
    forall i :: 0 <= i < |trace| ==> trace[i].Set? || trace[i].Get?
  }

  /** Sets, and gets of keys the cache holds at that moment. */
  ghost predicate Successful<K, V>(capacity: nat, trace: seq<Op<K, V>>)
    requires capacity > 0
  {
    && Touches(trace)
    && forall i :: 0 <= i < |trace| && trace[i].Get? ==> trace[i].k in Keys(Run(capacity, trace[..i]))
  }

  /** The position of the last operation on a key, -1 when there is none. */
  ghost function LastTouch<K, V>(trace: seq<Op<K, V>>, k: K): int
    requires Touches(trace)
    ensures -1 <= LastTouch(trace, k) < |trace|
  {
    if trace == [] then -1
    else if trace[|trace| - 1].k == k then |trace| - 1
    else LastTouch(trace[..|trace| - 1], k)
  }

  /** The position of the last set of a key, -1 when there is none. */
  ghost function LastSet<K, V>(trace: seq<Op<K, V>>, k: K): (i: int)
    ensures -1 <= i < |trace|
    ensures i >= 0 ==> trace[i].Set? && trace[i].k == k
  {
    if trace == [] then -1
    else if trace[|trace| - 1].Set? && trace[|trace| - 1].k == k then |trace| - 1
    else LastSet(trace[..|trace| - 1], k)
  }

  /** The distinct keys touched at a position after `from`. */
  ghost function TouchedAfter<K, V>(trace: seq<Op<K, V>>, from: int): set<K>
    requires Touches(trace) && -1 <= from
  {
    set i | from < i < |trace| :: trace[i].k
  }

  /** An entry carries the last value set under its key. */
  ghost predicate Faithful<K, V>(e: (K, V), trace: seq<Op<K, V>>)
    requires Touches(trace)
  {
    && LastTouch(trace, e.0) >= 0
    && LastSet(trace, e.0) >= 0
    && e.1 == trace[LastSet(trace, e.0)].v
  }

  ghost predicate Earlier<K, V>(a: (K, V), b: (K, V), trace: seq<Op<K, V>>)
    requires Touches(trace)
  {
    LastTouch(trace, a.0) < LastTouch(trace, b.0)
  }

  /** The table lists touched keys by their last touch, with their last set value. */
  ghost predicate History<K, V>(r: Table<K, V>, trace: seq<Op<K, V>>)
    requires Touches(trace)
  {
    && Distinct(r)
    && (forall i :: 0 <= i < |r| ==> Faithful(r[i], trace))
    && (forall i, j :: 0 <= i < j < |r| ==> Earlier(r[i], r[j], trace))
  }

  /** What the trace leaves in a cache that never evicts. */
  ghost function Recent<K, V>(trace: seq<Op<K, V>>): Table<K, V> {
    if trace == [] then [] else
    var r, last := Recent(trace[..|trace| - 1]), trace[|trace| - 1];
    match last
    case Set(k, v) => Without(r, k) + [(k, v)]
    case Get(k) => if k in Keys(r) then Touch(r, k) else r
    case _ => r
  }

  /** Every key touched is in the unbounded table. */
  ghost predicate Complete<K(!new), V>(r: Table<K, V>, trace: seq<Op<K, V>>)
    requires Touches(trace)
  {
    forall k :: LastTouch(trace, k) >= 0 ==> k in Keys(r)
  }

  lemma LastStep<K, V>(trace: seq<Op<K, V>>, op: Op<K, V>, q: K)
    requires Touches(trace) && (op.Set? || op.Get?)
    ensures Touches(trace + [op])
    ensures LastTouch(trace + [op], q) == if q == op.k then |trace| else LastTouch(trace, q)
    ensures LastSet(trace + [op], q) == if op.Set? && q == op.k then |trace| else LastSet(trace, q)
  {
    assert (trace + [op])[..|trace|] == trace;
  }

  /** An operation on another key leaves an entry and its order alone. */
  lemma OthersStep<K, V>(trace: seq<Op<K, V>>, op: Op<K, V>, a: (K, V), b: (K, V))
    requires Touches(trace) && (op.Set? || op.Get?) && a.0 != op.k && b.0 != op.k
    ensures Touches(trace + [op])
    ensures Faithful(a, trace) ==> Faithful(a, trace + [op])
    ensures Earlier(a, b, trace) ==> Earlier(a, b, trace + [op])
  {
    LastStep(trace, op, a.0);
    LastStep(trace, op, b.0);
  }

  lemma HistoryWithout<K, V>(r: Table<K, V>, trace: seq<Op<K, V>>, op: Op<K, V>)
    requires Touches(trace) && History(r, trace) && (op.Set? || op.Get?)
    ensures Touches(trace + [op]) && History(Without(r, op.k), trace + [op])
  {
    var k, w, at := op.k, Without(r, op.k), |r|;
    LastStep(trace, op, k);
    WithoutFacts(r, k);
    if k in Keys(r) {
      at := IndexOf(r, k);
      WithoutAt(r, at);
    } else {
      WithoutAbsent(r, k);
    }
    forall i | 0 <= i < |w| ensures w[i] == r[if i < at then i else i + 1] && w[i].0 != k {
      assert w[i].0 in Keys(w);
    }
    forall i, j | 0 <= i <= j < |w|
      ensures Faithful(w[i], trace + [op]) && (i < j ==> Earlier(w[i], w[j], trace + [op]))
    {
      OthersStep(trace, op, w[i], w[j]);
    }
  }

  /** Moving a touched key to the end follows the history. */
  lemma HistoryStep<K(!new), V>(r: Table<K, V>, trace: seq<Op<K, V>>, op: Op<K, V>, v: V)
    requires Touches(trace) && History(r, trace) && Complete(r, trace)
    requires (op.Set? && v == op.v) || (op.Get? && op.k in Keys(r) && v == Find(r, op.k))
    ensures Touches(trace + [op])
    ensures
      var r' := Without(r, op.k) + [(op.k, v)];
      History(r', trace + [op]) && Complete(r', trace + [op])
  {
    var k, trace', w := op.k, trace + [op], Without(r, op.k);
    var r' := w + [(k, v)];
    HistoryWithout(r, trace, op);
    LastStep(trace, op, k);
    WithoutFacts(r, k);
    AppendFacts(w, k, v);
    assert Faithful((k, v), trace') by {
      if op.Get? {
        var at := IndexOf(r, k);
        FindAt(r, at);
        assert Faithful(r[at], trace);
      }
    }
    forall i | 0 <= i < |w| ensures Earlier(w[i], (k, v), trace') {
      assert w[i].0 in Keys(w);
      LastStep(trace, op, w[i].0);
    }
    forall q | LastTouch(trace', q) >= 0 ensures q in Keys(r') {
      LastStep(trace, op, q);
    }
  }

  lemma {:induction false} TouchedAfterIsLater<K, V>(trace: seq<Op<K, V>>, from: int, k: K)
    requires Touches(trace) && -1 <= from
    ensures k in TouchedAfter(trace, from) <==> LastTouch(trace, k) > from
  {
    if trace != [] {
      var n := |trace| - 1;
      TouchedAfterIsLater(trace[..n], from, k);
      if k in TouchedAfter(trace, from) && trace[n].k != k {
        var i :| from < i < |trace| && trace[i].k == k;
        assert trace[..n][i].k == k;
      }
      if k in TouchedAfter(trace[..n], from) {
        var i :| from < i < n && trace[..n][i].k == k;
        assert trace[i].k == k;
      }
      if trace[n].k == k && from < n {
        assert trace[n].k in TouchedAfter(trace, from);
      }
    }
  }

  lemma NewestConcat<K, V>(a: Table<K, V>, b: Table<K, V>, n: nat)
    requires a == [] || |b| >= n
    ensures Newest(a + b, n) == Newest(b, n)
  {
    if a == [] { assert a + b == b; }
  }

  lemma NewestAppend<K, V>(t: Table<K, V>, n: nat, e: (K, V))
    requires n > 0
    ensures Newest(t + [e], n) == Newest(t, n - 1) + [e]
  {}

  /** Moving a key to the end commutes with forgetting the oldest entries. */
  lemma NewestOfMoved<K, V>(r: Table<K, V>, capacity: nat, k: K, v: V)
    requires Distinct(r) && capacity > 0
    ensures Newest(Without(r, k) + [(k, v)], capacity) == Put(Newest(r, capacity), capacity, k, v)
  {
    var t := Newest(r, capacity);
    var aged := r[..|r| - |t|];
    assert r == aged + t && (aged == [] || |t| == capacity);
    hide Newest, Without, Keys, Distinct;
    NewestFacts(r, capacity);
    WithoutConcat(aged, t, k);
    WithoutFacts(t, k);
    NewestAppend(Without(r, k), capacity, (k, v));
    if aged == [] {
      WithoutFacts(aged, k);
    }
    NewestConcat(Without(aged, k), Without(t, k), capacity - 1);
  }

  /** The rewrite of a held entry is a touch: nothing is evicted. */
  lemma RewriteIsTouch<K, V>(t: Table<K, V>, capacity: nat, k: K)
    requires capacity > 0 && Valid(t, capacity) && k in Keys(t)
    ensures Put(t, capacity, k, Find(t, k)) == Touch(t, k)
  {
    WithoutFacts(t, k);
    hide Without, Keys, Find, Distinct;
  }

  /** One set or successful get, on the bounded and the unbounded table. */
  lemma RecentStep<K(!new), V>(capacity: nat, r: Table<K, V>, op: Op<K, V>)
    requires capacity > 0 && Distinct(r)
    requires op.Set? || (op.Get? && op.k in Keys(Newest(r, capacity)))
    ensures op.Get? ==> op.k in Keys(r)
    ensures Apply(Newest(r, capacity), capacity, op)
         == Newest(Without(r, op.k) + [(op.k, if op.Set? then op.v else Find(r, op.k))], capacity)
  {
    hide Newest, Without, Keys, Find, Distinct, Put, Touch;
    if op.Set? {
      NewestOfMoved(r, capacity, op.k, op.v);
    } else {
      RecentGet(capacity, r, op.k);
    }
  }

  lemma RecentGet<K(!new), V>(capacity: nat, r: Table<K, V>, k: K)
    requires capacity > 0 && Distinct(r) && k in Keys(Newest(r, capacity))
    ensures k in Keys(r) && Touch(Newest(r, capacity), k) == Newest(Without(r, k) + [(k, Find(r, k))], capacity)
  {
    var t := Newest(r, capacity);
    assert t == r[|r| - |t|..];
    hide Newest, Without, Keys, Find, Distinct, Put, Touch;
    NewestFacts(r, capacity);
    FindSuffix(r, |r| - |t|, k);
    NewestOfMoved(r, capacity, k, Find(r, k));
    RewriteIsTouch(t, capacity, k);
  }

  lemma SuccessfulBefore<K(!new), V>(capacity: nat, before: seq<Op<K, V>>, op: Op<K, V>)
    requires capacity > 0 && Successful(capacity, before + [op])
    ensures Successful(capacity, before) && (op.Set? || (op.Get? && op.k in Keys(Run(capacity, before))))
  {
    var trace := before + [op];
    assert before == trace[..|before|] && op == trace[|before|];
    assert forall i :: 0 <= i < |before| ==> before[i] == trace[i] && before[..i] == trace[..i];
    hide Run;
  }

  /** The value an operation leaves under its key. */
  ghost function ValueAfter<K, V>(r: Table<K, V>, op: Op<K, V>): V
    requires op.Set? || (op.Get? && op.k in Keys(r))
  {
    if op.Set? then op.v else Find(r, op.k)
  }

  lemma LastOf<K(!new), V>(capacity: nat, before: seq<Op<K, V>>, op: Op<K, V>)
    requires capacity > 0 && (op.Set? || (op.Get? && op.k in Keys(Recent(before))))
    ensures Run(capacity, before + [op]) == Apply(Run(capacity, before), capacity, op)
    ensures Recent(before + [op]) == Without(Recent(before), op.k) + [(op.k, ValueAfter(Recent(before), op))]
  {
    hide Apply, Without, Find, Keys;
    assert (before + [op])[..|before|] == before;
  }

  lemma {:induction false} RunIsNewestRecent<K(!new), V>(capacity: nat, trace: seq<Op<K, V>>)
    requires capacity > 0 && Successful(capacity, trace)
    ensures History(Recent(trace), trace) && Complete(Recent(trace), trace)
    ensures Run(capacity, trace) == Newest(Recent(trace), capacity)
  {
    if trace != [] {
      var n := |trace| - 1;
      var before, op := trace[..n], trace[n];
      assert trace == before + [op];
      hide Successful, Complete, Keys, Newest, Without, Find, Distinct, Run, Recent, Apply, Faithful, Earlier;
      SuccessfulBefore(capacity, before, op);
      RunIsNewestRecent(capacity, before);
      var r := Recent(before);
      RecentStep(capacity, r, op);
      LastOf(capacity, before, op);
      HistoryStep(r, before, op, ValueAfter(r, op));
    }
  }

  lemma KeysOfTail<K, V>(r: Table<K, V>, i: nat)
    requires Distinct(r) && i <= |r|
    ensures |Keys(r[i..])| == |r| - i
    decreases |r| - i
  {
    if i < |r| {
      KeysOfTail(r, i + 1);
      KeysCons(r[i..]);
      assert r[i..][1..] == r[i + 1..];
      assert r[i].0 !in Keys(r[i + 1..]);
    }
  }

  lemma TailIsTouchedAfter<K(!new), V>(r: Table<K, V>, trace: seq<Op<K, V>>, i: nat)
    requires Touches(trace) && History(r, trace) && Complete(r, trace) && i < |r|
    ensures TouchedAfter(trace, LastTouch(trace, r[i].0)) == Keys(r[i + 1..])
  {
    var from := LastTouch(trace, r[i].0);
    forall k ensures k in TouchedAfter(trace, from) <==> k in Keys(r[i + 1..]) {
      TouchedAfterIsLater(trace, from, k);
      if LastTouch(trace, k) > from {
        var j := IndexOf(r, k);
        assert r[i + 1..][j - i - 1].0 == k;
      } else {
        assert forall j :: i < j < |r| ==> Earlier(r[i], r[j], trace);
      }
    }
  }

  /** A key survives the cut to `n` entries when fewer than `n` follow it. */
  lemma NewestKeys<K, V>(r: Table<K, V>, n: nat, i: nat)
    requires Distinct(r) && i < |r|
    ensures r[i].0 in Keys(Newest(r, n)) <==> |Keys(r[i + 1..])| < n
  {
    KeysOfTail(r, i + 1);
    var t := Newest(r, n);
    var d := |r| - |t|;
    if i >= d {
      assert t[i - d].0 == r[i].0;
    } else {
      assert forall j :: 0 <= j < |t| ==> t[j] == r[d + j] && r[d + j].0 != r[i].0;
    }
  }

  lemma HistoryAt<K, V>(r: Table<K, V>, trace: seq<Op<K, V>>, i: nat)
    requires Touches(trace) && History(r, trace) && i < |r|
    ensures Faithful(r[i], trace)
    ensures forall j :: i < j < |r| ==> Earlier(r[i], r[j], trace)
  {}

  lemma HistoryFrom<K, V>(t: Table<K, V>, trace: seq<Op<K, V>>)
    requires Touches(trace) && Distinct(t)
    requires forall i :: 0 <= i < |t| ==>
      Faithful(t[i], trace) && forall j :: i < j < |t| ==> Earlier(t[i], t[j], trace)
    ensures History(t, trace)
  {}

  lemma HistoryOfNewest<K(!new), V>(r: Table<K, V>, trace: seq<Op<K, V>>, n: nat)
    requires Touches(trace) && History(r, trace)
    ensures History(Newest(r, n), trace)
  {
    var t := Newest(r, n);
    var d := |r| - |t|;
    assert t == r[d..];
    NewestFacts(r, n);
    hide History, Faithful, Earlier, Newest, Keys, Distinct;
    forall i | 0 <= i < |t|
      ensures Faithful(t[i], trace) && forall j :: i < j < |t| ==> Earlier(t[i], t[j], trace)
    {
      HistoryAt(r, trace, d + i);
      forall j | i < j < |t| ensures Earlier(t[i], t[j], trace) {
        assert t[j] == r[d + j];
      }
    }
    HistoryFrom(t, trace);
  }

  lemma NewestKeysOf<K(!new), V>(r: Table<K, V>, trace: seq<Op<K, V>>, n: nat, k: K)
    requires Touches(trace) && History(r, trace) && Complete(r, trace)
    ensures k in Keys(Newest(r, n)) <==>
      LastTouch(trace, k) >= 0 && |TouchedAfter(trace, LastTouch(trace, k))| < n
  {
    NewestFacts(r, n);
    if k in Keys(r) {
      var i := IndexOf(r, k);
      TailIsTouchedAfter(r, trace, i);
      NewestKeys(r, n, i);
      assert Faithful(r[i], trace);
    }
  }

  /** After sets and successful gets, the table holds exactly the keys followed
      by fewer than `capacity` other distinct keys, oldest touch first, each
      with its last set value. */
  lemma Exactness<K(!new), V>(capacity: nat, trace: seq<Op<K, V>>)
    requires capacity > 0 && Successful(capacity, trace)
    ensures History(Run(capacity, trace), trace)
    ensures forall k :: k in Keys(Run(capacity, trace)) <==>
      LastTouch(trace, k) >= 0 && |TouchedAfter(trace, LastTouch(trace, k))| < capacity
  {
    hide History, Complete, Keys, Newest, Run, Recent, TouchedAfter, LastTouch;
    RunIsNewestRecent(capacity, trace);
    HistoryOfNewest(Recent(trace), trace, capacity);
    forall k ensures k in Keys(Run(capacity, trace)) <==>
      LastTouch(trace, k) >= 0 && |TouchedAfter(trace, LastTouch(trace, k))| < capacity
    {
      NewestKeysOf(Recent(trace), trace, capacity, k);
    }
  }

  // ---- Deletions -------------------------------------------------------

  /** A deletion cuts one entry out of its place; of a missing key, or when all is
      cleared, there is nothing more to say. */
  lemma DelCuts<K, V>(t: Table<K, V>, capacity: nat, k: K)
    requires capacity > 0 && Distinct(t)
    ensures k !in Keys(t) ==> Apply(t, capacity, Op.Del(k)) == t
    ensures forall i :: 0 <= i < |t| && t[i].0 == k ==> Apply(t, capacity, Op.Del(k)) == t[..i] + t[i + 1..]
    ensures Apply(t, capacity, Op<K, V>.Clear) == []
  {
    if k !in Keys(t) { WithoutAbsent(t, k); }
    forall i | 0 <= i < |t| && t[i].0 == k ensures Without(t, k) == t[..i] + t[i + 1..] {
      WithoutAt(t, i);
    }
  }

  // ---- Entries set together ---------------------------------------------

  function SetAll<K(==), V>(t: Table<K, V>, capacity: nat, entries: seq<(K, V)>): Table<K, V>
    requires capacity > 0
  {
    if entries == [] then t
    else
      var n := |entries| - 1;
      Apply(SetAll(t, capacity, entries[..n]), capacity, Op.Set(entries[n].0, entries[n].1))
  }

  function GetAll<K(==), V>(t: Table<K, V>, capacity: nat, keys: seq<K>): Table<K, V>
    requires capacity > 0
  {
    if keys == [] then t
    else Apply(GetAll(t, capacity, keys[..|keys| - 1]), capacity, Op.Get(keys[|keys| - 1]))
  }

  lemma {:induction false} SetAllValid<K, V>(t: Table<K, V>, capacity: nat, entries: seq<(K, V)>)
    requires capacity > 0 && Valid(t, capacity)
    ensures Valid(SetAll(t, capacity, entries), capacity)
  {
    if entries != [] {
      var n := |entries| - 1;
      SetAllValid(t, capacity, entries[..n]);
      ApplyValid(SetAll(t, capacity, entries[..n]), capacity, Op.Set(entries[n].0, entries[n].1));
    }
  }

  /** A removal moves no other entry away from the end. */
  lemma NewestWithout<K, V>(t: Table<K, V>, n: nat, k: K, x: K)
    requires Distinct(t) && x in Keys(Newest(t, n)) && x != k
    ensures x in Keys(Newest(Without(t, k), n))
  {
    var newest, u := Newest(t, n), Without(t, k);
    var d := |t| - |newest|;
    var at0 := IndexOf(newest, x);
    var j := d + at0;
    assert t[j].0 == x;
    if k in Keys(t) {
      var i := IndexOf(t, k);
      WithoutAt(t, i);
      var at := if j < i then j else j - 1;
      assert u[at] == t[j] && |u| - at <= n;
      assert Newest(u, n)[at - (|u| - |Newest(u, n)|)].0 == x;
    } else {
      WithoutAbsent(t, k);
    }
  }

  /** The newest `n` entries are among the newest `n + 1` after a set. */
  lemma SetStays<K, V>(t: Table<K, V>, capacity: nat, n: nat, k: K, v: V)
    requires Valid(t, capacity) && n < capacity
    ensures Keys(Newest(t, n)) + {k} <= Keys(Newest(Put(t, capacity, k, v), n + 1))
  {
    var u := Without(t, k);
    var kept := Newest(u, capacity - 1);
    assert Put(t, capacity, k, v) == kept + [(k, v)];
    NewestAppend(kept, n + 1, (k, v));
    assert Newest(kept, n) == Newest(u, n);
    KeysConcat(Newest(u, n), [(k, v)]);
    KeysSingle((k, v));
    hide Newest, Without, Keys, Put;
    forall x | x in Keys(Newest(t, n)) && x != k ensures x in Keys(Newest(u, n)) {
      NewestWithout(t, n, k, x);
    }
  }

  /** Entries set together are all held, as long as they fit. */
  lemma {:induction false} SetAllHolds<K, V>(t: Table<K, V>, capacity: nat, entries: seq<(K, V)>)
    requires capacity > 0 && Valid(t, capacity) && |entries| <= capacity
    ensures forall i :: 0 <= i < |entries| ==>
      entries[i].0 in Keys(Newest(SetAll(t, capacity, entries), |entries|))
  {
    if entries != [] {
      hide Newest, Keys, Put, Valid;
      var n := |entries| - 1;
      var before := entries[..n];
      var earlier := SetAll(t, capacity, before);
      assert SetAll(t, capacity, entries) == Put(earlier, capacity, entries[n].0, entries[n].1);
      hide SetAll;
      SetAllHolds(t, capacity, before);
      SetAllValid(t, capacity, before);
      SetStays(earlier, capacity, n, entries[n].0, entries[n].1);
      forall i | 0 <= i < |entries| ensures entries[i].0 in Keys(Newest(SetAll(t, capacity, entries), |entries|)) {
        if i < n { assert before[i] == entries[i] && before[i].0 in Keys(Newest(earlier, n)); }
      }
    }
  }
}
