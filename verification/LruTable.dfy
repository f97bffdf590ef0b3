/** The ordered table of pyqgiswps/utils/lru.py as a value: a sequence of
    (key, value) entries from the least to the most recently used, with the
    laws that hold over whole traces of operations. */
module LruTable {

  type Table<K, V> = seq<(K, V)>

  ghost predicate Distinct<K, V>(t: Table<K, V>) {
    forall i, j :: 0 <= i < j < |t| ==> t[i].0 != t[j].0
  }

  function Keys<K(==), V>(t: Table<K, V>): set<K> {
    set i | 0 <= i < |t| :: t[i].0
  }

  /** The entries whose key is in `keep`, in their order. */
  function Only<K(==), V>(t: Table<K, V>, keep: set<K>): Table<K, V> {
    if t == [] then []
    else if t[0].0 in keep then [t[0]] + Only(t[1..], keep)
    else Only(t[1..], keep)
  }

  function Without<K(==), V>(t: Table<K, V>, k: K): Table<K, V> {
    Only(t, Keys(t) - {k})
  }

  /** The `n` most recently used entries. */
  function Newest<K, V>(t: Table<K, V>, n: nat): Table<K, V> {
    if |t| <= n then t else t[|t| - n..]
  }

  /** The value stored under a key. */
  function Find<K(==), V>(t: Table<K, V>, k: K): V
    requires k in Keys(t)
  {
    if t[0].0 == k then t[0].1 else Find(t[1..], k)
  }

  function Put<K(==), V>(t: Table<K, V>, capacity: nat, k: K, v: V): Table<K, V>
    requires capacity > 0
  {
    Newest(Without(t, k), capacity - 1) + [(k, v)]
  }

  function Touch<K(==), V>(t: Table<K, V>, k: K): Table<K, V>
    requires k in Keys(t)
  {
    Without(t, k) + [(k, Find(t, k))]
  }

  /** One operation on the table. `Get` and `Del` of a missing key raise and
      leave the table alone. */
  datatype Op<K, V> = Set(k: K, v: V) | Get(k: K) | Del(k: K) | Clear

  function Apply<K(==), V>(t: Table<K, V>, capacity: nat, op: Op<K, V>): Table<K, V>
    requires capacity > 0
  {
    match op
    case Set(k, v) => Put(t, capacity, k, v)
    case Get(k) => if k in Keys(t) then Touch(t, k) else t
    case Del(k) => Without(t, k)
    case Clear => []
  }

  function Run<K(==), V>(capacity: nat, trace: seq<Op<K, V>>): Table<K, V>
    requires capacity > 0
  {
    if trace == [] then [] else Apply(Run(capacity, trace[..|trace| - 1]), capacity, trace[|trace| - 1])
  }

  // ---- Algebra of Only -------------------------------------------------

  lemma IndexOf<K, V>(t: Table<K, V>, k: K) returns (i: nat)
    requires k in Keys(t)
    ensures i < |t| && t[i].0 == k
  {
    i :| 0 <= i < |t| && t[i].0 == k;
  }

  lemma KeysConcat<K, V>(a: Table<K, V>, b: Table<K, V>)
    ensures Keys(a + b) == Keys(a) + Keys(b)
  {
    forall k ensures k in Keys(a + b) <==> k in Keys(a) + Keys(b) {
      if k in Keys(a) { var i := IndexOf(a, k); assert (a + b)[i].0 == k; }
      if k in Keys(b) { var i := IndexOf(b, k); assert (a + b)[|a| + i].0 == k; }
    }
  }

  lemma KeysCons<K, V>(t: Table<K, V>)
    requires t != []
    ensures Keys(t) == {t[0].0} + Keys(t[1..])
  {
    assert t == [t[0]] + t[1..];
    KeysConcat([t[0]], t[1..]);
    assert Keys([t[0]]) == {t[0].0};
  }

  lemma {:induction false} OnlyKeys<K, V>(t: Table<K, V>, keep: set<K>)
    ensures Keys(Only(t, keep)) == Keys(t) * keep
    ensures |Only(t, keep)| <= |t|
  {
    if t != [] {
      OnlyKeys(t[1..], keep);
      KeysCons(t);
      if t[0].0 in keep {
        assert Only(t, keep)[1..] == Only(t[1..], keep);
        KeysCons(Only(t, keep));
      }
    }
  }

  lemma {:induction false} OnlyDistinct<K, V>(t: Table<K, V>, keep: set<K>)
    requires Distinct(t)
    ensures Distinct(Only(t, keep))
  {
    if t != [] {
      OnlyDistinct(t[1..], keep);
      OnlyKeys(t[1..], keep);
      var rest := Only(t[1..], keep);
      forall j | 0 <= j < |rest| ensures rest[j].0 != t[0].0 {
        assert rest[j].0 in Keys(rest);
        var i := IndexOf(t[1..], rest[j].0);
      }
    }
  }

  lemma OnlySingle<K, V>(e: (K, V), keep: set<K>)
    ensures Only([e], keep) == if e.0 in keep then [e] else []
  {
    assert [e][0] == e && [e][1..] == [];
  }

  lemma {:induction false} OnlyConcat<K, V>(a: Table<K, V>, b: Table<K, V>, keep: set<K>)
    ensures Only(a + b, keep) == Only(a, keep) + Only(b, keep)
  {
    if a == [] {
      assert a + b == b;
    } else {
      assert (a + b)[1..] == a[1..] + b;
      OnlyConcat(a[1..], b, keep);
    }
  }

  lemma {:induction false} OnlyAgree<K, V>(t: Table<K, V>, a: set<K>, b: set<K>)
    requires forall k :: k in Keys(t) ==> (k in a <==> k in b)
    ensures Only(t, a) == Only(t, b)
  {
    if t != [] {
      KeysCons(t);
      OnlyAgree(t[1..], a, b);
    }
  }

  lemma {:induction false} OnlyAll<K, V>(t: Table<K, V>, keep: set<K>)
    requires Keys(t) <= keep
    ensures Only(t, keep) == t
  {
    if t != [] {
      KeysCons(t);
      OnlyAll(t[1..], keep);
    }
  }

  lemma {:induction false} OnlyOnly<K, V>(t: Table<K, V>, a: set<K>, b: set<K>)
    ensures Only(Only(t, a), b) == Only(t, a * b)
  {
    if t != [] {
      OnlyOnly(t[1..], a, b);
    }
  }

  lemma WithoutConcat<K, V>(a: Table<K, V>, b: Table<K, V>, k: K)
    ensures Without(a + b, k) == Without(a, k) + Without(b, k)
  {
    KeysConcat(a, b);
    OnlyConcat(a, b, Keys(a + b) - {k});
    OnlyAgree(a, Keys(a + b) - {k}, Keys(a) - {k});
    OnlyAgree(b, Keys(a + b) - {k}, Keys(b) - {k});
  }

  lemma WithoutAbsent<K, V>(t: Table<K, V>, k: K)
    requires k !in Keys(t)
    ensures Without(t, k) == t
  {
    OnlyAll(t, Keys(t) - {k});
  }

  lemma DistinctSplit<K, V>(a: Table<K, V>, b: Table<K, V>)
    requires Distinct(a + b)
    ensures Distinct(a) && Distinct(b) && Keys(a) !! Keys(b)
  {
    var t := a + b;
    assert a == t[..|a|] && b == t[|a|..];
    forall i, j | 0 <= i < |a| && 0 <= j < |b| ensures a[i].0 != b[j].0 {
      assert t[i] == a[i] && t[|a| + j] == b[j];
    }
  }

  lemma KeysSingle<K, V>(e: (K, V))
    ensures Keys([e]) == {e.0}
  {
    assert [e][0].0 == e.0;
  }

  /** With distinct keys, a removal is the cut of one position. */
  lemma WithoutAt<K, V>(t: Table<K, V>, i: nat)
    requires Distinct(t) && i < |t|
    ensures Without(t, t[i].0) == t[..i] + t[i + 1..]
  {
    var a, e, b := t[..i], t[i], t[i + 1..];
    assert t == a + ([e] + b);
    hide Distinct, Without, Keys;
    DistinctSplit(a, [e] + b);
    DistinctSplit([e], b);
    WithoutMiddle(a, e, b);
  }

  lemma WithoutMiddle<K, V>(a: Table<K, V>, e: (K, V), b: Table<K, V>)
    requires Keys(a) !! Keys([e] + b) && Keys([e]) !! Keys(b)
    ensures Without(a + ([e] + b), e.0) == a + b
  {
    KeysConcat([e], b);
    KeysSingle(e);
    WithoutAbsent(a, e.0);
    WithoutAbsent(b, e.0);
    OnlySingle(e, Keys([e]) - {e.0});
    assert Without([e], e.0) == [];
    hide Without, Keys;
    WithoutConcat(a, [e] + b, e.0);
    WithoutConcat([e], b, e.0);
  }

  lemma {:induction false} FindAt<K, V>(t: Table<K, V>, i: nat)
    requires Distinct(t) && i < |t|
    ensures t[i].0 in Keys(t) && Find(t, t[i].0) == t[i].1
  {
    assert t[i].0 in Keys(t);
    if i > 0 {
      FindAt(t[1..], i - 1);
      assert t[0].0 != t[i].0;
    }
  }
}
