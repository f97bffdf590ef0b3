/** pyqgiswps/utils/lru.py: `lrucache`, an OrderedDict kept in recency order. */
module LruCaches {
  import opened Wrappers
  import opened LruTable
  import opened LruLaws

  class LruCache<K(==), V> {
    var table: Table<K, V>
    var capacity: int

    ghost predicate Valid()
      reads this
    {
      0 < capacity && LruLaws.Valid(table, capacity)
    }

    /** `size > 0` is the source's own asserted precondition. */
    constructor (size: int)
      requires size > 0
      ensures Valid() && table == [] && capacity == size
    {
      table, capacity := [], size;
    }

    method Clear()
      requires Valid()
      modifies this`table
      ensures Valid() && table == Apply(old(table), capacity, Op.Clear)
    {
      table := [];
    }

    predicate Contains(k: K)
      reads this
    {
      k in Keys(table)
    }

    /** A lookup that leaves the order alone. */
    function Peek(k: K): (r: Option<V>)
      reads this
      requires Valid()
      ensures r.Some? <==> k in Keys(table)
      ensures r.Some? ==> exists i :: 0 <= i < |table| && table[i] == (k, r.value)
    {
      if k in Keys(table) then
        FindIsEntry(table, k);
        Some(Find(table, k))
      else None
    }

    /** `None` is the source's KeyError. */
    method GetItem(k: K) returns (r: Option<V>)
      requires Valid()
      modifies this`table
      ensures Valid() && table == Apply(old(table), capacity, Op.Get(k))
      ensures r == old(Peek(k))
      ensures r.Some? ==> table != [] && table[|table| - 1] == (k, r.value)
    {
      ApplyValid(table, capacity, Op.Get(k));
      if k in Keys(table) {
        table := Touch(table, k);
        r := Some(table[|table| - 1].1);
      } else {
        r := None;
      }
    }

    method SetItem(k: K, v: V)
      requires Valid()
      modifies this`table
      ensures Valid() && table == Apply(old(table), capacity, Op.Set(k, v))
      ensures Peek(k) == Some(v)
    {
      PutFacts(table, capacity, k, v);
      WithoutAbsent'(table, k);
      if k in Keys(table) {
        table := Without(table, k);
      }
      ghost var start := table;
      while |table| >= capacity
        invariant |table| <= |start| && table == start[|start| - |table|..]
        invariant |start| < capacity ==> |table| == |start|
        invariant |start| >= capacity ==> |table| >= capacity - 1
      {
        table := table[1..];
      }
      table := table + [(k, v)];
    }

    /** False is the source's KeyError. */
    method DelItem(k: K) returns (ok: bool)
      requires Valid()
      modifies this`table
      ensures Valid() && table == Apply(old(table), capacity, Op.Del(k))
      ensures ok == (k in Keys(old(table)))
    {
      ApplyValid(table, capacity, Op.Del(k));
      WithoutAbsent'(table, k);
      ok := k in Keys(table);
      if ok {
        table := Without(table, k);
      }
    }

    /** False is the source's failed precondition. */
    method Resize(size: int) returns (ok: bool)
      requires Valid()
      modifies this
      ensures Valid() && ok == (size > 0)
      ensures ok ==> capacity == size && table == Newest(old(table), size)
      ensures !ok ==> capacity == old(capacity) && table == old(table)
    {
      ok := size > 0;
      if ok {
        NewestFacts(table, size);
        if size < capacity {
          ghost var start := table;
          while |table| > size
            invariant |table| <= |start| && table == start[|start| - |table|..]
            invariant |start| <= size ==> |table| == |start|
            invariant |start| > size ==> |table| >= size
          {
            table := table[1..];
          }
        }
        capacity := size;
      }
    }
  }

  lemma FindIsEntry<K, V>(t: Table<K, V>, k: K)
    requires Distinct(t) && k in Keys(t)
    ensures exists i :: 0 <= i < |t| && t[i] == (k, Find(t, k))
  {
    var i := IndexOf(t, k);
    FindAt(t, i);
    assert t[i] == (k, Find(t, k));
  }

  lemma WithoutAbsent'<K, V>(t: Table<K, V>, k: K)
    ensures k !in Keys(t) ==> Without(t, k) == t
  {
    if k !in Keys(t) { WithoutAbsent(t, k); }
  }
}
