/**
 * The number of entries buffered across all per-partition write queues:
 * the sum of the queue lengths over the keys of a map. Used by the router's
 * counting invariant.
 */
module QueueTotal {

  /** Sum of the lengths of the queues stored under `keys`. */
  ghost function TotalOver<K, V>(q: map<K, seq<V>>, keys: set<K>): nat
    requires keys <= q.Keys
    decreases keys
  {
    if keys == {} then 0
    else
      var k :| k in keys;
      |q[k]| + TotalOver(q, keys - {k})
  }

  /** Number of entries in all queues of `q`. */
  ghost function Total<K, V>(q: map<K, seq<V>>): nat {
    TotalOver(q, q.Keys)
  }

  /** Any key can be taken out first, whatever key the definition picks. */
  lemma {:induction false} TotalOverRemove<K, V>(q: map<K, seq<V>>, keys: set<K>, k: K)
    requires keys <= q.Keys && k in keys
    ensures TotalOver(q, keys) == |q[k]| + TotalOver(q, keys - {k})
    decreases keys
  {
    var j :| j in keys && TotalOver(q, keys) == |q[j]| + TotalOver(q, keys - {j});
    if j != k {
      TotalOverRemove(q, keys - {j}, k);
      TotalOverRemove(q, keys - {k}, j);
      assert keys - {j} - {k} == keys - {k} - {j};
    }
  }

  /** The sum over `keys` depends only on the queue lengths under `keys`. */
  lemma {:induction false} TotalOverFrame<K, V>(q: map<K, seq<V>>, q': map<K, seq<V>>, keys: set<K>)
    requires keys <= q.Keys && keys <= q'.Keys
    requires forall k :: k in keys ==> |q[k]| == |q'[k]|
    ensures TotalOver(q, keys) == TotalOver(q', keys)
    decreases keys
  {
    if keys != {} {
      var k :| k in keys;
      TotalOverRemove(q, keys, k);
      TotalOverRemove(q', keys, k);
      TotalOverFrame(q, q', keys - {k});
    }
  }

  /** Replacing (or adding) the queue under `k` changes the total by the
      difference in that queue's length. */
  lemma TotalUpdate<K, V>(q: map<K, seq<V>>, k: K, s: seq<V>)
    ensures Total(q[k := s]) + (if k in q then |q[k]| else 0) == Total(q) + |s|
  {
    var q' := q[k := s];
    var rest := q.Keys - {k};
    assert q'.Keys == rest + {k};
    TotalOverRemove(q', q'.Keys, k);
    assert q'.Keys - {k} == rest;
    TotalOverFrame(q, q', rest);
    if k in q {
      TotalOverRemove(q, q.Keys, k);
      assert q.Keys - {k} == rest;
    } else {
      assert q.Keys == rest;
    }
  }

  /** Every single queue is bounded by the total; in particular a zero total
      means every queue is empty. */
  lemma QueueBelowTotal<K, V>(q: map<K, seq<V>>, k: K)
    requires k in q
    ensures |q[k]| <= Total(q)
  {
    TotalOverRemove(q, q.Keys, k);
  }
}
