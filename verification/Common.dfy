/** Shared value types and counting. */
module Common {
  datatype Option<+T> = None | Some(value: T)

  predicate Distinct<T(==)>(s: seq<T>) {
    forall i, j :: 0 <= i < j < |s| ==> s[i] != s[j]
  }

  /** The keys whose values satisfy `p`. */
  function Having<K, V>(m: map<K, V>, p: V -> bool): set<K> {
    set k | k in m && p(m[k])
  }

  lemma HavingUpdate<K, V>(m: map<K, V>, k: K, v: V, p: V -> bool)
    ensures |Having(m[k := v], p)| == |Having(m, p)|
              - (if k in m && p(m[k]) then 1 else 0) + (if p(v) then 1 else 0)
  {
    var before, after := Having(m, p), Having(m[k := v], p);
    assert after - {k} == before - {k};
    assert k in before ==> before == (before - {k}) + {k};
    assert k in after ==> after == (after - {k}) + {k};
  }
}
