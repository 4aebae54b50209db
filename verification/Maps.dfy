/** Maps given by a rule on a set of keys. */
module Maps {
  import opened Wrappers

  function Find<K, V>(m: map<K, V>, k: K): Option<V> {
    if k in m then Some(m[k]) else None
  }

  function Put<K, V>(m: map<K, V>, k: K, v: Option<V>): map<K, V> {
    if v.Some? then m[k := v.value] else m - {k}
  }

  ghost function Tabulate<K(!new), V>(keys: set<K>, f: K -> V): map<K, V>
    decreases keys
  {
    if keys == {} then map[]
    else
      var k :| k in keys;
      Tabulate(keys - {k}, f)[k := f(k)]
  }

  lemma {:induction false} TabulateExact<K(!new), V>(keys: set<K>, f: K -> V)
    ensures Tabulate(keys, f).Keys == keys
    ensures forall k :: k in keys ==> Tabulate(keys, f)[k] == f(k)
    decreases keys
  {
    if keys != {} {
      var k :| k in keys && Tabulate(keys, f) == Tabulate(keys - {k}, f)[k := f(k)];
      TabulateExact(keys - {k}, f);
    }
  }
}
