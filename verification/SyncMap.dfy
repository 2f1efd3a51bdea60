/** The map the processors share between goroutines; each method is one atomic operation. */
module SyncMap {
  import opened Domain

  class SyncMapTypeSafe<K(==), V> {
    var m: map<K, V>

    constructor ()
      ensures m == map[]
    {
      m := map[];
    }

    method Load(key: K) returns (value: Option<V>)
      ensures value == if key in m then Some(m[key]) else None
    {
      value := if key in m then Some(m[key]) else None;
    }

    method Store(key: K, value: V)
      modifies this
      ensures m == old(m)[key := value]
    {
      m := m[key := value];
    }

    method LoadAndDelete(key: K) returns (value: Option<V>)
      modifies this
      ensures value == if key in old(m) then Some(old(m)[key]) else None
      ensures m == old(m) - {key}
    {
      value := if key in m then Some(m[key]) else None;
      m := m - {key};
    }
  }
}
