/** The shared key store with expiry (redis.service.ts), as far as locks, leases and cached states use it. */
module RedisStore {
  import opened Common

  datatype Entry<+V> = Entry(value: V, expiresAt: int)

  type Store<K, V> = map<K, Entry<V>>

  predicate Live<K, V>(store: Store<K, V>, key: K, now: int) {
    key in store && now < store[key].expiresAt
  }

  function Put<K, V>(store: Store<K, V>, key: K, value: V, ttlSeconds: nat, now: int): Store<K, V> {
    store[key := Entry(value, now + ttlSeconds * 1000)]
  }

  /** SET key value EX ttl NX. */
  function PutIfAbsent<K, V>(store: Store<K, V>, key: K, value: V, ttlSeconds: nat, now: int): Store<K, V> {
    if Live(store, key, now) then store else Put(store, key, value, ttlSeconds, now)
  }

  /** The store as a client object that the services share. */
  class RedisClient<K(==), V> {
    var entries: Store<K, V>

    constructor ()
      ensures entries == map[]
    {
      entries := map[];
    }

    method Set(key: K, value: V, ttlSeconds: nat, now: int)
      modifies this
      ensures entries == Put(old(entries), key, value, ttlSeconds, now)
    {
      entries := entries[key := Entry(value, now + ttlSeconds * 1000)];
    }

    method Get(key: K, now: int) returns (value: Option<V>)
      ensures value == if Live(entries, key, now) then Some(entries[key].value) else None
    {
      if key in entries {
        var entry := entries[key];
        if now < entry.expiresAt {
          return Some(entry.value);
        }
      }
      return None;
    }

    method Del(key: K)
      modifies this
      ensures entries == old(entries) - {key}
    {
      entries := entries - {key};
    }

    method FlushAll()
      modifies this
      ensures entries == map[]
    {
      entries := map[];
    }

    /** acquireLock, with the value the caller stores under the key. */
    method SetIfAbsent(key: K, value: V, ttlSeconds: nat, now: int) returns (acquired: bool)
      modifies this
      ensures acquired == !Live(old(entries), key, now)
      ensures entries == PutIfAbsent(old(entries), key, value, ttlSeconds, now)
    {
      var current := Get(key, now);
      if current.Some? {
        return false;
      }
      Set(key, value, ttlSeconds, now);
      return true;
    }
  }
}
