/**
 The commands of the Redis-compatible store that the services use, on keys with a deadline. A key
 whose deadline has been reached is gone for every command.
 */
module KeyStore {
  import opened Wrappers

  datatype Entry<V> = Entry(value: V, deadline: int)

  function Get<K, V>(s: map<K, Entry<V>>, k: K, now: int): Option<V> {
    if k in s && now < s[k].deadline then Some(s[k].value) else None
  }

  /** SET key value EX ttl */
  function Set<K, V>(s: map<K, Entry<V>>, k: K, v: V, now: int, ttl: int): map<K, Entry<V>> {
    s[k := Entry(v, now + ttl)]
  }

  /** SET key value EX ttl NX; the caller learns from Get whether it will write. */
  function SetIfMissing<K, V>(s: map<K, Entry<V>>, k: K, v: V, now: int, ttl: int): map<K, Entry<V>> {
    if Get(s, k, now).Some? then s else Set(s, k, v, now, ttl)
  }

  /** The release script: delete the key if it still holds this value. */
  function CompareAndDelete<K, V(==)>(s: map<K, Entry<V>>, k: K, v: V, now: int): map<K, Entry<V>> {
    if Get(s, k, now) == Some(v) then s - {k} else s
  }
}
