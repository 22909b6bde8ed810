/** Keys with a time to live, on one clock in milliseconds. A key is there strictly before its expiry. */
module Redis {
  import opened Sequences

  datatype Timed<+V> = Timed(value: V, expiresAt: nat)

  function Get<K, V>(keys: map<K, Timed<V>>, k: K, now: nat): Option<V> {
    if k in keys && now < keys[k].expiresAt then Some(keys[k].value) else None
  }

  /** SETEX */
  function SetEx<K, V>(keys: map<K, Timed<V>>, k: K, ttlSeconds: nat, v: V, now: nat): map<K, Timed<V>> {
    keys[k := Timed(v, now + ttlSeconds * 1000)]
  }

  /** INCR, followed by EXPIRE when the key is new; an existing key keeps its expiry. */
  function Incr<K>(keys: map<K, Timed<nat>>, k: K, ttlSeconds: nat, now: nat): (map<K, Timed<nat>>, nat) {
    match Get(keys, k, now)
    case Some(n) => (keys[k := Timed(n + 1, keys[k].expiresAt)], n + 1)
    case None => (SetEx(keys, k, ttlSeconds, 1, now), 1)
  }
}
