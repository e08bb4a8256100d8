/**
 The part of Redis that Knox relies on: a map from key to value and deadline,
 read against a clock. A key set with a time to live of `ttl` at time `now` is
 readable while the clock is below `now + ttl`.

 One map per key family is enough: `RedisKeys` proves that the flat key strings
 of the families never collide.
 */
module Redis {
  import opened Wrappers

  datatype Entry<+V> = Entry(value: V, expiry: nat)

  predicate IsLive<K, V>(m: map<K, Entry<V>>, k: K, now: nat) {
    k in m && now < m[k].expiry
  }

  /** GET */
  function Read<K, V>(m: map<K, Entry<V>>, k: K, now: nat): Option<V> {
    if IsLive(m, k, now) then Some(m[k].value) else None
  }

  /** SETEX */
  function SetEx<K, V>(m: map<K, Entry<V>>, k: K, v: V, now: nat, ttl: nat): map<K, Entry<V>> {
    m[k := Entry(v, now + ttl)]
  }

  /** An absent counter reads as zero. */
  function Count<K>(m: map<K, Entry<nat>>, k: K, now: nat): nat {
    if IsLive(m, k, now) then m[k].value else 0
  }

  /** INCR, with EXPIRE issued only by the call that finds itself first. */
  function Increment<K>(m: map<K, Entry<nat>>, k: K, now: nat, ttl: nat): map<K, Entry<nat>> {
    var count := Count(m, k, now) + 1;
    m[k := Entry(count, if count == 1 then now + ttl else m[k].expiry)]
  }

  /** EXPIRE: a no-op on an absent key. */
  function Touch<K, V>(m: map<K, Entry<V>>, k: K, now: nat, ttl: nat): map<K, Entry<V>> {
    if IsLive(m, k, now) then m[k := Entry(m[k].value, now + ttl)] else m
  }
}
