/**
 * The key-value namespace bound as env.CACHE: a map from keys to stored values
 * with an optional expiry instant. Time is an integer count of milliseconds
 * (the unit of Date.now()); a TTL is given in seconds, as `expirationTtl` is.
 * Stored text is represented by the value JSON.parse gives back for it.
 */
module Kv {
  import opened Wrappers
  import opened Json

  datatype Entry = Entry(value: Value, expiresAt: Option<int>)

  type Namespace = map<string, Entry>

  /** The TTL both ingest and fetch write `record:<id>` entries with: one hour. */
  const RecordTtl: nat := 3600

  /** An entry is live until its expiry instant, and forever without one. */
  predicate Live(e: Entry, now: int)
  {
    e.expiresAt.None? || now < e.expiresAt.value
  }

  /** `get(key)`: an expired entry reads as absent (null). */
  function Get(ns: Namespace, key: string, now: int): Option<Value>
  {
    if key in ns && Live(ns[key], now) then Some(ns[key].value) else None
  }

  /**
   * `put(key, value, {expirationTtl})` at instant `now`: the value is readable
   * before now + ttl and absent from then on; without a TTL it never expires.
   * Every other key keeps its entry.
   */
  function Put(ns: Namespace, key: string, value: Value, ttl: Option<nat>, now: int): (r: Namespace)
    ensures forall t :: Get(r, key, t) == (if ttl.None? || t < now + 1000 * ttl.value then Some(value) else None)
    ensures forall k :: k != key ==> (k in r <==> k in ns) && (k in ns ==> r[k] == ns[k])
  {
    ns[key := Entry(value, if ttl.None? then None else Some(now + 1000 * ttl.value))]
  }

  /** The cache key of a record: `record:${id}`. */
  function RecordKey(id: Value): string
  {
    "record:" + ToString(id)
  }

  /** A record entry written with the record TTL is served for exactly one hour. */
  lemma RecordEntryLifetime(ns: Namespace, key: string, value: Value, now: int, t: int)
    ensures Get(Put(ns, key, value, Some(RecordTtl), now), key, t).Some? <==> t < now + 3600000
  {
  }
}
