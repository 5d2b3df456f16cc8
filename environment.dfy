/**
 * The bindings a worker request handler receives as `env`: the CACHE
 * namespace and the base URL of the store-of-record (Deta Space). Calls a
 * handler makes to that store are recorded, in order, in `sent`; what the
 * store answers is given by a `Downstream` function.
 */
module Environment {
  import opened Json
  import opened Http
  import opened Wrappers
  import Kv

  /** What handling one request amounts to: the result, and the cache and outbound log after it. */
  datatype Outcome = Outcome(result: Result<Response, string>, cache: Kv.Namespace, sent: seq<Call>)

  class Env {
    var cache: Kv.Namespace
    var sent: seq<Call>
    const detaUrl: string

    constructor (detaUrl: string, cache: Kv.Namespace)
      ensures this.detaUrl == detaUrl && this.cache == cache && sent == []
    {
      this.detaUrl := detaUrl;
      this.cache := cache;
      sent := [];
    }

    /** `fetch(`${env.DETA_SPACE_URL}${path}`, {method: 'POST', body})`. */
    method Post(path: string, body: Value, deta: Downstream) returns (f: Fetched)
      modifies this`sent
      ensures sent == old(sent) + [Call(detaUrl + path, body)]
      ensures f == deta(Call(detaUrl + path, body))
    {
      var call := Call(detaUrl + path, body);
      sent := sent + [call];
      f := deta(call);
    }

    /** `env.CACHE.put(key, JSON.stringify(value), options)` at instant `now`. */
    method CachePut(key: string, value: Value, ttl: Option<nat>, now: int)
      modifies this`cache
      ensures cache == Kv.Put(old(cache), key, Wire(value), ttl, now)
    {
      cache := Kv.Put(cache, key, Wire(value), ttl, now);
    }
  }
}
