/** The sync-acknowledgement route `POST /sync` (src/worker/routes/sync.js). */
module SyncRoute {
  import opened Wrappers
  import opened Json
  import opened Http
  import Kv
  import opened Environment

  /** The store-of-record endpoint a sync payload is forwarded to. */
  const SyncPath := "/sync"

  /** The cache key of the process-wide sync metrics. */
  const MetricsKey := "metrics"

  /**
   * `(c || 0) + 1` with JavaScript's `+`: a falsy count restarts at 1, numbers
   * and booleans add numerically, anything else concatenates as a string.
   */
  function PlusOne(c: Value): (r: Value)
    ensures !Truthy(c) ==> r == Num(1)
    ensures c.Num? ==> r == Num(c.n + 1)
  {
    match c
    case Num(n) => Num(n + 1)
    case Bool(b) => Num(if b then 2 else 1)
    case Str(s) => if s == "" then Num(1) else Str(s + "1")
    case Arr(_) => Str(ToString(c) + "1")
    case Obj(_) => Str(ToString(c) + "1")
    case Undefined => Num(1)
    case Null => Num(1)
  }

  /** The metrics object after one sync at `now`: two fields set, every other field kept. */
  function Bumped(metrics: map<string, Value>, now: int): (r: map<string, Value>)
    ensures r.Keys == metrics.Keys + {"lastSync", "syncCount"}
    ensures r["lastSync"] == Num(now)
    ensures r["syncCount"] == PlusOne(Lookup(metrics, "syncCount"))
    ensures forall k :: k in metrics && k != "lastSync" && k != "syncCount" ==> r[k] == metrics[k]
  {
    metrics["lastSync" := Num(now)]["syncCount" := PlusOne(Lookup(metrics, "syncCount"))]
  }

  /**
   * What the handler writes back under `metrics`: an object gets its fields
   * bumped; an array accepts the assignments but serialises without them.
   * For any other stored value the assignments throw (module code is strict).
   */
  function NextMetrics(stored: Value, now: int): Result<Value, string>
  {
    match stored
    case Obj(f) => Success(Obj(Bumped(f, now)))
    case Arr(_) => Success(stored)
    case Null => Failure("Cannot set properties of null (setting 'lastSync')")
    case Undefined => Failure("Cannot set properties of undefined (setting 'lastSync')")
    case Bool(_) => Failure("Cannot create property 'lastSync' on boolean '" + ToString(stored) + "'")
    case Num(_) => Failure("Cannot create property 'lastSync' on number '" + ToString(stored) + "'")
    case Str(s) => Failure("Cannot create property 'lastSync' on string '" + s + "'")
  }

  /** The metrics as read: the stored value, or `{}` when there is none. */
  function ReadMetrics(cache: Kv.Namespace, now: int): Value
  {
    match Kv.Get(cache, MetricsKey, now)
    case Some(v) => v
    case None => Obj(map[])
  }

  /** `handleSync` as a function of the request, the cache and outbound log before it, the clock and the store. */
  function SyncOutcome(request: Request, cache: Kv.Namespace, sent: seq<Call>, detaUrl: string,
                       now: int, deta: Downstream): Outcome
  {
    if request.verb != "POST" then Outcome(Success(TextResponse(405, "Method not allowed")), cache, sent)
    else if request.body.None? then Outcome(Failure(NotJson), cache, sent)
    else
      match NextMetrics(ReadMetrics(cache, now), now)
      case Failure(e) => Outcome(Failure(e), cache, sent)
      case Success(m) =>
        var cache' := Kv.Put(cache, MetricsKey, Wire(m), None, now);
        var call := Call(detaUrl + SyncPath, Wire(request.body.value));
        match deta(call)
        case NetworkError(msg) => Outcome(Failure(msg), cache', sent + [call])
        case Answered(reply) =>
          if !IsOk(reply.status) then Outcome(Success(TextResponse(500, "Sync failed")), cache', sent + [call])
          else Outcome(Success(JsonResponse(Obj(map["success" := Bool(true)]))), cache', sent + [call])
  }

  /**
   * `handleSync`: update the metrics (read-modify-write under `metrics`), then
   * forward the payload to the store.
   */
  method HandleSync(request: Request, env: Env, now: int, deta: Downstream) returns (r: Result<Response, string>)
    modifies env
    ensures Outcome(r, env.cache, env.sent) == SyncOutcome(request, old(env.cache), old(env.sent), env.detaUrl, now, deta)
  {
    if request.verb != "POST" {
      return Success(TextResponse(405, "Method not allowed"));
    }
    if request.body.None? {
      return Failure(NotJson);
    }
    var payload := request.body.value;
    var metrics := NextMetrics(ReadMetrics(env.cache, now), now);
    if metrics.Failure? {
      return Failure(metrics.error);
    }
    env.CachePut(MetricsKey, metrics.value, None, now);
    var detaResponse := env.Post(SyncPath, Wire(payload), deta);
    if detaResponse.NetworkError? {
      return Failure(detaResponse.message);
    }
    if !IsOk(detaResponse.reply.status) {
      return Success(TextResponse(500, "Sync failed"));
    }
    return Success(JsonResponse(Obj(map["success" := Bool(true)])));
  }

  /** A request that is not a POST is answered 405 and the metrics are left alone. */
  lemma NonPostRejected(request: Request, cache: Kv.Namespace, sent: seq<Call>, url: string, now: int, deta: Downstream)
    requires request.verb != "POST"
    ensures SyncOutcome(request, cache, sent, url, now, deta) == Outcome(Success(TextResponse(405, "Method not allowed")), cache, sent)
  {
  }

  /**
   * The metrics are written before the payload is forwarded: whatever the store
   * answers, and even when the call fails, the metrics stay updated, the
   * payload goes out unchanged, and the answer is 500 exactly when the store's
   * response is not ok.
   */
  lemma MetricsUpdatedFirst(request: Request, cache: Kv.Namespace, sent: seq<Call>, url: string, now: int, deta: Downstream)
    requires request.verb == "POST" && request.body.Some? && IsJson(request.body.value)
    requires NextMetrics(ReadMetrics(cache, now), now).Success?
    ensures var o := SyncOutcome(request, cache, sent, url, now, deta);
            var call := Call(url + SyncPath, request.body.value);
            && o.cache == Kv.Put(cache, MetricsKey, Wire(NextMetrics(ReadMetrics(cache, now), now).value), None, now)
            && o.sent == sent + [call]
            && (deta(call).Answered? ==>
                  o.result == Success(if IsOk(deta(call).reply.status) then JsonResponse(Obj(map["success" := Bool(true)]))
                                      else TextResponse(500, "Sync failed")))
  {
    WireOfJson(request.body.value);
  }

  /**
   * Starting from no metrics, or from metrics this handler wrote, one sync
   * raises the count by exactly one, stamps the current instant and keeps
   * every other field.
   */
  lemma CountGrowsByOne(cache: Kv.Namespace, now: int, count: int)
    requires Kv.Get(cache, MetricsKey, now).None? ||
             (var v := Kv.Get(cache, MetricsKey, now).value;
              v.Obj? && Lookup(v.fields, "syncCount") == Num(count))
    ensures var next := NextMetrics(ReadMetrics(cache, now), now);
            && next.Success? && next.value.Obj?
            && next.value.fields["lastSync"] == Num(now)
            && next.value.fields["syncCount"] == Num(if Kv.Get(cache, MetricsKey, now).None? then 1 else count + 1)
            && forall k :: k in ReadMetrics(cache, now).fields && k != "lastSync" && k != "syncCount" ==>
                 next.value.fields[k] == ReadMetrics(cache, now).fields[k]
  {
    if Kv.Get(cache, MetricsKey, now).None? {
      assert ReadMetrics(cache, now) == Obj(map[]);
    }
  }
}
