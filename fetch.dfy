/** The read-through route `POST /fetch` (src/worker/routes/fetch.js). */
module Fetch {
  import opened Wrappers
  import opened Json
  import opened Http
  import Kv
  import opened Environment

  /** The store-of-record endpoint a cache miss is answered from. */
  const RetrievePath := "/retrieve"

  /** A JSON response whose body is the cached text, served as it is. */
  function CachedResponse(v: Value): Response
  {
    Response(200, JsonBody(v), map["content-type" := "application/json"])
  }

  /** `handleFetch` as a function of the request, the cache and outbound log before it, the clock and the store. */
  function FetchOutcome(request: Request, cache: Kv.Namespace, sent: seq<Call>, detaUrl: string,
                        now: int, deta: Downstream): Outcome
  {
    if request.verb != "POST" then Outcome(Success(TextResponse(405, "Method not allowed")), cache, sent)
    else if request.body.None? then Outcome(Failure(NotJson), cache, sent)
    else
      var query := request.body.value;
      match Member(query, "id")
      case Failure(e) => Outcome(Failure(e), cache, sent)
      case Success(id) =>
        var key := Kv.RecordKey(id);
        match Kv.Get(cache, key, now)
        case Some(cached) => Outcome(Success(CachedResponse(cached)), cache, sent)
        case None =>
          var call := Call(detaUrl + RetrievePath, Wire(query));
          match deta(call)
          case NetworkError(m) => Outcome(Failure(m), cache, sent + [call])
          case Answered(reply) =>
            if !IsOk(reply.status) then Outcome(Success(TextResponse(404, "Record not found")), cache, sent + [call])
            else if reply.body.None? then Outcome(Failure(NotJson), cache, sent + [call])
            else
              var data := reply.body.value;
              Outcome(Success(JsonResponse(data)), Kv.Put(cache, key, Wire(data), Some(Kv.RecordTtl), now), sent + [call])
  }

  /**
   * `handleFetch`: look up `record:<id>` in the cache; on a hit serve it,
   * on a miss ask the store, cache its answer for an hour and serve that.
   */
  method HandleFetch(request: Request, env: Env, now: int, deta: Downstream) returns (r: Result<Response, string>)
    modifies env
    ensures Outcome(r, env.cache, env.sent) == FetchOutcome(request, old(env.cache), old(env.sent), env.detaUrl, now, deta)
  {
    if request.verb != "POST" {
      return Success(TextResponse(405, "Method not allowed"));
    }
    if request.body.None? {
      return Failure(NotJson);
    }
    var query := request.body.value;
    var id := Member(query, "id");
    if id.Failure? {
      return Failure(id.error);
    }
    var key := Kv.RecordKey(id.value);
    var cached := Kv.Get(env.cache, key, now);
    if cached.Some? {
      return Success(CachedResponse(cached.value));
    }
    var detaResponse := env.Post(RetrievePath, Wire(query), deta);
    if detaResponse.NetworkError? {
      return Failure(detaResponse.message);
    }
    var reply := detaResponse.reply;
    if !IsOk(reply.status) {
      return Success(TextResponse(404, "Record not found"));
    }
    if reply.body.None? {
      return Failure(NotJson);
    }
    var data := reply.body.value;
    env.CachePut(key, data, Some(Kv.RecordTtl), now);
    return Success(JsonResponse(data));
  }

  /** A request that is not a POST is answered 405; neither the cache nor the store is touched. */
  lemma NonPostRejected(request: Request, cache: Kv.Namespace, sent: seq<Call>, url: string, now: int, deta: Downstream)
    requires request.verb != "POST"
    ensures FetchOutcome(request, cache, sent, url, now, deta) == Outcome(Success(TextResponse(405, "Method not allowed")), cache, sent)
  {
  }

  /** A live entry under `record:<id>` is served unchanged and the store is not contacted. */
  lemma HitServesCache(request: Request, cache: Kv.Namespace, sent: seq<Call>, url: string, now: int, deta: Downstream)
    requires request.verb == "POST" && request.body.Some? && request.body.value.Obj?
    requires Kv.Get(cache, Kv.RecordKey(Lookup(request.body.value.fields, "id")), now).Some?
    ensures var cached := Kv.Get(cache, Kv.RecordKey(Lookup(request.body.value.fields, "id")), now).value;
            FetchOutcome(request, cache, sent, url, now, deta) == Outcome(Success(CachedResponse(cached)), cache, sent)
  {
  }

  /** On a miss the store is asked once with the query; a non-ok answer is 404 and nothing is cached. */
  lemma MissNotFound(request: Request, cache: Kv.Namespace, sent: seq<Call>, url: string, now: int, deta: Downstream)
    requires request.verb == "POST" && request.body.Some? && request.body.value.Obj?
    requires Kv.Get(cache, Kv.RecordKey(Lookup(request.body.value.fields, "id")), now).None?
    requires var f := deta(Call(url + RetrievePath, Wire(request.body.value))); f.Answered? && !IsOk(f.reply.status)
    ensures FetchOutcome(request, cache, sent, url, now, deta)
              == Outcome(Success(TextResponse(404, "Record not found")), cache, sent + [Call(url + RetrievePath, Wire(request.body.value))])
  {
  }

  /**
   * Read-through: a miss the store answers caches the answer under the very
   * key that was looked up, so the same query within the TTL is a hit that
   * serves that data and makes no further store call.
   */
  lemma MissThenHit(request: Request, cache: Kv.Namespace, sent: seq<Call>, url: string,
                   now: int, later: int, deta: Downstream, deta': Downstream)
    requires request.verb == "POST" && request.body.Some? && request.body.value.Obj?
    requires Kv.Get(cache, Kv.RecordKey(Lookup(request.body.value.fields, "id")), now).None?
    requires var f := deta(Call(url + RetrievePath, Wire(request.body.value)));
             f.Answered? && IsOk(f.reply.status) && f.reply.body.Some?
    requires now <= later < now + 1000 * Kv.RecordTtl
    ensures var data := deta(Call(url + RetrievePath, Wire(request.body.value))).reply.body.value;
            var first := FetchOutcome(request, cache, sent, url, now, deta);
            && first.result == Success(JsonResponse(data))
            && FetchOutcome(request, first.cache, first.sent, url, later, deta')
                 == Outcome(Success(CachedResponse(Wire(data))), first.cache, first.sent)
  {
    var key := Kv.RecordKey(Lookup(request.body.value.fields, "id"));
    var data := deta(Call(url + RetrievePath, Wire(request.body.value))).reply.body.value;
    var first := FetchOutcome(request, cache, sent, url, now, deta);
    assert first.cache == Kv.Put(cache, key, Wire(data), Some(Kv.RecordTtl), now);
    assert Kv.Get(first.cache, key, later) == Some(Wire(data));
  }
}
