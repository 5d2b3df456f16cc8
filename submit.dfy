/** The ingest route `POST /submit` (src/worker/routes/submit.js). */
module Submit {
  import opened Wrappers
  import opened Json
  import opened Http
  import Kv
  import Validation
  import Auth
  import opened Environment

  /** The store-of-record endpoint a submission is forwarded to. */
  const StorePath := "/store"

  /** The record forwarded to the store: ciphertext and type from the payload, the server's clock as timestamp. */
  function StoredRecord(payload: map<string, Value>, now: int): Value
  {
    Wire(Obj(map["encrypted" := Lookup(payload, "encrypted"), "timestamp" := Num(now), "type" := Lookup(payload, "type")]))
  }

  /** The metadata cached under `record:<id>`: the id and timestamp the store answered, and the payload's type. */
  function Projection(id: Value, timestamp: Value, payload: map<string, Value>): Value
  {
    Obj(map["id" := id, "timestamp" := timestamp, "type" := Lookup(payload, "type")])
  }

  /** The body of a successful submission: `{success: true, id}`. */
  function Accepted(id: Value): Response
  {
    JsonResponse(Obj(map["success" := Bool(true), "id" := id]))
  }

  /**
   * `handleSubmit` as a function of the request, the cache and outbound log
   * before it, the store's URL, the clock and the store's behaviour.
   */
  function SubmitOutcome(request: Request, cache: Kv.Namespace, sent: seq<Call>, detaUrl: string,
                         now: int, deta: Downstream): Outcome
  {
    if request.verb != "POST" then Outcome(Success(TextResponse(405, "Method not allowed")), cache, sent)
    else if request.body.None? then Outcome(Failure(NotJson), cache, sent)
    else if !Validation.ValidatePayload(request.body.value) then
      Outcome(Success(TextResponse(400, "Invalid payload")), cache, sent)
    else
      var p := request.body.value.fields;
      if !Auth.VerifySignature(p["encrypted"], p["signature"]) then
        Outcome(Success(TextResponse(401, "Invalid signature")), cache, sent)
      else
        var call := Call(detaUrl + StorePath, StoredRecord(p, now));
        match deta(call)
        case NetworkError(m) => Outcome(Failure(m), cache, sent + [call])
        case Answered(reply) =>
          if !IsOk(reply.status) then Outcome(Success(TextResponse(500, "Storage failed")), cache, sent + [call])
          else if reply.body.None? then Outcome(Failure(NotJson), cache, sent + [call])
          else
            var result := reply.body.value;
            match Member(result, "id")
            case Failure(e) => Outcome(Failure(e), cache, sent + [call])
            case Success(id) =>
              var cached := Wire(Projection(id, Member(result, "timestamp").value, p));
              Outcome(Success(Accepted(id)), Kv.Put(cache, Kv.RecordKey(id), cached, Some(Kv.RecordTtl), now), sent + [call])
  }

  /**
   * `handleSubmit`: method check, structural validation, signature check,
   * store with a server timestamp, then a write-through of the record's
   * metadata into the cache. A `Failure` is an exception the handler throws.
   */
  method HandleSubmit(request: Request, env: Env, now: int, deta: Downstream) returns (r: Result<Response, string>)
    modifies env
    ensures Outcome(r, env.cache, env.sent) == SubmitOutcome(request, old(env.cache), old(env.sent), env.detaUrl, now, deta)
  {
    if request.verb != "POST" {
      return Success(TextResponse(405, "Method not allowed"));
    }
    if request.body.None? {
      return Failure(NotJson);
    }
    var payload := request.body.value;
    if !Validation.ValidatePayload(payload) {
      return Success(TextResponse(400, "Invalid payload"));
    }
    var p := payload.fields;
    var isValid := Auth.VerifySignature(p["encrypted"], p["signature"]);
    if !isValid {
      return Success(TextResponse(401, "Invalid signature"));
    }
    var detaResponse := env.Post(StorePath, StoredRecord(p, now), deta);
    if detaResponse.NetworkError? {
      return Failure(detaResponse.message);
    }
    var reply := detaResponse.reply;
    if !IsOk(reply.status) {
      return Success(TextResponse(500, "Storage failed"));
    }
    if reply.body.None? {
      return Failure(NotJson);
    }
    var result := reply.body.value;
    var id := Member(result, "id");
    if id.Failure? {
      return Failure(id.error);
    }
    var timestamp := Member(result, "timestamp").value;
    env.CachePut(Kv.RecordKey(id.value), Projection(id.value, timestamp, p), Some(Kv.RecordTtl), now);
    return Success(Accepted(id.value));
  }

  /** A request that is not a POST is answered 405 before anything is read, stored or cached. */
  lemma NonPostRejected(request: Request, cache: Kv.Namespace, sent: seq<Call>, url: string, now: int, deta: Downstream)
    requires request.verb != "POST"
    ensures SubmitOutcome(request, cache, sent, url, now, deta) == Outcome(Success(TextResponse(405, "Method not allowed")), cache, sent)
  {
  }

  /** A payload that fails validation is answered 400: no signature check, no store call, no cache write. */
  lemma InvalidPayloadRejected(request: Request, cache: Kv.Namespace, sent: seq<Call>, url: string, now: int, deta: Downstream)
    requires request.verb == "POST" && request.body.Some? && !Validation.ValidatePayload(request.body.value)
    ensures SubmitOutcome(request, cache, sent, url, now, deta) == Outcome(Success(TextResponse(400, "Invalid payload")), cache, sent)
  {
  }

  /** A valid payload whose signature check fails is answered 401: no store call, no cache write. */
  lemma BadSignatureRejected(request: Request, cache: Kv.Namespace, sent: seq<Call>, url: string, now: int, deta: Downstream)
    requires request.verb == "POST" && request.body.Some? && Validation.ValidatePayload(request.body.value)
    requires !Auth.VerifySignature(request.body.value.fields["encrypted"], request.body.value.fields["signature"])
    ensures SubmitOutcome(request, cache, sent, url, now, deta) == Outcome(Success(TextResponse(401, "Invalid signature")), cache, sent)
  {
  }

  /**
   * A valid, signed submission the store refuses (a non-ok status) is answered
   * 500 "Storage failed" after exactly one store call, and nothing is cached.
   */
  lemma StoreFailureRejected(request: Request, cache: Kv.Namespace, sent: seq<Call>, url: string, now: int, deta: Downstream)
    requires request.verb == "POST" && request.body.Some? && Validation.ValidatePayload(request.body.value)
    requires Auth.VerifySignature(request.body.value.fields["encrypted"], request.body.value.fields["signature"])
    requires var f := deta(Call(url + StorePath, StoredRecord(request.body.value.fields, now)));
             f.Answered? && !IsOk(f.reply.status)
    ensures SubmitOutcome(request, cache, sent, url, now, deta)
              == Outcome(Success(TextResponse(500, "Storage failed")), cache,
                         sent + [Call(url + StorePath, StoredRecord(request.body.value.fields, now))])
  {
  }

  /**
   * What the store receives: the payload's own ciphertext and type, unchanged,
   * and the server's instant as timestamp whatever the client sent.
   */
  lemma StoredRecordFields(payload: map<string, Value>, now: int)
    requires Validation.ValidatePayload(Obj(payload)) && IsJson(Obj(payload))
    ensures StoredRecord(payload, now) == Obj(map["encrypted" := payload["encrypted"], "timestamp" := Num(now), "type" := payload["type"]])
  {
    WireOfJson(payload["encrypted"]);
    WireOfJson(payload["type"]);
    var m := map["encrypted" := payload["encrypted"], "timestamp" := Num(now), "type" := payload["type"]];
    assert Wire(Obj(m)).fields == m;
  }

  /**
   * A valid, signed submission makes exactly one store call, to the store
   * endpoint, carrying the payload's ciphertext and type and the server's clock.
   */
  lemma AcceptedPayloadForwarded(request: Request, cache: Kv.Namespace, sent: seq<Call>, url: string, now: int, deta: Downstream)
    requires request.verb == "POST" && request.body.Some? && Validation.ValidatePayload(request.body.value)
    requires IsJson(request.body.value)
    requires Auth.VerifySignature(request.body.value.fields["encrypted"], request.body.value.fields["signature"])
    ensures var p := request.body.value.fields;
            SubmitOutcome(request, cache, sent, url, now, deta).sent
              == sent + [Call(url + StorePath, Obj(map["encrypted" := p["encrypted"], "timestamp" := Num(now), "type" := p["type"]]))]
  {
    StoredRecordFields(request.body.value.fields, now);
  }

  /** The client's timestamp never reaches the store: payloads that differ only there store the same record. */
  lemma ClientTimestampIgnored(payload: map<string, Value>, forged: Value, now: int)
    ensures StoredRecord(payload, now) == StoredRecord(payload["timestamp" := forged], now)
  {
    assert Lookup(payload["timestamp" := forged], "encrypted") == Lookup(payload, "encrypted");
    assert Lookup(payload["timestamp" := forged], "type") == Lookup(payload, "type");
  }

  /** The cache is written only on the path that answers `{success: true, id}`. */
  lemma CacheWrittenOnlyOnSuccess(request: Request, cache: Kv.Namespace, sent: seq<Call>, url: string, now: int, deta: Downstream)
    requires SubmitOutcome(request, cache, sent, url, now, deta).cache != cache
    ensures exists id :: SubmitOutcome(request, cache, sent, url, now, deta).result == Success(Accepted(id))
  {
    var p := request.body.value.fields;
    var call := Call(url + StorePath, StoredRecord(p, now));
    var id := Member(deta(call).reply.body.value, "id").value;
    assert SubmitOutcome(request, cache, sent, url, now, deta).result == Success(Accepted(id));
  }

  /**
   * On success the key `record:<id>` holds the metadata for the record's TTL
   * and the response names the same id.
   */
  lemma SuccessCachesProjection(request: Request, cache: Kv.Namespace, sent: seq<Call>, url: string, now: int,
                                deta: Downstream, later: int)
    requires request.verb == "POST" && request.body.Some? && Validation.ValidatePayload(request.body.value)
    requires Auth.VerifySignature(request.body.value.fields["encrypted"], request.body.value.fields["signature"])
    requires var reply := deta(Call(url + StorePath, StoredRecord(request.body.value.fields, now)));
             reply.Answered? && IsOk(reply.reply.status) && reply.reply.body.Some? && reply.reply.body.value.Obj?
    requires now <= later < now + 1000 * Kv.RecordTtl
    ensures var result := deta(Call(url + StorePath, StoredRecord(request.body.value.fields, now))).reply.body.value;
            var id := Lookup(result.fields, "id");
            var o := SubmitOutcome(request, cache, sent, url, now, deta);
            && o.result == Success(Accepted(id))
            && Kv.Get(o.cache, Kv.RecordKey(id), later)
                 == Some(Wire(Projection(id, Lookup(result.fields, "timestamp"), request.body.value.fields)))
  {
  }

  /**
   * The store-of-record answers a stored record with `{success, id}` only; the
   * cached metadata then lacks a timestamp, since `undefined` members are
   * dropped when it is serialised.
   */
  lemma ProjectionOfIdOnlyReply(id: Value, payload: map<string, Value>)
    requires "type" in payload && payload["type"] != Undefined && id != Undefined
    ensures var cached := Wire(Projection(id, Member(Obj(map["success" := Bool(true), "id" := id]), "timestamp").value, payload));
            cached.Obj? && "timestamp" !in cached.fields && "id" in cached.fields && "type" in cached.fields
  {
  }
}
