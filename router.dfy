/**
 * The worker's entry point (src/worker/index.js): CORS preflight, dispatch on
 * the URL's pathname, the CORS header overlay on every routed response, and
 * the conversion of a thrown exception into a 500 response.
 */
module Router {
  import opened Wrappers
  import opened Json
  import opened Http
  import Kv
  import opened Environment
  import Submit
  import Fetch
  import SyncRoute

  /** The permissive CORS headers, as the source names them, in the order they are applied. */
  const CorsHeaders: seq<(string, string)> := [
    ("Access-Control-Allow-Origin", "*"),
    ("Access-Control-Allow-Methods", "GET, POST, OPTIONS"),
    ("Access-Control-Allow-Headers", "Content-Type")
  ]

  /** `headers.set(name, value)` applied to each pair in turn. */
  function Overlay(h: HeaderMap, pairs: seq<(string, string)>): HeaderMap
  {
    if pairs == [] then h
    else Overlay(h, pairs[..|pairs| - 1])[Lower(pairs[|pairs| - 1].0) := pairs[|pairs| - 1].1]
  }

  /** A header list built from an object literal: each pair set in turn. */
  function HeadersFrom(pairs: seq<(string, string)>): HeaderMap
  {
    Overlay(map[], pairs)
  }

  /** The places a request can be routed to. */
  datatype Route = SubmitRoute | FetchRoute | SyncRoute | HealthRoute | NoRoute

  /** The `switch (url.pathname)`. */
  function RouteOf(path: string): (r: Route)
    ensures r == SubmitRoute <==> path == "/submit"
    ensures r == FetchRoute <==> path == "/fetch"
    ensures r == SyncRoute <==> path == "/sync"
    ensures r == HealthRoute <==> path == "/health"
    ensures r == NoRoute <==> path !in {"/submit", "/fetch", "/sync", "/health"}
  {
    if path == "/submit" then SubmitRoute
    else if path == "/fetch" then FetchRoute
    else if path == "/sync" then SyncRoute
    else if path == "/health" then HealthRoute
    else NoRoute
  }

  /** The answer to an OPTIONS request: no body, status 200, the CORS headers. */
  function Preflight(): Response
  {
    Response(200, NoBody, HeadersFrom(CorsHeaders))
  }

  /** The answer to a thrown exception: `500 {error: message}` with the CORS headers. */
  function ErrorResponse(message: string): Response
  {
    Response(500, JsonBody(Obj(map["error" := Str(message)])),
             HeadersFrom(CorsHeaders + [("Content-Type", "application/json")]))
  }

  /** How a route's result leaves the worker: headers overlaid, or an exception turned into a 500. */
  function Finish(handled: Result<Response, string>): Response
  {
    match handled
    case Success(resp) => Response(resp.status, resp.body, Overlay(resp.headers, CorsHeaders))
    case Failure(message) => ErrorResponse(message)
  }

  /** The routing step as a function of the request and the state before it. */
  function Routed(request: Request, cache: Kv.Namespace, sent: seq<Call>, url: string, now: int, deta: Downstream): Outcome
  {
    match RouteOf(request.path)
    case SubmitRoute => Submit.SubmitOutcome(request, cache, sent, url, now, deta)
    case FetchRoute => Fetch.FetchOutcome(request, cache, sent, url, now, deta)
    case SyncRoute => SyncRoute.SyncOutcome(request, cache, sent, url, now, deta)
    case HealthRoute => Outcome(Success(JsonResponse(Obj(map["status" := Str("healthy")]))), cache, sent)
    case NoRoute => Outcome(Success(TextResponse(404, "Not Found")), cache, sent)
  }

  /** A `Headers` object, updated in place by `set`. */
  class Headers {
    var entries: HeaderMap

    constructor (init: HeaderMap)
      ensures entries == init
    {
      entries := init;
    }

    /** `headers.set(name, value)`: header names are case-insensitive. */
    method Set(name: string, value: string)
      modifies this
      ensures entries == old(entries)[Lower(name) := value]
    {
      entries := entries[Lower(name) := value];
    }
  }

  /** The `forEach` over the CORS headers, each set on `headers` in place. */
  method AddCors(headers: Headers)
    modifies headers
    ensures headers.entries == Overlay(old(headers.entries), CorsHeaders)
  {
    for i := 0 to |CorsHeaders|
      invariant headers.entries == Overlay(old(headers.entries), CorsHeaders[..i])
    {
      assert CorsHeaders[..i + 1][..i] == CorsHeaders[..i];
      headers.Set(CorsHeaders[i].0, CorsHeaders[i].1);
    }
    assert CorsHeaders[..|CorsHeaders|] == CorsHeaders;
  }

  /** The default export's `fetch(request, env)`. */
  method HandleRequest(request: Request, env: Env, now: int, deta: Downstream) returns (resp: Response)
    modifies env
    ensures request.verb == "OPTIONS" ==> resp == Preflight() && unchanged(env)
    ensures request.verb != "OPTIONS" ==>
              var o := Routed(request, old(env.cache), old(env.sent), env.detaUrl, now, deta);
              resp == Finish(o.result) && env.cache == o.cache && env.sent == o.sent
  {
    if request.verb == "OPTIONS" {
      return Preflight();
    }
    var handled: Result<Response, string>;
    match RouteOf(request.path) {
      case SubmitRoute =>
        handled := Submit.HandleSubmit(request, env, now, deta);
      case FetchRoute =>
        handled := Fetch.HandleFetch(request, env, now, deta);
      case SyncRoute =>
        handled := SyncRoute.HandleSync(request, env, now, deta);
      case HealthRoute =>
        handled := Success(JsonResponse(Obj(map["status" := Str("healthy")])));
      case NoRoute =>
        handled := Success(TextResponse(404, "Not Found"));
    }
    if handled.Failure? {
      return ErrorResponse(handled.error);
    }
    var response := handled.value;
    var headers := new Headers(response.headers);
    AddCors(headers);
    return Response(response.status, response.body, headers.entries);
  }

  /**
   * The overlay sets each of the three CORS headers to its value, replacing a
   * same-named header of the handler's, and leaves every other header as it was.
   */
  lemma {:induction false} OverlaySetsCors(h: HeaderMap)
    ensures var r := Overlay(h, CorsHeaders);
            && "access-control-allow-origin" in r && r["access-control-allow-origin"] == "*"
            && "access-control-allow-methods" in r && r["access-control-allow-methods"] == "GET, POST, OPTIONS"
            && "access-control-allow-headers" in r && r["access-control-allow-headers"] == "Content-Type"
            && forall k :: k !in {"access-control-allow-origin", "access-control-allow-methods", "access-control-allow-headers"} ==>
                 (k in r <==> k in h) && (k in h ==> r[k] == h[k])
  {
    var names := ["access-control-allow-origin", "access-control-allow-methods", "access-control-allow-headers"];
    forall i | 0 <= i < 3 ensures Lower(CorsHeaders[i].0) == names[i] {
      LowerCors(i);
    }
    assert CorsHeaders[..2][..1] == CorsHeaders[..1];
    assert CorsHeaders[..3][..2] == CorsHeaders[..2];
    assert CorsHeaders[..1][..0] == [];
    assert Overlay(h, CorsHeaders[..1]) == h[names[0] := "*"];
    assert Overlay(h, CorsHeaders[..2]) == h[names[0] := "*"][names[1] := "GET, POST, OPTIONS"];
    assert CorsHeaders[..3] == CorsHeaders;
  }

  lemma LowerCors(i: int)
    requires 0 <= i < 3
    ensures Lower(CorsHeaders[i].0)
            == ["access-control-allow-origin", "access-control-allow-methods", "access-control-allow-headers"][i]
  {
    var suffix := ["Origin", "Methods", "Headers"][i];
    assert CorsHeaders[i].0 == "Access-Control-Allow-" + suffix;
    LowerConcat("Access-Control-Allow-", suffix);
    LowerPrefix();
    LowerSuffix(i);
  }

  lemma LowerConcat(a: string, b: string)
    ensures Lower(a + b) == Lower(a) + Lower(b)
  {
  }

  lemma LowerPrefix()
    ensures Lower("Access-Control-Allow-") == "access-control-allow-"
  {
  }

  lemma LowerSuffix(i: int)
    requires 0 <= i < 3
    ensures Lower(["Origin", "Methods", "Headers"][i]) == ["origin", "methods", "headers"][i]
  {
  }

  /** Every routed response keeps the handler's status and body and carries the CORS headers. */
  lemma FinishKeepsResponse(resp: Response)
    ensures var r := Finish(Success(resp));
            && r.status == resp.status && r.body == resp.body
            && "access-control-allow-origin" in r.headers && r.headers["access-control-allow-origin"] == "*"
  {
    OverlaySetsCors(resp.headers);
  }

  /** Any exception inside a handler leaves the worker as `500 {error: message}`, with the CORS headers. */
  lemma ExceptionBecomes500(message: string)
    ensures var r := Finish(Failure(message));
            && r.status == 500 && r.body == JsonBody(Obj(map["error" := Str(message)]))
            && "access-control-allow-origin" in r.headers && r.headers["access-control-allow-origin"] == "*"
            && "content-type" in r.headers && r.headers["content-type"] == "application/json"
  {
    OverlaySetsCors(map[]);
    var extra := [("Content-Type", "application/json")];
    var all := CorsHeaders + extra;
    assert all[..|all| - 1] == CorsHeaders;
    assert Lower("Content-Type") == "content-type";
  }

  /** Each route's path reaches its own handler, which alone decides the outcome. */
  lemma KnownPathsDispatched(request: Request, cache: Kv.Namespace, sent: seq<Call>, url: string, now: int, deta: Downstream)
    ensures request.path == "/submit" ==> Routed(request, cache, sent, url, now, deta) == Submit.SubmitOutcome(request, cache, sent, url, now, deta)
    ensures request.path == "/fetch" ==> Routed(request, cache, sent, url, now, deta) == Fetch.FetchOutcome(request, cache, sent, url, now, deta)
    ensures request.path == "/sync" ==> Routed(request, cache, sent, url, now, deta) == SyncRoute.SyncOutcome(request, cache, sent, url, now, deta)
    ensures request.path == "/health" ==>
              Routed(request, cache, sent, url, now, deta) == Outcome(Success(JsonResponse(Obj(map["status" := Str("healthy")]))), cache, sent)
  {
  }

  /** A path outside the four routes is a 404 with nothing read or written. */
  lemma UnknownPathNotFound(request: Request, cache: Kv.Namespace, sent: seq<Call>, url: string, now: int, deta: Downstream)
    requires request.path !in {"/submit", "/fetch", "/sync", "/health"}
    ensures Routed(request, cache, sent, url, now, deta) == Outcome(Success(TextResponse(404, "Not Found")), cache, sent)
  {
  }
}
