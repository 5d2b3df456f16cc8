/**
 * The request/response vocabulary of the worker and of its outbound calls:
 * requests as the route handlers see them, responses they build, and the
 * replies of downstream `fetch` calls.
 */
module Http {
  import opened Wrappers
  import opened Json

  /** A response body: none (`null`), text, or the JSON text of a value. */
  datatype Body = NoBody | TextBody(text: string) | JsonBody(value: Value)

  /** Header names are kept lower-cased, as the Fetch standard's Headers object does. */
  type HeaderMap = map<string, string>

  datatype Response = Response(status: int, body: Body, headers: HeaderMap)

  /**
   * An incoming request: its method (`verb`), its URL's pathname, and its body as
   * `request.json()` parses it (`None` when the body is not JSON, which makes
   * that call throw).
   */
  datatype Request = Request(verb: string, path: string, body: Option<Value>)

  /** A downstream response: its status and its body as `.json()` parses it. */
  datatype Reply = Reply(status: int, body: Option<Value>)

  /** What a `fetch` call settles to: a rejection (network failure) or a response. */
  datatype Fetched = NetworkError(message: string) | Answered(reply: Reply)

  /** An outbound POST: the URL and the JSON body it carries. */
  datatype Call = Call(url: string, body: Value)

  /** The outside world a `fetch` call reaches, as a function of the call. */
  type Downstream = Call -> Fetched

  /** The message a `.json()` call throws with when the body is not JSON. */
  const NotJson := "Unexpected token in JSON"

  /** `response.ok`: a status in the range 200-299. */
  predicate IsOk(status: int)
  {
    200 <= status <= 299
  }

  /** ASCII lower-casing of a header name. */
  function Lower(s: string): (r: string)
    ensures |r| == |s|
    ensures forall i :: 0 <= i < |s| ==> r[i] == (if 'A' <= s[i] <= 'Z' then (s[i] - 'A' + 'a') as char else s[i])
  {
    seq(|s|, i requires 0 <= i < |s| => if 'A' <= s[i] <= 'Z' then (s[i] - 'A' + 'a') as char else s[i])
  }

  /** `new Response(text, {status})`: a string body gets a plain-text content type. */
  function TextResponse(status: int, text: string): Response
  {
    Response(status, TextBody(text), map["content-type" := "text/plain;charset=UTF-8"])
  }

  /** `new Response(JSON.stringify(v), {headers: {'Content-Type': 'application/json'}})`. */
  function JsonResponse(v: Value): Response
  {
    Response(200, JsonBody(Wire(v)), map["content-type" := "application/json"])
  }
}
