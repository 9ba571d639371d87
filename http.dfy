/**
 * What a controller hands back and what it receives from the service it calls:
 * `ResponseEntity` values, errors raised by `WebClient.retrieve().onStatus(...)`,
 * and the rule that turns a 4xx or 5xx response into such an error.
 */
module Http {
  import opened Wrappers
  import opened Decimal

  const OK := 200
  const BAD_REQUEST := 400
  const INTERNAL_SERVER_ERROR := 500
  const SERVICE_UNAVAILABLE := 503

  predicate Is4xxClientError(status: int) {
    400 <= status < 500
  }

  predicate Is5xxServerError(status: int) {
    500 <= status < 600
  }

  /**
   * The outcome of a handler:
   *  - Ok: `ResponseEntity.ok(value)`;
   *  - Empty: the downstream answered without an error status but with no body,
   *    so the handler's `Mono` completes without a value;
   *  - Rejected: `ResponseEntity.status(status).body(message)`;
   *  - Failed: the `RuntimeException` built by an `onStatus` handler from the
   *    downstream status `upstream`.
   */
  datatype Reply<T> =
    | Ok(value: T)
    | Empty
    | Rejected(status: int, message: string)
    | Failed(upstream: int, message: string)

  /** A downstream answer as the calling `WebClient` sees it: a status and a decoded body, if any. */
  datatype Response<T> = Response(status: int, body: Option<T>)

  /** A reply together with the error tag the handler set on the active span, if it set one. */
  datatype Handled<T> = Handled(reply: Reply<T>, errorTag: Option<string>)

  /** A handler either answers at once or issues one downstream request and maps its response. */
  datatype Step<R, T> = Done(handled: Handled<T>) | Call(request: R)

  /**
   * The HTTP status a caller receives for a reply. An exception escaping a
   * handler is answered by the framework with 500 Internal Server Error.
   */
  function StatusCode<T>(r: Reply<T>): (status: int)
    ensures r.Rejected? ==> status == r.status
    ensures r.Failed? ==> status == INTERNAL_SERVER_ERROR
    ensures r.Ok? || r.Empty? ==> status == OK
  {
    match r
    case Ok(_) => OK
    case Empty => OK
    case Rejected(status, _) => status
    case Failed(_, _) => INTERNAL_SERVER_ERROR
  }

  /** What the calling service receives for a reply: the status, and the body only on success. */
  function Received<T>(r: Reply<T>): (resp: Response<T>)
    ensures resp.status == StatusCode(r)
    ensures resp.body.Some? <==> r.Ok?
    ensures r.Ok? ==> resp.body.value == r.value
  {
    Response(StatusCode(r), if r.Ok? then Some(r.value) else None)
  }

  /** The text of the exception raised for an error status: "HTTP <status>: <failure>". */
  function UpstreamMessage(status: int, failure: string): string {
    "HTTP " + IntToString(status) + ": " + failure
  }

  /**
   * `retrieve()` with one `onStatus` handler for 4xx and one for 5xx, each
   * raising `UpstreamMessage(status, failure)`; any other status yields the body.
   */
  function Retrieve<T>(resp: Response<T>, failure: string): (r: Reply<T>)
    ensures r.Failed? <==> Is4xxClientError(resp.status) || Is5xxServerError(resp.status)
    ensures r.Failed? ==> r.upstream == resp.status && r.message == UpstreamMessage(resp.status, failure)
    ensures r.Ok? <==> !r.Failed? && resp.body.Some?
    ensures r.Ok? ==> resp.body == Some(r.value)
    ensures !r.Rejected?
  {
    if Is4xxClientError(resp.status) || Is5xxServerError(resp.status) then
      Failed(resp.status, UpstreamMessage(resp.status, failure))
    else if resp.body.Some? then
      Ok(resp.body.value)
    else
      Empty
  }

  /** The status code and the failure text can both be read back from an error message. */
  lemma UpstreamMessageParts(status: int, failure: string)
    requires Is4xxClientError(status) || Is5xxServerError(status)
    ensures var m := UpstreamMessage(status, failure);
      |m| == 10 + |failure| && m[..5] == "HTTP " && ParseInt(m[5..8]) == Some(status)
      && m[8..10] == ": " && m[10..] == failure
  {
    ThreeDigits(status);
    IntRoundTrip(status);
    var m := UpstreamMessage(status, failure);
    assert m[5..8] == IntToString(status);
  }

  /** The length of the first path segment of `s`: the index of its first '/', or its length. */
  function SegmentEnd(s: string): (k: nat)
    ensures k <= |s| && (k < |s| ==> s[k] == '/')
    ensures forall i :: 0 <= i < k ==> s[i] != '/'
    decreases |s|
  {
    if s == [] || s[0] == '/' then 0 else 1 + SegmentEnd(s[1..])
  }
}
