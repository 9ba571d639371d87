/**
 * The shopping service (`ShoppingController`): proxies the menu from the
 * styling service and forwards orders to its make route.
 */
module Shopping {
  import opened Wrappers
  import opened Decimal
  import opened Http
  import opened Dto

  const ORDER_FAILED := "Failed to order shirts!"
  const MENU_FAILED := "Failed to fetch shopping menu!"

  /** The tag this service's `logAndTrace` sets, whatever message it is given. */
  const TRACE_TAG := "Failed to dispatch shirts!"

  /** The styling service on port 8082: the parts of its make route. */
  const STYLE_BASE := "http://localhost:8082/style/"
  const MAKE_QUERY := "/make?quantity="

  /** `logAndTrace(s)`: the tag it sets on the active span does not depend on `s`. */
  function LogAndTrace(s: string): (tag: string)
    ensures tag == TRACE_TAG
  {
    TRACE_TAG
  }

  /** The make URI of an order: the style name as a path segment, the quantity in decimal. */
  function MakeUri(styleName: string, quantity: int32): string {
    STYLE_BASE + styleName + MAKE_QUERY + IntToString(quantity as int)
  }

  /** The parts of a make URI, with the quantity read back from its decimal text. */
  lemma MakeUriParts(styleName: string, quantity: int32)
    ensures var uri, n := MakeUri(styleName, quantity), |STYLE_BASE| + |styleName|;
      |uri| >= n + |MAKE_QUERY|
      && uri[..|STYLE_BASE|] == STYLE_BASE && uri[|STYLE_BASE|..n] == styleName
      && uri[n..n + |MAKE_QUERY|] == MAKE_QUERY
      && ParseInt(uri[n + |MAKE_QUERY|..]) == Some(quantity as int)
  {
    var digits := IntToString(quantity as int);
    var n := |STYLE_BASE| + |styleName|;
    var uri := (STYLE_BASE + styleName) + (MAKE_QUERY + digits);
    assert MakeUri(styleName, quantity) == uri;
    assert uri[..n] == STYLE_BASE + styleName;
    assert uri[n..] == MAKE_QUERY + digits;
    assert uri[n + |MAKE_QUERY|..] == digits;
    IntRoundTrip(quantity as int);
  }

  /**
   * `POST /shop/order`. `draw` in [0, 10) is the random draw. Either the order
   * fails at once, with no downstream call, or the make URI is requested and
   * `OrderShirtsReply` maps the answer.
   */
  function OrderShirts(order: Order, draw: nat): (step: Step<string, DeliveryStatus>)
    requires draw < 10
    ensures step.Done? <==> draw == 0
    ensures step.Done? ==>
      step.handled == Handled(Rejected(SERVICE_UNAVAILABLE, ORDER_FAILED), Some(TRACE_TAG))
    ensures step.Call? ==> step.request == MakeUri(order.styleName, order.quantity)
  {
    if draw == 0 then
      Done(Handled(Rejected(SERVICE_UNAVAILABLE, ORDER_FAILED), Some(LogAndTrace(ORDER_FAILED))))
    else
      Call(MakeUri(order.styleName, order.quantity))
  }

  /**
   * Completes an order with the styling service's response: 4xx and 5xx
   * become "HTTP <status>: Failed to order shirts!", a delivery status is
   * passed on unchanged.
   */
  function OrderShirtsReply(resp: Response<DeliveryStatus>): (h: Handled<DeliveryStatus>)
    ensures h.errorTag == None && !h.reply.Rejected?
    ensures h.reply.Failed? <==> Is4xxClientError(resp.status) || Is5xxServerError(resp.status)
    ensures h.reply.Failed? ==>
      h.reply.upstream == resp.status && h.reply.message == UpstreamMessage(resp.status, ORDER_FAILED)
    ensures h.reply.Ok? ==> resp.body == Some(h.reply.value)
    ensures !h.reply.Failed? && resp.body.Some? ==> h.reply.Ok?
  {
    Handled(Retrieve(resp, ORDER_FAILED), None)
  }

  /**
   * `GET /shop/menu`, given the styling service's answer to `GET http://localhost:8082/style`:
   * no random draw; 4xx and 5xx become "HTTP <status>: Failed to fetch
   * shopping menu!", the styles pass through otherwise.
   */
  function GetShoppingMenu(resp: Response<seq<ShirtStyle>>): (r: Reply<seq<ShirtStyle>>)
    ensures !r.Rejected?
    ensures r.Failed? <==> Is4xxClientError(resp.status) || Is5xxServerError(resp.status)
    ensures r.Failed? ==> r.upstream == resp.status && r.message == UpstreamMessage(resp.status, MENU_FAILED)
    ensures r.Ok? ==> resp.body == Some(r.value)
    ensures !r.Failed? && resp.body.Some? ==> r.Ok?
  {
    Retrieve(resp, MENU_FAILED)
  }
}
