/**
 * The three services chained: an order placed with the shopping service is
 * made by the styling service and dispatched by the delivery service.
 */
module Pipeline {
  import opened Wrappers
  import opened Http
  import opened Dto
  import opened Delivery
  import opened Styling
  import opened Shopping

  /** The random draws of one order, in the order the services take them. */
  datatype Draws = Draws(order: nat, make: nat, dispatch: nat, orderNumCheck: nat, shirtsCheck: nat) {
    /** Each draw lies in the range its `nextInt` call draws from. */
    predicate InRange() {
      order < 10 && make < 5 && dispatch < 5 && orderNumCheck < 10 && shirtsCheck < 10
    }

    /** No draw injects a fault. */
    predicate AllPass() {
      order != 0 && make != 0 && dispatch != 0 && orderNumCheck != 0 && shirtsCheck != 0
    }
  }

  /**
   * A character RFC 2396 allows unescaped in a path segment (an alphanumeric,
   * a mark, or one of ":@&=+$,"); ';', which starts segment parameters, is not one.
   */
  predicate SegmentChar(c: char) {
    'a' <= c <= 'z' || 'A' <= c <= 'Z' || '0' <= c <= '9'
    || c in "-_.!~*'()" || c in ":@&=+$,"
  }

  /** A string that can stand as one URI path segment without escaping (a UUID, a style id). */
  predicate PathSegment(s: string) {
    s != [] && forall i :: 0 <= i < |s| ==> SegmentChar(s[i])
  }

  /** The first path segment of `a + b` is `a` when `a` holds no '/' and `b` starts with one. */
  lemma SegmentEndOfConcat(a: string, b: string)
    requires forall i :: 0 <= i < |a| ==> a[i] != '/'
    requires b != [] && b[0] == '/'
    ensures SegmentEnd(a + b) == |a|
  {
    assert (a + b)[|a|] == '/';
  }

  /** How the make route splits a URI of the form base + id + query + digits. */
  lemma MakeRouteOf(uri: string, styleName: string, digits: string)
    requires PathSegment(styleName)
    requires uri == Styling.STYLE_BASE + styleName + Styling.MAKE_QUERY + digits
    ensures |Styling.STYLE_BASE| <= |uri| && uri[..|Styling.STYLE_BASE|] == Styling.STYLE_BASE
    ensures var rest := uri[|Styling.STYLE_BASE|..];
      SegmentEnd(rest) == |styleName| && rest[..|styleName|] == styleName
      && rest[|styleName|..] == Styling.MAKE_QUERY + digits
  {
    var rest := uri[|Styling.STYLE_BASE|..];
    assert rest == styleName + (Styling.MAKE_QUERY + digits);
    SegmentEndOfConcat(styleName, Styling.MAKE_QUERY + digits);
  }

  /** The styling service's make route reads back the style and quantity the shopping service sent. */
  lemma MakeRouteRoundTrip(styleName: string, quantity: int32)
    requires PathSegment(styleName)
    ensures MakeRoute(MakeUri(styleName, quantity)) == Some((styleName, quantity))
  {
    var digits := Decimal.IntToString(quantity as int);
    assert MakeUri(styleName, quantity) == Shopping.STYLE_BASE + styleName + Shopping.MAKE_QUERY + digits;
    MakeRouteOf(MakeUri(styleName, quantity), styleName, digits);
    var tail := Styling.MAKE_QUERY + digits;
    assert tail[..|Styling.MAKE_QUERY|] == Styling.MAKE_QUERY && tail[|Styling.MAKE_QUERY|..] == digits;
    Decimal.IntRoundTrip(quantity as int);
  }

  /** The delivery service's dispatch route reads back the order number the styling service sent. */
  lemma DispatchRouteRoundTrip(orderNum: string)
    requires PathSegment(orderNum)
    ensures DispatchRoute(DispatchUri(orderNum)) == Some(orderNum)
  {
  }

  /** The order goes through every stage and is queued for delivery. */
  predicate Succeeds(order: Order, draws: Draws) {
    draws.AllPass() && order.quantity > 0
  }

  /** The styling draw and the three delivery draws all pass, and there is a shirt to make. */
  predicate MadeAndQueued(quantity: int32, draws: Draws) {
    draws.make != 0 && draws.dispatch != 0 && draws.orderNumCheck != 0 && draws.shirtsCheck != 0 && quantity > 0
  }

  /**
   * A make request answered by the styling service, including its dispatch
   * call to the delivery service. `dispatched` is the delivery service's
   * result, when the request reached it.
   */
  method MakeAndDispatch(styling: StylingController, delivery: DeliveryController, id: string,
                         quantity: int32, draws: Draws, orderNum: string, trackingNum: string)
    returns (made: Handled<DeliveryStatus>, dispatched: Option<Handled<DeliveryStatus>>)
    requires delivery.Valid() && draws.InRange() && PathSegment(orderNum)
    modifies delivery
    ensures delivery.Valid()
    ensures dispatched.None? <==> draws.make == 0
    ensures draws.make == 0 ==>
      made == Handled(Rejected(SERVICE_UNAVAILABLE, MAKE_FAILED), Some(Styling.TRACE_TAG))
    ensures quantity <= 0 && draws.make != 0 && draws.dispatch != 0 && draws.orderNumCheck != 0 ==>
      dispatched == Some(Reject(BAD_REQUEST, NO_SHIRTS))
    ensures made.reply.Ok? <==> MadeAndQueued(quantity, draws)
    ensures made.reply.Ok? ==> made == Handled(Ok(DeliveryStatus(orderNum, trackingNum, DISPATCHED)), None)
    ensures draws.make != 0 && !made.reply.Ok? ==> made.reply.Failed?
    ensures made.reply.Ok? ==>
      |delivery.dispatchQueue| == |old(delivery.dispatchQueue)| + 1
      && delivery.dispatchQueue[..|old(delivery.dispatchQueue)|] == old(delivery.dispatchQueue)
      && IsBatchOf(delivery.dispatchQueue[|old(delivery.dispatchQueue)|], id, quantity)
    ensures !made.reply.Ok? ==> delivery.dispatchQueue == old(delivery.dispatchQueue)
  {
    dispatched := None;
    var making := styling.MakeShirts(id, quantity, draws.make, orderNum);
    if making.Done? {
      made := making.handled;
      return;
    }
    DispatchRouteRoundTrip(orderNum);
    var num := DispatchRoute(making.request.uri).value;
    var dispatchReply, drawsTaken := delivery.GetDeliveryStatus(
      num, Some(making.request.body), draws.dispatch, draws.orderNumCheck, draws.shirtsCheck, trackingNum);
    dispatched := Some(dispatchReply);
    made := MakeShirtsReply(Received(dispatchReply.reply));
    if !dispatchReply.reply.Ok? {
      assert dispatchReply.reply.Rejected?;
    }
  }

  /**
   * One order through the three services. `orderNum` is the UUID the styling
   * service generates and `trackingNum` the one the delivery service
   * generates. `made` is the styling service's result and `dispatched` the
   * delivery service's, when the request reached them.
   */
  method PlaceOrder(styling: StylingController, delivery: DeliveryController, order: Order,
                    draws: Draws, orderNum: string, trackingNum: string)
    returns (h: Handled<DeliveryStatus>, made: Option<Handled<DeliveryStatus>>,
             dispatched: Option<Handled<DeliveryStatus>>)
    requires delivery.Valid() && draws.InRange()
    requires PathSegment(order.styleName) && PathSegment(orderNum)
    modifies delivery
    ensures delivery.Valid()
    ensures made.None? <==> draws.order == 0
    ensures dispatched.None? <==> draws.order == 0 || draws.make == 0
    ensures draws.order == 0 ==>
      h == Handled(Rejected(SERVICE_UNAVAILABLE, Shopping.ORDER_FAILED), Some(Shopping.TRACE_TAG))
    ensures draws.order != 0 && draws.make == 0 ==>
      h == Handled(Failed(SERVICE_UNAVAILABLE, UpstreamMessage(SERVICE_UNAVAILABLE, ORDER_FAILED)), None)
    ensures order.quantity <= 0 && draws.order != 0 && draws.make != 0 && draws.dispatch != 0 && draws.orderNumCheck != 0 ==>
      dispatched == Some(Reject(BAD_REQUEST, NO_SHIRTS))
    ensures h.reply.Ok? <==> Succeeds(order, draws)
    ensures h.reply.Ok? ==> h == Handled(Ok(DeliveryStatus(orderNum, trackingNum, DISPATCHED)), None)
    ensures draws.order != 0 && draws.make != 0 && !Succeeds(order, draws) ==>
      h == Handled(Failed(INTERNAL_SERVER_ERROR, UpstreamMessage(INTERNAL_SERVER_ERROR, ORDER_FAILED)), None)
    ensures h.reply.Ok? ==>
      |delivery.dispatchQueue| == |old(delivery.dispatchQueue)| + 1
      && delivery.dispatchQueue[..|old(delivery.dispatchQueue)|] == old(delivery.dispatchQueue)
      && IsBatchOf(delivery.dispatchQueue[|old(delivery.dispatchQueue)|], order.styleName, order.quantity)
    ensures !h.reply.Ok? ==> delivery.dispatchQueue == old(delivery.dispatchQueue)
  {
    made, dispatched := None, None;
    var ordered := OrderShirts(order, draws.order);
    if ordered.Done? {
      h := ordered.handled;
      return;
    }
    MakeRouteRoundTrip(order.styleName, order.quantity);
    var route := MakeRoute(ordered.request).value;
    var madeReply;
    madeReply, dispatched := MakeAndDispatch(styling, delivery, route.0, route.1, draws, orderNum, trackingNum);
    made := Some(madeReply);
    h := OrderShirtsReply(Received(madeReply.reply));
  }

  /**
   * An order for three "style1" shirts with no fault injected: the caller
   * gets the delivery status, one batch is queued, and one drain delivers
   * its three shirts and empties the queue.
   */
  method EndToEnd(draws: Draws, orderNum: string, trackingNum: string)
    returns (h: Handled<DeliveryStatus>, queuedAfterOrder: nat, reports: seq<nat>,
             handedOver: seq<Shirt>, queuedAfterDrain: nat)
    requires draws.InRange() && draws.AllPass() && PathSegment(orderNum)
    ensures h == Handled(Ok(DeliveryStatus(orderNum, trackingNum, "shirts delivery dispatched")), None)
    ensures queuedAfterOrder == 1 && reports == [3] && queuedAfterDrain == 0
    ensures |handedOver| == 3
    ensures forall i :: 0 <= i < |handedOver| ==> handedOver[i].style == ShirtStyle("style1", "style1Image")
  {
    var styling := new StylingController();
    var delivery := new DeliveryController();
    var order := Order("style1", 3);
    assert PathSegment(order.styleName);
    var made, dispatched;
    h, made, dispatched := PlaceOrder(styling, delivery, order, draws, orderNum, trackingNum);
    queuedAfterOrder := |delivery.dispatchQueue|;
    var batch := delivery.dispatchQueue[0];
    assert delivery.dispatchQueue == [batch];
    reports, handedOver := delivery.ClearQueue();
    assert ShirtCounts([batch]) == [|batch.shirts.value|];
    queuedAfterDrain := |delivery.dispatchQueue|;
  }
}
