/**
 * The styling service (`StylingController`): lists the style catalog and
 * manufactures a batch of shirts, which it forwards to the delivery service.
 */
module Styling {
  import opened Wrappers
  import opened Decimal
  import opened Http
  import opened Dto

  const MAKE_FAILED := "Failed to make shirts!"

  /** The tag this service's `logAndTrace` sets, whatever message it is given. */
  const TRACE_TAG := "Failed to dispatch shirts!"

  /** Where manufactured batches are posted: the delivery service on port 8080. */
  const DELIVERY_DISPATCH := "http://localhost:8080/delivery/dispatch/"

  /** This service's own address, and the path and query of its make route after the style id. */
  const STYLE_BASE := "http://localhost:8082/style/"
  const MAKE_QUERY := "/make?quantity="

  /** The style stamped on a manufactured shirt: the id as name, the id plus "Image" as image. */
  function StyleFor(id: string): ShirtStyle {
    ShirtStyle(id, id + "Image")
  }

  /** `logAndTrace(s)`: the tag it sets on the active span does not depend on `s`. */
  function LogAndTrace(s: string): (tag: string)
    ensures tag == TRACE_TAG
  {
    TRACE_TAG
  }

  /** A batch holding `max(quantity, 0)` shirts, each of the style synthesised from `id`. */
  predicate IsBatchOf(b: PackedShirts, id: string, quantity: int32) {
    b.shirts.Some?
    && |b.shirts.value| == (if quantity <= 0 then 0 else quantity as int)
    && forall i :: 0 <= i < |b.shirts.value| ==> b.shirts.value[i].style == StyleFor(id)
  }

  /** The dispatch URI for a generated order number. */
  function DispatchUri(orderNum: string): (uri: string)
    ensures |uri| == |DELIVERY_DISPATCH| + |orderNum|
    ensures uri[..|DELIVERY_DISPATCH|] == DELIVERY_DISPATCH && uri[|DELIVERY_DISPATCH|..] == orderNum
  {
    DELIVERY_DISPATCH + orderNum
  }

  /** The stream copy into `PackedShirtsDTO`: a fresh shirt and style per element, equal in value. */
  function CopyShirts(shirts: seq<Shirt>): (copy: seq<Shirt>)
    ensures copy == shirts
  {
    seq(|shirts|, i requires 0 <= i < |shirts| =>
      Shirt(ShirtStyle(shirts[i].style.name, shirts[i].style.imageUrl)))
  }

  /**
   * The style id and quantity that the route `/style/{id}/make?quantity=N`
   * reads from a request URI; `None` when the URI does not match the route or
   * the quantity is not a Java `int`.
   */
  function MakeRoute(uri: string): (route: Option<(string, int32)>)
    ensures route.Some? ==> route.value.0 != [] && forall i :: 0 <= i < |route.value.0| ==> route.value.0[i] != '/'
    ensures route.Some? ==> exists t :: uri == STYLE_BASE + route.value.0 + MAKE_QUERY + t
                                        && ParseInt(t) == Some(route.value.1 as int)
  {
    if |uri| < |STYLE_BASE| || uri[..|STYLE_BASE|] != STYLE_BASE then None
    else
      var rest := uri[|STYLE_BASE|..];
      var k := SegmentEnd(rest);
      var tail := rest[k..];
      if k == 0 || |tail| < |MAKE_QUERY| || tail[..|MAKE_QUERY|] != MAKE_QUERY then None
      else
        var t := tail[|MAKE_QUERY|..];
        match ParseInt(t)
        case Some(q) =>
          if IsInt32(q) then
            MakeRouteSplit(uri, k);
            Some((rest[..k], q as int32))
          else None
        case None => None
  }

  /** A URI the make route accepts is its base, the id, the query prefix and the quantity text. */
  lemma MakeRouteSplit(uri: string, k: nat)
    requires |STYLE_BASE| <= |uri| && uri[..|STYLE_BASE|] == STYLE_BASE
    requires var rest := uri[|STYLE_BASE|..];
      k <= |rest| && |MAKE_QUERY| <= |rest[k..]| && rest[k..][..|MAKE_QUERY|] == MAKE_QUERY
    ensures var rest := uri[|STYLE_BASE|..];
      uri == STYLE_BASE + rest[..k] + MAKE_QUERY + rest[k..][|MAKE_QUERY|..]
  {
  }

  /** A POST of a batch to a URI. */
  datatype Post = Post(uri: string, body: PackedShirts)

  /**
   * Completes a make request with the delivery service's response: 4xx and
   * 5xx become "HTTP <status>: Failed to make shirts!", a delivery status is
   * passed on unchanged.
   */
  function MakeShirtsReply(resp: Response<DeliveryStatus>): (h: Handled<DeliveryStatus>)
    ensures h.errorTag == None && !h.reply.Rejected?
    ensures h.reply.Failed? <==> Is4xxClientError(resp.status) || Is5xxServerError(resp.status)
    ensures h.reply.Failed? ==>
      h.reply.upstream == resp.status && h.reply.message == UpstreamMessage(resp.status, MAKE_FAILED)
    ensures h.reply.Ok? ==> resp.body == Some(h.reply.value)
    ensures !h.reply.Failed? && resp.body.Some? ==> h.reply.Ok?
  {
    Handled(Retrieve(resp, MAKE_FAILED), None)
  }

  class StylingController {
    /** The style catalog, filled by the constructor only. */
    var shirtStyles: seq<ShirtStyle>

    ghost predicate Valid()
      reads this
    {
      shirtStyles == [ShirtStyle("style1", "style1Image"), ShirtStyle("style2", "style2Image")]
    }

    constructor ()
      ensures Valid()
    {
      var style1 := ShirtStyle("style1", "style1Image");
      var style2 := ShirtStyle("style2", "style2Image");
      shirtStyles := [];
      shirtStyles := shirtStyles + [style1];
      shirtStyles := shirtStyles + [style2];
    }

    /** `GET /style`: the two seeded styles, in insertion order; never fails. */
    function GetAllStyles(): (r: Reply<seq<ShirtStyle>>)
      requires Valid()
      reads this
      ensures r.Ok? && |r.value| == 2
      ensures r.value[0].name == "style1" && r.value[1].name == "style2"
      ensures forall i :: 0 <= i < |r.value| ==> r.value[i] == StyleFor(r.value[i].name)
    {
      Ok(shirtStyles)
    }

    /**
     * `GET /style/{id}/make?quantity=N`. `draw` in [0, 5) is the random draw
     * and `orderNum` the UUID generated for the delivery service. Either the
     * request fails at once, or the batch is posted to the dispatch route and
     * `MakeShirtsReply` maps the answer.
     */
    method MakeShirts(id: string, quantity: int32, draw: nat, orderNum: string)
      returns (step: Step<Post, DeliveryStatus>)
      requires draw < 5
      ensures step.Done? <==> draw == 0
      ensures step.Done? ==>
        step.handled == Handled(Rejected(SERVICE_UNAVAILABLE, MAKE_FAILED), Some(TRACE_TAG))
      ensures step.Call? ==>
        step.request.uri == DispatchUri(orderNum) && IsBatchOf(step.request.body, id, quantity)
    {
      if draw == 0 {
        step := Done(Handled(Rejected(SERVICE_UNAVAILABLE, MAKE_FAILED), Some(LogAndTrace(MAKE_FAILED))));
        return;
      }
      var packed: seq<Shirt> := [];
      var i: int32 := 0;
      while i < quantity
        invariant 0 <= i && (i == 0 || i <= quantity)
        invariant |packed| == i as int
        invariant forall k :: 0 <= k < |packed| ==> packed[k].style == StyleFor(id)
      {
        packed := packed + [Shirt(ShirtStyle(id, id + "Image"))];
        assert IsInt32(quantity as int);
        i := i + 1;
      }
      var copy := CopyShirts(packed);
      step := Call(Post(DispatchUri(orderNum), PackedShirts(Some(copy))));
    }
  }
}
