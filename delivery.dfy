/**
 * The delivery service (`DeliveryController`): accepts dispatch requests into a
 * FIFO queue of batches and drains that queue on a schedule.
 */
module Delivery {
  import opened Wrappers
  import opened Http
  import opened Dto

  const DISPATCH_FAILED := "Failed to dispatch shirts!"
  const INVALID_ORDER_NUM := "Invalid Order Num"
  const NO_SHIRTS := "No shirts to deliver"
  const DISPATCHED := "shirts delivery dispatched"

  /** The address of the dispatch route, `/delivery/dispatch/{orderNum}`, on port 8080. */
  const DISPATCH_BASE := "http://localhost:8080/delivery/dispatch/"

  /** A batch with a shirt list that holds at least one shirt. */
  predicate HasShirts(b: PackedShirts) {
    b.shirts.Some? && |b.shirts.value| > 0
  }

  /** The request body passes the null and emptiness checks of dispatch. */
  predicate Deliverable(body: Option<PackedShirts>) {
    body.Some? && HasShirts(body.value)
  }

  predicate AllListed(q: seq<PackedShirts>) {
    forall i :: 0 <= i < |q| ==> q[i].shirts.Some?
  }

  /** `logAndTrace(msg)` followed by a response with that status and message. */
  function Reject<T>(status: int, msg: string): Handled<T> {
    Handled(Rejected(status, msg), Some(msg))
  }

  /** The "N shirts delivered!" counts that draining `q` reports, batch by batch. */
  function ShirtCounts(q: seq<PackedShirts>): (counts: seq<nat>)
    requires AllListed(q)
    ensures |counts| == |q|
    ensures forall i :: 0 <= i < |q| ==> counts[i] == |q[i].shirts.value|
    decreases |q|
  {
    if q == [] then [] else ShirtCounts(q[..|q| - 1]) + [|q[|q| - 1].shirts.value|]
  }

  /** The shirts that draining `q` hands over, in order. */
  function Delivered(q: seq<PackedShirts>): seq<Shirt>
    requires AllListed(q)
    decreases |q|
  {
    if q == [] then [] else Delivered(q[..|q| - 1]) + q[|q| - 1].shirts.value
  }

  function Total(counts: seq<nat>): nat
    decreases |counts|
  {
    if counts == [] then 0 else Total(counts[..|counts| - 1]) + counts[|counts| - 1]
  }

  /** Every shirt is delivered once: the hand-overs add up to the reported counts. */
  lemma {:induction false} DeliveredMatchesCounts(q: seq<PackedShirts>)
    requires AllListed(q)
    ensures |Delivered(q)| == Total(ShirtCounts(q))
    decreases |q|
  {
    if q != [] {
      var front := q[..|q| - 1];
      DeliveredMatchesCounts(front);
      assert ShirtCounts(q)[..|q| - 1] == ShirtCounts(front);
    }
  }

  /** What draining the first `k` batches hands over is how draining all of them begins. */
  lemma {:induction false} DeliveredPrefix(q: seq<PackedShirts>, k: nat)
    requires AllListed(q) && k <= |q|
    ensures |Delivered(q[..k])| <= |Delivered(q)|
    ensures Delivered(q)[..|Delivered(q[..k])|] == Delivered(q[..k])
    decreases |q|
  {
    if k == |q| {
      assert q[..k] == q;
    } else {
      var front := q[..|q| - 1];
      assert front[..k] == q[..k];
      DeliveredPrefix(front, k);
      assert Delivered(q) == Delivered(front) + q[|q| - 1].shirts.value;
    }
  }

  /**
   * The shirts of batch `k` are handed over as one contiguous run, right after
   * those of batches 0 to k - 1.
   */
  lemma DeliveredSlice(q: seq<PackedShirts>, k: nat)
    requires AllListed(q) && k < |q|
    ensures var t := |Delivered(q[..k])|;
      t + |q[k].shirts.value| <= |Delivered(q)|
      && Delivered(q)[t..t + |q[k].shirts.value|] == q[k].shirts.value
  {
    DeliveredPrefix(q, k + 1);
    assert q[..k + 1][..k] == q[..k];
    assert Delivered(q[..k + 1]) == Delivered(q[..k]) + q[k].shirts.value;
  }

  /**
   * The order number that the route `/dispatch/{orderNum}` reads from a request
   * URI: one non-empty path segment after the dispatch address.
   */
  function DispatchRoute(uri: string): (orderNum: Option<string>)
    ensures orderNum.Some? ==> DISPATCH_BASE + orderNum.value == uri
    ensures orderNum.Some? ==> orderNum.value != [] && forall i :: 0 <= i < |orderNum.value| ==> orderNum.value[i] != '/'
  {
    if |DISPATCH_BASE| < |uri| && uri[..|DISPATCH_BASE|] == DISPATCH_BASE
       && forall i :: |DISPATCH_BASE| <= i < |uri| ==> uri[i] != '/'
    then Some(uri[|DISPATCH_BASE|..])
    else None
  }

  class DeliveryController {
    /** The dispatch queue, head first. The source keeps one static queue per process. */
    var dispatchQueue: seq<PackedShirts>

    /** Only batches holding at least one shirt are ever queued. */
    ghost predicate Valid()
      reads this
    {
      forall i :: 0 <= i < |dispatchQueue| ==> HasShirts(dispatchQueue[i])
    }

    constructor ()
      ensures Valid() && dispatchQueue == []
    {
      dispatchQueue := [];
    }

    /**
     * Dispatch (`POST /delivery/dispatch/{orderNum}`). `draw1` in [0, 5), `draw2`
     * and `draw3` in [0, 10) are the random draws in the order they are taken;
     * `drawsTaken` says how many of them the short-circuiting checks consumed.
     * `trackingNum` is the fresh UUID of a successful dispatch.
     */
    method GetDeliveryStatus(orderNum: string, body: Option<PackedShirts>,
                             draw1: nat, draw2: nat, draw3: nat, trackingNum: string)
      returns (h: Handled<DeliveryStatus>, drawsTaken: nat)
      requires Valid()
      requires draw1 < 5 && draw2 < 10 && draw3 < 10
      modifies this
      ensures Valid()
      ensures draw1 == 0 ==>
        h == Reject(SERVICE_UNAVAILABLE, DISPATCH_FAILED) && drawsTaken == 1
      ensures draw1 != 0 && (draw2 == 0 || orderNum == []) ==>
        h == Reject(BAD_REQUEST, INVALID_ORDER_NUM) && drawsTaken == 2
      ensures draw1 != 0 && draw2 != 0 && orderNum != [] && (draw3 == 0 || !Deliverable(body)) ==>
        h == Reject(BAD_REQUEST, NO_SHIRTS) && drawsTaken == 3
      ensures h.reply.Ok? <==> draw1 != 0 && draw2 != 0 && orderNum != [] && draw3 != 0 && Deliverable(body)
      ensures h.reply.Ok? ==>
        h == Handled(Ok(DeliveryStatus(orderNum, trackingNum, DISPATCHED)), None) && drawsTaken == 3
      ensures dispatchQueue == if h.reply.Ok? then old(dispatchQueue) + [body.value] else old(dispatchQueue)
    {
      drawsTaken := 1;
      if draw1 == 0 {
        h := Reject(SERVICE_UNAVAILABLE, DISPATCH_FAILED);
        return;
      }
      drawsTaken := 2;
      if draw2 == 0 || orderNum == [] {
        h := Reject(BAD_REQUEST, INVALID_ORDER_NUM);
        return;
      }
      drawsTaken := 3;
      if draw3 == 0 || body.None? || body.value.shirts.None? || |body.value.shirts.value| == 0 {
        h := Reject(BAD_REQUEST, NO_SHIRTS);
        return;
      }
      dispatchQueue := dispatchQueue + [body.value];
      h := Handled(Ok(DeliveryStatus(orderNum, trackingNum, DISPATCHED)), None);
    }

    /** Return (`POST /delivery/return/{orderNum}`); it never looks at the queue. */
    function RetrieveOrder(orderNum: string): (h: Handled<string>)
      ensures h.reply.Ok? <==> orderNum != []
      ensures orderNum == [] ==> h == Reject(BAD_REQUEST, INVALID_ORDER_NUM)
      ensures h.reply.Ok? ==>
        h.errorTag == None && |h.reply.value| == 7 + |orderNum| + 9
        && h.reply.value[..7] == "Order: " && h.reply.value[7..7 + |orderNum|] == orderNum
        && h.reply.value[7 + |orderNum|..] == " returned"
    {
      if orderNum == [] then Reject(BAD_REQUEST, INVALID_ORDER_NUM)
      else Handled(Ok("Order: " + orderNum + " returned"), None)
    }

    /** Hands over every shirt of one batch and reports how many there were. */
    method DeliverPackedShirts(b: PackedShirts) returns (handedOver: seq<Shirt>, count: nat)
      requires b.shirts.Some?
      ensures handedOver == b.shirts.value && count == |b.shirts.value|
    {
      var shirts := b.shirts.value;
      handedOver := [];
      for i := 0 to |shirts|
        invariant handedOver == shirts[..i]
      {
        handedOver := handedOver + [shirts[i]];
      }
      count := |shirts|;
    }

    /**
     * The scheduled drain: polls the head of the queue until it is empty and
     * delivers each polled batch. `reports` are the per-batch counts, `handedOver`
     * all shirts delivered, in order.
     */
    method ClearQueue() returns (reports: seq<nat>, handedOver: seq<Shirt>)
      requires Valid()
      modifies this
      ensures Valid() && dispatchQueue == []
      ensures AllListed(old(dispatchQueue))
      ensures reports == ShirtCounts(old(dispatchQueue))
      ensures handedOver == Delivered(old(dispatchQueue))
    {
      ghost var q := dispatchQueue;
      ghost var k := 0;
      reports, handedOver := [], [];
      while dispatchQueue != []
        invariant Valid() && AllListed(q)
        invariant 0 <= k <= |q| && dispatchQueue == q[k..]
        invariant reports == ShirtCounts(q[..k]) && handedOver == Delivered(q[..k])
        decreases |dispatchQueue|
      {
        var b := dispatchQueue[0];
        dispatchQueue := dispatchQueue[1..];
        var shirts, n := DeliverPackedShirts(b);
        handedOver := handedOver + shirts;
        reports := reports + [n];
        assert q[..k + 1][..k] == q[..k];
        k := k + 1;
      }
      assert q[..k] == q;
    }
  }
}
