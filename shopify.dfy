/**
 * The remote side of the order fetch: the JSON shapes the order endpoint returns,
 * the per-order extraction of an `[id, tracking]` pair, and the specification of
 * the page walk that `ShopifyShippingCost.GetOrders` performs.
 *
 * The HTTP transport is replaced by a sequence of responses: the n-th request the
 * walk issues receives `server[n]`.
 */
module Shopify {
  import opened Wrappers

  /** A scalar as it arrives from JSON or a CSV cell; `Null` is JSON null / Python None. */
  datatype Value = Null | Str(s: string) | Num(n: int)

  /** One fulfillment object; `tracking` is None when the `tracking_number` key is absent. */
  datatype Fulfillment = Fulfillment(tracking: Option<Value>)

  /**
   * One order object. `id` is None when the key is absent; `fulfillments` is None
   * when the key is absent or its value is JSON null.
   */
  datatype Order = Order(id: Option<Value>, fulfillments: Option<seq<Fulfillment>>)

  /**
   * One HTTP response: its status code, the `orders` array of its body (None when
   * the body has no such key) and the `url` of its `next` link relation, if any.
   */
  datatype Response = Response(status: int, orders: Option<seq<Order>>, next: Option<string>)

  /** The `[order_id, tracking_number]` pair the walk appends for each order. */
  datatype OrderPair = OrderPair(id: Value, tracking: Value)

  /** Sentinel the extraction writes when an order has no fulfillments. */
  const NoFulfillment: Value := Str("none")

  /** Sentinel the extraction writes for a missing id or a missing `tracking_number`. */
  const NotAvailable: Value := Str("N/A")

  /** `res.get("orders", [])`. */
  function OrdersOf(r: Response): seq<Order> {
    if r.orders.Some? then r.orders.value else []
  }

  /** The next url exists and is truthy (a non-empty string). */
  predicate HasNext(r: Response) {
    r.next.Some? && r.next.value != ""
  }

  /** After receiving `r` the walk issues no further request. */
  predicate Stops(r: Response) {
    r.status != 200 || !HasNext(r)
  }

  /** A server that eventually ends the walk: its last response stops it. */
  predicate WalkEnds(server: seq<Response>) {
    |server| > 0 && Stops(server[|server| - 1])
  }

  /** The tracking number recorded for one order, sentinels included. */
  function ExtractTracking(o: Order): Value {
    if o.fulfillments.None? || |o.fulfillments.value| == 0 then NoFulfillment
    else if o.fulfillments.value[0].tracking.None? then NotAvailable
    else o.fulfillments.value[0].tracking.value
  }

  function ExtractId(o: Order): Value {
    if o.id.Some? then o.id.value else NotAvailable
  }

  function ExtractOrder(o: Order): OrderPair {
    OrderPair(ExtractId(o), ExtractTracking(o))
  }

  /** One pair per order of a page, in the page's order. */
  function ExtractAll(os: seq<Order>): seq<OrderPair> {
    seq(|os|, k requires 0 <= k < |os| => ExtractOrder(os[k]))
  }

  /** The pairs of every page of `ps`, page after page. */
  function PageOrders(ps: seq<Response>): seq<OrderPair> {
    if ps == [] then [] else PageOrders(ps[..|ps| - 1]) + ExtractAll(OrdersOf(ps[|ps| - 1]))
  }

  /** The number of orders on the pages of `ps`. */
  function OrderCount(ps: seq<Response>): nat {
    if ps == [] then 0 else OrderCount(ps[..|ps| - 1]) + |OrdersOf(ps[|ps| - 1])|
  }

  /** The index of the first response at or after `i` that stops the walk. */
  function FirstStop(server: seq<Response>, i: nat): (k: nat)
    requires WalkEnds(server) && i < |server|
    ensures i <= k < |server| && Stops(server[k])
    ensures forall j :: i <= j < k ==> !Stops(server[j])
    decreases |server| - i
  {
    if Stops(server[i]) then i else FirstStop(server, i + 1)
  }

  /**
   * What the walk returns: the pairs of every page before the first stopping
   * response, plus that response's own pairs when it is a 200 without a next link.
   */
  function Gathered(server: seq<Response>): seq<OrderPair>
    requires WalkEnds(server)
  {
    var k := FirstStop(server, 0);
    if server[k].status == 200 then PageOrders(server[..k + 1]) else PageOrders(server[..k])
  }

  /** The walk stops at the first stopping response and nowhere else. */
  lemma FirstStopIsFirst(server: seq<Response>, i: nat, k: nat)
    requires WalkEnds(server) && i <= k < |server|
    requires Stops(server[k])
    requires forall j :: i <= j < k ==> !Stops(server[j])
    ensures FirstStop(server, i) == k
  {
  }

  /** Page concatenation: the pairs of two runs of pages are the pairs of each, in order. */
  lemma {:induction false} PageOrdersAppend(ps: seq<Response>, qs: seq<Response>)
    ensures PageOrders(ps + qs) == PageOrders(ps) + PageOrders(qs)
    decreases |qs|
  {
    if qs == [] {
      assert ps + qs == ps;
    } else {
      assert (ps + qs)[..|ps + qs| - 1] == ps + qs[..|qs| - 1];
      PageOrdersAppend(ps, qs[..|qs| - 1]);
    }
  }

  /** One pair per order: nothing is deduplicated or dropped. */
  lemma {:induction false} PageOrdersLength(ps: seq<Response>)
    ensures |PageOrders(ps)| == OrderCount(ps)
    decreases |ps|
  {
    if ps != [] {
      PageOrdersLength(ps[..|ps| - 1]);
    }
  }

  lemma PageOrdersSingle(r: Response)
    ensures PageOrders([r]) == ExtractAll(OrdersOf(r))
  {
    assert [r][..0] == [];
  }

  /**
   * Server order is kept across page boundaries: the m-th order of page j lands at
   * the position after all orders of the earlier pages.
   */
  lemma PageOrdersAt(ps: seq<Response>, j: nat, m: nat)
    requires j < |ps| && m < |OrdersOf(ps[j])|
    ensures OrderCount(ps[..j]) + m < |PageOrders(ps)|
    ensures PageOrders(ps)[OrderCount(ps[..j]) + m] == ExtractOrder(OrdersOf(ps[j])[m])
  {
    var before, after := ps[..j], ps[j + 1..];
    var page := ExtractAll(OrdersOf(ps[j]));
    assert ps == (before + [ps[j]]) + after;
    PageOrdersAppend(before + [ps[j]], after);
    PageOrdersAppend(before, [ps[j]]);
    PageOrdersSingle(ps[j]);
    PageOrdersLength(before);
    var prefix := PageOrders(before) + page;
    assert PageOrders(ps) == prefix + PageOrders(after);
    assert prefix[OrderCount(before) + m] == page[m];
  }

  /** A first response other than 200 yields nothing. */
  lemma FirstPageError(server: seq<Response>)
    requires WalkEnds(server) && server[0].status != 200
    ensures FirstStop(server, 0) == 0
    ensures Gathered(server) == []
  {
  }

  /**
   * A later error page at k: the result holds exactly the orders of pages 0..k-1
   * and nothing of page k or beyond.
   */
  lemma EndsOnErrorPage(server: seq<Response>, k: nat)
    requires WalkEnds(server) && 0 < k < |server|
    requires forall j :: 0 <= j < k ==> server[j].status == 200 && HasNext(server[j])
    requires server[k].status != 200
    ensures FirstStop(server, 0) == k
    ensures Gathered(server) == PageOrders(server[..k])
  {
    FirstStopIsFirst(server, 0, k);
  }

  /** A 200 page k with no next link: the result holds the orders of pages 0..k. */
  lemma EndsOnLastPage(server: seq<Response>, k: nat)
    requires WalkEnds(server) && k < |server|
    requires forall j :: 0 <= j < k ==> server[j].status == 200 && HasNext(server[j])
    requires server[k].status == 200 && !HasNext(server[k])
    ensures FirstStop(server, 0) == k
    ensures Gathered(server) == PageOrders(server[..k + 1])
  {
    FirstStopIsFirst(server, 0, k);
  }
}
