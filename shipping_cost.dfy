/**
 * The tool object: it holds the two loaded ledgers and the two dictionaries that
 * `PrepareMap` builds, and runs the page walk and the reconciliation.
 *
 * Configuration (token, store name, file paths, start date) and the CSV reads are
 * outside the model: the constructor receives the ledgers as already loaded.
 */
module ShippingCost {
  import opened Wrappers
  import opened Shopify
  import opened OrderIndex
  import opened Reconcile

  class ShopifyShippingCost {
    /** The local order ledger. */
    var orders: seq<LocalOrder>
    /** The shipping ledger, without its rows that lack a tracking number. */
    var stamps: seq<Label>
    /** `id2tracking`, built by `PrepareMap`. */
    var idToTracking: map<Value, Value>
    /** `tracking2id`, built by `PrepareMap`. */
    var trackingToId: map<Value, Value>

    constructor (orders: seq<LocalOrder>, stamps: seq<Label>)
      ensures this.orders == orders && this.stamps == DropUntracked(stamps)
      ensures idToTracking == map[] && trackingToId == map[]
    {
      this.orders := orders;
      this.stamps := DropUntracked(stamps);
      idToTracking := map[];
      trackingToId := map[];
    }

    /**
     * The page walk: the n-th request receives `server[n]`. Returns the pairs
     * gathered and the number of requests issued.
     */
    method GetOrders(server: seq<Response>) returns (results: seq<OrderPair>, requests: nat)
      requires WalkEnds(server)
      ensures requests == FirstStop(server, 0) + 1
      ensures results == Gathered(server)
      ensures server[0].status != 200 ==> results == [] && requests == 1
    {
      results := [];
      requests := 1;
      var i := 0;
      if server[0].status != 200 {
        return;
      }
      while true
        invariant 0 <= i < |server| && requests == i + 1
        invariant server[i].status == 200
        invariant forall j :: 0 <= j < i ==> !Stops(server[j])
        invariant results == PageOrders(server[..i])
        decreases |server| - i
      {
        var page := OrdersOf(server[i]);
        ghost var before := results;
        for k := 0 to |page|
          invariant results == before + ExtractAll(page[..k])
        {
          assert ExtractAll(page[..k + 1]) == ExtractAll(page[..k]) + [ExtractOrder(page[k])];
          results := results + [ExtractOrder(page[k])];
        }
        assert page[..|page|] == page;
        assert server[..i + 1][..i] == server[..i];
        assert results == PageOrders(server[..i + 1]);
        if HasNext(server[i]) {
          i := i + 1;
          requests := requests + 1;
          if server[i].status != 200 {
            FirstStopIsFirst(server, 0, i);
            break;
          }
        } else {
          FirstStopIsFirst(server, 0, i);
          break;
        }
      }
    }

    /**
     * `prepare_map`: walk the pages, turn the `"none"` sentinels into null in place,
     * and build both dictionaries last-wins.
     */
    method PrepareMap(server: seq<Response>)
      requires WalkEnds(server)
      modifies this
      ensures orders == old(orders) && stamps == old(stamps)
      ensures idToTracking == IdToTracking(Normalised(Gathered(server)))
      ensures trackingToId == TrackingToId(Normalised(Gathered(server)))
    {
      var results, _ := GetOrders(server);
      ghost var fetched := results;
      for i := 0 to |results|
        invariant |results| == |fetched|
        invariant forall k :: 0 <= k < i ==> results[k] == Normalised(fetched)[k]
        invariant forall k :: i <= k < |results| ==> results[k] == fetched[k]
      {
        if results[i].tracking == NoFulfillment {
          results := results[i := results[i].(tracking := Null)];
        }
      }
      assert results == Normalised(fetched);
      idToTracking := IdToTracking(results);
      trackingToId := TrackingToId(results);
    }

    /**
     * `run`: build the index, then join, parse and total. A parse failure aborts
     * the run and is returned as the outcome.
     */
    method Run(server: seq<Response>, parse: string -> Option<real>) returns (outcome: Result<Report, ParseError>)
      requires WalkEnds(server)
      modifies this
      ensures orders == old(orders) && stamps == old(stamps)
      ensures idToTracking == IdToTracking(Normalised(Gathered(server)))
      ensures trackingToId == TrackingToId(Normalised(Gathered(server)))
      ensures outcome == Reconcile.Reconcile(orders, stamps, idToTracking, parse)
    {
      PrepareMap(server);
      outcome := Reconcile.Reconcile(orders, stamps, idToTracking, parse);
    }
  }

  /**
   * An order whose fetched record (the last one with its id) had no fulfillment,
   * or a null tracking number, never reaches the join.
   */
  lemma UntrackedOrderExcluded(server: seq<Response>, orders: seq<LocalOrder>, stamps: seq<Label>,
                               o: LocalOrder, j: nat)
    requires WalkEnds(server)
    requires j < |Gathered(server)| && Gathered(server)[j].id == Num(o.id)
    requires forall i :: j < i < |Gathered(server)| ==> Gathered(server)[i].id != Num(o.id)
    requires Gathered(server)[j].tracking == NoFulfillment || Gathered(server)[j].tracking == Null
    ensures forall x :: x in Join(orders, stamps, IdToTracking(Normalised(Gathered(server)))) ==> x.order != o
  {
    var rs := Normalised(Gathered(server));
    IdToTrackingSpec(rs, j);
    assert Lookup(IdToTracking(rs), o.id) == Null;
    forall x | x in Join(orders, stamps, IdToTracking(rs)) ensures x.order != o {
      JoinMembership(orders, stamps, IdToTracking(rs), x);
    }
  }

  /**
   * The `"N/A"` sentinel is not normalised: an order fetched with a fulfillment that
   * lacks a tracking number joins every ledger row whose tracking is `"N/A"`.
   */
  lemma NotAvailableStillJoins(server: seq<Response>, orders: seq<LocalOrder>, stamps: seq<Label>,
                               o: LocalOrder, j: nat, l: Label)
    requires WalkEnds(server)
    requires j < |Gathered(server)| && Gathered(server)[j].id == Num(o.id)
    requires forall i :: j < i < |Gathered(server)| ==> Gathered(server)[i].id != Num(o.id)
    requires Gathered(server)[j].tracking == NotAvailable
    requires o in orders && l in stamps && l.tracking == NotAvailable
    ensures Joined(o, NotAvailable, l) in Join(orders, stamps, IdToTracking(Normalised(Gathered(server))))
  {
    var rs := Normalised(Gathered(server));
    IdToTrackingSpec(rs, j);
    JoinMembership(orders, stamps, IdToTracking(rs), Joined(o, NotAvailable, l));
  }

  /**
   * Two orders on a first page with a next link, then an HTTP 500: the walk keeps
   * exactly the two orders, the one without fulfillments tracked as null after
   * normalisation, and issues two requests.
   */
  lemma SecondPageErrorScenario()
    ensures var server := [
      Response(200, Some([Order(Some(Num(1)), Some([Fulfillment(Some(Str("T1")))])),
                          Order(Some(Num(2)), None)]), Some("https://next")),
      Response(500, None, None)];
      && WalkEnds(server)
      && FirstStop(server, 0) + 1 == 2
      && Normalised(Gathered(server)) == [OrderPair(Num(1), Str("T1")), OrderPair(Num(2), Null)]
  {
  }
}
