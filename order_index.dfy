/**
 * The index built from the fetched pairs: the `"none"` sentinel is normalised to
 * null, then two dictionaries are built by comprehension, where a later pair
 * overwrites an earlier one with the same key.
 */
module OrderIndex {
  import opened Wrappers
  import opened Shopify

  /** The per-entry normalisation: only the literal `"none"` becomes null. */
  function NormaliseTracking(t: Value): Value {
    if t == NoFulfillment then Null else t
  }

  /** Every pair with its tracking normalised. */
  function Normalised(rs: seq<OrderPair>): seq<OrderPair> {
    seq(|rs|, i requires 0 <= i < |rs| => rs[i].(tracking := NormaliseTracking(rs[i].tracking)))
  }

  /**
   * Normalisation is exact: ids and length are kept, exactly the `"none"` entries
   * become null, every other tracking (`"N/A"` and null included) is unchanged, and
   * no `"none"` is left.
   */
  lemma NormalisedExact(rs: seq<OrderPair>)
    ensures |Normalised(rs)| == |rs|
    ensures forall i :: 0 <= i < |rs| ==> Normalised(rs)[i].id == rs[i].id
    ensures forall i :: 0 <= i < |rs| ==>
      (Normalised(rs)[i].tracking == Null <==> rs[i].tracking == NoFulfillment || rs[i].tracking == Null)
    ensures forall i :: 0 <= i < |rs| && rs[i].tracking != NoFulfillment ==>
      Normalised(rs)[i].tracking == rs[i].tracking
    ensures forall i :: 0 <= i < |rs| ==> Normalised(rs)[i].tracking != NoFulfillment
  {
  }

  /**
   * What an order's extracted pair becomes after normalisation: the tracking is
   * null exactly when the order has no (or an empty list of) fulfillments or its
   * first fulfillment's `tracking_number` is null or `"none"`; it is `"N/A"` exactly
   * when that key is absent or holds `"N/A"`; otherwise it is the key's value. The
   * id is `"N/A"` when the `id` key is absent.
   */
  lemma NormalisedExtraction(o: Order)
    ensures var t := NormaliseTracking(ExtractTracking(o));
      var first := if o.fulfillments.Some? && |o.fulfillments.value| > 0
                   then Some(o.fulfillments.value[0]) else None;
      && (t == Null <==> first.None? || first.value.tracking == Some(Null) || first.value.tracking == Some(NoFulfillment))
      && (t == NotAvailable <==> first.Some? && (first.value.tracking.None? || first.value.tracking == Some(NotAvailable)))
      && (first.Some? && first.value.tracking.Some? && first.value.tracking.value !in {Null, NoFulfillment}
          ==> t == first.value.tracking.value)
    ensures o.id.None? ==> ExtractOrder(o).id == NotAvailable
    ensures o.id.Some? ==> ExtractOrder(o).id == o.id.value
  {
  }

  /** Normalising twice gives the same pairs, hence the same maps. */
  lemma NormalisedIdempotent(rs: seq<OrderPair>)
    ensures Normalised(Normalised(rs)) == Normalised(rs)
  {
  }

  /** `{k: v for k, v in ps}`: insertion in order, a later key overwriting an earlier one. */
  function LastWins<K, V>(ps: seq<(K, V)>): map<K, V> {
    if ps == [] then map[] else LastWins(ps[..|ps| - 1])[ps[|ps| - 1].0 := ps[|ps| - 1].1]
  }

  /** The keys of the pairs. */
  function Keys<K, V>(ps: seq<(K, V)>): set<K> {
    set i | 0 <= i < |ps| :: ps[i].0
  }

  /** `j` is the position of the last pair whose key is `k`. */
  predicate IsLastWithKey<K(==), V>(ps: seq<(K, V)>, j: int, k: K) {
    0 <= j < |ps| && ps[j].0 == k && forall i :: j < i < |ps| ==> ps[i].0 != k
  }

  /**
   * Last-wins: the key set is exactly the set of keys of the pairs, and each key
   * maps to the value of the last pair that has it.
   */
  lemma {:induction false} LastWinsSpec<K, V>(ps: seq<(K, V)>)
    ensures LastWins(ps).Keys == Keys(ps)
    ensures forall k :: k in LastWins(ps) ==> exists j :: IsLastWithKey(ps, j, k) && LastWins(ps)[k] == ps[j].1
    decreases |ps|
  {
    if ps != [] {
      var init := ps[..|ps| - 1];
      var n := |ps| - 1;
      LastWinsSpec(init);
      assert Keys(ps) == Keys(init) + {ps[n].0} by {
        forall k | k in Keys(ps) ensures k in Keys(init) + {ps[n].0} {
          var i :| 0 <= i < |ps| && ps[i].0 == k;
          if i < n { assert init[i] == ps[i]; }
        }
        forall k | k in Keys(init) ensures k in Keys(ps) {
          var i :| 0 <= i < |init| && init[i].0 == k;
          assert ps[i] == init[i];
        }
      }
      forall k | k in LastWins(ps)
        ensures exists j :: IsLastWithKey(ps, j, k) && LastWins(ps)[k] == ps[j].1
      {
        if k == ps[n].0 {
          assert IsLastWithKey(ps, n, k);
        } else {
          var j :| IsLastWithKey(init, j, k) && LastWins(init)[k] == init[j].1;
          assert IsLastWithKey(ps, j, k);
        }
      }
    }
  }

  /** The last pair with a key decides its value: a value for a key named by a last pair. */
  lemma LastWinsAt<K, V>(ps: seq<(K, V)>, j: int)
    requires 0 <= j < |ps| && IsLastWithKey(ps, j, ps[j].0)
    ensures ps[j].0 in LastWins(ps) && LastWins(ps)[ps[j].0] == ps[j].1
  {
    LastWinsSpec(ps);
    assert ps[j].0 in Keys(ps);
    var j' :| IsLastWithKey(ps, j', ps[j].0) && LastWins(ps)[ps[j].0] == ps[j'].1;
  }

  function IdPairs(rs: seq<OrderPair>): seq<(Value, Value)> {
    seq(|rs|, i requires 0 <= i < |rs| => (rs[i].id, rs[i].tracking))
  }

  function TrackingPairs(rs: seq<OrderPair>): seq<(Value, Value)> {
    seq(|rs|, i requires 0 <= i < |rs| => (rs[i].tracking, rs[i].id))
  }

  /** `id2tracking`. */
  function IdToTracking(rs: seq<OrderPair>): map<Value, Value> {
    LastWins(IdPairs(rs))
  }

  /** `tracking2id`; null is a key like any other. */
  function TrackingToId(rs: seq<OrderPair>): map<Value, Value> {
    LastWins(TrackingPairs(rs))
  }

  /**
   * `id2tracking` holds one entry per distinct id of the pairs, and the entry for
   * the pair at position j, when no later pair has its id, is that pair's tracking.
   */
  lemma IdToTrackingSpec(rs: seq<OrderPair>, j: int)
    requires 0 <= j < |rs|
    requires forall i :: j < i < |rs| ==> rs[i].id != rs[j].id
    ensures IdToTracking(rs).Keys == set i | 0 <= i < |rs| :: rs[i].id
    ensures IdToTracking(rs)[rs[j].id] == rs[j].tracking
  {
    var ps := IdPairs(rs);
    LastWinsSpec(ps);
    assert Keys(ps) == set i | 0 <= i < |rs| :: rs[i].id by {
      forall k | k in Keys(ps) ensures k in set i | 0 <= i < |rs| :: rs[i].id {
        var i :| 0 <= i < |ps| && ps[i].0 == k;
        assert rs[i].id == k;
      }
      forall k | k in set i | 0 <= i < |rs| :: rs[i].id ensures k in Keys(ps) {
        var i :| 0 <= i < |rs| && rs[i].id == k;
        assert ps[i].0 == k;
      }
    }
    LastWinsAt(ps, j);
  }

  /**
   * `tracking2id` holds one entry per distinct tracking of the pairs, and a tracking
   * shared by several pairs maps to the id of the last of them.
   */
  lemma TrackingToIdSpec(rs: seq<OrderPair>, j: int)
    requires 0 <= j < |rs|
    requires forall i :: j < i < |rs| ==> rs[i].tracking != rs[j].tracking
    ensures TrackingToId(rs).Keys == set i | 0 <= i < |rs| :: rs[i].tracking
    ensures TrackingToId(rs)[rs[j].tracking] == rs[j].id
  {
    var ps := TrackingPairs(rs);
    LastWinsSpec(ps);
    assert Keys(ps) == set i | 0 <= i < |rs| :: rs[i].tracking by {
      forall k | k in Keys(ps) ensures k in set i | 0 <= i < |rs| :: rs[i].tracking {
        var i :| 0 <= i < |ps| && ps[i].0 == k;
        assert rs[i].tracking == k;
      }
      forall k | k in set i | 0 <= i < |rs| :: rs[i].tracking ensures k in Keys(ps) {
        var i :| 0 <= i < |rs| && rs[i].tracking == k;
        assert ps[i].0 == k;
      }
    }
    LastWinsAt(ps, j);
  }
}
