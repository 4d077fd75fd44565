/**
 * The reconciliation join of `run`: local orders get the tracking number the index
 * gives their id, untracked ones are dropped, the rest are inner-joined with the
 * shipping ledger on the tracking number, the `Amount Paid` text is parsed after
 * dropping its currency symbol, and the three money columns are summed.
 *
 * Money is modelled on `real`; Python's `float()` is the parameter `parse`, which
 * answers None where `float()` raises.
 */
module Reconcile {
  import opened Wrappers
  import opened Shopify

  /** A row of the local order ledger (`Id`, `Name`, `Subtotal`, `Shipping`). */
  datatype LocalOrder = LocalOrder(id: int, name: string, subtotal: real, shipping: real)

  /** A row of the shipping ledger (`Tracking #`, `Amount Paid`); a missing cell is Null. */
  datatype Label = Label(tracking: Value, amountPaid: string)

  /** A row of the merge: the local order, the shared tracking number and the label. */
  datatype Joined = Joined(order: LocalOrder, tracking: Value, stamp: Label)

  /** A row of the report; `percent` is None where pandas yields inf or NaN. */
  datatype Row = Row(name: string, tracking: Value, amountPaid: real, subtotal: real,
                     shipping: real, percent: Option<real>)

  /** The text `float()` rejected. */
  datatype ParseError = ParseError(text: string)

  /** The report rows with the three column totals. */
  datatype Report = Report(rows: seq<Row>, shippingCost: real, shippingRevenue: real, subtotal: real)

  datatype Column = AmountPaid | Subtotal | Shipping

  /** `dropna(subset=['Tracking #'])` on the shipping ledger. */
  function DropUntracked(stamps: seq<Label>): (r: seq<Label>)
    ensures |r| <= |stamps|
    ensures forall l :: l in r <==> l in stamps && l.tracking != Null
  {
    if stamps == [] then []
    else (if stamps[0].tracking != Null then [stamps[0]] else []) + DropUntracked(stamps[1..])
  }

  /** `Series.map(dict)`: the tracking of an id, Null (NaN) when the id is not a key. */
  function Lookup(m: map<Value, Value>, id: int): Value {
    if Num(id) in m then m[Num(id)] else Null
  }

  /** Attach a tracking number to every local order, then drop the null ones. */
  function TrackedOrders(orders: seq<LocalOrder>, m: map<Value, Value>): (r: seq<(LocalOrder, Value)>)
    ensures forall p :: p in r <==> p.0 in orders && p.1 == Lookup(m, p.0.id) && p.1 != Null
  {
    if orders == [] then []
    else
      var t := Lookup(m, orders[0].id);
      (if t != Null then [(orders[0], t)] else []) + TrackedOrders(orders[1..], m)
  }

  /** The rows the order `o`, tracked as `t`, produces: one per label with tracking `t`. */
  function Matches(o: LocalOrder, t: Value, stamps: seq<Label>): seq<Joined> {
    if stamps == [] then []
    else (if stamps[0].tracking == t then [Joined(o, t, stamps[0])] else []) + Matches(o, t, stamps[1..])
  }

  /** `pd.merge(left, stamps, on='Tracking #')`: an inner join, left rows in order. */
  function Merge(left: seq<(LocalOrder, Value)>, stamps: seq<Label>): seq<Joined> {
    if left == [] then [] else Matches(left[0].0, left[0].1, stamps) + Merge(left[1..], stamps)
  }

  function Join(orders: seq<LocalOrder>, stamps: seq<Label>, m: map<Value, Value>): seq<Joined> {
    Merge(TrackedOrders(orders, m), stamps)
  }

  lemma {:induction false} MatchesMembership(o: LocalOrder, t: Value, stamps: seq<Label>, x: Joined)
    ensures x in Matches(o, t, stamps) <==> x.order == o && x.tracking == t && x.stamp in stamps && x.stamp.tracking == t
    decreases |stamps|
  {
    if stamps != [] {
      MatchesMembership(o, t, stamps[1..], x);
      assert stamps == [stamps[0]] + stamps[1..];
    }
  }

  lemma {:induction false} MergeMembership(left: seq<(LocalOrder, Value)>, stamps: seq<Label>, x: Joined)
    ensures x in Merge(left, stamps) <==> (x.order, x.tracking) in left && x.stamp in stamps && x.stamp.tracking == x.tracking
    decreases |left|
  {
    if left != [] {
      MergeMembership(left[1..], stamps, x);
      MatchesMembership(left[0].0, left[0].1, stamps, x);
      assert left == [left[0]] + left[1..];
    }
  }

  /**
   * Inner-join semantics, both directions: a row is in the join exactly when its
   * order is a local order whose id the index maps to a non-null tracking number,
   * its label is in the ledger, and both carry that tracking number.
   */
  lemma JoinMembership(orders: seq<LocalOrder>, stamps: seq<Label>, m: map<Value, Value>, x: Joined)
    ensures x in Join(orders, stamps, m) <==>
      && x.order in orders && x.stamp in stamps
      && x.tracking != Null && x.tracking == Lookup(m, x.order.id) && x.stamp.tracking == x.tracking
  {
    MergeMembership(TrackedOrders(orders, m), stamps, x);
  }

  /** The number of local orders the index tracks as `t`. */
  function CountTracked(orders: seq<LocalOrder>, m: map<Value, Value>, t: Value): nat {
    if orders == [] then 0
    else (if Lookup(m, orders[0].id) == t then 1 else 0) + CountTracked(orders[1..], m, t)
  }

  /** The number of ledger rows with tracking `t`. */
  function CountLabels(stamps: seq<Label>, t: Value): nat {
    if stamps == [] then 0 else (if stamps[0].tracking == t then 1 else 0) + CountLabels(stamps[1..], t)
  }

  /** The number of joined rows with tracking `t`. */
  function CountRows(rows: seq<Joined>, t: Value): nat {
    if rows == [] then 0 else (if rows[0].tracking == t then 1 else 0) + CountRows(rows[1..], t)
  }

  lemma {:induction false} CountRowsAppend(a: seq<Joined>, b: seq<Joined>, t: Value)
    ensures CountRows(a + b, t) == CountRows(a, t) + CountRows(b, t)
    decreases |a|
  {
    if a == [] {
      assert a + b == b;
    } else {
      assert (a + b)[0] == a[0];
      assert (a + b)[1..] == a[1..] + b;
      CountRowsAppend(a[1..], b, t);
    }
  }

  lemma {:induction false} MatchesCount(o: LocalOrder, u: Value, stamps: seq<Label>, t: Value)
    ensures CountRows(Matches(o, u, stamps), t) == if u == t then CountLabels(stamps, t) else 0
    decreases |stamps|
  {
    if stamps != [] {
      var head := if stamps[0].tracking == u then [Joined(o, u, stamps[0])] else [];
      CountRowsAppend(head, Matches(o, u, stamps[1..]), t);
      MatchesCount(o, u, stamps[1..], t);
    }
  }

  lemma {:induction false} MergeCount(orders: seq<LocalOrder>, m: map<Value, Value>, stamps: seq<Label>, t: Value)
    requires t != Null
    ensures CountRows(Merge(TrackedOrders(orders, m), stamps), t) == CountTracked(orders, m, t) * CountLabels(stamps, t)
    decreases |orders|
  {
    if orders != [] {
      var u := Lookup(m, orders[0].id);
      var rest := TrackedOrders(orders[1..], m);
      var c := if u == t then 1 else 0;
      var labels := CountLabels(stamps, t);
      MergeCount(orders[1..], m, stamps, t);
      assert CountTracked(orders, m, t) == c + CountTracked(orders[1..], m, t);
      Distribute(c, CountTracked(orders[1..], m, t), labels);
      if u != Null {
        var left := [(orders[0], u)] + rest;
        assert TrackedOrders(orders, m) == left;
        assert left[0] == (orders[0], u) && left[1..] == rest;
        assert Merge(left, stamps) == Matches(orders[0], u, stamps) + Merge(rest, stamps);
        CountRowsAppend(Matches(orders[0], u, stamps), Merge(rest, stamps), t);
        MatchesCount(orders[0], u, stamps, t);
      } else {
        assert TrackedOrders(orders, m) == rest;
      }
    }
  }

  lemma Distribute(a: nat, b: nat, n: nat)
    ensures (a + b) * n == a * n + b * n
  {
  }

  /**
   * Duplicate keys multiply: the join has, for each non-null tracking number,
   * (local orders tracked as it) × (ledger rows carrying it) rows.
   */
  lemma JoinMultiplicity(orders: seq<LocalOrder>, stamps: seq<Label>, m: map<Value, Value>, t: Value)
    requires t != Null
    ensures CountRows(Join(orders, stamps, m), t) == CountTracked(orders, m, t) * CountLabels(stamps, t)
  {
    MergeCount(orders, m, stamps, t);
  }

  lemma {:induction false} MatchesIgnoreUntracked(o: LocalOrder, t: Value, stamps: seq<Label>)
    requires t != Null
    ensures Matches(o, t, DropUntracked(stamps)) == Matches(o, t, stamps)
    decreases |stamps|
  {
    if stamps != [] {
      MatchesIgnoreUntracked(o, t, stamps[1..]);
      var d := DropUntracked(stamps);
      var head := if stamps[0].tracking == t then [Joined(o, t, stamps[0])] else [];
      assert Matches(o, t, stamps) == head + Matches(o, t, stamps[1..]);
      if stamps[0].tracking != Null {
        assert d == [stamps[0]] + DropUntracked(stamps[1..]);
        assert d[0] == stamps[0] && d[1..] == DropUntracked(stamps[1..]);
        assert Matches(o, t, d) == head + Matches(o, t, d[1..]);
      } else {
        assert head == [];
        assert d == DropUntracked(stamps[1..]);
      }
    }
  }

  lemma {:induction false} MergeIgnoresUntracked(orders: seq<LocalOrder>, m: map<Value, Value>, stamps: seq<Label>)
    ensures Merge(TrackedOrders(orders, m), DropUntracked(stamps)) == Merge(TrackedOrders(orders, m), stamps)
    decreases |orders|
  {
    if orders != [] {
      var u := Lookup(m, orders[0].id);
      var rest := TrackedOrders(orders[1..], m);
      MergeIgnoresUntracked(orders[1..], m, stamps);
      if u != Null {
        assert TrackedOrders(orders, m) == [(orders[0], u)] + rest;
        assert ([(orders[0], u)] + rest)[1..] == rest;
        MatchesIgnoreUntracked(orders[0], u, stamps);
      } else {
        assert TrackedOrders(orders, m) == rest;
      }
    }
  }

  /**
   * Dropping the untracked ledger rows never changes the join: the order side never
   * carries a null tracking number, so a null label matches nothing.
   */
  lemma JoinIgnoresUntrackedLabels(orders: seq<LocalOrder>, stamps: seq<Label>, m: map<Value, Value>)
    ensures Join(orders, DropUntracked(stamps), m) == Join(orders, stamps, m)
  {
    MergeIgnoresUntracked(orders, m, stamps);
  }

  /** `x[1:]`: the `Amount Paid` text with its first character, the currency symbol, removed. */
  function StripSymbol(s: string): (r: string)
    ensures |s| > 0 ==> [s[0]] + r == s
    ensures |s| == 0 ==> r == ""
  {
    if |s| == 0 then "" else s[1..]
  }

  /** The text handed to `float()` for a joined row. */
  function AmountText(x: Joined): string {
    StripSymbol(x.stamp.amountPaid)
  }

  /** `(1 - (Subtotal + Shipping - Amount Paid) / Subtotal) * 100`, None for a zero subtotal. */
  function Percent(subtotal: real, shipping: real, amountPaid: real): Option<real> {
    if subtotal == 0.0 then None else Some((1.0 - (subtotal + shipping - amountPaid) / subtotal) * 100.0)
  }

  lemma DivideSum(x: real, y: real, d: real)
    requires d != 0.0
    ensures x / d + y / d == (x + y) / d
  {
  }

  /**
   * The percent is the net shipping cost (label cost minus shipping charged) as a
   * percentage of the subtotal.
   */
  lemma PercentIsNetShippingShare(subtotal: real, shipping: real, amountPaid: real)
    requires subtotal != 0.0
    ensures Percent(subtotal, shipping, amountPaid) == Some((amountPaid - shipping) / subtotal * 100.0)
  {
    DivideSum(subtotal + shipping - amountPaid, amountPaid - shipping, subtotal);
    assert (subtotal + shipping - amountPaid) + (amountPaid - shipping) == subtotal;
    assert subtotal / subtotal == 1.0;
  }

  /** Two documented rows: 100/10/20 gives 10 percent, 50/5/12.5 gives 15 percent. */
  lemma PercentExamples()
    ensures Percent(100.0, 10.0, 20.0) == Some(10.0)
    ensures Percent(50.0, 5.0, 12.5) == Some(15.0)
    ensures Percent(0.0, 5.0, 12.5) == None
    ensures StripSymbol("$12.50") == "12.50"
  {
  }

  function MakeRow(x: Joined, amount: real): Row {
    Row(x.order.name, x.tracking, amount, x.order.subtotal, x.order.shipping,
        Percent(x.order.subtotal, x.order.shipping, amount))
  }

  /**
   * `r_data['Amount Paid'].apply(lambda x: float(x[1:]))`: every row parsed in order;
   * the first text `float()` rejects aborts the run.
   */
  function ParseRows(joined: seq<Joined>, parse: string -> Option<real>): (r: Result<seq<Row>, ParseError>)
    ensures r.Success? <==> forall i :: 0 <= i < |joined| ==> parse(AmountText(joined[i])).Some?
    ensures r.Success? ==> |r.value| == |joined|
    ensures r.Success? ==> forall i :: 0 <= i < |joined| ==>
      parse(AmountText(joined[i])) == Some(r.value[i].amountPaid) && r.value[i] == MakeRow(joined[i], r.value[i].amountPaid)
    ensures r.Failure? ==>
      exists i :: && 0 <= i < |joined| && parse(AmountText(joined[i])).None?
                  && r.error == ParseError(AmountText(joined[i]))
                  && forall j :: 0 <= j < i ==> parse(AmountText(joined[j])).Some?
  {
    if joined == [] then Success([])
    else
      match parse(AmountText(joined[0]))
      case None => Failure(ParseError(AmountText(joined[0])))
      case Some(amount) =>
        match ParseRows(joined[1..], parse)
        case Failure(e) => Failure(e)
        case Success(rows) => Success([MakeRow(joined[0], amount)] + rows)
  }

  function Cell(r: Row, c: Column): real {
    match c
    case AmountPaid => r.amountPaid
    case Subtotal => r.subtotal
    case Shipping => r.shipping
  }

  /** `r_data[c].sum()`. */
  function ColumnSum(rows: seq<Row>, c: Column): real {
    if rows == [] then 0.0 else Cell(rows[0], c) + ColumnSum(rows[1..], c)
  }

  /** The margin one row contributes: subtotal plus shipping charged minus label cost. */
  function RowNet(r: Row): real {
    r.subtotal + r.shipping - r.amountPaid
  }

  function NetSum(rows: seq<Row>): real {
    if rows == [] then 0.0 else RowNet(rows[0]) + NetSum(rows[1..])
  }

  /** The whole of `run` after the index is built. */
  function Reconcile(orders: seq<LocalOrder>, stamps: seq<Label>, m: map<Value, Value>,
                     parse: string -> Option<real>): Result<Report, ParseError>
  {
    match ParseRows(Join(orders, stamps, m), parse)
    case Failure(e) => Failure(e)
    case Success(rows) =>
      Success(Report(rows, ColumnSum(rows, AmountPaid), ColumnSum(rows, Shipping), ColumnSum(rows, Subtotal)))
  }

  /** Total revenue: the subtotal plus shipping revenue minus shipping cost. */
  function NetRevenue(rep: Report): real {
    rep.subtotal + (rep.shippingRevenue - rep.shippingCost)
  }

  lemma {:induction false} ColumnSumsAreRowNets(rows: seq<Row>)
    ensures ColumnSum(rows, Subtotal) + (ColumnSum(rows, Shipping) - ColumnSum(rows, AmountPaid)) == NetSum(rows)
    decreases |rows|
  {
    if rows != [] {
      ColumnSumsAreRowNets(rows[1..]);
    }
  }

  /**
   * The aggregate identity: the revenue computed from the three column totals is
   * the sum of the per-row margins.
   */
  lemma NetRevenueIsSumOfRowNets(orders: seq<LocalOrder>, stamps: seq<Label>, m: map<Value, Value>,
                                 parse: string -> Option<real>)
    requires Reconcile(orders, stamps, m, parse).Success?
    ensures NetRevenue(Reconcile(orders, stamps, m, parse).value) == NetSum(Reconcile(orders, stamps, m, parse).value.rows)
  {
    ColumnSumsAreRowNets(Reconcile(orders, stamps, m, parse).value.rows);
  }

  /**
   * Every report row comes from a local order and a ledger row that share its
   * non-null tracking number, the local order's id being indexed to it; the row's
   * amount is the label's `Amount Paid` parsed after its first character.
   */
  lemma ReportRowsMatchBothLedgers(orders: seq<LocalOrder>, stamps: seq<Label>, m: map<Value, Value>,
                                   parse: string -> Option<real>, i: nat)
    requires Reconcile(orders, stamps, m, parse).Success?
    requires i < |Reconcile(orders, stamps, m, parse).value.rows|
    ensures var row := Reconcile(orders, stamps, m, parse).value.rows[i];
      && row.tracking != Null
      && (exists o :: o in orders && Lookup(m, o.id) == row.tracking && o.name == row.name
                      && o.subtotal == row.subtotal && o.shipping == row.shipping)
      && (exists l :: l in stamps && l.tracking == row.tracking
                      && parse(StripSymbol(l.amountPaid)) == Some(row.amountPaid))
  {
    var joined := Join(orders, stamps, m);
    var x := joined[i];
    JoinMembership(orders, stamps, m, x);
  }

  /** What one joined row contributes to a column: its parsed amount or its order's money. */
  function JoinedCell(x: Joined, parse: string -> Option<real>, c: Column): real
    requires parse(AmountText(x)).Some?
  {
    match c
    case AmountPaid => parse(AmountText(x)).value
    case Subtotal => x.order.subtotal
    case Shipping => x.order.shipping
  }

  /** A column summed directly over the joined rows. */
  function JoinedSum(js: seq<Joined>, parse: string -> Option<real>, c: Column): real
    requires forall i :: 0 <= i < |js| ==> parse(AmountText(js[i])).Some?
  {
    if js == [] then 0.0 else JoinedCell(js[0], parse, c) + JoinedSum(js[1..], parse, c)
  }

  lemma {:induction false} ParsedColumnSums(js: seq<Joined>, parse: string -> Option<real>, c: Column)
    requires ParseRows(js, parse).Success?
    ensures ColumnSum(ParseRows(js, parse).value, c) == JoinedSum(js, parse, c)
    decreases |js|
  {
    if js != [] {
      var rest := ParseRows(js[1..], parse);
      assert rest.Success?;
      assert ParseRows(js, parse).value == [MakeRow(js[0], parse(AmountText(js[0])).value)] + rest.value;
      ParsedColumnSums(js[1..], parse, c);
    }
  }

  /**
   * The totals of a successful report are sums over the joined rows: the shipping
   * cost adds up the parsed `Amount Paid` of every joined row, the shipping revenue
   * and subtotal add up the local orders' columns, once per joined row.
   */
  lemma ReportTotals(orders: seq<LocalOrder>, stamps: seq<Label>, m: map<Value, Value>,
                     parse: string -> Option<real>)
    requires Reconcile(orders, stamps, m, parse).Success?
    ensures forall i :: 0 <= i < |Join(orders, stamps, m)| ==> parse(AmountText(Join(orders, stamps, m)[i])).Some?
    ensures var rep := Reconcile(orders, stamps, m, parse).value;
      var js := Join(orders, stamps, m);
      && |rep.rows| == |js|
      && rep.shippingCost == JoinedSum(js, parse, AmountPaid)
      && rep.shippingRevenue == JoinedSum(js, parse, Shipping)
      && rep.subtotal == JoinedSum(js, parse, Subtotal)
  {
    var js := Join(orders, stamps, m);
    ParsedColumnSums(js, parse, AmountPaid);
    ParsedColumnSums(js, parse, Shipping);
    ParsedColumnSums(js, parse, Subtotal);
  }
}
