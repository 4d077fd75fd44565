# Shopify shipping cost breakdown — a Dafny model

This project models the core of a small tool that reconciles a Shopify store's
orders with a Stamps.com shipping-label ledger to show what shipping really cost
per order. The class `shopify_shipping_cost` runs three stages:

1. **Page walk** (`get_orders`). It requests the order collection, follows `next`
   link relations page by page, and extracts one `[id, tracking]` pair per order.
   A missing id becomes `"N/A"`. An order without fulfillments gets `"none"`. A
   first fulfillment without `tracking_number` gets `"N/A"`. A non-200 first
   response gives an empty result. A non-200 later response ends the walk and
   keeps what was gathered.
2. **Index** (`prepare_map`). It turns the `"none"` sentinel into `None` in place,
   then builds `id2tracking` and `tracking2id` by dict comprehension. A later pair
   overwrites an earlier one with the same key.
3. **Reconciliation** (`run`). It gives each local order the tracking number of its
   id and drops the orders that get none. It inner-joins the rest with the shipping
   ledger on `Tracking #`; ledger rows with no tracking were dropped at load time.
   It parses `Amount Paid` after its first character (the currency symbol), sums
   the three money columns, and adds a per-row `percent`.

Files:

- `wrappers.dfy`: `Option` and `Result`.
- `shopify.dfy` (module `Shopify`): the JSON shapes, the per-order extraction, and
  the reference definition of the page walk (`FirstStop`, `PageOrders`, `Gathered`) with
  its lemmas. The HTTP server is a sequence of responses: the n-th request gets
  `server[n]`.
- `order_index.dfy` (module `OrderIndex`): sentinel normalisation and the
  last-wins dictionaries.
- `reconcile.dfy` (module `Reconcile`): the join, the amount parse, the sums and
  the percent.
- `shipping_cost.dfy` (module `ShippingCost`): the class `ShopifyShippingCost`.
  It holds the two ledgers and the two dictionaries. Its methods are `GetOrders`
  (a loop proved against `Gathered`), `PrepareMap` (an in-place normalisation
  loop) and `Run`. Lemmas in this module connect the stages.

Values from JSON and CSV cells are `Value = Null | Str | Num`. `Null` stands for
JSON null, Python `None` and pandas NaN. Money is `real`. Python's `float()` is a
parameter `parse: string -> Option<real>`, which answers `None` where `float()`
raises.

Behaviour of the code worth knowing when reading the model:

- Only `"none"` is normalised (line 82). An `"N/A"` tracking stays a join key
  (`NotAvailableStillJoins`).
- `"none"` means the order has no fulfillments; `"N/A"` means its first
  fulfillment has no `tracking_number`, or the order has no `id` (lines 58-59).
- A `float()` failure on an `Amount Paid` text aborts `run` (line 96): `ParseRows`
  and `Reconcile` return `Failure` with the first text that fails.
- A zero subtotal gives `percent = None` where pandas gives inf or NaN (line 103).

## Model

| member | source | states |
|---|---|---|
| `Shopify.FirstStop` | shipping_cost_breakdown.py:54-75 | the walk's last request is the first response with a non-200 status or no truthy `next` url; every earlier one is a 200 with a next link |
| `Shopify.FirstStopIsFirst` | shipping_cost_breakdown.py:66-75 | a stopping response preceded only by non-stopping ones is where the walk ends |
| `Shopify.PageOrdersAppend` | shipping_cost_breakdown.py:54-60 | the pairs of consecutive pages are the concatenation of each page's pairs, in page order |
| `Shopify.PageOrdersLength` | shipping_cost_breakdown.py:57-60 | exactly one pair per order on the fetched pages; nothing is deduplicated or dropped |
| `Shopify.PageOrdersAt` | shipping_cost_breakdown.py:54-60 | the m-th order of page j is extracted at the position right after all orders of pages before j |
| `Shopify.FirstPageError` | shipping_cost_breakdown.py:46-50 | a non-200 first response ends the walk at once with an empty result |
| `Shopify.EndsOnErrorPage` | shipping_cost_breakdown.py:66-72 | a non-200 later page k ends the walk; the result is exactly the orders of pages 0..k-1 |
| `Shopify.EndsOnLastPage` | shipping_cost_breakdown.py:66-75 | a 200 page k with no next link ends the walk; the result is the orders of pages 0..k |
| `ShippingCost.ShopifyShippingCost.GetOrders` | shipping_cost_breakdown.py:38-77 | the loop returns the gathered pairs and issues one request per response up to the first stopping one; a non-200 first response gives `[]` after a single request |
| `OrderIndex.NormalisedExtraction` | shipping_cost_breakdown.py:58-59 | an order's tracking after normalisation is null iff it has no (or empty) fulfillments or its first fulfillment's tracking is null or `"none"`; it is `"N/A"` iff that key is absent or holds `"N/A"`; a missing id is `"N/A"` |
| `OrderIndex.NormalisedExact` | shipping_cost_breakdown.py:81-83 | normalisation keeps length and ids, turns exactly the `"none"` trackings into null, leaves `"N/A"` and every other tracking unchanged, and leaves no `"none"` |
| `OrderIndex.NormalisedIdempotent` | shipping_cost_breakdown.py:81-83 | normalising twice is the same as normalising once |
| `OrderIndex.LastWinsSpec` | shipping_cost_breakdown.py:85-86 | a comprehension-built dict has exactly the keys of the pairs, each mapped to the value of the last pair with that key |
| `OrderIndex.LastWinsAt` | shipping_cost_breakdown.py:85-86 | the last pair with a key decides that key's value |
| `OrderIndex.IdToTrackingSpec` | shipping_cost_breakdown.py:85 | `id2tracking` has one key per distinct id and maps it to the tracking of the last pair with that id |
| `OrderIndex.TrackingToIdSpec` | shipping_cost_breakdown.py:86 | `tracking2id` has one key per distinct tracking (null included) and maps it to the id of the last pair with that tracking |
| `ShippingCost.ShopifyShippingCost.PrepareMap` | shipping_cost_breakdown.py:79-86 | the in-place loop produces the normalised pairs, and both dicts are built from them; the ledgers are unchanged |
| `ShippingCost.ShopifyShippingCost.constructor` | shipping_cost_breakdown.py:30-32 | the shipping ledger is kept without its rows whose tracking is missing |
| `Reconcile.DropUntracked` | shipping_cost_breakdown.py:32 | a ledger row survives iff its tracking is not null |
| `Reconcile.TrackedOrders` | shipping_cost_breakdown.py:91-92 | an order is kept, with its tracking, iff the index maps its id to a non-null tracking |
| `Reconcile.JoinMembership` | shipping_cost_breakdown.py:91-94 | a row is in the join iff its order is a local order indexed to a non-null tracking and its ledger row carries that same tracking |
| `Reconcile.JoinMultiplicity` | shipping_cost_breakdown.py:94 | for each non-null tracking the join has (local orders indexed to it) × (ledger rows carrying it) rows |
| `Reconcile.JoinIgnoresUntrackedLabels` | shipping_cost_breakdown.py:94 | dropping the null-tracking ledger rows (line 32) never changes the join |
| `Reconcile.StripSymbol` | shipping_cost_breakdown.py:96 | the amount text is `Amount Paid` with exactly its first character removed (empty stays empty) |
| `Reconcile.ParseRows` | shipping_cost_breakdown.py:96 | parsing succeeds iff every joined row's stripped amount parses; then there is one row per joined row carrying the parsed amount; otherwise the error names the first text that fails |
| `Reconcile.PercentIsNetShippingShare` | shipping_cost_breakdown.py:103 | for a non-zero subtotal, `percent` is (label cost − shipping charged) / subtotal × 100 |
| `Reconcile.PercentExamples` | shipping_cost_breakdown.py:103 | 100/10/20 gives 10 percent, 50/5/12.5 gives 15, a zero subtotal gives no finite value |
| `Reconcile.ParsedColumnSums` | shipping_cost_breakdown.py:96-99 | summing a column of the parsed rows equals summing it directly over the joined rows (parsed amount, or the order's subtotal or shipping) |
| `Reconcile.ReportTotals` | shipping_cost_breakdown.py:97-99 | a successful report has one row per joined row; every joined row's amount parses; shipping cost, shipping revenue and subtotal are the sums over the joined rows of the parsed `Amount Paid`, the order's `Shipping` and the order's `Subtotal` |
| `Reconcile.NetRevenueIsSumOfRowNets` | shipping_cost_breakdown.py:101 | subtotal + (shipping revenue − shipping cost) from the totals equals the sum of the per-row margins |
| `Reconcile.ReportRowsMatchBothLedgers` | shipping_cost_breakdown.py:91-96 | every report row has a non-null tracking shared by a local order indexed to it and by a ledger row whose parsed amount is the row's amount |
| `ShippingCost.ShopifyShippingCost.Run` | shipping_cost_breakdown.py:88-104 | `run` builds the index from the walk and returns the reconciliation of the ledgers under it |
| `ShippingCost.UntrackedOrderExcluded` | shipping_cost_breakdown.py:82-92 | a local order whose last fetched record had no fulfillment or a null tracking is in no joined row |
| `ShippingCost.NotAvailableStillJoins` | shipping_cost_breakdown.py:82-94 | a local order whose last fetched record had tracking `"N/A"` joins every ledger row whose tracking is `"N/A"` |
| `ShippingCost.SecondPageErrorScenario` | shipping_cost_breakdown.py:66-72 | two orders on page 1 then an HTTP 500 on page 2: both orders are kept, the unfulfilled one with a null tracking, after two requests |

## Left out

- HTTP: the request, `response.links` parsing, `response.json()`, `time.sleep(.5)` and the `count` page counter used only in log lines (lines 44-73). The server is a sequence of responses. A transport exception or a body that is not JSON is not modelled.
- GetOrders: requires that the server's last response ends the walk. A server that keeps sending next links forever, which would make the source loop forever, is not modelled.
- Every `print` (lines 49, 56, 71, 100-102), including the `int()` truncations and the ratio printed on line 102.
- NetRevenueIsSumOfRowNets: uses the exact sums; the revenue printed on line 101 truncates each total with `int()` before adding.
- The constructor's configuration checks and CSV reads (lines 12-35): the constructor receives the loaded ledgers; only the `dropna` on line 32 is modelled.
- `argparse`, `__main__` and `to_csv` (lines 104-136): command-line and file output plumbing.
- Floating point: amounts are reals; `float()` is the `parse` parameter; rounding is not modelled. `percent` is `None` where pandas gives inf or NaN.
- The `!= None` filter on line 93: it keeps every row after the `dropna` on line 92.
- pandas typing: column dtype inference (such as numeric tracking numbers read as numbers) and NaN ids in the local ledger are not modelled. A local `Id` is an integer, looked up as `Num(id)`.
- Python key equality across types (`1 == 1.0 == True`): `Value` equality is structural.
- A non-string `Amount Paid` cell, on which `x[1:]` raises a TypeError: `Amount Paid` is a string in the model.
- Merge row order: the model emits rows left-major, then in ledger order, as current pandas does for an inner join. The proved join properties (membership, multiplicity) do not depend on the order.
