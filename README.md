# Order entry, order editing and sales tally of a customer-management web app

This project models the order-handling core of a small customer-management
single-page application and proves properties of that model. The application
is a React client backed by a hosted SQL store. Three screens form the core:

- **New order form** (`client/src/pages/NewOrderForm.jsx`). The user builds an
  order from a header (customer, payment method, status, remark), a list of
  service lines, a list of product lines and uploaded photo URLs.
  - The order total is the sum of the lines' discounted totals.
  - Submitting writes one `orders` header row, asks for the newest order id,
    then writes one `orderservices` / `orderproducts` row per line, and resets
    the form. As written, the reset form's product line has quantity 0.
- **Order dashboard** (`client/src/pages/dashboards/Orders.jsx`). It lists the
  cached orders, opens one for editing and updates its line objects in place.
  - The edit screen's order total is computed separately.
  - Saving splits the lines into existing ones (those with a child-row key) and
    new ones, then mirrors the saved order into the cached list.
  - Deleting a line or an order removes it from the local lists.
- **Sales dashboard** (`client/src/pages/dashboards/Sales.jsx`). It shows the
  total of the fetched orders and a per-status tally of orders and
  appointments, each kept in a dictionary from status to count.

Modules:

- `Catalog`: catalog entries and `find`-by-name, which returns the first match.
- `Totals`: the percentage discount and left-to-right sums (`reduce` /
  `forEach` accumulators), with their algebra.
- `Filters`: `Array.prototype.filter` over sequences, with its algebra.
- `NewOrderForm`: the form as a value.
  - Every handler is a function from the old form to the new one.
  - `CalculateTotalOrderPrice` is a loop method, proved against `OrderTotal`.
  - Submit is the sequence of store calls it issues, plus the notice it ends with.
- `OrderDashboard`: the screen's component state is the class `OrderScreen`.
  - The service and product line objects are the classes `ServiceRecord` and
    `ProductRecord`. The change handlers assign their fields in place.
  - `Valid()` says each line object occurs once, so editing one line leaves the
    other lines unchanged.
- `SalesDashboard`: the total, the status-tally loop over a `map<string, int>`
  (`StatusCounts`), and the component state `SalesScreen`.

Where the source does something its authors evidently did not intend, the
handlers follow the source as written. The intended behaviour is a separately
named member, and "## Findings" pairs the two.

Numbers are exact reals; ids are `Option<int>`. Every remote call (insert,
select, update, delete, the confirmation dialog) is a parameter carrying its
outcome.

## Model

| member | source | states |
|---|---|---|
| Catalog.FindByName | client/src/pages/NewOrderForm.jsx:165-166 | `find` by display name: None exactly when no entry has that name; otherwise the first entry with that name |
| Totals.Discounted | client/src/pages/NewOrderForm.jsx:231-237 | `amount * (1 - disc/100)`: no discount keeps the amount, a 100% discount or a zero amount gives 0, and with a discount in 0..100 the result lies between 0 and the amount |
| Totals.SumAppend | client/src/pages/NewOrderForm.jsx:227-240 | the sum of a concatenation is the sum of the parts |
| Totals.SumUpdate | client/src/pages/NewOrderForm.jsx:227-240 | replacing one element moves the sum by exactly the difference of the two terms |
| Totals.SumRemoveAt | client/src/pages/NewOrderForm.jsx:211-225 | removing element `i` takes exactly its term off the sum |
| Totals.SumPermutation | client/src/pages/NewOrderForm.jsx:227-240 | the sum does not depend on the order of the elements |
| Totals.SumMonotone | client/src/pages/dashboards/Orders.jsx:407-411 | termwise domination carries over to the sums |
| Totals.SumNonNegative | client/src/pages/NewOrderForm.jsx:227-240 | a sum of non-negative terms is non-negative |
| Totals.SumCongruent | client/src/pages/dashboards/Orders.jsx:407-411 | summands that agree on every element give equal sums |
| Filters.Filter | client/src/pages/dashboards/Orders.jsx:326-330 | a filter result is no longer than its input, and every kept element satisfies the predicate |
| Filters.FilterMembership | client/src/pages/dashboards/Orders.jsx:326-330 | an element is kept exactly when it occurs in the input and satisfies the predicate |
| Filters.FilterAppend | client/src/pages/dashboards/Orders.jsx:326-330 | filtering distributes over concatenation, so relative order is kept |
| Filters.FilterAll | client/src/pages/dashboards/Orders.jsx:134 | a filter that every element passes returns its input |
| Filters.FilterPartition | client/src/pages/dashboards/Orders.jsx:326-330 | a predicate and its complement split the input into two groups that hold every element exactly as often as the input |
| Filters.FilterIdempotent | client/src/pages/dashboards/Orders.jsx:386 | filtering twice with one predicate is filtering once |
| NewOrderForm.CalculateTotalOrderPrice | client/src/pages/NewOrderForm.jsx:227-240 | the two accumulation loops return `OrderTotal`, the sum of every line's discounted total; empty lines give 0 |
| NewOrderForm.OrderTotal | client/src/pages/NewOrderForm.jsx:227-240 | a form with no lines totals 0 |
| NewOrderForm.OrderTotalNonNegative | client/src/pages/NewOrderForm.jsx:227-240 | with non-negative prices and quantities and discounts in 0..100, the order total is never negative |
| NewOrderForm.OrderTotalReorder | client/src/pages/NewOrderForm.jsx:227-240 | reordering the lines of either kind leaves the total unchanged |
| NewOrderForm.UndiscountedOrderTotal | client/src/pages/NewOrderForm.jsx:227-240 | with every discount 0 the total is the plain sum of prices and of price times quantity |
| NewOrderForm.InitialForm | client/src/pages/NewOrderForm.jsx:13-25 | the screen starts with an empty header, no photos, one empty service line, and one empty product line with quantity 1 |
| NewOrderForm.InitialFormTotal | client/src/pages/NewOrderForm.jsx:13-25 | the initial form totals 0 |
| NewOrderForm.AddItem | client/src/pages/NewOrderForm.jsx:197-209 | appends one default line of the given kind, leaves everything else unchanged, and keeps the total |
| NewOrderForm.RemoveAt | client/src/pages/NewOrderForm.jsx:211-225 | `filter((_, i) => i !== index)`: drops exactly the element at `index` and shifts the rest; an index out of range removes nothing |
| NewOrderForm.RemoveItem | client/src/pages/NewOrderForm.jsx:211-225 | removes the line of that kind at `index`; the total drops by exactly that line's total |
| NewOrderForm.HandleChangeSelection | client/src/pages/NewOrderForm.jsx:161-195 | a name found in the catalog copies the first match's name, id and price onto that one line; an unknown name changes nothing |
| NewOrderForm.HandleLineChange | client/src/pages/NewOrderForm.jsx:106-122 | an input on a line writes its value into that field of that line only |
| NewOrderForm.LineChangeTotal | client/src/pages/NewOrderForm.jsx:106-122 | after a line edit the total moves by exactly the change in that line's total |
| NewOrderForm.KeepHttp | client/src/pages/NewOrderForm.jsx:265-267 | keeps only string entries starting with "http" |
| NewOrderForm.KeepHttpAppend | client/src/pages/NewOrderForm.jsx:265-267 | the photo filter distributes over concatenation |
| NewOrderForm.KeepHttpMembership | client/src/pages/NewOrderForm.jsx:265-267 | a string is kept exactly when it is an entry and starts with "http" |
| NewOrderForm.ValidPhotos | client/src/pages/NewOrderForm.jsx:265-267 | a photo value that is not an array yields no photos; an array yields exactly its http URLs, in order (`KeepHttp` of its entries) |
| NewOrderForm.SpreadText | client/src/pages/NewOrderForm.jsx:99-104 | spreading a string gives one one-character string per character |
| NewOrderForm.SpreadTextKeepsNothing | client/src/pages/NewOrderForm.jsx:99-104 | no entry of a spread string survives the photo filter |
| NewOrderForm.HandleImageUpload | client/src/pages/NewOrderForm.jsx:99-104 | appends the URL to the photo list; a text value is spread into characters first |
| NewOrderForm.UploadKeepsEarlierPhotos | client/src/pages/NewOrderForm.jsx:99-104 | an uploaded http URL is kept after every photo kept before it |
| NewOrderForm.SetHeaderField | client/src/pages/NewOrderForm.jsx:123-129 | `[name]: value` writes exactly the named header field; every other field, including user id, name and email, keeps its value |
| NewOrderForm.HandleHeaderChangeAsWritten | client/src/pages/NewOrderForm.jsx:123-129 | as written, a header edit sets the named header field, keeps the lines, and also replaces the photo list with the typed text, which yields no valid photos |
| NewOrderForm.HeaderChangeDropsPhotos | client/src/pages/NewOrderForm.jsx:123-129 | upload, remark edit, upload: only the second URL is kept |
| NewOrderForm.HandleHeaderChange | client/src/pages/NewOrderForm.jsx:123-129 | as intended, a header edit sets the named header field and keeps lines, photos and total |
| NewOrderForm.HeaderChangeKeepsPhotos | client/src/pages/NewOrderForm.jsx:123-129 | with the intended handler, upload, header edit, upload keeps both URLs in upload order after the earlier photos |
| NewOrderForm.ServiceRows | client/src/pages/NewOrderForm.jsx:247-253 | one service row per line, in line order, carrying the order id and the line's total |
| NewOrderForm.ProductRows | client/src/pages/NewOrderForm.jsx:255-262 | one product row per line, in line order, carrying the order id and the line's total |
| NewOrderForm.ServiceRowsTotal | client/src/pages/NewOrderForm.jsx:247-253 | the service rows' totals add up to the services' total |
| NewOrderForm.ProductRowsTotal | client/src/pages/NewOrderForm.jsx:255-262 | the product rows' totals add up to the products' total |
| NewOrderForm.ServiceInserts | client/src/pages/NewOrderForm.jsx:318-320 | one insert per service row, in order |
| NewOrderForm.ProductInserts | client/src/pages/NewOrderForm.jsx:321-323 | one insert per product row, in order |
| NewOrderForm.OrderHeaderRow | client/src/pages/NewOrderForm.jsx:264-283 | the inserted header carries the form's header, the form's order total (0 for a form with no lines), and the form's valid photos, all http URLs (none when the photo value is text) |
| NewOrderForm.HandleSubmit | client/src/pages/NewOrderForm.jsx:242-360 | the header insert comes first. A failed insert stops with "failed to create" and keeps the form; a failed id query stops with "failed to fetch" and keeps the form. Otherwise one insert per line follows, in order, and the form is reset as written, with product quantity 0 |
| NewOrderForm.HandleSubmitIntended | client/src/pages/NewOrderForm.jsx:330-343 | as intended, the same store calls and notice, but a successful submit returns to the initial form |
| NewOrderForm.SubmitTotalsAgree | client/src/pages/NewOrderForm.jsx:242-324 | the child rows' totals add up to the header's total |
| NewOrderForm.SubmitEmptyOrder | client/src/pages/NewOrderForm.jsx:242-324 | an order without lines writes a zero-total header and no child rows |
| NewOrderForm.ResetFormAsWritten | client/src/pages/NewOrderForm.jsx:332-343 | the reset form equals the initial form except that its one product line has quantity 0 |
| NewOrderForm.ResetQuantityZeroHidesPrice | client/src/pages/NewOrderForm.jsx:330-343 | after the as-written reset, selecting a priced product still totals 0; on the initial form the same selection totals its price |
| OrderDashboard.SetDetailsField | client/src/pages/dashboards/Orders.jsx:413-418 | writes exactly the named header field |
| OrderDashboard.SetDetailsFieldLaws | client/src/pages/dashboards/Orders.jsx:413-418 | the last write to a field wins; writes to different fields commute |
| OrderDashboard.ApplyServiceChange | client/src/pages/dashboards/Orders.jsx:225-266 | a listed name sets id, name and price from the first match; an unlisted name clears the id, zeroes the price and keeps the old name; a discount input sets the discount; the line total is recomputed in every case |
| OrderDashboard.ApplyProductChange | client/src/pages/dashboards/Orders.jsx:269-312 | as for services, with quantity and discount inputs; the total is price times quantity after the discount |
| OrderDashboard.SelectThenClearService | client/src/pages/dashboards/Orders.jsx:239-256 | selecting a listed service and then an unlisted name leaves no id, price 0, total 0 and the earlier name |
| OrderDashboard.EditOrderTotal | client/src/pages/dashboards/Orders.jsx:407-411 | the edit-screen total of an order with no lines is 0 |
| OrderDashboard.DiscountedTotal | client/src/pages/NewOrderForm.jsx:227-240 | the sum of the lines' own discounted totals is 0 for no lines |
| OrderDashboard.EditTotalIgnoresServiceDiscount | client/src/pages/dashboards/Orders.jsx:407-411 | changing a service discount leaves the edit-screen total unchanged |
| OrderDashboard.EditTotalIgnoresProductDiscount | client/src/pages/dashboards/Orders.jsx:407-411 | changing a product discount leaves the edit-screen total unchanged |
| OrderDashboard.EditTotalBoundsDiscountedTotal | client/src/pages/dashboards/Orders.jsx:407-411 | with non-negative amounts and discounts in 0..100 the edit-screen total is at least the sum of line totals, and equal when nothing is discounted |
| OrderDashboard.EditTotalDivergesFromDiscountedTotal | client/src/pages/dashboards/Orders.jsx:407-411 | one service at 100 with 10% off: the edit screen saves 100 while the line totals 90 |
| OrderDashboard.SplitServices | client/src/pages/dashboards/Orders.jsx:326-327 | every line of the first group has a child-row key and no line of the second has one; together the groups hold exactly the input lines, as a multiset and in total length |
| OrderDashboard.SplitServicesMembership | client/src/pages/dashboards/Orders.jsx:326-327 | a line is in the update group exactly when it is an input line with a key, and in the add group exactly when it is one without |
| OrderDashboard.SplitServicesAppend | client/src/pages/dashboards/Orders.jsx:326-327 | the split keeps the lines' relative order within each group |
| OrderDashboard.SplitProducts | client/src/pages/dashboards/Orders.jsx:329-330 | every product line of the first group has a child-row key and no line of the second has one; together the groups hold exactly the input lines, as a multiset and in total length |
| OrderDashboard.SplitProductsMembership | client/src/pages/dashboards/Orders.jsx:329-330 | a product line is in the update group exactly when it is an input line with a key, and in the add group exactly when it is one without |
| OrderDashboard.SplitProductsAppend | client/src/pages/dashboards/Orders.jsx:329-330 | the split keeps the lines' relative order within each group |
| OrderDashboard.CombineServicesAsWritten | client/src/pages/dashboards/Orders.jsx:333-340 | as written, one entry per line; every defined entry is a line with a child-row key |
| OrderDashboard.CombineAsWrittenLosesAddedLines | client/src/pages/dashboards/Orders.jsx:182-192 | as written, each newly added service line reaches the saved order only as an undefined entry |
| OrderDashboard.CombineProductsAsWritten | client/src/pages/dashboards/Orders.jsx:342-345 | as written, one entry per product line; every defined entry is a line with a child-row key |
| OrderDashboard.CombineAsWrittenLosesAddedProducts | client/src/pages/dashboards/Orders.jsx:194-205 | as written, each newly added product line reaches the saved order only as an undefined entry |
| OrderDashboard.CombineServices | client/src/pages/dashboards/Orders.jsx:337-340 | existing lines then added lines: a permutation of the edited lines |
| OrderDashboard.CombineProducts | client/src/pages/dashboards/Orders.jsx:342-345 | existing lines then added lines: a permutation of the edited lines |
| OrderDashboard.CombineServicesAsWrittenAgrees | client/src/pages/dashboards/Orders.jsx:333-340 | position by position, the as-written service list equals the intended one at each line with a key and is undefined exactly where the intended one holds an added line |
| OrderDashboard.CombineProductsAsWrittenAgrees | client/src/pages/dashboards/Orders.jsx:342-345 | the same agreement for the product lists |
| OrderDashboard.CombineKeepsTotals | client/src/pages/dashboards/Orders.jsx:337-345 | the combined lists have the same edit-screen total and the same discounted total as the edited lines |
| OrderDashboard.RemoveServiceLines | client/src/pages/dashboards/Orders.jsx:134 | no kept line has the deleted key, and nothing is added |
| OrderDashboard.RemoveServiceLinesExact | client/src/pages/dashboards/Orders.jsx:134 | exactly the lines with that key are removed; removing an absent key changes nothing |
| OrderDashboard.RemoveProductLines | client/src/pages/dashboards/Orders.jsx:161 | no kept line has the deleted key, and nothing is added |
| OrderDashboard.RemoveProductLinesExact | client/src/pages/dashboards/Orders.jsx:161 | exactly the lines with that key are removed; removing an absent key changes nothing |
| OrderDashboard.RemoveOrder | client/src/pages/dashboards/Orders.jsx:386 | no kept cached order has the deleted id, and nothing is added |
| OrderDashboard.RemoveOrderExact | client/src/pages/dashboards/Orders.jsx:386 | exactly the cached orders with that id are removed, and removing twice is removing once |
| OrderDashboard.MirrorSavedOrder | client/src/pages/dashboards/Orders.jsx:355-357 | the entries with the selected id become the saved order; every other entry stays where it is |
| OrderDashboard.DeleteAfterSave | client/src/pages/dashboards/Orders.jsx:355-357 | deleting an order after saving it leaves the same list as deleting it directly |
| OrderDashboard.ServiceRecord.HandleChange | client/src/pages/dashboards/Orders.jsx:225-266 | the line object's new fields are `ApplyServiceChange` of its old fields |
| OrderDashboard.ProductRecord.HandleChange | client/src/pages/dashboards/Orders.jsx:269-312 | the line object's new fields are `ApplyProductChange` of its old fields |
| OrderDashboard.KeepServiceRecordsSound | client/src/pages/dashboards/Orders.jsx:134 | filtering the line objects reads back as filtering their snapshots, and creates no duplicate object |
| OrderDashboard.KeepProductRecordsSound | client/src/pages/dashboards/Orders.jsx:161 | filtering the line objects reads back as filtering their snapshots, and creates no duplicate object |
| OrderDashboard.NewServiceRecords | client/src/pages/dashboards/Orders.jsx:211-215 | one fresh, distinct line object per fetched service line, reading back as those lines |
| OrderDashboard.NewProductRecords | client/src/pages/dashboards/Orders.jsx:211-215 | one fresh, distinct line object per fetched product line, reading back as those lines |
| OrderDashboard.OrderScreen.constructor | client/src/pages/dashboards/Orders.jsx:9-27 | the screen starts with no orders, no selection, edit mode off, no line objects and empty catalogs |
| OrderDashboard.OrderScreen.LoadInitialData | client/src/pages/dashboards/Orders.jsx:29-44 | on success the orders and both catalogs are replaced; on failure nothing changes |
| OrderDashboard.OrderScreen.HandleViewOrder | client/src/pages/dashboards/Orders.jsx:207-219 | the fetched order becomes both the selection and the edited order, with fresh line objects; a failed fetch changes nothing |
| OrderDashboard.OrderScreen.HandleEditOrder | client/src/pages/dashboards/Orders.jsx:221-223 | switches to edit mode and changes nothing else |
| OrderDashboard.OrderScreen.HandleDetailsChange | client/src/pages/dashboards/Orders.jsx:413-418 | a header input writes its field of the edited order |
| OrderDashboard.OrderScreen.HandleServiceChange | client/src/pages/dashboards/Orders.jsx:225-266 | line `index` becomes `ApplyServiceChange` of itself; every other line and the line objects themselves are unchanged |
| OrderDashboard.OrderScreen.HandleProductChange | client/src/pages/dashboards/Orders.jsx:269-312 | line `index` becomes `ApplyProductChange` of itself; every other line and the line objects themselves are unchanged |
| OrderDashboard.OrderScreen.HandleAddService | client/src/pages/dashboards/Orders.jsx:420-438 | appends one fresh empty service line for the selected order |
| OrderDashboard.OrderScreen.HandleAddProduct | client/src/pages/dashboards/Orders.jsx:440-459 | appends one fresh empty product line, quantity 1, for the selected order |
| OrderDashboard.OrderScreen.HandleDeleteOrderService | client/src/pages/dashboards/Orders.jsx:127-152 | when confirmed and the delete succeeds, the lines become `RemoveServiceLines` of the old lines; otherwise nothing changes |
| OrderDashboard.OrderScreen.HandleDeleteOrderProduct | client/src/pages/dashboards/Orders.jsx:154-179 | when confirmed and the delete succeeds, the lines become `RemoveProductLines` of the old lines; otherwise nothing changes |
| OrderDashboard.OrderScreen.HandleDeleteOrder | client/src/pages/dashboards/Orders.jsx:381-404 | when confirmed and the delete succeeds, the cached orders lose that id and the selection is cleared; otherwise nothing changes |
| OrderDashboard.OrderScreen.HandleSaveOrder | client/src/pages/dashboards/Orders.jsx:315-378 | after a successful update, the cached entry becomes the edited header with the edit-screen total and the as-written combined lines (added lines undefined), the selection is refreshed and edit mode is left; a failed update changes nothing |
| SalesDashboard.TotalSalesAsWritten | client/src/pages/dashboards/Sales.jsx:26 | as written, no rows give 0, and a numeric total means no row lacks the `total_order_sales` column (a `null` value adds 0) |
| SalesDashboard.TotalSalesAsWrittenDefined | client/src/pages/dashboards/Sales.jsx:26 | the as-written total is a number exactly when no row lacks the `total_order_sales` column, and it is then the sum of the field with `null` counting 0 |
| SalesDashboard.TotalSalesAsWrittenIsNaN | client/src/pages/dashboards/Sales.jsx:26 | one row without a `total_order_sales` column makes the as-written total NaN; the corrected total is that row's order price |
| SalesDashboard.TotalSalesAsWrittenNullRows | client/src/pages/dashboards/Sales.jsx:26 | rows whose `total_order_sales` is `null` add nothing: their as-written total is 0, not NaN |
| SalesDashboard.TotalSales | client/src/pages/dashboards/Sales.jsx:26 | the sum of `total_order_price` over the rows: 0 for no rows, and non-negative when every order total is |
| SalesDashboard.TotalSalesProperties | client/src/pages/dashboards/Sales.jsx:26 | the total is additive over batches and independent of row order |
| SalesDashboard.CountAbsent | client/src/pages/dashboards/Sales.jsx:30-33 | a status that never occurs counts 0 |
| SalesDashboard.MapTotalRemove | client/src/pages/dashboards/Sales.jsx:30-33 | the sum of a tally's counts splits at any key |
| SalesDashboard.MapTotalIncrement | client/src/pages/dashboards/Sales.jsx:32 | incrementing a key, or adding a new key at 1, adds 1 to the sum of counts |
| SalesDashboard.Bump | client/src/pages/dashboards/Sales.jsx:32 | one tally step stores the old count of its key (0 when absent) plus 1 under that key, adds the key if new, and changes no other key |
| SalesDashboard.InitialCounts | client/src/pages/dashboards/Sales.jsx:30 | the tally starts with `pending`, `completed` and `cancelled` at 0 |
| SalesDashboard.TallyStep | client/src/pages/dashboards/Sales.jsx:31-33 | a tally of the first i statuses, bumped at status i, is the tally of the first i+1 |
| SalesDashboard.StatusCounts | client/src/pages/dashboards/Sales.jsx:30-33 | keys are the three initial ones plus every status seen; each count is the number of statuses exactly equal to its key; the counts add up to the number of statuses |
| SalesDashboard.OrderStatuses | client/src/pages/dashboards/Sales.jsx:31-32 | the orders' `order_status` values, in order |
| SalesDashboard.AppointmentStatuses | client/src/pages/dashboards/Sales.jsx:52-53 | the appointments' `app_status` values, in order |
| SalesDashboard.DisplayedCountsAsWritten | client/src/pages/dashboards/Sales.jsx:30-33 | statuses spelled as the order screens store them count 0 under every displayed key |
| SalesDashboard.NormalizedStatusCounts | client/src/pages/dashboards/Sales.jsx:30-33 | as intended, the tally of the lower-cased statuses, with the same key, count and sum guarantees |
| SalesDashboard.NormalizedCountsShowFormStatuses | client/src/pages/dashboards/Sales.jsx:30-33 | with lower-casing, each stored status is counted under its displayed key |
| SalesDashboard.SalesScreen.constructor | client/src/pages/dashboards/Sales.jsx:5-9 | the dashboard starts with no rows, a total of 0 and both tallies at 0 under the three initial keys |
| SalesDashboard.SalesScreen.FetchOrders | client/src/pages/dashboards/Sales.jsx:14-36 | on success: the rows, their as-written total (NaN as None) and their status tally keyed by the statuses exactly as stored (keys, counts, counts adding up to the row count); on an error nothing changes |
| SalesDashboard.SalesScreen.FetchAppointments | client/src/pages/dashboards/Sales.jsx:39-57 | on success: the rows and their status tally keyed by the statuses exactly as stored; on an error nothing changes |

## Left out

- The hosted data store and network. Every query, insert, update and delete is
  a parameter carrying its outcome (success flag, fetched rows, or the newest
  order id). `async`/`await`, `Promise.all` and the interleaving of
  concurrent handlers are not modelled.
- The customer lookup by phone number in the new order form
  (`client/src/pages/NewOrderForm.jsx:131-158`). It is a remote query whose
  result fills header fields.
- `NewOrderForm.HeaderField` names only the inputs that call `handleChange`
  (phone number, payment method, status, remark). The name and email inputs are
  read-only and there is no user-id input. Those three header fields are set
  only by the customer lookup, which is left out.
- The catalog loaders and their failure alerts in the new order form
  (`client/src/pages/NewOrderForm.jsx:30-97`). The catalog is a parameter.
- Floating point. Amounts are exact reals, so IEEE rounding, `toFixed(2)`,
  `toLocaleString` and `Number(...)` coercion of typed text are not modelled.
  Typed numbers reach the model already converted.
- Empty string, `null` and `undefined` ids are all modelled as `None`.
- `NewOrderForm.HandleChangeSelection`, `NewOrderForm.HandleLineChange`,
  `OrderDashboard.OrderScreen.HandleServiceChange` and
  `OrderDashboard.OrderScreen.HandleProductChange` require the line index to
  exist. In the source the `|| {}` fallback for a missing index creates a new
  line object at that index, which the UI never does, since every index comes
  from a rendered row.
- The `e.target` guard in the dashboard's line handlers. It is a console error
  for a malformed event and changes nothing.
- `OrderDashboard.OrderScreen.HandleViewOrder`: the source shares the line
  objects between the selected order and the order being edited, so editing a
  line also changes the selection's copy. The model keeps only the header in
  the selection.
- Cached orders hold values, so they are snapshots of the line objects. This
  matches what the screen displays, but not the sharing of objects.
- `OrderDashboard.OrderScreen.HandleAddService`,
  `OrderDashboard.OrderScreen.HandleAddProduct`: the immediate insert of the new
  line is not part of this model. The source only logs its outcome, and the
  line stays without a child-row key, so saving inserts it again.
- `OrderDashboard.OrderScreen.HandleSaveOrder`: the inserts of new lines and
  the header update are the single outcome `updateOk`. The source ignores the
  insert results (it only logs them).
- The header input `total_order_price` of the edit form
  (`client/src/pages/dashboards/Orders.jsx:585`). Saving always overwrites it
  with the computed total, and nothing reads it before a save.
- The new order form's `total_order_price` state field. The screen never
  reads it; submit computes the total afresh.
- The date-range filter of the sales dashboard (`startDate`, `endDate` and the
  default end date, which depend on the clock and the time zone). The fetched
  rows are a parameter.
- Status strings are plain strings: a missing status (JavaScript's `"undefined"`
  key) and the object keys of `Object.prototype` are not modelled.
- The Customers, Products, Services, Appointments and Calendar screens, the
  signature pad and the image uploader are not part of this model.
  `handleImageUpload` receives the URL the uploader produced.

## Findings

| source | as written | input that shows it | evidently intended | confidence | as-written member | corrected member |
|---|---|---|---|---|---|---|
| client/src/pages/NewOrderForm.jsx:341 | after a successful submit the form is reset with a product line of `quantity: 0`, while the initial form (line 19) and `addItem` (line 206) use 1 | submit any order, then pick a product priced 50 on the first line: the total stays 0 | reset to the initial form, quantity 1 | medium, not executed | NewOrderForm.ResetQuantityZeroHidesPrice | NewOrderForm.HandleSubmitIntended |
| client/src/pages/NewOrderForm.jsx:127 | a header input also sets `photos` to the typed text; the next upload spreads that text into characters, and `validPhotos` drops everything but the new URL | upload "http://a", type "x" as remark, upload "http://b": only "http://b" is saved | set only the named field | high, not executed | NewOrderForm.HeaderChangeDropsPhotos | NewOrderForm.HandleHeaderChange |
| client/src/pages/dashboards/Orders.jsx:182-192, 333-345 | `saveService`/`saveProduct` return nothing, so `savedServices`/`savedProducts` hold `undefined` for every added line, and those entries replace the lines in the cached order | edit an order, add one service line, save: the cached order's services end with `undefined` | keep the added lines themselves | high, not executed | OrderDashboard.CombineAsWrittenLosesAddedLines | OrderDashboard.CombineServices |
| client/src/pages/dashboards/Sales.jsx:30-33, 51-54 | the tally's displayed keys are lower-case, but the order screens store `Pending`, `Completed` and `Cancelled` (client/src/pages/NewOrderForm.jsx:607-609), so the displayed counts stay 0; appointments are stored as `Scheduled`, `Completed` or `Cancelled` (client/src/pages/NewAppointmentForm.jsx:197-199), so only lower-casing brings two of them under a displayed key | one order with status "Pending": `pending` shows 0 and a separate `Pending` key holds 1 | count statuses case-insensitively | medium, not executed | SalesDashboard.DisplayedCountsAsWritten | SalesDashboard.NormalizedStatusCounts |
| client/src/pages/dashboards/Sales.jsx:26 | the total sums `total_order_sales`, a field the order screens never write (they write `total_order_price`), so a row without that column makes the total NaN (a `null` value would only add 0) | one order row with `total_order_price` 100 and no `total_order_sales` column: the card shows NaN | sum `total_order_price` | low (the table schema is not part of this model), not executed | SalesDashboard.TotalSalesAsWrittenIsNaN | SalesDashboard.TotalSales |
