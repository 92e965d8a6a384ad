# Restaurant point-of-sale front end: the order-taking flow and the list views

This project models, in Dafny, the logic of a restaurant point-of-sale web
front end:

- The **customer session**: a store record holding the order id, the
  customer's name and phone, the guest count, the bound table and an
  anonymity flag. Five reducers change it.
- The **order-taking flow**:
  - a "Create Order" form with a guest counter bounded to 0..6;
  - table tiles that refuse a booked table;
  - a per-item quantity picker bounded to 0..10 that builds cart lines;
  - the bill panel: 5.25% tax, the three checks before an order may be
    placed, the order request, and the callbacks that book the table and
    clear the cart and session.
- The **list views**:
  - the menu grouped by category;
  - the dashboard metrics: revenue windows, status counts, unique
    customers, period-over-period changes;
  - the orders and tables tabs with their counts;
  - the home summary;
  - the payments panel: filters, summary cards, table cells, CSV export.

Modules, one per source file plus shared ones:

- `Common`: `Option`, `filter`, `reduce` as `Sum`, `join`/`split`, decimal rendering.
- `Records`: the order, table and payment records.
- `Cart`
- `CustomerSlice`
- `BottomNav`
- `TableCard`
- `MenuContainer`
- `UseMenu`
- `Api`
- `Bill`
- `UseMetrics`
- `OrdersPage`
- `TablesPage`
- `HomePage`
- `PaymentManagement`

Stateful components are classes whose methods state their whole new state:

- The session store is `CustomerSlice.CustomerStore`.
- The form is `BottomNav.NewOrderForm`.
- The picker is `MenuContainer.MenuPicker`.
- The bill panels are `Bill.BillPanel` and `Bill.OnlineBillPanel`.

The list views are functions with lemmas.

Modelling choices:

- **Backend answers are inputs.** A created order, a failed order and a
  failed table update are parameters.
- **Outgoing requests are recorded.** They are kept as sequences on the
  panel: `orderRequests`, `tableRequests`.
- **Clock and randomness are parameters.** `Date.now()` and the random guest
  number are passed in. So are the calendar bounds derived from the clock:
  `UseMetrics.Clock` and `PaymentManagement.DateBounds`.
- **Absent strings are empty strings.** Every use in the source treats an
  absent string like `""`. This covers `||`, `filter(Boolean)` and `join`.
- **Dates.** A date is `Option<int>` milliseconds. `None` stands for a
  missing or unparseable date, which passes no comparison.
- **Money** is exact (`real`).

## Model

| member | source | states |
|---|---|---|
| CustomerSlice.CustomerStore.constructor | src/redux/slices/customerSlice.js:3-10 | the initial session: empty order id, name and phone, 0 guests, no table, not anonymous |
| CustomerSlice.CustomerStore.SetCustomer | src/redux/slices/customerSlice.js:16-22 | order id "ORD"+timestamp, name or "Guest n" (n < 1000), phone, guests copied, table untouched; anonymous exactly when the stored name starts with "Guest" |
| CustomerSlice.StoredNameMatchesAnonymity | src/redux/slices/customerSlice.js:19-22 | the stored name is never empty, and starts with "Guest" exactly when the given name was absent or started with "Guest" |
| CustomerSlice.OrderIdEncodesTimestamp | src/redux/slices/customerSlice.js:18 | the order id is "ORD" followed by decimal digits that parse back to the timestamp |
| CustomerSlice.OrderIdInjective | src/redux/slices/customerSlice.js:18 | distinct timestamps give distinct order ids |
| CustomerSlice.CustomerStore.RemoveCustomer | src/redux/slices/customerSlice.js:25-32 | every field back to its initial value, whatever the state before (hence idempotent) |
| CustomerSlice.CustomerStore.UpdateTable | src/redux/slices/customerSlice.js:34-36 | only the table changes |
| CustomerSlice.CustomerStore.UpdateCustomerName | src/redux/slices/customerSlice.js:38-41 | the name is set and anonymity cleared; nothing else changes |
| CustomerSlice.CustomerStore.UpdateCustomerPhone | src/redux/slices/customerSlice.js:43-45 | only the phone changes |
| Cart.CartStore.AddItems | src/components/menu/MenuContainer.jsx:54 | the new line is appended at the end |
| Cart.CartStore.RemoveAllItems | src/components/menu/Bill.jsx:399 | the cart is empty |
| BottomNav.NewOrderForm.constructor | src/components/shared/BottomNav.jsx:15-18 | the form starts closed and empty, 0 guests |
| BottomNav.NewOrderForm.OpenModal | src/components/shared/BottomNav.jsx:20 | opens the form, keeps its fields |
| BottomNav.NewOrderForm.CloseModal | src/components/shared/BottomNav.jsx:21-26 | closes the form and resets name, phone and guests to "", "" and 0 |
| BottomNav.NewOrderForm.SetName | src/components/shared/BottomNav.jsx:106 | only the name changes |
| BottomNav.NewOrderForm.SetPhone | src/components/shared/BottomNav.jsx:120 | only the phone changes |
| BottomNav.NewOrderForm.Increment | src/components/shared/BottomNav.jsx:28-31 | one more guest unless already 6; the count stays in 0..6 |
| BottomNav.NewOrderForm.Decrement | src/components/shared/BottomNav.jsx:33-36 | one fewer guest unless already 0; the count stays in 0..6 |
| BottomNav.NewOrderForm.HandleCreateOrder | src/components/shared/BottomNav.jsx:40-49 | when the create button's disabled condition holds (line 151), nothing changes and there is no navigation; otherwise the session is set from exactly name, phone and guest count (1..6), the table is kept, the screen goes to "/tables" and the form is cleared and closed |
| TableCard.HandleClick | src/components/tables/TableCard.jsx:12-18 | a booked table changes nothing and does not navigate; any other binds exactly {tableId: id, tableNo: name} to the session, changes no other session field, and goes to "/menu" |
| MenuContainer.Raised | src/components/menu/MenuContainer.jsx:23-28 | one more below 10, and 10 at or above the cap; never above 10; from a non-negative count at least 1 |
| MenuContainer.Lowered | src/components/menu/MenuContainer.jsx:30-35 | one fewer above 0, and 0 at or below 0; never below 0 |
| MenuContainer.RaiseLowerInverse | src/components/menu/MenuContainer.jsx:23-35 | below the cap, increment then decrement restores the count; above 0, decrement then increment does |
| MenuContainer.NewCartLine | src/components/menu/MenuContainer.jsx:44-52 | a line for a count in 1..10 has price = unit price × count; unit price, quantity, name, item id and empty notes as given |
| MenuContainer.MenuPicker.constructor | src/components/menu/MenuContainer.jsx:12-13 | nothing selected, no counts |
| MenuContainer.MenuPicker.SelectFirstWhenLoaded | src/components/menu/MenuContainer.jsx:17-21 | selects the first menu exactly when menus exist and none is selected; counts untouched |
| MenuContainer.MenuPicker.Increment | src/components/menu/MenuContainer.jsx:23-28 | only this item's count changes, to the raised value (a missing key counts as 0); every count stays in 0..10 |
| MenuContainer.MenuPicker.Decrement | src/components/menu/MenuContainer.jsx:30-35 | only this item's count changes, to the lowered value; every count stays in 0..10 |
| MenuContainer.MenuPicker.HandleAddToCart | src/components/menu/MenuContainer.jsx:37-61 | refused exactly at count 0 (cart and counts unchanged); otherwise exactly one well-formed line is appended and only this item's count goes back to 0 |
| MenuContainer.MenuPicker.SelectCategory | src/components/menu/MenuContainer.jsx:95-98 | the tab is selected and every count cleared |
| UseMenu.KeyOf | src/hooks/useMenu.js:33 | the group key is the category's id, whether the category is populated or a bare id reference, so both land in one group; a missing category is "undefined" |
| UseMenu.Keys | src/hooks/useMenu.js:33-36 | the group keys, each once, cover every item's key |
| UseMenu.GroupIsFilter | src/hooks/useMenu.js:33-45 | the group of a key holds exactly the items with that key, in input order, and its name, icon and colour come from the first of them (or the defaults) |
| UseMenu.Partition | src/hooks/useMenu.js:32-47 | the group sizes add up to the number of items |
| UseMenu.GroupByCategory | src/hooks/useMenu.js:32-49 | one group per key in order of first appearance; each group's items are the input filtered by its key; headers from the first item; every item in exactly one group |
| UseMenu.GroupsMeetSpec | src/hooks/useMenu.js:32-49 | the groups built key by key meet the group-by specification |
| UseMenu.UseMenu | src/hooks/useMenu.js:49-57 | absent data gives empty lists; with data, one group per key in first-appearance order, each holding exactly the items with that key in input order, with its name, icon and colour from the first of them, and all items grouped; loading is either flag; the error is the first present one |
| Api.TableRequest | src/https/index.js:12 | the intended table update: the table's own path, with status and order id in the body |
| Api.TableRequestInjective | src/https/index.js:12 | the intended request determines the update it carries |
| Api.AsWrittenForgetsUpdate | src/components/menu/Bill.jsx:396-397 | as written, every table update becomes the same bodiless request, different from the intended one |
| Bill.Summarize | src/components/menu/Bill.jsx:322-325 | the subtotal is the cart total, tax × 100 = subtotal × 5.25, and the grand total is subtotal + tax |
| Bill.BillLaws | src/components/menu/Bill.jsx:322-325 | grand total = subtotal + tax = subtotal × 1.0525; tax is 0 exactly when the subtotal is; an empty cart bills 0, 0, 0; for a non-negative subtotal tax ≤ subtotal ≤ grand total |
| Bill.BillMonotone | src/components/menu/Bill.jsx:322-325 | a larger subtotal never gives a smaller tax or grand total |
| Bill.TwoTeas | src/components/menu/Bill.jsx:322-325 | two items at 20 bill 40, tax 2.10, total 42.10 |
| Bill.ValidateOrder | src/components/menu/Bill.jsx:337-352 | the first failing check in the order payment method, cart, table; accepted exactly when all three pass |
| Bill.OrderPayloadFor | src/components/menu/Bill.jsx:358-373 | status "In Progress"; name default "Guest", guests default 1, phone kept; the bill of the total; the session's table id; one item per cart line with name, quantity and unit price, whose price × quantity is the line total for a well-formed line |
| Bill.BookingFor | src/components/menu/Bill.jsx:382-386 | the booking update: the session's table, "Booked", the new order's id |
| Bill.BillPanel.constructor | src/components/menu/Bill.jsx:327-330 | no payment method, no invoice, no order, not processing |
| Bill.BillPanel.SelectPaymentMethod | src/components/menu/Bill.jsx:422 | only the payment method changes |
| Bill.BillPanel.HandlePlaceOrder | src/components/menu/Bill.jsx:354-376 | a failed check changes nothing and sends no order (redirecting to "/tables" for a missing table); an accepted one sets processing, which disables the place-order button (line 437), and sends exactly one order request |
| Bill.BillPanel.OnOrderSuccess | src/components/menu/Bill.jsx:380-389 | keeps the created order, sends exactly one booking update for the session's table with the new order's id, shows the invoice, stops processing |
| Bill.BillPanel.OnOrderError | src/components/menu/Bill.jsx:390-393 | only processing stops; the place-order button (line 437) is enabled again exactly when a payment method is chosen |
| Bill.BillPanel.OnTableUpdateSuccess | src/components/menu/Bill.jsx:396-401 | the cart is emptied and the session reset |
| Bill.BillPanel.CloseInvoice | src/components/menu/Bill.jsx:448-452 | hides the invoice and goes to "/" |
| Bill.PlaceOrder | src/components/menu/Bill.jsx:354-402 | the whole attempt: rejection changes nothing; acceptance sends one order; an order failure keeps cart and session; a created order leads to exactly one booking update; cart and session are cleared exactly when that update succeeds |
| Bill.VariantUnitPriceAgrees | src/components/menu/Bill.jsx:19 | for a line the menu builds, the fallback (unit price if non-zero, else line total / quantity) is the unit price |
| Bill.VariantPayload | src/components/menu/Bill.jsx:4-24 | the older panel's request: name kept, or exactly "Guest n" without one; guests kept, or 1 without any; phone kept; the gateway ids when paid online, unit prices and notes per item |
| Bill.VariantMatchesCurrent | src/components/menu/Bill.jsx:68-91 | for a named customer and a well-formed cart the older request equals the current one except for item notes and gateway ids |
| Bill.OnlineBillPanel.PlaceCashOrder | src/components/menu/Bill.jsx:2-27 | a cash order sends exactly one request without gateway ids |
| Bill.OnlineBillPanel.OnSdkLoadFailed | src/components/menu/Bill.jsx:37-43 | processing stops, no order is sent |
| Bill.OnlineBillPanel.OnPaymentChecked | src/components/menu/Bill.jsx:60-98 | a verified payment sends exactly one request carrying the gateway ids; a failed verification stops processing and sends nothing |
| Bill.OnlineBillPanel.OnGatewayDismissed | src/components/menu/Bill.jsx:105-109 | processing stops, no order is sent |
| Bill.OnlineBillPanel.OnPaymentError | src/components/menu/Bill.jsx:115-121 | processing stops, no order is sent |
| Bill.OnlineBillPanel.OnOrderSuccess | src/components/menu/Bill.jsx:126-149 | one booking update, invoice shown, processing stopped |
| Bill.OnlineBillPanel.OnOrderError | src/components/menu/Bill.jsx:150-156 | only processing stops |
| Bill.OnlineBillPanel.PrintAndClose | src/components/menu/Bill.jsx:169-174 | hides the invoice, empties the cart, resets the session, goes to "/" |
| UseMetrics.RevenueOf | src/hooks/useMetrics.js:89-101 | the earnings of the selected orders (a missing total counts 0), 0 without data |
| UseMetrics.TodayRevenue | src/hooks/useMetrics.js:89-101 | the earnings of the orders dated from today's midnight up to, not including, tomorrow's; 0 without data |
| UseMetrics.WeekRevenue | src/hooks/useMetrics.js:103-110 | the earnings of the orders dated at or after seven days ago; 0 without data |
| UseMetrics.MonthRevenue | src/hooks/useMetrics.js:112-120 | the earnings of the orders dated at or after one month ago; 0 without data |
| UseMetrics.TotalRevenue | src/hooks/useMetrics.js:122-125 | the earnings of all orders, 0 without data |
| UseMetrics.RevenueWindowsNest | src/hooks/useMetrics.js:89-125 | with non-negative totals, 0 ≤ today ≤ week ≤ month ≤ total revenue |
| UseMetrics.FortnightSplits | src/hooks/useMetrics.js:183-194 | this week [now−7d, now] and last week [now−14d, now−7d) are disjoint and their revenues add up to the fortnight's |
| UseMetrics.Phones | src/hooks/useMetrics.js:127-131 | the distinct non-empty phones: every non-empty phone is in, nothing else, at most one per order |
| UseMetrics.CustomersOf | src/hooks/useMetrics.js:133-167 | the number of distinct non-empty phones among the window's orders, at most the orders in it; 0 without data |
| UseMetrics.UniqueCustomers | src/hooks/useMetrics.js:127-131 | the number of distinct non-empty phones, at most the number of orders, at least 1 when an order has a phone, 0 without data |
| UseMetrics.PhonesAreDistinctPhones | src/hooks/useMetrics.js:127-131 | the phone set is exactly the set of the orders' non-empty phones |
| UseMetrics.SamePhoneOneCustomer | src/hooks/useMetrics.js:129 | two orders with the same phone are one customer |
| UseMetrics.OrderMetricsOf | src/hooks/useMetrics.js:43-48 | the order total is the list length; in progress, ready and completed are the numbers of orders with exactly that status; in-progress + ready + completed ≤ total; zeros without data |
| UseMetrics.TableMetricsOf | src/hooks/useMetrics.js:59-63 | the table total is the list length; booked and available are the numbers of tables with exactly that status; booked + available ≤ total; zeros without data |
| UseMetrics.PercentChange | src/hooks/useMetrics.js:196-207 | from a zero baseline: 100 for growth, else 0, an increase; for a positive baseline, an increase exactly when current ≥ previous; for a negative baseline, an increase exactly when current ≤ previous (the sign of the raw percentage); in both, the value is the relative change in percent |
| UseMetrics.CountChangeDirection | src/hooks/useMetrics.js:233-244 | for counts, an increase exactly when the count did not drop |
| UseMetrics.RevenuePercentage | src/hooks/useMetrics.js:170-208 | no orders: no change; otherwise the change from last week's revenue to this week's |
| UseMetrics.OrdersPercentage | src/hooks/useMetrics.js:211-245 | no orders: no change; otherwise the change in order counts (this week unbounded above) |
| UseMetrics.CustomersPercentage | src/hooks/useMetrics.js:248-278 | no orders: no change; otherwise the change in distinct customers |
| UseMetrics.ActiveOrdersPercentage | src/hooks/useMetrics.js:281-312 | no orders: no change; otherwise the change in in-progress orders, last hour against the hour before |
| UseMetrics.UseDashboardMetrics | src/hooks/useMetrics.js:5-86 | zeros and no changes without order data; status and table counts bounded by their totals; customers bounded by orders; loading if either query is; the orders' error first |
| OrdersPage.TabFilterMeaning | src/pages/Orders.jsx:42-48 | a status tab's filter is exactly that status's filter; "all" and unknown tabs keep the list |
| OrdersPage.FilteredOrders | src/pages/Orders.jsx:42-48 | no data stays no data; status tabs show exactly their status; other tabs show everything |
| OrdersPage.CountsOf | src/pages/Orders.jsx:51-56 | zeros without data; "all" is the length; progress + ready + completed ≤ all |
| OrdersPage.CountsMatchTabs | src/pages/Orders.jsx:42-56 | each tab's count is the length of that tab's list |
| OrdersPage.ShowsListIffCount | src/pages/Orders.jsx:42-56 | every tab shows a list exactly when the count on its badge is non-zero |
| TablesPage.TabFilterMeaning | src/pages/Tables.jsx:43-47 | "booked" is exactly the booked filter; any other tab keeps the list |
| TablesPage.FilteredTables | src/pages/Tables.jsx:43-47 | no data stays no data; "booked" shows exactly the booked tables; other tabs show everything |
| TablesPage.CountsOf | src/pages/Tables.jsx:87-97 | zeros without data; "all" is the length; booked ≤ all |
| TablesPage.CountsMatchTabs | src/pages/Tables.jsx:43-97 | each badge count is the length of that tab's list |
| HomePage.HomeSummaryOf | src/pages/Home.jsx:37-47 | earnings are the sum of order totals; the counts are list lengths; in progress ≤ orders, booked ≤ tables; zeros without data |
| HomePage.EarningsNonNegative | src/pages/Home.jsx:37-39 | with non-negative totals the earnings card is never negative |
| HomePage.DashboardStatusCountsAreTabLists | src/hooks/useMetrics.js:44-47 | the dashboard's in-progress, ready and completed figures are the lengths of the orders page's lists on the matching tabs |
| HomePage.HomeAgreesWithOtherViews | src/pages/Home.jsx:37-47 | on the same lists, the home cards equal the dashboard's figures and the orders and tables tab counts |
| PaymentManagement.FilteredPayments | src/components/dashboard/PaymentManagement.jsx:23-44 | no data stays no data; exactly the payments passing the status filter and the date filter, in list order (the list filtered by both), each kept once; "all"/"all" keeps everything |
| PaymentManagement.TotalAmount | src/components/dashboard/PaymentManagement.jsx:47 | the sum of the amounts; 0 without data, for an empty list, or when an amount is undefined (NaN) |
| PaymentManagement.NarrowerStatusLowerTotal | src/components/dashboard/PaymentManagement.jsx:23-47 | with non-negative amounts, a status filter never shows a larger total than "all" |
| PaymentManagement.SummaryOf | src/components/dashboard/PaymentManagement.jsx:47-50 | the successful, failed and pending cards count the payments with status exactly "captured", "failed" and "created"; their sum ≤ the filtered length; the total is the payment total; zeros without data |
| PaymentManagement.StatusFilterFillsOneCard | src/components/dashboard/PaymentManagement.jsx:25-50 | filtering by "captured" puts every shown payment on the successful card and none on the others |
| PaymentManagement.DisplayId | src/components/dashboard/PaymentManagement.jsx:180-183 | the last 8 characters (all of a shorter id); "N/A" for an empty id |
| PaymentManagement.DisplayIdKeepsSuffix | src/components/dashboard/PaymentManagement.jsx:180-183 | an id shows as its last 8 characters |
| PaymentManagement.OrNotAvailable | src/components/dashboard/PaymentManagement.jsx:191-205 | never empty; a non-empty value is shown as is |
| PaymentManagement.BadgeFor | src/components/dashboard/PaymentManagement.jsx:196-198 | green exactly for "captured", red exactly for "failed" |
| PaymentManagement.CsvCells | src/components/dashboard/PaymentManagement.jsx:240-249 | eight cells in header order: the ids, the amount text ("" for an undefined amount), method, status, email, contact, date |
| PaymentManagement.CsvRows | src/components/dashboard/PaymentManagement.jsx:239-251 | the header row, then one row per payment |
| PaymentManagement.ExportCsv | src/components/dashboard/PaymentManagement.jsx:237-251 | a file exactly when there is data |
| PaymentManagement.CsvReadsBack | src/components/dashboard/PaymentManagement.jsx:251 | with no comma or line break in a cell, the text splits into one line per row and each line into that row's cells |
| PaymentManagement.ExportReadsBack | src/components/dashboard/PaymentManagement.jsx:239-251 | the file has 1 + n lines: the header names, then each payment's cells |
| PaymentManagement.ExportFileNameIsDate | src/components/dashboard/PaymentManagement.jsx:256 | the download is named "payments-" + the date part of the ISO timestamp + ".csv" |

## Left out

- Network, react-query and rendering.
  - The axios wrappers, the mutation library, the snackbars, routing and JSX are not modelled.
  - Navigation is the path a handler returns.
  - A request is a value appended to the panel's request log.
  - The backend's answers are parameters.
- Razorpay gateway: loading the script, creating the gateway order and the hosted widget are left out. Only their outcomes are modelled: SDK not loaded, payment verified or not, widget dismissed, thrown error.
- Item and rendering details of the payments panel:
  - the cell text of `toFixed(2)` amounts;
  - `formatDateAndTime` and `toLocaleString`;
  - the Blob download;
  - the Razorpay dashboard link.
  CSV cells take the number and date renderings as parameters.
- Floating point: money is exact `real`, and `toFixed` rounding is not modelled. `UseMetrics.Change.value` is the exact absolute percentage, not its one-decimal string.
- Clock and locale: each helper reads the clock itself.
  - The model reads one `Clock` for the whole hook.
  - The calendar arithmetic behind the bounds is not modelled; `UseMetrics.Consistent` states the ordering the lemmas rely on.
- The cart store's reducers and its total selector are not part of this model. `Cart.CartStore.AddItems` appends and `Cart.CartStore.RemoveAllItems` empties. The bill takes the total as an input.
- `Object.values` order: the groups come out in first-appearance order of their keys. JavaScript lists integer-like keys first in numeric order, which is not modelled.
- UseMenu.KeyOf: a populated category without an id becomes the key "[object Object]" and a missing category the key "undefined". A null category (key "null") is not modelled: the model has no null category.
- PaymentManagement.TotalAmount: `None` stands for an undefined amount, which makes the sum NaN. A null amount, which adds as 0, is not modelled.
- Bill.VariantUnitPrice: the older panel divides `price / quantity` when the unit price is 0. The model requires a positive quantity there and does not model the NaN of a zero quantity.
- Bill.OnlineBillPanel.PlaceCashOrder: the first lines of the older panel are missing from the file. How that panel sets `isProcessing` and validates before paying is therefore not modelled.
- Asynchrony: the mutation callbacks capture the session at render time. The model reads the session when a callback runs, and callbacks do not interleave.
- The placeholder item metrics (8 categories, 50 dishes) are constants.

## Findings

| source | as written | input that shows it | evidently intended | confidence | as-written member | corrected member |
|---|---|---|---|---|---|---|
| src/components/menu/Bill.jsx:396-397 | the table-update mutation passes one object `{tableId, status, orderId}` to `updateTable(id, data)` (src/https/index.js:12). The request goes to "/api/table/[object Object]" with no body. The older panel does the same at lines 138-141 and 160. | any created order, e.g. tableId "t1", order id "o1": the path is "/api/table/[object Object]" and the body is absent | PUT "/api/table/t1" with body {status: "Booked", orderId: "o1"} | not executed | Api.AsWrittenForgetsUpdate | Api.TableRequest |
