# rs-desktop core, modelled in Dafny

rs-desktop is an Electron desktop application for a distribution business.
It has customer, product and supplier pages backed by a Postgres database.
This project models the logic that sits between the database and the
screens:

- **Connection manager** (`db.dfy`, module `Db`). The main process picks a
  Postgres connection string from three environment variables. It builds
  one `pg` pool lazily, can end it with `closePool`, and answers the health-check
  ping with a client checkout that is always given back.
- **Channel names** (`channels.dfy`, module `Channels`). `makeChannels`
  turns action names such as `PICK_FOLDER` into channel names such as
  `files:pick-folder`. The `CHANNELS` table applies it to the six features.
- **Sidebar navigation** (`nav.dfy`, module `Nav`). These are the three
  sidebar items and the prefix-with-slash rule that marks one of them active.
- **Supplier list page** (`suppliers_page.dfy`, module `SuppliersList`).
  This covers:
  - the page count and the "Showing from–to of total" range;
  - the request sent to `suppliers.list`;
  - the sort toggle;
  - the page state under Prev/Next, search, page-size and fetch events.
- **Detail pages** (`detail_page.dfy`, module `DetailPage`, shared by the
  three detail modules). A page checks its route id before calling the
  back end, then turns the call's outcome into the page state.
- **Customer detail** (`customer_detail.dfy`, module `CustomerDetail`).
  The activity chart joins the invoice trend and the delivery trend on
  their period label.
- **Supplier detail** (`supplier_detail.dfy`, module `SupplierDetail`).
  Weekly per-product points are pivoted into one chart row per label. The
  legend gets one entry per product, coloured from a ten-entry palette.
- **Product detail** (`product_detail.dfy`, module `ProductDetail`). The
  stock ledger is split into inbound and outbound totals. The margin
  percentage is absent in two cases.

Where the source changes state step by step, the model does the same:
- `ConnectionManager` and `SuppliersPage` are classes.
- `MakeChannels`, `ActivityData`, `BuildTopProductChart` (and the methods it
  calls) and `ComputeStockTotals` are loops.

Each loop is proved equal to a declarative definition. The properties are
then proved about that definition.

The source's records use a field called `label`, which is a Dafny keyword.
That field is spelled `period` in trend points and chart rows, and `title`
in sidebar items.

The stock ledger's movement kinds include `Draw`. The shared
`StockMovement` type (src/shared/types.ts:263-269) lists only `purchase`,
`delivery`, `adjustment` and `match`. The product page, however, renders a
`draw` kind as well (src/renderer/pages/ProductDetailPage.tsx:593). The
model follows the page.

## Model

| member | source | states |
|---|---|---|
| Db.FirstSet | src/main/db.ts:5-8 | The result of an `a \|\| b \|\| c` chain: absent exactly when every candidate is unset or empty; otherwise the first candidate that is set, and it is non-empty |
| Db.SelectConnectionString | src/main/db.ts:5-8 | The connection string is DATABASE_URL if set, else POSTGRES_URL, else POSTGRES_CONNECTION_STRING. An empty value counts as unset. It is absent only when all three are unset |
| Db.ConnectionManager.constructor | src/main/db.ts:3-8 | The string is chosen once at load. No pool exists yet, nothing has been constructed or ended, and no client has been checked out |
| Db.ConnectionManager.GetPool | src/main/db.ts:15-32 | Without a connection string: fails with the "DATABASE_URL is not set" message and constructs nothing. With one: returns the live pool unchanged, or constructs exactly one new pool with a never-used id and options (connection string, max 5, idle 30000 ms) |
| Db.ConnectionManager.ClosePool | src/main/db.ts:56-61 | With no pool nothing changes. If a live pool's `end()` resolves, its id is recorded as ended and the handle becomes null. If `end()` rejects, the error propagates and the handle and the ended list are unchanged |
| Db.ConnectionManager.PingDatabase | src/main/db.ts:34-54 | Every checked-out client is released on success and on failure. The pool is obtained as `getPool` does: unchanged when unconfigured or already live; otherwise exactly one pool is built, with the next id and the fixed options. Fails with the configuration error or the query's error. On success `ok` is true, `database` is the first row's value or null, and `now` is the row's value or the current time |
| Db.ReopenAfterClose | src/main/db.ts:15-61 | After a `closePool` whose `end()` resolves, the next `getPool` builds a pool different from the one closed. After one whose `end()` rejects, the next `getPool` returns the same pool, which is not recorded as ended |
| Channels.KebabChar | src/shared/channels.ts:9 | `_` becomes `-`; an upper-case ASCII letter becomes its lower-case letter; every other character is kept. The image has no `_`, no upper-case letter and no `:` exactly when the input is not `:` |
| Channels.Kebab | src/shared/channels.ts:9 | The suffix has the action's length and contains no `_` and no upper-case letter |
| Channels.ChannelName | src/shared/channels.ts:10 | A channel is feature, `:`, suffix; its length is the sum of theirs plus one |
| Channels.ActionNameIsNotProto | src/shared/channels.ts:6-10 | No action name (upper-case letters and `_`) is the key `__proto__`, so every such action is stored |
| Channels.ChannelRecord | src/shared/channels.ts:1-13 | The record's keys are exactly the actions other than `__proto__`, which a plain object's inherited setter does not store. For lists of action names the keys are exactly the actions |
| Channels.MakeChannels | src/shared/channels.ts:1-13 | The loop yields one entry per action other than `__proto__`, and no other key. Each entry maps to `feature:suffix`. It equals the declarative record |
| Channels.KebabCharInjective | src/shared/channels.ts:9 | On upper-case letters and `_`, different characters give different suffix characters |
| Channels.KebabInjective | src/shared/channels.ts:9 | Different action names give different suffixes |
| Channels.DistinctActionsDistinctChannels | src/shared/channels.ts:9-10 | Within one feature, different action names give different channels |
| Channels.ChannelNameInjective | src/shared/channels.ts:10 | For features without `:`, a channel determines both its feature and its action |
| Channels.GroupRecord | src/shared/channels.ts:16-27 | Each `CHANNELS` entry has exactly its group's actions as keys |
| Channels.TableIsWellFormed | src/shared/channels.ts:16-27 | The table's features contain no `:` and are pairwise different. Every action in the table is an action name |
| Channels.TableChannelsDistinct | src/shared/channels.ts:16-36 | No two (feature, action) pairs of the table share a channel string |
| Channels.PickFolderSuffix | src/shared/channels.ts:9 | The suffix of `PICK_FOLDER` is `pick-folder` |
| Channels.PickFolderChannel | src/shared/channels.ts:17-21 | `CHANNELS.FILES.PICK_FOLDER` is `files:pick-folder` |
| Nav.IsActive | src/renderer/components/layout/MainLayout.tsx:32-34 | The `isActive` rule (path equals the route, or starts with route + `/`): an item is active exactly when the pathname starts with its route and either ends there or continues with `/` |
| Nav.BelowIsActive | src/renderer/components/layout/MainLayout.tsx:34 | `to + "/" + rest` makes the item routed at `to` active |
| Nav.HomepageIsNotHome | src/renderer/components/layout/MainLayout.tsx:32-34 | `/homepage` does not activate the `/home` item |
| Nav.ActiveStartsWithTarget | src/renderer/components/layout/MainLayout.tsx:32-34 | A pathname not starting with the route never activates its item |
| Nav.AtMostOneActive | src/renderer/components/layout/MainLayout.tsx:19-34 | No pathname activates two of the three sidebar items |
| Nav.ActiveFlags | src/renderer/components/layout/MainLayout.tsx:31-40 | There is one flag per item, each matching the path rule, and at most one flag is set |
| SuppliersList.CeilDiv | src/renderer/pages/SuppliersPage.tsx:142 | The result is `ceil(total / pageSize)`: zero only for zero rows, otherwise the least page count that holds all rows |
| SuppliersList.PageCount | src/renderer/pages/SuppliersPage.tsx:142 | The page count is at least 1. With rows, it is the least number of pages that holds them |
| SuppliersList.From | src/renderer/pages/SuppliersPage.tsx:143 | The first shown row: 0 exactly when there are no rows; otherwise one more than the number of rows on earlier pages |
| SuppliersList.To | src/renderer/pages/SuppliersPage.tsx:144 | The last shown row: the smaller of the total and the end of the current page |
| SuppliersList.ShownRange | src/renderer/pages/SuppliersPage.tsx:143-144 | With no rows the range is 0–0. Otherwise, on an existing page, 1 ≤ from ≤ to ≤ total and the range is at most one page long |
| SuppliersList.PagesTile | src/renderer/pages/SuppliersPage.tsx:143-144 | A page before the last is full, and the next page starts right after it |
| SuppliersList.NextSorting | src/renderer/pages/SuppliersPage.tsx:147-154 | There is a single sort entry on the clicked key. The same key flips the direction. A new key is descending exactly for revenue and sold quantity |
| SuppliersList.SortTwiceRestores | src/renderer/pages/SuppliersPage.tsx:149-152 | Clicking the current column twice restores its direction |
| SuppliersList.RequestFor | src/renderer/pages/SuppliersPage.tsx:99-109 | `limit` is the page size and `offset` is pageIndex × pageSize. An empty search is sent as absent. The sort is the first entry's key and direction, or revenue ascending when there is none |
| SuppliersList.RequestMatchesShownRange | src/renderer/pages/SuppliersPage.tsx:103-109 | The rows the request asks for start at `from` and end at `to` |
| SuppliersList.SuppliersPage.constructor | src/renderer/pages/SuppliersPage.tsx:72-85 | The page starts on page 0 with 20 rows per page. Sorting is revenue descending, the search is empty, the total is 0, and the state is loading |
| SuppliersList.SuppliersPage.PrevDisabled | src/renderer/pages/SuppliersPage.tsx:434 | Prev is disabled while loading. Otherwise it is disabled exactly when no row precedes the current page |
| SuppliersList.SuppliersPage.NextDisabled | src/renderer/pages/SuppliersPage.tsx:450-454 | Next is disabled while loading. Otherwise it is disabled exactly when no row follows the current page, which also covers zero rows and the last page |
| SuppliersList.SuppliersPage.SetSort | src/renderer/pages/SuppliersPage.tsx:147-156 | The sorting becomes the toggled sorting and the page index returns to 0 |
| SuppliersList.SuppliersPage.Prev | src/renderer/pages/SuppliersPage.tsx:428-434 | The page index decreases by one but not below 0. When the button is enabled it goes back exactly one page |
| SuppliersList.SuppliersPage.Next | src/renderer/pages/SuppliersPage.tsx:444-454 | The page index becomes min(index + 1, pageCount − 1), so it stays below the page count. When the button is enabled it advances exactly one page |
| SuppliersList.SuppliersPage.SetSearch | src/renderer/pages/SuppliersPage.tsx:185-188 | Typing sets the text and returns to page 0. Sorting and page size are unchanged (the second search box at 265-268 does the same) |
| SuppliersList.SuppliersPage.DebounceElapsed | src/renderer/pages/SuppliersPage.tsx:91-94 | When the delay elapses, the typed text becomes the searched text |
| SuppliersList.SuppliersPage.SetPageSize | src/renderer/pages/SuppliersPage.tsx:278-283 | The page size becomes the chosen option and the page index returns to 0. Sorting is unchanged |
| SuppliersList.SuppliersPage.BeginFetch | src/renderer/pages/SuppliersPage.tsx:96-109 | The page goes to loading and sends the request derived from its current state |
| SuppliersList.SuppliersPage.EndFetch | src/renderer/pages/SuppliersPage.tsx:111-118 | A response sets the total and makes the page ready. A failure keeps the total and shows the error's message, or "Failed to load suppliers" |
| SuppliersList.FirstRequest | src/renderer/pages/SuppliersPage.tsx:74-109 | A fresh page asks for 20 rows at offset 0, with no search, sorted by revenue descending |
| DetailPage.StartLoad | src/renderer/pages/CustomerDetailPage.tsx:104-109 | A non-integer id goes straight to the error state and sends nothing. An integer id goes to loading and sends the detail call for that id |
| DetailPage.FinishLoad | src/renderer/pages/CustomerDetailPage.tsx:110-117 | The page never stays loading. It is ready with the data exactly when the call succeeds. Otherwise it shows the error's message, or the page's fallback text |
| CustomerDetail.LoadCustomer | src/renderer/pages/CustomerDetailPage.tsx:104-109 | A non-integer id gives "Invalid customer id" without a call. An integer id issues the call and shows loading |
| CustomerDetail.CustomerLoaded | src/renderer/pages/CustomerDetailPage.tsx:110-117 | Success gives ready with the data. A failure gives the error's message or "Failed to load customer" |
| CustomerDetail.LastIndexOf | src/renderer/pages/CustomerDetailPage.tsx:84-91 | The index `labelIndex` holds for a label (the last bucket with it), or absent exactly when no bucket has the label |
| CustomerDetail.InvoiceRow | src/renderer/pages/CustomerDetailPage.tsx:79-91 | Invoice bucket i keeps its label and count. It carries deliveries only if it is the last invoice bucket with its label and some delivery bucket has that label. Any non-zero deliveries are the count of the last delivery bucket with the label. Conversely, on the last invoice bucket with its label, the deliveries are the count of the last delivery bucket with that label |
| CustomerDetail.Appended | src/renderer/pages/CustomerDetailPage.tsx:92-97 | The pushed rows: at most one per delivery bucket, each with 0 invoices |
| CustomerDetail.NewLabelIndices | src/renderer/pages/CustomerDetailPage.tsx:88-97 | The positions of the delivery buckets whose label `labelIndex` lacks: every such position, each once, in increasing order |
| CustomerDetail.MergedActivity | src/renderer/pages/CustomerDetailPage.tsx:79-99 | The merged series: first one row per invoice bucket, in order, as InvoiceRow gives it. After those come exactly the pushed rows |
| CustomerDetail.ActivityOf | src/renderer/pages/CustomerDetailPage.tsx:77-102 | Empty before the detail is ready. Once it is ready, the series has at least one row per invoice bucket |
| CustomerDetail.MergeStepMatched | src/renderer/pages/CustomerDetailPage.tsx:89-91 | A delivery whose label is indexed sets the deliveries of that invoice row and changes nothing else |
| CustomerDetail.MergeStepNew | src/renderer/pages/CustomerDetailPage.tsx:92-98 | A delivery with an unindexed label appends the row (label, 0, count) |
| CustomerDetail.ActivityData | src/renderer/pages/CustomerDetailPage.tsx:77-102 | The `activityData` loop computes exactly the declarative merged series |
| CustomerDetail.AppendedLength | src/renderer/pages/CustomerDetailPage.tsx:92-98 | There is one appended row per delivery bucket whose label no invoice bucket has |
| CustomerDetail.MergedLength | src/renderer/pages/CustomerDetailPage.tsx:79-98 | The output length is \|invoiceTrend\| plus the number of delivery buckets with a new label |
| CustomerDetail.InvoiceRowsKept | src/renderer/pages/CustomerDetailPage.tsx:79-83 | The first rows keep the invoice buckets' labels and counts in order. A bucket with no delivery under its label keeps 0 deliveries |
| CustomerDetail.LastDeliveryWins | src/renderer/pages/CustomerDetailPage.tsx:79-91 | In the whole merged series, the last invoice row with a label shows the count of the last delivery bucket with that label; every earlier invoice row with the label shows 0 |
| CustomerDetail.MatchedDeliveryAddsNoRow | src/renderer/pages/CustomerDetailPage.tsx:84-91 | A delivery with an invoice label adds no row. It sets the deliveries of the last invoice row with that label |
| CustomerDetail.AppendedRowsFromNewLabels | src/renderer/pages/CustomerDetailPage.tsx:92-97 | Every appended row has 0 invoices and a label no invoice bucket has, and it comes from a delivery bucket |
| CustomerDetail.AppendedFollowsDeliveries | src/renderer/pages/CustomerDetailPage.tsx:88-98 | Pushed row j is (label, 0, count) of the j-th delivery bucket with a new label. The pushed rows follow the delivery trend's order, one to one |
| SupplierDetail.LoadSupplier | src/renderer/pages/SupplierDetailPage.tsx:59-65 | A non-integer id gives "Invalid supplier id" without a call. An integer id issues the call and shows loading |
| SupplierDetail.SupplierLoaded | src/renderer/pages/SupplierDetailPage.tsx:66-73 | Success gives ready with the data. A failure gives the error's message or "Failed to load supplier" |
| SupplierDetail.ColorAt | src/renderer/pages/SupplierDetailPage.tsx:130 | Every legend colour is one of the palette's ten entries |
| SupplierDetail.QtyOrZero | src/renderer/pages/SupplierDetailPage.tsx:120 | `Number(point.qty ?? 0)`: the point's quantity, or 0 when it is missing |
| SupplierDetail.FirstIndex | src/renderer/pages/SupplierDetailPage.tsx:99-110 | The position where a value first appears: it holds the value, and no earlier position does |
| SupplierDetail.Distinct | src/renderer/pages/SupplierDetailPage.tsx:105-110 | `Array.from(new Set(xs))` has the same elements as `xs` with no repeats, ordered by where each first appears in `xs` |
| SupplierDetail.Columns | src/renderer/pages/SupplierDetailPage.tsx:117-122 | A row has a column for a product exactly when some point with that label and product exists |
| SupplierDetail.LastPointOf | src/renderer/pages/SupplierDetailPage.tsx:99-103 | The last point of a product, absent exactly when the product has no point |
| SupplierDetail.PointName | src/renderer/pages/SupplierDetailPage.tsx:101 | A point's legend name is never empty. It is the product name, or "Product " followed by the id in decimal when the name is empty |
| SupplierDetail.Config | src/renderer/pages/SupplierDetailPage.tsx:126-135 | The legend: entry i is the i-th distinct product id, with colour `palette[i % 10]`. No product appears twice, and every point's product appears |
| SupplierDetail.ChartOf | src/renderer/pages/SupplierDetailPage.tsx:81-138 | The chart. It is empty data and empty config when the detail is not ready or has no product points, even if the quantity trend has labels. Otherwise it has a non-empty legend and one row per chart label, in label order, each carrying its label |
| SupplierDetail.ProductNames | src/renderer/pages/SupplierDetailPage.tsx:99-103 | The `products` map holds each distinct product id in first-appearance order, named after the product's last point |
| SupplierDetail.DistinctPeriods | src/renderer/pages/SupplierDetailPage.tsx:105-110 | The label loop yields the distinct labels in first-appearance order |
| SupplierDetail.PivotRows | src/renderer/pages/SupplierDetailPage.tsx:112-122 | The rows map has one row per label, and each row carries exactly the columns its label's points write |
| SupplierDetail.RowsInOrder | src/renderer/pages/SupplierDetailPage.tsx:124 | The data lists the rows in label order |
| SupplierDetail.LegendConfig | src/renderer/pages/SupplierDetailPage.tsx:126-135 | The `reduce` yields the declarative legend: one entry per product, with its name and the colour at its index |
| SupplierDetail.BuildTopProductChart | src/renderer/pages/SupplierDetailPage.tsx:81-138 | The `topProductChart` memo computes exactly the declarative chart |
| SupplierDetail.RowsPerLabel | src/renderer/pages/SupplierDetailPage.tsx:105-110 | The chart labels have no duplicates. The quantity trend's labels come first. Every point's label is among them, and every label comes from one of the two series |
| SupplierDetail.LastPointWins | src/renderer/pages/SupplierDetailPage.tsx:117-122 | A point's quantity (0 when missing) is in its label's row under its product unless a later point has the same label and product |
| SupplierDetail.ConfigEntries | src/renderer/pages/SupplierDetailPage.tsx:99-135 | There is one legend entry per distinct product in first-appearance order. Entry i has colour `palette[i % 10]` and the name of the product's last point |
| SupplierDetail.UnnamedProduct | src/renderer/pages/SupplierDetailPage.tsx:101 | A product with an empty name is listed as "Product 42" for id 42 |
| ProductDetail.LoadProduct | src/renderer/pages/ProductDetailPage.tsx:67-72 | A non-integer id gives "Invalid product id" and never enters loading. An integer id issues the call |
| ProductDetail.ProductLoaded | src/renderer/pages/ProductDetailPage.tsx:73-80 | Success gives ready with the data. A failure gives the error's message or "Failed to load product" |
| ProductDetail.Inbound | src/renderer/pages/ProductDetailPage.tsx:99-106 | The sum of the non-negative quantities. It is zero exactly when no movement has a positive quantity |
| ProductDetail.Outbound | src/renderer/pages/ProductDetailPage.tsx:99-106 | The sum of the magnitudes of the negative quantities. It is zero exactly when no movement has a negative quantity |
| ProductDetail.StockTotalsOf | src/renderer/pages/ProductDetailPage.tsx:97-107 | The totals the page shows: 0/0 before the detail is ready. Once it is ready, both are non-negative and inbound minus outbound is the net quantity |
| ProductDetail.AppendMovement | src/renderer/pages/ProductDetailPage.tsx:100-104 | One more movement raises exactly one total by its magnitude and leaves the other unchanged |
| ProductDetail.InboundMinusOutbound | src/renderer/pages/ProductDetailPage.tsx:99-106 | Inbound minus outbound is the sum of all quantities |
| ProductDetail.ComputeStockTotals | src/renderer/pages/ProductDetailPage.tsx:97-107 | The `reduce` computes the sum of the non-negative quantities and the sum of the magnitudes of the negative ones, both ≥ 0, and 0/0 before the detail is ready |
| ProductDetail.NoMovementsNoTotals | src/renderer/pages/ProductDetailPage.tsx:98-106 | With no data or an empty ledger both totals are 0 |
| ProductDetail.MarginPercent | src/renderer/pages/ProductDetailPage.tsx:88-95 | The percentage is absent exactly when the detail is not ready or revenue is 0. Otherwise it is margin ÷ max(revenue, 1) × 100 |

## Left out

- Rendering is not modelled: JSX, recharts components, icons, the sidebar's collapse toggle, and the `button`/`sidebar` styling helpers. They are presentation only.
- `formatDate` and `formatCurrency` are not modelled. They depend on `Date` parsing and locale formatting.
- ProductDetail.MarginPercent: the division is exact real arithmetic. The source's IEEE-754 rounding is not modelled.
- `pg` is not modelled: its dynamic import, pool internals, the SQL text and the database server. A pool is an opaque handle whose id is a construction counter. Checkout success, the query's rows or error, and the current time are parameters of `PingDatabase`.
- Db.ConnectionManager.PingDatabase: the row's `now` is taken as already rendered text. The choice between `Date.toISOString()` and `toString()` is not modelled. The message of a failed checkout is a placeholder.
- Concurrency is not modelled. Two overlapping `getPool` calls that both await the `pg` import could each construct a pool. The model runs one call at a time.
- The IPC layer is not modelled: preload bridge, main-process handlers, the folder dialog, and the renderer's type declarations. It is Electron transport.
- The list, overview and detail aggregation queries are not modelled. They are imported by the handlers, but their code is not part of this model. The supplier list's response is modelled only by its `total`; its data rows and the overview cards are not modelled.
- SuppliersList.SuppliersPage.DebounceElapsed: the 300 ms timer is an explicit event. Clearing a pending timer on each keystroke is not modelled.
- The home page's cancellable ping is not modelled. It is an async effect with cancellation.
- Application bootstrapping, routing, the error page, the static customers and products pages, and the build configuration are not modelled.
- Channels.KebabChar: `toLowerCase` is modelled for ASCII `A`–`Z` only. Other characters are kept, which is exact for the action names the table uses.
- SupplierDetail.Columns: columns are keyed by product id rather than by the string `product-<id>`. Two different ids give two different keys, so the rows hold the same information.
- SupplierDetail.Config: the legend is a list in insertion order. The source uses an object keyed by `product-<id>`, which keeps the same order for these keys.
- Channels.GroupRecord: the `CHANNELS` object is the ordered list `ChannelGroups` with its key per group. The derived `Channel` union type is stated as `TableChannelsDistinct`.
- DetailPage.StartLoad: `Number(id)` followed by `Number.isInteger` is taken as given, as an integer id or "not an integer". String parsing is not modelled.
- SupplierDetail.PointName: `String(productId)` is modelled for integer ids. Numbers with a fraction part are not modelled.
- Quantities, counts and totals are unbounded integers. The source's JavaScript numbers (floating point) are not modelled, including for fractional quantities.
