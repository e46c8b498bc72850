# Vegetable-shop billing: a verified model

This project models the logic of a vegetable shop's billing application. The
application has a React front end and a FastAPI back end. The model covers:

- **The invoice screen.** The cart of lines (add, remove, edit quantity, price
  or line total), the subtotal, tax and grand total, the discount field, the
  "create bill" handler and the catalogue picker with its priority sort.
- **The Tanglish resolver.** This is the finite table from Romanized Tamil
  vegetable names to English names, and the lookup with an identity fallback.
- **The inventory screen.** The search and low-stock filter, the priority sort
  by substring, the low-stock list, the selection toggles and the choice of
  ids to delete.
- **The invoice history.** The camelCase/snake_case field fallback and the
  search, type and date filter.
- **The customer list.** The search and segment filter, and the summary
  statistics.
- **The banner carousel.** A four-slide cyclic index.
- **The back end.** These are `create_bill`, with its line-by-line stock check
  and deduction, price choice, totals, usage counters and all-or-nothing
  rollback. They are also `setup_inventory` (upsert), `update_inventory`
  (partial update), `get_inventory` (projection) and `lookup_customer`
  (mobile validation, then lookup).

Money and quantities are `real`s. The relations the code intends, such as
product, quotient, sum and maximum, are stated exactly. Nothing is claimed
about float rounding.

Modules, in dependency order:

- `Wrappers`: `Option` and `Result`.
- `Text`: ASCII `toLowerCase`, `trim` and `includes`.
- `Seqs`: filter, subsequence and sums.
- `Tanglish`
- `Catalog`: the shared priority sort, with its two ranking rules.
- `CreateInvoice`
- `InventoryPage`
- `InvoiceHistory`
- `Customers`
- `Carousel`
- `CustomerLookup`
- `Records`: the stored rows.
- `BillCreate`: `create_bill`'s loop as a specification fold.
- `InventoryApi`
- `Backend`: class `Database`, whose endpoints are methods proved against the
  folds.
- `UnflushedRows`: the finding below.

Screens whose handlers change state step by step are classes, and their
methods are proved against the pure functions:

- `CreateInvoice.InvoiceDraft`
- `InventoryPage.Selection`
- `Carousel.BannerCarousel`
- `Backend.Database`

`localeCompare` is a parameter `collate`. The facts that depend on it require
only that it is a total preorder (`Catalog.IsCollation`). Code-point order is
proved to be one.

## Model

| member | source | states |
|---|---|---|
| CreateInvoice.UnitPrice | frontend/src/pages/CreateInvoice.jsx:57 | a new line's price is the wholesale price in Wholesale mode and the retail price in Retail mode, and exactly `price` when that mode's price is 0 (a missing price is 0 here) |
| CreateInvoice.MapLineAt | frontend/src/pages/CreateInvoice.jsx:72-74 | with unique ids, mapping the edit over the cart replaces exactly the matching line |
| CreateInvoice.AddExisting | frontend/src/pages/CreateInvoice.jsx:47-51 | adding an id already in the cart keeps the cart's length, adds exactly 1 to that line's quantity, sets its total to (q+1)·price, and leaves every other line unchanged |
| CreateInvoice.AddNew | frontend/src/pages/CreateInvoice.jsx:52-62 | adding a new id appends, after the unchanged old lines, one line with the vegetable's id, name and Tamil name, quantity 1, and price and total equal to the mode's price |
| CreateInvoice.RemoveSpec | frontend/src/pages/CreateInvoice.jsx:66-68 | removal leaves no line with that id, keeps every other line in order (a subsequence), and is idempotent |
| CreateInvoice.SetQuantitySpec | frontend/src/pages/CreateInvoice.jsx:70-75 | a quantity under 0.1 changes nothing; otherwise only the matching line changes, to that quantity and quantity·price |
| CreateInvoice.PriceTotalTriangle | frontend/src/pages/CreateInvoice.jsx:77-95 | a price edit puts the typed price on the line with total = price·quantity; a total edit puts the typed total on the line with price = total/quantity, or 0 when quantity ≤ 0; the quantity and other lines are untouched |
| CreateInvoice.EditsRoundTrip | frontend/src/pages/CreateInvoice.jsx:77-95 | on a consistent cart, typing back a line's own total or its own price changes nothing |
| CreateInvoice.ApplyKeepsConsistent | frontend/src/pages/CreateInvoice.jsx:49-50 | each edit keeps price·quantity == total on the line it changes, once the quantity is at least 0.1 |
| CreateInvoice.EditsKeepInvariant | frontend/src/pages/CreateInvoice.jsx:46-95 | every cart handler preserves the cart invariant: one line per id and price·quantity == total on each line |
| CreateInvoice.RemoveKeepsInvariant | frontend/src/pages/CreateInvoice.jsx:66-68 | removal preserves the cart invariant |
| CreateInvoice.MapLineKeepsInvariant | frontend/src/pages/CreateInvoice.jsx:70-95 | the mapped edits preserve the cart invariant |
| CreateInvoice.DiscountFromInput | frontend/src/pages/CreateInvoice.jsx:352 | the discount is never negative; it is the parsed number when that is positive, and 0 when the entry does not parse or is not positive |
| CreateInvoice.TotalsSpec | frontend/src/pages/CreateInvoice.jsx:97-99 | tax is 0; the grand total is max(0, subtotal − discount), so it is never negative and never above the subtotal for a non-negative discount |
| CreateInvoice.AddLineSubtotal | frontend/src/pages/CreateInvoice.jsx:46-97 | adding a vegetable raises the subtotal by that line's price (its own price for an existing line, the mode price for a new one) |
| CreateInvoice.PickerResultsSpec | frontend/src/pages/CreateInvoice.jsx:138-167 | the picker lists exactly the matching items (by name, by the Tanglish equivalent or by Tamil name), as a permutation of them, sorted by the exact-name priority order, keeping the input order among ties |
| CreateInvoice.BlankSearchKeepsAll | frontend/src/pages/CreateInvoice.jsx:140-145 | a search of spaces only matches every item, because its resolver form is empty |
| CreateInvoice.EmptySearchKeepsAll | frontend/src/pages/CreateInvoice.jsx:140 | with an empty search, every inventory item is listed |
| CreateInvoice.PayloadSpec | frontend/src/pages/CreateInvoice.jsx:105-120 | the request body carries the customer name, mode and discount as set; one item per cart line, in order, with its id, names, quantity, price and total; the cart's subtotal (= the items' sum), zero tax, and the cart's grand total max(0, subtotal − discount) |
| CreateInvoice.PayloadSum | frontend/src/pages/CreateInvoice.jsx:108-116 | the payload items' totals sum to the cart subtotal |
| CreateInvoice.InvoiceDraft.constructor | frontend/src/pages/CreateInvoice.jsx:20-30 | the screen starts with an empty cart, empty search and name, Retail mode, zero discount and no saved bill |
| CreateInvoice.InvoiceDraft.AddItem | frontend/src/pages/CreateInvoice.jsx:46-64 | the cart becomes AddLine of the old cart, the search term is cleared, and nothing else changes |
| CreateInvoice.InvoiceDraft.RemoveItem | frontend/src/pages/CreateInvoice.jsx:66-68 | the cart becomes RemoveLine of the old cart, and nothing else changes |
| CreateInvoice.InvoiceDraft.UpdateQuantity | frontend/src/pages/CreateInvoice.jsx:70-75 | the cart becomes SetQuantity of the old cart, and nothing else changes |
| CreateInvoice.InvoiceDraft.UpdateItemTotal | frontend/src/pages/CreateInvoice.jsx:77-85 | the cart becomes SetLineTotal of the old cart, and nothing else changes |
| CreateInvoice.InvoiceDraft.UpdatePrice | frontend/src/pages/CreateInvoice.jsx:87-95 | the cart becomes SetPrice of the old cart, and nothing else changes |
| CreateInvoice.InvoiceDraft.SetDiscount | frontend/src/pages/CreateInvoice.jsx:352 | the discount becomes the clamped entry, and nothing else changes |
| CreateInvoice.InvoiceDraft.CreateBill | frontend/src/pages/CreateInvoice.jsx:101-133 | an empty cart sends nothing and changes nothing; otherwise the payload of the current draft is sent; on success the returned bill is recorded and the cart, customer name and discount are cleared; on failure the draft is kept |
| Tanglish.EnglishOf | frontend/src/utils/tanglishMap.js:2-135 | every value of the table is a non-empty, lowercase, trimmed English name |
| Tanglish.EnglishNameStable | frontend/src/utils/tanglishMap.js:2-135 | every value is either not a key or maps to itself (carrot, beans, cabbage, cauliflower, beetroot) |
| Tanglish.WordShape | frontend/src/utils/tanglishMap.js:2-135 | every key is lowercase and trimmed |
| Tanglish.ResolveSpec | frontend/src/utils/tanglishMap.js:138-148 | the lowercased, trimmed input is looked up: a key gives its English value, anything else is returned as normalised |
| Tanglish.ResolveShape | frontend/src/utils/tanglishMap.js:139-147 | the result is always lowercase with no leading or trailing whitespace |
| Tanglish.ResolveIgnoresCaseAndSpace | frontend/src/utils/tanglishMap.js:139 | inputs equal after lowercasing and trimming resolve alike |
| Tanglish.EveryWordResolves | frontend/src/utils/tanglishMap.js:2-143 | every key of the table resolves to its value |
| Tanglish.ResolveFixes | frontend/src/utils/tanglishMap.js:139-147 | a normalised term that is not a key, or maps to itself, resolves to itself |
| Tanglish.ResolveIdempotent | frontend/src/utils/tanglishMap.js:138-148 | resolving twice is resolving once |
| Tanglish.OnionSpellings | frontend/src/utils/tanglishMap.js:4-6 | "vengayam", "vengaya" and "venkayam" all resolve to "onion" |
| Tanglish.ThakkaliIsTomato | frontend/src/utils/tanglishMap.js:11 | "thakkali" maps to "tomato" |
| Tanglish.ResolveMixedCase | frontend/src/utils/tanglishMap.js:139-143 | " Bit " resolves to "beetroot" |
| Tanglish.ResolveUnknownWord | frontend/src/utils/tanglishMap.js:147 | a word that is not in the table, "xyz", comes back unchanged |
| Text.Lower | frontend/src/pages/Inventory.jsx:51 | `toLowerCase` keeps the length and lowers each character |
| Text.Trim | frontend/src/utils/tanglishMap.js:139 | `trim` returns the slice of its input left after removing whitespace at both ends: every removed character is whitespace, and the result neither starts nor ends with whitespace |
| Catalog.RanksFollowPriorityOrder | frontend/src/pages/Inventory.jsx:47-66 | each name of `PRIORITY_ORDER` (Green Chili, Tomato, Onion, Potato, Green Beans, Carrot) gets its position as its rank, under the picker's exact-name rule and the inventory page's lowercase rule alike |
| Catalog.ExactRankNames | frontend/src/pages/CreateInvoice.jsx:136-157 | the picker ranks a name exactly when it is in `PRIORITY_ORDER` or is "Green Chilly" or "Beans", and a ranked name is the priority entry at its rank or one of those two spellings |
| Catalog.PriorityExample | frontend/src/pages/CreateInvoice.jsx:147-166 | the picker sorts [Tomato, Beetroot, Green Chili] to [Green Chili, Tomato, Beetroot], whatever the collation |
| Catalog.CodePointIsCollation | frontend/src/pages/Inventory.jsx:75 | code-point order is a valid `localeCompare` stand-in: antisymmetric and transitive |
| Catalog.CompareConsistent | frontend/src/pages/Inventory.jsx:68-75 | the comparator is antisymmetric, total and transitive, so the sort is well defined |
| Catalog.BeforeMeaning | frontend/src/pages/Inventory.jsx:71-75 | ranked items come first in rank order, and unranked items follow ordered by name |
| Catalog.Insert | frontend/src/pages/Inventory.jsx:56 | inserting an item adds exactly it to the multiset |
| Catalog.SortItems | frontend/src/pages/Inventory.jsx:56-76 | the sort returns a permutation of its input |
| Catalog.SortItemsSpec | frontend/src/pages/Inventory.jsx:56-76 | the sort's result is sorted by the comparator, a permutation of its input, and stable (items that compare equal keep their order) |
| InventoryPage.FilteredItemsSpec | frontend/src/pages/Inventory.jsx:49-76 | an item is listed iff its name or Tamil name contains the search case-insensitively and, in low-stock mode, its stock is under 5; the list is a permutation of those items, sorted by the substring priority order and stable |
| InventoryPage.LowStockSpec | frontend/src/pages/Inventory.jsx:49-78 | the low-stock list is exactly the items with stock under 5, in order; the low-stock view only shows such items |
| InventoryPage.SubstringRankDiffers | frontend/src/pages/Inventory.jsx:63 | "Cluster Beans" ranks 4 in the inventory list but is unranked in the picker |
| InventoryPage.ToggleFlips | frontend/src/pages/Inventory.jsx:150-156 | toggling flips the id's membership and leaves every other id's membership as it was |
| InventoryPage.ToggleTwice | frontend/src/pages/Inventory.jsx:150-156 | toggling the same id twice restores the selection's membership |
| InventoryPage.SelectAllSpec | frontend/src/pages/Inventory.jsx:158-164 | when the selection is as long as the item list it becomes empty; otherwise it becomes all item ids in item order |
| InventoryPage.Selection.constructor | frontend/src/pages/Inventory.jsx:20-32 | the screen starts with no selection and no pending deletion |
| InventoryPage.Selection.ToggleSelect | frontend/src/pages/Inventory.jsx:150-156 | the selection becomes Toggle of the old one: the id's membership flips, the others' does not |
| InventoryPage.Selection.ToggleSelectAll | frontend/src/pages/Inventory.jsx:158-164 | the selection becomes SelectAll of the old one |
| InventoryPage.Selection.DeleteClick | frontend/src/pages/Inventory.jsx:120-123 | the clicked item becomes the pending deletion and the modal opens, so a confirmation deletes exactly that item's id, whatever is selected |
| InventoryPage.Selection.BulkDelete | frontend/src/pages/Inventory.jsx:144-148 | with an empty selection nothing changes; otherwise the pending item is cleared and the modal opens, so a confirmation deletes exactly the selection |
| InventoryPage.Selection.ConfirmDelete | frontend/src/pages/Inventory.jsx:125-142 | the ids sent are the pending item's alone when one is pending, else the selection, in order; on success the modal closes and the pending item is cleared, on failure nothing changes; the selection is kept |
| InventoryPage.Selection.CancelDelete | frontend/src/pages/Inventory.jsx:432 | Cancel closes the modal and leaves the pending item and the selection |
| InvoiceHistory.NormalizedInvoices | frontend/src/pages/Invoices.jsx:75-83 | normalisation keeps the count |
| InvoiceHistory.NormalizeFields | frontend/src/pages/Invoices.jsx:76-82 | for every field: the camelCase value when truthy, else the snake_case value when truthy, else '' for text, 'Retail' for the mode, 0 for the amount (0 counts as falsy) and the current time for the date; items pass through |
| InvoiceHistory.NormalizeStable | frontend/src/pages/Invoices.jsx:75-83 | normalising an already normalised invoice changes nothing |
| InvoiceHistory.NormalizeKeepsOrder | frontend/src/pages/Invoices.jsx:75 | the i-th normalised invoice is the normalisation of the i-th received one |
| InvoiceHistory.DateBoundsInclusive | frontend/src/pages/Invoices.jsx:107-116 | the date test is start ≤ date ≤ end, and each bound applies only when it is set |
| InvoiceHistory.TypeFilterSpec | frontend/src/pages/Invoices.jsx:105 | type 'all' keeps everything; any other type keeps the invoices whose mode equals it case-insensitively |
| InvoiceHistory.ShownIff | frontend/src/pages/Invoices.jsx:85-119 | with the early return in place, an invoice is shown iff it matches the search, the type and the date range |
| InvoiceHistory.FilteredInvoicesSpec | frontend/src/pages/Invoices.jsx:85-119 | the result is a subsequence of the invoices, it holds exactly the shown ones, and with no criteria it is every invoice |
| InvoiceHistory.FoundByTanglishName | frontend/src/pages/Invoices.jsx:89-101 | searching "thakkali" finds an invoice with a "Tomato" item |
| Customers.CustomerStats | frontend/src/pages/Customers.jsx:53-57 | the customer count is the list's length and the regular count is between 0 and it |
| Customers.EmptyTermMatches | frontend/src/pages/Customers.jsx:43-45 | an empty search matches every customer |
| Customers.FilteredCustomersSpec | frontend/src/pages/Customers.jsx:42-51 | the result is a subsequence of the customers, it holds exactly those that match the search and the segment, and with no criteria it is every customer |
| Customers.SegmentsDisjoint | frontend/src/pages/Customers.jsx:47-48 | no customer is both regular and new, and customers with 2 to 5 purchases are in neither segment |
| Customers.RegularCountAgrees | frontend/src/pages/Customers.jsx:47-55 | the regular count equals the length of the unsearched 'regular' view |
| Customers.RevenueSplits | frontend/src/pages/Customers.jsx:56 | total revenue is what the regular customers spent plus what the others spent, whatever the filter |
| Customers.RevenueAppend | frontend/src/pages/Customers.jsx:54-56 | with no customers revenue and regular count are 0; one more customer adds their spending to the revenue, and adds 1 to the regular count exactly when they are regular |
| Carousel.Next | frontend/src/components/BannerCarousel.jsx:46-48 | the last index (3) goes to 0 and any other goes up by 1, so the index stays in 0..3 |
| Carousel.Prev | frontend/src/components/BannerCarousel.jsx:50-52 | 0 goes to 3 and any other goes down by 1, so the index stays in 0..3 |
| Carousel.NextPrevInverse | frontend/src/components/BannerCarousel.jsx:46-52 | next after prev, and prev after next, return to the starting index |
| Carousel.FullCycle | frontend/src/components/BannerCarousel.jsx:40-48 | four steps either way return to the starting index |
| Carousel.BannerCarousel.constructor | frontend/src/components/BannerCarousel.jsx:37 | the index starts at 0 |
| Carousel.BannerCarousel.NextSlide | frontend/src/components/BannerCarousel.jsx:46-48 | the index becomes Next of the old index and stays in range |
| Carousel.BannerCarousel.PrevSlide | frontend/src/components/BannerCarousel.jsx:50-52 | the index becomes Prev of the old index and stays in range |
| Carousel.BannerCarousel.Tick | frontend/src/components/BannerCarousel.jsx:40-42 | the timer tick makes exactly the `nextSlide` update |
| Carousel.BannerCarousel.GoToSlide | frontend/src/components/BannerCarousel.jsx:54-56 | the index becomes the argument, with no bounds check |
| Carousel.IndexStaysOnBanner | frontend/src/components/BannerCarousel.jsx:37-89 | from the initial index, any sequence of presses, ticks and dot clicks keeps the index in 0..3 |
| Carousel.RunInRange | frontend/src/components/BannerCarousel.jsx:40-89 | from any index in range, such a sequence keeps it in range |
| CustomerLookup.StatusCode | app/api/v1/billing/customer_lookup.py:18-28 | a bad format answers 400 and a missing customer answers 404 |
| CustomerLookup.DigitRepeatMeaning | app/schema/customer.py:7 | the pattern `\d{least,most}` matches exactly the digit strings of length least..most |
| CustomerLookup.ValidMobileIsSchemaPattern | app/schema/customer.py:7 | over ASCII digits, the endpoint's check (customer_lookup.py line 17) accepts exactly the strings the schema pattern `^\d{10,15}$` accepts |
| CustomerLookup.FirstWithMobile | app/api/v1/billing/customer_lookup.py:23 | the query finds nothing iff no stored customer has that mobile number; otherwise a stored customer with exactly that number |
| CustomerLookup.LookupCustomer | app/api/v1/billing/customer_lookup.py:10-31 | the result is 400 iff the number is not 10 to 15 digits; a valid number nobody has gives 404; a success is a stored customer with exactly that number |
| CustomerLookup.StoredCustomerFound | app/api/v1/billing/customer_lookup.py:23-31 | a valid number that some stored customer has is found |
| CustomerLookup.InvalidIgnoresStore | app/api/v1/billing/customer_lookup.py:17-23 | validation comes before the query: an invalid number gives 400 whatever is stored |
| CustomerLookup.NonDigitRejected | app/api/v1/billing/customer_lookup.py:17 | a number with any non-digit is rejected |
| CustomerLookup.FormattedNumbersRejected | app/api/v1/billing/customer_lookup.py:17 | "98765 43210" and "+919876543210" are rejected |
| BillCreate.StatusCode | app/api/v1/billing/bill_create.py:50-104 | validation failures answer 400, and only an internal error answers 500 |
| BillCreate.ShopName | app/api/v1/billing/bill_create.py:36 | the bill's shop name is the user's when non-empty, and exactly "My Vegetable Shop" when it is empty |
| BillCreate.UnitPrice | app/api/v1/billing/bill_create.py:63 | the unit price is the override when given, else the row's price per kg |
| BillCreate.RunFailsWith400 | app/api/v1/billing/bill_create.py:50-57 | a failing line fails with a 400 error, never a 500 |
| BillCreate.RunStopsAtFailingLine | app/api/v1/billing/bill_create.py:43-57 | the first failing line decides the outcome; later lines are not looked at |
| BillCreate.RunKeepsRows | app/api/v1/billing/bill_create.py:45-60 | a successful run keeps the set of rows, their ids and prices, and leaves other users' rows untouched |
| BillCreate.RunDeductsStock | app/api/v1/billing/bill_create.py:53-60 | on success each row's stock is its old stock less the sum of the quantities of the lines for that vegetable |
| BillCreate.RunLeavesNoNegativeStock | app/api/v1/billing/bill_create.py:53-60 | on success no row touched by a line ends with negative stock |
| BillCreate.RunItems | app/api/v1/billing/bill_create.py:43-77 | on success there is one bill item per line, in order, with the bill's id, the line's vegetable and quantity, the chosen price and subtotal = price·qty |
| BillCreate.RunTotal | app/api/v1/billing/bill_create.py:28-94 | on success the bill total is the sum of the item subtotals |
| BillCreate.RunCountsUsage | app/api/v1/billing/bill_create.py:80-92 | on success each usage counter goes up by the number of lines for that vegetable, starting from 0 when there was none |
| BillCreate.SecondLineSeesFirstDeduction | app/api/v1/billing/bill_create.py:53-60 | the stock check of a later line sees the earlier lines' deductions: 3 kg and then 3 kg of 5 kg fails on the second line, reporting 2 kg |
| InventoryApi.LastFor | app/api/v1/inventory/inventory_api.py:19 | the item found is a request item for the vegetable with no later item for it, or there is none for it |
| InventoryApi.SetupOtherUsers | app/api/v1/inventory/inventory_api.py:26-28 | setup leaves other users' rows as they were |
| InventoryApi.SetupRowFor | app/api/v1/inventory/inventory_api.py:19-41 | after setup, the user's row for a known, requested vegetable carries the last item's price and stock and keeps its id if it existed; the user's other rows are unchanged |
| InventoryApi.SetupSkipsUnknown | app/api/v1/inventory/inventory_api.py:21-23 | items for vegetables missing from the master list have no effect |
| InventoryApi.SetupKeepsIdsValid | app/api/v1/inventory/inventory_api.py:34-41 | setup keeps row ids unique and below the next id, and removes no row |
| InventoryApi.StatusCode | app/api/v1/inventory/inventory_api.py:78-79 | a missing row answers 404 |
| InventoryApi.UpdateRow | app/api/v1/inventory/inventory_api.py:81-84 | each given field replaces the stored one, a field left out is kept, and the id is kept |
| InventoryApi.Update | app/api/v1/inventory/inventory_api.py:73-84 | the update fails iff the user has no row for the vegetable; otherwise only that row changes, to the updated row |
| InventoryApi.UpdateIdempotent | app/api/v1/inventory/inventory_api.py:81-84 | applying the same update twice equals applying it once |
| InventoryApi.EmptyUpdateChangesNothing | app/api/v1/inventory/inventory_api.py:81-84 | an update with neither field changes nothing |
| InventoryApi.EntryFor | app/api/v1/inventory/inventory_api.py:55-63 | an entry carries the row's id, price and stock and the vegetable's names, or "Unknown" when the vegetable is missing |
| Backend.Database.ProcessLines | app/api/v1/billing/bill_create.py:43-92 | the loop over the lines computes exactly the fold `BillCreate.Run` |
| Backend.Database.CreateBill | app/api/v1/billing/bill_create.py:20-104 | on a successful run and commit, the bill is stored and the deductions and counters are written; on any failure the tables are as they were and the error is the line's error or an internal error |
| Backend.Database.SetupInventory | app/api/v1/inventory/inventory_api.py:13-44 | the loop leaves the inventory table equal to the fold `InventoryApi.SetupRun`, keeps row ids unique and touches no other table |
| Backend.Database.UpdateInventory | app/api/v1/inventory/inventory_api.py:66-87 | a missing row answers 404 and changes nothing; otherwise the table becomes `InventoryApi.Update`'s result |
| Backend.Database.GetInventory | app/api/v1/inventory/inventory_api.py:46-64 | one entry per row of the user, in query order, each the row's projection, with no vegetable twice and every row of the user covered |
| UnflushedRows.RepeatedVegetableDuplicatesUsage | app/api/v1/billing/bill_create.py:80-92 | as written, a first bill with two lines of one vegetable leaves two usage rows counting 1 each |
| UnflushedRows.RepeatedVegetableOneCounter | app/api/v1/billing/bill_create.py:80-92 | the one-counter model counts the same bill as 2 on one counter |
| UnflushedRows.RepeatedVegetableDuplicatesRow | app/api/v1/inventory/inventory_api.py:26-41 | as written, a first setup listing one vegetable twice stores two rows for it |
| UnflushedRows.RepeatedVegetableOneRow | app/api/v1/inventory/inventory_api.py:26-41 | the one-row model keeps one row, with the later item's price and stock |

## Left out

- I/O and the network are left out. This covers every HTTP call, the loading flags, alerts, `console` output, navigation and `fetchInventory` refreshes. Where a handler's outcome depends on a call, the outcome is a parameter: `SubmitOutcome`, `commitSucceeds` and the `rows` a query returns.
- The per-id delete loop in the inventory screen (frontend/src/pages/Inventory.jsx:132-134) is a sequence of HTTP calls, so it is left out. `InventoryPage.Selection.ConfirmDelete` returns the ids it would send, and a boolean stands for all of them succeeding; a failure part-way through the loop is not distinguished from one at the start.
- The Dashboard, PDF layout, authentication (JWT, encryption), the login, signup and layout screens, and the seed, reset and migration scripts are not part of this model.
- Clocks and randomness are parameters: the bill number (app/api/v1/billing/bill_create.py:32) and the `new Date()` fallback date.
- Floats are `real`. NaN (for example `parseFloat` of an empty field, which passes the 0.1 guard) and rounding are not modelled.
- `Text.Lower`, `Text.Trim`: case folding covers only A-Z, and whitespace only the ASCII spaces, the no-break space and the byte-order mark. JavaScript's `toLowerCase` and `trim` also handle other letters and Unicode spaces.
- `CustomerLookup.ValidMobile`: digits are ASCII only. Outside ASCII the endpoint's `isdigit` check (app/api/v1/billing/customer_lookup.py:17) and the schema's `\d` disagree: `isdigit` also accepts characters such as superscript two and circled digit one, which are not decimal digits and which `\d` rejects. A ten-character string of superscript twos passes the endpoint's check and fails the pattern. `CustomerLookup.ValidMobileIsSchemaPattern` holds only over ASCII digits.
- `localeCompare` is an abstract total preorder (`collate`), so the model says nothing about locale-specific order.
- Dates in the invoice filter are abstract integers. How `new Date(dateRange.end)` falls at midnight is not modelled. An empty `date` string, which is falsy and so falls through to `created_at` (frontend/src/pages/Invoices.jsx:82), cannot be written either: `InvoiceHistory.PickDate` treats every present date as truthy.
- `Tanglish.Table` is a finite map. Keys inherited from JavaScript's object prototype (such as "constructor") are not modelled.
- The cart line's constant `unit: 'kg'` field is left out.
- The payload the invoice screen sends and the body `create_bill` accepts have different field names. The two sides are modelled separately, with no round trip between them.
- `Backend.Database.CreateBill`: a failed commit is a boolean. The bill id that the flush consumes before a rollback is not modelled: ids advance only on success.
- `Backend.Database.SetupInventory`: a failing commit at the end of setup is not modelled.
- `Backend.Database.GetInventory`: the query's row order is a parameter.
- The inventory and usage tables are maps with at most one row per user and vegetable, which is what the lookups with `.first()` intend. The duplicate rows the code can create are modelled only in `UnflushedRows` (see Findings).
- `Backend.Database.CreateBill` reads the stock deducted by earlier lines of the same bill from the same in-memory row. This follows SQLAlchemy's identity map, which is not itself modelled.

## Findings

The database session turns automatic flushing off (app/database/database.py:18-22). A query then sees only rows already written to the database, not rows added earlier in the same request. Neither table has a uniqueness constraint on (user, vegetable).

| source | as written | input that shows it | evidently intended | confidence | as-written member | corrected member |
|---|---|---|---|---|---|---|
| app/api/v1/billing/bill_create.py:80-92 | the usage lookup misses a usage row added by an earlier line of the same bill, so a second row is added | a user's first bill with two lines for the same vegetable | one usage row per user and vegetable, counting 2 | not executed | UnflushedRows.RepeatedVegetableDuplicatesUsage | UnflushedRows.RepeatedVegetableOneCounter |
| app/api/v1/inventory/inventory_api.py:26-41 | the upsert lookup misses an inventory row added by an earlier item of the same request, so a second row is inserted | a first setup listing one vegetable twice | one inventory row per user and vegetable, carrying the later price and stock | not executed | UnflushedRows.RepeatedVegetableDuplicatesRow | UnflushedRows.RepeatedVegetableOneRow |
