# Business dashboard pages: a Dafny model

This project models the client-side logic of a mock business dashboard
written with React and Next.js. The dashboard has list pages for invoices,
products, suppliers, orders, users and devices, and form pages for a new
order, a new invoice and a new user. It also has the product form's tag and
image tab, the user context that answers access checks, and the sidebar
that shows or locks groups by role and plan.

Every list page works the same way. A mock collection passes through
filter predicates (a case-insensitive search, facet checkboxes, ranges and
"all" sentinels). Some pages then sort the result with a direction-aware
comparator, and the invoice page also paginates it. Selection checkboxes
hold record ids. The form pages keep a cart or a list of lines in React
state and derive totals from it.

The model has three layers:

- Shared modules mirror the ECMAScript built-ins the pages rely on:
  - `Text`: lower/upper case, `includes`, `trim`.
  - `Lists`: `filter`, `map`, `reduce`, `slice`, the facet test, checkbox toggling, the header checkbox state.
  - `Sorting`: a stable sort by a key and a direction, and the sort-header click.
  - `Paging`: pages of "N per page" or "all", and the page count.
- Each page whose state is a set of React `useState` hooks becomes a class. Its fields are the hooks. Each handler is a method that says what it sets and that it leaves every other field alone.
- The derived values (filtered lists, statistics, totals) are functions. Lemmas state what the pages promise about them: membership, order, permutation, stability, sums, bounds and invariants.

Amounts are `real`, so they are exact. Dates are whole numbers: a day number
on the invoice page, a `yyyymmdd` number elsewhere. Both compare the way the
source's `Date` objects and ISO strings compare. The clock (`new Date()`,
`Date.now()`) and number parsing are parameters: a `Calendar` value, a fresh
id, or an `Option` holding the parsed number.

## Model

| member | source | states |
|---|---|---|
| Text.Lower | app/sales/invoices/page.tsx:155-157 | same length; no upper-case ASCII letter is left, and each character is kept or is its upper-case letter shifted down by 32 |
| Text.Upper | app/settings/users/new/page.tsx:362-366 | same length; no lower-case ASCII letter is left; each character is kept or is a lower-case letter shifted up by 32 |
| Text.LowerIdempotent | app/sales/invoices/page.tsx:155-157 | lower-casing twice is lower-casing once |
| Text.Includes | app/sales/invoices/page.tsx:155-157 | true exactly when the term occurs at some position of the string |
| Text.IncludesEmpty | app/sales/invoices/page.tsx:155-157 | the empty term occurs in every string |
| Text.ContainsIgnoringCaseEmpty | app/sales/orders/page.tsx:182-190 | an empty search matches every field |
| Text.TrimStart | components/product-form/product-info-tab.tsx:35-40 | the result is a suffix of the input; everything removed is white space and the result does not start with white space |
| Text.TrimEnd | components/product-form/product-info-tab.tsx:35-40 | the result is a prefix of the input; everything removed is white space and the result does not end with white space |
| Text.TrimmedFixpoint | components/product-form/product-info-tab.tsx:35-40 | trimming a trimmed string changes nothing |
| Text.TrimIsTrimmed | components/product-form/product-info-tab.tsx:35-40 | a trimmed string has no white space at either end, and trimming is idempotent |
| Lists.Filter | app/sales/invoices/page.tsx:141-183 | no longer than the input; an element is in the result exactly when it is in the input and passes the predicate |
| Lists.FilterIsSubsequence | app/sales/invoices/page.tsx:141-183 | filtering keeps the input's relative order |
| Lists.FilterCount | app/sales/invoices/page.tsx:141-183 | each passing element keeps its multiplicity and each failing one is dropped |
| Lists.FilterAll | app/sales/orders/page.tsx:182-190 | when every element passes, filtering returns the input unchanged |
| Lists.FilterAppend | app/devices/list/page.tsx:150 | filtering a concatenation concatenates the filtered parts |
| Lists.FilterAgree | app/products/page.tsx:162-215 | two predicates that agree on the input filter it the same way |
| Lists.FilterFilter | app/products/page.tsx:162-215 | filtering by one predicate and then another equals filtering once by their conjunction |
| Lists.FilterIdempotent | app/products/page.tsx:162-215 | filtering twice by the same predicate is filtering once |
| Lists.RemoveAll | components/product-form/product-info-tab.tsx:42-44 | the removed value is gone, every other value keeps its multiplicity, and the order is kept |
| Lists.Toggle | app/sales/invoices/page.tsx:281-287 | checking appends the value; unchecking removes every copy and keeps the order; no other value's count changes |
| Lists.Map | app/sales/invoices/page.tsx:273-279 | same length, and position i holds the function applied to element i |
| Lists.SumAppend | app/suppliers/page.tsx:245-246 | the sum over a concatenation is the sum of the sums |
| Lists.SumPartition | app/sales/invoices/page.tsx:315-326 | when two predicates split the elements, the whole sum is the sum over one part plus the sum over the other |
| Lists.SumNonNegative | app/sales/orders/page.tsx:195 | a sum of non-negative terms is non-negative |
| Lists.SumPointwise | app/sales/invoices/new/page.tsx:126 | sums of two functions that agree on every element are equal |
| Lists.Count | app/products/page.tsx:217-220 | a count never exceeds the length |
| Lists.CountAll | app/settings/users/new/page.tsx:118-121 | the count equals the length exactly when every element passes |
| Lists.CountDisjoint | app/sales/orders/page.tsx:192-195 | two counts of mutually exclusive predicates add up to at most the length |
| Lists.SubsequenceDistinctBy | app/sales/orders/new/page.tsx:122-124 | a subsequence of a list with distinct keys has distinct keys |
| Lists.SubsequenceDistinct | components/product-form/product-info-tab.tsx:42-44 | a subsequence of a duplicate-free list is duplicate-free |
| Lists.Slice | app/sales/invoices/page.tsx:220-223 | clamped slice: never longer than the input or the window; equal to the plain slice when both bounds are in range; empty past the end; element i is element start+i of the input |
| Lists.HeaderState | app/products/page.tsx:254-255 | the header checkbox is checked exactly when something is shown and all of it is selected, and indeterminate exactly when some but not all is |
| Sorting.StrLessTransitive | app/sales/invoices/page.tsx:184-205 | the string comparison `<` is transitive |
| Sorting.PrecedesTransitive | app/sales/invoices/page.tsx:184-205 | "comes strictly before" is transitive in both directions |
| Sorting.Insert | app/sales/invoices/page.tsx:184-205 | inserting adds exactly the one element |
| Sorting.SortBy | app/sales/invoices/page.tsx:184-205 | the sort result is a permutation of its input |
| Sorting.InsertSorted | app/sales/invoices/page.tsx:184-205 | inserting into a sorted list keeps it sorted |
| Sorting.SortBySorted | app/sales/invoices/page.tsx:184-205 | the sort result is ordered by the key in the chosen direction |
| Sorting.InsertWithKey | app/sales/invoices/page.tsx:184-205 | inserting into a sorted list puts the new element after every element with an equal key |
| Sorting.SortByStable | app/sales/invoices/page.tsx:184-205 | for every key, the elements with that key appear in the same order before and after sorting (stability) |
| Sorting.SortByConstantKey | app/sales/invoices/page.tsx:184-205 | when the comparator answers 0 for every pair, the sort returns its input unchanged |
| Sorting.InsertSum | app/sales/invoices/page.tsx:314-326 | inserting an element adds its value to any sum |
| Sorting.SortBySum | app/sales/invoices/page.tsx:314-326 | sorting does not change any sum over the records |
| Sorting.NextSort | app/sales/invoices/page.tsx:225-232 | the clicked field becomes the sort field; clicking the current field flips the direction and clicking another one resets it to ascending |
| Sorting.NextSortTwice | app/sales/invoices/page.tsx:225-232 | clicking the same header twice restores the original field and direction |
| Paging.PageOf | app/sales/invoices/page.tsx:218-223 | "all" shows every row; otherwise a page has at most N rows, row i is row (page-1)·N+i of the list, and a page that starts inside the list is as full as the rest of the list allows |
| Paging.TotalPages | app/sales/invoices/page.tsx:219 | undefined (NaN) exactly for "all" on an empty list; 1 for "all" otherwise; with N per page, the smallest count of pages that holds every row |
| Paging.PagesPrefix | app/sales/invoices/page.tsx:218-223 | the first k pages joined together are the first k·N rows |
| Paging.PagesRebuild | app/sales/invoices/page.tsx:218-223 | joining pages 1 to the page count gives back the whole filtered list |
| Paging.PageBeyondLast | app/sales/invoices/page.tsx:856-880 | a page past the page count is empty |
| Invoices.DateFilterRange | app/sales/invoices/page.tsx:115-138 | "all" imposes no bound; "custom" uses the chosen range |
| Invoices.FilteredInvoicesCorrect | app/sales/invoices/page.tsx:141-205 | the shown invoices are the ones that pass every filter, each with its multiplicity; they are ordered by the sort field and direction; equal keys keep their input order |
| Invoices.FilteredInvoicesOrder | app/sales/invoices/page.tsx:184-205 | any two shown invoices are in order for the chosen field: amounts and dates numerically, suppliers by lower-cased name |
| Invoices.ClearedQueryPasses | app/sales/invoices/page.tsx:147-181 | with every filter cleared, an invoice passes exactly when it matches the tab and its amount is not negative (the minimum defaults to 0) |
| Invoices.FilteredStats | app/sales/invoices/page.tsx:315-326 | the overdue count is the number of overdue invoices shown |
| Invoices.StatsTotalSplits | app/sales/invoices/page.tsx:315-326 | when every status is pending, overdue or paid, the filtered total is the pending total plus the paid total |
| Invoices.StatsTotalIgnoresSort | app/sales/invoices/page.tsx:315-326 | the filtered total is the sum over the filtered invoices whatever the sort |
| Invoices.InvoiceList.constructor | app/sales/invoices/page.tsx:75-98 | the page opens on the pending tab, sorted by due date ascending, page 1 of 10 rows, with no filter and no selection |
| Invoices.InvoiceList.Page | app/sales/invoices/page.tsx:218-223 | the page shown has at most N rows, and all filtered rows for "all" |
| Invoices.InvoiceList.SetTab | app/sales/invoices/page.tsx:501-513 | sets the tab and nothing else |
| Invoices.InvoiceList.SetSearchTerm | app/sales/invoices/page.tsx:76 | sets the search and nothing else |
| Invoices.InvoiceList.ToggleCategory | app/sales/invoices/page.tsx:623-628 | toggles one category in the facet and changes nothing else |
| Invoices.InvoiceList.TogglePaymentMethod | app/sales/invoices/page.tsx:674-679 | toggles one payment method in the facet and changes nothing else |
| Invoices.InvoiceList.SetAmountRange | app/sales/invoices/page.tsx:648-654 | sets the amount bounds and nothing else |
| Invoices.InvoiceList.SetDateFilter | app/sales/invoices/page.tsx:94-98 | sets the date filter and custom range and nothing else |
| Invoices.InvoiceList.SetItemsPerPage | app/sales/invoices/page.tsx:714-718 | a new page size from the offered choices returns to page 1 |
| Invoices.InvoiceList.PreviousPage | app/sales/invoices/page.tsx:856-880 | goes back one page only when the pager is shown and the page is not the first |
| Invoices.InvoiceList.NextPage | app/sales/invoices/page.tsx:856-880 | goes forward one page only when the pager is shown and the page is not equal to the page count, so after a filter change it can move past the last page |
| Invoices.InvoiceList.HandleSort | app/sales/invoices/page.tsx:225-232 | the sort state becomes the next state of the header click and nothing else changes |
| Invoices.InvoiceList.HandleSelectAll | app/sales/invoices/page.tsx:273-279 | checking selects the ids of the current page in order, unchecking clears; the header box is then checked exactly when it was checked on a non-empty page |
| Invoices.InvoiceList.HandleSelectInvoice | app/sales/invoices/page.tsx:281-287 | toggles one id in the selection and changes nothing else |
| Invoices.InvoiceList.ClearFilters | app/sales/invoices/page.tsx:289-296 | resets the facets, amounts, search and dates, after which no filter is active and an invoice passes exactly when it matches the tab with a non-negative amount |
| Products.FilteredProductsCorrect | app/products/page.tsx:162-215 | the shown products are those passing search, category, status and price, with their multiplicity; sorted when a sort key is set, with products of equal key in their filtered order (stable sort); in catalogue order when none is |
| Products.UnknownSortKeyKeepsOrder | app/products/page.tsx:186-212 | a sort key outside the known ones leaves the filtered catalogue order as it is |
| Products.FilteredProductsOrder | app/products/page.tsx:186-212 | any two shown products are in order for the chosen key: price, stock, last update numerically, name lower-cased |
| Products.DefaultPriceRangeHides | app/products/page.tsx:128 | a product priced above 1000 is hidden although no filter counts as active |
| Products.DefaultQueryShowsCatalogue | app/products/page.tsx:124-133 | the opening state shows the whole catalogue in order |
| Products.CatalogueCounts | app/products/page.tsx:217-220 | the mock catalogue has 6 products: 3 active, 2 low on stock, 1 out of stock |
| Products.ProductList.constructor | app/products/page.tsx:124-133 | no filter, price range 0 to 1000, no sort key, no selection, and the stored list matches the query |
| Products.ProductList.Refresh | app/products/page.tsx:162-215 | the effect stores the list the current query specifies |
| Products.ProductList.SetSearchTerm | app/products/page.tsx:131 | sets the search and re-runs the filter |
| Products.ProductList.ToggleCategory | app/products/page.tsx:408-414 | toggles one category and re-runs the filter |
| Products.ProductList.ToggleStatus | app/products/page.tsx:433-439 | toggles one status and re-runs the filter |
| Products.ProductList.SetPriceRange | app/products/page.tsx:458-466 | sets both price bounds and re-runs the filter |
| Products.ProductList.SortHeaderClick | app/products/page.tsx:496-584 | the clicked key becomes the sort key; clicking the current key flips the order, another key sorts ascending; the filters and selection are kept |
| Products.ProductList.HandleSelectAll | app/products/page.tsx:222-228 | checking selects every shown id in order, unchecking clears; the header box follows |
| Products.ProductList.HandleSelectProduct | app/products/page.tsx:230-236 | toggles one id in the selection |
| Products.ProductList.ClearFilters | app/products/page.tsx:238-245 | resets every filter and the sort; no filter is active afterwards |
| Suppliers.FilteredSuppliersCorrect | app/suppliers/page.tsx:133-169 | the shown suppliers are those passing search, category and status, with their multiplicity, sorted by the field and direction, with suppliers of equal key in their filtered order (stable sort) |
| Suppliers.FilteredSuppliersOrder | app/suppliers/page.tsx:149-169 | any two shown suppliers are in order: amounts, invoice counts and last invoice dates numerically, names lower-cased |
| Suppliers.ClearedFiltersShowAll | app/suppliers/page.tsx:235-239 | with no search and no facet, every supplier is shown (as a permutation) |
| Suppliers.MockStatistics | app/suppliers/page.tsx:243-246 | 3 of the mock suppliers are active, the amounts sum to 118500 and the invoice counts to 43 |
| Suppliers.SupplierList.constructor | app/suppliers/page.tsx:119-127 | empty search and selection, sorted by name ascending, no facet |
| Suppliers.SupplierList.SetSearchTerm | app/suppliers/page.tsx:119 | sets the search and nothing else |
| Suppliers.SupplierList.ToggleCategory | app/suppliers/page.tsx:329-335 | toggles one category and nothing else |
| Suppliers.SupplierList.ToggleStatus | app/suppliers/page.tsx:354-360 | toggles one status and nothing else |
| Suppliers.SupplierList.HandleSort | app/suppliers/page.tsx:171-178 | the sort state becomes the next state of the header click |
| Suppliers.SupplierList.HandleSelectAll | app/suppliers/page.tsx:219-225 | checking selects every shown id in order, unchecking clears; the header box is checked exactly when it was checked with something shown |
| Suppliers.SupplierList.HandleSelectSupplier | app/suppliers/page.tsx:227-233 | toggles one id in the selection |
| Suppliers.SupplierList.ClearFilters | app/suppliers/page.tsx:235-239 | clears the facets and the search; no filter is active and every supplier is shown |
| Orders.FilteredOrders | app/sales/orders/page.tsx:182-190 | the shown orders are those whose id, customer or email contains the search, each as often as in the list and in order; an empty search shows all |
| Orders.EmptyTermMatchesAll | app/sales/orders/page.tsx:182-190 | the empty search keeps every order |
| Orders.OrderStats | app/sales/orders/page.tsx:192-195 | completed plus pending never exceed the total; revenue is the sum over completed orders |
| Orders.RevenueAtMostAllTotals | app/sales/orders/page.tsx:195 | with non-negative totals, revenue is at most the sum of all order totals |
| Orders.SampleCompleted | app/sales/orders/page.tsx:48-115 | the completed mock orders are the first and the fourth |
| Orders.SamplePending | app/sales/orders/page.tsx:48-115 | the only pending mock order is the third |
| Orders.SampleStatistics | app/sales/orders/page.tsx:192-195 | the mock data gives 6 orders, 2 completed, 1 pending, revenue 2598 |
| Orders.OrderList.constructor | app/sales/orders/page.tsx:178-180 | empty search, every order shown, nothing selected |
| Orders.OrderList.SetSearchTerm | app/sales/orders/page.tsx:182-190 | the effect stores the orders the new search matches |
| Orders.OrderList.HandleSelectAll | app/sales/orders/page.tsx:197-203 | checking selects every shown id in order, unchecking clears; the header box follows |
| Orders.OrderList.HandleSelectOrder | app/sales/orders/page.tsx:205-211 | toggles one id in the selection |
| UserList.FilteredUsers | app/settings/users/page.tsx:136-145 | the shown users are those matching the search, the status select and the role select, each as often as in the list and in order |
| UserList.DefaultFiltersShowAll | app/settings/users/page.tsx:131-145 | empty search and "all" in both selects show every user |
| UserList.UpperCaseSelectMatchesNothing | app/settings/users/page.tsx:136-145 | a select value with an upper-case letter matches no status or role, because the record side is lower-cased |
| UserList.UserStats | app/settings/users/page.tsx:163-165 | active plus pending users never exceed the total; the permission total is not negative |
| UserList.SampleActive | app/settings/users/page.tsx:43-114 | the active mock users are the first, second and fifth |
| UserList.SamplePending | app/settings/users/page.tsx:43-114 | the only pending mock user is the fourth |
| UserList.SamplePermissions | app/settings/users/page.tsx:165 | the mock users hold 10 permissions in all |
| UserList.SampleStatistics | app/settings/users/page.tsx:163-165 | the mock data gives 3 active, 1 pending, 10 permissions |
| UserList.UserListView.constructor | app/settings/users/page.tsx:131-134 | empty search and selection, both selects on "all" |
| UserList.UserListView.SetFilters | app/settings/users/page.tsx:274-296 | sets the search and selects and nothing else |
| UserList.UserListView.HandleSelectAll | app/settings/users/page.tsx:147-153 | checking selects every shown id in order, unchecking clears; the header box is checked exactly when it was checked with something shown |
| UserList.UserListView.HandleSelectUser | app/settings/users/page.tsx:155-161 | toggles one id in the selection |
| Devices.CurrentDevices | app/devices/list/page.tsx:141 | printers on the "printers" tab, payment terminals on any other |
| Devices.FilteredDevices | app/devices/list/page.tsx:142-147 | the current tab's devices whose name, model or IP address contains the search, in order |
| Devices.EmptySearchShowsAll | app/devices/list/page.tsx:142-147 | an empty search shows the tab's whole list |
| Devices.PrinterRows | app/devices/list/page.tsx:256 | the printer table shows the searched printers, in order |
| Devices.PaymentRows | app/devices/list/page.tsx:327 | the payment table shows exactly the terminal list, whatever the search |
| Devices.SearchNarrowsOnlyPrinters | app/devices/list/page.tsx:256-327 | the search can shorten the printer table but the payment table is always the terminal list; an empty search shows every printer |
| Devices.TotalDevices | app/devices/list/page.tsx:149 | the total counts both lists |
| Devices.OnlineDevices | app/devices/list/page.tsx:150 | the online count is at most the total |
| Devices.OnlinePrinters | app/devices/list/page.tsx:38-83 | the online printers are the first, second and fourth |
| Devices.OnlineTerminals | app/devices/list/page.tsx:85-108 | the only online terminal is the first |
| Devices.DeviceCounts | app/devices/list/page.tsx:149-150 | 6 devices in all, 4 of them online |
| NewOrder.FilteredProducts | app/sales/orders/new/page.tsx:88-92 | the picker shows the products whose name or code contains the search, in catalogue order |
| NewOrder.Increment | app/sales/orders/new/page.tsx:96-100 | same lines in the same order; only the matching line gains one unit |
| NewOrder.AddProduct | app/sales/orders/new/page.tsx:94-112 | a product already in the cart gains a unit, another is appended with quantity 1; the product is in the cart afterwards and ids stay distinct |
| NewOrder.IncrementAbsent | app/sales/orders/new/page.tsx:96-100 | incrementing an id that is not in the cart changes nothing |
| NewOrder.IncrementSubtotal | app/sales/orders/new/page.tsx:96-100 | one more unit raises the subtotal by that line's price |
| NewOrder.AddProductSubtotal | app/sales/orders/new/page.tsx:94-112 | adding a product raises the subtotal by its price |
| NewOrder.RemoveItem | app/sales/orders/new/page.tsx:122-124 | the id is gone; every other line is kept as often as it occurred, in order |
| NewOrder.SetQuantity | app/sales/orders/new/page.tsx:118 | same lines in the same order; only the matching line takes the new quantity |
| NewOrder.UpdateQuantity | app/sales/orders/new/page.tsx:114-120 | a quantity of 0 or less removes the line; any other sets it |
| NewOrder.CartOperationsKeepValid | app/sales/orders/new/page.tsx:94-124 | adding, updating and removing keep one line per product, each with at least one unit |
| NewOrder.AddProductValid | app/sales/orders/new/page.tsx:94-112 | adding a product keeps the cart invariant |
| NewOrder.SetQuantityValid | app/sales/orders/new/page.tsx:118 | setting a positive quantity keeps the cart invariant |
| NewOrder.RemoveItemValid | app/sales/orders/new/page.tsx:122-124 | removing a line keeps the cart invariant |
| NewOrder.DiscountAmount | app/sales/orders/new/page.tsx:148 | a fixed discount is its value; a percentage between 0 and 100 of a non-negative subtotal lies between 0 and the subtotal |
| NewOrder.PercentBounds | app/sales/orders/new/page.tsx:148 | a percentage between 0 and 100 of a non-negative amount lies between 0 and the amount |
| NewOrder.PercentageTotalBounds | app/sales/orders/new/page.tsx:147-149 | with non-negative prices and a percentage between 0 and 100, the total lies between 0 and the subtotal |
| NewOrder.FixedDiscountCanMakeTotalNegative | app/sales/orders/new/page.tsx:148-149 | a fixed discount above the subtotal makes the total negative |
| NewOrder.DiscountInput | app/sales/orders/new/page.tsx:436-443 | in percentage mode values above 100 are stored as 100; otherwise the value is stored unchanged |
| NewOrder.AddPaymentLowersRemaining | app/sales/orders/new/page.tsx:151-152 | each added payment lowers the remaining amount by exactly its amount |
| NewOrder.LabelOf | app/sales/orders/new/page.tsx:640-650 | "Pending" exactly when something remains, "Overpaid" exactly when the remainder is negative, "Fully Paid" exactly when it is zero |
| NewOrder.RemovePayment | app/sales/orders/new/page.tsx:139-141 | the payments with that id are gone; the others are kept as often as they occurred, in order |
| NewOrder.UpdatePaymentAmount | app/sales/orders/new/page.tsx:143-145 | same payments in the same order; only the matching ones take the new amount |
| NewOrder.OrderForm.constructor | app/sales/orders/new/page.tsx:79-86 | empty cart, no payments, percentage discount of 0, empty inputs |
| NewOrder.OrderForm.AddProductToOrder | app/sales/orders/new/page.tsx:94-112 | the cart becomes the cart with the product added; the invariant is kept and nothing else changes |
| NewOrder.OrderForm.HandleUpdateQuantity | app/sales/orders/new/page.tsx:114-120 | the cart becomes the updated cart; the invariant is kept and nothing else changes |
| NewOrder.OrderForm.HandleRemoveItem | app/sales/orders/new/page.tsx:122-124 | the cart loses the line; the invariant is kept and nothing else changes |
| NewOrder.OrderForm.SetNewPayment | app/sales/orders/new/page.tsx:530-548 | sets the two new-payment inputs and nothing else |
| NewOrder.OrderForm.AddPaymentMethod | app/sales/orders/new/page.tsx:126-137 | with a method chosen and a positive amount, the payment is appended under the fresh id and both inputs reset; otherwise nothing changes |
| NewOrder.OrderForm.HandleRemovePayment | app/sales/orders/new/page.tsx:139-141 | the payment list loses that id and nothing else changes |
| NewOrder.OrderForm.HandleUpdatePaymentAmount | app/sales/orders/new/page.tsx:143-145 | the payment list takes the new amount and nothing else changes |
| NewOrder.OrderForm.SetDiscountType | app/sales/orders/new/page.tsx:423 | sets the type and keeps the stored value, even above 100 |
| NewOrder.OrderForm.SetDiscountValue | app/sales/orders/new/page.tsx:436-443 | stores the input through the percentage clamp and changes nothing else |
| NewOrder.ClampSkippedBySwitchingType | app/sales/orders/new/page.tsx:423-443 | a fixed discount of 150 typed first stays 150 after switching to percentage, and the total of a non-empty cart goes negative |
| NewInvoice.ApplyEdit | app/sales/invoices/new/page.tsx:111-124 | only the edited field changes; editing quantity or unit price recomputes the line total, editing the description keeps it |
| NewInvoice.UpdateItem | app/sales/invoices/new/page.tsx:111-124 | same lines in the same order; only the lines with that id are edited |
| NewInvoice.RemoveItem | app/sales/invoices/new/page.tsx:105-109 | with one line nothing is removed; otherwise the lines with that id go and the rest are kept as often as they occurred, in order |
| NewInvoice.UpdateItemKeepsValid | app/sales/invoices/new/page.tsx:111-124 | editing keeps at least one line, distinct ids and consistent line totals |
| NewInvoice.AddItemKeepsValid | app/sales/invoices/new/page.tsx:94-103 | appending a blank line under a new id keeps the invariant |
| NewInvoice.RemoveItemKeepsValid | app/sales/invoices/new/page.tsx:105-109 | removing keeps at least one line, distinct ids and consistent totals |
| NewInvoice.SubtotalFromPrices | app/sales/invoices/new/page.tsx:126 | with consistent lines the subtotal equals the sum of quantity times unit price |
| NewInvoice.DiscountAmount | app/sales/invoices/new/page.tsx:127 | a fixed discount is its value; a percentage is clamped at 100, so it lies between 0 and a non-negative subtotal and equals the subtotal from 100 up |
| NewInvoice.ScaleBounds | app/sales/invoices/new/page.tsx:127 | scaling a non-negative amount by a smaller factor gives a smaller, non-negative product |
| NewInvoice.TotalIsTaxedNet | app/sales/invoices/new/page.tsx:126-129 | the total is the discounted subtotal times one plus the tax rate |
| NewInvoice.PercentageTotalNonNegative | app/sales/invoices/new/page.tsx:126-129 | with non-negative quantities, prices, percentage and tax, the total is not negative |
| NewInvoice.QuantityInput | app/sales/invoices/new/page.tsx:362 | a parsed non-zero integer is kept; an unparsable or zero input becomes 1 |
| NewInvoice.RealInput | app/sales/invoices/new/page.tsx:373 | a parsed number is kept; an unparsable input becomes 0 |
| NewInvoice.DiscountInput | app/sales/invoices/new/page.tsx:462-469 | in percentage mode values above 100 are stored as 100; otherwise the parsed value is stored |
| NewInvoice.InvoiceForm.constructor | app/sales/invoices/new/page.tsx:88-92 | one blank line with id "1", a percentage discount of 0 and a tax rate of 0 |
| NewInvoice.InvoiceForm.AddItem | app/sales/invoices/new/page.tsx:94-103 | appends a blank line under the fresh id; the invariant is kept and nothing else changes |
| NewInvoice.InvoiceForm.HandleRemoveItem | app/sales/invoices/new/page.tsx:105-109 | the lines become the lines with that id removed (unless only one is left); the invariant is kept |
| NewInvoice.InvoiceForm.HandleUpdateItem | app/sales/invoices/new/page.tsx:111-124 | the lines take the edit; the invariant is kept |
| NewInvoice.InvoiceForm.SetDiscountType | app/sales/invoices/new/page.tsx:446 | sets the type and keeps the stored value |
| NewInvoice.InvoiceForm.SetDiscountValue | app/sales/invoices/new/page.tsx:462-469 | stores the parsed input through the percentage clamp |
| NewInvoice.InvoiceForm.SetTaxRate | app/sales/invoices/new/page.tsx:489 | stores the parsed rate, 0 when unparsable |
| NewUser.Permissions | app/settings/users/new/page.tsx:26-70 | every category offers at least one permission |
| NewUser.PermissionsDistinct | app/settings/users/new/page.tsx:26-70 | no category lists a permission twice |
| NewUser.SharedPermissions | app/settings/users/new/page.tsx:26-70 | "manage_categories" belongs to Products and Inventory, "export_reports" to Dashboard and Reports |
| NewUser.SelectedCount | app/settings/users/new/page.tsx:123-127 | the selected count of a category is at most its size |
| NewUser.CategoryStates | app/settings/users/new/page.tsx:118-127 | a category is selected exactly when all its permissions are; selected and partially selected never hold together; neither holds exactly when none is selected |
| NewUser.CategoryToggle | app/settings/users/new/page.tsx:105-116 | checking puts every permission of the category in exactly once, so the category is selected; unchecking removes them all; permissions outside the category keep their order and copies; nothing foreign appears |
| NewUser.CheckingKeepsSelections | app/settings/users/new/page.tsx:105-121 | checking one category leaves every other selected category selected |
| NewUser.UncheckingSharedPermission | app/settings/users/new/page.tsx:105-121 | unchecking a category deselects any category that shares a permission with it |
| NewUser.UncheckProductsBreaksInventory | app/settings/users/new/page.tsx:105-127 | unchecking Products turns a fully selected Inventory into a partially selected one |
| NewUser.SetField | app/settings/users/new/page.tsx:90-95 | the field takes the new value, the key set gains at most that field, every other field is unchanged |
| NewUser.FullName | app/settings/users/new/page.tsx:136 | the full name has no white space at either end |
| NewUser.WordStarts | app/settings/users/new/page.tsx:362-366 | at most one character per input character; every character is a non-space character of the input; a word at the start contributes its first character |
| NewUser.Initials | app/settings/users/new/page.tsx:362-366 | never empty; "U" for an empty name; otherwise starts with the upper-cased first letter |
| NewUser.InitialsOfFullName | app/settings/users/new/page.tsx:136-366 | the avatar shows "U" for an empty full name, and otherwise starts with the upper-cased first letter of the full name |
| NewUser.UserForm.constructor | app/settings/users/new/page.tsx:74-87 | the initial form fields and no permission selected |
| NewUser.UserForm.HandleInputChange | app/settings/users/new/page.tsx:90-95 | the form becomes the form with the field updated; permissions unchanged |
| NewUser.UserForm.HandlePermissionToggle | app/settings/users/new/page.tsx:97-103 | toggles one permission; the form is unchanged |
| NewUser.UserForm.HandleCategoryToggle | app/settings/users/new/page.tsx:105-116 | applies the category toggle; the form is unchanged |
| ProductInfo.RemoveAt | components/product-form/product-info-tab.tsx:31-33 | with an index in range, one shorter, with the elements before the index kept and those after shifted down by one; out of range, unchanged |
| ProductInfo.AppendKeepsValid | components/product-form/product-info-tab.tsx:35-40 | appending a new non-empty trimmed tag keeps the tags distinct, trimmed and non-empty |
| ProductInfo.ProductInfoTab.constructor | components/product-form/product-info-tab.tsx:17-19 | no images, the tags "electronics" and "wireless", an empty input |
| ProductInfo.ProductInfoTab.SetNewTag | components/product-form/product-info-tab.tsx:19 | sets the input and nothing else |
| ProductInfo.ProductInfoTab.AddTag | components/product-form/product-info-tab.tsx:35-40 | a non-empty trimmed input that is not yet a tag is appended and the input cleared; otherwise nothing changes; tags stay distinct |
| ProductInfo.ProductInfoTab.RemoveTag | components/product-form/product-info-tab.tsx:42-44 | the tag is gone, the others keep their order, and the tags stay distinct |
| ProductInfo.ProductInfoTab.RemoveImage | components/product-form/product-info-tab.tsx:31-33 | the image at that position is removed and nothing else changes |
| ProductInfo.ProductInfoTab.UploadImages | components/product-form/product-info-tab.tsx:21-29 | the new image URLs are appended after the existing ones |
| UserContext.HasAccess | contexts/user-context.tsx:66-74 | access is granted exactly when the role asked for (if any) is the user's and the plan asked for (if any) is the user's |
| UserContext.NoRequirementGrants | contexts/user-context.tsx:66-74 | asking for nothing always grants access |
| UserContext.AccessSplits | contexts/user-context.tsx:66-74 | a role-and-plan check passes exactly when the role check and the plan check both pass |
| UserContext.DefaultUser | contexts/user-context.tsx:64 | the session starts as the first sample user, an ADMIN on the PRO plan |
| UserContext.DefaultUserPassesEveryCheck | contexts/user-context.tsx:27-74 | the default user passes exactly the checks that ask for ADMIN or nothing and PRO or nothing |
| UserContext.SampleUsersCoverEachCombination | contexts/user-context.tsx:27-60 | the four sample users cover each role and plan pair exactly once |
| UserContext.Session.constructor | contexts/user-context.tsx:64 | the session starts with the default user |
| UserContext.Session.SetUser | contexts/user-context.tsx:64 | switching user replaces the current user |
| UserContext.Session.Access | contexts/user-context.tsx:66-74 | the check is about the current user: the role asked for (if any) and the plan asked for (if any) must be theirs |
| Sidebar.RenderedGroups | components/app-sidebar.tsx:69-303 | the first four groups are the core ones; any other group is rendered exactly when its access check allows it |
| Sidebar.CoreGroupsAlwaysShown | components/app-sidebar.tsx:69-159 | Main, Sales, Inventory and Finance are rendered for everyone |
| Sidebar.SettingsOnlyForAdmins | components/app-sidebar.tsx:268-303 | Settings is rendered exactly for ADMIN users |
| Sidebar.UnlockedOnlyForAdminPro | components/app-sidebar.tsx:161-241 | Reports and Devices are unlocked exactly for ADMIN users on PRO |
| Sidebar.LockedOnlyOnFree | components/app-sidebar.tsx:186-266 | the locked variants appear exactly on the FREE plan, whatever the role |
| Sidebar.NeverBothVariants | components/app-sidebar.tsx:161-266 | no user sees both the unlocked and the locked variant of a group |
| Sidebar.BasicProSeesNeither | components/app-sidebar.tsx:161-303 | a BASIC user on PRO sees neither variant of Reports or Devices, and no Settings |
| Sidebar.DefaultUserSidebar | components/app-sidebar.tsx:69-303 | the default account sees every unlocked group and no locked one, in sidebar order |

## Left out

- Case mapping covers ASCII letters only; `toLowerCase` and `toUpperCase` on other scripts are not modelled.
- Money is an exact `real`; IEEE 754 rounding of `number` and the `toFixed` display are not modelled.
- The clock is not modelled. The current month and year are a `Calendar` parameter, and the ids made from `Date.now()` are a fresh-id parameter.
- Number parsing is a parameter. `parseInt`, `parseFloat` and `Number(...)` are an `Option` holding the parsed value, where `None` stands for NaN.
- Invoices.AmountMatches: a minimum or maximum amount typed as text that does not parse (NaN, which fails every comparison) is not modelled; a bound is either absent or a number.
- Products.ProductList.SetPriceRange: the bounds are numbers; the NaN that `Number` gives for text that is not a number is not modelled.
- Dates are whole numbers (day numbers or `yyyymmdd`); time zones and `Date` parsing are not modelled.
- Rendering is left out: JSX, badges, icons, formatting, toasts, theme and accent colour, the dashboard, plans, analytics and authentication pages.
- ProductInfo.ProductInfoTab.UploadImages: the URLs come in as a parameter; `URL.createObjectURL` and the file input are not modelled.
- The new-order customer select, the invoice header fields (supplier, number, dates, category, notes) and the user avatar upload are plain form state with no logic and are not modelled.
- NewInvoice.UpdateItem: only the description, quantity and unit price edits the page offers are modelled; writing the id or the total through the generic field setter is not.
- NewInvoice.InvoiceForm.AddItem: requires the fresh id to differ from every line id; the page relies on `Date.now()` for this.
- Products.ProductList.Refresh: React's effect scheduling is modelled as an explicit refresh that each handler runs after its update.
- Sorting.StrLess: strings are compared by Unicode scalar value, while JavaScript's `<` compares UTF-16 code units; the two orders differ between characters above U+FFFF and those in U+E000 to U+FFFF.
- Sorting.SortBy: `Array.prototype.sort` sorts in place; the model returns a new sorted sequence and the page stores it, so aliasing of the array is not modelled.
- NewUser.Initials: only the first character is stated; that every later initial is upper-cased is not stated.
- Form submission, navigation and the mock `console.log` calls are side effects with no state in the page and are not modelled.
