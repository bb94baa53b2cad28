# Hayy ERP point of sale, modelled in Dafny

This project models the core of Hayy ERP. Hayy ERP is a browser point-of-sale and inventory
application that keeps its data in an IndexedDB store, accessed through Dexie.
The model covers these parts:

- **The store** (`db.dfy`, module `Db`). The eight tables are maps from key to record, held as
  fields of the shared `AppDatabase` object. The module also covers the guarded first-run seeding
  `initializeDefaultData`, which inserts one admin user, one settings row and five categories,
  and the `initDB` recovery path, which deletes and reseeds the store after an upgrade error.
- **The new-sale page** (`cart.dfy`, `new_sale.dfy`).
  - The cart operations are value functions in module `Cart`: add a product, set a quantity,
    remove a line, the totals effect and the discount clamp.
  - The page's handlers are methods of the `NewSalePage` class, proved equal to those
    functions.
  - `handleSaveSale` is proved equal to a function over the sales and products tables. It
    validates the sale, checks stock against the product list loaded when the page opened,
    inserts one completed sale, then lowers each product's stock.
- **The dashboard** (`dashboard.dfy`, `trend.dfy`). It covers:
  - the stats cards;
  - the product-sales dictionary built by a nested loop, then sorted stably by count and cut
    to five;
  - the time window applied to sales and purchases;
  - the sales-trend slots (eight 3-hour slots, seven days or four weeks), filled by an
    in-place loop over an array.
- **The product form** (`product_form.dfy`): the default form, the change handler that clears
  a field's error, the six validation checks, and the submit, which updates or adds a product.
  The status select's change handler builds its event from a spread copy of the target, which
  has no `name`, so as written the status cannot be changed through the form.
- **The product list** (`products_page.dfy`): the category options, the search-and-category
  filter, the list after a delete, and the low-stock marker.
- **The sales list** (`sales_page.dfy`): the search, status and date filter, and the
  invoice number.
- **Sign-in and roles** (`auth.dfy`): the login query, login and logout, and the three role
  checks.
- **The sidebar's role-gated menu** (`sidebar.dfy`).
- **The toast provider** (`toast.dfy`): its list of notices and the timers that dismiss them.

Shared definitions:

- `base.dfy`: `Option` and the time constants.
- `schema.dfy`: the record types of `src/db/db.ts`.
- `seqs.dfy`: filter, first-match search, sub-sequence and distinct helpers.
- `text.dfy`: the JavaScript string operations the pages use.

Representation choices:

- Money is `real`.
- Counts, quantities and stock levels are `int`.
- Instants are integer milliseconds.
- Strings are `seq<char>`.
- Random values and keys the store hands out are parameters of the operations that use them.
  This covers `uuidv4()`, the auto-increment keys, `Math.random()` line ids and toast ids.
- The current time is a parameter too: `now`, or a `Clock` with `now`, local-midnight bounds
  and the instant one calendar month ago.

## Model

| member | source | states |
|---|---|---|
| Db.AddCategoriesGrows | src/db/db.ts:184-193 | the category loop never removes or alters a category already stored, only adds keys from the ids still to use, and can fail only with a constraint error on `categories` |
| Db.AddCategoriesKeepsEarlier | src/db/db.ts:184-193 | a category whose id and all earlier ids were free is stored afterwards, whether or not a later insert failed (no rollback) |
| Db.AddCategoriesSucceeds | src/db/db.ts:184-193 | with free, distinct ids the category loop completes without error |
| Db.AddCategoriesFailsAt | src/db/db.ts:184-198 | the first id that is already taken makes the loop fail with a constraint error |
| Db.SeedGuard | src/db/db.ts:145-146 | seeding changes nothing and succeeds whenever the users table already holds a row |
| Db.SeedIdempotent | src/db/db.ts:142-199 | a second seeding run after any first run, failed or not, is a no-op, because the admin insert on an empty users table always succeeds |
| Db.SeedFresh | src/db/db.ts:142-199 | on a store with no users and fresh ids, seeding succeeds and adds exactly the admin (active, role admin), the settings row (tax 18, INR) and the five active default categories; every other table is unchanged |
| Db.FreshCategories | src/db/db.ts:176-193 | over fresh, distinct ids the loop succeeds, its keys are the old keys plus the five ids, each new row is that name's default category, and old rows are kept |
| Db.SeedEmptyStore | src/db/db.ts:142-199 | seeding the empty store with distinct ids yields exactly the seeded store: one user, one settings row, five categories, nothing else |
| Db.SeedFailureKeepsEarlierRows | src/db/db.ts:149-198 | when a default category's id is taken, seeding fails with a constraint error on `categories`, and the admin, the settings row and every category inserted before it stay (no rollback) |
| Db.SeedRaisesOnlyConstraintErrors | src/db/db.ts:142-199 | seeding can fail only with a constraint error, never an upgrade error, so it never triggers the delete-and-retry path by itself |
| Db.AppDatabase.constructor | src/db/db.ts:127-140 | a new store holds eight empty tables |
| Db.AppDatabase.Delete | src/db/db.ts:216 | deleting the store leaves every table empty |
| Db.AppDatabase.InitializeDefaultData | src/db/db.ts:142-199 | the insert sequence leaves the store and result equal to the seeding function applied to the old store |
| Db.InitDB | src/db/db.ts:206-223 | an open that succeeds seeds; a non-upgrade open error is returned with the store untouched; an upgrade error deletes the store, then returns the reopen's error or seeds the empty store |
| Cart.FindLine | src/pages/sales/NewSalePage.tsx:116 | −1 exactly when no line has the product; otherwise the index of the first line with it |
| Cart.AddExisting | src/pages/sales/NewSalePage.tsx:118-123 | adding a product already in the cart turns the first line with its id into the same line (same id, product and unit price) with one more unit and total = new quantity × that line's own unit price; every other line and the length stay |
| Cart.AddNew | src/pages/sales/NewSalePage.tsx:124-135 | adding a product not in the cart appends one line of quantity 1 whose price and total are the product's price |
| Cart.AddKeepsInvariants | src/pages/sales/NewSalePage.tsx:114-136 | adding keeps one line per product and every line's total equal to quantity × price |
| Cart.RemoveLineSpec | src/pages/sales/NewSalePage.tsx:165-167 | removal keeps exactly the lines with another id, in order |
| Cart.RemoveLineAbsent | src/pages/sales/NewSalePage.tsx:165-167 | removing an id that is not in the cart changes nothing |
| Cart.RemoveLineIdempotent | src/pages/sales/NewSalePage.tsx:165-167 | removing twice is removing once |
| Cart.SubsequenceKeepsInvariants | src/pages/sales/NewSalePage.tsx:165-167 | any sub-list of a well-formed cart is well-formed, so removal keeps the cart invariants |
| Cart.SetQuantitySpec | src/pages/sales/NewSalePage.tsx:145-163 | a quantity ≤ 0 is a removal; otherwise each line with that id becomes the same line with the new quantity and total = quantity × its own unit price, and every other line stays; both invariants are kept |
| Cart.SubtotalUpdate | src/pages/sales/NewSalePage.tsx:72 | replacing one line changes the subtotal by the difference of the two lines' totals |
| Cart.SubtotalAppend | src/pages/sales/NewSalePage.tsx:72 | appending a line adds its total to the subtotal |
| Cart.AddExistingSubtotal | src/pages/sales/NewSalePage.tsx:118-123 | adding one more unit of a product already in a consistent line raises the subtotal by its unit price |
| Cart.AddRaisesSubtotalByPrice | src/pages/sales/NewSalePage.tsx:114-136 | on a consistent cart, adding a product raises the subtotal by that line's unit price (the product's price for a new line) |
| Cart.SubtotalIsLineValue | src/pages/sales/NewSalePage.tsx:72 | on a consistent cart the summed totals equal Σ quantity × price |
| Cart.TotalsSpec | src/pages/sales/NewSalePage.tsx:70-81 | the totals satisfy total = subtotal − discount + tax, with tax = (subtotal − discount) × rate/100, so total = (subtotal − discount)(1 + rate/100) |
| Cart.ClampSpec | src/pages/sales/NewSalePage.tsx:169-172 | the stored discount never exceeds the subtotal or the entered value, is one of the two, and equals the entered value when that is within the subtotal |
| Seqs.FindFirst | src/pages/sales/NewSalePage.tsx:86 | `Array.prototype.find`: None exactly when no element satisfies the predicate; otherwise the first element that does |
| NewSale.FindProduct | src/pages/sales/NewSalePage.tsx:139 | None exactly when no product has the id; otherwise the first product with it |
| NewSale.FindByBarcode | src/pages/sales/NewSalePage.tsx:99 | None exactly when no product has the barcode; otherwise the first listed product with it |
| NewSale.FindCustomer | src/pages/sales/NewSalePage.tsx:86 | None exactly when no customer has the id; otherwise the first listed customer with it |
| NewSale.FirstShortageSpec | src/pages/sales/NewSalePage.tsx:195-202 | no shortage exactly when every line passes the check; otherwise the shortage is the listed product of the first failing line |
| NewSale.CheckStock | src/pages/sales/NewSalePage.tsx:195-202 | the stock loop returns the first shortage, and a reported product has less stock than some line asks for |
| NewSale.ApplyDecrementsSpec | src/pages/sales/NewSalePage.tsx:225-233 | the update loop keeps the key set, lowers each product's stock by exactly the units its lines ask for (repeated lines add up), changes no field but stock and `updatedAt`, and leaves products without lines unchanged |
| NewSale.UnitsForSingleLine | src/pages/sales/NewSalePage.tsx:225-233 | with one line per product, the units asked of a product are its line's quantity, or 0 |
| NewSale.RejectedWritesNothing | src/pages/sales/NewSalePage.tsx:174-202 | an empty cart, then a missing customer, then the first shortage are refused in that order, and a refused sale writes neither table |
| NewSale.SavedSale | src/pages/sales/NewSalePage.tsx:204-233 | a saved sale is exactly one new row under the new key, completed, holding the cart, the chosen customer's id (never empty), the name of the customer found by that id among those loaded when the page opened (empty when the id is not among them), the payment method, the discount, subtotal = Σ quantity × price, tax = (subtotal − discount) × rate / 100, total = subtotal − discount + tax, and both timestamps now; each product loses its lines' units and nothing else of it changes but `updatedAt` |
| NewSale.StockStaysNonNegative | src/pages/sales/NewSalePage.tsx:195-233 | with a current product list, one line per product and non-negative stock, no stock is negative after a save |
| NewSale.UnitsWithinStock | src/pages/sales/NewSalePage.tsx:195-202 | a cart that passed the check asks no product for more units than its current stock |
| NewSale.OversellRejected | src/pages/sales/NewSalePage.tsx:195-202 | five units of a product with three in stock are refused with that product, and nothing is written |
| NewSale.SuccessfulSale | src/pages/sales/NewSalePage.tsx:188-243 | two units at 10.00 with 18% tax save a sale of subtotal 20, tax 3.6, total 23.6, and leave 8 in stock |
| NewSale.DiscountNotReclamped | src/pages/sales/NewSalePage.tsx:165-172 | a discount clamped to a subtotal of 100 stays 100 once the cart is emptied, making the total negative |
| NewSale.NewSalePage.constructor | src/pages/sales/NewSalePage.tsx:14-68 | a mounted page has an empty, well-formed cart, cash payment, no discount, and the tax rate of settings row 1 (10 without it) |
| NewSale.NewSalePage.SelectCustomer | src/pages/sales/NewSalePage.tsx:83-91 | the selected customer is the one found by id, or none for the empty id |
| NewSale.NewSalePage.SetPaymentMethod | src/pages/sales/NewSalePage.tsx:22 | the payment method is the chosen one; nothing else changes |
| NewSale.NewSalePage.AddProductToCart | src/pages/sales/NewSalePage.tsx:114-136 | the cart becomes the add function's result and stays well-formed |
| NewSale.NewSalePage.HandleProductSelect | src/pages/sales/NewSalePage.tsx:138-143 | a listed product is added; an unknown id leaves the cart as it was |
| NewSale.NewSalePage.HandleBarcodeSubmit | src/pages/sales/NewSalePage.tsx:93-112 | a blank entry is ignored; an unknown code leaves the cart and the entry and reports not found; a known trimmed code adds its product and clears the entry |
| NewSale.NewSalePage.UpdateItemQuantity | src/pages/sales/NewSalePage.tsx:145-163 | the cart becomes the set-quantity result and stays well-formed |
| NewSale.NewSalePage.RemoveItem | src/pages/sales/NewSalePage.tsx:165-167 | the cart loses exactly that line id and stays well-formed; the discount is not touched |
| NewSale.NewSalePage.HandleDiscountChange | src/pages/sales/NewSalePage.tsx:169-172 | the discount is the entered value capped by the current subtotal |
| NewSale.NewSalePage.HandleSaveSale | src/pages/sales/NewSalePage.tsx:188-243 | the result and both tables equal the finalisation function on the page's state and the old tables |
| Dashboard.CountLowStockSpec | src/pages/dashboard/DashboardPage.tsx:61-63 | the low-stock figure is the number of products at or below their alert level, at most the number of products |
| Dashboard.StatsSpec | src/pages/dashboard/DashboardPage.tsx:55-85 | profit = revenue − purchases; one more sale raises the sale count by one and revenue and profit by its total; one more purchase lowers profit by its total |
| Dashboard.SeenNamesSpec | src/pages/dashboard/DashboardPage.tsx:91-101 | the dictionary's key order lists every product name sold exactly once and nothing else |
| Dashboard.UnitsSoldUnseen | src/pages/dashboard/DashboardPage.tsx:91-101 | a name never sold has sold zero units |
| Dashboard.TallyUpdate | src/pages/dashboard/DashboardPage.tsx:95-99 | one pass of the inner loop body keeps the dictionary equal to the tally of the lines read so far |
| Dashboard.AccumulateProductSales | src/pages/dashboard/DashboardPage.tsx:91-101 | the nested loop yields a dictionary whose keys are exactly the names sold, in first-seen order, each mapped to its total units |
| Dashboard.TallySale | src/pages/dashboard/DashboardPage.tsx:94-100 | the inner loop over one sale's lines extends a dictionary that matches the lines read so far into one that also matches this sale's lines: new names appended in order, each count the total units under its name |
| Dashboard.InsertByCountSorted | src/pages/dashboard/DashboardPage.tsx:105 | inserting into a non-increasing list keeps it non-increasing |
| Dashboard.InsertByCountPermutes | src/pages/dashboard/DashboardPage.tsx:105 | insertion adds exactly the one entry (as multisets) |
| Dashboard.InsertByCountStable | src/pages/dashboard/DashboardPage.tsx:105 | among entries of equal count the inserted one comes first, the others keep their order |
| Dashboard.SortByCountSpec | src/pages/dashboard/DashboardPage.tsx:105 | the sort is non-increasing in count, a permutation, and stable (each count's entries keep their order) |
| Dashboard.TopFiveSpec | src/pages/dashboard/DashboardPage.tsx:106 | the cut is the prefix of exactly five entries, or the whole list when it has fewer, and on a sorted list no entry cut off outsold one kept |
| Dashboard.TopProductsSpec | src/pages/dashboard/DashboardPage.tsx:103-106 | the first five entries of the sorted totals, or all of them when fewer than five names were sold; in non-increasing order, each a product name with its true units sold, no name twice, and no omitted product outsold a listed one |
| Dashboard.FetchData | src/pages/dashboard/DashboardPage.tsx:52-112 | the stats and top products the effect computes equal their specification functions |
| Trend.WindowSpec | src/pages/dashboard/DashboardPage.tsx:115-131 | each window keeps, in order, exactly the rows created at or after its start; the day's rows lie within the week's, which lie within the month's |
| Trend.ChartAmountsAllInWindow | src/pages/dashboard/DashboardPage.tsx:141-143 | when every row lies in the window, the bars equal the revenue and purchases cards |
| Trend.SlotAges | src/pages/dashboard/DashboardPage.tsx:212-237 | slot k holds exactly the ages in [(n−1−k)·w, (n−k)·w); a sale lands nowhere exactly when it is in the future or at least n·w old |
| Trend.TrendSpec | src/pages/dashboard/DashboardPage.tsx:208-237 | each slot ends holding the total of the sales whose age falls in it, and the slots add up to the total of the sales in range |
| Trend.AddAt | src/pages/dashboard/DashboardPage.tsx:221 | the array changes only at the index, which grows by the amount |
| Trend.PrepareTrendData | src/pages/dashboard/DashboardPage.tsx:179-240 | the zero-filled array filled by the loop equals the trend function of the windowed sales |
| Trend.WindowVersusSlots | src/pages/dashboard/DashboardPage.tsx:115-131 | within the slots' span every windowed sale lands in a slot, but future sales, a sale exactly one day old (daily) and sales between 28 days and a month old (monthly) are windowed yet charted nowhere |
| Trend.WeeklyScenario | src/pages/dashboard/DashboardPage.tsx:223-228 | in the weekly trend a two-day-old sale lands in slot 4 and a ten-day-old one in none |
| ProductForm.AddIfFailsSpec | src/pages/products/ProductFormPage.tsx:81-106 | one check touches only its own field, adding its message exactly when it fails |
| ProductForm.FormErrorsSpec | src/pages/products/ProductFormPage.tsx:81-106 | a field carries an error exactly when its own check fails, and then that check's message; the status field never does |
| ProductForm.NoErrorsIffValid | src/pages/products/ProductFormPage.tsx:108-109 | the error map is empty exactly when the form is valid |
| ProductForm.TwoErrors | src/pages/products/ProductFormPage.tsx:84-94 | a blank name and a negative stock raise exactly those two messages |
| ProductForm.SubmitSpec | src/pages/products/ProductFormPage.tsx:112-156 | nothing is written unless the form is valid and its category exists; an edit keeps the keys, writes the form, the category's name and a fresh `updatedAt`, and keeps `createdAt`; a create adds exactly one row with both timestamps now |
| ProductForm.ProductFormPage.constructor | src/pages/products/ProductFormPage.tsx:13-62 | edit mode loads the stored product's fields (defaults if missing); create mode starts from the defaults with the generated barcode, or empty if generation failed |
| ProductForm.ProductFormPage.HandleChange | src/pages/products/ProductFormPage.tsx:64-79 | the edited field takes the new value and nothing else of the form changes; the status select's event names no field, so it changes nothing and clears no error; the edited field's shown error is cleared to empty; other errors and the key set stay |
| ProductForm.ApplyEditSpec | src/pages/products/ProductFormPage.tsx:64-73 | an edit of a named field sets that field to the event's value and leaves every other field as it was; the status select's edit leaves the form unchanged |
| ProductForm.StatusNeverChanges | src/pages/products/ProductFormPage.tsx:303-315 | no sequence of edits, whatever fields and values, changes the form's `active` flag |
| ProductForm.ProductFormPage.ValidateForm | src/pages/products/ProductFormPage.tsx:81-110 | the error map becomes the form's errors, and the result is true exactly when the form is valid |
| ProductForm.ProductFormPage.HandleSubmit | src/pages/products/ProductFormPage.tsx:112-156 | the result and the products table equal the submit function on the form and the old table |
| ProductsPage.CategoryOptionsSpec | src/pages/products/ProductsPage.tsx:24-25 | the options list each product's category value exactly once and no other; products without the field give the single absent option |
| ProductsPage.FilteredProductsSpec | src/pages/products/ProductsPage.tsx:51-57 | the list is the in-order sub-list of products matching search and category; empty term with `all` shows all; a category never shows what `all` hides |
| ProductsPage.MarkedProducts | src/pages/products/ProductsPage.tsx:51-57 | the low-stock marker marks exactly the listed products at or below their alert, never more than the dashboard counts |
| ProductsPage.HandleDeleteSpec | src/pages/products/ProductsPage.tsx:38-49 | after a delete the list is the old list, in order, without exactly that id; an unlisted id changes nothing; a list mirroring the table still does |
| SalesPage.FilteredSalesSpec | src/pages/sales/SalesPage.tsx:134-163 | the list is the in-order sub-list of sales passing search, status and date; empty term and `all` everywhere show every sale |
| SalesPage.NarrowingNeverAdds | src/pages/sales/SalesPage.tsx:134-163 | choosing a status or a date never adds rows to `all`, and today's rows lie within the week's, which lie within the month's |
| SalesPage.InvoiceLabelSpec | src/pages/sales/SalesPage.tsx:261 | the label has min(len, 8) characters, each the upper-cased id character, no lower-case letter, and upper-casing it again changes nothing |
| SalesPage.InvoiceLabelExample | src/pages/sales/SalesPage.tsx:261 | a uuid-shaped id shows as its first eight characters in capitals |
| Auth.RoleHierarchy | src/contexts/AuthContext.tsx:82-84 | admin implies manager implies cashier; nobody signed in fails all three; anybody signed in passes cashier |
| Auth.FindActiveSpec | src/contexts/AuthContext.tsx:59-63 | the query finds nothing exactly when no active user has the username; otherwise the first active one that has it |
| Auth.OnlyFirstMatchTried | src/contexts/AuthContext.tsx:59-69 | with two active accounts sharing a username, only the first one's password signs in |
| Auth.AuthProvider.constructor | src/contexts/AuthContext.tsx:34-37 | the session starts with the stored user, if any |
| Auth.AuthProvider.Login | src/contexts/AuthContext.tsx:57-75 | true exactly when the lookup works and the first active user with that name has that password; then that user is signed in, otherwise the session is unchanged |
| Auth.AuthProvider.Logout | src/contexts/AuthContext.tsx:77-80 | nobody is signed in and every role check fails |
| Sidebar.VisibleSpec | src/components/layout/Sidebar.tsx:14-24 | the menu shown is an in-order sub-list of the nine items, holding exactly those the user may access; ungated items always show |
| Sidebar.MoreRightsShowMore | src/components/layout/Sidebar.tsx:14-24 | a user with at least another's rights sees at least that user's items, in the same order |
| Sidebar.AdminSeesAll | src/components/layout/Sidebar.tsx:14-24 | an admin sees all nine items |
| Sidebar.ManagerSees | src/components/layout/Sidebar.tsx:14-24 | a manager who is not an admin sees all but Users and Settings |
| Sidebar.OthersSee | src/components/layout/Sidebar.tsx:14-24 | a cashier, or nobody, sees only Dashboard, Products, Sales and Customers |
| Sidebar.VisibleByRole | src/components/layout/Sidebar.tsx:14-24 | the menu for each role is exactly the one listed for it |
| Toast.WithoutToastSpec | src/contexts/ToastContext.tsx:31-32 | hiding keeps exactly the toasts with another id, in order; an absent id changes nothing; hiding twice is hiding once |
| Toast.IdsSpec | src/contexts/ToastContext.tsx:31-48 | showing adds the new toast's id; hiding removes exactly the hidden id |
| Toast.ToastProvider.constructor | src/contexts/ToastContext.tsx:28-29 | no toasts and no timers, which is consistent |
| Toast.ToastProvider.ShowToast | src/contexts/ToastContext.tsx:39-48 | the toast is appended and its timer recorded under its id; every toast keeps a timer and every timer a toast |
| Toast.ToastProvider.HideToast | src/contexts/ToastContext.tsx:31-37 | the id's toasts leave, the rest keep their order, its timer goes, other timers stay; toasts and timers still match |
| Text.TrimStartSpec | src/pages/sales/NewSalePage.tsx:96-99 | the result is the string after a run of leading whitespace, empty exactly when the string is all whitespace, and otherwise starting with a non-whitespace character |
| Text.TrimEndSpec | src/pages/sales/NewSalePage.tsx:96-99 | the result is the string before a run of trailing whitespace, empty exactly when the string is all whitespace, and otherwise ending with a non-whitespace character |
| Text.BlankIffAllWhitespace | src/pages/products/ProductFormPage.tsx:84 | a string is blank exactly when every character is whitespace |
| Text.TrimEnds | src/pages/sales/NewSalePage.tsx:96-99 | the result has no whitespace at either end |
| Text.TrimMiddle | src/pages/sales/NewSalePage.tsx:96-99 | the result is a middle slice of the string, and everything before and after that slice is whitespace |
| Text.TrimIdempotent | src/pages/sales/NewSalePage.tsx:96-99 | trimming a trimmed string changes nothing |
| Text.ToLowerIdempotent | src/pages/products/ProductsPage.tsx:52-53 | lower-casing twice is lower-casing once |
| Text.ToUpperHasNoLower | src/pages/sales/SalesPage.tsx:261 | upper-casing leaves no lower-case letter |
| Text.IncludesIffOccurs | src/pages/products/ProductsPage.tsx:52-53 | `includes` holds exactly when the term occurs at some position |
| Text.IncludesEmpty | src/pages/products/ProductsPage.tsx:52-53 | every string includes the empty string |
| Text.EmptyTermMatches | src/pages/products/ProductsPage.tsx:52-53 | an empty search term matches every field |

## Left out

- Rendering, routing, navigation, the loading flags and the toasts the pages raise are not
  modelled. The date labels of the trend chart are not modelled either. The toast provider
  itself is modelled.
- `generateInvoice` is not modelled. It builds and saves a PDF through jsPDF, which is outside
  the model. The invoice number it prints is modelled as `SalesPage.InvoiceLabel`.
- Async behaviour and concurrency are not modelled. Each handler runs to completion without
  interleaving. `handleSaveSale` is not atomic: the sale insert and the stock updates are
  separate writes. A failure part-way through is not modelled; the model's saves either refuse
  or complete.
- `localStorage` is not modelled. The stored user is a parameter of the `AuthProvider`
  constructor, and login and logout do not record it.
- Time sources and random sources are parameters of the operations that use them:
  - `Date`, `setTimeout` and `clearTimeout`;
  - `Math.random()`, `uuidv4()` and the store's auto-increment keys;
  - the result of `generateBarcode`, which is not defined in `src/db/db.ts`. The model
    receives it as an optional value.
- A toast's timer firing is not modelled as its own event. It is the same `hideToast` call. The
  unmount cleanup that clears all timers is not modelled.
- The login query throwing is the `lookupFailed` flag.
- Calendar arithmetic is not modelled. Days and weeks have a fixed length, with no daylight-saving
  shifts. Local midnight and "one month ago" come from the `Clock` parameter.
- Table reads (`toArray`) are sequences in key order, supplied by the caller.
- `parseFloat` and `NaN` are not modelled. Number inputs reach the handlers already parsed, so
  a `NaN` price is not modelled. The `|| 0` fallback of the discount input is not modelled either.
- `Object.entries` lists integer-like keys first, in numeric order. The model lists the
  product-sales dictionary in insertion order, so the sort's tie order for product names that
  look like integers is not modelled.
- `toLowerCase` and `toUpperCase` are modelled on ASCII letters only. Unicode case mapping is
  not modelled.
- In `addProductToCart`, the existing line's object is mutated through a shallow copy of the
  cart array. The model updates the line by value, so aliasing of the previous render's array
  is not modelled.
- The purchases, customers, suppliers, users, reports and settings pages are not part of this
  model. Their tables appear only as the stats and windows read them.
- The schema's secondary indexes are not modelled. The login query takes the users in the
  order the caller supplies, which stands for the username index's order.
- The company details the new-sale page loads from settings are not modelled. Only the invoice
  PDF uses them.
- A product-form edit that names any stored category id is accepted. The active-category filter
  applies only to the select's options, which are not modelled.
- An update of a product key that is no longer stored is a no-op that still reports success,
  as Dexie's `update` does.
- Dashboard.AccumulateProductSales: the dictionary is modelled as a map from name to count.
  In the source it is a plain object, so product names that collide with `Object.prototype`
  members behave differently: for `constructor`, `toString` or `valueOf` the lookup finds a
  truthy inherited function, so `+=` turns that count into a string, and a `__proto__` entry is
  never stored as a key. The model counts these names like any other.
- ProductForm.ProductFormPage.HandleChange: the status select also writes its value into the
  form state under the key `undefined`, and the submit's spread carries that key into the stored
  product. The model keeps only the named form fields, so this extra key is not modelled.
- Creating a product and saving a sale call `add` without an `id`, on tables whose primary key
  `id` is not generated by the store. The model supplies a fresh key as if the store generated
  one, so the failure of that `add` in the browser is not modelled.
