# Inventory and procurement SPA: a Dafny model of its decision rules

The application is a React front end with three parts:

- a product inventory, held in `App`'s state;
- a supplier list and supplier form;
- purchase orders: a list, a detail page, and a creation form.

A mock REST backend sits behind it. It has no algorithmic subsystem. What it does have is a set of small deterministic rules, and this project models each of them: the handlers that replace a state value, the filters over lists, the form validators with their error maps, the route guards and the login session. It then proves what the code promises about them.

How the JavaScript parts are modelled:

- **Handler state.** A component's state that handlers replace (`products`, `suppliers`, `order`/`products`, `formData`/`errors`, `user`) is a `class` with fields. Each handler is a method whose `ensures` gives the new state as a function of the old.
- **Pure logic.** The pure parts are functions and predicates, and the promised properties are proved as lemmas about them. These are the `map`/`filter`/`find` computations, the colour tables and the guards.
- **Validators.** Each validator adds one entry per failing rule to a local error map. It is written as a `method` that builds the map rule by rule, and is proved against a predicate `RuleFails` that says which field fails.
- **Ids.** They are `Id = NumId(int) | StrId(string)`, so JavaScript's strict equality between a number and a string is always false.
- **Absent properties.** A property that may be missing is an `Option`, with `None` standing for `undefined`.
- **Strings.**
  - Lower-casing is ASCII (`Common.Lower`).
  - `trim` strips the JavaScript white-space set (`Common.IsSpace`).
  - `includes` is `Common.Contains`.
  - Comparing strings with `<` is `Common.LexLess`: character by character, where a proper prefix comes first.
  - A Dafny `char` is a Unicode scalar value, so every string operation here works on code points. JavaScript works on UTF-16 units instead, so a string with characters outside the Basic Multilingual Plane has a different length and can compare differently.
- **Parameters instead of effects.**
  - `parseFloat`/`parseInt` are function parameters returning `Option` (`None` is NaN).
  - Today's date and `Date.now()` are passed in.
  - The generated identifier is passed in.
  - Fetch results are `Option` or outcome values.
  - Stored data read from `localStorage` is an argument.
- **Dates.** The date check relies on section 5.1 of RFC 3339: `full-date` strings (section 5.6), compared character by character, are in chronological order. `Dates.FullDateOrder` proves this.

Modules, one per source file, plus `Common` for the shared JavaScript semantics:

| module | file |
|---|---|
| `Common` | common.dfy: `Option`, `Id`, lower-casing, `trim`, `includes`, decimal strings, `Filter`/`Find` |
| `Session` | session.dfy: `src/UserContext.js`, with the login rule of `src/pages/Login.jsx` |
| `Access` | access.dfy: `src/components/ProtectedRoute.jsx`, `src/components/RoleProtectedRoute.jsx` |
| `ProductForm` | product_form.dfy: `src/components/ProductForm.jsx` |
| `ProductTable` | product_table.dfy: the product handlers of `src/App.js` |
| `SupplierList` | supplier_list.dfy: `src/pages/SuppliersPage.jsx` |
| `SupplierForm` | supplier_form.dfy: `src/components/SupplierForm.jsx` |
| `OrderDetail` | order_detail.dfy: `src/pages/PurchaseOrdersDetailPage.jsx` |
| `OrderList` | order_list.dfy: `src/pages/PurchaseOrdersPage.jsx` |
| `Dates` | dates.dfy: `YYYY-MM-DD` strings and their order |
| `OrderCreation` | order_creation.dfy: `src/components/CreatePurchaseOrder.jsx` |

The classes and functions that model a handler follow the code as written, including the three defects listed under "## Findings". The corrected definition stands beside each of them and has its intended property proved.

## Model

| member | source | states |
|---|---|---|
| Common.Lower | src/pages/PurchaseOrdersPage.jsx:38-43 | `toLowerCase` over ASCII: same length, and each character is lowered by `LowerChar`, which leaves no upper-case letter and keeps every other character |
| Common.LowerIsLower | src/pages/SuppliersPage.jsx:27-34 | the result of lower-casing has no upper-case letter, and lower-casing twice equals lower-casing once |
| Common.UpperNeverLowered | src/pages/SuppliersPage.jsx:33-34 | a string holding an upper-case letter is never the lower-casing of any string |
| Common.ContainsIffOccurs | src/pages/SuppliersPage.jsx:29-31 | `includes` holds exactly when the needle occurs as a slice of the haystack at some index |
| Common.ContainsEmpty | src/pages/PurchaseOrdersPage.jsx:38-40 | every string includes the empty string |
| Common.TrimStartDropsSpace | src/components/ProductForm.jsx:46 | trimming the front leaves a suffix that is empty or starts with a non-space |
| Common.TrimEndDropsSpace | src/components/ProductForm.jsx:46 | trimming the back leaves a prefix that is empty or ends with a non-space |
| Common.BlankIffTrimEmpty | src/components/ProductForm.jsx:46-49 | `!s.trim()` holds exactly when `s` is empty or only white space |
| Common.NatToStringRoundTrip | src/components/CreatePurchaseOrder.jsx:73-75 | the decimal text of a natural number reads back as that number |
| Common.IntToStringInjective | src/pages/PurchaseOrdersPage.jsx:38 | distinct integers have distinct decimal texts |
| Common.FilterMembers | src/App.js:41-43 | `filter` keeps an element exactly when it was present and passes the predicate |
| Common.FilterCounts | src/App.js:41-43 | `filter` keeps a passing element with its full multiplicity and drops every failing one |
| Common.FilterIsSubsequence | src/pages/SuppliersPage.jsx:26 | `filter` returns an order-preserving subsequence of its input |
| Common.FilterIdempotent | src/App.js:41-43 | filtering twice with one predicate is filtering once |
| Common.FirstIndex | src/App.js:47 | the index `find` looks at: the first passing index, or none exactly when nothing passes |
| Common.Find | src/App.js:47 | `find` answers the first passing element, or nothing exactly when nothing passes |
| Session.After | src/UserContext.js:9-13 | `login` makes the user exactly the fixed admin user; `logout` makes it none |
| Session.CallIdempotent | src/UserContext.js:9-13 | each of `login` and `logout` is idempotent |
| Session.RunDeterminedByLast | src/UserContext.js:9-13 | after a non-empty series of calls, the user is decided by the last call alone |
| Session.LoginRequest | src/pages/Login.jsx:9-16 | the login page calls `login` exactly when the password is non-empty |
| Session.UserProvider.constructor | src/UserContext.js:7 | nobody is logged in at first |
| Session.UserProvider.Login | src/UserContext.js:9-11 | the stored user becomes `{name: 'Admin', role: 'Admin'}`, whatever came before |
| Session.UserProvider.Logout | src/UserContext.js:13 | the stored user becomes none |
| Session.UserProvider.HandleLogin | src/pages/Login.jsx:9-16 | an empty password raises the alert and leaves the user; otherwise the admin is logged in, whatever the username and password |
| Access.RoleGate | src/components/RoleProtectedRoute.jsx:6-14 | no stored user redirects to `/login`; a role outside `allowedRoles` redirects to `/dashboard`; a role inside renders the children; each outcome is stated both ways, so a missing user never reaches `/dashboard` |
| Access.RoleGateOnlyReadsRole | src/components/RoleProtectedRoute.jsx:10 | two stored users with the same role get the same outcome |
| Access.RoleGateCaseSensitive | src/components/RoleProtectedRoute.jsx:10 | membership is exact: `["admin"]` turns the admin user away, `["Admin"]` admits it |
| Access.Gate | src/components/ProtectedRoute.jsx:8-20 | loading shows the loading view whatever the user; otherwise no user redirects to `/login` and a user renders the children |
| Access.GateUnderProvider | src/UserContext.js:16 | the provider supplies no `loading`, so the loading view never shows, the children render exactly when someone is logged in, and after a series of calls exactly when the last one was `login` |
| ProductForm.WithField | src/components/ProductForm.jsx:34 | a change sets the named field to the typed text and leaves every other field and the id as they were |
| ProductForm.RecordStep | src/components/ProductForm.jsx:43-60 | recording one rule's outcome extends the map of failing checked rules by exactly that rule |
| ProductForm.Validate | src/components/ProductForm.jsx:42-63 | the error map holds exactly the fields whose rule fails, each with its Portuguese message, and is empty exactly when the form passes |
| ProductForm.AllRulesChecked | src/components/ProductForm.jsx:43-63 | once every rule but the two optional fields has been checked, the map is exactly the failing fields with non-empty messages, empty exactly when the form passes |
| ProductForm.NoErrorsIffValid | src/components/ProductForm.jsx:63 | an error map keyed by the failing fields is empty exactly when the form passes |
| ProductForm.TextRule | src/components/ProductForm.jsx:46-49 | `name`, `sku`, `category`, `brand` and `location` each fail exactly when they are empty or white space after trimming (line 60 for location) |
| ProductForm.OptionalFieldsNeverFail | src/components/ProductForm.jsx:42-64 | `description` and `expirationDate` never produce an error |
| ProductForm.PriceRuleOnText | src/components/ProductForm.jsx:52-54 | typed price text passes exactly when it is non-empty and parses to a number above zero |
| ProductForm.StockRuleOnText | src/components/ProductForm.jsx:56-58 | typed stock text passes exactly when it is non-empty and parses to a number of at least zero, so `"0"` passes |
| ProductForm.StoredZeroStockRejected | src/components/ProductForm.jsx:56-58 | a stored numeric stock of 0 fails the falsy check whatever the parser, so the form cannot pass |
| ProductForm.StockRuleIntended | src/components/ProductForm.jsx:56-58 | the corrected rule admits a stored 0, rejects stored negatives, and agrees with the rule as written on every other value |
| ProductForm.ProductFormState.constructor | src/components/ProductForm.jsx:20-30 | the form opens on `initialData` or the empty default, with no errors |
| ProductForm.ProductFormState.HandleChange | src/components/ProductForm.jsx:32-39 | only the named field changes, and only that field's error is cleared |
| ProductForm.ProductFormState.HandleSubmit | src/components/ProductForm.jsx:62-69 | the errors become the failing fields, each with its message; the form data, unchanged, goes to `onSave` exactly when no rule fails |
| ProductTable.WithSkuAsId | src/App.js:29 | the added product gets `id` equal to its SKU and keeps every other field |
| ProductTable.Added | src/App.js:28-31 | the new product comes first with the SKU as its id, the old list follows unchanged, and the length grows by one |
| ProductTable.Edited | src/App.js:34-38 | the length is kept, and each entry is replaced when its SKU equals the argument's `sku` |
| ProductTable.LookupFirst | src/App.js:46-48 | lookup answers the first product with the SKU, and nothing exactly when no product has it |
| ProductTable.AddThenLookup | src/App.js:30 | lookup by the added SKU answers the added product, and every earlier product is still there |
| ProductTable.AddKeepsDuplicate | src/App.js:30 | adding an SKU that is already present leaves two products with it |
| ProductTable.EditReplacesMatching | src/App.js:36 | an entry with the updated product's SKU becomes that product; any other entry stays |
| ProductTable.EditUnknownSkuUnchanged | src/App.js:36 | when no product has the argument's SKU, editing changes nothing |
| ProductTable.EditWithTextUnchanged | src/App.js:34-38 | a string argument has no `sku`, so editing with it leaves the list unchanged |
| ProductTable.EditThenLookup | src/App.js:34-48 | after editing with a product whose SKU is present, lookup by that SKU answers it |
| ProductTable.EditIdempotent | src/App.js:34-38 | editing twice with the same argument is editing once |
| ProductTable.DeleteRemovesExactly | src/App.js:40-44 | deleting removes exactly the products with the SKU; the rest keep their multiplicity and order |
| ProductTable.DeleteIdempotent | src/App.js:40-44 | deleting twice is deleting once |
| ProductTable.DeleteThenLookup | src/App.js:40-48 | after deleting an SKU, lookup by it answers nothing |
| ProductTable.EditPageSaveIsLost | src/pages/EditProduct.jsx:16 | as wired, the edit page's save leaves the product list unchanged |
| ProductTable.IntendedEditPageSaveApplies | src/pages/EditProduct.jsx:10-16 | with the updated product delivered, lookup by its unchanged SKU answers the updated product |
| ProductTable.RenameLostByObjectArgument | src/App.js:34-38 | delivering the product alone does not cover a changed SKU: with no product under the new SKU, the save is lost |
| ProductTable.EditedBySku | src/pages/EditProduct.jsx:16 | the two-parameter handler the edit page calls for: same length, and each entry under the URL's SKU becomes the updated product |
| ProductTable.RenamedByUrlSku | src/pages/EditProduct.jsx:10-16 | matching on the URL's SKU stores the edit even with a changed SKU: the update is in the list, the old SKU no longer finds it, and the new SKU does when no other product held it |
| ProductTable.ProductStore.constructor | src/App.js:22 | the list starts as the stored list given |
| ProductTable.ProductStore.HandleAddProduct | src/App.js:28-31 | the list becomes `Added` of the old list |
| ProductTable.ProductStore.HandleEditProduct | src/App.js:34-38 | the list becomes `Edited` of the old list with whatever argument arrives |
| ProductTable.ProductStore.HandleDeleteProduct | src/App.js:40-44 | the list becomes the old list without that SKU |
| ProductTable.ProductStore.GetProductBySku | src/App.js:46-48 | answers a product in the list with that SKU, or nothing exactly when no product has it |
| SupplierList.FilteredSuppliersExactly | src/pages/SuppliersPage.jsx:26-41 | the filtered list is an order-preserving subsequence; a supplier is kept, with its multiplicity, exactly when both the text and status filters match |
| SupplierList.EmptySearchNeedsAField | src/pages/SuppliersPage.jsx:27-31 | an empty search matches exactly the suppliers with a name, an email or a role; absent fields never match |
| SupplierList.SearchIgnoresCase | src/pages/SuppliersPage.jsx:27 | lower-casing the search term first changes nothing |
| SupplierList.UpperCaseFilterKeepsNothing | src/pages/SuppliersPage.jsx:33-34 | the statuses are lower-cased but the filter is not, so a filter holding an upper-case letter keeps no supplier |
| SupplierList.EmptyStatusFilterKeepsAll | src/pages/SuppliersPage.jsx:34 | with an empty status filter, the text search alone decides |
| SupplierList.WithoutIdExactly | src/pages/SuppliersPage.jsx:52 | deleting drops exactly the suppliers with the id; the rest keep their multiplicity and order |
| SupplierList.StatusClass | src/pages/SuppliersPage.jsx:59-64 | `OK`, `ALERT` and `CRITICAL` each get their fixed class, case-sensitively, and anything else gets `""`, each both ways |
| SupplierList.SuppliersPage.constructor | src/pages/SuppliersPage.jsx:5 | the list starts empty |
| SupplierList.SuppliersPage.Loaded | src/pages/SuppliersPage.jsx:15-22 | a list that arrives replaces the state; a failed fetch leaves it |
| SupplierList.SuppliersPage.HandleDeleteSupplier | src/pages/SuppliersPage.jsx:44-57 | only a confirmed, successful delete removes the suppliers with the id; a declined confirm, a non-ok response or a thrown error leave the list; the alert is raised exactly on a confirmed failure |
| SupplierForm.WithField | src/components/SupplierForm.jsx:39 | a change sets the named field and leaves every other field, the id and both timestamps as they were |
| SupplierForm.ErrorsOfFields | src/components/SupplierForm.jsx:45-48 | the map built rule by rule holds exactly the failing fields, each with "This field is required" |
| SupplierForm.Validate | src/components/SupplierForm.jsx:44-50 | the errors are exactly the failing fields, each with the message, and empty exactly when the form passes |
| SupplierForm.ValidIffNameAndEmail | src/components/SupplierForm.jsx:46-47 | the form passes exactly when name and email are each non-blank after trim; the email's format and the other fields play no part |
| SupplierForm.Payload | src/components/SupplierForm.jsx:60-66 | a non-empty id and `createdAt` are kept, an empty one is filled with the generated id or the current time, `updatedAt` is always the current time, and every other field is kept |
| SupplierForm.PayloadKeepsIdentity | src/components/SupplierForm.jsx:63-65 | an existing id and creation time survive a save; a non-empty generator result always yields an id; saving again at the same time changes nothing |
| SupplierForm.FreshSupplier | src/components/SupplierForm.jsx:26-31 | a new form has the generated id, both timestamps at the current time, and every input empty |
| SupplierForm.FreshSupplierInvalid | src/components/SupplierForm.jsx:26-31 | a new form fails both required rules |
| SupplierForm.SupplierFormState.constructor | src/components/SupplierForm.jsx:19-34 | the form starts from the initial data or a fresh supplier, with no errors |
| SupplierForm.SupplierFormState.Reset | src/components/SupplierForm.jsx:22-34 | the mounting effect, re-run: the same state as the constructor's |
| SupplierForm.SupplierFormState.HandleChange | src/components/SupplierForm.jsx:37-41 | only the named field changes, and only that field's error is cleared |
| SupplierForm.SupplierFormState.HandleSubmit | src/components/SupplierForm.jsx:53-68 | the errors become the failing fields, each with "This field is required"; `onSave` gets the payload exactly when the form passes, and nothing on failure |
| OrderDetail.FindOrderFirst | src/pages/PurchaseOrdersDetailPage.jsx:14-16 | the lookup answers the first order whose id is strictly equal to `Number(orderId)`, and nothing exactly when there is none |
| OrderDetail.StringIdNeverFound | src/pages/PurchaseOrdersDetailPage.jsx:14-16 | a found order has a numeric id; when every stored id is a string, nothing is found |
| OrderDetail.FindOrderIntendedProperties | src/pages/PurchaseOrdersDetailPage.jsx:14-16 | the corrected lookup by the URL's text finds a string id equal to it, and on numeric ids agrees with the lookup as written |
| OrderDetail.SamePredicateOnOrders | src/pages/PurchaseOrdersDetailPage.jsx:14-16 | on numeric ids, matching the decimal text of `n` is matching `n` |
| OrderDetail.OrUnknown | src/pages/PurchaseOrdersDetailPage.jsx:42-43 | `x \|\| "Unknown"`: a non-empty text is kept; an absent or empty one becomes "Unknown"; the result is never empty |
| OrderDetail.Enrich | src/pages/PurchaseOrdersDetailPage.jsx:38-45 | the result has the same length as the line items, and each item is enriched at its own index |
| OrderDetail.EnrichKeepsItems | src/pages/PurchaseOrdersDetailPage.jsx:40-44 | each enriched item keeps every original field, with a non-empty name and brand |
| OrderDetail.EnrichFromFirstMatch | src/pages/PurchaseOrdersDetailPage.jsx:39-43 | name and brand come from the first catalog entry with the same `productId`, or are "Unknown" when there is none |
| OrderDetail.EnrichIgnoresSku | src/pages/PurchaseOrdersDetailPage.jsx:39 | `productSku` plays no part in the match |
| OrderDetail.EnrichIdempotent | src/pages/PurchaseOrdersDetailPage.jsx:38-47 | enriching an enriched list against the same catalog gives the same list, so the values each run stores are stable |
| OrderDetail.OrderDetailView.constructor | src/pages/PurchaseOrdersDetailPage.jsx:5-6 | no order and no line items at first |
| OrderDetail.OrderDetailView.LoadOrders | src/pages/PurchaseOrdersDetailPage.jsx:10-26 | a found order sets both the order and its line items; no match, or a failed request, leaves both unchanged |
| OrderDetail.OrderDetailView.EnrichEffect | src/pages/PurchaseOrdersDetailPage.jsx:32-56 | the catalog is requested exactly when there are line items; an arriving catalog replaces them by their enrichment; a failure leaves them |
| OrderList.ScopedOrdersExactly | src/pages/PurchaseOrdersPage.jsx:10-17 | with nobody logged in (`user` null) the page throws reading `user.supplierId`, and with a user it does not; a "supplier" sees exactly the orders with its `supplierId`, with their multiplicity and in order; any other role sees all orders |
| OrderList.ProviderUserSeesAll | src/UserContext.js:10 | the admin user the provider stores sees every order |
| OrderList.PageRendersOnlyAfterLogin | src/pages/PurchaseOrdersPage.jsx:6-17 | under the provider, after a series of login/logout calls the page renders, showing every order, exactly when the last call was `login`, and throws after a `logout` |
| OrderList.FilteredOrdersExactly | src/pages/PurchaseOrdersPage.jsx:36-46 | the filtered list is an order-preserving subsequence of the visible orders; an order is kept, with its multiplicity, exactly when search and status both match |
| OrderList.EmptyFiltersKeepAll | src/pages/PurchaseOrdersPage.jsx:38-43 | an empty search and an empty status filter keep every visible order |
| OrderList.EmptyStatusDefersToSearch | src/pages/PurchaseOrdersPage.jsx:42-43 | with an empty status filter, the search alone decides |
| OrderList.FiltersIgnoreCase | src/pages/PurchaseOrdersPage.jsx:38-43 | both the search and the status filter ignore the case of what is entered |
| OrderList.SearchFindsOwnId | src/pages/PurchaseOrdersPage.jsx:38-40 | searching for an order's own id finds it |
| OrderList.StatusFilterExample | src/pages/PurchaseOrdersPage.jsx:42-43 | the option "pending" selects status "Pending", and "approved" does not |
| OrderList.TransitAndCancelledNotOffered | src/pages/PurchaseOrdersPage.jsx:109-113 | no offered filter value selects a "Transit" or "Cancelled" order; the offered "Ordered" has no badge colour of its own |
| OrderList.BadgeColor | src/pages/PurchaseOrdersPage.jsx:52-60 | the five statuses get their fixed colours, exact case, and every other status gets the gray default, both ways |
| OrderList.BadgeClassNamesStatus | src/pages/PurchaseOrdersPage.jsx:50-60 | the five known statuses get five distinct badge class strings: a class other than the default's names its status |
| OrderList.BadgeColorNamesStatus | src/pages/PurchaseOrdersPage.jsx:52-58 | the five colours are distinct, so a colour other than the default names its status |
| OrderList.ShowCreateLink | src/pages/PurchaseOrdersPage.jsx:115 | the create link is hidden exactly for a user whose role is "supplier" or "picker"; the expression shows it for no user, a case the page never reaches |
| OrderList.ProviderUserMayCreate | src/pages/PurchaseOrdersPage.jsx:115 | the admin user is offered the link |
| OrderList.OrderListView.constructor | src/pages/PurchaseOrdersPage.jsx:7-8 | both lists start empty |
| OrderList.OrderListView.Loaded | src/pages/PurchaseOrdersPage.jsx:10-31 | with nobody logged in the render throws and nothing changes; otherwise arriving orders replace `orders`, a failure leaves it, and `supplierOrders` becomes the user's scoping of `orders` |
| OrderList.OrderListView.Shown | src/pages/PurchaseOrdersPage.jsx:36-46 | what the table shows is an order-preserving subsequence of the visible orders |
| Dates.DecimalFront | src/components/CreatePurchaseOrder.jsx:65 | a digit string's value read from the front: the first digit weighs ten to the power of the rest's length |
| Dates.DecimalBound | src/components/CreatePurchaseOrder.jsx:65 | a digit string of length n denotes less than ten to the power n |
| Dates.DecimalInjective | src/components/CreatePurchaseOrder.jsx:65 | digit strings of one length that denote the same number are equal |
| Dates.LexDigits | src/components/CreatePurchaseOrder.jsx:65 | on digit strings of one length, string order is numeric order |
| Dates.LexConcat | src/components/CreatePurchaseOrder.jsx:65 | comparing concatenations whose first parts have one length compares the first parts, then the rest |
| Dates.FullDateOrder | src/components/CreatePurchaseOrder.jsx:64-65 | for two `YYYY-MM-DD` strings, `a < b` holds exactly when `a` is an earlier date by year, month and day |
| Dates.LexIrreflexive | src/components/CreatePurchaseOrder.jsx:65 | no string is less than itself |
| OrderCreation.OnlySuppliersExactly | src/components/CreatePurchaseOrder.jsx:27-29 | exactly the entries whose role is "supplier" are offered, with their multiplicity and in order |
| OrderCreation.ChangedFormFields | src/components/CreatePurchaseOrder.jsx:40-48 | a change sets only the named field; a non-empty supplier id sets the name from the first supplier with that id, or `''` when none has it; a cleared id or a date change leaves the name |
| OrderCreation.NumericSupplierIdUnnamed | src/components/CreatePurchaseOrder.jsx:43 | the selected value is text, so suppliers with numeric ids never supply a name |
| OrderCreation.ErrorsOfFields | src/components/CreatePurchaseOrder.jsx:59-67 | the supplier fails exactly when blank; the date fails exactly when blank ("required") or before today ("past"); each with its message |
| OrderCreation.Validate | src/components/CreatePurchaseOrder.jsx:58-70 | the error map is built rule by rule with the messages above, and is empty exactly when the form passes |
| OrderCreation.NoErrorsIffValid | src/components/CreatePurchaseOrder.jsx:70 | an error map keyed by the failing fields is empty exactly when the form passes |
| OrderCreation.FullDateNotBlank | src/components/CreatePurchaseOrder.jsx:165-173 | a date the date input produces is never blank |
| OrderCreation.PastCheckIsChronological | src/components/CreatePurchaseOrder.jsx:64-67 | for full dates, the "past" error is raised exactly when the date is an earlier day than today, and never for today itself |
| OrderCreation.CreatedOrderShape | src/components/CreatePurchaseOrder.jsx:84-94 | a created order is "Pending" with no products and total 0, carries the form's supplier id, name and date unchanged, and has a string id of decimal digits reading back as `Date.now()` |
| OrderCreation.CreatedIdsDistinct | src/components/CreatePurchaseOrder.jsx:73-75 | orders created at different milliseconds get different ids |
| OrderCreation.CreatedOrderNeverShown | src/components/CreatePurchaseOrder.jsx:89 | whatever the store holds and the URL says, the detail lookup as written never answers a created order |
| OrderCreation.CreatedOrderShownIntended | src/components/CreatePurchaseOrder.jsx:97 | the path carries the created id, and the corrected lookup by that text finds the order once the store holds it |
| OrderCreation.OrderCreationView.constructor | src/components/CreatePurchaseOrder.jsx:6-16 | no suppliers, no errors, the default form, not yet fetched |
| OrderCreation.OrderCreationView.MountEffect | src/components/CreatePurchaseOrder.jsx:18-35 | the effect fetches only once; an arriving list leaves only the suppliers with role "supplier"; a failure leaves the list |
| OrderCreation.OrderCreationView.HandleChange | src/components/CreatePurchaseOrder.jsx:38-56 | the form becomes the changed form, and only that field's error is cleared |
| OrderCreation.OrderCreationView.HandleSubmit | src/components/CreatePurchaseOrder.jsx:77-96 | the errors become the failing fields, each with its message ("past" replacing "required" only for a non-blank date); an order is posted exactly when the form passes, and it is the created order |

## Left out

- `fetch`, `localStorage`, `console` and `alert` are not modelled as effects. Their results are parameters (`Option` for success or failure, `DeleteResponse` for the delete), and alerts are boolean results.
- React's effect scheduling and re-rendering are not modelled. Each effect is a method the caller applies; what is modelled is the value it stores.
- The scoping effect on the orders page lists `[orders, user.supplierId]` but reads `user.role`, so a change of role alone would not re-run it. `OrderList.OrderListView.Loaded` re-scopes on every load.
- The detail page's enrichment effect (src/pages/PurchaseOrdersDetailPage.jsx:32-56) depends on `[products]`, and each run stores a new array from `.map`. React compares dependencies by identity, so the effect re-runs and re-fetches `/products` without end. The model has no array identity: `OrderDetail.OrderDetailView.EnrichEffect` is one run, and `OrderDetail.EnrichIdempotent` proves only that the stored values stop changing, not that the fetching stops.
- ShowCreateLink: the page throws before this expression runs when nobody is logged in, so its answer for no user is never shown.
- The supplier page's once-only fetch guard (`didFetch`) is not modelled in `SupplierList.SuppliersPage.Loaded`. It changes when the fetch happens, not what is stored.
- The creation form's first `setSuppliers(data)` is overwritten at once by the filtered list. Only the second update is modelled.
- Clocks and random identifiers are parameters: `Date.now()`, `new Date().toISOString()` and `crypto.randomUUID()`.
  - `SupplierForm.Payload` reads the clock twice in the source; the model takes one `now` for both reads.
  - `OrderCreation.CreateOrder` likewise takes one `today` for the validator and for `createdAt`.
- The JavaScript `parseFloat`/`parseInt` prefix-parsing semantics are abstract parameters. NaN is `None`, and numbers are `real`/`int`, not IEEE doubles.
- `String(x)` is modelled as decimal text for integers only. The exponent forms are left out.
- Lower-casing is ASCII. `toLowerCase` on other scripts and locale formatting are left out.
- Strings are sequences of code points, not of UTF-16 units. For characters outside the Basic Multilingual Plane the model's lengths, slices, `includes` and `<` differ from JavaScript's. For example, JavaScript gives `"\u{1F600}".length === 2` and orders that string before `"\uFF61"`, because it compares the surrogate 0xD83D; the model gives length 1 and the opposite order.
- Keys inherited from `Object.prototype` in the badge colour lookup (a status such as "toString") are left out.
- Missing required properties are left out, because the model's records always have them. Examples: a product without `sku`, a supplier form without `name`/`email` (where `trim` would throw), an order without `status`, and an order without `products`.
- `setErrors({...prev, [name]: null})` is modelled as removing the key. Every reader of the error maps tests only truthiness, so `null` and absent read alike.
- `Dates.IsFullDate` checks the `YYYY-MM-DD` shape but not month and day ranges. The ordering result needs only the shape.
- Rendering, styling and routing tables are left out. This covers the JSX of every page, the layouts, the sidebar, the modal, the settings page, the static inventory page and the Tailwind configuration.
- The thin wrappers `src/pages/AddSuplier.jsx` and `src/pages/EditSupplier.jsx` are left out: they pass data through.
  - `src/pages/AddProduct.jsx` enters the model only as the reason a stored stock is a number.
  - `src/pages/EditProduct.jsx` enters only through its call of the edit handler.
- Purchase-order line-item editing, totals, saving and cancelling are not modelled, because the source has no such logic.

## Findings

| source | as written | input that shows it | evidently intended | confidence | as-written member | corrected member |
|---|---|---|---|---|---|---|
| src/pages/EditProduct.jsx:16 | `onEdit(sku, updatedProduct)` calls the one-parameter `handleEditProduct` (src/App.js:34), which receives the SKU string and compares each `p.sku` with the string's `sku`, which is `undefined` | any product list and any save on the edit page: the list is unchanged | the handler receives the updated product, which then replaces the entry with its SKU | not executed | ProductTable.EditPageSaveIsLost | ProductTable.IntendedEditPageSaveApplies |
| src/components/ProductForm.jsx:56-58 | `!formData.inStock` rejects a stock that is the number 0, which is what src/pages/AddProduct.jsx:17 stores for an empty or zero stock | editing a stored product with `inStock: 0`: the form cannot be submitted | the message admits values `>= 0`, so a stored 0 passes; only empty, unreadable or negative stock fails | not executed | ProductForm.StoredZeroStockRejected | ProductForm.StockRuleIntended |
| src/pages/PurchaseOrdersDetailPage.jsx:14-16 | `order.id === Number(orderId)` compares with a number, while src/components/CreatePurchaseOrder.jsx:74,89 creates string ids | creating any order and following the navigation to `/purchase-order/<id>`: the page never finds it | match the id as the URL writes it, so that string and numeric ids are both found | not executed | OrderCreation.CreatedOrderNeverShown | OrderCreation.CreatedOrderShownIntended |
