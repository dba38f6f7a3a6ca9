# Storefront state and decision logic in Dafny

This project models the part of a React storefront that sits between its screens and its
HTTP API. It covers:

- the shopping cart;
- the cart totals and the checkout state machine;
- the session provider: restore, login, logout and token expiry;
- the role gating that the views draw from the signed-in user's role string;
- the delivery status vocabulary;
- the filtering, sorting and counting done by the product, catalogue, user and dashboard views;
- the local list edits of the product and supplier pages;
- the category page's create-or-update state machine;
- the profile, registration, add-product and edit forms;
- the header merge of the shared `customFetch` helper.

Each source file has its own module. Two shared modules support them:

- `Common` holds optional values, HTTP outcomes and `Array.prototype.filter` with its laws.
- `Domain` holds the API documents.

A stateful React component or context becomes a class. Its fields are the component's state.
Each handler becomes a method. A method's `ensures` ties the new state to a pure function of
the old state and the handler's inputs, and the properties of those functions are proved as
lemmas.

The outcome of a request is an input to the handler that awaits it. This covers `fetch`, the
decoding of a token and the clock. An awaited `fetch` with a status check is a
`Response<T>` (`Ok(body)`, `NotOk(msg)`, `Failed`). A `customFetch(...).then(...)` chain
that never looks at the status is a `Settled<T>` (`Resolved(data)`, `Rejected`).

Roles stay raw strings, because the views compare them with different spellings:

- `'admin'` only: the delivery list and the add-product form;
- `'Admin'` only: the supplier list;
- either spelling: the product list;
- lowercased first: the navigation bar.

The model keeps each spelling and proves what it implies. One consequence is listed under
"Findings", together with the catalogue's category filter, which compares a category's
name with product references that hold ids.

## Model

| member | source | states |
|---|---|---|
| Cart.AddLine | src/context/CartContext.js:8-21 | an id already in the cart adds `quantity` to that line and keeps length and order; a new id appends `{product, quantity}`; the line is then present, and one line per id is preserved |
| Cart.SetQuantity | src/context/CartContext.js:23-29 | the matching lines get exactly the given quantity, with no clamping; other lines and the length are unchanged; an unknown id leaves the cart identical; one line per id is preserved |
| Cart.RemoveLines | src/context/CartContext.js:31-33 | no line with the id remains; the rest keep their order, every copy of each kept; an absent id is a no-op; one line per id is preserved |
| Cart.SubsequenceKeepsUnique | src/context/CartContext.js:31-33 | dropping lines keeps the one-line-per-id invariant |
| Cart.AddTwiceMerges | src/context/CartContext.js:8-21 | adding 2 then 3 of a new product gives one line of 5 appended at the end |
| Cart.RemoveThenAdd | src/context/CartContext.js:31-33 | remove followed by add leaves exactly one line for the product, with the newly added quantity |
| Cart.CartStore.constructor | src/context/CartContext.js:6 | the cart starts empty |
| Cart.CartStore.AddToCart | src/context/CartContext.js:8-21 | the new cart is `AddLine` of the old one, with `quantity` defaulting to 1; the invariant holds |
| Cart.CartStore.UpdateQuantity | src/context/CartContext.js:23-29 | the new cart is `SetQuantity` of the old one; the invariant holds |
| Cart.CartStore.RemoveFromCart | src/context/CartContext.js:31-33 | the new cart is `RemoveLines` of the old one; the invariant holds |
| Cart.CartStore.ClearCart | src/context/CartContext.js:35 | the cart becomes empty |
| Checkout.Subtotal | src/components/cart/CartPage.js:14 | the left fold of price × quantity; 0 for an empty cart |
| Checkout.Total | src/components/cart/CartPage.js:15-16 | total = subtotal + 10% tax = 1.1 × subtotal, never below a non-negative subtotal |
| Checkout.SubtotalNonNegative | src/components/cart/CartPage.js:14-16 | non-negative prices and quantities give non-negative subtotal and taxes, and a total no smaller than the subtotal |
| Checkout.SubtotalAppend | src/components/cart/CartPage.js:14 | the subtotal of a concatenation is the sum of the subtotals |
| Checkout.SubtotalOneLineChanged | src/components/cart/CartPage.js:14 | changing one line's quantity by delta changes the subtotal by price × delta |
| Checkout.SubtotalAfterAddNew | src/context/CartContext.js:17-18 | adding a new product raises the subtotal by price × quantity |
| Checkout.SubtotalAfterAddExisting | src/context/CartContext.js:10-16 | adding to an existing line raises the subtotal by that line's price × quantity |
| Checkout.TotalsExample | src/components/cart/CartPage.js:14-16 | two of a 10.0 item and one of a 5.0 item give 25, 2.5 and 27.5 |
| Checkout.OrderSupplier | src/components/cart/CartPage.js:25 | the supplier comes from the first line only: its `_id` when populated and non-empty, else the raw reference; an empty cart has none |
| Checkout.SupplierFromFirstLineOnly | src/components/cart/CartPage.js:25 | two carts with the same first line send the same supplier, whatever their other lines |
| Checkout.OrderItems | src/components/cart/CartPage.js:24 | one `{product: _id, quantity}` item per line, same length and order |
| Checkout.BuildOrder | src/components/cart/CartPage.js:23-28 | a payload exists iff there is a user; it carries the items, the first-line supplier, `user.address` and empty notes |
| Checkout.SingleLineScenario | src/components/cart/CartPage.js:23-28 | a one-line cart orders that product's id, quantity and supplier id |
| Checkout.CheckoutView.constructor | src/components/cart/CartPage.js:9-11 | not loading, no error, no success |
| Checkout.CheckoutGuard | src/components/cart/CartPage.js:52-54 | no checkout from an empty cart or while loading; a non-empty cart that is not loading can be ordered, and its order has items |
| Checkout.CheckoutView.BeginCheckout | src/components/cart/CartPage.js:19-21 | loading on, error and success cleared; the button then ignores clicks for any cart |
| Checkout.CheckoutView.HandleCheckout | src/components/cart/CartPage.js:18-50 | sends `BuildOrder` of the cart; OK sets the success text and clears the cart; non-OK sets `msg` or the default; a failure sets the connection error; only OK touches the cart; loading ends on every path; afterwards the button is enabled exactly when the cart is non-empty |
| Checkout.CheckoutView.ClickCheckout | src/components/cart/CartPage.js:101-109 | on an empty cart or while loading nothing is sent and nothing changes; otherwise the order of the cart is sent, never with an empty item list, and loading ends |
| Auth.Initial | src/context/AuthContext.js:7-9 | the token equals the stored value; no user; not authenticated |
| Auth.LoggedOut | src/context/AuthContext.js:42-47 | storage empty, token and user null, not authenticated |
| Auth.Restored | src/context/AuthContext.js:11-28 | no stored token (or an empty one) changes nothing; a decodable unexpired token authenticates with the stored token and the decoded user; an expired or undecodable token logs out; token equals storage while authenticated |
| Auth.LoggedIn | src/context/AuthContext.js:30-40 | a decodable token is stored and authenticates; an undecodable one changes nothing and does not log out; the invariant is preserved |
| Auth.LogoutIdempotent | src/context/AuthContext.js:42-47 | logging out twice is logging out once |
| Auth.ExpiryBoundary | src/context/AuthContext.js:17 | the comparison is strict: valid at `now = exp*1000`, expired one millisecond later |
| Auth.ExpiredTokenClearsSession | src/context/AuthContext.js:17-18 | an expired stored token ends in the logged-out state |
| Auth.LoginSurvivesRestore | src/context/AuthContext.js:11-40 | restoring right after a login with an unexpired, decodable, non-empty token changes nothing |
| Auth.Session.constructor | src/context/AuthContext.js:7-9 | the provider's first state is `Initial` of the slot |
| Auth.Session.Restore | src/context/AuthContext.js:11-28 | the new state is `Restored` of the old one; the invariant holds |
| Auth.Session.Login | src/context/AuthContext.js:30-40 | the new state is `LoggedIn` of the old one; the invariant holds |
| Auth.Session.Logout | src/context/AuthContext.js:42-47 | the new state is `LoggedOut`; the invariant holds |
| Deliveries.StatusText | src/components/deliveries/DeliveryList.js:64-74 | each of the six statuses maps to its label; an unknown status is returned unchanged |
| Deliveries.StatusColour | src/components/deliveries/DeliveryList.js:52-62 | each of the six statuses maps to its colour; anything else gets the gray class |
| Deliveries.CanUpdateStatus | src/components/deliveries/DeliveryList.js:76-80 | true for 'admin'; for 'fournisseur' iff the deliverer's `_id` is the user's id; false for every other role |
| Deliveries.OnlyExactRolesUpdate | src/components/deliveries/DeliveryList.js:76-80 | 'Admin' and 'client' can never update |
| Deliveries.StatusOptions | src/components/deliveries/DeliveryList.js:153-164 | exactly the six statuses, in order |
| Deliveries.NoTransitionRestriction | src/components/deliveries/DeliveryList.js:153-164 | the offered options do not depend on the current status, and each is labelled by `StatusText` |
| Deliveries.DeliveryListView.constructor | src/components/deliveries/DeliveryList.js:5-6 | empty list, loading |
| Deliveries.DeliveryListView.FetchDeliveries | src/components/deliveries/DeliveryList.js:11-27 | only OK replaces the list; loading ends on every path |
| Deliveries.DeliveryListView.HandleStatusUpdate | src/components/deliveries/DeliveryList.js:34-50 | the local list is never edited; the list is refetched iff the response is OK |
| ProductList.FilterChainIsConjunction | src/components/products/ProductList.js:67-77 | the three conditional filters equal one filter by their conjunction |
| ProductList.FilterChainSelects | src/components/products/ProductList.js:67-77 | the result is an order-preserving subsequence; it holds exactly the visible products |
| ProductList.SupplierSeesOwnProducts | src/components/products/ProductList.js:69-71 | a 'fournisseur' sees only products whose `supplier._id` is their id |
| ProductList.NoFilterShowsAll | src/components/products/ProductList.js:67-77 | empty filters show every product to every other role |
| ProductList.WithoutProduct | src/components/products/ProductList.js:43 | exactly the products with that `_id` are removed; the rest keep their order and every copy |
| ProductList.GatesDisagree | src/components/products/ProductList.js:81-138 | 'Admin' gets the actions but not the supplier filter; 'fournisseur' gets the add form but not the actions; nobody signed out gets either |
| ProductList.ProductListView.constructor | src/components/products/ProductList.js:9-11 | empty list, not editing |
| ProductList.ProductListView.FetchProducts | src/components/products/ProductList.js:17-22 | any parsed body becomes the list |
| ProductList.ProductListView.HandleProductAdded | src/components/products/ProductList.js:36-38 | the list is refetched; the added product is not inserted locally |
| ProductList.ProductListView.HandleDelete | src/components/products/ProductList.js:40-46 | a settled response removes the id locally; a failed one changes nothing |
| ProductList.ProductListView.HandleEdit | src/components/products/ProductList.js:48-51 | the product becomes current and editing starts |
| ProductList.ProductListView.HandleUpdate | src/components/products/ProductList.js:53-65 | after a response, editing is off, `currentProduct` is null and the list is refetched; a failure changes nothing |
| ProductList.ProductListView.Cancel | src/components/products/ProductList.js:87-90 | editing off, no current product |
| ProductList.ProductListView.Shown | src/components/products/ProductList.js:67-77 | the rendered list is an order-preserving subsequence of the state |
| Catalog.CategoryFilter | src/components/public/PublicProductList.js:60-63 | an empty key keeps all; otherwise exactly the products whose `category` is a bare string equal to the key (the selected category's name), in order, every copy kept |
| Catalog.OptionValue | src/components/public/PublicProductList.js:246-247 | a category's option in the select carries its name |
| Catalog.NameKeyMissesCategoryProducts | src/components/public/PublicProductList.js:61-62 | choosing a category drops its own products (referenced by id), and empties the list when no id equals a category name |
| Catalog.CorrectedOptionValue | src/components/products/ProductList.js:100 | the option carries the category's `_id` |
| Catalog.CategoryFilterById | src/components/products/ProductList.js:73 | an empty key keeps all; otherwise exactly the products whose category, bare or populated, names the key, in order |
| Catalog.IdKeySelectsCategoryProducts | src/components/products/ProductList.js:73 | keyed by id, the filter keeps a product iff its category names the chosen category, in order |
| Catalog.PopulatedCategoriesNeverMatch | src/components/public/PublicProductList.js:62 | with strict equality, populated categories never match a non-empty key |
| Catalog.Arrange | src/components/public/PublicProductList.js:64-72 | always a permutation; 'price-asc' is non-decreasing and 'price-desc' non-increasing by price; an unknown key keeps the order |
| Catalog.NameSortsOrdered | src/components/public/PublicProductList.js:68-71 | given a total name order, the name sorts are ordered by it, ascending and descending |
| Catalog.AscendingIsStable | src/components/public/PublicProductList.js:64-65 | an already ascending list is left as it is |
| Catalog.Listing | src/components/public/PublicProductList.js:59-72 | the displayed list is a permutation of the filtered one, drawn from `products`; with no filter and no sort it is `products` |
| Catalog.Featured | src/components/public/PublicProductList.js:75 | the first min(6, n) products of the unfiltered list, in order |
| Catalog.EnteredQuantity | src/components/public/PublicProductList.js:51 | the parsed entry when one was typed, else 1 |
| Catalog.CatalogView.constructor | src/components/public/PublicProductList.js:5-12 | the given products and no entered quantities |
| Catalog.CatalogView.HandleQuantityChange | src/components/public/PublicProductList.js:55-57 | only the entry for that product changes |
| Catalog.CatalogView.HandleAddToCart | src/components/public/PublicProductList.js:50-53 | the cart gets `AddLine` with the entered quantity |
| Catalog.OnlySoldOutDisabled | src/components/public/PublicProductList.js:216 | the add button is disabled exactly at stock zero; a negative stock leaves it enabled |
| Catalog.CatalogView.ClickAdd | src/components/public/PublicProductList.js:212-216 | a click adds to the cart iff the button is not disabled; a sold-out product's click leaves the cart as it was |
| Catalog.AddWithoutEntryAddsOne | src/components/public/PublicProductList.js:50-53 | with no entry, a new product is appended with quantity 1 |
| UserList.FilterUsersIsConjunction | src/components/users/UserList.js:63-66 | the two conditional filters equal one filter by their conjunction |
| UserList.FilterUsersSelects | src/components/users/UserList.js:63-66 | an order-preserving subsequence holding exactly the users that match both non-empty filters |
| UserList.EmptyFiltersListAll | src/components/users/UserList.js:63-66 | empty filters list every user |
| UserList.UserListView.constructor | src/components/users/UserList.js:6-11 | empty list, loading, no modal, an empty role and status form |
| UserList.UserListView.FetchUsers | src/components/users/UserList.js:13-27 | only OK replaces the list; loading ends on every path |
| UserList.UserListView.HandleEdit | src/components/users/UserList.js:34-37 | opens the modal with exactly the user's role and status |
| UserList.UserListView.HandleEditChange | src/components/users/UserList.js:39-41 | only the named field changes |
| UserList.UserListView.HandleEditSubmit | src/components/users/UserList.js:43-61 | sends the form for `editUser`; OK refetches and closes the modal; otherwise the modal stays open |
| Dashboard.BucketsSplit | src/components/dashboard/Dashboard.js:31-35 | the three buckets and the negative stocks together count every product once |
| Dashboard.BucketsPartition | src/components/dashboard/Dashboard.js:31-35 | for non-negative quantities the three bucket counts sum to `products.length` |
| Dashboard.AlertCountSplit | src/components/dashboard/Dashboard.js:54 | the alert count is low plus out plus negative |
| Dashboard.AlertIsLowPlusOut | src/components/dashboard/Dashboard.js:54 | for non-negative quantities the alert count is low plus out |
| Dashboard.LowStockTable | src/components/dashboard/Dashboard.js:74 | exactly the products under five, in original order, every copy kept |
| Dashboard.TableWithinAlerts | src/components/dashboard/Dashboard.js:54-74 | the table never has more rows than the alert count |
| Dashboard.SupplierCounts | src/components/dashboard/Dashboard.js:22 | one count per supplier, in supplier order, each the number of products whose `supplier._id` is that supplier's |
| Dashboard.SupplierCountsBounded | src/components/dashboard/Dashboard.js:22 | with distinct supplier ids, the counts sum to at most `products.length` |
| Navbar.ToLower | src/components/layouts/Navbar.js:14 | ASCII lowercasing, character by character |
| Navbar.ToLowerIdempotent | src/components/layouts/Navbar.js:14 | lowercasing twice is lowercasing once |
| Navbar.RoleKey | src/components/layouts/Navbar.js:14 | absent without a user or a role; otherwise the lowercased role |
| Navbar.AuthLinks | src/components/layouts/Navbar.js:49-56 | the admin, fournisseur or client link set for those roles, then the logout button; only the button for any other role |
| Navbar.NavItems | src/components/layouts/Navbar.js:72 | guest links when signed out, whatever the user; otherwise `AuthLinks` of the lowercased role, always with logout |
| Navbar.RoleCaseIgnored | src/components/layouts/Navbar.js:14 | 'Admin' gets the admin links; a missing user or role gets only logout |
| Navbar.AtMostOneLinkSet | src/components/layouts/Navbar.js:49-56 | a signed-in visitor sees at most one role link set |
| Navbar.SignedInLinks | src/components/layouts/Navbar.js:49-56 | a signed-in role lowercasing to 'admin', 'fournisseur' or 'client' gets that link set; any other role only logout |
| Navbar.RoleSpellings | src/components/layouts/Navbar.js:14 | 'CLIENT' gets the client links, 'Fournisseur' the supplier links, an unknown role only logout |
| Navbar.BrandTarget | src/components/layouts/Navbar.js:70 | `/` when signed in, else `/products-public` |
| Navbar.HandleLogout | src/components/layouts/Navbar.js:9-12 | logs out, then goes to `/login` |
| Headers.MergeHeaders | src/utils/setAuthToken.js:4-11 | Content-Type defaults to JSON; caller headers override it key by key; a truthy token sets `x-auth-token` over any caller value; no other key appears |
| Headers.RequestOptions | src/utils/setAuthToken.js:13 | only `headers` is replaced; every other option passes through |
| Headers.NoTokenNoHeader | src/utils/setAuthToken.js:9-11 | a null or empty token adds no token header |
| Headers.AuthenticatedRequestsCarryToken | src/utils/setAuthToken.js:9-11 | while the session is authenticated with a non-empty token, every request carries it |
| Headers.CallerContentTypeWins | src/utils/setAuthToken.js:4-6 | a caller's Content-Type beats the default |
| SupplierList.ReplaceById | src/components/suppliers/SupplierList.js:47-48 | the entries with the returned `_id` are replaced; the length and the other entries are unchanged; distinct ids stay distinct |
| SupplierList.ReplaceIdempotent | src/components/suppliers/SupplierList.js:47-48 | replacing twice with the same document is replacing once |
| SupplierList.WithoutSupplier | src/components/suppliers/SupplierList.js:31 | the entries with that `_id` are removed; the rest keep their order and every copy |
| SupplierList.AddThenDelete | src/components/suppliers/SupplierList.js:24-34 | deleting a just-appended supplier undoes the append |
| SupplierList.AppendKeepsDistinct | src/components/suppliers/SupplierList.js:25 | appending keeps ids distinct only for a new id |
| SupplierList.LowercaseAdminLocksOut | src/components/suppliers/SupplierList.js:57-88 | role 'admin' is sent to this page by the navigation bar but gets no controls |
| SupplierList.ControlsMatchNavbar | src/components/suppliers/SupplierList.js:57-88 | the corrected gate holds exactly for the users the navigation bar treats as administrators; the written gate implies it |
| SupplierList.SupplierListView.constructor | src/components/suppliers/SupplierList.js:9-11 | empty list, not editing |
| SupplierList.SupplierListView.FetchSuppliers | src/components/suppliers/SupplierList.js:13-18 | any parsed body becomes the list |
| SupplierList.SupplierListView.HandleSupplierAdded | src/components/suppliers/SupplierList.js:24-26 | appended at the end; nothing else changes |
| SupplierList.SupplierListView.HandleDelete | src/components/suppliers/SupplierList.js:28-34 | any settled response, whatever its status, removes the id |
| SupplierList.SupplierListView.HandleEdit | src/components/suppliers/SupplierList.js:36-39 | the supplier becomes current and editing starts |
| SupplierList.SupplierListView.HandleUpdate | src/components/suppliers/SupplierList.js:41-53 | the returned document replaces by id; editing ends and the current supplier is null |
| SupplierList.SupplierListView.Cancel | src/components/suppliers/SupplierList.js:63-66 | editing ends |
| CategoryList.FormOf | src/components/categories/CategoryList.js:70-75 | the four form fields copied from the category |
| CategoryList.SubmitRequest | src/components/categories/CategoryList.js:43-46 | PUT to `/api/categories/{_id}` iff editing, else POST to `/api/categories`; the body is the form |
| CategoryList.RequestsStayUnderCategories | src/components/categories/CategoryList.js:43-46 | every submit URL starts with `/api/categories` |
| CategoryList.CategoryListView.constructor | src/components/categories/CategoryList.js:5-14 | loading, form closed, nothing edited, empty fields |
| CategoryList.CategoryListView.FetchCategories | src/components/categories/CategoryList.js:17-33 | only OK replaces the list; loading ends |
| CategoryList.CategoryListView.HandleSubmit | src/components/categories/CategoryList.js:40-66 | OK resets the form, clears editing and refetches; otherwise the form state is unchanged |
| CategoryList.CategoryListView.HandleEdit | src/components/categories/CategoryList.js:68-77 | sets editing, copies the four fields and shows the form |
| CategoryList.CategoryListView.HandleCancel | src/components/categories/CategoryList.js:97-101 | the same reset as a successful submit, without a refetch |
| CategoryList.CategoryListView.OpenForm | src/components/categories/CategoryList.js:112 | shows the form and changes nothing else |
| CategoryList.CategoryListView.HandleDelete | src/components/categories/CategoryList.js:79-95 | a request only when confirmed; a refetch only on OK; the form state is untouched |
| Forms.UpToDot | src/components/profile/Profile.js:52 | the text before the first dot |
| Forms.PathOf | src/components/profile/Profile.js:51-52 | a name starting with `address.` addresses the segment after the first dot inside `address`; any other name addresses itself |
| Forms.Changed | src/components/profile/Profile.js:49-66 | the addressed input now reads `value`; an `address.X` change updates only `address[X]` and keeps the other address and top-level fields; any other name updates only that top-level field |
| Forms.ChangeLeavesOthers | src/components/profile/Profile.js:49-66 | every other input reads as before |
| Forms.LastChangeWins | src/components/profile/Profile.js:49-66 | two changes to one input keep only the second |
| Forms.ChangesCommute | src/components/profile/Profile.js:49-66 | changes to different inputs commute |
| Profile.InitialForm | src/components/profile/Profile.js:8-19 | the four top-level fields and the four address fields come from the user, with `''` for every missing one |
| Profile.SubmitMessage | src/components/profile/Profile.js:36-43 | the success text on OK; `msg` or the default on non-OK; the connection error on failure; never empty |
| Profile.Authorization | src/components/profile/Profile.js:31 | `Bearer ` followed by the token (`null` when absent) |
| Profile.ProfileView.constructor | src/components/profile/Profile.js:6-19 | the initial form; not loading; no message |
| Profile.ProfileView.HandleChange | src/components/profile/Profile.js:49-66 | the form becomes `Changed`; nothing else moves |
| Profile.ProfileView.BeginSubmit | src/components/profile/Profile.js:23-34 | loading on, message cleared, the form PUT to the profile path |
| Profile.ProfileView.FinishSubmit | src/components/profile/Profile.js:36-46 | the outcome's message; loading ends on every path |
| Profile.ProfileView.HandleSubmit | src/components/profile/Profile.js:21-47 | sends the form; ends not loading with a non-empty outcome message |
| Register.InitialForm | src/components/auth/Register.js:6-19 | every text field and address field is empty except role 'client' |
| Register.RoleDefaultsToClient | src/components/auth/Register.js:6-37 | the role stays 'client' until the role select itself changes |
| Register.RegisterView.constructor | src/components/auth/Register.js:6-19 | the initial form |
| Register.RegisterView.OnChange | src/components/auth/Register.js:23-37 | the form becomes `Changed` |
| Register.RegisterView.OnSubmit | src/components/auth/Register.js:39-57 | OK logs in with the returned token and navigates home; otherwise neither happens |
| ProductForm.PayloadOf | src/components/products/ProductForm.js:39 | the payload is exactly the eight fields |
| ProductForm.Edited | src/components/products/ProductForm.js:66-88 | the typed input reads the new value and no other input changes; without the admin select the supplier cannot be edited |
| ProductForm.Reset | src/components/products/ProductForm.js:50-57 | every field cleared, the supplier only for 'admin' |
| ProductForm.MountRequests | src/components/products/ProductForm.js:18-29 | categories are always fetched; suppliers exactly for 'admin' |
| ProductForm.OwnSupplierInvariant | src/components/products/ProductForm.js:31-57 | a 'fournisseur' whose form holds their id keeps it through every edit and reset |
| ProductForm.CapitalisedAdminSendsNoSupplier | src/components/products/ProductForm.js:23-86 | a user with role 'Admin' can never set a supplier |
| ProductForm.ProductFormView.constructor | src/components/products/ProductForm.js:7-16 | all fields empty; no categories, no suppliers |
| ProductForm.ProductFormView.Mount | src/components/products/ProductForm.js:18-35 | fetches as `MountRequests`; suppliers only for 'admin'; the supplier preset to the user's id for 'fournisseur' |
| ProductForm.ProductFormView.Edit | src/components/products/ProductForm.js:66-88 | the state becomes `Edited` |
| ProductForm.ProductFormView.HandleSubmit | src/components/products/ProductForm.js:37-60 | sends the payload; a response goes to `onProductAdded` when given and resets the fields; a failure changes nothing |
| EditProductForm.FromProduct | src/components/products/EditProductForm.js:21-31 | the seven fields copied from the product; the supplier is `supplier?._id` |
| EditProductForm.ChangesCommute | src/components/products/EditProductForm.js:46-56 | changes to different fields commute; of two changes to one field the later wins |
| EditProductForm.Merged | src/components/products/EditProductForm.js:35 | keeps the product's other fields (`_id`, `type`) and overrides the seven |
| EditProductForm.UntouchedSubmit | src/components/products/EditProductForm.js:21-36 | an untouched submit returns the product with its supplier reduced to its id, or dropped when it was not populated |
| EditProductForm.PickedSupplierIsSent | src/components/products/EditProductForm.js:51-56 | the picked supplier is the one the update names |
| EditProductForm.EditProductFormView.constructor | src/components/products/EditProductForm.js:5-12 | empty fields, no suppliers |
| EditProductForm.EditProductFormView.FetchSuppliers | src/components/products/EditProductForm.js:14-19 | any parsed body becomes the supplier list |
| EditProductForm.EditProductFormView.LoadProduct | src/components/products/EditProductForm.js:21-31 | copies the product in; with no product, the fields stay as they are |
| EditProductForm.EditProductFormView.Edit | src/components/products/EditProductForm.js:46-56 | the state becomes `Applied` |
| EditProductForm.EditProductFormView.HandleSubmit | src/components/products/EditProductForm.js:33-37 | `onUpdate` receives the merged record once |
| EditSupplierForm.FromSupplier | src/components/suppliers/EditSupplierForm.js:10-18 | the five fields copied |
| EditSupplierForm.Merged | src/components/suppliers/EditSupplierForm.js:22 | keeps `_id`; the five fields are the form's |
| EditSupplierForm.UntouchedSubmit | src/components/suppliers/EditSupplierForm.js:10-23 | an untouched submit returns the supplier unchanged |
| EditSupplierForm.UpdateReplacesEditedEntry | src/components/suppliers/EditSupplierForm.js:22-23 | when echoed by the server, the merged record replaces exactly the edited entry of a list with distinct ids; an untouched one leaves the list as it was |
| EditSupplierForm.ChangeIsSent | src/components/suppliers/EditSupplierForm.js:20-24 | a typed value is what the update carries, and the other fields are kept |
| EditSupplierForm.EditSupplierFormView.constructor | src/components/suppliers/EditSupplierForm.js:4-8 | empty fields |
| EditSupplierForm.EditSupplierFormView.LoadSupplier | src/components/suppliers/EditSupplierForm.js:10-18 | copies the supplier in; with no supplier, the fields stay as they are |
| EditSupplierForm.EditSupplierFormView.Edit | src/components/suppliers/EditSupplierForm.js:29-44 | the state becomes `Applied` |
| EditSupplierForm.EditSupplierFormView.HandleSubmit | src/components/suppliers/EditSupplierForm.js:20-24 | `onUpdate` receives the merged record once |
| Sorting.Insert | src/components/public/PublicProductList.js:64-72 | inserting one element adds it to the multiset |
| Sorting.SortWith | src/components/public/PublicProductList.js:64-72 | sorting is a permutation |
| Sorting.SortWithSorted | src/components/public/PublicProductList.js:64-72 | with a total comparator, the result is ordered |
| Sorting.SortWithSortedIsIdentity | src/components/public/PublicProductList.js:64-72 | an already ordered list is returned unchanged |

## Left out

- Catalog.Listing: the catalogue listing keeps the page's name-keyed category filter; the id-keyed `Catalog.CategoryFilterById` of the Findings table is proved on its own rather than substituted, so that the listing stays what the page shows.
- HTTP, `localStorage`, `jwt-decode` and the clock are outside the model. They appear as parameters: outcome values, a storage field, a decode function and `now`.
- `res.json()` on a body that does not parse is folded into `Failed`/`Rejected`.
- JSX rendering, styling, the slider and the charts are left out. Only the decisions they draw (gates, labels, link sets) are modelled.
- Prices and totals are `real`. The 10% tax is exact, and `toFixed` rounding is display only.
- `parseInt` is a parameter of the catalogue, and NaN is not modelled. The cart page's quantity input is modelled as `UpdateQuantity` with an integer.
- `localeCompare` is an abstract name order `nameLe`. The name sorts are proved ordered for any total `nameLe`.
- Catalog.Arrange: the stability of JavaScript's `sort` is not stated, except that an already ordered price list is unchanged.
- Async interleaving and React's effect scheduling are not modelled. Each handler runs to completion with its outcomes given, and the timed navigation after checkout is left out.
- PublicProductList's `fetchData` (products and categories on mount) is not modelled; the view starts from the given products.
- Request shapes are modelled only where a view decides them: categories, profile, users and checkout. The other views' URLs and verbs are not.
- JavaScript's prototype keys (`'constructor'`, `'toString'`) in the status tables are not modelled.
- `toLowerCase` is modelled for ASCII letters only.
- Header names are compared case-sensitively, as plain object keys.
- A response body that is not an array is not modelled, nor a user object that is null where the view would throw. ProductForm and ProductList read `user.role` directly, so the model requires a user.
- Forms.AddressOf: a top-level input named exactly `address` would turn the nested object into a string, whose spread copies characters. No such input exists; the model treats a non-object `address` as empty.
- EditProductForm.Merged: price and quantity keep their numeric type. The inputs turn them into strings, and without a product the fields hold `''`, modelled as `0.0`/`0`. `{...null}` is modelled as a product whose own fields are empty.
- `src/App.js`, `Stats.js`, `Reports.js`, `OrderList.js` and `SupplierForm.js` are not part of this model: route wiring, display and a form with no decisions.

## Findings

| source | as written | input that shows it | evidently intended | confidence | as-written member | corrected member |
|---|---|---|---|---|---|---|
| src/components/suppliers/SupplierList.js:57-88 | add form, actions column and row buttons shown only for `user.role === 'Admin'` | a user with role `'admin'`: the navigation bar gives them the "Gérer Fournisseurs" link, but the page shows no add, edit or delete control | the same administrator test as the navigation bar (lowercased role is `'admin'`) | not executed | SupplierList.LowercaseAdminLocksOut | SupplierList.ControlsMatchNavbar |
| src/components/public/PublicProductList.js:61-62 | the category select's options carry `cat.name`, and the filter compares that name with `p.category` by `===` | a product whose category is `Id("c1")` or a populated `{_id: "c1"}`, with the catalogue's category `{_id: "c1", name: "Fruits"}` chosen: the key is "Fruits" and the product is dropped | the option carries `cat._id` and the filter matches a bare or populated reference, as the management product list does | not executed | Catalog.NameKeyMissesCategoryProducts | Catalog.IdKeySelectsCategoryProducts |
