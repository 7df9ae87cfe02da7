# PharmaTrack core, modelled in Dafny

PharmaTrack is a pharmacy storefront built on a hosted document store. This
model covers its main parts:

- **Catalogue.** Products are loaded from the `products` collection. The list can be limited to one pharmacy's products, filtered by search text and category, and each product is shown with its availability: stock less what the shopper already holds.
- **Cart.** The cart provider keeps a list of lines. Each change also asks the `reservations` collection to record or drop the shopper's 15-minute hold on that product.
- **Cart page and checkout.** The cart page shows each line with defaults for missing fields. The checkout button writes one order and clears the cart only after that write succeeds.
- **My orders.** The shopper's orders page shows a status badge per order.
- **Pharmacy map.** Pharmacies are normalised from several coordinate and product-id field names. The map also covers the popup's product list and the search box's order of attempts: pharmacy names, then linked products, then the geocoder.
- **Sign-in and registration.** The sign-in and registration forms turn error codes into friendly messages.
- **Profile and navigation bar.** The profile hook merges the account's address into its `users` document. The navigation bar makes a display name from the account's email.
- **Admin.** There are two admin screens, the admin page and the admin dashboard. They cover who may use them, product, order and user edits, and the message line of each box.

## How it is modelled

- **Documents.** A stored document is a `Record`, a map from field name to `Value`. A missing key stands for JavaScript's `undefined`.
- **Numbers.** Quantities and prices are integers: whole units and pence. `JsNum` separates finite numbers from NaN, which the screens test for.
- **Coercions.** JavaScript's `??`, `Boolean(..)`, `Number(..)` and `String(..)` are written out in `Common`.
- **State.** Screens that update state become classes whose fields the methods reassign. The cart provider is `Cart.CartProvider`, with a ghost log of the reservation calls it has made. Each state change is specified by a pure function of the old state, for example `Cart.AddItemStep` or `Reservations.UpsertDocs`. The properties are lemmas about those functions.
- **Outside inputs.** The outcome of each awaited remote call is a parameter: `failure: Option<StoreError>` or a `DocRead`. The cart's reservation calls are not awaited, and the model takes them to land (see "## Left out"). So is the server clock (`serverTime`), and so is the local clock (`now`).

Where the admin page and the admin dashboard behave differently, both are modelled as the code has them. Their password-reset confirmation texts differ. The page saves a user's name with `updateDoc`, which fails on a missing document. The dashboard saves it with a merge write, which creates the document. The pharmacy map and the products page read a pharmacy's product ids from differently ordered field lists.

## Model

| member | source | states |
|---|---|---|
| Cart.ClampQty | app/lib/cart/CartContext.tsx:26-31 | The quantity is never above 99 or above a given stock. It is at least 1 when the stock is unknown or at least 1. An in-range quantity is kept, a larger one becomes the cap, a smaller one becomes 1, and a stock below 1 is returned as is. A non-finite quantity counts as 1. |
| Cart.ClampIdempotent | app/lib/cart/CartContext.tsx:26-31 | Clamping an already clamped quantity against the same stock changes nothing. |
| Cart.ClampNonFiniteIsOne | app/lib/cart/CartContext.tsx:27 | A quantity that is not a finite number is clamped as if it were 1. |
| Cart.Find | app/lib/cart/CartContext.tsx:51 | Finds nothing exactly when no line has the id. Otherwise it returns a line of the cart with that id. |
| Cart.FindFirst | app/lib/cart/CartContext.tsx:51 | The line found is the first line with the id. |
| Cart.Refresh | app/lib/cart/CartContext.tsx:61-65 | Same length. Every line with the item's id takes the new name, price, stock and quantity, and every other line is unchanged. |
| Cart.AddItemStep | app/lib/cart/CartContext.tsx:53 | Adding a product whose stock is a number at most 0 leaves the cart as it was and makes no reservation call. |
| Cart.AddExistingSpec | app/lib/cart/CartContext.tsx:55-66 | For a product already in the cart: one more unit, clamped to the new stock, or to the line's old stock when none is given. Each of its lines takes the new name and price. The cart keeps its length and other lines, and exactly one upsert is made with the new quantity. |
| Cart.AddNewSpec | app/lib/cart/CartContext.tsx:68-78 | For a product not in the cart: one new last line holding 1 unit clamped to the stock, and one upsert with that quantity. |
| Cart.BumpStepSpec | app/lib/cart/CartContext.tsx:56-65 | The existing-product branch on its own: same length, one upsert, and the matching lines rewritten with the clamped quantity. |
| Cart.Without | app/lib/cart/CartContext.tsx:83 | Keeps exactly the lines with another id, in their order, each as many times as it occurs in the cart. The cart is unchanged when the id is absent. |
| Cart.RemoveStep | app/lib/cart/CartContext.tsx:82-85 | No line with the id remains. The other lines keep their order and their number of occurrences. Exactly one delete is issued, even when the id was not in the cart. |
| Cart.SetQtyStep | app/lib/cart/CartContext.tsx:87-99 | Each line with the id takes the quantity clamped to its own stock, and the others are unchanged. Every call is an upsert for that id. There are no calls exactly when the id is absent. |
| Cart.SetQtySingleCall | app/lib/cart/CartContext.tsx:87-99 | With distinct ids, a quantity change for a product in the cart makes exactly one upsert, carrying the quantity its line now holds. |
| Cart.ClearStep | app/lib/cart/CartContext.tsx:101-104 | The cart ends empty, after one delete per former line, in line order. |
| Cart.DeleteCalls | app/lib/cart/CartContext.tsx:102 | One delete call per line, for that line's product, in order. |
| Cart.TotalOf | app/lib/cart/CartContext.tsx:106-109 | The reduce starts at 0, so an empty cart totals 0. How each line adds to it is stated by `Cart.TotalCons` and `Cart.TotalAppend`. |
| Cart.CartProvider.Total | app/lib/cart/CartContext.tsx:106-109 | The provider's `total` is the lines' value: 0 for an empty cart, and never negative when no price or quantity is. |
| Cart.TotalAppend | app/lib/cart/CartContext.tsx:106-109 | The total of two carts joined is the sum of their totals. |
| Cart.TotalCons | app/lib/cart/CartContext.tsx:106-109 | A line adds its price times its quantity to the total, wherever it sits. |
| Cart.TotalNonNegative | app/lib/cart/CartContext.tsx:106-109 | An empty cart totals 0. A cart with no negative prices or quantities never totals below 0. |
| Cart.TotalWithout | app/lib/cart/CartContext.tsx:106-109 | Removing a product takes exactly the value of its lines off the total. |
| Cart.BumpedLineOk | app/lib/cart/CartContext.tsx:56-57 | The line rewritten by adding a held product holds between 1 and 99 units, and no more than its known stock. |
| Cart.AddItemPreserves | app/lib/cart/CartContext.tsx:49-80 | Adding keeps the cart invariant: distinct ids, and every line between 1 and 99 units and within its known stock. |
| Cart.AddExistingPreserves | app/lib/cart/CartContext.tsx:55-66 | Adding a held product keeps the cart invariant. |
| Cart.RemovePreserves | app/lib/cart/CartContext.tsx:82-85 | Removing keeps the cart invariant. |
| Cart.SetQtyPreserves | app/lib/cart/CartContext.tsx:87-99 | Changing a quantity keeps the cart invariant. |
| Cart.SubsequenceKeepsInvariant | app/lib/cart/CartContext.tsx:83 | Any in-order selection of a well-formed cart's lines is well formed. |
| Cart.DistinctProductsDistinctDocs | app/lib/firebase/reservations.ts:14-16 | For one shopper, two different products have different reservation documents. |
| Cart.AddItemMirrors | app/lib/cart/CartContext.tsx:49-80 | For a signed-in shopper, if the store holds exactly one reservation per cart line with its quantity, it still does after adding and its upserts. |
| Cart.AddExistingMirrors | app/lib/cart/CartContext.tsx:55-66 | The same, for adding a product already held. |
| Cart.AddNewMirrors | app/lib/cart/CartContext.tsx:68-78 | The same, for adding a new product. |
| Cart.SetQtyMirrors | app/lib/cart/CartContext.tsx:87-99 | The same, for a quantity change with distinct ids. |
| Cart.RemoveMirrors | app/lib/cart/CartContext.tsx:82-85 | The same, for removing a product: its reservation is deleted and the others are kept. |
| Cart.DeletesDrop | app/lib/cart/CartContext.tsx:102 | The deletes made by clearing remove the shopper's reservation for every product in the cart, and touch nothing else. |
| Cart.LostUpsertDrifts | app/lib/cart/CartContext.tsx:69 | When the upsert for a product new to the cart fails and is dropped, the store no longer mirrors the cart. |
| Cart.ClearMirrors | app/lib/cart/CartContext.tsx:101-104 | After clearing, the shopper holds no reservation at all. |
| Cart.CartProvider.constructor | app/lib/cart/CartContext.tsx:34 | An empty cart, with no calls made, satisfying the invariant. |
| Cart.CartProvider.AddItem | app/lib/cart/CartContext.tsx:49-80 | The lines become those of `AddItemStep`, its calls are appended to the log, and the invariant holds. |
| Cart.CartProvider.RemoveItem | app/lib/cart/CartContext.tsx:82-85 | The lines become those of `RemoveStep`, one delete is logged, and the invariant holds. |
| Cart.CartProvider.SetQty | app/lib/cart/CartContext.tsx:87-99 | The lines become those of `SetQtyStep`, its upserts are logged, and the invariant holds. |
| Cart.CartProvider.Clear | app/lib/cart/CartContext.tsx:101-104 | The cart is empty, with one delete logged per former line, in order. |
| Reservations.DocIdInjective | app/lib/firebase/reservations.ts:14-16 | For account ids without an underscore, the document id determines both the account and the product. |
| Reservations.DocIdInjectiveForUser | app/lib/firebase/reservations.ts:14-16 | For one account, different products never share a document. |
| Reservations.DocIdCollidesWithUnderscoreInUid | app/lib/firebase/reservations.ts:14-16 | Without that restriction, two different account and product pairs share a document id. |
| Reservations.ExpiresInMinutes | app/lib/firebase/reservations.ts:18-21 | The expiry lies the given number of minutes after the clock reading, in milliseconds. |
| Reservations.Merged | app/lib/firebase/reservations.ts:28-38 | A merge write replaces the five written fields and keeps any other field of the existing document. |
| Reservations.UpsertDocs | app/lib/firebase/reservations.ts:23-39 | Signed out: nothing changes. Signed in: the account's document for the product holds the quantity and expires 900000 ms after `now`. Every other document is unchanged. |
| Reservations.DeleteDocs | app/lib/firebase/reservations.ts:41-47 | Signed out: nothing changes. Signed in: exactly that document is removed. |
| Reservations.ReservationStore.Upsert | app/lib/firebase/reservations.ts:23-39 | The collection becomes `UpsertDocs` of the old one. |
| Reservations.ReservationStore.Delete | app/lib/firebase/reservations.ts:41-47 | The collection becomes `DeleteDocs` of the old one. |
| Reservations.IsActiveReservation | app/lib/firebase/reservations.ts:49-58 | Only a timestamp, or a date with a valid time, can be active. A timestamp, or a date with a valid time, is active exactly when it is later than now. A date with an invalid time, a throwing `toDate` and any other value are never active. |
| Reservations.HoldWindow | app/lib/firebase/reservations.ts:12-58 | A reservation upserted at `now` is active at time `t` exactly when `t` is before `now` plus 15 minutes. |
| CartView.SafeItem | app/cart/ui/CartView.tsx:13-19 | Missing fields show defaults: name "Item", price 0, quantity 1. A stock is kept only when it is a number. |
| CartView.SafeItems | app/cart/ui/CartView.tsx:12-20 | One shown entry per cart line, in order. |
| CartView.SafeItemOfCartLine | app/cart/ui/CartView.tsx:12-20 | A line made by the provider shows exactly its own fields, with no default applied. |
| CartView.LineTotal | app/cart/ui/CartView.tsx:39 | A line's value is finite exactly when its price and quantity are, and then it is their product. |
| CartView.LineTotalOfCartLine | app/cart/ui/CartView.tsx:39 | A provider line's value is its price times its quantity. |
| CartView.LineTotalsSumToTotal | app/cart/ui/CartView.tsx:39 | The line values shown add up to the cart's total. |
| CartView.MaxQty | app/cart/ui/CartView.tsx:40 | The input's maximum is 99 without a stock. Otherwise it is the stock, raised to at least 1, and it is finite exactly when the stock is. |
| CartView.MaxQtyAdmitsLine | app/cart/ui/CartView.tsx:40 | The maximum never excludes the quantity a well-formed line holds. |
| CartView.CartPage.OnQtyChange | app/cart/ui/CartView.tsx:71-75 | Text that does not read as a finite number changes nothing. Any other text sets the line's quantity through the provider. |
| CartView.CartPage.Remove | app/cart/ui/CartView.tsx:87 | The product's lines go, and one delete is logged. |
| CartView.CartPage.ClearCart | app/cart/ui/CartView.tsx:123-126 | The cart is emptied and the page shows "Cart cleared.". |
| CartView.EmptyInputMeansOne | app/cart/ui/CartView.tsx:72-74 | An emptied input reads as 0, and the cart sets that line to 1 unit. |
| Checkout.OrderLines | app/cart/ui/CheckoutButton.tsx:32-42 | One order line per cart line, in order, copying id, name, quantity and price. Each line's value is price times quantity. |
| Checkout.OrderTotalIsSumOfLines | app/cart/ui/CheckoutButton.tsx:40-50 | The order's total is the sum of its line values. |
| Checkout.OrderFor | app/cart/ui/CheckoutButton.tsx:46-53 | The order carries the account's id and email, the lines, the cart total, status "pending" and the server time. |
| Checkout.OrdersCollection.Add | app/cart/ui/CheckoutButton.tsx:46-53 | A successful write appends the order. A failed one changes nothing. |
| Checkout.CheckoutButton.Checkout | app/cart/ui/CheckoutButton.tsx:14-62 | The message is reset first. Signed out or an empty cart: an error and no write. On a write failure, the error text is shown and the cart is kept. On success, one order is written, the cart is cleared and success is reported. |
| ProductsList.RequiresPrescription | app/products/ui/ProductsList.tsx:59-61 | A stored `true` requires a prescription. False, null or missing does not. Text does exactly when it lower-cases to "true". |
| ProductsList.PrescriptionFromText | app/products/ui/ProductsList.tsx:60-61 | "TRUE", "True" and a list holding only "true" all mark a product as prescription-only. |
| ProductsList.NoPrescriptionFromOtherValues | app/products/ui/ProductsList.tsx:60-61 | "yes" and the number 1 do not. |
| ProductsList.TextField | app/products/ui/ProductsList.tsx:52-54 | A missing or null field shows as its default ("Unnamed" for name, "" for category). A text value is kept as it is. |
| ProductsList.PriceField | app/products/ui/ProductsList.tsx:53 | A missing price is 0. A stored number is kept. |
| ProductsList.StockField | app/products/ui/ProductsList.tsx:55-58 | A stored number is kept, a missing stock is 0, and a stored NaN stays non-finite. |
| ProductsList.NormaliseProduct | app/products/ui/ProductsList.tsx:48-63 | The loaded product has the document's id and the field defaults above. |
| ProductsList.LoadProducts | app/products/ui/ProductsList.tsx:46-65 | One product per document, sorted by name, as a permutation of the normalised documents. |
| ProductsList.ReservedByProductId | app/products/ui/ProductsList.tsx:127-137 | The map has an entry exactly for the ids with a line that has an id and a positive quantity. Each entry is the sum of those lines' quantities. |
| ProductsList.ReservedSumBounds | app/products/ui/ProductsList.tsx:127-137 | Reserved counts are never negative. An id with no counted line has none. |
| ProductsList.ReservedIsLineQty | app/products/ui/ProductsList.tsx:127-137 | For a well-formed cart, a product's reserved count is its line's quantity. |
| ProductsList.LoadPharmacyFilter | app/products/ui/ProductsList.tsx:87-118 | No id: unrestricted, nothing read. A missing document or a failed read: unrestricted, with "Selected pharmacy not found." or the error text. Otherwise the allowed ids are the document's id list, as text, under its name or "Selected Pharmacy". |
| ProductsList.EmptyFirstFieldAllowsNothing | app/products/ui/ProductsList.tsx:103-109 | An empty `productsId` list allows no product, whatever the later fields hold. |
| ProductsList.NoIdFieldAllowsNothing | app/products/ui/ProductsList.tsx:103-109 | A pharmacy with none of the five fields as a list allows no product. |
| ProductsList.Categories | app/products/ui/ProductsList.tsx:139-146 | The categories are strictly sorted, without repeats. They are exactly the non-empty categories of the allowed products. |
| ProductsList.FilterProducts | app/products/ui/ProductsList.tsx:148-164 | Keeps exactly the products that are allowed, contain the trimmed lower-cased search in name or category, and match the selected category ignoring case. Loaded order is kept, and each kept product occurs as often as it was loaded. |
| ProductsList.BlankFilterKeepsAll | app/products/ui/ProductsList.tsx:148-164 | With blank search, blank category and no pharmacy, every product is listed. |
| ProductsList.Available | app/products/ui/ProductsList.tsx:166-168 | The availability is never negative, and it is finite exactly when the stock is. It is positive exactly when the stock exceeds the reserved count, and then it is their difference. |
| ProductsList.Filtered | app/products/ui/ProductsList.tsx:148-171 | The listed products are those of the filter. Each carries its reserved count and its availability. |
| ProductsList.FilteredRespectsPharmacy | app/products/ui/ProductsList.tsx:152-154 | Every listed product is allowed by the selected pharmacy, and the list keeps loaded order. |
| ProductsList.AddToCart | app/products/ui/ProductsList.tsx:279-288 | An availability at most 0 does nothing. Otherwise one unit is added with the product's id, name and price and no stock. |
| ProductsList.ListAddIgnoresStock | app/products/ui/ProductsList.tsx:288 | Adding from the list to a stock-less line gives one more unit, up to 99, whatever the product's stock. The line stays without a stock. |
| PharmacyMap.Coordinate | app/pharmacies/ui/PharmacyMap.tsx:239-240 | No coordinate field gives a non-finite coordinate. A stored number is taken as is. |
| PharmacyMap.NormalisePharmacy | app/pharmacies/ui/PharmacyMap.tsx:210-243 | Name defaults to "Pharmacy" and address to "". The coordinates come from the fallback fields, and the product ids from the first list field, as text. |
| PharmacyMap.LatitudeFromFirstPresent | app/pharmacies/ui/PharmacyMap.tsx:214-219 | The first of `lat`, `latitude`, `Latitude` and `LATITUDE` holding a value decides the latitude. |
| PharmacyMap.NoLatitudeField | app/pharmacies/ui/PharmacyMap.tsx:214-239 | With none of them, the latitude is not finite. |
| PharmacyMap.ProductIdsComeFirst | app/pharmacies/ui/PharmacyMap.tsx:228-233 | A `productIds` list wins over every other id field. |
| PharmacyMap.KeepLocated | app/pharmacies/ui/PharmacyMap.tsx:244 | Keeps exactly the pharmacies with finite coordinates, in order, each as often as it occurs. |
| PharmacyMap.LoadPharmacies | app/pharmacies/ui/PharmacyMap.tsx:208-244 | Every pharmacy shown is a normalised document with a position, and every such document is shown. The shown list keeps the documents' order, and each located pharmacy appears as often as among the normalised documents. |
| PharmacyMap.PopupEntry | app/pharmacies/ui/PharmacyMap.tsx:75-84 | Name defaults to "Unnamed", category to "" and stock to 0. The prescription flag is the stored value's truthiness. |
| PharmacyMap.ExistingIds | app/pharmacies/ui/PharmacyMap.tsx:73-74 | Keeps exactly the linked ids whose product document exists, in order, each as often as it is linked. |
| PharmacyMap.PopupProducts | app/pharmacies/ui/PharmacyMap.tsx:58-95 | No linked id: an empty list, with no fallback to all products. A failed read: the error text. Otherwise the entries of the existing linked products, sorted by name, as a permutation of those entries: a product linked twice is listed twice. |
| PharmacyMap.NoLinkNoFallback | app/pharmacies/ui/PharmacyMap.tsx:65-69 | A pharmacy with no linked id shows no product, whatever products exist. |
| PharmacyMap.Shown | app/pharmacies/ui/PharmacyMap.tsx:134 | The popup shows the first six products at most. |
| PharmacyMap.OutOfStock | app/pharmacies/ui/PharmacyMap.tsx:135 | A numeric stock below 1 shows as out of stock. A NaN stock never does. |
| PharmacyMap.Query | app/pharmacies/ui/PharmacyMap.tsx:378 | The query is already lower-case and no longer than the typed text. It is empty exactly when the text is all white space. |
| PharmacyMap.PharmacyHit | app/pharmacies/ui/PharmacyMap.tsx:381-385 | An empty query matches every pharmacy, and so does a query the lower-cased name or address starts with. |
| PharmacyMap.ProductHit | app/pharmacies/ui/PharmacyMap.tsx:405-413 | An empty query matches every product document, and so does a query the lower-cased text name or category starts with. |
| PharmacyMap.FindPharmacy | app/pharmacies/ui/PharmacyMap.tsx:381-385 | Finds the first pharmacy whose lower-cased name or address contains the query, and finds none exactly when none does. |
| PharmacyMap.FindLinked | app/pharmacies/ui/PharmacyMap.tsx:405-413 | Finds a linked, existing product whose name or category contains the query, and finds none exactly when there is none. |
| PharmacyMap.SearchAddress | app/pharmacies/ui/PharmacyMap.tsx:371-449 | Blank text does nothing. Otherwise the first pharmacy match wins. Failing that, the first readable pharmacy with a matching linked product. Failing that, the geocoder: its position, "No results found." or the error text. |
| Navbar.Separate | app/ui/Navbar.tsx:15 | `.`, `_` and `-` become spaces, and every other character is kept. |
| Navbar.CapitaliseAll | app/ui/Navbar.tsx:19 | Each word is capitalised, in place. |
| Navbar.CapitaliseWordsPointwise | app/ui/Navbar.tsx:17-20 | Splitting at spaces, capitalising each piece and joining again upper-cases exactly the characters that open the text or follow a space. |
| Navbar.EmailToNameShape | app/ui/Navbar.tsx:10-23 | The name is the part before "@", with separators turned to spaces and word starts upper-cased. It is as long as that part and holds no `.`, `_`, `-` or `@`. |
| Navbar.NoSeparators | app/ui/Navbar.tsx:15 | After separating, no `.`, `_`, `-` or `@` remains. |
| Navbar.NoEmailNoName | app/ui/Navbar.tsx:11 | No email, or an empty one, gives an empty name. |
| Navbar.EmailToNameIdempotent | app/ui/Navbar.tsx:10-23 | Making a name from a name changes nothing. |
| Navbar.EmailToName | app/ui/Navbar.tsx:10-23 | No address, or an empty one, gives "". Otherwise the name equals, character by character, the local part with separators as spaces and every character that opens it or follows a space upper-cased. |
| Navbar.HideAuthControls | app/ui/Navbar.tsx:40-41 | The controls are hidden exactly on the paths "/login" and "/register". |
| Navbar.AuthControlsOnlyOnExactPaths | app/ui/Navbar.tsx:40-41 | Near misses (a trailing slash, another case, a sub-page, the root) keep the controls. |
| Navbar.WordStartsUpperIdempotent | app/ui/Navbar.tsx:17-20 | Upper-casing word starts twice is doing it once. |
| Profile.EmailPrefix | app/lib/user/useUserProfile.ts:15-18 | No email gives "User". Otherwise it is the text before the first "@", or the whole email without one, and it never contains "@". |
| Profile.StoredName | app/lib/user/useUserProfile.ts:62 | The stored display name, trimmed. Missing gives "". |
| Profile.ProfileFromSnapshot | app/lib/user/useUserProfile.ts:60-69 | The stored name when non-blank, else the email prefix. Admin exactly when the document exists and its flag is truthy. |
| Profile.ProfileOnError | app/lib/user/useUserProfile.ts:73-79 | A failed read gives the email prefix and no admin flag. |
| Profile.MissingDocLikeError | app/lib/user/useUserProfile.ts:61-79 | A missing document gives the same profile as a failed read. |
| Profile.ProfileAdminIsLooser | app/lib/user/useUserProfile.ts:68 | A stored text "true" makes the profile admin, but the admin screens' test rejects it. |
| Profile.AdminPagesAgreeOnTrue | app/lib/user/useUserProfile.ts:68 | A document the admin screens accept is admin in the profile too. |
| Profile.ProfileHook.OnAuthChange | app/lib/user/useUserProfile.ts:28-56 | Signed out: no profile and not loading. Signed in: loading, and on success the email (or null) and a creation time are merged into the user's document. A failed write changes nothing. |
| Profile.ProfileHook.OnSnapshot | app/lib/user/useUserProfile.ts:60-71 | The profile is built from the snapshot, and loading ends. |
| Profile.ProfileHook.OnSnapshotError | app/lib/user/useUserProfile.ts:73-81 | The fallback profile is set, and loading ends. |
| MyOrders.StatusBadge | app/orders/ui/MyOrders.tsx:38-57 | The label is the stored status, or "pending" when empty. Its colours follow the lower-cased status for the four known statuses, with grey for any other. |
| MyOrders.BadgeColourIgnoresCase | app/orders/ui/MyOrders.tsx:39 | A status's colours do not depend on letter case. |
| MyOrders.EmptyStatusLabelledPending | app/orders/ui/MyOrders.tsx:39-47 | An empty status is labelled "pending" but drawn grey, unlike a real pending status. |
| MyOrders.FormatDate | app/orders/ui/MyOrders.tsx:29-36 | Anything that is not a store timestamp gives "". |
| MyOrders.OrderFromDoc | app/orders/ui/MyOrders.tsx:114-122 | Total defaults to 0 and status to "pending". Items are kept only when stored as a list, and creation time is passed through. |
| MyOrders.MissingStatusIsPending | app/orders/ui/MyOrders.tsx:119 | An order without a status is drawn as a pending one. |
| MyOrders.OrdersPage.OnAuthChange | app/orders/ui/MyOrders.tsx:85-102 | The error is cleared. Signing out empties the list and the account. Signing in records the account and keeps loading. |
| MyOrders.OrdersPage.OnSnapshot | app/orders/ui/MyOrders.tsx:113-126 | One entry per order document, in the order delivered, and loading ends. |
| MyOrders.OrdersPage.OnSnapshotError | app/orders/ui/MyOrders.tsx:128-131 | The error text is shown, the list is kept, and loading ends. |
| Login.FriendlyAuthError | app/login/ui/LoginForm.tsx:12-28 | Unknown or missing codes give "Login failed. Please try again.". |
| Login.FriendlyAuthErrorDistinct | app/login/ui/LoginForm.tsx:12-28 | No known code gets the generic message. Two known codes share a message exactly when they are the two credential codes. |
| Login.LoginForm.LogSignIn | app/login/ui/LoginForm.tsx:49 | A sign-in is attempted with the trimmed address and the password. |
| Login.LoginForm.OnSubmit | app/login/ui/LoginForm.tsx:42-65 | Messages are reset and sign-in is attempted with the trimmed address. A failure shows the friendly text. Loading ends. |
| Login.LoginForm.SendReset | app/login/ui/LoginForm.tsx:67-88 | A blank address is refused with "Please enter your email first." and nothing is sent. Otherwise a reset goes to the trimmed address. |
| Login.LoginForm.RequestReset | app/login/ui/LoginForm.tsx:77-87 | The reset is requested. Success shows the confirmation naming the address. Failure shows the friendly text. |
| Register.FriendlyAuthError | app/register/ui/RegisterForm.tsx:9-22 | Unknown or missing codes give "Registration failed. Please try again.". |
| Register.FriendlyAuthErrorDistinct | app/register/ui/RegisterForm.tsx:9-22 | Each known code has its own message, never the generic one. |
| Register.Disabled | app/register/ui/RegisterForm.tsx:75 | The button is disabled exactly when some field is all white space. |
| Register.NewProfileDoc | app/register/ui/RegisterForm.tsx:51-56 | The new document has four fields: the account's email, or the typed one trimmed; the trimmed name; `isAdmin` false; and the server time. |
| Register.NewProfileReadsBack | app/register/ui/RegisterForm.tsx:50-56 | A new profile reads back with the typed name and is admin by neither test. |
| Register.RegisterForm.LogSignUp | app/register/ui/RegisterForm.tsx:40-44 | The account is requested with the trimmed address and the password. |
| Register.RegisterForm.OnSubmit | app/register/ui/RegisterForm.tsx:34-73 | A failed account creation or profile read/write shows the friendly text and writes nothing. Once the account exists, the profile document is written only when none exists, and stays written even when the session call then fails, which shows the generic text. Loading ends. |
| AdminDashboard.CategoryText | app/admin/ui/AdminDashboard.tsx:53 | The category text is trimmed, and missing gives "". |
| AdminDashboard.NormaliseCategory | app/admin/ui/AdminDashboard.tsx:52-58 | Blank text and any casing of "generall" become "General". Other text is kept trimmed. The result is never empty. |
| AdminDashboard.GeneralWithSpaceUnreachable | app/admin/ui/AdminDashboard.tsx:56 | The test against "general " can never succeed on trimmed text. |
| AdminDashboard.NormaliseCategoryIdempotent | app/admin/ui/AdminDashboard.tsx:52-58 | Normalising a shown category again changes nothing. |
| AdminDashboard.UserFromDoc | app/admin/ui/AdminDashboard.tsx:168-178 | A missing email is absent, and a missing name is "". The admin and disabled flags follow truthiness. |
| AdminDashboard.LoadUsers | app/admin/ui/AdminDashboard.tsx:166-182 | One entry per document, sorted by email with no-email users first, as a permutation of the documents. |
| AdminDashboard.UserLabel | app/admin/ui/AdminDashboard.tsx:113-117 | The trimmed name when there is one, else the email's part before "@", else "(no email)". Never empty. |
| AdminDashboard.WithDisplayName | app/admin/ui/AdminDashboard.tsx:307-309 | Only the users with the id get the new name. |
| AdminDashboard.WithDisabled | app/admin/ui/AdminDashboard.tsx:345 | Only the users with the id get the new flag. |
| AdminDashboard.UserEditsKeepOrder | app/admin/ui/AdminDashboard.tsx:180 | Renaming or disabling keeps the list sorted by email and every id in place. |
| AdminDashboard.AdminFlag | app/admin/ui/AdminDashboard.tsx:206 | Admin exactly when the document exists and holds `isAdmin` as the boolean true. |
| AdminDashboard.TruthyIsNotAdmin | app/admin/ui/AdminDashboard.tsx:206 | A text "true" or the number 1 is truthy but does not grant admin. |
| AdminDashboard.ViewFor | app/admin/ui/AdminDashboard.tsx:82 | The panel is shown exactly when not checking and admin. |
| AdminDashboard.AddDisabled | app/admin/ui/AdminDashboard.tsx:385-386 | The add button is disabled exactly when some field is all white space. |
| AdminDashboard.PlusOneStock | app/admin/ui/AdminDashboard.tsx:479 | A missing stock becomes 1 and a number goes up by one. The result is non-finite exactly for a NaN stock. |
| AdminDashboard.SafePatch | app/admin/ui/AdminDashboard.tsx:255-256 | The same fields, with a category turned into trimmed text and every other field as given. |
| AdminDashboard.Dashboard.SetSectionError | app/admin/ui/AdminDashboard.tsx:84-93 | That box shows the error, and every other box is unchanged. |
| AdminDashboard.Dashboard.SetSectionSuccess | app/admin/ui/AdminDashboard.tsx:95-104 | That box shows the success, and every other box is unchanged. |
| AdminDashboard.Dashboard.ClearSectionMsg | app/admin/ui/AdminDashboard.tsx:106-111 | That box is cleared, and every other box is unchanged. |
| AdminDashboard.Dashboard.OnAuthChange | app/admin/ui/AdminDashboard.tsx:184-222 | The panel shows only for a signed-in account whose document holds `isAdmin` true. Only an admin gets the user list. A failed read is reported in the users box. |
| AdminDashboard.Dashboard.SaveUser | app/admin/ui/AdminDashboard.tsx:294-315 | On success, the trimmed name is merged into the document, even a missing one, and shown in the list. On failure, the error is shown and nothing changes. |
| AdminDashboard.Dashboard.SendReset | app/admin/ui/AdminDashboard.tsx:317-335 | With no email, an error and nothing sent. Otherwise one reset is sent and the confirmation is shown, or the error text. |
| AdminDashboard.Dashboard.SetUserDisabled | app/admin/ui/AdminDashboard.tsx:338-350 | On success, the flag is merged and shown, with "User disabled." or "User enabled.". On failure, the error is shown and nothing changes. |
| AdminPage.LoadProduct | app/admin/page.tsx:89-99 | The listed product has the defaults "Unnamed", price 0, category "" and stock 0, a truthy prescription flag, and is inactive only for a stored `false`. |
| AdminPage.ActiveUnlessFalse | app/admin/page.tsx:98 | A missing flag, null, true, the text "false" or 0 all leave a product active. |
| AdminPage.Patch | app/admin/page.tsx:215 | An update writes the patch's fields over the document and leaves every other field and document alone. |
| AdminPage.DisableThenEnable | app/admin/page.tsx:223-247 | Disabling then enabling lists the product as active with stock 0, and changes nothing else. |
| AdminPage.PlusOnePatch | app/admin/page.tsx:437 | The patch holds only the stock, one more than listed, or NaN for a NaN stock. |
| AdminPage.PlusOneAddsOne | app/admin/page.tsx:437 | After "+1 Stock" succeeds, the product lists one more unit. |
| AdminPage.NewProductRecord | app/admin/page.tsx:189-197 | The added document has the seven fields, is active, and carries the server time. |
| AdminPage.AddedProductListing | app/admin/page.tsx:189-197 | An added product lists with its trimmed name and category, the typed price and stock read as numbers, the prescription box, and as active. |
| AdminPage.WriteError | app/admin/page.tsx:215 | An update fails exactly when the store fails or the document does not exist. |
| AdminPage.AdminPanel.constructor | app/admin/page.tsx:55-62 | Checking, not admin, all four boxes empty, the form blank. |
| AdminPage.AdminPanel.SetBox | app/admin/page.tsx:65 | That box gets the message, and the other boxes are unchanged. |
| AdminPage.AdminPanel.SetBoxError | app/admin/page.tsx:64-66 | That box shows the error, and the other boxes are unchanged. |
| AdminPage.AdminPanel.SetBoxSuccess | app/admin/page.tsx:67-69 | That box shows the success, and the other boxes are unchanged. |
| AdminPage.AdminPanel.OnAuthChange | app/admin/page.tsx:142-184 | Boxes cleared. Admin, and the panel, exactly for a signed-in account whose document holds `isAdmin` true. A failed read or load is shown page-wide. |
| AdminPage.AdminPanel.AddProduct | app/admin/page.tsx:186-210 | On success, the new document is written under a fresh id, the form emptied and success shown. On failure, the error is shown and the form kept. No other document, box or flag changes. |
| AdminPage.AdminPanel.UpdateProduct | app/admin/page.tsx:212-221 | The patch is written as given, or the error is shown and nothing changes. Only the products box and the products change: the form, orders, users, flags, page-wide message and sent resets are untouched. |
| AdminPage.AdminPanel.DisableProduct | app/admin/page.tsx:223-236 | The product is kept but listed inactive with stock 0, or the error is shown. Only the products box and the products change. |
| AdminPage.AdminPanel.EnableProduct | app/admin/page.tsx:238-247 | The product is listed active with its stock unchanged, or the error is shown. Only the products box and the products change. |
| AdminPage.AdminPanel.UpdateOrderStatus | app/admin/page.tsx:249-258 | Only the order's status changes, or the error is shown. Only the orders box and the orders change. |
| AdminPage.AdminPanel.SaveUser | app/admin/page.tsx:260-272 | The trimmed name is written to an existing user document. A missing document or a failed write shows the error. Only the users box and the users change. |
| AdminPage.AdminPanel.SendReset | app/admin/page.tsx:274-291 | With no email, an error and nothing sent. Otherwise one reset is sent and the page's confirmation is shown, or the error text. Only the users box and the sent resets change. |
| Common.MergeField | app/lib/user/useUserProfile.ts:47-54 | A merge write sets the field and creates the document when missing. Every other field and document stays. |
| Common.ErrorText | app/orders/ui/MyOrders.tsx:129 | The error's message when it has one, else the fallback. |
| Common.FirstPresentPicksFirst | app/pharmacies/ui/PharmacyMap.tsx:214-219 | In a chain of `??`, the first field holding a value decides. |
| Common.FirstPresentNone | app/pharmacies/ui/PharmacyMap.tsx:214-219 | With no field holding a value, the chain gives null. |
| Common.FirstArrayPicksFirst | app/pharmacies/ui/PharmacyMap.tsx:228-233 | In a chain of list tests, the first field holding a list decides, even an empty list. |
| Common.FirstArrayNone | app/pharmacies/ui/PharmacyMap.tsx:228-233 | With no list field, the chain gives the empty list. |
| Common.NumValue | app/admin/page.tsx:191-193 | A number written and read back with `Number` is the same number. |
| Common.NumberOfString | app/admin/page.tsx:96 | A stock stored as the decimal text of a number is read as that number. |
| Text.TrimStartSuffix | app/login/ui/LoginForm.tsx:71 | Trimming the start keeps a suffix of the text. |
| Text.TrimEndPrefix | app/login/ui/LoginForm.tsx:71 | Trimming the end keeps a prefix of the text. |
| Text.TrimEmptyIff | app/login/ui/LoginForm.tsx:71-72 | A text trims to nothing exactly when it is all white space. |
| Text.TrimIdempotent | app/login/ui/LoginForm.tsx:71 | Trimming twice is trimming once. |
| Text.TrimNoEdges | app/login/ui/LoginForm.tsx:71 | A text with no white space at either end trims to itself. |
| Text.Lower | app/pharmacies/ui/PharmacyMap.tsx:378 | Same length, with each letter lower-cased. |
| Text.LowerIdempotent | app/pharmacies/ui/PharmacyMap.tsx:378 | Lower-casing twice is lower-casing once. |
| Text.ContainsAt | app/pharmacies/ui/PharmacyMap.tsx:384 | `includes` holds for an occurrence at any position. |
| Text.ContainsWitness | app/pharmacies/ui/PharmacyMap.tsx:384 | When `includes` holds, there is an occurrence. |
| Text.ContainsEmpty | app/products/ui/ProductsList.tsx:156 | Every text includes the empty text. |
| Text.BeforeFirst | app/ui/Navbar.tsx:13 | The text before the first `c`, which holds no `c`. It is all of the text when there is no `c`. |
| Text.BeforeFirstPrefix | app/ui/Navbar.tsx:13 | That text is a prefix of the original. |
| Text.BeforeFirstIdempotent | app/ui/Navbar.tsx:13 | Taking it twice is taking it once. |
| Sorting.BeforeIrreflexive | app/products/ui/ProductsList.tsx:145 | No text sorts before itself. |
| Sorting.BeforeTransitive | app/products/ui/ProductsList.tsx:145 | The text order is transitive. |
| Sorting.BeforeTotal | app/products/ui/ProductsList.tsx:145 | Any two different texts are ordered one way or the other. |
| Sorting.BeforeAsymmetric | app/products/ui/ProductsList.tsx:145 | Two texts never sort before each other. |
| Sorting.SortDistinct | app/products/ui/ProductsList.tsx:145 | Strictly sorted, with exactly the elements of the input. |
| Sorting.StrictlySortedUnique | app/products/ui/ProductsList.tsx:145 | Two strictly sorted lists with the same elements are equal. |
| Sorting.InsertBy | app/products/ui/ProductsList.tsx:65 | Inserting into a list sorted by key keeps it sorted and adds exactly that element. |
| Sorting.SortBy | app/products/ui/ProductsList.tsx:65 | The result is sorted by the key and is a permutation of the input. |
| Sorting.InsertByStable | app/products/ui/ProductsList.tsx:65 | An inserted element goes ahead of every element with the same key, which keep their order. |
| Sorting.SortByStable | app/products/ui/ProductsList.tsx:65 | The sort is stable: the elements sharing a key keep their input order. |

## Left out

- **Remote calls.** The hosted store, the auth provider, the session routes (`/api/login`, `/api/logout`) and navigation are not modelled. Their outcomes are parameters. A sign-in that fails at the session call is folded into the sign-in's failure parameter, since the form ends in the same state either way. Sign-up keeps the session call's failure apart, because the profile document has already been written by then.
- **Clocks.** `Date.now()` and the server clock are parameters.
- **Page lifecycle.** React effects, subscriptions and their clean-up are not modelled, and neither are the `alive`/`active` guards against late answers. Each listener callback is a method.
- **Cart persistence.** The cart's `localStorage` load and save are not modelled. `Cart.CartProvider` and the methods that take a cart require its invariant, which the constructor sets up, because lines read back from storage are not checked.
- **Number format.** Prices and quantities are integers (pence, units). Fractional numbers, `Math.floor` in `clampQty` and the `toFixed` formatting are not modelled. A NaN stock on a cart line is not modelled.
- **Number parsing.** `Number(..)` of text reads only blank text and optionally negative decimal digits. Other number syntax reads as non-finite.
- **Text.** Strings are sequences of ASCII characters. `localeCompare` is modelled as the order of character codes. `toLowerCase` and `toUpperCase` change ASCII letters only.
- **Locale output.** `toLocaleString` of a timestamp is the parameter `render` of `MyOrders.FormatDate`.
- **Map display.** The map display (tiles, markers, popups' mounting, fitting bounds) is not modelled. The geocoder request is reduced to its answer (`PharmacyMap.GeoAnswer`).
- **Untrimmed geocoder query.** The geocoder is sent the untrimmed search text. Only its answer is modelled, so this difference is not visible.
- **List reloads after writes.** On the admin screens, the reloads that follow a successful write are not modelled. Neither is a failed reload reporting an error after the write had already succeeded. `AdminPage.AdminPanel.AddProduct` and the other admin methods take one `failure` parameter, which stands for the write.
- **Product order on the admin page.** The admin page's product list is ordered by the store (`orderBy("name")`). The model keeps the products as a map from id to document.
- **Dashboard product and order lists.** The dashboard's `loadProducts` and `loadOrders` are not modelled. Of its product and order actions, only the "+1 Stock" value (`AdminDashboard.PlusOneStock`), the category clean-up of `updateProduct` (`AdminDashboard.SafePatch`), the category display and the add form's guard are modelled. The model does not cover the dashboard's own writes; the admin page's writes are modelled, and two of the dashboard's differ from them. First, the dashboard's `addProduct` (`AdminDashboard.tsx:228-235`) writes six fields and no `active` field, whereas `AdminPage.NewProductRecord` writes seven, with `active` set to true. Second, the dashboard's `removeProduct` (`AdminDashboard.tsx:268-279`) deletes the product document. The admin page never deletes a product: it only disables and enables it. So the dashboard's record without `active`, and its delete, are not modelled.
- **Admin page user list.** The admin page's `loadUsers` and `loadOrders` are not modelled. Its user and order edits are modelled on the collections.
- **Unmodelled pages.** The home page, layout, logout button, the session routes and the debug page are not part of this model.
- **Value rendering.** `String(..)` of a stored value is modelled (`Common.ValueToStr`). Where the source keeps a non-text stored name or category as it is, the model renders it as text. The three lines below name the other members where this happens.
- PharmacyMap.NormalisePharmacy: renders each stored product id as text. The source keeps the ids as stored (`PharmacyMap.tsx:228-241`). A non-text id, such as the number 42, then makes the product read (`PharmacyMap.tsx:71`, `:403`) fail. The popup shows the read error, and the address search skips that pharmacy. The model instead reads the document named "42".
- MyOrders.OrderFromDoc: renders a non-text stored status as text. The source keeps it as stored (`MyOrders.tsx:119`), and the badge uses `status || "pending"` (`MyOrders.tsx:39-41`). So a stored 0 or false is labelled "pending", where the model shows "0" or "false". A truthy non-text status, such as 5, makes the lower-casing throw, where the model shows "5".
- AdminDashboard.UserFromDoc: renders a non-text stored email or display name as text. The source keeps them as stored (`AdminDashboard.tsx:172-173`). The user label's `includes` and `trim` (`AdminDashboard.tsx:115-117`) then throw for a numeric value, where the model shows the digits.
- ProductsList.AddToCart: requires the product's price to be finite, because cart lines hold integer prices. A NaN price would be added by the source.
- Cart.Apply: the cart's reservation calls are fired without being awaited, and their failures are dropped. `Cart.Apply`, and so every `Cart.*Mirrors` lemma, takes each call to land, in the order issued. `Cart.LostUpsertDrifts` shows that a lost call breaks the mirroring. Calls landing out of order are not modelled.
- Cart.AddItemStep: its own contract states only the early return. The two other branches are stated by `Cart.AddExistingSpec` and `Cart.AddNewSpec`.
