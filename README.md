# Flexova storefront — a verified Dafny model of its cart, catalogue and account logic

Flexova is a fashion storefront: an Express/Mongoose backend with product,
user and cart controllers, and a React frontend whose pages drive a client
cart held in a reducer and a mock authentication context. This project
models the parts of both that hold the rules:

- the client cart reducer (`CartContext`) and the server cart controller
  (`CartController`). Lines are merged by the key (product id, size,
  colour), and the cart's `total` is kept equal to the sum of
  price × quantity;
- the pages that dispatch to the cart:
  - the cart page's guarded buttons and order summary (`CartPage`);
  - the product page's selections and stepper (`ProductDetailsPage`);
  - the catalogue filter and quick-add (`ProductsPage`);
  - and, across all three, a proof that the pages keep the client cart
    well formed (`CartSession`);
- the product schema and its `discountedPrice` (`ProductModel`);
- the product endpoints (`ProductController`):
  - the listing query's filter record and pagination;
  - the create defaults and the partial-update merge;
  - reviews (one per user, with average rating), and deletion;
- the user endpoints (`UserController`):
  - registration with the duplicate-email check, and login;
  - the profile merge, addresses that keep at most one default, and the
    wishlist as a set;
- the client session (`AuthContext`): mock login and register, logout, the
  profile spread and the address book;
- the FAQ, combo and login pages (`FaqPage`, `CombosPage`, `LoginPage`).

The form follows the source file by file:
- Pure code (the reducer, the filters, the page expressions) becomes
  functions with lemmas.
- Documents the controllers change in place (a cart, a product, a user)
  become classes. Their methods state the new state and keep a `Valid()`
  or `Stored()` invariant. A collection is a map from id to document.
- HTTP answers are the `Http.Status` values.
- Database lookups are map lookups. Ids the database or the clock assigns
  are parameters.
- A `save()` that fails schema validation is `ServerError`, with the
  document left as it was.

Prices and totals in the cart are integers (rupees). The 18% tax, the
discount percentage and the average rating are exact `real`s.

Behaviour worth noting:
- Neither the reducer nor the server's `addToCart` checks the quantity on
  an add, and the reducer never removes a line on a quantity change. On
  the client, the cart page's guard and the product page's stepper (which
  clamps at 1) keep quantities at 1 or more. On the server, only
  `updateCartItem` checks, answering 400 below 1. `CartSession` proves the
  client cart stays well formed under the pages' rules.
- The server recomputes `total` from the lines; the client patches it
  incrementally. The client's total is proved exact only while every add
  of a variant carries the price already in the cart
  (`CartContext.ReduceKeepsTotal`). `CartContext.MergeAtOtherPriceDrifts`
  gives the exact drift when it does not.
- Cart update and removal on the server address a line by its own `_id`,
  not by the key triple.

## Model

| member | source | states |
|---|---|---|
| CartContext.Reduce | main_Frontend/src/context/CartContext.tsx:47-137 | an add grows the cart by at most one line, a removal never grows it, an update keeps its length, and CLEAR_CART empties it with total 0; the per-action lemmas below state each branch |
| CartContext.FirstMatch | main_Frontend/src/context/CartContext.tsx:52-57 | `items.find` by (id, size, colour): `None` iff no line has the key, else the first index carrying it |
| CartContext.AddItemMerges | main_Frontend/src/context/CartContext.tsx:59-70 | adding an item whose key is present raises exactly that line's quantity by the payload quantity and the total by price × quantity; no line is added |
| CartContext.AddItemAppends | main_Frontend/src/context/CartContext.tsx:71-76 | adding an item with a new key appends the payload unchanged and raises the total by price × quantity |
| CartContext.RemoveItemDrops | main_Frontend/src/context/CartContext.tsx:81-101 | removing a present key drops exactly that line, keeps the rest in order, and lowers the total by the line's price × quantity |
| CartContext.UpdateQuantitySets | main_Frontend/src/context/CartContext.tsx:105-127 | an update of a present key sets only that line's quantity and moves the total by price × (new − old) |
| CartContext.AbsentKeyIsNoop | main_Frontend/src/context/CartContext.tsx:82-113 | remove or update of a key no line carries returns the state unchanged |
| CartContext.ClearCartResets | main_Frontend/src/context/CartContext.tsx:131-133 | CLEAR_CART gives the initial state (no items, total 0) whatever the state |
| CartContext.ReduceKeepsUniqueKeys | main_Frontend/src/context/CartContext.tsx:47-137 | no action creates two lines with the same (id, size, colour) |
| CartContext.AddItemKeepsTotal | main_Frontend/src/context/CartContext.tsx:59-76 | an add keeps `total` equal to the sum of price × quantity when the payload's price is the price already in the cart |
| CartContext.RemoveItemKeepsTotal | main_Frontend/src/context/CartContext.tsx:81-101 | a removal keeps `total` equal to the sum of the remaining lines |
| CartContext.UpdateQuantityKeepsTotal | main_Frontend/src/context/CartContext.tsx:105-127 | a quantity update keeps `total` equal to the sum of the lines |
| CartContext.ReduceKeepsTotal | main_Frontend/src/context/CartContext.tsx:47-137 | every action keeps `total` exact, under the price-agreement condition for adds |
| CartContext.MergeAtOtherPriceDrifts | main_Frontend/src/context/CartContext.tsx:59-70 | merging a payload whose price differs from the stored line's makes `total` drift from the line sum by exactly (payload price − line price) × payload quantity |
| CartPage.MinusAction | main_Frontend/src/pages/Cart.tsx:87 | no dispatch iff the line is at quantity 1 or below, else UPDATE_QUANTITY to quantity − 1 with the line's key (effect: `MinusAtOneIsNoop`, `MinusDecrements`) |
| CartPage.PlusAction | main_Frontend/src/pages/Cart.tsx:94 | UPDATE_QUANTITY to quantity + 1 with the line's key (effect: `PlusIncrements`) |
| CartPage.RemoveAction | main_Frontend/src/pages/Cart.tsx:101 | a REMOVE_ITEM carrying exactly the line's key (effect: `RemoveButtonDrops`) |
| CartPage.UpdateQuantityAction | main_Frontend/src/pages/Cart.tsx:13-19 | nothing is dispatched iff the new quantity is below 1; otherwise an UPDATE_QUANTITY with the given id, size, colour and quantity |
| CartPage.MinusAtOneIsNoop | main_Frontend/src/pages/Cart.tsx:87 | the minus button on a line at quantity 1 leaves the cart unchanged |
| CartPage.MinusDecrements | main_Frontend/src/pages/Cart.tsx:87 | the minus button on a line above 1 lowers exactly that line by one |
| CartPage.PlusIncrements | main_Frontend/src/pages/Cart.tsx:94 | the plus button raises exactly that line by one and the total by its price |
| CartPage.RemoveButtonDrops | main_Frontend/src/pages/Cart.tsx:101 | the bin button drops exactly that line, the others kept in order |
| CartPage.Shipping | main_Frontend/src/pages/Cart.tsx:30 | shipping is 99 iff the cart has lines and 0 iff it is empty |
| CartPage.Subtotal | main_Frontend/src/pages/Cart.tsx:29 | on an exact cart the subtotal is the sum of price × quantity |
| CartPage.Tax | main_Frontend/src/pages/Cart.tsx:31 | 18% of a non-negative subtotal lies between 0 and the subtotal, and is 0 on a zero subtotal |
| CartPage.GrandTotal | main_Frontend/src/pages/Cart.tsx:32 | the total shown is at least subtotal plus shipping, and 0 for the empty cart (exact value: `GrandTotalOfExactCart`) |
| CartPage.GrandTotalOfExactCart | main_Frontend/src/pages/Cart.tsx:29-32 | on an exact cart the amount shown is 1.18 × the line sum, plus 99 when non-empty; an empty cart shows 0 |
| CartSession.InitialStateWellFormed | main_Frontend/src/context/CartContext.tsx:24-27 | the initial cart is well formed: unique keys, exact total, quantities ≥ 1, each line at the catalogue price of its variant (id, size, colour) |
| CartSession.PageActionKeepsWellFormed | main_Frontend/src/context/CartContext.tsx:47-137 | any action the pages can dispatch keeps the cart well formed |
| CartSession.CartButtonsArePageActions | main_Frontend/src/pages/Cart.tsx:13-27 | the cart page's minus, plus and bin buttons dispatch only page actions (no quantity below 1) |
| CartSession.QuickAddIsPageAction | main_Frontend/src/pages/Products.tsx:85-96 | the quick-add button dispatches a page action when the listed price is the catalogue price of the variant it adds (size M, colour Default) |
| CartSession.DetailsAddIsPageAction | main_Frontend/src/pages/ProductDetails.tsx:45-67 | the product page's ADD_ITEM, with the stepper's quantity ≥ 1, is a page action when the shown price is the catalogue price of the selected variant |
| CartSession.RunKeepsWellFormed | main_Frontend/src/context/CartContext.tsx:47-137 | any sequence of page actions keeps the cart well formed |
| ProductDetailsPage.ProductDetailsView.constructor | main_Frontend/src/pages/ProductDetails.tsx:9-42 | the page opens on size M, colour Blue, quantity 1 and the first image |
| ProductDetailsPage.ProductDetailsView.Decrement | main_Frontend/src/pages/ProductDetails.tsx:211 | the minus button sets `max(1, quantity − 1)`, so the quantity stays ≥ 1 |
| ProductDetailsPage.ProductDetailsView.Increment | main_Frontend/src/pages/ProductDetails.tsx:218 | the plus button adds one |
| ProductDetailsPage.ProductDetailsView.SelectSize | main_Frontend/src/pages/ProductDetails.tsx:169 | a size click selects that size and changes nothing else |
| ProductDetailsPage.ProductDetailsView.SelectColor | main_Frontend/src/pages/ProductDetails.tsx:191 | a colour click selects that colour and changes nothing else |
| ProductDetailsPage.ProductDetailsView.SelectImage | main_Frontend/src/pages/ProductDetails.tsx:97 | a thumbnail click selects that image and changes nothing else |
| ProductDetailsPage.ProductDetailsView.AddToCart | main_Frontend/src/pages/ProductDetails.tsx:45-67 | the ADD_ITEM payload is the shown product with the selected image, size, colour and quantity, which is ≥ 1 |
| ProductsPage.FilteredProducts | main_Frontend/src/pages/Products.tsx:60-78 | a product is listed iff it passes the search, category and price tests, each passing product as often as it occurs in the input |
| ProductsPage.QuickAddAction | main_Frontend/src/pages/Products.tsx:85-96 | an ADD_ITEM of the listed product at its listed price with quantity 1 (that it keeps the cart well formed: `CartSession.QuickAddIsPageAction`) |
| ProductsPage.FilteredProductsInOrder | main_Frontend/src/pages/Products.tsx:60 | the listing is a subsequence of the products, in their order |
| ProductsPage.NoFilterKeepsAll | main_Frontend/src/pages/Products.tsx:60-78 | empty search with category and price on "all" lists every product |
| ProductsPage.PriceBucketsPartition | main_Frontend/src/pages/Products.tsx:66-75 | every price lies in exactly one of the four price ranges |
| ProductModel.DiscountedPrice | backend/src/models/productModel.js:104-106 | for a valid product the discounted price lies in [0, price]; it equals the price at discount 0 and is 0 at discount 100 |
| ProductModel.DiscountIsMonotone | backend/src/models/productModel.js:104-106 | a larger discount never gives a higher discounted price |
| ProductController.PageNumber | backend/src/controllers/productController.js:9 | an absent, zero or non-numeric page is page 1; any other number is kept |
| ProductController.PageCount | backend/src/controllers/productController.js:53 | `ceil(count / 12)`: the pages hold every match and the last page is not empty |
| ProductController.PageWindow | backend/src/controllers/productController.js:45-48 | a page holds at most 12 products: those after the skipped ones, or none past the end |
| ProductController.PagesCoverResults | backend/src/controllers/productController.js:45-53 | pages 1 to `pages` are non-empty and every later page is empty |
| ProductController.BuildFilter | backend/src/controllers/productController.js:15-39 | the filter never holds an empty or "all" category nor an empty keyword, and has a price bound iff a min or max price is given (meaning: `PriceFilterMeansBounds`, `FilterConstraints`) |
| ProductController.Matching | backend/src/controllers/productController.js:42-48 | exactly the catalogue products that satisfy the filter |
| ProductController.PriceFilterMeansBounds | backend/src/controllers/productController.js:20-29 | the four-way price branch admits a price iff every bound given holds |
| ProductController.FilterConstraints | backend/src/controllers/productController.js:15-39 | a category constraint exists iff a category other than "all" is given; new-only iff `isNew` is exactly "true" |
| ProductController.EmptyQueryMatchesAll | backend/src/controllers/productController.js:9-39 | a query without parameters matches every product and starts at page 1 with no skip |
| ProductController.GetProducts | backend/src/controllers/productController.js:6-58 | a page below 1 gives the database's error; otherwise the page number, the number of matches, `pages` = `PageCount(count)` = ceil(count / 12), and the products are the `PageWindow` of that page over the newest-first matches: at most 12, all matching |
| ProductController.FirstPageIsNewest | backend/src/controllers/productController.js:42-55 | page 1 of the empty query lists the first twelve products of the newest-first catalogue, and the count is the catalogue size |
| ProductController.ListingLimit | backend/src/controllers/productController.js:229 | an absent or zero limit is 8; any other number is kept |
| ProductController.Limited | backend/src/controllers/productController.js:231-233 | a prefix of the list of length min(length, limit), the limit taken by absolute value |
| ProductController.FeaturedProducts | backend/src/controllers/productController.js:227-239 | a prefix of the newest-first featured products, of length min(number featured, \|limit\|), the limit being 8 when absent or zero |
| ProductController.NewProducts | backend/src/controllers/productController.js:244-256 | a prefix of the newest-first products marked new, of length min(number marked new, \|limit\|), the limit being 8 when absent or zero |
| ProductController.NewProduct | backend/src/controllers/productController.js:97-109 | the build fails iff the price is missing; name, description, price and category are copied, and every optional field given is copied; absent lists become empty, and absent stock, flags and discount become 0 or false; no reviews and rating 0 |
| ProductController.RequiredFieldsSuffice | backend/src/controllers/productController.js:97-111 | a product given only the required fields passes the schema |
| ProductController.Merged | backend/src/controllers/productController.js:140-150 | the assigned fields never touch reviews, rating or review count, and an update naming nothing changes nothing (further laws: `MergedLaws`, `MergedFalsyRules`) |
| ProductController.MergedLaws | backend/src/controllers/productController.js:140-150 | an empty update changes nothing, an update applied twice equals once, reviews and ratings are untouched |
| ProductController.MergedFalsyRules | backend/src/controllers/productController.js:140-150 | an update cannot set the price to 0 or the name to ""; an explicit stock 0, `isNew` false or discount 0 is applied |
| ProductController.AverageRating | backend/src/controllers/productController.js:210-212 | the mean of ratings in [1, 5] lies in [1, 5] |
| ProductController.RatingSumBounds | backend/src/controllers/productController.js:211 | ratings in [1, 5] sum to between n and 5n |
| ProductController.AverageRatingInRange | backend/src/controllers/productController.js:210-212 | the mean of schema-valid ratings lies in [1, 5] |
| ProductController.AppendKeepsOneReviewPerUser | backend/src/controllers/productController.js:191-206 | appending a review by a user without one keeps one review per user |
| ProductController.ProductDocument.Update | backend/src/controllers/productController.js:140-153 | when the merged product is valid it becomes the document (200); otherwise 500 and the document is unchanged |
| ProductController.ProductDocument.AddReview | backend/src/controllers/productController.js:191-215 | 400 and no change for a user who already reviewed; else the review is appended, `numReviews` is the count and `rating` the mean, in [1, 5] (201) |
| ProductController.ProductStore.GetProductById | backend/src/controllers/productController.js:64-76 | the stored, schema-valid product, or 404 |
| ProductController.ProductStore.CreateProduct | backend/src/controllers/productController.js:81-116 | 201 with a fresh document holding the built product, or 500 with the store unchanged |
| ProductController.ProductStore.UpdateProduct | backend/src/controllers/productController.js:121-160 | 404 for a missing product; otherwise as `ProductDocument.Update`; every other product keeps its value (the store maps distinct ids to distinct documents) |
| ProductController.ProductStore.DeleteProduct | backend/src/controllers/productController.js:165-178 | 404 for a missing product; otherwise it is removed and nothing else changes |
| ProductController.ProductStore.CreateProductReview | backend/src/controllers/productController.js:183-222 | 404 for a missing product; 400 unchanged for a repeat reviewer; 500 unchanged for an invalid review; else the review is appended, `numReviews` is the count, `rating` the mean in [1, 5], no other field changes (201); every other product keeps its value |
| CartController.KeyIndex | backend/src/controllers/cartController.js:52-57 | `findIndex` by (product, size, colour): −1 iff no line has the key, else the first index with it |
| CartController.FindByKey | backend/src/controllers/cartController.js:52-57 | the scanning loop returns exactly `KeyIndex` |
| CartController.FindById | backend/src/controllers/cartController.js:107-109 | the scanning loop for a line `_id` returns −1 iff no line has it, else the first index with it |
| CartController.SumLines | backend/src/controllers/cartController.js:76-79 | the `reduce` loop returns the sum of price × quantity |
| CartController.AddedLines | backend/src/controllers/cartController.js:52-73 | the lines gain at most one line, and afterwards a line carries the added key (merging: `AddTwiceMerges`, `DistinctVariantsStaySeparate`; total: `AddedLinesTotal`) |
| CartController.AddedLinesTotal | backend/src/controllers/cartController.js:59-79 | the recomputed total after an add is the old total plus quantity × the price of the line it lands on |
| CartController.AddTwiceMerges | backend/src/controllers/cartController.js:52-73 | two adds of the same product, size and colour equal one add of the summed quantity: one line, never two |
| CartController.DistinctVariantsStaySeparate | backend/src/controllers/cartController.js:52-73 | two adds of one product in different sizes or colours give two new lines |
| CartController.Cart.constructor | backend/src/controllers/cartController.js:13-17 | a new cart belongs to the user, has no items and total 0 |
| CartController.Cart.AddLine | backend/src/controllers/cartController.js:59-79 | merge into the line with the key or push a new line with the product's name, first image and price; total recomputed |
| CartController.Cart.SetQuantity | backend/src/controllers/cartController.js:116-122 | only that line's quantity changes; total recomputed |
| CartController.Cart.RemoveAt | backend/src/controllers/cartController.js:154-160 | `splice` removes exactly that line; total recomputed |
| CartController.Cart.Clear | backend/src/controllers/cartController.js:180-181 | no items, total 0 |
| CartController.CartStore.GetCart | backend/src/controllers/cartController.js:9-19 | an existing cart is returned unchanged; otherwise a fresh empty cart is stored for the user |
| CartController.CartStore.AddToCart | backend/src/controllers/cartController.js:32-82 | 404 with nothing touched for a missing product; otherwise 201, the cart created if needed, lines as `AddedLines`, total exact |
| CartController.CartStore.UpdateCartItem | backend/src/controllers/cartController.js:93-125 | 400 for a quantity below 1, 404 for a missing cart or line (cart unchanged), else that line's quantity is set and the total recomputed |
| CartController.CartStore.RemoveCartItem | backend/src/controllers/cartController.js:136-163 | 404 for a missing cart or line (cart unchanged), else that line is removed and the total recomputed |
| CartController.CartStore.ClearCart | backend/src/controllers/cartController.js:174-184 | 404 for a missing cart, else it is emptied with total 0 |
| Addresses.DefaultCount | backend/src/controllers/userController.js:153-157 | the number of default addresses is 0 iff none is marked |
| Addresses.ClearDefaults | backend/src/controllers/userController.js:154-156 | every address is kept with its default mark cleared |
| Addresses.WithAddress | backend/src/controllers/userController.js:143-159 | one more address, the new one last, the earlier ones keeping their id and street (further: `WithAddressAppends`, `WithAddressKeepsOneDefault`) |
| Addresses.WithAddressAppends | backend/src/controllers/userController.js:143-159 | adding appends exactly the new address at the end; earlier ones change at most in their default mark, and lose it when the new one is default |
| Addresses.WithAddressKeepsOneDefault | backend/src/controllers/userController.js:153-159 | a new default is then the only default; a non-default add keeps the count; at most one default is preserved |
| Addresses.UnsetDefaults | backend/src/controllers/userController.js:154-156 | the `forEach` loop computes `ClearDefaults` |
| UserController.UserDocument.UpdateProfile | backend/src/controllers/userController.js:107-113 | falsy name, email and phone keep the stored value; the password changes only when one is given; addresses and wishlist untouched |
| UserController.UserDocument.AddAddress | backend/src/controllers/userController.js:143-159 | `isDefault` defaults to false and the addresses become `WithAddress` of the old ones; the invariant of at most one default is kept |
| UserController.UserDocument.AddToWishlist | backend/src/controllers/userController.js:182-186 | 400 with the wishlist unchanged for a listed product, else it is appended; no duplicates arise |
| UserController.UserDocument.RemoveFromWishlist | backend/src/controllers/userController.js:208-210 | every copy of the id is removed and the rest kept |
| UserController.WishlistIsASet | backend/src/controllers/userController.js:182-210 | removing an absent id changes nothing, removal is idempotent, add-then-remove restores the list, and an add keeps it duplicate-free |
| UserController.UserStore.RegisterUser | backend/src/controllers/userController.js:14-45 | 400 with no change when some user has the email; else 201 and a fresh user with that name, email and password, no addresses and an empty wishlist |
| UserController.UserStore.LoginUser | backend/src/controllers/userController.js:50-72 | 200 exactly with a user that has the email and whose password check accepts; an unknown email gives 401; a known email whose users all accept the password gives 200 |
| UserController.UserStore.GetUserProfile | backend/src/controllers/userController.js:77-97 | the user's profile, or 404 |
| UserController.UserStore.UpdateUserProfile | backend/src/controllers/userController.js:102-131 | 404 for a missing user; otherwise as `UserDocument.UpdateProfile` |
| UserController.UserStore.AddUserAddress | backend/src/controllers/userController.js:136-169 | 404 for a missing user; otherwise 201 and the addresses become `WithAddress` of the old ones; name, email, phone, password and wishlist unchanged |
| UserController.UserStore.AddToWishlist | backend/src/controllers/userController.js:174-196 | 404 for a missing user; otherwise as `UserDocument.AddToWishlist`: 400 with the wishlist unchanged for a listed product, else 201 and it is appended; name, email, phone, password and addresses unchanged |
| UserController.UserStore.RemoveFromWishlist | backend/src/controllers/userController.js:201-221 | 404 for a missing user; otherwise 200, also for an unlisted product, with every copy removed; name, email, phone, password and addresses unchanged |
| AuthContext.MockLoginUser | main_Frontend/src/context/AuthContext.tsx:68-86 | the logged-in user carries the given email, role "user" and one address, which is the default |
| AuthContext.MockRegisteredUser | main_Frontend/src/context/AuthContext.tsx:115-122 | the registered user carries the given name and email, role "user", no phone and no addresses |
| AuthContext.Patched | main_Frontend/src/context/AuthContext.tsx:161 | an empty patch changes nothing; a patch without email and role keeps them (per-field laws: `PatchLaws`) |
| AuthContext.PatchLaws | main_Frontend/src/context/AuthContext.tsx:161 | for each of the seven fields, a present field takes the patch's value and an absent one keeps the user's; an empty patch changes nothing; a patch twice equals once; two patches compose into one |
| AuthContext.WithNewAddress | main_Frontend/src/context/AuthContext.tsx:194-212 | the user's addresses become `WithAddress` of the old ones, an absent list counting as empty, and nothing else changes |
| AuthContext.NewAddressKeepsOneDefault | main_Frontend/src/context/AuthContext.tsx:199-207 | at most one default address is kept, and a new default is the only one |
| AuthContext.AuthSession.constructor | main_Frontend/src/context/AuthContext.tsx:42-48 | the session starts with the stored user, not loading and without error |
| AuthContext.AuthSession.Login | main_Frontend/src/context/AuthContext.tsx:51-95 | the user becomes the mock user with the given email; loading ends false without error |
| AuthContext.AuthSession.Register | main_Frontend/src/context/AuthContext.tsx:98-131 | the user becomes the mock registered user; loading ends false without error |
| AuthContext.AuthSession.Logout | main_Frontend/src/context/AuthContext.tsx:134-137 | the user becomes absent |
| AuthContext.AuthSession.UpdateUserProfile | main_Frontend/src/context/AuthContext.tsx:140-170 | with a user, the patch is spread over it; without one, nothing changes |
| AuthContext.AuthSession.AddAddress | main_Frontend/src/context/AuthContext.tsx:173-222 | with a user, the address book becomes `WithNewAddress`; without one, nothing changes |
| FaqPage.FilteredFaqs | main_Frontend/src/pages/FAQ.tsx:66-68 | "all" yields every item; any other category yields exactly that category's items, each as often as it occurs |
| FaqPage.FilteredFaqsInOrder | main_Frontend/src/pages/FAQ.tsx:66-68 | the shown items keep their original order |
| FaqPage.Toggle | main_Frontend/src/pages/FAQ.tsx:70-76 | an expanded index is removed without adding anything; a collapsed one is appended (further: `ToggleFlipsOnlyIndex`, `ToggleTwice`) |
| FaqPage.ToggleFlipsOnlyIndex | main_Frontend/src/pages/FAQ.tsx:70-76 | a toggle flips the membership of the index and of no other |
| FaqPage.ToggleTwice | main_Frontend/src/pages/FAQ.tsx:71-75 | toggling twice restores the expanded set, and the very list when the index was collapsed |
| FaqPage.ToggleKeepsNoDuplicates | main_Frontend/src/pages/FAQ.tsx:71-75 | a duplicate-free list stays duplicate-free |
| CombosPage.FilteredCombos | main_Frontend/src/pages/Combos.tsx:68-72 | a combo is kept iff its lowercased name contains the lowercased query and the category check passes, as often as it occurs in the input |
| CombosPage.FilteredCombosInOrder | main_Frontend/src/pages/Combos.tsx:68 | the result is a subsequence of the combos in their order |
| CombosPage.KeptNameHoldsBoth | main_Frontend/src/pages/Combos.tsx:69-70 | a kept combo's name contains the query and, unless the category is "All", the category, at some position |
| CombosPage.AllDisablesCategory | main_Frontend/src/pages/Combos.tsx:69-70 | with "All" only the search applies, and an empty search then keeps every combo |
| CombosPage.SearchIgnoresCase | main_Frontend/src/pages/Combos.tsx:69 | a query and its lowercase keep the same combos |
| LoginPage.Toggled | main_Frontend/src/pages/Login.tsx:64-67 | the toggle always switches tab and clears the sent OTP |
| LoginPage.Submitted | main_Frontend/src/pages/Login.tsx:28-62 | email mode logs in with the typed credentials; phone mode first only marks the OTP as sent, then logs in as `<phone>@example.com` iff the OTP is "123456"; the tab/OTP consistency is kept |
| LoginPage.SubmitLabel | main_Frontend/src/pages/Login.tsx:203 | "Loading..." exactly while loading, otherwise "Verify OTP" once an OTP was sent (further: `LabelNamesNextStep`) |
| LoginPage.LabelNamesNextStep | main_Frontend/src/pages/Login.tsx:203 | the label is "Login", "Send OTP" or "Verify OTP" exactly in the state whose next submit does that |
| LoginPage.PhoneLoginTakesTwoSubmits | main_Frontend/src/pages/Login.tsx:41-56 | a phone login needs two submits: the first attempts nothing, the second logs in |
| LoginPage.ToggleTwice | main_Frontend/src/pages/Login.tsx:64-67 | toggling twice returns to the same tab with no OTP outstanding |
| LoginPage.LoginForm.ToggleLoginMethod | main_Frontend/src/pages/Login.tsx:64-67 | the form's state becomes `Toggled` of the old one |
| LoginPage.LoginForm.HandleSubmit | main_Frontend/src/pages/Login.tsx:28-62 | the form's state and the login attempt are those of `Submitted` |

## Left out

- Browser storage: loading and saving the cart and the user in
  `localStorage`, with the JSON (de)serialisation. Only the state
  transitions are modelled; the stored user is a constructor parameter.
- Mongoose and Express: `find`, `save`, `deleteOne`,
  `countDocuments`, and the response bodies. Collections are maps, and a
  response is its status plus, where it matters, the returned value.
- The MongoDB query language:
  - the keyword match is the `nameMatches` parameter, standing for the
    case-insensitive regular expression;
  - the sort on `createdAt` is the catalogue's given newest-first order.
- ProductController.PageNumber: a non-integer page such as "2.5" is not
  modelled; pages are integers or absent.
- ProductController.BuildFilter: a non-numeric `minPrice` or `maxPrice`
  such as "abc" puts `NaN` into the price filter. This is not modelled:
  the price bounds are integers or absent.
- AuthContext.Patched: a `Partial<User>` that carries `id`, `name`,
  `email`, `role` or `token` explicitly as `undefined` is not modelled.
  The spread would copy that `undefined` over the user's value; the
  model's patch can only omit these fields.
- Text: lowercasing is ASCII-only and `includes` is a substring
  search. Unicode case mapping is not modelled.
- Schema `trim` on the product name is not modelled: a name of
  spaces counts as non-empty.
- ProductController.NewProduct: Mongoose's casting of wrongly typed
  fields is not modelled. The body's fields have their schema types.
- The user schema is not part of this model. Password hashing and
  `matchPassword` are the `passwordMatches` parameter. No user
  validation on save is modelled, and whether `updateUserProfile` may
  repeat another user's email is left open.
- The cart schema is not part of this model. A cart save is assumed to
  succeed.
- `jwt.sign` tokens, and `Date.now()` address ids: the ids are parameters.
- Concurrency: the server's unlocked read-modify-write of a cart, and the
  ordering of awaits and `setLoading` in the client. Each operation is one
  atomic step.
- Floating point: the tax, the discount and the average rating are exact
  reals. The model makes no rounding claims and leaves out `toFixed`
  display.
- Object aliasing: `addAddress` on the client mutates the address objects
  it shares with the previous user value. It is modelled as a value
  update.
- The UI around the modelled logic is left out:
  - toasts, navigation and animation;
  - Checkout.tsx, which repeats the cart page's summary formula on mock
    items;
  - OutfitCombo.tsx;
  - the static pages.
- Reducer actions outside the four action types cannot be written in the
  model's action type, so the reducer's default branch does not appear.
- `item.size || ''` on the cart page is the identity for the string-typed
  sizes and colours the model uses.
