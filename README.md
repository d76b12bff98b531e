# Cart and pricing engine of the Embroidery storefront, in Dafny

This project models `CartManager` from `scripts/utils/cart.js`: the client-side
shopping cart of a small storefront. A cart is an ordered list of line items
(`{id, price, quantity, …}`) plus at most one applied coupon code from a fixed
five-entry catalog. Prices are whole rupees. Shipping is a flat 99, free from a
subtotal of 699 or with the free-shipping coupon. A coupon gives a percentage
(rounded down), a fixed amount capped at the subtotal, or the shipping rate. The
cart and the coupon code are kept in the browser's durable key-value store under
the keys `'cart'` and `'appliedCoupon'`. Every open tab of the site shares that
store. A change to `'cart'` made by one tab is reloaded by the others.

Files:

- `wrappers.dfy`: the `Option` datatype.
- `coupons.dfy`: the catalog, the shipping constants and the upper-casing of typed codes.
- `line_items.dfy`: items, `findIndex`, the sums behind `getCartCount` and
  `getCartTotal`, and the add/remove/update edits as functions on the item
  sequence, with what they preserve.
- `pricing.dfy`: shipping, discount, the summary total, and the decision `applyCoupon` makes.
- `storage.dfy`: the durable store as a class over a map, and how the cart and
  the coupon are read back from it.
- `cart.dfy`: the `CartManager` class. Its methods change `cart`, `appliedCoupon`
  and the store. Each one's `ensures` ties the new state to the functions above.
  It also has the storage listener and a two-tab client showing convergence.

Behaviour pinned as the code has it:

- The total `subtotal + shipping - discount` can be negative. The free-shipping
  coupon waives shipping and also reports the shipping rate as a discount. A
  subtotal of 50 with `FREESHIP` totals -49 (`Pricing.FreeShippingTotalCanBeNegative`).
  Without that coupon, and for a cart whose prices and quantities are
  non-negative, the total is never below the shipping charge
  (`Pricing.TotalAtLeastShipping`). Negative quantities break that bound too:
  adding -1 of a product priced 100 to an empty cart gives a total of -1
  (`Pricing.NegativeQuantityTotalBelowShipping`).
- `addToCart` does not check the quantity. Adding 0 or a negative amount of a
  new product appends a line with that quantity, and adding it to a present
  product keeps the line with the lowered quantity, even at 0 or below
  (`LineItems.AddedWithoutQuantityGuard`). `updateQuantity` removes a line
  at 0 or below and otherwise sets the given quantity, so it never sets a
  quantity below one, and from a cart whose quantities are all at least one it
  never leaves a line below one.
- Removing items never drops the coupon. Its discount just becomes 0 below the
  coupon's minimum order.
- `applyCoupon` tests the minimum order before "already applied". Re-applying the
  current code on a cart that has fallen below its minimum reports the minimum-order failure.
- Ids are not assumed unique. `find`/`findIndex` take the first match. Add,
  remove and update are proved to keep ids unique when they were. Removing the
  same id twice is a no-op only under that invariant.

## Model

| member | source | states |
|---|---|---|
| `Coupons.CatalogShape` | scripts/utils/cart.js:6-12 | every catalog code is upper-case; minimum orders are at least 1; percentages are 10 to 20; the fixed coupon is 50; only FREESHIP waives shipping |
| `Coupons.UpperCase` | scripts/utils/cart.js:119 | same length as the typed code, each character upper-cased |
| `Coupons.UpperCaseNormalizes` | scripts/utils/cart.js:119 | the result has no lower-case letter, upper-casing is idempotent and leaves an upper-case code unchanged |
| `LineItems.FindIndex` | scripts/utils/cart.js:55 | -1 exactly when no line has the id; otherwise the index of the first line with it |
| `LineItems.Count` | scripts/utils/cart.js:80-82 | 0 for an empty cart; never negative when every quantity is non-negative |
| `LineItems.Subtotal` | scripts/utils/cart.js:84-86 | 0 for an empty cart; never negative when prices and quantities are non-negative |
| `LineItems.Added` | scripts/utils/cart.js:36-47 | a known id: same length, only that line's quantity grows by the added amount; a new id: the old lines then one new line at the end |
| `LineItems.AddedKeepsIdsUnique` | scripts/utils/cart.js:37-46 | adding never creates a second line for an id |
| `LineItems.AddedCount` | scripts/utils/cart.js:39-46 | the item count grows by exactly the added quantity |
| `LineItems.AddedSubtotal` | scripts/utils/cart.js:39-46 | the subtotal grows by quantity times the price of the line it lands on, which is the cart's old price for a known id |
| `LineItems.AddedKeepsPositive` | scripts/utils/cart.js:40-44 | adding at least one keeps every quantity at least one |
| `LineItems.AddedWithoutQuantityGuard` | scripts/utils/cart.js:39-46 | for any cart and any quantity of 0 or less: a new product is appended with that quantity, so not every quantity is positive; a present product keeps its line with the old quantity plus the added one, and if that is below 1 not every quantity is positive |
| `LineItems.RemovedAt` | scripts/utils/cart.js:58 | one line shorter, lines before and after kept in order, the multiset loses exactly that line |
| `LineItems.RemoveFirst` | scripts/utils/cart.js:54-64 | an absent id changes nothing; otherwise exactly the first matching line is spliced out |
| `LineItems.RemoveFirstRemovesId` | scripts/utils/cart.js:54-64 | with unique ids, no line with the id is left and ids stay unique |
| `LineItems.RemoveFirstIdempotent` | scripts/utils/cart.js:54-64 | with unique ids, a second removal of the same id changes nothing |
| `LineItems.RemoveFirstTotals` | scripts/utils/cart.js:55-58 | removal takes exactly the line's quantity off the count and its price times quantity off the subtotal |
| `LineItems.RemoveFirstKeepsPositive` | scripts/utils/cart.js:58 | removal keeps the remaining quantities at least one |
| `LineItems.Updated` | scripts/utils/cart.js:66-78 | absent id: unchanged; quantity 0 or below: the line is removed; otherwise only that line's quantity is replaced |
| `LineItems.UpdatedKeepsIdsUnique` | scripts/utils/cart.js:66-78 | updating keeps ids unique |
| `LineItems.UpdatedKeepsPositive` | scripts/utils/cart.js:69-72 | from a cart whose quantities are all at least one, no update leaves a line below one, whatever the quantity given |
| `LineItems.UpdatedTotals` | scripts/utils/cart.js:72 | a positive update replaces the line's old quantity by the new one in the count, and its old price-times-quantity by the new one (same price, new quantity) in the subtotal |
| `Pricing.Shipping` | scripts/utils/cart.js:88-93 | 0 or 99, and 0 exactly when the free-shipping coupon is applied or the subtotal is at least 699 |
| `Pricing.Total` | scripts/utils/cart.js:244 | subtotal plus shipping minus discount: never above subtotal plus shipping, and equal to it with no catalog coupon or below the coupon's minimum order |
| `Pricing.DiscountNonNegative` | scripts/utils/cart.js:95-116 | the discount is never negative, for any code and any subtotal |
| `Pricing.NegativeQuantityTotalBelowShipping` | scripts/utils/cart.js:40-44 | adding -1 of a product priced 100 to an empty cart gives a subtotal of -100, shipping 99 and a total of -1 |
| `Pricing.FreeShippingThresholdInclusive` | scripts/utils/cart.js:92 | with no coupon 699 ships free and 698 pays 99 |
| `Pricing.Discount` | scripts/utils/cart.js:95-116 | 0 with no catalog coupon or below its minimum order; otherwise the floor of subtotal times percentage over 100, the smaller of the fixed value and the subtotal, or 99 for free shipping |
| `Pricing.DiscountWithinSubtotal` | scripts/utils/cart.js:102-110 | without the free-shipping coupon the discount is between 0 and a non-negative subtotal |
| `Pricing.TotalAtLeastShipping` | scripts/utils/cart.js:241-244 | without the free-shipping coupon, for a cart whose prices and quantities are non-negative, total is at least shipping, which is at least 0 |
| `Pricing.FreeShippingTotal` | scripts/utils/cart.js:241-244 | with the free-shipping coupon, shipping is 0 and the total is subtotal minus 99 from a subtotal of 1 |
| `Pricing.FreeShippingTotalCanBeNegative` | scripts/utils/cart.js:244 | a free-shipping order of 50 totals -49 |
| `Pricing.CheckCoupon` | scripts/utils/cart.js:118-146 | after upper-casing: unknown code, then below minimum order, then already applied, each exactly when its condition holds and the earlier ones do not; success carries the upper-case code, the discount it gives on the subtotal and that coupon's catalog description |
| `Pricing.AppliedDiscountPositive` | scripts/utils/cart.js:138-145 | a successful application always gives a discount of at least 1 |
| `Pricing.Save10Example` | scripts/utils/cart.js:118-136 | "save10" succeeds on 500 with a discount of 50 and fails on 499 with minimum order 500 |
| `Storage.DurableStore.GetItem` | scripts/utils/cart.js:26 | the entry under the key, or none |
| `Storage.DurableStore.SetItem` | scripts/utils/cart.js:31 | replaces the key's entry, nothing else |
| `Storage.DurableStore.RemoveItem` | scripts/utils/cart.js:157-158 | deletes the key's entry, nothing else |
| `Storage.StoredCart` | scripts/utils/cart.js:25-28 | an absent 'cart' entry loads as an empty cart |
| `Storage.StoredCoupon` | scripts/utils/cart.js:445-448 | a stored code is restored exactly when it is a catalog key, and the restored code is the stored text itself |
| `Storage.CartRoundTrip` | scripts/utils/cart.js:25-31 | saving a cart then loading it gives the same items in the same order |
| `Storage.CouponKeyLeavesCart` | scripts/utils/cart.js:139 | writing or removing the coupon key does not change the loaded cart |
| `Cart.CartManager.constructor` | scripts/utils/cart.js:4-18 | the cart is the stored cart, the coupon is the restored one, the cart is persisted and the coupon is a catalog key |
| `Cart.CartManager.LoadCart` | scripts/utils/cart.js:25-28 | returns the stored cart |
| `Cart.CartManager.RestoreCoupon` | scripts/utils/cart.js:444-448 | takes the stored code only when it is a catalog key; the cart is unchanged |
| `Cart.CartManager.SaveCart` | scripts/utils/cart.js:30-31 | the store holds the whole cart under 'cart', other keys unchanged |
| `Cart.CartManager.AddToCart` | scripts/utils/cart.js:36-52 | returns true; the new cart is `Added` of the old one; the coupon is kept; the cart is saved |
| `Cart.CartManager.RemoveFromCart` | scripts/utils/cart.js:54-64 | true exactly when the id was present; the new cart is `RemoveFirst` of the old one; saved only on removal; the coupon is kept |
| `Cart.CartManager.UpdateQuantity` | scripts/utils/cart.js:66-78 | true exactly when the id was present; the new cart is `Updated` of the old one; saved only then; the coupon is kept |
| `Cart.CartManager.ApplyCoupon` | scripts/utils/cart.js:118-146 | returns `CheckCoupon` on the typed code, the cart's subtotal and the old coupon; only a success changes the coupon and stores it; the cart is unchanged |
| `Cart.CartManager.RemoveCoupon` | scripts/utils/cart.js:148-152 | no coupon and no coupon key afterwards whatever was there before, so a second call changes nothing |
| `Cart.CartManager.ClearCart` | scripts/utils/cart.js:154-161 | empty cart, no coupon, both keys removed |
| `Cart.CartManager.OnStorageEvent` | scripts/utils/cart.js:450-456 | a 'cart' event replaces the in-memory cart with the stored one; other keys change nothing; the coupon is never touched |
| `Cart.TabsConverge` | scripts/utils/cart.js:451-455 | when one tab's cart is persisted, delivering the 'cart' event to another tab on the same store makes their carts equal |
| `Cart.AddInOneTabThenSync` | scripts/utils/cart.js:36-49 | one tab adds a product, the other receives the event: both hold the same cart, the old cart with the product added |

## Left out

- Rendering and DOM work (`updateCartDisplay`, `updateCartBadge`, `renderCartPage`, `renderCartItem`, the markup of `renderCartSummary`, `renderEmptyCart`, `attachCartEventListeners`): user interface. Only the arithmetic at lines 241-244 is kept, as `Pricing.Total`.
- `showNotification` and `showCouponMessage`: user interface with timers. `applyCoupon` returns an `ApplyResult` kind instead of a message string. A success carries the coupon's description, and a minimum-order failure carries the minimum order that the message shows.
- `JSON.stringify`/`JSON.parse` and the real `localStorage`: the store holds the item list itself. A `'cart'` entry that is text rather than a serialized list is read as an empty cart. The parse that the browser would attempt on it is not modelled.
- The `addedAt` timestamp (`new Date()`): a parameter of `AddToCart`. The default quantity of 1 is not modelled either: callers pass the quantity.
- Extra product fields copied by the object spread: a product is `{id, name, price, image, category}`. Line items are values, so item-object identity is not modelled.
- Floating point: prices, quantities and amounts are integers. `Math.floor` of the percentage is integer division by 100, which rounds down for a positive divisor.
- `toUpperCase` changes only ASCII a-z here. Unicode case mappings of other characters are not modelled.
- Property lookup on the coupon object is an own-key lookup in a map. Keys inherited from `Object.prototype` are not modelled. The `default` branch of the discount switch cannot be reached, because the catalog has exactly three coupon types.
- Event dispatch: the browser delivers `'storage'` events asynchronously to other tabs. Here the listener is a method (`OnStorageEvent`) that a client calls.
- `scripts/components/loader.js`: fetch-based HTML-fragment loading with polling and promises. This is network input/output and concurrency.
- `config/supabase.js`: wrappers over an external database client. This is network input/output into a library that is not part of this model.
