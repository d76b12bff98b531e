/**
 * CartManager: the in-memory cart of one tab, its applied coupon, and the
 * durable store it shares with the other tabs.
 */
module Cart {

  import opened Wrappers
  import opened Coupons
  import opened LineItems
  import opened Pricing
  import opened Storage

  class CartManager {
    /** The line items, in insertion order. */
    var cart: seq<Item>
    /** The code of the applied coupon, if any. */
    var appliedCoupon: Option<string>
    /** The store shared with every other tab. */
    const storage: DurableStore

    /** The in-memory cart is what the store holds under 'cart'. */
    ghost predicate Persisted()
      reads this, storage
    {
      StoredCart(storage.entries) == cart
    }

    /** The applied coupon, if any, is a catalog key. */
    ghost predicate CouponInCatalog()
      reads this
    {
      appliedCoupon.Some? ==> appliedCoupon.value in Catalog
    }

    /** Loads the stored cart, then restores a stored coupon code that is a catalog key. */
    constructor (storage: DurableStore)
      ensures this.storage == storage
      ensures cart == StoredCart(storage.entries) && appliedCoupon == StoredCoupon(storage.entries)
      ensures Persisted() && CouponInCatalog()
    {
      this.storage := storage;
      new;
      cart := LoadCart();
      appliedCoupon := None;
      RestoreCoupon();
    }

    /** loadCart: reads the 'cart' entry; an absent or empty entry gives an empty cart. */
    method LoadCart() returns (items: seq<Item>)
      ensures items == StoredCart(storage.entries)
    {
      var saved := storage.GetItem(CartKey);
      if saved.Some? && saved.value.ItemList? {
        items := saved.value.items;
      } else {
        items := [];
      }
    }

    /** The coupon part of setupEventListeners: take the stored code only when it names a catalog coupon. */
    method RestoreCoupon()
      modifies this
      ensures cart == old(cart)
      ensures appliedCoupon == if StoredCoupon(storage.entries).Some? then StoredCoupon(storage.entries)
                               else old(appliedCoupon)
    {
      var saved := storage.GetItem(CouponKey);
      if saved.Some? && saved.value.Text? && saved.value.text != "" && saved.value.text in Catalog {
        appliedCoupon := Some(saved.value.text);
      }
    }

    /** saveCart: writes the whole cart under 'cart'. */
    method SaveCart()
      modifies storage
      ensures storage.entries == old(storage.entries)[CartKey := ItemList(cart)]
      ensures Persisted()
    {
      storage.SetItem(CartKey, ItemList(cart));
    }

    /** addToCart: raise the quantity of the matching line, or append a new one; then save. */
    method AddToCart(product: Product, quantity: int, addedAt: string) returns (added: bool)
      modifies this, storage
      ensures added
      ensures cart == Added(old(cart), product, quantity, addedAt)
      ensures appliedCoupon == old(appliedCoupon)
      ensures storage.entries == old(storage.entries)[CartKey := ItemList(cart)]
      ensures Persisted()
    {
      var i := FindIndex(cart, product.id);
      if i >= 0 {
        cart := cart[i := cart[i].(quantity := cart[i].quantity + quantity)];
      } else {
        cart := cart + [NewItem(product, quantity, addedAt)];
      }
      SaveCart();
      added := true;
    }

    /**
     * removeFromCart: splice out the first line with the id and save, reporting
     * whether there was one; the applied coupon is kept either way.
     */
    method RemoveFromCart(productId: int) returns (removed: bool)
      modifies this, storage
      ensures removed <==> FindIndex(old(cart), productId) >= 0
      ensures cart == RemoveFirst(old(cart), productId)
      ensures appliedCoupon == old(appliedCoupon)
      ensures removed ==> storage.entries == old(storage.entries)[CartKey := ItemList(cart)]
      ensures !removed ==> storage.entries == old(storage.entries)
      ensures old(Persisted()) ==> Persisted()
    {
      var i := FindIndex(cart, productId);
      if i > -1 {
        cart := cart[..i] + cart[i + 1..];
        SaveCart();
        removed := true;
      } else {
        removed := false;
      }
    }

    /**
     * updateQuantity: for a present id, remove the line when the quantity is zero
     * or less, otherwise set it and save; report whether the id was present.
     */
    method UpdateQuantity(productId: int, quantity: int) returns (found: bool)
      modifies this, storage
      ensures found <==> FindIndex(old(cart), productId) >= 0
      ensures cart == Updated(old(cart), productId, quantity)
      ensures appliedCoupon == old(appliedCoupon)
      ensures found ==> storage.entries == old(storage.entries)[CartKey := ItemList(cart)]
      ensures !found ==> storage.entries == old(storage.entries)
      ensures old(Persisted()) ==> Persisted()
    {
      var i := FindIndex(cart, productId);
      if i >= 0 {
        if quantity <= 0 {
          var _ := RemoveFromCart(productId);
        } else {
          cart := cart[i := cart[i].(quantity := quantity)];
          SaveCart();
        }
        found := true;
      } else {
        found := false;
      }
    }

    /**
     * applyCoupon: decide on the typed code against the current subtotal; on
     * success record the upper-case code in memory and under 'appliedCoupon'.
     * A failure changes nothing.
     */
    method ApplyCoupon(couponCode: string) returns (result: ApplyResult)
      modifies this, storage
      ensures result == CheckCoupon(couponCode, Subtotal(old(cart)), old(appliedCoupon))
      ensures cart == old(cart)
      ensures result.Applied? ==> appliedCoupon == Some(result.code) &&
                                  storage.entries == old(storage.entries)[CouponKey := Text(result.code)]
      ensures !result.Applied? ==> appliedCoupon == old(appliedCoupon) && storage.entries == old(storage.entries)
      ensures old(CouponInCatalog()) ==> CouponInCatalog()
      ensures old(Persisted()) ==> Persisted()
    {
      var code := UpperCase(couponCode);
      var subtotal := Subtotal(cart);
      if code !in Catalog {
        return InvalidCoupon;
      }
      var coupon := Catalog[code];
      if subtotal < coupon.minOrder {
        return MinimumOrderNotMet(coupon.minOrder);
      }
      if appliedCoupon == Some(code) {
        return AlreadyApplied;
      }
      appliedCoupon := Some(code);
      storage.SetItem(CouponKey, Text(code));
      CouponKeyLeavesCart(old(storage.entries), Text(code));
      result := Applied(code, Discount(appliedCoupon, subtotal), coupon.description);
    }

    /** removeCoupon: no coupon afterwards, whatever was applied before, and the key is gone. */
    method RemoveCoupon()
      modifies this, storage
      ensures cart == old(cart) && appliedCoupon == None
      ensures storage.entries == old(storage.entries) - {CouponKey}
      ensures old(Persisted()) ==> Persisted()
    {
      appliedCoupon := None;
      storage.RemoveItem(CouponKey);
      CouponKeyLeavesCart(old(storage.entries), Text(""));
    }

    /** clearCart: an empty cart, no coupon, and both keys removed from the store. */
    method ClearCart()
      modifies this, storage
      ensures cart == [] && appliedCoupon == None
      ensures storage.entries == old(storage.entries) - {CartKey, CouponKey}
      ensures Persisted()
    {
      cart := [];
      appliedCoupon := None;
      storage.RemoveItem(CartKey);
      storage.RemoveItem(CouponKey);
    }

    /** The storage listener: a change to 'cart' in another tab replaces this tab's cart with the stored one. */
    method OnStorageEvent(key: string)
      modifies this
      ensures key == CartKey ==> cart == StoredCart(storage.entries) && Persisted()
      ensures key != CartKey ==> cart == old(cart)
      ensures appliedCoupon == old(appliedCoupon)
    {
      if key == CartKey {
        cart := LoadCart();
      }
    }
  }

  /**
   * Two tabs over one store: after any operation that left the writer's cart
   * persisted, delivering the 'cart' event to the reader makes both carts equal.
   */
  method TabsConverge(writer: CartManager, reader: CartManager)
    requires writer.storage == reader.storage && writer.Persisted()
    modifies reader
    ensures reader.cart == writer.cart
  {
    reader.OnStorageEvent(CartKey);
  }

  /** For example: one tab adds a product, the other receives the event, and both hold the same cart. */
  method AddInOneTabThenSync(a: CartManager, b: CartManager, p: Product, quantity: int, addedAt: string)
    requires a.storage == b.storage && a != b
    modifies a, b, a.storage
    ensures a.cart == b.cart == Added(old(a.cart), p, quantity, addedAt)
  {
    var _ := a.AddToCart(p, quantity, addedAt);
    TabsConverge(a, b);
  }
}
