/**
 * The browser's durable key-value store, shared by every open tab, and how the
 * cart reads its two keys back from it.
 */
module Storage {

  import opened Wrappers
  import opened Coupons
  import opened LineItems

  /** A stored value: a serialized item list, or plain text such as a coupon code. */
  datatype Value = ItemList(items: seq<Item>) | Text(text: string)

  const CartKey: string := "cart"
  const CouponKey: string := "appliedCoupon"

  /** The store itself; writes replace or delete whole entries. */
  class DurableStore {
    var entries: map<string, Value>

    constructor ()
      ensures entries == map[]
    {
      entries := map[];
    }

    method GetItem(key: string) returns (v: Option<Value>)
      ensures v.Some? <==> key in entries
      ensures v.Some? ==> v.value == entries[key]
    {
      v := if key in entries then Some(entries[key]) else None;
    }

    method SetItem(key: string, v: Value)
      modifies this
      ensures entries == old(entries)[key := v]
    {
      entries := entries[key := v];
    }

    method RemoveItem(key: string)
      modifies this
      ensures entries == old(entries) - {key}
    {
      entries := entries - {key};
    }
  }

  /** loadCart: the stored item list, or an empty cart when nothing is stored under 'cart'. */
  function StoredCart(entries: map<string, Value>): (items: seq<Item>)
    ensures CartKey !in entries ==> items == []
  {
    if CartKey in entries && entries[CartKey].ItemList? then entries[CartKey].items else []
  }

  /** The start-up coupon restore: the stored code when it is a catalog key, otherwise none. */
  function StoredCoupon(entries: map<string, Value>): (code: Option<string>)
    ensures code.Some? ==> code.value in Catalog
    ensures code.Some? <==> CouponKey in entries && entries[CouponKey].Text? && entries[CouponKey].text in Catalog
    ensures code.Some? ==> code.value == entries[CouponKey].text
  {
    if CouponKey in entries && entries[CouponKey].Text? && entries[CouponKey].text != ""
       && entries[CouponKey].text in Catalog
    then Some(entries[CouponKey].text)
    else None
  }

  /** saveCart then loadCart gives back the same items in the same order. */
  lemma CartRoundTrip(entries: map<string, Value>, items: seq<Item>)
    ensures StoredCart(entries[CartKey := ItemList(items)]) == items
  {
  }

  /** Writing or removing the coupon key does not change what loadCart reads. */
  lemma CouponKeyLeavesCart(entries: map<string, Value>, v: Value)
    ensures StoredCart(entries[CouponKey := v]) == StoredCart(entries)
    ensures StoredCart(entries - {CouponKey}) == StoredCart(entries)
  {
  }
}
