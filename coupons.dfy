/**
 * The fixed coupon catalog of the cart, the two shipping constants, and the
 * upper-casing that turns a typed coupon code into a catalog key.
 */
module Coupons {

  import opened Wrappers

  /** The three coupon types the catalog uses ('percentage', 'fixed', 'free_shipping'). */
  datatype Kind = Percentage | Fixed | FreeShipping

  /** A catalog entry; amounts are whole rupees. */
  datatype Coupon = Coupon(kind: Kind, value: int, minOrder: int, description: string)

  /** Flat shipping charge. */
  const ShippingRate: int := 99

  /** Subtotal from which shipping is free without any coupon. */
  const FreeShippingThreshold: int := 699

  /** The five coupons, keyed by their upper-case codes. */
  const Catalog: map<string, Coupon> := map[
    "SAVE10" := Coupon(Percentage, 10, 500, "10% off on orders above ₹500"),
    "FLAT50" := Coupon(Fixed, 50, 300, "₹50 off on orders above ₹300"),
    "WELCOME20" := Coupon(Percentage, 20, 1000, "20% off on orders above ₹1000"),
    "FREESHIP" := Coupon(FreeShipping, 0, 1, "Free shipping on any order"),
    "NEWBIE15" := Coupon(Percentage, 15, 799, "15% off for new customers")
  ]

  /** The catalog entry an exact code names, if any (a plain property lookup, no case folding). */
  function CouponOf(code: Option<string>): (c: Option<Coupon>)
    ensures c.Some? <==> code.Some? && code.value in Catalog
    ensures c.Some? ==> c.value == Catalog[code.value]
  {
    if code.Some? && code.value in Catalog then Some(Catalog[code.value]) else None
  }

  /** True when the code names the catalog's free-shipping coupon. */
  predicate IsFreeShipping(code: Option<string>)
  {
    CouponOf(code).Some? && CouponOf(code).value.kind == FreeShipping
  }

  /** Upper-case of one character; only the ASCII letters a-z change. */
  function UpperChar(c: char): (u: char)
    ensures 'a' <= c <= 'z' ==> 'A' <= u <= 'Z' && u as int - c as int == 'A' as int - 'a' as int
    ensures !('a' <= c <= 'z') ==> u == c
    ensures !('a' <= u <= 'z')
  {
    if 'a' <= c <= 'z' then (c as int - 'a' as int + 'A' as int) as char else c
  }

  /** Upper-case of a code, character by character. */
  function UpperCase(s: string): (u: string)
    ensures |u| == |s|
    ensures forall i :: 0 <= i < |s| ==> u[i] == UpperChar(s[i])
  {
    seq(|s|, i requires 0 <= i < |s| => UpperChar(s[i]))
  }

  /** A code without lower-case ASCII letters. */
  predicate IsUpper(s: string)
  {
    forall i :: 0 <= i < |s| ==> !('a' <= s[i] <= 'z')
  }

  /** Upper-casing leaves no lower-case letter, and changes nothing in a code that has none. */
  lemma UpperCaseNormalizes(s: string)
    ensures IsUpper(UpperCase(s))
    ensures IsUpper(s) ==> UpperCase(s) == s
    ensures UpperCase(UpperCase(s)) == UpperCase(s)
  {
    var u := UpperCase(s);
    if IsUpper(s) {
      assert forall i :: 0 <= i < |s| ==> u[i] == s[i];
    }
    assert forall i :: 0 <= i < |u| ==> UpperCase(u)[i] == u[i];
  }

  /** Catalog facts that the pricing bounds rely on. */
  lemma CatalogShape(code: string)
    requires code in Catalog
    ensures IsUpper(code)
    ensures Catalog[code].minOrder >= 1
    ensures Catalog[code].kind == Percentage ==> 10 <= Catalog[code].value <= 20
    ensures Catalog[code].kind == Fixed ==> Catalog[code].value == 50
    ensures Catalog[code].kind == FreeShipping ==> code == "FREESHIP"
  {
  }
}
