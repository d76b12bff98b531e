/**
 * Shipping, discount and order total as functions of the subtotal and the applied
 * coupon code, and the decision applyCoupon makes on a typed code.
 */
module Pricing {

  import opened Wrappers
  import opened Coupons
  import opened LineItems

  /** calculateShipping: free with the free-shipping coupon or from the threshold on, the flat rate otherwise. */
  function Shipping(applied: Option<string>, subtotal: int): (r: int)
    ensures r == 0 || r == ShippingRate
    ensures r == 0 <==> IsFreeShipping(applied) || subtotal >= FreeShippingThreshold
  {
    if IsFreeShipping(applied) then 0
    else if subtotal >= FreeShippingThreshold then 0
    else ShippingRate
  }

  /**
   * calculateDiscount: 0 without a catalog coupon or below its minimum order;
   * otherwise the floor of the percentage, the fixed amount capped at the
   * subtotal, or the shipping rate for the free-shipping coupon.
   */
  function Discount(applied: Option<string>, subtotal: int): (r: int)
    ensures CouponOf(applied).None? ==> r == 0
    ensures CouponOf(applied).Some? && subtotal < CouponOf(applied).value.minOrder ==> r == 0
    ensures CouponOf(applied).Some? && subtotal >= CouponOf(applied).value.minOrder ==>
      var c := CouponOf(applied).value;
      (c.kind == Percentage ==> r * 100 <= subtotal * c.value < r * 100 + 100) &&
      (c.kind == Fixed ==> r <= c.value && r <= subtotal && (r == c.value || r == subtotal)) &&
      (c.kind == FreeShipping ==> r == ShippingRate)
  {
    match CouponOf(applied)
    case None => 0
    case Some(c) =>
      if subtotal < c.minOrder then 0
      else match c.kind
        case Percentage => subtotal * c.value / 100
        case Fixed => if c.value < subtotal then c.value else subtotal
        case FreeShipping => ShippingRate
  }

  /** A discount is never negative: below every coupon's minimum order it is 0, and from there on it is positive. */
  lemma DiscountNonNegative(applied: Option<string>, subtotal: int)
    ensures Discount(applied, subtotal) >= 0
  {
    if CouponOf(applied).Some? {
      CatalogShape(applied.value);
    }
  }

  /**
   * The order total of the cart summary: subtotal plus shipping minus discount,
   * not clamped. A coupon can only lower it, and without an effective coupon it
   * is subtotal plus shipping.
   */
  function Total(applied: Option<string>, subtotal: int): (r: int)
    ensures r <= subtotal + Shipping(applied, subtotal)
    ensures CouponOf(applied).None? || subtotal < CouponOf(applied).value.minOrder ==>
              r == subtotal + Shipping(applied, subtotal)
  {
    DiscountNonNegative(applied, subtotal);
    subtotal + Shipping(applied, subtotal) - Discount(applied, subtotal)
  }

  /** With no coupon, a percentage or a fixed coupon, the discount lies between 0 and the subtotal. */
  lemma DiscountWithinSubtotal(applied: Option<string>, subtotal: int)
    requires subtotal >= 0 && !IsFreeShipping(applied)
    ensures 0 <= Discount(applied, subtotal) <= subtotal
  {
    var d := Discount(applied, subtotal);
    if CouponOf(applied).Some? && subtotal >= CouponOf(applied).value.minOrder {
      var c := CouponOf(applied).value;
      CatalogShape(applied.value);
      if c.kind == Percentage {
        assert 0 <= subtotal * c.value <= subtotal * 100;
        assert d * 100 <= subtotal * 100;
        assert d * 100 > -100;
      }
    }
  }

  /**
   * Without the free-shipping coupon the total of a cart with non-negative lines
   * is never below the shipping charge, and so never negative.
   */
  lemma TotalAtLeastShipping(items: seq<Item>, applied: Option<string>)
    requires NonNegative(items) && !IsFreeShipping(applied)
    ensures Total(applied, Subtotal(items)) >= Shipping(applied, Subtotal(items)) >= 0
  {
    DiscountWithinSubtotal(applied, Subtotal(items));
  }

  /**
   * With the free-shipping coupon the shipping is waived AND the shipping rate is
   * subtracted again as a discount once the subtotal reaches the coupon's minimum
   * order of 1, so the total is the subtotal minus 99.
   */
  lemma FreeShippingTotal(applied: Option<string>, subtotal: int)
    requires IsFreeShipping(applied)
    ensures Shipping(applied, subtotal) == 0
    ensures subtotal >= 1 ==> Total(applied, subtotal) == subtotal - ShippingRate
    ensures subtotal < 1 ==> Total(applied, subtotal) == subtotal
  {
    CatalogShape(applied.value);
  }

  /** So a free-shipping order of 50 totals -49: the total can be negative. */
  lemma FreeShippingTotalCanBeNegative()
    ensures Total(Some("FREESHIP"), 50) == -49
  {
    FreeShippingTotal(Some("FREESHIP"), 50);
  }

  /**
   * The bound above needs non-negative lines: adding -1 of a product priced 100
   * to an empty cart (nothing stops it) gives a subtotal of -100 and, with no
   * coupon, a total of -1, below the shipping charge of 99.
   */
  lemma NegativeQuantityTotalBelowShipping(p: Product, addedAt: string)
    requires p.price == 100
    ensures var s := Subtotal(Added([], p, -1, addedAt));
      s == -100 && Shipping(None, s) == 99 && Total(None, s) == -1
  {
    var r := Added([], p, -1, addedAt);
    assert r == [NewItem(p, -1, addedAt)];
    assert Subtotal(r) == Subtotal(r[..0]) + 100 * -1;
  }

  /** The free-shipping threshold is inclusive: 699 ships free, 698 pays the flat rate. */
  lemma FreeShippingThresholdInclusive()
    ensures Shipping(None, 699) == 0 && Shipping(None, 698) == 99
  {
  }

  // ---------------------------------------------------------------------------
  // applyCoupon
  // ---------------------------------------------------------------------------

  /** The outcomes of applyCoupon; a success carries the normalised code and the discount it gives now. */
  datatype ApplyResult =
    | Applied(code: string, discount: int, description: string)
    | InvalidCoupon
    | MinimumOrderNotMet(minOrder: int)
    | AlreadyApplied

  /**
   * applyCoupon's decision: the code is upper-cased, then tested in a fixed order:
   * not in the catalog, subtotal below the minimum order, already the applied code.
   */
  function CheckCoupon(couponCode: string, subtotal: int, applied: Option<string>): (r: ApplyResult)
    ensures var code := UpperCase(couponCode);
      (r.InvalidCoupon? <==> code !in Catalog) &&
      (r.MinimumOrderNotMet? <==> code in Catalog && subtotal < Catalog[code].minOrder) &&
      (r.AlreadyApplied? <==> code in Catalog && subtotal >= Catalog[code].minOrder && applied == Some(code)) &&
      (r.Applied? <==> code in Catalog && subtotal >= Catalog[code].minOrder && applied != Some(code))
    ensures r.MinimumOrderNotMet? ==> r.minOrder == Catalog[UpperCase(couponCode)].minOrder
    ensures r.Applied? ==> r.code == UpperCase(couponCode) && r.discount == Discount(Some(r.code), subtotal)
    ensures r.Applied? ==> r.description == Catalog[r.code].description
  {
    var code := UpperCase(couponCode);
    if code !in Catalog then InvalidCoupon
    else
      var coupon := Catalog[code];
      if subtotal < coupon.minOrder then MinimumOrderNotMet(coupon.minOrder)
      else if applied == Some(code) then AlreadyApplied
      else Applied(code, Discount(Some(code), subtotal), coupon.description)
  }

  /** A coupon that applies always gives a discount of at least one rupee at that moment. */
  lemma AppliedDiscountPositive(couponCode: string, subtotal: int, applied: Option<string>)
    requires CheckCoupon(couponCode, subtotal, applied).Applied?
    ensures CheckCoupon(couponCode, subtotal, applied).discount >= 1
  {
    var code := UpperCase(couponCode);
    var c := Catalog[code];
    CatalogShape(code);
    if c.kind == Percentage {
      var d := Discount(Some(code), subtotal);
      assert subtotal >= 500;
      assert subtotal * c.value >= 5000;
      assert d * 100 + 100 > 5000;
    }
  }

  /** Lower-case input is accepted: "save10" on 500 gives 50, and on 499 fails on the minimum order. */
  lemma Save10Example()
    ensures CheckCoupon("save10", 500, None) == Applied("SAVE10", 50, Catalog["SAVE10"].description)
    ensures CheckCoupon("save10", 499, None) == MinimumOrderNotMet(500)
  {
    assert UpperCase("save10") == "SAVE10";
  }
}
