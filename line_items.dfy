/**
 * The cart's line items and the list edits behind addToCart, removeFromCart and
 * updateQuantity, as functions on the ordered item sequence, with the sums behind
 * getCartCount and getCartTotal.
 */
module LineItems {

  /** What a caller passes to addToCart. */
  datatype Product = Product(id: int, name: string, price: int, image: string, category: string)

  /** A line of the cart: the product's fields, the quantity and the time it was first added. */
  datatype Item = Item(id: int, name: string, price: int, image: string, category: string,
                       quantity: int, addedAt: string)

  /** The line addToCart appends for a product not yet in the cart. */
  function NewItem(p: Product, quantity: int, addedAt: string): (it: Item)
    ensures it.id == p.id && it.price == p.price && it.quantity == quantity && it.addedAt == addedAt
  {
    Item(p.id, p.name, p.price, p.image, p.category, quantity, addedAt)
  }

  /** The index of the first line with the given id, or -1 (Array.prototype.findIndex). */
  function FindIndex(items: seq<Item>, id: int): (r: int)
    ensures -1 <= r < |items|
    ensures r == -1 <==> forall k :: 0 <= k < |items| ==> items[k].id != id
    ensures r >= 0 ==> items[r].id == id && forall k :: 0 <= k < r ==> items[k].id != id
  {
    if items == [] then -1
    else if items[0].id == id then 0
    else
      var r := FindIndex(items[1..], id);
      assert forall k :: 1 <= k < |items| ==> items[k] == items[1..][k - 1];
      if r < 0 then -1 else r + 1
  }

  /** No two lines share an id. */
  predicate UniqueIds(items: seq<Item>)
  {
    forall i, j :: 0 <= i < j < |items| ==> items[i].id != items[j].id
  }

  /** Every line has a quantity of at least one. */
  predicate PositiveQuantities(items: seq<Item>)
  {
    forall k :: 0 <= k < |items| ==> items[k].quantity >= 1
  }

  /** Every line has a non-negative price and quantity. */
  predicate NonNegative(items: seq<Item>)
  {
    forall k :: 0 <= k < |items| ==> items[k].price >= 0 && items[k].quantity >= 0
  }

  // ---------------------------------------------------------------------------
  // Sums (Array.prototype.reduce from 0, left to right)
  // ---------------------------------------------------------------------------

  function SumOf(items: seq<Item>, f: Item -> int): int
  {
    if items == [] then 0 else SumOf(items[..|items| - 1], f) + f(items[|items| - 1])
  }

  function Quantity(it: Item): int { it.quantity }

  function LineTotal(it: Item): int { it.price * it.quantity }

  lemma {:induction false} SumOfAppend(a: seq<Item>, b: seq<Item>, f: Item -> int)
    ensures SumOf(a + b, f) == SumOf(a, f) + SumOf(b, f)
    decreases |b|
  {
    if b == [] {
      assert a + b == a;
    } else {
      var b' := b[..|b| - 1];
      assert (a + b)[..|a + b| - 1] == a + b';
      SumOfAppend(a, b', f);
    }
  }

  /** Splits a sum at position i: the lines before, line i, and the lines after. */
  lemma SumOfSplit(items: seq<Item>, i: int, f: Item -> int)
    requires 0 <= i < |items|
    ensures SumOf(items, f) == SumOf(items[..i], f) + f(items[i]) + SumOf(items[i + 1..], f)
  {
    assert items == items[..i] + [items[i]] + items[i + 1..];
    SumOfAppend(items[..i] + [items[i]], items[i + 1..], f);
    SumOfAppend(items[..i], [items[i]], f);
    assert SumOf([items[i]], f) == SumOf([], f) + f(items[i]);
  }

  /** Replacing line i changes the sum by the difference of the two lines. */
  lemma SumOfReplace(items: seq<Item>, i: int, x: Item, f: Item -> int)
    requires 0 <= i < |items|
    ensures SumOf(items[i := x], f) == SumOf(items, f) - f(items[i]) + f(x)
  {
    var r := items[i := x];
    SumOfSplit(items, i, f);
    SumOfSplit(r, i, f);
    assert r[..i] == items[..i] && r[i + 1..] == items[i + 1..];
  }

  /** Removing line i takes exactly that line out of the sum. */
  lemma SumOfRemove(items: seq<Item>, i: int, f: Item -> int)
    requires 0 <= i < |items|
    ensures SumOf(items[..i] + items[i + 1..], f) == SumOf(items, f) - f(items[i])
  {
    SumOfSplit(items, i, f);
    SumOfAppend(items[..i], items[i + 1..], f);
  }

  /** A sum of non-negative terms is non-negative. */
  lemma {:induction false} SumOfNonNegative(items: seq<Item>, f: Item -> int)
    ensures (forall k :: 0 <= k < |items| ==> f(items[k]) >= 0) ==> SumOf(items, f) >= 0
    decreases |items|
  {
    if items != [] {
      var init := items[..|items| - 1];
      assert forall k :: 0 <= k < |init| ==> init[k] == items[k];
      SumOfNonNegative(init, f);
    }
  }

  /** getCartCount: the sum of the quantities; 0 for an empty cart, never negative for non-negative quantities. */
  function Count(items: seq<Item>): (n: int)
    ensures items == [] ==> n == 0
    ensures (forall k :: 0 <= k < |items| ==> items[k].quantity >= 0) ==> n >= 0
  {
    SumOfNonNegative(items, Quantity);
    SumOf(items, Quantity)
  }

  /** getCartTotal: the sum of price times quantity; 0 for an empty cart, never negative for non-negative lines. */
  function Subtotal(items: seq<Item>): (t: int)
    ensures items == [] ==> t == 0
    ensures NonNegative(items) ==> t >= 0
  {
    SumOfNonNegative(items, LineTotal);
    SumOf(items, LineTotal)
  }

  // ---------------------------------------------------------------------------
  // List edits
  // ---------------------------------------------------------------------------

  /**
   * addToCart: a product already in the cart has its quantity raised by `quantity`
   * (no check on `quantity`), every other line unchanged; a new product is
   * appended as one new line at the end.
   */
  function Added(items: seq<Item>, p: Product, quantity: int, addedAt: string): (r: seq<Item>)
    ensures FindIndex(items, p.id) >= 0 ==>
      var i := FindIndex(items, p.id);
      |r| == |items| && r[i] == items[i].(quantity := items[i].quantity + quantity) &&
      forall k :: 0 <= k < |items| && k != i ==> r[k] == items[k]
    ensures FindIndex(items, p.id) < 0 ==>
      |r| == |items| + 1 && r[..|items|] == items && r[|items|] == NewItem(p, quantity, addedAt)
  {
    var i := FindIndex(items, p.id);
    if i >= 0 then items[i := items[i].(quantity := items[i].quantity + quantity)]
    else items + [NewItem(p, quantity, addedAt)]
  }

  /** The cart without line i, the others kept in order (Array.prototype.splice(i, 1)). */
  function RemovedAt(items: seq<Item>, i: int): (r: seq<Item>)
    requires 0 <= i < |items|
    ensures |r| == |items| - 1
    ensures forall k :: 0 <= k < i ==> r[k] == items[k]
    ensures forall k :: i <= k < |r| ==> r[k] == items[k + 1]
    ensures multiset(r) + multiset{items[i]} == multiset(items)
  {
    assert items == items[..i] + [items[i]] + items[i + 1..];
    items[..i] + items[i + 1..]
  }

  /** removeFromCart: drop the first line with the id, or change nothing when there is none. */
  function RemoveFirst(items: seq<Item>, id: int): (r: seq<Item>)
    ensures FindIndex(items, id) < 0 ==> r == items
    ensures FindIndex(items, id) >= 0 ==> r == RemovedAt(items, FindIndex(items, id))
  {
    var i := FindIndex(items, id);
    if i >= 0 then RemovedAt(items, i) else items
  }

  /**
   * updateQuantity: with an absent id nothing changes; a quantity of zero or less
   * removes the line; any other quantity replaces that line's quantity only.
   */
  function Updated(items: seq<Item>, id: int, quantity: int): (r: seq<Item>)
    ensures FindIndex(items, id) < 0 ==> r == items
    ensures FindIndex(items, id) >= 0 && quantity <= 0 ==> r == RemoveFirst(items, id)
    ensures FindIndex(items, id) >= 0 && quantity > 0 ==>
      var i := FindIndex(items, id);
      |r| == |items| && r[i] == items[i].(quantity := quantity) &&
      forall k :: 0 <= k < |items| && k != i ==> r[k] == items[k]
  {
    var i := FindIndex(items, id);
    if i < 0 then items
    else if quantity <= 0 then RemoveFirst(items, id)
    else items[i := items[i].(quantity := quantity)]
  }

  // ---------------------------------------------------------------------------
  // What the edits preserve
  // ---------------------------------------------------------------------------

  /** addToCart never creates a second line for an id: ids stay unique. */
  lemma AddedKeepsIdsUnique(items: seq<Item>, p: Product, quantity: int, addedAt: string)
    requires UniqueIds(items)
    ensures UniqueIds(Added(items, p, quantity, addedAt))
  {
    var r := Added(items, p, quantity, addedAt);
    if FindIndex(items, p.id) < 0 {
      forall i, j | 0 <= i < j < |r| ensures r[i].id != r[j].id {
        if j == |items| {
          assert r[i] == items[i];
        } else {
          assert r[i] == items[i] && r[j] == items[j];
        }
      }
    } else {
      forall i, j | 0 <= i < j < |r| ensures r[i].id != r[j].id {
        assert r[i].id == items[i].id && r[j].id == items[j].id;
      }
    }
  }

  /** addToCart raises the item count by exactly the added quantity. */
  lemma AddedCount(items: seq<Item>, p: Product, quantity: int, addedAt: string)
    ensures Count(Added(items, p, quantity, addedAt)) == Count(items) + quantity
  {
    var i := FindIndex(items, p.id);
    if i >= 0 {
      SumOfReplace(items, i, items[i].(quantity := items[i].quantity + quantity), Quantity);
    } else {
      SumOfAppend(items, [NewItem(p, quantity, addedAt)], Quantity);
      assert SumOf([NewItem(p, quantity, addedAt)], Quantity) == SumOf([], Quantity) + quantity;
    }
  }

  /**
   * addToCart raises the subtotal by the added quantity at the price of the line
   * it lands on: the price already in the cart for a known id, the product's
   * price for a new one.
   */
  lemma AddedSubtotal(items: seq<Item>, p: Product, quantity: int, addedAt: string)
    ensures var i := FindIndex(items, p.id);
      Subtotal(Added(items, p, quantity, addedAt)) ==
      Subtotal(items) + (if i >= 0 then items[i].price else p.price) * quantity
  {
    var i := FindIndex(items, p.id);
    if i >= 0 {
      var x := items[i].(quantity := items[i].quantity + quantity);
      SumOfReplace(items, i, x, LineTotal);
      assert LineTotal(x) == LineTotal(items[i]) + items[i].price * quantity;
    } else {
      var x := NewItem(p, quantity, addedAt);
      SumOfAppend(items, [x], LineTotal);
      assert SumOf([x], LineTotal) == SumOf([], LineTotal) + LineTotal(x);
    }
  }

  /** Adding a positive quantity keeps every quantity positive. */
  lemma AddedKeepsPositive(items: seq<Item>, p: Product, quantity: int, addedAt: string)
    requires PositiveQuantities(items) && quantity >= 1
    ensures PositiveQuantities(Added(items, p, quantity, addedAt))
  {
    var r := Added(items, p, quantity, addedAt);
    forall k | 0 <= k < |r| ensures r[k].quantity >= 1 {
      if k < |items| && k != FindIndex(items, p.id) {
        assert r[k] == items[k];
      }
    }
  }

  /**
   * addToCart has no guard on the quantity: adding zero or less of a new product
   * appends a line with that quantity, and adding it to a present product keeps
   * the line with the lowered quantity, even at zero or below.
   */
  lemma AddedWithoutQuantityGuard(items: seq<Item>, p: Product, quantity: int, addedAt: string)
    requires quantity <= 0
    ensures var r := Added(items, p, quantity, addedAt);
      FindIndex(items, p.id) < 0 ==>
        |r| == |items| + 1 && r[|items|].id == p.id && r[|items|].quantity == quantity && !PositiveQuantities(r)
    ensures var r := Added(items, p, quantity, addedAt); var i := FindIndex(items, p.id);
      i >= 0 ==>
        |r| == |items| && r[i].id == p.id && r[i].quantity == items[i].quantity + quantity &&
        (items[i].quantity + quantity < 1 ==> !PositiveQuantities(r))
  {
  }

  /** Removal keeps ids unique, and after it no line with that id is left. */
  lemma RemoveFirstRemovesId(items: seq<Item>, id: int)
    requires UniqueIds(items)
    ensures UniqueIds(RemoveFirst(items, id))
    ensures FindIndex(RemoveFirst(items, id), id) == -1
  {
    var i := FindIndex(items, id);
    if i >= 0 {
      var r := RemovedAt(items, i);
      forall a, b | 0 <= a < b < |r| ensures r[a].id != r[b].id {
        var a' := if a < i then a else a + 1;
        var b' := if b < i then b else b + 1;
        assert r[a] == items[a'] && r[b] == items[b'];
      }
      forall k | 0 <= k < |r| ensures r[k].id != id {
        var k' := if k < i then k else k + 1;
        assert r[k] == items[k'];
      }
    }
  }

  /** With unique ids, removing the same id twice is the same as removing it once. */
  lemma RemoveFirstIdempotent(items: seq<Item>, id: int)
    requires UniqueIds(items)
    ensures RemoveFirst(RemoveFirst(items, id), id) == RemoveFirst(items, id)
  {
    RemoveFirstRemovesId(items, id);
  }

  /** Removing a line takes exactly its quantity off the count and its price times quantity off the subtotal. */
  lemma RemoveFirstTotals(items: seq<Item>, id: int)
    requires FindIndex(items, id) >= 0
    ensures Count(RemoveFirst(items, id)) == Count(items) - items[FindIndex(items, id)].quantity
    ensures Subtotal(RemoveFirst(items, id)) ==
            Subtotal(items) - items[FindIndex(items, id)].price * items[FindIndex(items, id)].quantity
  {
    var i := FindIndex(items, id);
    SumOfRemove(items, i, Quantity);
    SumOfRemove(items, i, LineTotal);
  }

  /** Removal keeps every remaining quantity positive. */
  lemma RemoveFirstKeepsPositive(items: seq<Item>, id: int)
    requires PositiveQuantities(items)
    ensures PositiveQuantities(RemoveFirst(items, id))
  {
    var i := FindIndex(items, id);
    if i >= 0 {
      var r := RemovedAt(items, i);
      forall k | 0 <= k < |r| ensures r[k].quantity >= 1 {
        var k' := if k < i then k else k + 1;
        assert r[k] == items[k'];
      }
    }
  }

  /** updateQuantity keeps ids unique. */
  lemma UpdatedKeepsIdsUnique(items: seq<Item>, id: int, quantity: int)
    requires UniqueIds(items)
    ensures UniqueIds(Updated(items, id, quantity))
  {
    var i := FindIndex(items, id);
    if i >= 0 && quantity <= 0 {
      RemoveFirstRemovesId(items, id);
    } else if i >= 0 {
      var r := Updated(items, id, quantity);
      forall a, b | 0 <= a < b < |r| ensures r[a].id != r[b].id {
        assert r[a].id == items[a].id && r[b].id == items[b].id;
      }
    }
  }

  /** Whatever quantity it is given, updateQuantity never leaves a line with quantity below one. */
  lemma UpdatedKeepsPositive(items: seq<Item>, id: int, quantity: int)
    requires PositiveQuantities(items)
    ensures PositiveQuantities(Updated(items, id, quantity))
  {
    var i := FindIndex(items, id);
    if i >= 0 && quantity <= 0 {
      RemoveFirstKeepsPositive(items, id);
    } else if i >= 0 {
      var r := Updated(items, id, quantity);
      forall k | 0 <= k < |r| ensures r[k].quantity >= 1 {
        if k != i {
          assert r[k] == items[k];
        }
      }
    }
  }

  /**
   * A positive quantity update replaces that line's quantity in the count, and
   * its line total (price times quantity) by the new one in the subtotal.
   */
  lemma UpdatedTotals(items: seq<Item>, id: int, quantity: int)
    requires FindIndex(items, id) >= 0 && quantity > 0
    ensures Count(Updated(items, id, quantity)) == Count(items) - items[FindIndex(items, id)].quantity + quantity
    ensures Subtotal(Updated(items, id, quantity)) ==
            Subtotal(items) - LineTotal(items[FindIndex(items, id)])
                            + LineTotal(items[FindIndex(items, id)].(quantity := quantity))
  {
    var i := FindIndex(items, id);
    var x := items[i].(quantity := quantity);
    assert Updated(items, id, quantity) == items[i := x];
    SumOfReplace(items, i, x, Quantity);
    SumOfReplace(items, i, x, LineTotal);
  }
}
