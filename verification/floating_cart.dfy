/**
 * The floating cart badge: the two totals it derives from the cart list, and
 * how each cart operation moves the item count. Currency formatting and the
 * rendering are not part of this model; the price total is the amount before
 * formatting.
 */
module FloatingCart {
  import opened Wrappers
  import opened Cart

  /**
   * The number of items in the cart: the quantities summed from the first line
   * to the last, starting from 0, as the badge's left fold does.
   */
  function TotalItems(items: seq<LineItem>): (r: int)
    ensures NonNegative(items) ==> r >= 0
  {
    if items == [] then 0
    else TotalItems(items[..|items| - 1]) + items[|items| - 1].quantity
  }

  /** The cart's price in cents: price times quantity summed over the lines, left to right from 0. */
  function PriceTotal(items: seq<LineItem>): (r: int)
    ensures NonNegative(items) ==> r >= 0
  {
    if items == [] then 0
    else PriceTotal(items[..|items| - 1]) + items[|items| - 1].price * items[|items| - 1].quantity
  }

  /** Why a badge total cannot be computed: summing over a missing list fails before any check. */
  datatype BadgeError = SumOfMissingList

  /** The badge's guard on the list: a missing list is falsy, every array (even an empty one) is truthy. */
  predicate Truthy(products: Option<seq<LineItem>>)
  {
    products.Some?
  }

  /**
   * The item count shown on the badge. The sum is taken first; the guard that
   * follows falls back to 0 for a falsy list, which the sum has already failed on.
   */
  function ItemCountShown(products: Option<seq<LineItem>>): (r: Result<int, BadgeError>)
    ensures products.None? <==> r.Failure?
    ensures products.Some? ==> r == Success(TotalItems(products.value))
    ensures products == Some([]) ==> r == Success(0)
    ensures products.Some? && NonNegative(products.value) ==> r.value >= 0
  {
    match products
    case None => Failure(SumOfMissingList)
    case Some(items) =>
      var total := TotalItems(items);
      if Truthy(products) then Success(total) else Success(0)
  }

  /** The amount the badge formats as the cart total, with the same order of sum and guard. */
  function CartTotalShown(products: Option<seq<LineItem>>): (r: Result<int, BadgeError>)
    ensures products.None? <==> r.Failure?
    ensures products.Some? ==> r == Success(PriceTotal(products.value))
    ensures products == Some([]) ==> r == Success(0)
    ensures products.Some? && NonNegative(products.value) ==> r.value >= 0
  {
    match products
    case None => Failure(SumOfMissingList)
    case Some(items) =>
      var priceTotal := PriceTotal(items);
      if Truthy(products) then Success(priceTotal) else Success(0)
  }

  /** The item count is additive over concatenation. */
  lemma {:induction false} TotalItemsAppend(a: seq<LineItem>, b: seq<LineItem>)
    ensures TotalItems(a + b) == TotalItems(a) + TotalItems(b)
    decreases |b|
  {
    if b != [] {
      var ab := a + b;
      assert ab[..|ab| - 1] == a + b[..|b| - 1];
      TotalItemsAppend(a, b[..|b| - 1]);
    } else {
      assert a + b == a;
    }
  }

  /** The price total is additive over concatenation. */
  lemma {:induction false} PriceTotalAppend(a: seq<LineItem>, b: seq<LineItem>)
    ensures PriceTotal(a + b) == PriceTotal(a) + PriceTotal(b)
    decreases |b|
  {
    if b != [] {
      var ab := a + b;
      assert ab[..|ab| - 1] == a + b[..|b| - 1];
      PriceTotalAppend(a, b[..|b| - 1]);
    } else {
      assert a + b == a;
    }
  }

  /** Replacing the line at `k` moves the item count by the difference of the two quantities. */
  lemma TotalItemsUpdate(items: seq<LineItem>, k: nat, x: LineItem)
    requires k < |items|
    ensures TotalItems(items[k := x]) == TotalItems(items) - items[k].quantity + x.quantity
  {
    var before, after := items[..k], items[k + 1..];
    assert items == before + [items[k]] + after;
    assert items[k := x] == before + [x] + after;
    TotalItemsAppend(before + [items[k]], after);
    TotalItemsAppend(before + [x], after);
    TotalItemsAppend(before, [items[k]]);
    TotalItemsAppend(before, [x]);
  }

  /** On a cart with one line per id, adding raises the item count by exactly one. */
  lemma AddToCartCount(items: seq<LineItem>, p: Product)
    requires UniqueIds(items)
    ensures TotalItems(AddedToCart(items, p)) == TotalItems(items) + 1
  {
    if HasId(items, p.id) {
      var k :| 0 <= k < |items| && items[k].id == p.id;
      AddToCartAt(items, p, k);
      TotalItemsUpdate(items, k, WithQuantity(p, items[k].quantity + 1));
    } else {
      var r := AddedToCart(items, p);
      assert r == items + [WithQuantity(p, 1)];
      TotalItemsAppend(items, [WithQuantity(p, 1)]);
    }
  }

  /** On a cart with one line per id, incrementing raises the item count by one when the id is present, else by zero. */
  lemma IncrementCount(items: seq<LineItem>, id: string)
    requires UniqueIds(items)
    ensures TotalItems(Incremented(items, id)) == TotalItems(items) + if HasId(items, id) then 1 else 0
  {
    if HasId(items, id) {
      var k :| 0 <= k < |items| && items[k].id == id;
      IncrementAt(items, id, k);
      TotalItemsUpdate(items, k, items[k].(quantity := items[k].quantity + 1));
    }
  }

  /**
   * On a cart with one line per id, decrementing lowers the item count by one
   * exactly when the line holding the id is positive, and otherwise keeps it.
   */
  lemma DecrementCount(items: seq<LineItem>, id: string)
    requires UniqueIds(items)
    ensures TotalItems(Decremented(items, id)) == TotalItems(items) - if HasPositive(items, id) then 1 else 0
  {
    if HasPositive(items, id) {
      var k :| 0 <= k < |items| && items[k].id == id && items[k].quantity > 0;
      DecrementAt(items, id, k);
      TotalItemsUpdate(items, k, items[k].(quantity := items[k].quantity - 1));
    }
  }

  /**
   * Start empty, add one product twice, then decrement it three times: the
   * line reaches 0 after two decrements and stays in the cart at 0.
   */
  lemma AddTwiceDecrementThrice(p: Product)
    ensures AddedToCart(AddedToCart([], p), p) == [WithQuantity(p, 2)]
    ensures Decremented([WithQuantity(p, 2)], p.id) == [WithQuantity(p, 1)]
    ensures Decremented([WithQuantity(p, 1)], p.id) == [WithQuantity(p, 0)]
    ensures Decremented([WithQuantity(p, 0)], p.id) == [WithQuantity(p, 0)]
    ensures TotalItems([WithQuantity(p, 2)]) == 2 && PriceTotal([WithQuantity(p, 2)]) == 2 * p.price
  {
  }
}
