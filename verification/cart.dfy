/**
 * The cart state of the storefront: its line items, the three operations that
 * replace the list, and the provider object that owns it.
 *
 * Each operation computes the next list purely from the current one (a lookup
 * of the first matching line and a map over the lines); the provider then
 * replaces its `products` field with that list and hands a list to storage.
 */
module Cart {
  import opened Wrappers

  /** The payload of an add: a product without its quantity. Prices are whole cents. */
  datatype Product = Product(id: string, title: string, imageUrl: string, price: nat)

  /**
   * One line of the cart. The quantity is any integer: the source keeps a plain
   * number and a list read back from storage is not checked.
   */
  datatype LineItem = LineItem(id: string, title: string, imageUrl: string, price: nat, quantity: int)

  /** The line built from a payload and a quantity: the payload's fields, then the quantity. */
  function WithQuantity(p: Product, quantity: int): LineItem
  {
    LineItem(p.id, p.title, p.imageUrl, p.price, quantity)
  }

  /** Some line of `items` holds `id`. */
  predicate HasId(items: seq<LineItem>, id: string)
  {
    exists i :: 0 <= i < |items| && items[i].id == id
  }

  /** No two lines share an id. */
  predicate UniqueIds(items: seq<LineItem>)
  {
    forall i, j :: 0 <= i < j < |items| ==> items[i].id != items[j].id
  }

  /** No line has a negative quantity. */
  predicate NonNegative(items: seq<LineItem>)
  {
    forall i :: 0 <= i < |items| ==> items[i].quantity >= 0
  }

  /** Some line holding `id` has a positive quantity, so a decrement changes it. */
  predicate HasPositive(items: seq<LineItem>, id: string)
  {
    exists i :: 0 <= i < |items| && items[i].id == id && items[i].quantity > 0
  }

  /** `k` is the position of the first line holding `id`. */
  predicate IsFirst(items: seq<LineItem>, id: string, k: int)
  {
    0 <= k < |items| && items[k].id == id && forall j :: 0 <= j < k ==> items[j].id != id
  }

  /** `b` is `a` with at most the quantities of the lines holding `id` changed. */
  predicate SameExceptQuantityOf(a: seq<LineItem>, b: seq<LineItem>, id: string)
  {
    |a| == |b| &&
    forall i :: 0 <= i < |a| ==>
      b[i].(quantity := a[i].quantity) == a[i] && (a[i].id != id ==> b[i] == a[i])
  }

  /**
   * The array search of the source: where the first line holding `id` is, or
   * nothing when no line holds it.
   */
  function FirstIndex(items: seq<LineItem>, id: string): (r: Option<nat>)
    ensures r.None? <==> !HasId(items, id)
    ensures r.Some? ==> IsFirst(items, id, r.value)
  {
    if items == [] then None
    else if items[0].id == id then Some(0)
    else
      match FirstIndex(items[1..], id)
      case None => None
      case Some(k) => Some(k + 1)
  }

  /**
   * The list after adding payload `p`. When a line holds `p.id`, every line
   * holding it becomes the payload with the first such line's quantity plus
   * one; otherwise the payload is appended with quantity 1.
   */
  function AddedToCart(items: seq<LineItem>, p: Product): (r: seq<LineItem>)
    ensures HasId(r, p.id)
    ensures |r| == if HasId(items, p.id) then |items| else |items| + 1
    ensures forall i :: 0 <= i < |items| ==> r[i].id == items[i].id
    ensures !HasId(items, p.id) ==> r[|items|] == WithQuantity(p, 1)
    ensures forall i :: 0 <= i < |items| && items[i].id != p.id ==> r[i] == items[i]
    ensures NonNegative(items) ==>
      NonNegative(r) && forall i :: 0 <= i < |r| && r[i].id == p.id ==> r[i].quantity >= 1
  {
    match FirstIndex(items, p.id)
    case None =>
      var r := items + [WithQuantity(p, 1)];
      assert r[|items|].id == p.id;
      r
    case Some(k) =>
      var quantity := items[k].quantity + 1;
      var r := seq(|items|, i requires 0 <= i < |items| =>
        if items[i].id == p.id then WithQuantity(p, quantity) else items[i]);
      assert r[k].id == p.id;
      r
  }

  /** The list after raising the quantity of every line holding `id` by one. */
  function Incremented(items: seq<LineItem>, id: string): (r: seq<LineItem>)
    ensures SameExceptQuantityOf(items, r, id)
    ensures forall i :: 0 <= i < |items| && items[i].id == id ==> r[i].quantity == items[i].quantity + 1
    ensures !HasId(items, id) ==> r == items
    ensures NonNegative(items) ==> NonNegative(r)
  {
    seq(|items|, i requires 0 <= i < |items| =>
      if items[i].id == id then items[i].(quantity := items[i].quantity + 1) else items[i])
  }

  /**
   * The list after lowering by one the quantity of every line holding `id`
   * whose quantity is positive. Lines are never removed.
   */
  function Decremented(items: seq<LineItem>, id: string): (r: seq<LineItem>)
    ensures SameExceptQuantityOf(items, r, id)
    ensures forall i :: 0 <= i < |items| ==>
      items[i].quantity - 1 <= r[i].quantity <= items[i].quantity
    ensures forall i :: 0 <= i < |items| ==>
      (r[i] == items[i] <==> items[i].id != id || items[i].quantity <= 0)
    ensures forall i :: 0 <= i < |items| && items[i].quantity >= 0 ==> r[i].quantity >= 0
    ensures !HasPositive(items, id) ==> r == items
  {
    seq(|items|, i requires 0 <= i < |items| =>
      if items[i].id == id && items[i].quantity > 0
      then items[i].(quantity := items[i].quantity - 1)
      else items[i])
  }

  /** Every line holding `p.id` takes the payload and the first such line's quantity plus one. */
  lemma AddToCartMerges(items: seq<LineItem>, p: Product, k: nat)
    requires IsFirst(items, p.id, k)
    ensures |AddedToCart(items, p)| == |items|
    ensures forall i :: 0 <= i < |items| && items[i].id == p.id ==>
      AddedToCart(items, p)[i] == WithQuantity(p, items[k].quantity + 1)
  {
  }

  /** Adding never creates a second line for an id. */
  lemma AddToCartKeepsUniqueIds(items: seq<LineItem>, p: Product)
    requires UniqueIds(items)
    ensures UniqueIds(AddedToCart(items, p))
  {
  }

  /** With unique ids, adding an id held at `k` rewrites that one line and nothing else. */
  lemma AddToCartAt(items: seq<LineItem>, p: Product, k: nat)
    requires UniqueIds(items) && k < |items| && items[k].id == p.id
    ensures AddedToCart(items, p) == items[k := WithQuantity(p, items[k].quantity + 1)]
  {
  }

  /** With unique ids, incrementing an id held at `k` changes that one line only. */
  lemma IncrementAt(items: seq<LineItem>, id: string, k: nat)
    requires UniqueIds(items) && k < |items| && items[k].id == id
    ensures Incremented(items, id) == items[k := items[k].(quantity := items[k].quantity + 1)]
  {
  }

  /** With unique ids, decrementing an id held at `k` changes that one line only, and only when it is positive. */
  lemma DecrementAt(items: seq<LineItem>, id: string, k: nat)
    requires UniqueIds(items) && k < |items| && items[k].id == id
    ensures Decremented(items, id) ==
      if items[k].quantity > 0 then items[k := items[k].(quantity := items[k].quantity - 1)] else items
  {
  }

  /** A decrement undoes an increment of the same id, for any id, when no quantity is negative. */
  lemma DecrementUndoesIncrement(items: seq<LineItem>, id: string)
    requires NonNegative(items)
    ensures Decremented(Incremented(items, id), id) == items
  {
  }

  /** An increment undoes a decrement when every line holding the id is positive. */
  lemma IncrementUndoesDecrement(items: seq<LineItem>, id: string)
    requires forall i :: 0 <= i < |items| && items[i].id == id ==> items[i].quantity > 0
    ensures Incremented(Decremented(items, id), id) == items
  {
  }

  /** Adding the same product id twice to an empty cart gives one line of quantity 2 carrying the second payload. */
  lemma AddSameIdTwice(p: Product, q: Product)
    requires p.id == q.id
    ensures AddedToCart(AddedToCart([], p), q) == [WithQuantity(q, 2)]
  {
  }

  /** The cart built by adding each payload of `ps` in turn. */
  function AddAll(items: seq<LineItem>, ps: seq<Product>): seq<LineItem>
    decreases |ps|
  {
    if ps == [] then items else AddAll(AddedToCart(items, ps[0]), ps[1..])
  }

  /** The lines a run of new payloads appends: each payload with quantity 1, in order. */
  function NewLines(ps: seq<Product>): (r: seq<LineItem>)
    ensures |r| == |ps| && forall i :: 0 <= i < |ps| ==> r[i] == WithQuantity(ps[i], 1)
  {
    if ps == [] then [] else [WithQuantity(ps[0], 1)] + NewLines(ps[1..])
  }

  /** Payloads with pairwise distinct ids. */
  predicate DistinctIds(ps: seq<Product>)
  {
    forall i, j :: 0 <= i < j < |ps| ==> ps[i].id != ps[j].id
  }

  /** No payload of `ps` has an id already in `items`. */
  predicate AllNew(items: seq<LineItem>, ps: seq<Product>)
  {
    forall i :: 0 <= i < |ps| ==> !HasId(items, ps[i].id)
  }

  /** After appending the first payload's line, the remaining payloads are still distinct and new. */
  lemma RestStillNew(items: seq<LineItem>, ps: seq<Product>)
    requires ps != [] && DistinctIds(ps) && AllNew(items, ps)
    ensures DistinctIds(ps[1..]) && AllNew(items + [WithQuantity(ps[0], 1)], ps[1..])
  {
    var rest, next := ps[1..], items + [WithQuantity(ps[0], 1)];
    forall i | 0 <= i < |rest| ensures !HasId(next, rest[i].id) {
      assert rest[i] == ps[i + 1] && ps[0].id != ps[i + 1].id;
      assert !HasId(items, ps[i + 1].id);
    }
    forall i, j | 0 <= i < j < |rest| ensures rest[i].id != rest[j].id {
      assert rest[i] == ps[i + 1] && rest[j] == ps[j + 1];
    }
  }

  /** Adding a payload with a new id first turns into appending its line. */
  lemma AddAllNewFirst(items: seq<LineItem>, ps: seq<Product>)
    requires ps != [] && !HasId(items, ps[0].id)
    ensures AddAll(items, ps) == AddAll(items + [WithQuantity(ps[0], 1)], ps[1..])
  {
    assert AddedToCart(items, ps[0]) == items + [WithQuantity(ps[0], 1)];
  }

  /** Adding payloads with distinct new ids appends one line of quantity 1 per payload, in order. */
  lemma {:induction false} AddDistinctIds(items: seq<LineItem>, ps: seq<Product>)
    requires DistinctIds(ps) && AllNew(items, ps)
    ensures AddAll(items, ps) == items + NewLines(ps)
    decreases |ps|
  {
    if ps != [] {
      var first, rest := WithQuantity(ps[0], 1), ps[1..];
      AddAllNewFirst(items, ps);
      RestStillNew(items, ps);
      AddDistinctIds(items + [first], rest);
    }
  }

  /** The provider: it owns the cart list and replaces it on each operation. */
  class CartProvider {
    /** The current cart. */
    var products: seq<LineItem>
    /** The list last handed to storage by an operation of this provider, if any. */
    var written: Option<seq<LineItem>>

    /** What the three operations preserve: one line per id and no negative quantity. */
    ghost predicate Valid()
      reads this
    {
      UniqueIds(products) && NonNegative(products)
    }

    /** A new provider starts with an empty cart and has written nothing. */
    constructor ()
      ensures Valid() && products == [] && written == None
    {
      products := [];
      written := None;
    }

    /**
     * Adds a payload. The list handed to storage is the one read before the
     * update, not the new one.
     */
    method AddToCart(p: Product)
      modifies this
      ensures products == AddedToCart(old(products), p)
      ensures written == Some(old(products))
      ensures old(Valid()) ==> Valid()
    {
      var before := products;
      products := AddedToCart(before, p);
      written := Some(before);
      if UniqueIds(before) {
        AddToCartKeepsUniqueIds(before, p);
      }
    }

    /** Raises the quantity of the lines holding `id`; the list handed to storage is the old one. */
    method Increment(id: string)
      modifies this
      ensures products == Incremented(old(products), id)
      ensures written == Some(old(products))
      ensures old(Valid()) ==> Valid()
    {
      var before := products;
      products := Incremented(before, id);
      written := Some(before);
    }

    /** Lowers the positive quantities of the lines holding `id`; the list handed to storage is the old one. */
    method Decrement(id: string)
      modifies this
      ensures products == Decremented(old(products), id)
      ensures written == Some(old(products))
      ensures old(Valid()) ==> Valid()
    {
      var before := products;
      products := Decremented(before, id);
      written := Some(before);
    }
  }
}
