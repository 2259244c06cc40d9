# Cart state of the React Native storefront

This project models the shopping cart of a small React Native storefront. It has two parts.

- The cart provider (`src/hooks/cart.tsx`). It owns a list of line items. Each line has an id, a title, an image url, a price and a quantity. Three operations replace that list:
  - `addToCart` merges a payload into the line with the same id and raises its quantity by one, or appends it with quantity 1;
  - `increment` raises the quantity of the lines holding an id;
  - `decrement` lowers the positive quantities of the lines holding an id and never removes a line.
- The floating cart badge (`src/components/FloatingCart/index.tsx`). It derives the number of items and the price total from the same list.

Module `Cart` holds the line-item datatypes and the pure list transformations `AddedToCart`, `Incremented` and `Decremented`. It also holds the search for the first line with a given id, `FirstIndex`. Class `Cart.CartProvider` holds the `products` field, which its methods `AddToCart`, `Increment` and `Decrement` replace wholesale. It also holds `written`, the list each operation hands to storage. As in the source, that is the list read *before* the update: the storage call is made with the list the operation started from. `Valid()` is the provider's invariant: one line per id and no negative quantity. Every method preserves it.

Module `FloatingCart` holds the two left-to-right sums and the badge values `ItemCountShown` and `CartTotalShown`. A badge value takes the sum first and then applies the `if (products)` guard. A missing list (JS `null`) makes the sum fail before the guard is reached. Every array, even an empty one, passes the guard. So the fallback never changes the result.

Prices are whole cents (`nat`). Quantities are unbounded integers, because the source keeps a plain number that storage may hand back unchecked.

## Model

| member | source | states |
|---|---|---|
| `Cart.FirstIndex` | src/hooks/cart.tsx:46 | the search finds nothing exactly when no line holds the id; otherwise it finds the first line that holds it |
| `Cart.AddedToCart` | src/hooks/cart.tsx:46-57 | afterwards the id is present. The length is kept when the id was present, and grows by exactly one otherwise. Every old position keeps its id, and lines with other ids are untouched. A new id's line is appended at the end with the payload and quantity 1, after the unchanged old lines. Non-negative quantities stay non-negative, and every line holding the id then has quantity at least 1 |
| `Cart.AddToCartMerges` | src/hooks/cart.tsx:46-55 | when the id is present the length is kept. Every line holding the id becomes the payload with the FIRST matching line's quantity plus one |
| `Cart.AddToCartAt` | src/hooks/cart.tsx:46-55 | with one line per id, adding an id held at position k is a point update of that line: payload fields, old quantity plus one |
| `Cart.AddToCartKeepsUniqueIds` | src/hooks/cart.tsx:46-57 | if the ids were pairwise distinct before an add, they are pairwise distinct after it |
| `Cart.Incremented` | src/hooks/cart.tsx:73-79 | length, order, ids and every field other than quantity are kept. Lines with other ids are untouched. Each matching quantity goes up by exactly one. An absent id leaves the cart unchanged. Non-negativity is preserved |
| `Cart.IncrementAt` | src/hooks/cart.tsx:73-79 | with one line per id, incrementing an id held at k changes only line k, by one |
| `Cart.Decremented` | src/hooks/cart.tsx:89-95 | length, order, ids and non-quantity fields are kept, and only matching lines change. Each quantity drops by at most one and never rises. A line is unchanged exactly when its id differs or its quantity is not positive. A non-negative quantity stays non-negative. With no positive matching line the cart is unchanged |
| `Cart.DecrementAt` | src/hooks/cart.tsx:89-95 | with one line per id, decrementing an id held at k lowers line k by one if it is positive and otherwise leaves the cart unchanged |
| `Cart.DecrementUndoesIncrement` | src/hooks/cart.tsx:73-95 | for any id, decrement after increment gives back the original cart when no quantity is negative |
| `Cart.IncrementUndoesDecrement` | src/hooks/cart.tsx:73-95 | increment after decrement gives back the original cart when every line holding the id is positive |
| `Cart.AddSameIdTwice` | src/hooks/cart.tsx:44-58 | adding two payloads with the same id to an empty cart gives a single line with quantity 2 carrying the second payload's fields |
| `Cart.AddDistinctIds` | src/hooks/cart.tsx:44-58 | adding payloads with pairwise distinct ids that are new to the cart appends one line per payload, in order, each with quantity 1 |
| `Cart.CartProvider.constructor` | src/hooks/cart.tsx:30 | the provider starts with an empty cart, which satisfies the invariant, and has written nothing |
| `Cart.CartProvider.AddToCart` | src/hooks/cart.tsx:44-63 | the new `products` is the add applied to the old list. The list handed to storage is the OLD list. The invariant (one line per id, no negative quantity) is preserved |
| `Cart.CartProvider.Increment` | src/hooks/cart.tsx:71-84 | the new `products` is the increment of the old list. The old list is handed to storage. The invariant is preserved |
| `Cart.CartProvider.Decrement` | src/hooks/cart.tsx:86-102 | the new `products` is the decrement of the old list. The old list is handed to storage. The invariant is preserved |
| `FloatingCart.TotalItems` | src/components/FloatingCart/index.tsx:42-44 | the item count is the sum of the quantities, folded left to right from 0. It is non-negative when no quantity is negative |
| `FloatingCart.PriceTotal` | src/components/FloatingCart/index.tsx:29-31 | the unformatted total is the sum of price times quantity, folded left to right from 0. It is non-negative when no quantity is negative |
| `FloatingCart.TotalItemsAppend` | src/components/FloatingCart/index.tsx:42-44 | the item count of a concatenation is the sum of the two counts, and in particular `count(xs + [x]) = count(xs) + x.quantity` |
| `FloatingCart.PriceTotalAppend` | src/components/FloatingCart/index.tsx:29-31 | the price total of a concatenation is the sum of the two totals |
| `FloatingCart.TotalItemsUpdate` | src/components/FloatingCart/index.tsx:42-44 | replacing one line moves the item count by the difference of the two quantities |
| `FloatingCart.ItemCountShown` | src/components/FloatingCart/index.tsx:40-51 | for every list the shown count is exactly the sum, so the `if (products)` fallback never applies. An empty cart shows 0. A missing list fails in the sum |
| `FloatingCart.CartTotalShown` | src/components/FloatingCart/index.tsx:26-38 | for every list the amount passed to formatting is exactly the price sum, so the fallback never applies. An empty cart gives 0. A missing list fails in the sum |
| `FloatingCart.AddToCartCount` | src/components/FloatingCart/index.tsx:42-44 | with one line per id, an add (src/hooks/cart.tsx:44-58) raises the item count by exactly one |
| `FloatingCart.IncrementCount` | src/components/FloatingCart/index.tsx:42-44 | with one line per id, an increment (src/hooks/cart.tsx:73-79) raises the count by 1 if the id is present and by 0 if it is absent |
| `FloatingCart.DecrementCount` | src/components/FloatingCart/index.tsx:42-44 | with one line per id, a decrement (src/hooks/cart.tsx:89-95) lowers the count by 1 exactly when the matching line is positive, and otherwise keeps it |
| `FloatingCart.AddTwiceDecrementThrice` | src/hooks/cart.tsx:44-102 | scenario: adding a product twice gives quantity 2. Three decrements give 1, then 0, then 0 again, and the line is never removed. The totals of the quantity-2 cart are 2 items and twice the price |

## Left out

- Hydration from device storage (src/hooks/cart.tsx:32-42) is not modelled. It is an asynchronous read plus JSON parsing. The parse is not guarded, so a malformed stored value throws. The provider's constructor therefore starts from the empty list only.
- Storage writes are modelled only as the `written` field, holding the list passed to the write. The asynchronous completion and write failures are not modelled. The write happens after the update, but it is given the pre-update list, and the model keeps that.
- The React context, the memoisation hooks and the `useCart` guard that throws outside a provider (src/hooks/cart.tsx:104-120) are framework wiring, not data logic.
- Currency formatting (`formatValue`), navigation to the cart screen, icons and styled components, and the debug log in the badge are left out. The badge model yields the amount that would be formatted.
- Prices are whole cents rather than floating-point numbers, so rounding in `price * quantity` and in the sum is not modelled. Quantities are unbounded integers, with no float precision limit.
- The stray `splice` member of the product record (src/hooks/cart.tsx:17) is not modelled. Neither are extra fields that a payload object could carry into a line through the spread. The payload type has exactly id, title, image url and price.
- FloatingCart.AddToCartCount, FloatingCart.IncrementCount and FloatingCart.DecrementCount are stated only for carts with one line per id. That is the provider's invariant. Duplicate ids could only come from a stored list.
