# Aiza Tasty session cart, wishlist and checkout, in Dafny

This project models the session layer of the Aiza Tasty bakery shop, a Django
storefront. The layer has four parts:

- **The cart ledger.** The session's `cart` maps a product id to a quantity.
  `add_to_cart` adds one, `remove_from_cart` deletes the entry, and
  `update_cart` sets a quantity or pops the entry.
- **Pricing.** `cart_view`, `update_cart` and `checkout` price the cart
  against the product table. Ids that no longer resolve to a product are
  skipped.
- **The wishlist.** The session's `wishlist` is a list of ids. `add_to_wishlist`
  toggles an id on it.
- **Checkout.** The POST branch of `checkout` turns the cart into an order.
  There is one item per resolvable entry, each with the price at that moment.
  The order total is the sum of the items, and the cart is emptied.

The project also models the two context processors that show the cart and
wishlist badge counts.

Modelling choices:

- **The catalogue** is a `map<int, nat>` from product id to price in whole
  cents. Prices are Django decimals, so integer cents are exact.
- **The session** is the class `Store.Session` with a `cart: map<int, int>`
  field and a `wishlist: seq<int>` field. Each view is a method that changes
  them in place.
- **Product ids.** The source keys the session by `str(product_id)`. Every id
  comes from an `<int:...>` route, so the model keys by the integer itself.
- **Missing session keys.** Every view reads a missing "cart" or "wishlist" as
  empty (`session.get("cart", {})`), so the class starts with an empty map and
  an empty list. The context processors take `Option` values, so that "no cart
  in the session" can be stated.
- **Product order.** The database returns products in no promised order.
  `Pricing.PriceCart` therefore takes the cart ids in an arbitrary order. Its
  total is proved equal to `Ledger.CartTotal`, a sum over the map that does
  not depend on order (`Ledger.SumValuesRemove`, `Pricing.EnumerationSum`).
- **Request method and form field.** `update_cart` refuses anything but POST
  with a 400. `Store.Session.UpdateCart` takes a boolean `isPost` for "the
  request is a POST" and models both branches. Its `qty` parameter is the
  parsed `quantity` field, which defaults to 1 when the field is missing
  (views.py:124); the caller passes 1 in that case.

Modules: `Wrappers` (Option), `Ledger` (the cart map, its sums and its three
updates), `Pricing` (the pricing loop), `Wishlist` (the toggle), `Counters`
(`context_processor.py`) and `Store` (the session views in `views.py`).

The wishlist behaves as a set of ids, but the code keeps an ordered list and
relies on the toggle to keep it free of duplicates. The model is a list, and
the absence of duplicates is a proved invariant (`Wishlist.ToggledNoDuplicates`).

## Model

| member | source | states |
|---|---|---|
| Ledger.Quantity | aiza_tasty/aiza_store/views.py:82 | `cart.get(id, 0)`: the stored quantity for an id with an entry, 0 otherwise; in a cart that keeps its invariant it is at least 1 exactly when the id has an entry |
| Ledger.SumValues | aiza_tasty/aiza_store/context_processor.py:11 | `sum(cart.values())`: 0 for an empty cart, and never negative when no value is negative |
| Ledger.SumValuesRemove | aiza_tasty/aiza_store/context_processor.py:11 | `sum(cart.values())` does not depend on order: the sum is any one entry plus the sum of the rest |
| Ledger.SumValuesPositive | aiza_tasty/aiza_store/context_processor.py:11 | when every quantity is at least 1, the item count is at least the number of entries, and it is 0 exactly for an empty cart |
| Ledger.SumValuesUpdate | aiza_tasty/aiza_store/views.py:82 | writing a value at a key changes the sum by the new value minus the old one (0 for a new key) |
| Ledger.SumValuesDelete | aiza_tasty/aiza_store/views.py:115 | deleting a key lowers the sum by the value stored there, and leaves it unchanged for a missing key |
| Ledger.Incremented | aiza_tasty/aiza_store/views.py:80-83 | add_to_cart sets the id's quantity to its old value plus 1 (absent counts as 0); no other entry changes; it keeps all quantities at least 1 |
| Ledger.Removed | aiza_tasty/aiza_store/views.py:111-117 | remove_from_cart deletes exactly the id's entry; it is a no-op for an absent id; other entries are unchanged; quantities stay at least 1 |
| Ledger.WithQuantity | aiza_tasty/aiza_store/views.py:121-131 | update_cart stores a positive quantity as given; a quantity of 0 or less removes the entry (a no-op when absent); other entries are unchanged; quantities stay at least 1 |
| Ledger.IncrementedCount | aiza_tasty/aiza_store/views.py:82-86 | after add_to_cart the cart count is exactly one more than before |
| Ledger.RemovedCount | aiza_tasty/aiza_store/views.py:114-116 | removing an entry lowers the cart count by that entry's quantity |
| Ledger.WithQuantityCount | aiza_tasty/aiza_store/views.py:126-145 | after update_cart the item count has the entry's old quantity replaced by the new one, or by 0 when the entry was removed |
| Ledger.LineValues | aiza_tasty/aiza_store/views.py:94-98 | one priced line per cart id that resolves to a product (ids missing from the product table are skipped), worth price × quantity; in a cart that keeps its invariant each line is worth at least the unit price |
| Ledger.CartTotal | aiza_tasty/aiza_store/views.py:92-98 | the sum of the priced lines: 0 when no cart id resolves to a product (an empty cart included), and never negative for a cart that keeps its invariant |
| Ledger.CartTotalStale | aiza_tasty/aiza_store/views.py:92-98 | an entry whose id is not in the catalogue does not change the total, whether it is set or removed |
| Ledger.IncrementedLineValues | aiza_tasty/aiza_store/views.py:80-97 | after add_to_cart only the added product's priced line changes, to price × (old quantity + 1) |
| Ledger.CartTotalIncremented | aiza_tasty/aiza_store/views.py:78-98 | adding one of a catalogued product raises the cart total by exactly its price |
| Ledger.CartTotalExample | aiza_tasty/aiza_store/views.py:189-198 | a cart of {1: 2, 2: 1} priced at 5.00 and 3.00 totals 13.00 |
| Pricing.Subtotal | aiza_tasty/aiza_store/views.py:97 | `product.price * qty` for one `Line` (a cart_items entry, or an OrderItem with its price snapshot): never negative for a non-negative quantity, and at least the unit price for a quantity of at least 1 |
| Pricing.SumSubtotals | aiza_tasty/aiza_store/views.py:189-193 | `total += subtotal` over the lines: 0 for no lines, and never negative when no line has a negative quantity |
| Pricing.EnumerationSum | aiza_tasty/aiza_store/views.py:95-98 | accumulating subtotals over any duplicate-free listing of a map's entries gives the map's sum, whatever the order |
| Pricing.EnumerationTotal | aiza_tasty/aiza_store/views.py:92-98 | any listing of the resolvable cart entries sums to the cart total |
| Pricing.DistinctProductsCount | aiza_tasty/aiza_store/views.py:190-196 | lines about distinct products number as many as those products: one line per resolvable entry |
| Pricing.ProductsEmpty | aiza_tasty/aiza_store/views.py:190-196 | a listing covers no product exactly when it has no lines |
| Pricing.SumSubtotalsAppend | aiza_tasty/aiza_store/views.py:97-98 | appending a line adds its subtotal to the running total and its product to the listed products |
| Pricing.PriceCart | aiza_tasty/aiza_store/views.py:92-103 | the pricing loop yields each resolvable entry exactly once, with its cart quantity and current price; unresolved ids are skipped; total = sum of price × qty = the order-independent cart total |
| Wishlist.RemoveFirst | aiza_tasty/aiza_store/views.py:165 | `list.remove` on a present id shortens the list by one and takes one occurrence of that id out of its multiset of elements; other ids keep their membership |
| Wishlist.Toggled | aiza_tasty/aiza_store/views.py:162-165 | the toggle grows the list by one for an absent id and shrinks it by one for a present id; the membership of every other id is unchanged |
| Wishlist.RemoveFirstNoDuplicates | aiza_tasty/aiza_store/views.py:165 | in a duplicate-free list, removing the id leaves it absent and keeps the list duplicate-free |
| Wishlist.RemoveFirstAppended | aiza_tasty/aiza_store/views.py:162-165 | removing an id that was just appended to a list without it gives back the original list |
| Wishlist.ToggledNoDuplicates | aiza_tasty/aiza_store/views.py:162-165 | the toggle keeps the wishlist free of duplicates |
| Wishlist.ToggledMembership | aiza_tasty/aiza_store/views.py:162-171 | after the toggle the id is present exactly when it was absent before |
| Wishlist.ToggleTwice | aiza_tasty/aiza_store/views.py:162-165 | toggling twice restores the membership of every id and the list's length, and restores the list itself when the id was absent |
| Counters.CartContext | aiza_tasty/aiza_store/context_processor.py:8-12 | cart_count is the sum of all cart quantities, and 0 when the session has no cart |
| Counters.CartAndWishlistCount | aiza_tasty/aiza_store/context_processor.py:14-20 | returns the same cart_count as cart_context; wishlist_count is the wishlist's length, and 0 when there is no wishlist |
| Counters.CartCountBounds | aiza_tasty/aiza_store/context_processor.py:11 | for a cart that keeps its invariant, the badge shows at least one item per entry, and 0 only for an empty cart |
| Store.Session.constructor | aiza_tasty/aiza_store/views.py:80 | a new session has an empty cart and wishlist and satisfies the invariant |
| Store.Session.AddToCart | aiza_tasty/aiza_store/views.py:78-87 | an unknown id is not-found and leaves the cart alone; otherwise the cart is `Incremented`, and the returned cart_count equals cart_context's count, one more than before; keeps the invariant |
| Store.Session.CartView | aiza_tasty/aiza_store/views.py:90-108 | the page lists each resolvable entry once, with its quantity and subtotal; its total is the order-independent cart total, and is at least 0 |
| Store.Session.RemoveFromCart | aiza_tasty/aiza_store/views.py:111-117 | the cart becomes `Removed`: never fails, and changes nothing else; keeps the invariant |
| Store.Session.UpdateCart | aiza_tasty/aiza_store/views.py:120-147 | a non-POST request is refused with the cart unchanged; a POST applies `WithQuantity` and reports: subtotal = price × qty for a kept, catalogued id and 0 otherwise; total = the cart total; total_items = the sum of all quantities, unresolved ids included |
| Store.Session.AddToWishlist | aiza_tasty/aiza_store/views.py:158-172 | the wishlist becomes `Toggled`; status is "added" exactly when the id is now present (that is, when it was absent before); wishlist_count is the new length; no duplicates are ever kept |
| Store.Session.Checkout | aiza_tasty/aiza_store/views.py:175-200 | one order item per resolvable cart entry, with the cart quantity and the current price; order total = sum of item price × qty = the cart total; an empty cart gives no items and total 0; the cart is empty afterwards |
| Store.CheckoutScenario | aiza_tasty/aiza_store/views.py:185-200 | adding product 1 twice and product 2 once at 5.00 and 3.00, then checking out, records 2 items totalling 13.00 and leaves the cart empty |

## Left out

- Confirmation e-mail (views.py:202-216). `send_mail` is outside I/O. A delivery failure after the order is written is not modelled.
- Rendering and response wrapping. `render`, `redirect` and `JsonResponse` are I/O. The XHR and redirect branches of `add_to_cart` are modelled as one response carrying the cart count.
- The GET branch of `checkout` (views.py:219-222). It only renders the form with the cart.
- `wishlist_view` (views.py:151-156). It is an ORM query with no logic.
- Persistence. The product table is modelled as a map. The order and its items are returned as a value and not written to a database. The order id, status and creation time are assigned by the database; `models.py` is not part of this model.
- Float conversion. `update_cart` converts its totals to `float` for JSON (views.py:143-144). The model keeps exact cents.
- Form parsing. `int(request.POST.get("quantity", 1))` (views.py:124) is a parsed integer parameter. A non-numeric value would raise a `ValueError`, and that is not modelled. The missing-field `KeyError` of checkout (views.py:180-183) is not modelled either: the contact fields arrive already read.
- Search, pagination, signup, the category pages, the admin dashboard and its CRUD, CSV export and analytics (views.py:18-74, 224-376). They are ORM, framework and I/O wrappers with no session logic.
- `categories_processor` (context_processor.py:3-4). It is an ORM query only.
- Concurrency. Two requests racing on one session can lose an update. The model treats each view as one atomic step.
