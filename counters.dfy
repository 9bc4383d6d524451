/**
 * The template context processors that put the cart and wishlist badges on
 * every page. They only read the session: `cart` may be missing (no cart
 * yet), and so may `wishlist`; a missing value reads as empty.
 */
module Counters {
  import opened Wrappers
  import opened Ledger

  /** The badge numbers `cart_and_wishlist_count` adds to the template context. */
  datatype Counts = Counts(cartCount: int, wishlistCount: nat)

  /** `cart_context`: the number of items in the session cart. */
  function CartContext(cart: Option<map<int, int>>): (cartCount: int)
    ensures cart.None? ==> cartCount == 0
    ensures cart.Some? ==> cartCount == SumValues(cart.value)
  {
    SumValues(cart.GetOr(map[]))
  }

  /**
   * `cart_and_wishlist_count`: the same cart count as `cart_context`, and the
   * number of wishlist entries.
   */
  function CartAndWishlistCount(cart: Option<map<int, int>>, wishlist: Option<seq<int>>): (counts: Counts)
    ensures counts.cartCount == CartContext(cart)
    ensures wishlist.None? ==> counts.wishlistCount == 0
    ensures wishlist.Some? ==> counts.wishlistCount == |wishlist.value|
  {
    Counts(SumValues(cart.GetOr(map[])), |wishlist.GetOr([])|)
  }

  /**
   * For a cart that keeps the ledger invariant the badge shows at least one
   * item per product line, and shows 0 only for an empty cart.
   */
  lemma CartCountBounds(cart: map<int, int>)
    requires QuantitiesPositive(cart)
    ensures CartContext(Some(cart)) >= |cart|
    ensures CartContext(Some(cart)) == 0 <==> cart == map[]
  {
    SumValuesPositive(cart);
  }
}
