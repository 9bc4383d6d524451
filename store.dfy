/**
 * The shop's session views: the cart (add, view, remove, update), the
 * wishlist toggle and the checkout that turns the cart into an order.
 *
 * A `Session` holds what the session store keeps under "cart" and
 * "wishlist"; each view method changes it in place as the view changes the
 * session. The catalogue is the product table as the view sees it at that
 * moment: product id to price in cents.
 */
module Store {
  import opened Wrappers
  import opened Ledger
  import opened Pricing
  import opened Wishlist
  import opened Counters

  /** The contact fields of the checkout form, already read from the POST data. */
  datatype Contact = Contact(name: string, email: string, phone: string, address: string)

  /** An order as checkout records it; each item keeps the price it had at checkout. */
  datatype Order = Order(contact: Contact, items: seq<Line>, totalPrice: int)

  /** `add_to_cart`: a 404 for an unknown product, else the new badge count. */
  datatype AddResponse = ProductNotFound | AddedToCart(cartCount: int)

  /** What the cart page shows. */
  datatype CartPage = CartPage(items: seq<Line>, total: int)

  /** `update_cart`: a 400 for anything but POST, else the figures the page refreshes. */
  datatype UpdateResponse = BadRequest | CartUpdated(subtotal: int, total: int, totalItems: int)

  datatype WishlistStatus = WishlistAdded | WishlistRemoved

  /** `add_to_wishlist`: the new length of the wishlist and which way the toggle went. */
  datatype WishlistResponse = WishlistResponse(wishlistCount: nat, status: WishlistStatus)

  class Session {
    var cart: map<int, int>
    var wishlist: seq<int>

    /** No cart entry below quantity 1, no wishlist id twice. */
    ghost predicate Valid()
      reads this
    {
      QuantitiesPositive(cart) && NoDuplicates(wishlist)
    }

    /** A new session: no cart and no wishlist yet, which every view reads as empty. */
    constructor ()
      ensures Valid()
      ensures cart == map[] && wishlist == []
    {
      cart := map[];
      wishlist := [];
    }

    /** `add_to_cart`: one more of a catalogued product; an unknown id is a 404 and changes nothing. */
    method AddToCart(catalogue: map<int, nat>, id: int) returns (response: AddResponse)
      requires Valid()
      modifies this
      ensures Valid() && wishlist == old(wishlist)
      ensures id !in catalogue ==> response == ProductNotFound && cart == old(cart)
      ensures id in catalogue ==> cart == Incremented(old(cart), id)
      ensures id in catalogue ==> response == AddedToCart(CartContext(Some(cart)))
      ensures id in catalogue ==> CartContext(Some(cart)) == CartContext(Some(old(cart))) + 1
    {
      if id !in catalogue {
        return ProductNotFound;
      }
      IncrementedCount(cart, id);
      cart := cart[id := Quantity(cart, id) + 1];
      response := AddedToCart(SumValues(cart));
    }

    /** `cart_view`: the resolvable entries, each with its subtotal, and the cart total. */
    method CartView(catalogue: map<int, nat>) returns (page: CartPage)
      requires Valid()
      ensures Enumerates(page.items, cart, catalogue)
      ensures page.total == SumSubtotals(page.items)
      ensures page.total == CartTotal(cart, catalogue)
      ensures page.total >= 0
    {
      var items, total := PriceCart(cart, catalogue);
      page := CartPage(items, total);
    }

    /** `remove_from_cart`: drop the entry if there is one; never fails. */
    method RemoveFromCart(id: int)
      requires Valid()
      modifies this
      ensures Valid() && wishlist == old(wishlist)
      ensures cart == Removed(old(cart), id)
    {
      if id in cart {
        cart := cart - {id};
      }
    }

    /**
     * `update_cart`: on POST, store a positive quantity or drop the entry, then
     * report the updated line's subtotal, the cart total and the item count.
     * Any other request method is refused and changes nothing.
     */
    method UpdateCart(catalogue: map<int, nat>, id: int, isPost: bool, qty: int) returns (response: UpdateResponse)
      requires Valid()
      modifies this
      ensures Valid() && wishlist == old(wishlist)
      ensures !isPost ==> response == BadRequest && cart == old(cart)
      ensures isPost ==> cart == WithQuantity(old(cart), id, qty)
      ensures isPost ==> response.CartUpdated?
      ensures isPost ==> response.subtotal == (if qty > 0 && id in catalogue then catalogue[id] * qty else 0)
      ensures isPost ==> response.total == CartTotal(cart, catalogue)
      ensures isPost ==> response.totalItems == CartContext(Some(cart))
    {
      if !isPost {
        return BadRequest;
      }
      if qty > 0 {
        cart := cart[id := qty];
      } else {
        cart := cart - {id};
      }
      var lines, total := PriceCart(cart, catalogue);
      var subtotal := 0;
      for i := 0 to |lines|
        invariant (forall j :: 0 <= j < i ==> lines[j].product != id) ==> subtotal == 0
        invariant forall j :: 0 <= j < i && lines[j].product == id ==> subtotal == Subtotal(lines[j])
      {
        if lines[i].product == id {
          subtotal := Subtotal(lines[i]);
        }
      }
      if id in cart && id in catalogue {
        assert id in Products(lines);
        var j :| 0 <= j < |lines| && lines[j].product == id;
        assert Resolves(lines[j], cart, catalogue);
      } else {
        assert id !in Products(lines);
        assert forall j :: 0 <= j < |lines| ==> lines[j].product in Products(lines);
      }
      response := CartUpdated(subtotal, total, SumValues(cart));
    }

    /**
     * `add_to_wishlist`: toggle the id, reporting the new length and whether
     * the id is now on the list.
     */
    method AddToWishlist(id: int) returns (response: WishlistResponse)
      requires Valid()
      modifies this
      ensures Valid() && cart == old(cart)
      ensures wishlist == Toggled(old(wishlist), id)
      ensures response.status == WishlistAdded <==> id in wishlist
      ensures response.status == WishlistAdded <==> id !in old(wishlist)
      ensures response.wishlistCount == |wishlist|
    {
      ghost var before := wishlist;
      if id !in wishlist {
        wishlist := wishlist + [id];
      } else {
        wishlist := RemoveFirst(wishlist, id);
      }
      ToggledNoDuplicates(before, id);
      ToggledMembership(before, id);
      response := WishlistResponse(|wishlist|, if id in wishlist then WishlistAdded else WishlistRemoved);
    }

    /**
     * `checkout` on POST: one order item per resolvable cart entry with the
     * product's current price, an order total that is the sum of the items,
     * and an empty cart afterwards. An empty cart still yields an order, with
     * no items and total 0.
     */
    method Checkout(catalogue: map<int, nat>, contact: Contact) returns (order: Order)
      requires Valid()
      modifies this
      ensures Valid() && wishlist == old(wishlist)
      ensures cart == map[]
      ensures order.contact == contact
      ensures Enumerates(order.items, old(cart), catalogue)
      ensures order.totalPrice == SumSubtotals(order.items)
      ensures order.totalPrice == CartTotal(old(cart), catalogue)
      ensures order.totalPrice >= 0
      ensures old(cart) == map[] ==> order.items == [] && order.totalPrice == 0
    {
      order := Order(contact, [], 0);
      var items, total := PriceCart(cart, catalogue);
      ProductsEmpty(items);
      order := order.(items := items, totalPrice := total);
      cart := map[];
    }
  }

  /**
   * A whole visit: two of product 1 (5.00) and one of product 2 (3.00) go in
   * the cart, and checkout records an order of two items totalling 13.00 and
   * leaves the cart empty.
   */
  method CheckoutScenario(contact: Contact) returns (order: Order, cartAfter: map<int, int>)
    ensures |order.items| == 2
    ensures order.totalPrice == 1300
    ensures cartAfter == map[]
  {
    var catalogue := map[1 := 500, 2 := 300];
    var session := new Session();
    var _ := session.AddToCart(catalogue, 1);
    assert session.cart == map[1 := 1];
    var _ := session.AddToCart(catalogue, 1);
    assert session.cart == map[1 := 2];
    var _ := session.AddToCart(catalogue, 2);
    assert session.cart == map[1 := 2, 2 := 1];
    CartTotalExample();
    order := session.Checkout(catalogue, contact);
    cartAfter := session.cart;
    ScenarioItemCount(order.items);
  }

  /** Listing the scenario's cart against its catalogue takes exactly two lines. */
  lemma ScenarioItemCount(items: seq<Line>)
    requires Enumerates(items, map[1 := 2, 2 := 1], map[1 := 500, 2 := 300])
    ensures |items| == 2
  {
    assert Products(items) == {1, 2};
    DistinctProductsCount(items);
  }
}
