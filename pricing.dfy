/**
 * Pricing the cart: the `for product in Product.objects.filter(id__in=cart.keys())`
 * loop that `cart_view`, `update_cart` and `checkout` each run. Every cart id
 * that still resolves to a product gives one line with the cart quantity and
 * the product's current price; ids that no longer resolve are skipped. The
 * database returns the products in no promised order, so the loop takes the
 * ids in an arbitrary order and the total is shown not to depend on it.
 */
module Pricing {
  import opened Ledger

  /**
   * One resolved cart entry: the product, its quantity in the cart and its unit
   * price at this moment. It is a row of the cart page and, at checkout, an
   * order item with its price snapshot.
   */
  datatype Line = Line(product: int, quantity: int, price: nat)

  /** A line's price × quantity; a line of at least one item costs at least its unit price. */
  function Subtotal(line: Line): (s: int)
    ensures line.quantity >= 0 ==> s >= 0
    ensures line.quantity >= 1 ==> s >= line.price
  {
    line.price * line.quantity
  }

  /** The sum of the line subtotals, first line first. */
  function SumSubtotals(lines: seq<Line>): (s: int)
    ensures lines == [] ==> s == 0
    ensures (forall i :: 0 <= i < |lines| ==> lines[i].quantity >= 0) ==> s >= 0
  {
    if lines == [] then 0
    else SumSubtotals(lines[..|lines| - 1]) + Subtotal(lines[|lines| - 1])
  }

  /** The products the lines are about. */
  function Products(lines: seq<Line>): set<int> {
    set i | 0 <= i < |lines| :: lines[i].product
  }

  ghost predicate DistinctProducts(lines: seq<Line>) {
    forall i, j :: 0 <= i < j < |lines| ==> lines[i].product != lines[j].product
  }

  /** The line is what the cart and the catalogue say about its product right now. */
  ghost predicate Resolves(line: Line, cart: map<int, int>, catalogue: map<int, nat>) {
    && line.product in cart && line.product in catalogue
    && line.quantity == cart[line.product]
    && line.price == catalogue[line.product]
  }

  /**
   * The lines list every cart entry that resolves in the catalogue exactly
   * once, in some order, with its cart quantity and current price.
   */
  ghost predicate Enumerates(lines: seq<Line>, cart: map<int, int>, catalogue: map<int, nat>) {
    && DistinctProducts(lines)
    && (forall i :: 0 <= i < |lines| ==> Resolves(lines[i], cart, catalogue))
    && Products(lines) == cart.Keys * catalogue.Keys
  }

  lemma SumSubtotalsAppend(lines: seq<Line>, line: Line)
    ensures SumSubtotals(lines + [line]) == SumSubtotals(lines) + Subtotal(line)
    ensures Products(lines + [line]) == Products(lines) + {line.product}
  {
    assert (lines + [line])[..|lines|] == lines;
    var extended := lines + [line];
    forall p | p in Products(extended) ensures p in Products(lines) + {line.product} {
      var i :| 0 <= i < |extended| && extended[i].product == p;
      if i < |lines| { assert lines[i].product == p; }
    }
    forall p | p in Products(lines) ensures p in Products(extended) {
      var i :| 0 <= i < |lines| && lines[i].product == p;
      assert extended[i].product == p;
    }
    assert extended[|lines|].product == line.product;
  }

  /**
   * Summing the lines of any duplicate-free listing of a map's entries gives
   * the map's sum, whatever the order of the listing.
   */
  lemma {:induction false} EnumerationSum(lines: seq<Line>, m: map<int, int>)
    requires DistinctProducts(lines)
    requires Products(lines) == m.Keys
    requires forall i :: 0 <= i < |lines| ==> lines[i].product in m && m[lines[i].product] == Subtotal(lines[i])
    ensures SumSubtotals(lines) == SumValues(m)
    decreases |lines|
  {
    if lines == [] {
      assert m.Keys == {};
      assert m == map[];
    } else {
      var n := |lines| - 1;
      var init, last := lines[..n], lines[n];
      assert lines == init + [last];
      SumSubtotalsAppend(init, last);
      assert last.product !in Products(init) by {
        forall i | 0 <= i < n ensures init[i].product != last.product {
          assert init[i] == lines[i];
        }
      }
      var rest := m - {last.product};
      assert Products(init) == rest.Keys;
      assert DistinctProducts(init) by {
        forall i, j | 0 <= i < j < n ensures init[i].product != init[j].product {
          assert init[i] == lines[i] && init[j] == lines[j];
        }
      }
      forall i | 0 <= i < n
        ensures init[i].product in rest && rest[init[i].product] == Subtotal(init[i])
      {
        assert init[i] == lines[i];
      }
      EnumerationSum(init, rest);
      SumValuesRemove(m, last.product);
    }
  }

  /** Any listing of the resolvable cart entries adds up to the cart total. */
  lemma EnumerationTotal(lines: seq<Line>, cart: map<int, int>, catalogue: map<int, nat>)
    requires Enumerates(lines, cart, catalogue)
    ensures SumSubtotals(lines) == CartTotal(cart, catalogue)
  {
    EnumerationSum(lines, LineValues(cart, catalogue));
  }

  /** Lines about distinct products are as many as the products they are about. */
  lemma {:induction false} DistinctProductsCount(lines: seq<Line>)
    requires DistinctProducts(lines)
    ensures |Products(lines)| == |lines|
    decreases |lines|
  {
    if lines != [] {
      var n := |lines| - 1;
      var init, last := lines[..n], lines[n];
      assert lines == init + [last];
      SumSubtotalsAppend(init, last);
      assert last.product !in Products(init) by {
        forall i | 0 <= i < n ensures init[i].product != last.product {
          assert init[i] == lines[i];
        }
      }
      assert DistinctProducts(init) by {
        forall i, j | 0 <= i < j < n ensures init[i].product != init[j].product {
          assert init[i] == lines[i] && init[j] == lines[j];
        }
      }
      DistinctProductsCount(init);
    } else {
      assert Products(lines) == {};
    }
  }

  /** Lines are about no product exactly when there are none. */
  lemma ProductsEmpty(lines: seq<Line>)
    ensures Products(lines) == {} <==> lines == []
  {
    if lines != [] {
      assert lines[0].product in Products(lines);
    }
  }

  /**
   * The pricing loop: one line per resolvable cart entry, the running total
   * accumulating each line's price × quantity.
   */
  method PriceCart(cart: map<int, int>, catalogue: map<int, nat>) returns (lines: seq<Line>, total: int)
    ensures Enumerates(lines, cart, catalogue)
    ensures total == SumSubtotals(lines)
    ensures total == CartTotal(cart, catalogue)
  {
    var pending := cart.Keys * catalogue.Keys;
    lines, total := [], 0;
    while pending != {}
      invariant pending !! Products(lines)
      invariant pending + Products(lines) == cart.Keys * catalogue.Keys
      invariant DistinctProducts(lines)
      invariant forall i :: 0 <= i < |lines| ==> Resolves(lines[i], cart, catalogue)
      invariant total == SumSubtotals(lines)
      decreases pending
    {
      NoMemberEmpty(pending);
      var id :| id in pending;
      var line := Line(id, cart[id], catalogue[id]);
      SumSubtotalsAppend(lines, line);
      lines := lines + [line];
      total := total + Subtotal(line);
      pending := pending - {id};
    }
    EnumerationTotal(lines, cart, catalogue);
  }
}
