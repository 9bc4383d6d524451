/**
 * The session cart ledger of the shop: a map from product id to quantity,
 * the three ways the cart views change it, and the sums taken over it
 * (the item count of the cart badge and the priced cart total).
 *
 * Product ids are the integers of the `<int:product_id>` routes; the session
 * stores them as their decimal strings, which is a one-to-one renaming.
 * Prices are whole cents.
 */
module Ledger {

  /** Quantity of `id` in the cart, 0 when the id has no entry (`cart.get(id, 0)`). */
  function Quantity(cart: map<int, int>, id: int): (q: int)
    ensures id in cart ==> q == cart[id]
    ensures id !in cart ==> q == 0
    ensures QuantitiesPositive(cart) ==> (q >= 1 <==> id in cart)
  {
    if id in cart then cart[id] else 0
  }

  /** The ledger invariant: no entry is ever stored with a quantity below 1. */
  ghost predicate QuantitiesPositive(cart: map<int, int>) {
    forall id :: id in cart ==> cart[id] >= 1
  }

  // ---------------------------------------------------------------------------
  // Summing the values of a map, in an order that does not matter
  // ---------------------------------------------------------------------------

  predicate IsLeast(k: int, s: set<int>) {
    k in s && forall j :: j in s ==> k <= j
  }

  /** A set without members is the empty set. */
  lemma NoMemberEmpty(s: set<int>)
    ensures (forall x :: x !in s) ==> s == {}
  {
    if forall x :: x !in s {
      assert s == {};
    }
  }

  lemma {:induction false} LeastExists(s: set<int>)
    requires |s| > 0
    ensures exists k :: IsLeast(k, s)
    decreases |s|
  {
    NoMemberEmpty(s);
    var x :| x in s;
    var rest := s - {x};
    if |rest| > 0 {
      LeastExists(rest);
      var k :| IsLeast(k, rest);
      var least := if x < k then x else k;
      forall j | j in s ensures least <= j {
        if j != x { assert j in rest; }
      }
      assert IsLeast(least, s);
    } else {
      assert forall j :: j in s ==> j == x;
      assert IsLeast(x, s);
    }
  }

  /** The smallest key of a non-empty map: a fixed order in which to visit its entries. */
  function LeastKey(m: map<int, int>): (k: int)
    requires m != map[]
    ensures k in m
    ensures forall j :: j in m ==> k <= j
  {
    LeastExists(m.Keys);
    var k :| IsLeast(k, m.Keys); k
  }

  /**
   * The sum of the values of a map (`sum(cart.values())`). Entries are visited
   * smallest key first, but SumValuesRemove shows that any entry can be taken
   * out first, so the sum does not depend on the order of the entries.
   */
  function SumValues(m: map<int, int>): (s: int)
    ensures m == map[] ==> s == 0
    ensures (forall k :: k in m ==> m[k] >= 0) ==> s >= 0
    decreases |m|
  {
    if m == map[] then 0
    else
      var k := LeastKey(m);
      m[k] + SumValues(m - {k})
  }

  /** Order independence: the sum is any one entry plus the sum of the others. */
  lemma {:induction false} SumValuesRemove(m: map<int, int>, k: int)
    requires k in m
    ensures SumValues(m) == m[k] + SumValues(m - {k})
    decreases |m|
  {
    var j := LeastKey(m);
    if j != k {
      SumValuesRemove(m - {j}, k);
      SumValuesRemove(m - {k}, j);
      assert m - {j} - {k} == m - {k} - {j};
    }
  }

  /** Writing `v` at `k` changes the sum by `v` minus what was there (0 for a new key). */
  lemma SumValuesUpdate(m: map<int, int>, k: int, v: int)
    ensures SumValues(m[k := v]) == SumValues(m) - Quantity(m, k) + v
  {
    SumValuesRemove(m[k := v], k);
    if k in m {
      SumValuesRemove(m, k);
      assert m[k := v] - {k} == m - {k};
    } else {
      assert m[k := v] - {k} == m;
    }
  }

  /** Deleting `k` lowers the sum by what was stored there (nothing for a missing key). */
  lemma SumValuesDelete(m: map<int, int>, k: int)
    ensures SumValues(m - {k}) == SumValues(m) - Quantity(m, k)
  {
    if k in m {
      SumValuesRemove(m, k);
    } else {
      assert m - {k} == m;
    }
  }

  /** With every quantity at least 1, the item count is at least the number of entries. */
  lemma {:induction false} SumValuesPositive(m: map<int, int>)
    requires QuantitiesPositive(m)
    ensures SumValues(m) >= |m|
    ensures SumValues(m) == 0 <==> m == map[]
    decreases |m|
  {
    if m != map[] {
      var k := LeastKey(m);
      SumValuesRemove(m, k);
      SumValuesPositive(m - {k});
    }
  }

  // ---------------------------------------------------------------------------
  // The three cart changes
  // ---------------------------------------------------------------------------

  /** `add_to_cart`: one more of `id`, an id without an entry counting as 0. */
  function Incremented(cart: map<int, int>, id: int): (r: map<int, int>)
    ensures r.Keys == cart.Keys + {id}
    ensures r[id] == Quantity(cart, id) + 1
    ensures forall k :: k in cart && k != id ==> r[k] == cart[k]
    ensures QuantitiesPositive(cart) ==> QuantitiesPositive(r)
  {
    cart[id := Quantity(cart, id) + 1]
  }

  /** `remove_from_cart`: the entry of `id` is deleted if there is one; otherwise nothing changes. */
  function Removed(cart: map<int, int>, id: int): (r: map<int, int>)
    ensures r.Keys == cart.Keys - {id}
    ensures forall k :: k in r ==> r[k] == cart[k]
    ensures id !in cart ==> r == cart
    ensures QuantitiesPositive(cart) ==> QuantitiesPositive(r)
  {
    cart - {id}
  }

  /**
   * `update_cart`: a positive quantity is stored as given; zero or a negative
   * quantity deletes the entry (`cart.pop(id, None)`).
   */
  function WithQuantity(cart: map<int, int>, id: int, qty: int): (r: map<int, int>)
    ensures qty > 0 ==> id in r && r[id] == qty
    ensures qty <= 0 ==> r == Removed(cart, id)
    ensures forall k :: k != id ==> (k in r <==> k in cart)
    ensures forall k :: k in r && k != id ==> r[k] == cart[k]
    ensures QuantitiesPositive(cart) ==> QuantitiesPositive(r)
  {
    if qty > 0 then cart[id := qty] else Removed(cart, id)
  }

  /** Adding one item raises the item count by exactly one. */
  lemma IncrementedCount(cart: map<int, int>, id: int)
    ensures SumValues(Incremented(cart, id)) == SumValues(cart) + 1
  {
    SumValuesUpdate(cart, id, Quantity(cart, id) + 1);
  }

  /** Removing an entry lowers the item count by that entry's quantity. */
  lemma RemovedCount(cart: map<int, int>, id: int)
    ensures SumValues(Removed(cart, id)) == SumValues(cart) - Quantity(cart, id)
  {
    SumValuesDelete(cart, id);
  }

  /** Setting a quantity replaces the entry's share of the item count (a non-positive one by 0). */
  lemma WithQuantityCount(cart: map<int, int>, id: int, qty: int)
    ensures SumValues(WithQuantity(cart, id, qty))
         == SumValues(cart) - Quantity(cart, id) + (if qty > 0 then qty else 0)
  {
    if qty > 0 {
      SumValuesUpdate(cart, id, qty);
    } else {
      SumValuesDelete(cart, id);
    }
  }

  // ---------------------------------------------------------------------------
  // Pricing the cart against the catalogue
  // ---------------------------------------------------------------------------

  /** Price × quantity of every cart entry whose id is still in the catalogue. */
  function LineValues(cart: map<int, int>, catalogue: map<int, nat>): (lv: map<int, int>)
    ensures lv.Keys == cart.Keys * catalogue.Keys
    ensures forall id :: id in lv ==> lv[id] == catalogue[id] * cart[id]
    ensures QuantitiesPositive(cart) ==> forall id :: id in lv ==> lv[id] >= catalogue[id]
  {
    map id | id in cart && id in catalogue :: catalogue[id] * cart[id]
  }

  /** The cart total: ids that no longer resolve to a product contribute nothing. */
  function CartTotal(cart: map<int, int>, catalogue: map<int, nat>): (t: int)
    ensures cart.Keys * catalogue.Keys == {} ==> t == 0
    ensures QuantitiesPositive(cart) ==> t >= 0
  {
    SumValues(LineValues(cart, catalogue))
  }

  /** An entry for an id the catalogue does not know leaves the total as it was. */
  lemma CartTotalStale(cart: map<int, int>, catalogue: map<int, nat>, id: int, qty: int)
    requires id !in catalogue
    ensures CartTotal(cart[id := qty], catalogue) == CartTotal(cart, catalogue)
    ensures CartTotal(Removed(cart, id), catalogue) == CartTotal(cart, catalogue)
  {
    assert LineValues(cart[id := qty], catalogue) == LineValues(cart, catalogue);
    assert LineValues(Removed(cart, id), catalogue) == LineValues(cart, catalogue);
  }

  /** The priced lines after adding one of a catalogued product: only that line changes. */
  lemma IncrementedLineValues(cart: map<int, int>, catalogue: map<int, nat>, id: int)
    requires id in catalogue
    ensures LineValues(Incremented(cart, id), catalogue)
         == LineValues(cart, catalogue)[id := catalogue[id] * (Quantity(cart, id) + 1)]
  {
    var after := LineValues(Incremented(cart, id), catalogue);
    var expected := LineValues(cart, catalogue)[id := catalogue[id] * (Quantity(cart, id) + 1)];
    assert after.Keys == expected.Keys;
    forall k | k in after ensures after[k] == expected[k] {
      if k != id {
        assert Incremented(cart, id)[k] == cart[k];
      }
    }
  }

  /** Adding one of a catalogued product raises the total by that product's price. */
  lemma CartTotalIncremented(cart: map<int, int>, catalogue: map<int, nat>, id: int)
    requires id in catalogue
    ensures CartTotal(Incremented(cart, id), catalogue) == CartTotal(cart, catalogue) + catalogue[id]
  {
    var before := LineValues(cart, catalogue);
    var price, q := catalogue[id], Quantity(cart, id);
    IncrementedLineValues(cart, catalogue, id);
    SumValuesUpdate(before, id, price * (q + 1));
    assert Quantity(before, id) == price * q;
    assert price * (q + 1) == price * q + price;
  }

  /** Two of a 5.00 product and one of a 3.00 product come to 13.00. */
  lemma CartTotalExample()
    ensures CartTotal(map[1 := 2, 2 := 1], map[1 := 500, 2 := 300]) == 1300
  {
    var lines := LineValues(map[1 := 2, 2 := 1], map[1 := 500, 2 := 300]);
    assert lines == map[1 := 1000, 2 := 300];
    SumValuesRemove(lines, 1);
    assert lines - {1} == map[2 := 300];
    SumValuesRemove(map[2 := 300], 2);
    assert map[2 := 300] - {2} == map[];
  }
}
