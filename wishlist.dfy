/**
 * The session wishlist: a list of product ids that `add_to_wishlist` toggles.
 * An id is appended when it is absent and removed when it is present, so the
 * list never holds an id twice. The wishlist does not consult the catalogue.
 */
module Wishlist {

  /** No id occurs twice in the list. */
  ghost predicate NoDuplicates(w: seq<int>) {
    forall i, j :: 0 <= i < j < |w| ==> w[i] != w[j]
  }

  /**
   * `list.remove(x)`: the list without the first occurrence of `x`. Python
   * raises ValueError when `x` is absent; the toggle only calls it on a
   * present id.
   */
  function RemoveFirst(w: seq<int>, x: int): (r: seq<int>)
    requires x in w
    ensures |r| == |w| - 1
    ensures multiset(r) == multiset(w) - multiset{x}
    ensures forall y :: y != x ==> (y in r <==> y in w)
  {
    assert w == [w[0]] + w[1..];
    if w[0] == x then w[1..] else [w[0]] + RemoveFirst(w[1..], x)
  }

  /** `add_to_wishlist`: append an absent id, remove a present one. */
  function Toggled(w: seq<int>, x: int): (r: seq<int>)
    ensures forall y :: y != x ==> (y in r <==> y in w)
    ensures x !in w ==> |r| == |w| + 1
    ensures x in w ==> |r| == |w| - 1
  {
    if x !in w then w + [x] else RemoveFirst(w, x)
  }

  /** Removing one occurrence from a list of distinct ids removes the id entirely. */
  lemma {:induction false} RemoveFirstNoDuplicates(w: seq<int>, x: int)
    requires x in w
    requires NoDuplicates(w)
    ensures NoDuplicates(RemoveFirst(w, x))
    ensures x !in RemoveFirst(w, x)
  {
    if w[0] == x {
      assert forall i :: 1 <= i < |w| ==> w[i] != w[0];
    } else {
      var tail := RemoveFirst(w[1..], x);
      RemoveFirstNoDuplicates(w[1..], x);
      assert w[0] !in w[1..] by {
        assert forall i :: 1 <= i < |w| ==> w[i] != w[0];
      }
      assert w[0] !in tail;
      var r := [w[0]] + tail;
      forall i, j | 0 <= i < j < |r| ensures r[i] != r[j] {
        if i == 0 {
          assert r[j] == tail[j - 1];
        } else {
          assert r[i] == tail[i - 1] && r[j] == tail[j - 1];
        }
      }
    }
  }

  /** Removing the last-appended id of a list that did not hold it gives the list back. */
  lemma {:induction false} RemoveFirstAppended(w: seq<int>, x: int)
    requires x !in w
    ensures RemoveFirst(w + [x], x) == w
  {
    if w != [] {
      assert (w + [x])[1..] == w[1..] + [x];
      RemoveFirstAppended(w[1..], x);
      assert [w[0]] + w[1..] == w;
    }
  }

  /** The toggle keeps the list free of duplicates. */
  lemma ToggledNoDuplicates(w: seq<int>, x: int)
    requires NoDuplicates(w)
    ensures NoDuplicates(Toggled(w, x))
  {
    if x in w {
      RemoveFirstNoDuplicates(w, x);
    } else {
      var r := w + [x];
      forall i, j | 0 <= i < j < |r| ensures r[i] != r[j] {
        if j == |w| {
          assert r[i] == w[i];
        }
      }
    }
  }

  /** After the toggle the id is present exactly when it was absent before. */
  lemma ToggledMembership(w: seq<int>, x: int)
    requires NoDuplicates(w)
    ensures x in Toggled(w, x) <==> x !in w
  {
    if x in w {
      RemoveFirstNoDuplicates(w, x);
    }
  }

  /**
   * Toggling twice restores membership of every id and the length of the list;
   * when the id was absent it restores the list itself.
   */
  lemma ToggleTwice(w: seq<int>, x: int)
    requires NoDuplicates(w)
    ensures forall y :: y in Toggled(Toggled(w, x), x) <==> y in w
    ensures |Toggled(Toggled(w, x), x)| == |w|
    ensures x !in w ==> Toggled(Toggled(w, x), x) == w
  {
    ToggledNoDuplicates(w, x);
    ToggledMembership(w, x);
    ToggledMembership(Toggled(w, x), x);
    if x !in w {
      RemoveFirstAppended(w, x);
    }
  }
}
