/** The root application's cart ledger: an ordered list of variant ids,
    appended to by `updateCart` and purged of one id by `removeItem`. */
module Cart {

  /** `s` with every entry equal to `id` dropped, the others kept in order. */
  function Without(s: seq<int>, id: int): (r: seq<int>)
    ensures |r| <= |s|
    ensures forall k :: 0 <= k < |r| ==> r[k] != id
  {
    if s == [] then [] else (if s[0] == id then [] else [s[0]]) + Without(s[1..], id)
  }

  /** Removing distributes over concatenation, so it keeps relative order. */
  lemma {:induction false} WithoutConcat(a: seq<int>, b: seq<int>, id: int)
    ensures Without(a + b, id) == Without(a, id) + Without(b, id)
  {
    if a == [] {
      assert a + b == b;
    } else {
      assert (a + b)[0] == a[0];
      assert (a + b)[1..] == a[1..] + b;
      WithoutConcat(a[1..], b, id);
    }
  }

  /** Every other entry keeps its multiplicity; `id` keeps none. */
  lemma {:induction false} WithoutMultiset(s: seq<int>, id: int)
    ensures multiset(Without(s, id)) == multiset(s)[id := 0]
  {
    if s != [] {
      WithoutMultiset(s[1..], id);
      assert s == [s[0]] + s[1..];
    }
  }

  /** An entry survives exactly when it is in the old cart and is not `id`. */
  lemma WithoutMembers(s: seq<int>, id: int, x: int)
    ensures x in Without(s, id) <==> x in s && x != id
  {
    WithoutMultiset(s, id);
    assert x in multiset(Without(s, id)) <==> x in multiset(s)[id := 0];
  }

  /** Removing an id that is absent changes nothing. */
  lemma {:induction false} WithoutAbsent(s: seq<int>, id: int)
    requires id !in s
    ensures Without(s, id) == s
  {
    if s != [] {
      assert id !in s[1..];
      WithoutAbsent(s[1..], id);
      assert s == [s[0]] + s[1..];
    }
  }

  /** A second removal of the same id is a no-op. */
  lemma WithoutIdempotent(s: seq<int>, id: int)
    ensures Without(Without(s, id), id) == Without(s, id)
  {
    WithoutAbsent(Without(s, id), id);
  }

  /** Adding then removing: the added entry goes exactly when it is `id`. */
  lemma WithoutAfterPush(s: seq<int>, x: int, id: int)
    ensures Without(s + [x], id) == if x == id then Without(s, id) else Without(s, id) + [x]
  {
    WithoutConcat(s, [x], id);
    assert Without([x], id) == (if x == id then [] else [x]) + Without([], id);
  }

  /** One step of the backward walk: the entry at `i` followed by the rest. */
  lemma WithoutFrom(s: seq<int>, i: nat, id: int)
    requires i < |s|
    ensures Without(s[i..], id) == (if s[i] == id then [] else [s[i]]) + Without(s[i + 1..], id)
  {
    assert s[i..][0] == s[i] && s[i..][1..] == s[i + 1..];
  }

  /** The root application state. */
  class App {
    const premium: bool
    var cart: seq<int>

    constructor ()
      ensures premium && cart == []
    {
      premium := true;
      cart := [];
    }

    /** `updateCart(id)`: push `id` at the end, duplicates allowed. */
    method UpdateCart(id: int)
      modifies this`cart
      ensures cart == old(cart) + [id]
      ensures |cart| == |old(cart)| + 1 && cart[..|old(cart)|] == old(cart)
    {
      cart := cart + [id];
    }

    /** `removeItem(id)`: walk the cart backwards, splicing out each match. */
    method RemoveItem(id: int)
      modifies this`cart
      ensures cart == Without(old(cart), id)
    {
      ghost var c0 := cart;
      var i := |cart| - 1;
      while i >= 0
        invariant -1 <= i < |c0|
        invariant cart == c0[..i + 1] + Without(c0[i + 1..], id)
        decreases i + 1
      {
        WithoutFrom(c0, i, id);
        assert cart[..i] == c0[..i] && cart[i] == c0[i];
        assert cart[i + 1..] == Without(c0[i + 1..], id);
        if cart[i] == id {
          cart := cart[..i] + cart[i + 1..];
        } else {
          assert c0[..i + 1] == c0[..i] + [c0[i]];
        }
        i := i - 1;
      }
      assert c0[0..] == c0;
    }
  }

  /** `Without` on the two example carts. */
  lemma WithoutExamples()
    ensures Without([5, 7, 5, 9], 5) == [7, 9]
    ensures Without([2234, 2235, 2234], 2234) == [2235]
  {
    assert Without([9], 5) == [9] by { assert [9][1..] == []; }
    assert Without([5, 9], 5) == [9] by { assert [5, 9][1..] == [9]; }
    assert Without([7, 5, 9], 5) == [7, 9] by { assert [7, 5, 9][1..] == [5, 9]; }
    assert [5, 7, 5, 9][1..] == [7, 5, 9];
    assert Without([2234], 2234) == [] by { assert [2234][1..] == []; }
    assert Without([2235, 2234], 2234) == [2235] by { assert [2235, 2234][1..] == [2234]; }
    assert [2234, 2235, 2234][1..] == [2235, 2234];
  }

  /** Removing 5 from [5, 7, 5, 9] removes both copies. */
  method RemoveDuplicatesScenario() returns (contents: seq<int>)
    ensures contents == [7, 9]
  {
    var app := new App();
    app.UpdateCart(5);
    app.UpdateCart(7);
    app.UpdateCart(5);
    app.UpdateCart(9);
    assert app.cart == [5, 7, 5, 9];
    app.RemoveItem(5);
    contents := app.cart;
    WithoutExamples();
  }

  /** add(2234), add(2235), add(2234), remove(2234) leaves [2235]. */
  method AddRemoveScenario() returns (contents: seq<int>)
    ensures contents == [2235]
  {
    var app := new App();
    app.UpdateCart(2234);
    app.UpdateCart(2235);
    app.UpdateCart(2234);
    assert app.cart == [2234, 2235, 2234];
    app.RemoveItem(2234);
    contents := app.cart;
    WithoutExamples();
  }
}
