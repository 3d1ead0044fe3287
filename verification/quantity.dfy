/** The +/- buttons of the cart: changing one item's quantity by a delta. */
module CartQuantity {
  import opened CartModel

  /** A line the quantity buttons act on for `id`: it carries that id and is
      not a redeemed reward. */
  predicate IsAdjustable(l: CartLine, id: string) {
    l.id == id && !l.isRedeemed
  }

  /** No line of the cart is adjustable for `id`. */
  predicate NoneAdjustable(cart: seq<CartLine>, id: string) {
    forall i :: 0 <= i < |cart| ==> !IsAdjustable(cart[i], id)
  }

  /** Every line with this id that is not redeemed gets its quantity moved
      by `change`; a line whose new quantity is not positive leaves the
      cart. Redeemed lines and lines with another id stay as they are. */
  function UpdateQuantity(cart: seq<CartLine>, id: string, change: int): (r: seq<CartLine>)
    ensures |r| <= |cart|
    ensures forall i :: 0 <= i < |r| && IsAdjustable(r[i], id) ==> r[i].quantity > 0
    ensures forall l :: l in r && !IsAdjustable(l, id) ==> l in cart
    ensures NoneAdjustable(cart, id) ==> r == cart
  {
    if |cart| == 0 then []
    else
      var l := cart[0];
      var rest := UpdateQuantity(cart[1..], id, change);
      if IsAdjustable(l, id) then
        (if l.quantity + change > 0 then [l.(quantity := l.quantity + change)] + rest else rest)
      else [l] + rest
  }

  /** The update acts on each part of a split cart separately. */
  lemma {:induction false} UpdateQuantityAppend(a: seq<CartLine>, b: seq<CartLine>, id: string, change: int)
    ensures UpdateQuantity(a + b, id, change) == UpdateQuantity(a, id, change) + UpdateQuantity(b, id, change)
  {
    if |a| == 0 {
      assert a + b == b;
    } else {
      assert (a + b)[0] == a[0];
      assert (a + b)[1..] == a[1..] + b;
      UpdateQuantityAppend(a[1..], b, id, change);
    }
  }

  /** In a cart holding one adjustable line for `id`, that line gets
      quantity q + change when that is positive and is removed otherwise;
      every other line keeps its place and value. */
  lemma UpdateSingleLine(pre: seq<CartLine>, l: CartLine, post: seq<CartLine>, change: int)
    requires !l.isRedeemed
    requires NoneAdjustable(pre, l.id) && NoneAdjustable(post, l.id)
    ensures UpdateQuantity(pre + [l] + post, l.id, change) == pre + LineAfter(l, change) + post
  {
    var id := l.id;
    UpdateQuantityAppend(pre + [l], post, id, change);
    UpdateQuantityAppend(pre, [l], id, change);
    OneLine(l, change);
  }

  /** What becomes of one adjustable line under a change. */
  function LineAfter(l: CartLine, change: int): seq<CartLine> {
    if l.quantity + change > 0 then [l.(quantity := l.quantity + change)] else []
  }

  lemma OneLine(l: CartLine, change: int)
    requires !l.isRedeemed
    ensures UpdateQuantity([l], l.id, change) == LineAfter(l, change)
  {
    assert [l][1..] == [];
  }

  /** Pressing "-" as many times as the quantity, or more, removes the line. */
  lemma RemoveByFullDecrement(pre: seq<CartLine>, l: CartLine, post: seq<CartLine>, change: int)
    requires !l.isRedeemed && l.quantity + change <= 0
    requires NoneAdjustable(pre, l.id) && NoneAdjustable(post, l.id)
    ensures UpdateQuantity(pre + [l] + post, l.id, change) == pre + post
  {
    UpdateSingleLine(pre, l, post, change);
    assert LineAfter(l, change) == [];
    assert pre + LineAfter(l, change) == pre;
  }

  /** Pressing +/- with a redeemed line's id, which happens only through a
      non-redeemed line sharing that id, leaves every redeemed line in the
      cart; when no such non-redeemed line exists the cart is unchanged. */
  lemma RedeemedLineIsFrozen(cart: seq<CartLine>, i: int, change: int)
    requires 0 <= i < |cart| && cart[i].isRedeemed
    ensures forall j :: 0 <= j < |cart| && cart[j].isRedeemed ==>
              cart[j] in UpdateQuantity(cart, cart[i].id, change)
    ensures NoneAdjustable(cart, cart[i].id) ==> UpdateQuantity(cart, cart[i].id, change) == cart
  {
    UpdateKeepsRedeemedLines(cart, cart[i].id, change);
    forall j | 0 <= j < |cart| && cart[j].isRedeemed
      ensures cart[j] in UpdateQuantity(cart, cart[i].id, change)
    {
      assert cart[j] in RedeemedLines(cart);
    }
  }

  /** Undoing a change: when every adjustable line keeps a positive quantity
      through the change, applying the opposite change restores the cart. */
  lemma {:induction false} UpdateQuantityInverse(cart: seq<CartLine>, id: string, change: int)
    requires forall i :: 0 <= i < |cart| && IsAdjustable(cart[i], id) ==>
               cart[i].quantity > 0 && cart[i].quantity + change > 0
    ensures UpdateQuantity(UpdateQuantity(cart, id, change), id, -change) == cart
  {
    if |cart| > 0 {
      var head := [cart[0]];
      var tail := cart[1..];
      assert cart == head + tail;
      UpdateQuantityInverse(tail, id, change);
      UpdateQuantityAppend(head, tail, id, change);
      UpdateQuantityAppend(UpdateQuantity(head, id, change), UpdateQuantity(tail, id, change), id, -change);
      SingleLineInverse(cart[0], id, change);
    }
  }

  /** The undo property for a cart of one line. */
  lemma SingleLineInverse(l: CartLine, id: string, change: int)
    requires IsAdjustable(l, id) ==> l.quantity > 0 && l.quantity + change > 0
    ensures UpdateQuantity(UpdateQuantity([l], id, change), id, -change) == [l]
  {
    assert [l][1..] == [];
    if IsAdjustable(l, id) {
      var l' := l.(quantity := l.quantity + change);
      assert UpdateQuantity([l], id, change) == [l'];
      assert [l'][1..] == [];
      assert l'.(quantity := l'.quantity - change) == l;
    }
  }

  /** Quantity changes never touch the redeemed lines: they come out the
      same and in the same order. */
  lemma {:induction false} UpdateKeepsRedeemedLines(cart: seq<CartLine>, id: string, change: int)
    ensures RedeemedLines(UpdateQuantity(cart, id, change)) == RedeemedLines(cart)
  {
    if |cart| > 0 {
      var l := cart[0];
      var rest := UpdateQuantity(cart[1..], id, change);
      UpdateKeepsRedeemedLines(cart[1..], id, change);
      if IsAdjustable(l, id) {
        if l.quantity + change > 0 {
          RedeemedLinesAppend([l.(quantity := l.quantity + change)], rest);
          assert [l.(quantity := l.quantity + change)][1..] == [];
        }
      } else {
        RedeemedLinesAppend([l], rest);
        assert [l][1..] == [];
      }
    }
  }

  /** Hence the points a checkout will debit survive every quantity change. */
  lemma UpdateKeepsPointsOwed(cart: seq<CartLine>, id: string, change: int)
    ensures PointsOwed(UpdateQuantity(cart, id, change)) == PointsOwed(cart)
  {
    UpdateKeepsRedeemedLines(cart, id, change);
  }

  /** And so does the invariant that no two redeemed lines share an id. */
  lemma UpdateKeepsOneRedeemedPerId(cart: seq<CartLine>, id: string, change: int)
    ensures AtMostOneRedeemedPerId(UpdateQuantity(cart, id, change)) <==> AtMostOneRedeemedPerId(cart)
  {
    UpdateKeepsRedeemedLines(cart, id, change);
  }
}
