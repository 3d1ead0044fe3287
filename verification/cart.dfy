/** The cart line record and the folds the storefront takes over a cart:
    the money subtotal, the total quantity and the loyalty points owed. */
module CartModel {

  /** One line of the cart after loading. Quantities, making times and
      points are integers; money is an exact rational amount. A redeemed
      line stands for a loyalty reward and normally has price 0. */
  datatype CartLine = CartLine(
    id: string,
    title: string,
    price: real,
    quantity: int,
    makingTime: int,
    isRedeemed: bool,
    requiredPoints: int)

  /** The making time, in minutes, assumed for a line or menu item that
      names none. */
  const DefaultMakingTime: int := 15

  /** The largest of a non-empty list of integers: an upper bound on every
      element that is itself one of them. */
  function MaxOf(xs: seq<int>): (m: int)
    requires |xs| > 0
    ensures forall i :: 0 <= i < |xs| ==> xs[i] <= m
    ensures exists i :: 0 <= i < |xs| && xs[i] == m
  {
    if |xs| == 1 then xs[0]
    else
      var rest := MaxOf(xs[1..]);
      assert forall i :: 1 <= i < |xs| ==> xs[i] == xs[1..][i - 1];
      if xs[0] >= rest then xs[0] else rest
  }

  /** What one line adds to a bill: price × quantity. */
  function LineAmount(l: CartLine): real {
    l.price * l.quantity as real
  }

  /** Price × quantity summed over every line, accumulated from the left
      starting at zero, one line at a time in cart order. */
  function Subtotal(lines: seq<CartLine>): (r: real)
    ensures |lines| == 0 ==> r == 0.0
    ensures |lines| == 1 ==> r == LineAmount(lines[0])
  {
    if |lines| == 0 then 0.0
    else Subtotal(lines[..|lines| - 1]) + LineAmount(lines[|lines| - 1])
  }

  /** The subtotal of two carts laid end to end is the sum of their subtotals. */
  lemma {:induction false} SubtotalAppend(a: seq<CartLine>, b: seq<CartLine>)
    ensures Subtotal(a + b) == Subtotal(a) + Subtotal(b)
  {
    if |b| == 0 {
      assert a + b == a;
    } else {
      var b' := b[..|b| - 1];
      assert (a + b)[..|a + b| - 1] == a + b';
      assert (a + b)[|a + b| - 1] == b[|b| - 1];
      SubtotalAppend(a, b');
    }
  }

  /** A line that takes part in the cart's pricing: a non-negative price
      and a positive quantity. */
  predicate IsPriced(l: CartLine) {
    l.price >= 0.0 && l.quantity > 0
  }

  /** The lines the cart's pricing keeps, in their original order. */
  function PricedLines(cart: seq<CartLine>): (r: seq<CartLine>)
    ensures |r| <= |cart|
    ensures forall i :: 0 <= i < |r| ==> IsPriced(r[i])
    ensures forall l :: l in r <==> l in cart && IsPriced(l)
  {
    if |cart| == 0 then []
    else (if IsPriced(cart[0]) then [cart[0]] else []) + PricedLines(cart[1..])
  }

  /** Filtering distributes over concatenation. */
  lemma {:induction false} PricedLinesAppend(a: seq<CartLine>, b: seq<CartLine>)
    ensures PricedLines(a + b) == PricedLines(a) + PricedLines(b)
  {
    if |a| == 0 {
      assert a + b == b;
    } else {
      assert (a + b)[0] == a[0];
      assert (a + b)[1..] == a[1..] + b;
      PricedLinesAppend(a[1..], b);
    }
  }

  /** A subtotal over lines that all have a non-negative price and a
      positive quantity is never negative. */
  lemma {:induction false} SubtotalOfPricedNonNegative(lines: seq<CartLine>)
    requires forall i :: 0 <= i < |lines| ==> IsPriced(lines[i])
    ensures Subtotal(lines) >= 0.0
  {
    if |lines| > 0 {
      var last := lines[|lines| - 1];
      SubtotalOfPricedNonNegative(lines[..|lines| - 1]);
      assert last.quantity as real > 0.0;
      assert LineAmount(last) >= 0.0;
    }
  }

  /** The sum of the quantities of all lines, as the checkout computes it
      before validating the cart. */
  function TotalQuantity(cart: seq<CartLine>): (n: int)
    ensures |cart| == 0 ==> n == 0
    ensures |cart| == 1 ==> n == cart[0].quantity
  {
    if |cart| == 0 then 0 else cart[0].quantity + TotalQuantity(cart[1..])
  }

  /** With every quantity positive there is at least one unit per line, so
      a non-empty cart of such lines never trips the no-items guard. */
  lemma {:induction false} TotalQuantityAtLeastLines(cart: seq<CartLine>)
    requires forall i :: 0 <= i < |cart| ==> cart[i].quantity > 0
    ensures TotalQuantity(cart) >= |cart|
  {
    if |cart| > 0 {
      TotalQuantityAtLeastLines(cart[1..]);
    }
  }

  /** The total quantity of two carts laid end to end is the sum of theirs. */
  lemma {:induction false} TotalQuantityAppend(a: seq<CartLine>, b: seq<CartLine>)
    ensures TotalQuantity(a + b) == TotalQuantity(a) + TotalQuantity(b)
  {
    if |a| == 0 {
      assert a + b == b;
    } else {
      assert (a + b)[0] == a[0];
      assert (a + b)[1..] == a[1..] + b;
      TotalQuantityAppend(a[1..], b);
    }
  }

  /** The redeemed lines of the cart, in their original order. */
  function RedeemedLines(cart: seq<CartLine>): (r: seq<CartLine>)
    ensures |r| <= |cart|
    ensures forall l :: l in r <==> l in cart && l.isRedeemed
  {
    if |cart| == 0 then []
    else (if cart[0].isRedeemed then [cart[0]] else []) + RedeemedLines(cart[1..])
  }

  /** Filtering the redeemed lines distributes over concatenation. */
  lemma {:induction false} RedeemedLinesAppend(a: seq<CartLine>, b: seq<CartLine>)
    ensures RedeemedLines(a + b) == RedeemedLines(a) + RedeemedLines(b)
  {
    if |a| == 0 {
      assert a + b == b;
    } else {
      assert (a + b)[0] == a[0];
      assert (a + b)[1..] == a[1..] + b;
      RedeemedLinesAppend(a[1..], b);
    }
  }

  /** requiredPoints × quantity summed over the given lines. */
  function PointsSum(lines: seq<CartLine>): int {
    if |lines| == 0 then 0
    else lines[0].requiredPoints * lines[0].quantity + PointsSum(lines[1..])
  }

  /** The points of two runs of lines laid end to end add up. */
  lemma {:induction false} PointsSumAppend(a: seq<CartLine>, b: seq<CartLine>)
    ensures PointsSum(a + b) == PointsSum(a) + PointsSum(b)
  {
    if |a| == 0 {
      assert a + b == b;
    } else {
      assert (a + b)[0] == a[0];
      assert (a + b)[1..] == a[1..] + b;
      PointsSumAppend(a[1..], b);
    }
  }

  /** The points a checkout of this cart debits from the wallet: the
      redeemed lines' requiredPoints × quantity, summed. */
  function PointsOwed(cart: seq<CartLine>): (p: int)
    ensures !HasRedeemedLine(cart) ==> p == 0
    ensures |cart| == 1 ==>
              p == (if cart[0].isRedeemed then cart[0].requiredPoints * cart[0].quantity else 0)
  {
    assert !HasRedeemedLine(cart) ==> RedeemedLines(cart) == [] by {
      if !HasRedeemedLine(cart) && |RedeemedLines(cart)| > 0 {
        assert RedeemedLines(cart)[0] in RedeemedLines(cart);
      }
    }
    assert |cart| == 1 ==> cart[1..] == [] && [cart[0]][1..] == [];
    assert |cart| == 1 ==> RedeemedLines(cart) == (if cart[0].isRedeemed then [cart[0]] else []) + [];
    assert |cart| == 1 ==> PointsSum([cart[0]]) == cart[0].requiredPoints * cart[0].quantity + PointsSum([]);
    PointsSum(RedeemedLines(cart))
  }

  /** The points owed by two carts laid end to end add up. */
  lemma PointsOwedAppend(a: seq<CartLine>, b: seq<CartLine>)
    ensures PointsOwed(a + b) == PointsOwed(a) + PointsOwed(b)
  {
    RedeemedLinesAppend(a, b);
    PointsSumAppend(RedeemedLines(a), RedeemedLines(b));
  }

  /** Some line of the cart is a redeemed reward. */
  predicate HasRedeemedLine(cart: seq<CartLine>) {
    exists i :: 0 <= i < |cart| && cart[i].isRedeemed
  }

  /** The invariant the reward flow keeps: no two redeemed lines share an id. */
  predicate AtMostOneRedeemedPerId(cart: seq<CartLine>) {
    var redeemed := RedeemedLines(cart);
    forall i, j :: 0 <= i < j < |redeemed| ==> redeemed[i].id != redeemed[j].id
  }
}
