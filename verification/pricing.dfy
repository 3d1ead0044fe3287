/** The cart's bill: subtotal over the priced lines, two fixed surcharges,
    the active discount, and a grand total that never drops below zero. */
module Pricing {
  import opened CartModel

  /** The five amounts shown under the cart. */
  datatype Totals = Totals(
    itemTotal: real,
    gst: real,
    serviceCharge: real,
    discount: real,
    grandTotal: real)

  /** Goods and services tax, a fixed 10% of the subtotal. */
  const GstRate: real := 0.10
  /** Service charge, a fixed 5% of the subtotal. */
  const ServiceRate: real := 0.05

  /** The displayed total: the raw amount, or 0 when that is not positive. */
  function FloorAtZero(x: real): real {
    if x > 0.0 then x else 0.0
  }

  /** The cart's totals for the discount currently in force. An empty cart
      zeroes everything, including the discount; otherwise the discount is
      carried through unchanged. */
  function CartTotals(cart: seq<CartLine>, discount: real): (t: Totals)
    ensures |cart| == 0 ==> t == Totals(0.0, 0.0, 0.0, 0.0, 0.0)
    ensures |cart| > 0 ==> t.discount == discount
    ensures t.itemTotal >= 0.0
    ensures t.gst == t.itemTotal / 10.0 && t.serviceCharge == t.itemTotal / 20.0
    ensures t.grandTotal >= 0.0
    ensures t.grandTotal > 0.0 <==> t.discount < t.itemTotal * 1.15
    ensures t.grandTotal > 0.0 ==> t.grandTotal == t.itemTotal * 1.15 - t.discount
  {
    if |cart| == 0 then Totals(0.0, 0.0, 0.0, 0.0, 0.0)
    else
      var priced := PricedLines(cart);
      SubtotalOfPricedNonNegative(priced);
      var itemTotal := Subtotal(priced);
      var gst := itemTotal * GstRate;
      var serviceCharge := itemTotal * ServiceRate;
      Totals(itemTotal, gst, serviceCharge, discount,
             FloorAtZero(itemTotal + gst + serviceCharge - discount))
  }

  /** The subtotal of a non-empty cart counts exactly its priced lines:
      a line with a negative price or a non-positive quantity adds nothing. */
  lemma ItemTotalIsPricedSubtotal(cart: seq<CartLine>, discount: real)
    ensures CartTotals(cart, discount).itemTotal == Subtotal(PricedLines(cart))
  {
  }

  /** The subtotal of a cart is the sum of the subtotals of any split of it. */
  lemma ItemTotalAdditive(a: seq<CartLine>, b: seq<CartLine>, discount: real)
    ensures CartTotals(a + b, discount).itemTotal
         == CartTotals(a, discount).itemTotal + CartTotals(b, discount).itemTotal
  {
    PricedLinesAppend(a, b);
    SubtotalAppend(PricedLines(a), PricedLines(b));
    if |a| == 0 {
      assert a + b == b;
    }
    if |b| == 0 {
      assert a + b == a;
    }
  }

  /** Two non-empty carts with the same subtotal have the same totals. */
  lemma TotalsFollowItemTotal(a: seq<CartLine>, b: seq<CartLine>, discount: real)
    requires |a| > 0 && |b| > 0
    requires CartTotals(a, discount).itemTotal == CartTotals(b, discount).itemTotal
    ensures CartTotals(a, discount) == CartTotals(b, discount)
  {
  }

  /** A single line that is free or not priced adds nothing to a subtotal. */
  lemma LineAddsNothing(l: CartLine, discount: real)
    requires l.price == 0.0 || !IsPriced(l)
    ensures CartTotals([l], discount).itemTotal == 0.0
  {
    assert [l][1..] == [];
    if IsPriced(l) {
      assert PricedLines([l]) == [l];
      assert [l][..0] == [];
      assert Subtotal([l]) == Subtotal([]) + LineAmount(l);
    } else {
      assert PricedLines([l]) == [];
    }
  }

  /** Adding a line that is not priced (for instance one with a zero
      quantity) leaves every total as it was. An empty cart always carries
      a zero discount, so the claim covers it with that discount. */
  lemma UnpricedLineAddsNothing(cart: seq<CartLine>, l: CartLine, discount: real)
    requires |cart| > 0 || discount == 0.0
    requires !IsPriced(l)
    ensures CartTotals(cart + [l], discount) == CartTotals(cart, discount)
  {
    LineAddsNothing(l, discount);
    if |cart| == 0 {
      assert cart + [l] == [l];
    } else {
      ItemTotalAdditive(cart, [l], discount);
      TotalsFollowItemTotal(cart + [l], cart, discount);
    }
  }

  /** Adding a free line (a redeemed reward at price 0) leaves every total
      as it was, an empty cart (whose discount is always zero) included. */
  lemma FreeLineAddsNothing(cart: seq<CartLine>, l: CartLine, discount: real)
    requires |cart| > 0 || discount == 0.0
    requires l.price == 0.0
    ensures CartTotals(cart + [l], discount) == CartTotals(cart, discount)
  {
    LineAddsNothing(l, discount);
    if |cart| == 0 {
      assert cart + [l] == [l];
    } else {
      ItemTotalAdditive(cart, [l], discount);
      TotalsFollowItemTotal(cart + [l], cart, discount);
    }
  }

  /** One line of two items at 100 and no discount: subtotal 200, tax 20,
      service charge 10, total 230. */
  lemma ExampleTwoItemsAtHundred()
    ensures var t := CartTotals([CartLine("A", "Dosa", 100.0, 2, 15, false, 0)], 0.0);
            t == Totals(200.0, 20.0, 10.0, 0.0, 230.0)
  {
    var l := CartLine("A", "Dosa", 100.0, 2, 15, false, 0);
    assert PricedLines([l]) == [l];
    assert [l][..0] == [];
  }
}
