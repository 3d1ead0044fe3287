/** Properties that span several components: a loaded cart through the
    checkout, a redemption through the checkout, and a paid order through
    the order views. */
module Flows {
  import opened Wrappers
  import opened CartModel
  import opened Pricing
  import opened CartStorage
  import opened Rewards
  import opened Checkout
  import opened CheckoutProperties
  import opened OrderStatus

  /** A cart that went through the load-time coercion always has an id and
      a title on every line, so the save never rejects it as invalid. */
  lemma LoadedCartPassesItemCheck(raw: seq<RawLine>, user: Option<string>, wallet: Option<int>,
                                  form: CheckoutForm, confirmation: Confirmation, now: int)
    ensures SaveOrder(Sanitize(raw), user, wallet, form, confirmation, now) != Err(InvalidCartItem)
  {
    var cart := Sanitize(raw);
    assert forall i :: 0 <= i < |cart| ==> IsLoadable(cart[i]) && IsValidItem(cart[i]);
  }

  /** The "Pay" button against the cart's own grand total: the cart is
      refused as empty exactly when nothing is redeemed and either it has no
      lines or the discount swallows the whole surcharged subtotal. */
  lemma GuardFollowsTotals(cart: seq<CartLine>, discount: real, dineIn: bool, tableNumber: string)
    ensures PaymentGuard(CartTotals(cart, discount).grandTotal, cart, dineIn, tableNumber) == Some(EmptyCart)
            <==> !HasRedeemedLine(cart)
                 && (|cart| == 0 || discount >= CartTotals(cart, discount).itemTotal * 1.15)
  {
  }

  /** The order views rebill the stored items without the discount: for an
      order paid at the cart's grand total, with every line priced and a
      positive total, the printed total is the amount paid plus the discount. */
  lemma OrderBillIgnoresDiscount(cart: seq<CartLine>, discount: real, user: Option<string>, wallet: Option<int>,
                                 form: CheckoutForm, confirmation: Confirmation, now: int)
    requires |cart| > 0
    requires forall i :: 0 <= i < |cart| ==> IsPriced(cart[i])
    requires form.discount == discount
    requires form.totalPrice == CartTotals(cart, discount).grandTotal
    ensures form.totalPrice > 0.0 && SaveOrder(cart, user, wallet, form, confirmation, now).Ok? ==>
              var o := SaveOrder(cart, user, wallet, form, confirmation, now).value.order;
              BillOf(o.items).grandTotal == o.totalAmount + o.discount
  {
    if SaveOrder(cart, user, wallet, form, confirmation, now).Ok? {
      BillOfSavedCart(cart, discount, user, wallet, form, confirmation, now);
    }
  }

  /** The step behind it: the stored items bill the cart's own subtotal. */
  lemma BillOfSavedCart(cart: seq<CartLine>, discount: real, user: Option<string>, wallet: Option<int>,
                        form: CheckoutForm, confirmation: Confirmation, now: int)
    requires |cart| > 0
    requires forall i :: 0 <= i < |cart| ==> IsPriced(cart[i])
    ensures SaveOrder(cart, user, wallet, form, confirmation, now).Ok? ==>
              BillOf(SaveOrder(cart, user, wallet, form, confirmation, now).value.order.items).itemTotal
              == CartTotals(cart, discount).itemTotal
  {
    if SaveOrder(cart, user, wallet, form, confirmation, now).Ok? {
      var q := TotalQuantity(cart);
      var o := SaveOrder(cart, user, wallet, form, confirmation, now).value.order;
      assert o.items == Snapshot(cart, q);
      SnapshotKeepsSubtotal(cart, q);
      AllPricedIsIdentity(cart);
      ItemTotalIsPricedSubtotal(cart, discount);
    }
  }

  /** Filtering a cart whose lines are all priced keeps it whole. */
  lemma {:induction false} AllPricedIsIdentity(cart: seq<CartLine>)
    requires forall i :: 0 <= i < |cart| ==> IsPriced(cart[i])
    ensures PricedLines(cart) == cart
  {
    if |cart| > 0 {
      AllPricedIsIdentity(cart[1..]);
      assert [cart[0]] + cart[1..] == cart;
    }
  }

  /** Two 50-point rewards redeemed one after the other on a balance of 50
      points both succeed; the cart then holds both free lines and owes 100. */
  lemma RedeemTwiceOnFiftyPoints()
    ensures var item := MenuItem("m1", "Dosa", Some(10));
            var a := Reward("RA", "Free Dosa", Some(50), [item]);
            var b := Reward("RB", "Free Vada", Some(50), [item]);
            var first := Redeem(Some("u1"), 50, a, []);
            && first.Ok?
            && var second := Redeem(Some("u1"), 50, b, first.value);
            && second.Ok?
            && |second.value| == 2
            && second.value[0].title == "Free Dosa" && second.value[1].title == "Free Vada"
            && second.value[0].id == "RA" && second.value[1].id == "RB"
            && second.value[0].isRedeemed && second.value[1].isRedeemed
            && second.value[0].quantity == 1 && second.value[1].quantity == 1
            && PointsOwed(second.value) == 100
  {
    var item := MenuItem("m1", "Dosa", Some(10));
    var a := Reward("RA", "Free Dosa", Some(50), [item]);
    var b := Reward("RB", "Free Vada", Some(50), [item]);
    var first := Redeem(Some("u1"), 50, a, []);
    assert first.Ok?;
    RedeemDefersDebit(Some("u1"), 50, a, []);
    assert PointsOwed([]) == 0;
    var cart1 := first.value;
    assert cart1[0].id == "RA";
    assert !AlreadyRedeemed(cart1, "RB");
    RedeemDefersDebit(Some("u1"), 50, b, cart1);
  }

  /** The redemption check looks at one reward at a time, and the payment
      guard does not look at points at all: a user with 50 points can put two
      50-point rewards in the cart, pass the payment guard, and only then have
      the save refuse the order for insufficient points. */
  lemma RedeemTwiceFailsOnlyAfterPayment(form: CheckoutForm, confirmation: Confirmation, now: int)
    ensures var item := MenuItem("m1", "Dosa", Some(10));
            var a := Reward("RA", "Free Dosa", Some(50), [item]);
            var b := Reward("RB", "Free Vada", Some(50), [item]);
            var first := Redeem(Some("u1"), 50, a, []);
            && first.Ok?
            && var second := Redeem(Some("u1"), 50, b, first.value);
            && second.Ok?
            && PointsOwed(second.value) == 100
            && PaymentGuard(0.0, second.value, false, "").None?
            && SaveOrder(second.value, Some("u1"), Some(50), form, confirmation, now) == Err(InsufficientPoints)
  {
    RedeemTwiceOnFiftyPoints();
    var item := MenuItem("m1", "Dosa", Some(10));
    var first := Redeem(Some("u1"), 50, Reward("RA", "Free Dosa", Some(50), [item]), []);
    var cart := Redeem(Some("u1"), 50, Reward("RB", "Free Vada", Some(50), [item]), first.value).value;
    assert HasRedeemedLine(cart) by {
      assert cart[0].isRedeemed;
    }
    assert PaymentGuard(0.0, cart, false, "").None?;
    assert TotalQuantity(cart) >= 2;
    assert forall i :: 0 <= i < |cart| ==> IsValidItem(cart[i]) by {
      assert IsValidItem(cart[0]) && IsValidItem(cart[1]);
    }
    assert Debits(Some("u1"), Some(50), cart);
  }
}
