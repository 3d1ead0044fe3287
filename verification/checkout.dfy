/** Checkout: the guards in front of the payment widget, and the pure part
    of saving a paid order (validation, the points check, the item snapshot
    and the wallet debit). Store reads and writes are replaced by
    parameters: the signed-in user, the wallet balance if a wallet record
    exists, the payment confirmation and the clock. */
module Checkout {
  import opened Wrappers
  import opened CartModel

  /** Why the payment widget is not opened. */
  datatype PaymentBlock = EmptyCart | MissingTableNumber

  /** The guards of the "Pay" button, in order: nothing payable and nothing
      redeemed; then dine-in without a table number. None means the payment
      widget is opened. */
  function PaymentGuard(totalPrice: real, cart: seq<CartLine>, dineIn: bool, tableNumber: string)
    : (r: Option<PaymentBlock>)
    ensures r == Some(EmptyCart) <==> totalPrice <= 0.0 && !HasRedeemedLine(cart)
    ensures r == Some(MissingTableNumber) <==>
              (totalPrice > 0.0 || HasRedeemedLine(cart)) && dineIn && tableNumber == ""
    ensures r.None? <==> (totalPrice > 0.0 || HasRedeemedLine(cart)) && !(dineIn && tableNumber == "")
  {
    if totalPrice <= 0.0 && !HasRedeemedLine(cart) then Some(EmptyCart)
    else if dineIn && tableNumber == "" then Some(MissingTableNumber)
    else None
  }

  /** The cart page's state at the moment the payment is confirmed. */
  datatype CheckoutForm = CheckoutForm(
    totalPrice: real,
    dineIn: bool,
    tableNumber: string,
    instructions: string,
    couponCode: string,
    discount: real)

  /** The payment as the save records it: the gateway's payment id and
      order id, and the clock reading taken for the payment record. That
      reading is a second one, separate from the order's own timestamp. */
  datatype Confirmation = Confirmation(paymentId: string, gatewayOrderId: Option<string>, paidAt: int)

  /** The payment record stored with an order. `amount` is in paise, a
      hundredth of a rupee. */
  datatype PaymentDetails = PaymentDetails(
    paymentId: string,
    gatewayOrderId: string,
    amount: real,
    currency: string,
    status: string,
    captured: bool,
    paidAt: int)

  /** An order record as written to the order store. `pendingStatus` is the
      progress seed, kept as text as the store holds it. */
  datatype Order = Order(
    userId: string,
    items: seq<CartLine>,
    totalAmount: real,
    orderStatus: string,
    pendingStatus: string,
    paymentStatus: string,
    timestamp: int,
    makingTime: int,
    dineIn: bool,
    tableNo: Option<string>,
    instructions: string,
    couponCode: Option<string>,
    discount: real,
    payment: PaymentDetails)

  /** Why saving the order failed; nothing was written and nothing debited. */
  datatype SaveError = NoItems | InvalidCartItem | InsufficientPoints

  /** A saved order and, when the wallet was debited, its new balance. */
  datatype Saved = Saved(order: Order, newBalance: Option<int>)

  const GuestId: string := "guest"
  const InitialProgress: string := "25"
  const NoInstructions: string := "No instructions provided"
  const ClientOrderId: string := "order_client_generated"

  /** The id the order is filed under: the signed-in user's id, or the
      guest id when nobody is signed in or the id is empty. */
  function UserId(user: Option<string>): (id: string)
    ensures id != ""
  {
    if user.Some? && user.value != "" then user.value else GuestId
  }

  /** An order is filed under the guest id exactly when nobody is signed
      in, the signed-in id is empty, or it is literally the guest id;
      otherwise it is filed under the signed-in user's own id. */
  lemma UserIdFallsBackToGuest(user: Option<string>)
    ensures UserId(user) == GuestId <==> user.None? || user.value == "" || user.value == GuestId
    ensures UserId(user) != GuestId ==> user == Some(UserId(user))
  {
  }

  /** A line the save accepts: non-empty id and non-empty title. */
  predicate IsValidItem(l: CartLine) {
    l.id != "" && l.title != ""
  }

  /** A line's making time in minutes, 15 when it has none. */
  function MakingTimeOrDefault(l: CartLine): int {
    if l.makingTime != 0 then l.makingTime else DefaultMakingTime
  }

  /** The quotient m / q rounded to the nearest integer, halves rounded
      up. */
  function RoundedShare(m: int, q: int): (r: int)
    requires q != 0
    ensures r as real - 0.5 <= m as real / q as real < r as real + 0.5
  {
    (m as real / q as real + 0.5).Floor
  }

  /** For a positive total quantity the rounded share is the integer
      quotient (2m + q) div (2q). */
  lemma RoundedShareInIntegers(m: int, q: int)
    requires q > 0
    ensures RoundedShare(m, q) == (2 * m + q) / (2 * q)
  {
    var k := (2 * m + q) / (2 * q);
    var x := m as real / q as real + 0.5;
    assert 2 * q * k <= 2 * m + q < 2 * q * (k + 1);
    assert x == (2 * m + q) as real / (2 * q) as real;
    assert (2 * q * k) as real <= (2 * m + q) as real;
    assert (2 * m + q) as real < (2 * q * (k + 1)) as real;
    assert k as real <= x by {
      assert (2 * q) as real * k as real <= (2 * m + q) as real;
    }
    assert x < (k + 1) as real by {
      assert (2 * m + q) as real < (2 * q) as real * (k + 1) as real;
    }
  }

  /** The stored copy of one line: its making time becomes its share of the
      total quantity, and a line that is not redeemed carries no points. */
  function SnapshotLine(l: CartLine, totalQuantity: int): CartLine
    requires totalQuantity != 0
  {
    CartLine(l.id, l.title, l.price, l.quantity,
             RoundedShare(MakingTimeOrDefault(l), totalQuantity),
             l.isRedeemed, if l.isRedeemed then l.requiredPoints else 0)
  }

  /** The stored copies of all lines, in cart order. */
  function Snapshot(cart: seq<CartLine>, totalQuantity: int): (items: seq<CartLine>)
    requires totalQuantity != 0
    ensures |items| == |cart|
    ensures forall i :: 0 <= i < |cart| ==> items[i] == SnapshotLine(cart[i], totalQuantity)
  {
    seq(|cart|, i requires 0 <= i < |cart| => SnapshotLine(cart[i], totalQuantity))
  }

  /** The order's making time: the longest among its stored lines. */
  function MaxMakingTime(items: seq<CartLine>): (t: int)
    requires |items| > 0
    ensures forall i :: 0 <= i < |items| ==> items[i].makingTime <= t
    ensures exists i :: 0 <= i < |items| && items[i].makingTime == t
  {
    var times := seq(|items|, i requires 0 <= i < |items| => items[i].makingTime);
    assert forall i :: 0 <= i < |items| ==> times[i] == items[i].makingTime;
    MaxOf(times)
  }

  /** The save debits the wallet: points are owed, the user is signed in,
      and a wallet record exists. */
  predicate Debits(user: Option<string>, wallet: Option<int>, cart: seq<CartLine>) {
    PointsOwed(cart) > 0 && UserId(user) != GuestId && wallet.Some?
  }

  /** The order record written for a cart with a non-zero total quantity:
      one stored line per cart line, the order's making time the longest of
      theirs, the progress seeded at 25, and the form's and the payment's
      fields copied with their defaults. */
  function BuildOrder(cart: seq<CartLine>, user: Option<string>, form: CheckoutForm,
                      confirmation: Confirmation, now: int): (o: Order)
    requires TotalQuantity(cart) != 0
    ensures o.userId == UserId(user)
    ensures |o.items| == |cart|
    ensures forall i :: 0 <= i < |cart| ==>
              && o.items[i].id == cart[i].id && o.items[i].title == cart[i].title
              && o.items[i].price == cart[i].price && o.items[i].quantity == cart[i].quantity
              && o.items[i].isRedeemed == cart[i].isRedeemed
              && o.items[i].requiredPoints == (if cart[i].isRedeemed then cart[i].requiredPoints else 0)
              && o.items[i].makingTime == RoundedShare(MakingTimeOrDefault(cart[i]), TotalQuantity(cart))
    ensures forall i :: 0 <= i < |cart| ==> o.items[i].makingTime <= o.makingTime
    ensures exists i :: 0 <= i < |cart| && o.items[i].makingTime == o.makingTime
    ensures o.totalAmount == form.totalPrice && o.discount == form.discount
    ensures o.orderStatus == "Pending" && o.pendingStatus == InitialProgress && o.paymentStatus == "Paid"
    ensures o.timestamp == now
    ensures o.dineIn == form.dineIn && (o.tableNo.Some? <==> form.dineIn)
    ensures o.tableNo.Some? ==> o.tableNo.value == form.tableNumber
    ensures form.instructions != "" ==> o.instructions == form.instructions
    ensures form.instructions == "" ==> o.instructions == NoInstructions
    ensures o.couponCode.Some? <==> form.couponCode != ""
    ensures o.couponCode.Some? ==> o.couponCode.value == form.couponCode
    ensures o.payment.paymentId == confirmation.paymentId
    ensures o.payment.gatewayOrderId ==
              if confirmation.gatewayOrderId.Some? && confirmation.gatewayOrderId.value != ""
              then confirmation.gatewayOrderId.value else ClientOrderId
    ensures o.payment.amount == form.totalPrice * 100.0 && o.payment.paidAt == confirmation.paidAt
    ensures o.payment.currency == "INR" && o.payment.status == "captured" && o.payment.captured
  {
    var items := Snapshot(cart, TotalQuantity(cart));
    Order(
      UserId(user),
      items,
      form.totalPrice,
      "Pending",
      InitialProgress,
      "Paid",
      now,
      MaxMakingTime(items),
      form.dineIn,
      if form.dineIn then Some(form.tableNumber) else None,
      if form.instructions != "" then form.instructions else NoInstructions,
      if form.couponCode != "" then Some(form.couponCode) else None,
      form.discount,
      PaymentDetails(
        confirmation.paymentId,
        if confirmation.gatewayOrderId.Some? && confirmation.gatewayOrderId.value != ""
        then confirmation.gatewayOrderId.value else ClientOrderId,
        form.totalPrice * 100.0, "INR", "captured", true, confirmation.paidAt))
  }

  /** Saving a paid order. `wallet` is the signed-in user's balance
      (0 when the record holds none) when a wallet record exists, None otherwise; it is
      consulted only when points are owed by a signed-in user. The guards run
      in order (no items, an invalid line, too few points); only when all
      pass is the order built and the wallet debited. */
  function SaveOrder(cart: seq<CartLine>, user: Option<string>, wallet: Option<int>,
                     form: CheckoutForm, confirmation: Confirmation, now: int)
    : (r: Result<Saved, SaveError>)
    ensures r == Err(NoItems) <==> TotalQuantity(cart) == 0
    ensures r == Err(InvalidCartItem) <==>
              TotalQuantity(cart) != 0 && exists i :: 0 <= i < |cart| && !IsValidItem(cart[i])
    ensures r == Err(InsufficientPoints) <==>
              && TotalQuantity(cart) != 0
              && (forall i :: 0 <= i < |cart| ==> IsValidItem(cart[i]))
              && Debits(user, wallet, cart) && wallet.value < PointsOwed(cart)
    ensures r.Ok? ==>
              && TotalQuantity(cart) != 0
              && r.value.order.items == Snapshot(cart, TotalQuantity(cart))
              && r.value.order.userId == UserId(user)
              && r.value.order.totalAmount == form.totalPrice
              && r.value.order.discount == form.discount
              && r.value.order.timestamp == now
    ensures r.Ok? ==> (r.value.newBalance.Some? <==> Debits(user, wallet, cart))
    ensures r.Ok? && r.value.newBalance.Some? ==>
              && r.value.newBalance.value == wallet.value - PointsOwed(cart)
              && r.value.newBalance.value >= 0
  {
    if TotalQuantity(cart) == 0 then Err(NoItems)
    else if exists i :: 0 <= i < |cart| && !IsValidItem(cart[i]) then Err(InvalidCartItem)
    else if Debits(user, wallet, cart) && wallet.value < PointsOwed(cart) then Err(InsufficientPoints)
    else
      var order := BuildOrder(cart, user, form, confirmation, now);
      Ok(Saved(order, if Debits(user, wallet, cart) then Some(wallet.value - PointsOwed(cart)) else None))
  }

  /** What the payment callback leaves behind: on a successful save the cart
      is emptied; on any failure it is kept as it was. */
  function CompleteCheckout(cart: seq<CartLine>, user: Option<string>, wallet: Option<int>,
                            form: CheckoutForm, confirmation: Confirmation, now: int)
    : (r: (seq<CartLine>, Result<Saved, SaveError>))
    ensures r.1 == SaveOrder(cart, user, wallet, form, confirmation, now)
    ensures r.1.Ok? ==> r.0 == [] && |r.1.value.order.items| == |cart|
    ensures r.1.Err? ==> r.0 == cart
  {
    var saved := SaveOrder(cart, user, wallet, form, confirmation, now);
    if saved.Ok? then ([], saved) else (cart, saved)
  }
}

/** Properties of the checkout that relate it to the cart and the wallet. */
module CheckoutProperties {
  import opened Wrappers
  import opened CartModel
  import opened Checkout

  /** The stored items bill the same subtotal as the cart they copy. */
  lemma {:induction false} SnapshotKeepsSubtotal(cart: seq<CartLine>, q: int)
    requires q != 0
    ensures Subtotal(Snapshot(cart, q)) == Subtotal(cart)
  {
    if |cart| > 0 {
      var n := |cart| - 1;
      var items := Snapshot(cart, q);
      SnapshotKeepsSubtotal(cart[..n], q);
      assert Snapshot(cart[..n], q) == items[..n];
      assert LineAmount(items[n]) == LineAmount(cart[n]);
      assert Subtotal(items) == Subtotal(items[..n]) + LineAmount(items[n]);
      assert Subtotal(cart) == Subtotal(cart[..n]) + LineAmount(cart[n]);
    }
  }

  /** A successful save writes exactly the record `BuildOrder` describes. */
  lemma SavedOrderIsBuilt(cart: seq<CartLine>, user: Option<string>, wallet: Option<int>,
                          form: CheckoutForm, confirmation: Confirmation, now: int)
    ensures SaveOrder(cart, user, wallet, form, confirmation, now).Ok? ==>
              && TotalQuantity(cart) != 0
              && SaveOrder(cart, user, wallet, form, confirmation, now).value.order
                 == BuildOrder(cart, user, form, confirmation, now)
  {
  }

  /** A guest's checkout never touches a wallet, whatever it redeems. */
  lemma GuestNeverDebited(cart: seq<CartLine>, user: Option<string>, wallet: Option<int>,
                          form: CheckoutForm, confirmation: Confirmation, now: int)
    requires UserId(user) == GuestId
    ensures SaveOrder(cart, user, wallet, form, confirmation, now) != Err(InsufficientPoints)
    ensures SaveOrder(cart, user, wallet, form, confirmation, now).Ok? ==>
              SaveOrder(cart, user, wallet, form, confirmation, now).value.newBalance.None?
  {
  }

  /** A missing wallet record never blocks a checkout and is never debited. */
  lemma MissingWalletNeverDebited(cart: seq<CartLine>, user: Option<string>,
                                  form: CheckoutForm, confirmation: Confirmation, now: int)
    ensures SaveOrder(cart, user, None, form, confirmation, now) != Err(InsufficientPoints)
    ensures SaveOrder(cart, user, None, form, confirmation, now).Ok? ==>
              SaveOrder(cart, user, None, form, confirmation, now).value.newBalance.None?
  {
  }

  /** One redeemed reward worth 50 points against a balance of 30: the
      save is refused and nothing is debited. */
  lemma ExampleInsufficientPoints(form: CheckoutForm, confirmation: Confirmation, now: int)
    ensures SaveOrder([CartLine("R", "Free Dosa", 0.0, 1, 15, true, 50)], Some("u1"), Some(30),
                      form, confirmation, now) == Err(InsufficientPoints)
  {
    var cart := [CartLine("R", "Free Dosa", 0.0, 1, 15, true, 50)];
    assert cart[1..] == [];
    assert TotalQuantity(cart) == 1;
    assert RedeemedLines(cart) == cart;
    assert PointsSum(cart) == 50;
  }

  /** A making time of 15 split across 2 units is stored as 8 (7.5 rounds up). */
  lemma ExampleRoundedShare()
    ensures RoundedShare(15, 2) == 8
  {
    RoundedShareInIntegers(15, 2);
  }
}
