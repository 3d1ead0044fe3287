/** Coupons: which ones are on offer, how a typed code is looked up, and
    the discount a matched coupon gives. */
module Coupons {
  import opened Wrappers
  import opened CartModel
  import opened Pricing

  /** A coupon record. `discountType` is free text: only the exact string
      "percentage" selects a percentage discount, anything else is flat.
      A missing usage field makes the coupon unusable. */
  datatype Coupon = Coupon(
    id: string,
    discountType: string,
    value: real,
    expiry: Option<int>,
    usesTillValid: Option<int>,
    uses: Option<int>)

  /** Not past its expiry at time `now`. A missing expiry, and an expiry of
      0 (the epoch, which is falsy), both count as "never expires". */
  predicate NotExpired(c: Coupon, now: int) {
    c.expiry.None? || c.expiry.value == 0 || c.expiry.value > now
  }

  /** Usage limit not reached; both counters must be present to compare. */
  predicate HasUsesLeft(c: Coupon) {
    c.usesTillValid.Some? && c.uses.Some? && c.usesTillValid.value > c.uses.value
  }

  predicate IsAvailable(c: Coupon, now: int) {
    NotExpired(c, now) && HasUsesLeft(c)
  }

  /** The coupons offered at time `now`, in the order they were fetched. */
  function AvailableCoupons(all: seq<Coupon>, now: int): (r: seq<Coupon>)
    ensures |r| <= |all|
    ensures forall c :: c in r <==> c in all && IsAvailable(c, now)
  {
    if |all| == 0 then []
    else (if IsAvailable(all[0], now) then [all[0]] else []) + AvailableCoupons(all[1..], now)
  }

  /** Filtering keeps the fetched order: it distributes over concatenation. */
  lemma {:induction false} AvailableCouponsAppend(a: seq<Coupon>, b: seq<Coupon>, now: int)
    ensures AvailableCoupons(a + b, now) == AvailableCoupons(a, now) + AvailableCoupons(b, now)
    decreases |a|
  {
    if |a| == 0 {
      assert a + b == b;
    } else {
      assert (a + b)[0] == a[0];
      assert (a + b)[1..] == a[1..] + b;
      AvailableCouponsAppend(a[1..], b, now);
    }
  }

  /** ASCII upper-casing of one character. */
  function UpperChar(ch: char): char {
    if 'a' <= ch <= 'z' then (ch as int - 32) as char else ch
  }

  /** ASCII upper-casing of a string. */
  function Upper(s: string): (r: string)
    ensures |r| == |s|
    ensures forall i :: 0 <= i < |s| ==> r[i] == UpperChar(s[i])
  {
    if |s| == 0 then "" else [UpperChar(s[0])] + Upper(s[1..])
  }

  /** Codes are compared without regard to letter case. */
  predicate CodesMatch(a: string, b: string) {
    Upper(a) == Upper(b)
  }

  /** Upper-casing twice is upper-casing once, so matching is an equivalence
      that relates every code to its own upper-case form. */
  lemma UpperIdempotent(s: string)
    ensures Upper(Upper(s)) == Upper(s)
    ensures CodesMatch(s, Upper(s))
  {
  }

  /** The first coupon whose id matches `code`, if any. */
  function FindCoupon(coupons: seq<Coupon>, code: string): (r: Option<Coupon>)
    ensures r.None? <==> forall i :: 0 <= i < |coupons| ==> !CodesMatch(coupons[i].id, code)
    ensures r.Some? ==> exists i :: 0 <= i < |coupons| && coupons[i] == r.value
                          && CodesMatch(coupons[i].id, code)
                          && forall j :: 0 <= j < i ==> !CodesMatch(coupons[j].id, code)
  {
    if |coupons| == 0 then None
    else if CodesMatch(coupons[0].id, code) then Some(coupons[0])
    else
      assert forall j :: 1 <= j < |coupons| ==> coupons[j] == coupons[1..][j - 1];
      FindCoupon(coupons[1..], code)
  }

  /** A coupon that does not match is skipped by the lookup. */
  lemma FindCouponSkips(x: Coupon, rest: seq<Coupon>, code: string)
    requires !CodesMatch(x.id, code)
    ensures FindCoupon([x] + rest, code) == FindCoupon(rest, code)
  {
    assert ([x] + rest)[0] == x;
    assert ([x] + rest)[1..] == rest;
  }

  /** A first fetched coupon that is not both available and matching plays
      no part in the lookup. */
  lemma LookupSkipsHead(all: seq<Coupon>, now: int, code: string)
    requires |all| > 0 && !(IsAvailable(all[0], now) && CodesMatch(all[0].id, code))
    ensures FindCoupon(AvailableCoupons(all, now), code) == FindCoupon(AvailableCoupons(all[1..], now), code)
  {
    if IsAvailable(all[0], now) {
      OfferedHead(all, now);
      FindCouponSkips(all[0], AvailableCoupons(all[1..], now), code);
    } else {
      UnofferedHead(all, now);
    }
  }

  /** An available first coupon heads the coupons on offer. */
  lemma OfferedHead(all: seq<Coupon>, now: int)
    requires |all| > 0 && IsAvailable(all[0], now)
    ensures AvailableCoupons(all, now) == [all[0]] + AvailableCoupons(all[1..], now)
  {
  }

  /** An unavailable first coupon is dropped from the coupons on offer. */
  lemma UnofferedHead(all: seq<Coupon>, now: int)
    requires |all| > 0 && !IsAvailable(all[0], now)
    ensures AvailableCoupons(all, now) == AvailableCoupons(all[1..], now)
  {
    assert [] + AvailableCoupons(all[1..], now) == AvailableCoupons(all[1..], now);
  }

  /** A first fetched coupon that is available and matching is the one the
      lookup selects. */
  lemma LookupTakesHead(all: seq<Coupon>, now: int, code: string)
    requires |all| > 0 && IsAvailable(all[0], now) && CodesMatch(all[0].id, code)
    ensures FindCoupon(AvailableCoupons(all, now), code) == Some(all[0])
  {
    OfferedHead(all, now);
    assert AvailableCoupons(all, now)[0] == all[0];
  }

  /** Looking a code up among the coupons on offer selects the first coupon,
      in fetched order, that is both available and matching; when two
      coupons differ only in letter case, the earlier one wins. */
  lemma {:induction false} LookupTakesFirstAvailableMatch(all: seq<Coupon>, now: int, code: string)
    ensures FindCoupon(AvailableCoupons(all, now), code).None? <==>
              forall i :: 0 <= i < |all| ==> !(IsAvailable(all[i], now) && CodesMatch(all[i].id, code))
    ensures FindCoupon(AvailableCoupons(all, now), code).Some? ==>
              exists i :: 0 <= i < |all| && all[i] == FindCoupon(AvailableCoupons(all, now), code).value
                && IsAvailable(all[i], now) && CodesMatch(all[i].id, code)
                && forall j :: 0 <= j < i ==> !(IsAvailable(all[j], now) && CodesMatch(all[j].id, code))
    decreases |all|
  {
    if |all| > 0 {
      var rest := all[1..];
      if IsAvailable(all[0], now) && CodesMatch(all[0].id, code) {
        LookupTakesHead(all, now, code);
      } else {
        LookupSkipsHead(all, now, code);
        LookupTakesFirstAvailableMatch(rest, now, code);
        var r := FindCoupon(AvailableCoupons(rest, now), code);
        assert forall i :: 1 <= i < |all| ==> all[i] == rest[i - 1];
        if r.Some? {
          var k :| 0 <= k < |rest| && rest[k] == r.value
                   && IsAvailable(rest[k], now) && CodesMatch(rest[k].id, code)
                   && forall j :: 0 <= j < k ==> !(IsAvailable(rest[j], now) && CodesMatch(rest[j].id, code));
          assert all[k + 1] == r.value;
        }
      }
    }
  }

  /** The message shown under the coupon box. */
  datatype CouponMessage =
    | EnterCode
    | InvalidOrExpired
    | DiscountCapped
    | Applied(code: string, saved: real)

  /** The discount in force after pressing "Apply", and the message. */
  datatype CouponResult = CouponResult(discount: real, message: CouponMessage)

  /** The amount a capped discount stays below the subtotal. */
  const CapMargin: real := 0.01

  /** The discount a coupon gives before capping. */
  function RawDiscount(c: Coupon, itemTotal: real): real {
    if c.discountType == "percentage" then itemTotal * c.value / 100.0 else c.value
  }

  /** Pressing "Apply" with `code` typed, against the coupons on offer and the
      current subtotal. */
  function ApplyCoupon(code: string, available: seq<Coupon>, itemTotal: real): (r: CouponResult)
    ensures code == "" ==> r == CouponResult(0.0, EnterCode)
    ensures code != "" && FindCoupon(available, code).None? ==> r == CouponResult(0.0, InvalidOrExpired)
    ensures code != "" && FindCoupon(available, code).Some? ==>
              var c := FindCoupon(available, code).value;
              && r.discount < itemTotal
              && (RawDiscount(c, itemTotal) < itemTotal ==>
                    r == CouponResult(RawDiscount(c, itemTotal), Applied(c.id, RawDiscount(c, itemTotal))))
              && (RawDiscount(c, itemTotal) >= itemTotal ==>
                    r == CouponResult(itemTotal - CapMargin, DiscountCapped))
  {
    if code == "" then CouponResult(0.0, EnterCode)
    else
      match FindCoupon(available, code)
      case None => CouponResult(0.0, InvalidOrExpired)
      case Some(c) =>
        var d := RawDiscount(c, itemTotal);
        if d >= itemTotal then CouponResult(itemTotal - CapMargin, DiscountCapped)
        else CouponResult(d, Applied(c.id, d))
  }

  /** A coupon matched against the offered list is itself on offer. */
  lemma MatchedCouponIsAvailable(all: seq<Coupon>, now: int, code: string)
    requires FindCoupon(AvailableCoupons(all, now), code).Some?
    ensures var c := FindCoupon(AvailableCoupons(all, now), code).value;
            c in all && IsAvailable(c, now) && CodesMatch(c.id, code)
  {
  }

  /** When the coupon list could not be fetched (an empty list), every code
      is rejected and no discount is given. */
  lemma NoCouponsNoDiscount(code: string, itemTotal: real)
    ensures ApplyCoupon(code, [], itemTotal).discount == 0.0
  {
  }

  /** On a positive subtotal a percentage coupon is capped exactly when its
      value is at least 100. */
  lemma PercentageCappedIffAtLeastHundred(c: Coupon, itemTotal: real)
    requires c.discountType == "percentage"
    requires itemTotal > 0.0
    ensures RawDiscount(c, itemTotal) >= itemTotal <==> c.value >= 100.0
  {
    if c.value >= 100.0 {
      assert itemTotal * c.value >= itemTotal * 100.0;
    } else {
      assert itemTotal * c.value < itemTotal * 100.0;
    }
  }

  /** A matched coupon never brings the cart's grand total down to zero:
      the discount stays strictly below the subtotal, which is itself at
      most the subtotal plus surcharges. */
  lemma MatchedCouponKeepsTotalPositive(cart: seq<CartLine>, code: string, available: seq<Coupon>, before: real)
    requires |cart| > 0
    requires code != "" && FindCoupon(available, code).Some?
    ensures var itemTotal := CartTotals(cart, before).itemTotal;
            CartTotals(cart, ApplyCoupon(code, available, itemTotal).discount).grandTotal > 0.0
  {
    var itemTotal := CartTotals(cart, before).itemTotal;
    ItemTotalIsPricedSubtotal(cart, before);
    ItemTotalIsPricedSubtotal(cart, ApplyCoupon(code, available, itemTotal).discount);
  }

  /** A cart whose subtotal is 0 (only free redeemed lines) and a matched
      coupon with a non-negative value: the cap sets the discount to -0.01,
      so the customer is asked to pay 0.01. */
  lemma ZeroSubtotalCouponChargesOneCent(cart: seq<CartLine>, code: string, available: seq<Coupon>)
    requires |cart| > 0
    requires CartTotals(cart, 0.0).itemTotal == 0.0
    requires code != "" && FindCoupon(available, code).Some?
    requires FindCoupon(available, code).value.value >= 0.0
    ensures var r := ApplyCoupon(code, available, 0.0);
            && r == CouponResult(-0.01, DiscountCapped)
            && CartTotals(cart, r.discount).grandTotal == 0.01
  {
    ItemTotalIsPricedSubtotal(cart, 0.0);
    ItemTotalIsPricedSubtotal(cart, -0.01);
  }

  /** Two items at 100 and a flat coupon worth 250: the discount is capped
      at 199.99 and the total due is 30.01. */
  lemma ExampleFlatCouponCapped()
    ensures var cart := [CartLine("A", "Dosa", 100.0, 2, 15, false, 0)];
            var coupon := Coupon("BIG250", "flat", 250.0, None, Some(10), Some(0));
            var r := ApplyCoupon("big250", [coupon], 200.0);
            && r == CouponResult(199.99, DiscountCapped)
            && CartTotals(cart, r.discount).grandTotal == 30.01
  {
    var cart := [CartLine("A", "Dosa", 100.0, 2, 15, false, 0)];
    var coupon := Coupon("BIG250", "flat", 250.0, None, Some(10), Some(0));
    assert Upper("big250") == "BIG250" && Upper("BIG250") == "BIG250";
    assert FindCoupon([coupon], "big250") == Some(coupon);
    ExampleTwoItemsAtHundred();
    TotalsFollowItemTotal(cart, cart, 199.99);
    ItemTotalIsPricedSubtotal(cart, 199.99);
    ItemTotalIsPricedSubtotal(cart, 0.0);
  }
}
