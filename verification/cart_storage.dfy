/** Loading the cart from client storage: every stored line is coerced
    field by field, a missing or falsy field taking its default. */
module CartStorage {
  import opened Wrappers
  import opened CartModel

  /** A line as parsed from storage: any field may be absent. */
  datatype RawLine = RawLine(
    id: Option<string>,
    title: Option<string>,
    price: Option<real>,
    quantity: Option<int>,
    makingTime: Option<int>,
    isRedeemed: Option<bool>,
    requiredPoints: Option<int>)

  const DefaultId: string := "unknown"
  const DefaultTitle: string := "Unknown"
  const DefaultQuantity: int := 1

  /** A string field with a default: the default replaces an absent or
      empty value. */
  function OrString(v: Option<string>, d: string): string {
    if v.Some? && v.value != "" then v.value else d
  }

  /** A count field with a default: the default replaces an absent or
      zero value. */
  function OrInt(v: Option<int>, d: int): int {
    if v.Some? && v.value != 0 then v.value else d
  }

  /** A money field with a default: the default replaces an absent or
      zero amount. */
  function OrReal(v: Option<real>, d: real): real {
    if v.Some? && v.value != 0.0 then v.value else d
  }

  /** A flag with a default: the default replaces an absent or false
      value. */
  function OrBool(v: Option<bool>, d: bool): bool {
    if v.Some? && v.value then true else d
  }

  /** A line whose fields would all survive a load unchanged: the string
      fields are non-empty and the quantity and making time are non-zero. */
  predicate IsLoadable(l: CartLine) {
    l.id != "" && l.title != "" && l.quantity != 0 && l.makingTime != 0
  }

  /** The coercion of one stored line. */
  function SanitizeLine(raw: RawLine): (l: CartLine)
    ensures IsLoadable(l)
    ensures raw.id.Some? && raw.id.value != "" ==> l.id == raw.id.value
    ensures raw.title.Some? && raw.title.value != "" ==> l.title == raw.title.value
    ensures raw.quantity.Some? && raw.quantity.value != 0 ==> l.quantity == raw.quantity.value
    ensures raw.makingTime.Some? && raw.makingTime.value != 0 ==> l.makingTime == raw.makingTime.value
    ensures raw.id.None? || raw.id.value == "" ==> l.id == DefaultId
    ensures raw.title.None? || raw.title.value == "" ==> l.title == DefaultTitle
    ensures raw.quantity.None? || raw.quantity.value == 0 ==> l.quantity == DefaultQuantity
    ensures raw.makingTime.None? || raw.makingTime.value == 0 ==> l.makingTime == DefaultMakingTime
    ensures l.price == ValueOr(raw.price, 0.0)
    ensures l.isRedeemed == ValueOr(raw.isRedeemed, false)
    ensures l.requiredPoints == ValueOr(raw.requiredPoints, 0)
  {
    CartLine(
      OrString(raw.id, DefaultId),
      OrString(raw.title, DefaultTitle),
      OrReal(raw.price, 0.0),
      OrInt(raw.quantity, DefaultQuantity),
      OrInt(raw.makingTime, DefaultMakingTime),
      OrBool(raw.isRedeemed, false),
      OrInt(raw.requiredPoints, 0))
  }

  /** The load-time pass over the stored cart: one line out per line in,
      in the same order. */
  function Sanitize(raw: seq<RawLine>): (cart: seq<CartLine>)
    ensures |cart| == |raw|
    ensures forall i :: 0 <= i < |raw| ==> cart[i] == SanitizeLine(raw[i])
    ensures forall i :: 0 <= i < |cart| ==> IsLoadable(cart[i])
  {
    seq(|raw|, i requires 0 <= i < |raw| => SanitizeLine(raw[i]))
  }

  /** A loaded line written back to storage: every field present. */
  function StoreLine(l: CartLine): RawLine {
    RawLine(Some(l.id), Some(l.title), Some(l.price), Some(l.quantity),
            Some(l.makingTime), Some(l.isRedeemed), Some(l.requiredPoints))
  }

  /** The cart written back to storage, line by line and in order; no
      field of any line is left out. */
  function Store(cart: seq<CartLine>): (raw: seq<RawLine>)
    ensures |raw| == |cart|
    ensures forall i :: 0 <= i < |cart| ==>
              && raw[i].id == Some(cart[i].id) && raw[i].title == Some(cart[i].title)
              && raw[i].price == Some(cart[i].price) && raw[i].quantity == Some(cart[i].quantity)
              && raw[i].makingTime == Some(cart[i].makingTime)
              && raw[i].isRedeemed == Some(cart[i].isRedeemed)
              && raw[i].requiredPoints == Some(cart[i].requiredPoints)
  {
    seq(|cart|, i requires 0 <= i < |cart| => StoreLine(cart[i]))
  }

  /** Storing a line and loading it again gives the line back exactly when
      its string fields are non-empty and its counts non-zero. */
  lemma StoreLineRoundTrip(l: CartLine)
    ensures SanitizeLine(StoreLine(l)) == l <==> IsLoadable(l)
  {
  }

  /** Storing a cart and loading it again gives the cart back exactly when
      every line is loadable. */
  lemma StoreRoundTrip(cart: seq<CartLine>)
    ensures Sanitize(Store(cart)) == cart <==> forall i :: 0 <= i < |cart| ==> IsLoadable(cart[i])
  {
    var back := Sanitize(Store(cart));
    if forall i :: 0 <= i < |cart| ==> IsLoadable(cart[i]) {
      forall i | 0 <= i < |cart|
        ensures back[i] == cart[i]
      {
        StoreLineRoundTrip(cart[i]);
      }
    }
  }

  /** Loading is idempotent across a store: a cart that has been loaded once
      comes back unchanged from every later store-and-load. */
  lemma SanitizeIdempotent(raw: seq<RawLine>)
    ensures Sanitize(Store(Sanitize(raw))) == Sanitize(raw)
  {
    StoreRoundTrip(Sanitize(raw));
  }
}
