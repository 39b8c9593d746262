/**
 * Checkout pricing on the payment screen: the subtotal of the stored cart,
 * the delivery fee, the grand total and the two promo codes. Money is an
 * integer number of VND.
 */
module Pricing {
  import opened Options
  import opened Text

  const DELIVERY_FEE: int := 15000
  const FREE_DELIVERY_THRESHOLD: int := 100000

  datatype OrderType = Delivery | Pickup

  /** The cart as the ordering flow stores it under the key "cart". */
  datatype CustomizeTopping = CustomizeTopping(topping: string, quantity: int)
  datatype Customize = Customize(
    id: Option<string>, note: Option<string>, size: string, product: string,
    price: int, extra: int, customizeToppings: Option<seq<CustomizeTopping>>)
  datatype StoredCartItem = StoredCartItem(
    id: Option<string>, quantity: int, unitPrice: int, customize: Customize)
  datatype StoredCart = StoredCart(
    id: string, customerId: string, totalAmount: int, cartItems: Option<seq<StoredCartItem>>)

  /** A line as the payment screen holds it after reshaping the stored one. */
  datatype CheckoutItem = CheckoutItem(
    id: Option<string>, name: string, price: int, quantity: int, size: string,
    note: Option<string>, extra: int, customizeToppings: Option<seq<CustomizeTopping>>)

  function ToCheckoutItem(s: StoredCartItem): CheckoutItem {
    CheckoutItem(s.id, s.customize.product, s.customize.price, s.quantity,
                 s.customize.size, s.customize.note, s.customize.extra,
                 s.customize.customizeToppings)
  }

  /** `parsedCart.cartItems?.map(...) || []`. */
  function TransformItems(c: StoredCart): (r: seq<CheckoutItem>)
    ensures c.cartItems.None? ==> r == []
    ensures c.cartItems.Some? ==> |r| == |c.cartItems.value|
    ensures c.cartItems.Some? ==>
      forall i :: 0 <= i < |r| ==>
        r[i].price == c.cartItems.value[i].customize.price
        && r[i].quantity == c.cartItems.value[i].quantity
  {
    match c.cartItems
    case None => []
    case Some(items) => seq(|items|, i requires 0 <= i < |items| => ToCheckoutItem(items[i]))
  }

  function LineAmount(item: CheckoutItem): int {
    item.price * item.quantity
  }

  /** `items.reduce((sum, item) => sum + item.price * item.quantity, 0)`, folded from the left. */
  function Subtotal(items: seq<CheckoutItem>): int {
    if items == [] then 0 else Subtotal(items[..|items| - 1]) + LineAmount(items[|items| - 1])
  }

  /** The subtotal of two runs of lines is the sum of their subtotals. */
  lemma {:induction false} SubtotalAppend(a: seq<CheckoutItem>, b: seq<CheckoutItem>)
    ensures Subtotal(a + b) == Subtotal(a) + Subtotal(b)
  {
    if b == [] {
      assert a + b == a;
    } else {
      SubtotalAppend(a, b[..|b| - 1]);
      assert (a + b)[..|a + b| - 1] == a + b[..|b| - 1];
      assert (a + b)[|a + b| - 1] == b[|b| - 1];
    }
  }

  /** The left fold also peels from the front: the first line's amount plus the subtotal of the rest. */
  lemma {:induction false} SubtotalFromFront(items: seq<CheckoutItem>)
    ensures items != [] ==> Subtotal(items) == LineAmount(items[0]) + Subtotal(items[1..])
  {
    if items != [] {
      SubtotalAppend([items[0]], items[1..]);
      assert [items[0]] + items[1..] == items;
    }
  }

  /** With no negative prices and quantities the subtotal is not negative. */
  lemma {:induction false} SubtotalNonNegative(items: seq<CheckoutItem>)
    requires forall i :: 0 <= i < |items| ==> items[i].price >= 0 && items[i].quantity >= 0
    ensures Subtotal(items) >= 0
  {
    if items != [] {
      SubtotalNonNegative(items[..|items| - 1]);
    }
  }

  /** A stored cart without a `cartItems` list yields no lines and a subtotal of 0. */
  lemma MissingItemsGiveZero(c: StoredCart)
    requires c.cartItems.None?
    ensures Subtotal(TransformItems(c)) == 0
  {
  }

  /** The subtotal takes the product price from `customize.price`; `extra` and `unitPrice` do not enter it. */
  lemma {:induction false} SubtotalIgnoresExtra(c: StoredCart, d: StoredCart)
    requires c.cartItems.Some? && d.cartItems.Some?
    requires |c.cartItems.value| == |d.cartItems.value|
    requires forall i :: 0 <= i < |c.cartItems.value| ==>
      c.cartItems.value[i].customize.price == d.cartItems.value[i].customize.price
      && c.cartItems.value[i].quantity == d.cartItems.value[i].quantity
    ensures Subtotal(TransformItems(c)) == Subtotal(TransformItems(d))
  {
    SameAmountsSameSubtotal(TransformItems(c), TransformItems(d));
  }

  lemma {:induction false} SameAmountsSameSubtotal(a: seq<CheckoutItem>, b: seq<CheckoutItem>)
    requires |a| == |b|
    requires forall i :: 0 <= i < |a| ==> LineAmount(a[i]) == LineAmount(b[i])
    ensures Subtotal(a) == Subtotal(b)
  {
    if a != [] {
      SameAmountsSameSubtotal(a[..|a| - 1], b[..|b| - 1]);
    }
  }

  /** The delivery fee: nothing for pickup, nothing above the threshold, else the flat fee. */
  function DeliveryFee(orderType: OrderType, subtotal: int): (fee: int)
    ensures orderType == Pickup ==> fee == 0
    ensures orderType == Delivery ==> (fee == 0 <==> subtotal > FREE_DELIVERY_THRESHOLD)
    ensures fee == 0 || fee == DELIVERY_FEE
  {
    if orderType == Pickup then 0
    else if subtotal > FREE_DELIVERY_THRESHOLD then 0
    else DELIVERY_FEE
  }

  /** `subtotal + deliveryFee - promoDiscount`, with no floor at zero. */
  function GrandTotal(subtotal: int, deliveryFee: int, promoDiscount: int): int {
    subtotal + deliveryFee - promoDiscount
  }

  /** `Math.round(subtotal * 0.1)`: the integer nearest to a tenth, halves rounded up. */
  function TenPercent(subtotal: int): (r: int)
    ensures 10 * r - 5 <= subtotal < 10 * r + 5
  {
    (subtotal + 5) / 10
  }

  datatype Promo = Welcome10 | FreeShip | UnknownCode

  /** Which promo a typed code names, compared after `toUpperCase()`. */
  function Recognize(code: string): Promo {
    var upper := ToUpper(code);
    if upper == "WELCOME10" then Welcome10
    else if upper == "FREESHIP" then FreeShip
    else UnknownCode
  }

  /** The pair of screen states `promoDiscount` and `promoApplied`. */
  datatype PromoState = PromoState(discount: int, applied: bool)

  /** The message the apply handler shows: success, "already free", or "invalid or expired". */
  datatype PromoNotice = Accepted | AlreadyFree | Rejected

  datatype PromoOutcome = PromoOutcome(state: PromoState, notice: PromoNotice)

  /** The promo-code handler: what pressing "apply" does to the promo state. */
  function ApplyPromo(code: string, subtotal: int, orderType: OrderType, st: PromoState): (r: PromoOutcome)
    ensures r.notice == Accepted <==>
      Recognize(code) == Welcome10
      || (Recognize(code) == FreeShip && subtotal < FREE_DELIVERY_THRESHOLD && orderType == Delivery)
    ensures r.notice == Rejected <==> Recognize(code) == UnknownCode
    ensures r.notice != Accepted ==> r.state == st
    ensures r.notice == Accepted ==> r.state.applied
    ensures Recognize(code) == Welcome10 ==> r.state.discount == TenPercent(subtotal)
    ensures r.notice == Accepted && Recognize(code) == FreeShip ==> r.state.discount == DELIVERY_FEE
  {
    match Recognize(code)
    case Welcome10 => PromoOutcome(PromoState(TenPercent(subtotal), true), Accepted)
    case FreeShip =>
      if subtotal < FREE_DELIVERY_THRESHOLD && orderType == Delivery then
        PromoOutcome(PromoState(DELIVERY_FEE, true), Accepted)
      else
        PromoOutcome(st, AlreadyFree)
    case UnknownCode => PromoOutcome(st, Rejected)
  }

  /** Codes are matched without regard to case: upper-casing the typed code first changes nothing. */
  lemma PromoCaseInsensitive(code: string, subtotal: int, orderType: OrderType, st: PromoState)
    ensures ApplyPromo(ToUpper(code), subtotal, orderType, st) == ApplyPromo(code, subtotal, orderType, st)
  {
    ToUpperIdempotent(code);
  }

  /** Lower-case and mixed-case spellings, and the two non-ASCII look-alikes, name the promos; the code is not trimmed. */
  lemma PromoSpellings()
    ensures Recognize("welcome10") == Welcome10 && Recognize("Welcome10") == Welcome10
    ensures Recognize("freeship") == FreeShip && Recognize("FreeShip") == FreeShip
    ensures Recognize("freesh\U{131}p") == FreeShip
    ensures Recognize("free\U{17F}hip") == FreeShip
    ensures Recognize("WELCOME 10") == UnknownCode && Recognize("FREESHIP ") == UnknownCode
  {
    assert ToUpper("welcome10") == "WELCOME10";
    assert ToUpper("Welcome10") == "WELCOME10";
    assert ToUpper("freeship") == "FREESHIP";
    assert ToUpper("FreeShip") == "FREESHIP";
    assert ToUpper("freesh\U{131}p") == "FREESHIP";
    assert ToUpper("free\U{17F}hip") == "FREESHIP";
    assert ToUpper("WELCOME 10")[7] == ' ';
    assert ToUpper("FREESHIP ")[0] == 'F';
  }

  /** An accepted FREESHIP discount is exactly the delivery fee the order is charged at that moment. */
  lemma FreeShipDiscountIsTheFee(code: string, subtotal: int, orderType: OrderType, st: PromoState)
    requires Recognize(code) == FreeShip
    requires ApplyPromo(code, subtotal, orderType, st).notice == Accepted
    ensures ApplyPromo(code, subtotal, orderType, st).state.discount == DeliveryFee(orderType, subtotal) > 0
    ensures GrandTotal(subtotal, DeliveryFee(orderType, subtotal),
                       ApplyPromo(code, subtotal, orderType, st).state.discount) == subtotal
  {
  }

  /**
   * At a subtotal of exactly 100000 a delivery order pays the fee (the waiver
   * needs more than 100000) yet FREESHIP is refused as "already free" (it
   * needs less than 100000).
   */
  lemma FreeShipBoundary(st: PromoState)
    ensures DeliveryFee(Delivery, FREE_DELIVERY_THRESHOLD) == DELIVERY_FEE
    ensures ApplyPromo("FREESHIP", FREE_DELIVERY_THRESHOLD, Delivery, st) == PromoOutcome(st, AlreadyFree)
  {
    assert ToUpper("FREESHIP") == "FREESHIP";
  }

  /**
   * The discount is stored, not recomputed: a FREESHIP discount accepted on
   * a delivery order still applies once the order is switched to pickup, so
   * the total falls 15000 below the subtotal (below zero for small carts).
   */
  lemma StaleFreeShipOnPickup(code: string, subtotal: int, st: PromoState)
    requires Recognize(code) == FreeShip
    requires ApplyPromo(code, subtotal, Delivery, st).notice == Accepted
    ensures GrandTotal(subtotal, DeliveryFee(Pickup, subtotal),
                       ApplyPromo(code, subtotal, Delivery, st).state.discount) == subtotal - DELIVERY_FEE
    ensures subtotal < DELIVERY_FEE ==>
      GrandTotal(subtotal, DeliveryFee(Pickup, subtotal),
                 ApplyPromo(code, subtotal, Delivery, st).state.discount) < 0
  {
  }

  /** One line at 29000 with quantity 2 gives a subtotal of 58000. */
  lemma SubtotalExample()
    ensures Subtotal([CheckoutItem(None, "Ca phe sua", 29000, 2, "M", None, 0, None)]) == 58000
  {
  }

  /** WELCOME10 on a 100000 delivery order: 10000 off a total that still carries the fee. */
  lemma WelcomeExample(st: PromoState)
    ensures ApplyPromo("WELCOME10", 100000, Delivery, st) == PromoOutcome(PromoState(10000, true), Accepted)
    ensures GrandTotal(100000, DeliveryFee(Delivery, 100000), 10000) == 105000
    ensures DeliveryFee(Delivery, 120000) == 0 && DeliveryFee(Pickup, 50000) == 0
    ensures DeliveryFee(Delivery, 50000) == 15000
  {
    assert ToUpper("WELCOME10") == "WELCOME10";
  }
}
