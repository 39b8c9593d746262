/**
 * The payment screen's state and the handlers that update it: loading the
 * stored cart and user, the order-type switch, the address fields, the promo
 * field with its apply and remove buttons, and the date and time pickers.
 */
module PaymentScreen {
  import opened Options
  import opened Text
  import opened Pricing
  import opened Pickup
  import opened CheckoutForm

  /** The signed-in user as stored under the key "user". */
  datatype UserRecord = UserRecord(deliveryAddress: Option<DeliveryAddress>, name: Option<string>, phone: Option<string>)

  datatype AddressField = FullNameField | PhoneField | AddressLineField

  /** The alert a picker handler raises when it keeps the previous pickup time. */
  datatype PickerNotice = NoNotice | InvalidDate | InvalidTime

  /** A JavaScript string used as a condition: only the empty string (or no value) is false. */
  predicate Truthy(s: Option<string>) {
    s.Some? && s.value != ""
  }

  /**
   * The delivery address after reading the stored user: the user's saved
   * address when there is one, else the user's name and phone over the
   * current address when both are present, else the current address.
   */
  function AddressFromUser(current: DeliveryAddress, user: Stored<UserRecord>): (r: DeliveryAddress)
    ensures !user.Present? ==> r == current
    ensures user.Present? && user.value.deliveryAddress.Some? ==> r == user.value.deliveryAddress.value
    ensures user.Present? && user.value.deliveryAddress.None? && Truthy(user.value.name) && Truthy(user.value.phone)
      ==> r == current.(fullName := user.value.name.value, phone := user.value.phone.value)
    ensures user.Present? && user.value.deliveryAddress.None? && !(Truthy(user.value.name) && Truthy(user.value.phone))
      ==> r == current
  {
    match user
    case Present(u) =>
      if u.deliveryAddress.Some? then u.deliveryAddress.value
      else if Truthy(u.name) && Truthy(u.phone) then
        DeliveryAddress(u.name.value, u.phone.value, current.address)
      else current
    case _ => current
  }

  class Checkout {
    var cartItems: seq<CheckoutItem>
    var subtotal: int
    var orderType: OrderType
    var deliveryAddress: DeliveryAddress
    var promoCode: string
    var promoDiscount: int
    var promoApplied: bool
    var pickupDateTime: int

    /**
     * The promo state is either cleared (no discount), or holds a code that
     * names a promo; an applied FREESHIP always carries the flat fee.
     */
    ghost predicate Valid()
      reads this
    {
      (!promoApplied ==> promoDiscount == 0)
      && (promoApplied ==> Recognize(promoCode) != UnknownCode)
      && (promoApplied && Recognize(promoCode) == FreeShip ==> promoDiscount == DELIVERY_FEE)
    }

    /** `deliveryFee`, derived on every render from the order type and the subtotal. */
    function DeliveryFeeDue(): int
      reads this
    {
      DeliveryFee(orderType, subtotal)
    }

    /** `total`, derived on every render; the stored discount is used as it stands. */
    function Total(): int
      reads this
    {
      GrandTotal(subtotal, DeliveryFeeDue(), promoDiscount)
    }

    /** The promo text field is editable only while no promo is applied. */
    predicate PromoInputEditable()
      reads this
    {
      !promoApplied
    }

    /** The apply button is disabled while a promo is applied or the field is empty. */
    predicate ApplyButtonEnabled()
      reads this
    {
      !(promoApplied || promoCode == "")
    }

    /** The screen's first render, at time `now`. */
    constructor (now: int)
      ensures Valid()
      ensures cartItems == [] && subtotal == 0 && orderType == Delivery
      ensures deliveryAddress == DeliveryAddress("", "", "")
      ensures promoCode == "" && promoDiscount == 0 && !promoApplied
      ensures IsDefaultPickupTime(pickupDateTime, now) && IsValidPickupDateTime(pickupDateTime, now)
    {
      var t := DefaultPickupTime(now);
      cartItems := [];
      subtotal := 0;
      orderType := Delivery;
      deliveryAddress := DeliveryAddress("", "", "");
      promoCode := "";
      promoDiscount := 0;
      promoApplied := false;
      pickupDateTime := t;
    }

    /**
     * The mount-time load: a stored cart replaces the lines and the subtotal
     * is recomputed from them; then the stored user fills the address. A
     * stored value that does not parse ends the load where it stands and
     * raises the load-failure alert.
     */
    method LoadData(cart: Stored<StoredCart>, user: Stored<UserRecord>) returns (loadFailed: bool)
      requires Valid()
      modifies this`cartItems, this`subtotal, this`deliveryAddress
      ensures Valid()
      ensures loadFailed <==> cart.Corrupt? || user.Corrupt?
      ensures cart.Present? ==> cartItems == TransformItems(cart.value) && subtotal == Subtotal(cartItems)
      ensures !cart.Present? ==> cartItems == old(cartItems) && subtotal == old(subtotal)
      ensures deliveryAddress == if cart.Corrupt? then old(deliveryAddress) else AddressFromUser(old(deliveryAddress), user)
    {
      match cart {
        case Corrupt =>
          return true;
        case Present(c) =>
          var items := TransformItems(c);
          cartItems := items;
          subtotal := Subtotal(items);
        case Absent =>
      }
      deliveryAddress := AddressFromUser(deliveryAddress, user);
      loadFailed := user.Corrupt?;
    }

    /** The delivery/pickup toggle; the promo discount is not revisited. */
    method SetOrderType(t: OrderType)
      modifies this`orderType
      ensures orderType == t
    {
      orderType := t;
    }

    /**
     * One of the name, phone or address text fields, each a copy of the
     * address with one part replaced; the address line is shown only for
     * delivery orders.
     */
    method EditAddress(f: AddressField, v: string)
      requires f == AddressLineField ==> orderType == Delivery
      modifies this`deliveryAddress
      ensures deliveryAddress == match f
        case FullNameField => old(deliveryAddress).(fullName := v)
        case PhoneField => old(deliveryAddress).(phone := v)
        case AddressLineField => old(deliveryAddress).(address := v)
    {
      match f {
        case FullNameField => deliveryAddress := deliveryAddress.(fullName := v);
        case PhoneField => deliveryAddress := deliveryAddress.(phone := v);
        case AddressLineField => deliveryAddress := deliveryAddress.(address := v);
      }
    }

    /** Typing in the promo field; ignored while the field is not editable. */
    method EditPromoCode(s: string)
      requires Valid()
      modifies this`promoCode
      ensures Valid()
      ensures promoCode == if old(PromoInputEditable()) then s else old(promoCode)
    {
      if PromoInputEditable() {
        promoCode := s;
      }
    }

    /** `handleApplyPromo`: the promo rule applied to the typed code, the subtotal and the order type. */
    method ApplyPromoCode() returns (notice: PromoNotice)
      requires Valid()
      modifies this`promoDiscount, this`promoApplied
      ensures Valid()
      ensures var o := ApplyPromo(promoCode, subtotal, orderType, PromoState(old(promoDiscount), old(promoApplied)));
        promoDiscount == o.state.discount && promoApplied == o.state.applied && notice == o.notice
    {
      var o := ApplyPromo(promoCode, subtotal, orderType, PromoState(promoDiscount, promoApplied));
      promoDiscount, promoApplied := o.state.discount, o.state.applied;
      notice := o.notice;
    }

    /** A press on the apply button: nothing happens while it is disabled. */
    method PressApply() returns (notice: Option<PromoNotice>)
      requires Valid()
      modifies this`promoDiscount, this`promoApplied
      ensures Valid()
      ensures !old(ApplyButtonEnabled()) ==>
        notice == None && promoDiscount == old(promoDiscount) && promoApplied == old(promoApplied)
      ensures old(ApplyButtonEnabled()) ==>
        var o := ApplyPromo(promoCode, subtotal, orderType, PromoState(0, false));
        notice == Some(o.notice) && promoDiscount == o.state.discount && promoApplied == o.state.applied
    {
      if ApplyButtonEnabled() {
        var n := ApplyPromoCode();
        notice := Some(n);
      } else {
        notice := None;
      }
    }

    /** The remove-promo button, shown while a promo is applied: clears the code, the discount and the flag. */
    method RemovePromo()
      requires promoApplied
      modifies this`promoCode, this`promoDiscount, this`promoApplied
      ensures Valid()
      ensures promoCode == "" && promoDiscount == 0 && !promoApplied
      ensures PromoInputEditable() && Total() == subtotal + DeliveryFeeDue()
    {
      promoCode := "";
      promoDiscount := 0;
      promoApplied := false;
    }

    /**
     * The date picker: keep the clock time on the picked day if that is a
     * valid pickup, else try 10:00 on the picked day, else keep the old
     * pickup time and alert. A dismissed picker passes no date.
     */
    method OnDateChange(selected: Option<int>, now: int) returns (notice: PickerNotice)
      modifies this`pickupDateTime
      ensures pickupDateTime == old(pickupDateTime) || IsValidPickupDateTime(pickupDateTime, now)
      ensures selected.None? ==> pickupDateTime == old(pickupDateTime) && notice == NoNotice
      ensures selected.Some? ==>
        var kept := WithDateOf(old(pickupDateTime), selected.value);
        var opening := OpeningOn(selected.value);
        if IsValidPickupDateTime(kept, now) then pickupDateTime == kept && notice == NoNotice
        else if IsValidPickupDateTime(opening, now) then pickupDateTime == opening && notice == NoNotice
        else pickupDateTime == old(pickupDateTime) && notice == InvalidDate
      ensures selected.Some? && notice == NoNotice ==> Day(pickupDateTime) == Day(selected.value)
    {
      notice := NoNotice;
      if selected.Some? {
        var newDateTime := WithDateOf(pickupDateTime, selected.value);
        if IsValidPickupDateTime(newDateTime, now) {
          pickupDateTime := newDateTime;
        } else {
          var defaultTime := OpeningOn(selected.value);
          if IsValidPickupDateTime(defaultTime, now) {
            pickupDateTime := defaultTime;
          } else {
            notice := InvalidDate;
          }
        }
      }
    }

    /** The time picker: the picked hour and minute on the current pickup day, if valid; else alert. */
    method OnTimeChange(selected: Option<int>, now: int) returns (notice: PickerNotice)
      modifies this`pickupDateTime
      ensures pickupDateTime == old(pickupDateTime) || IsValidPickupDateTime(pickupDateTime, now)
      ensures selected.None? ==> pickupDateTime == old(pickupDateTime) && notice == NoNotice
      ensures selected.Some? ==>
        var moved := WithTimeOf(old(pickupDateTime), selected.value);
        if IsValidPickupDateTime(moved, now) then pickupDateTime == moved && notice == NoNotice
        else pickupDateTime == old(pickupDateTime) && notice == InvalidTime
      ensures Day(pickupDateTime) == Day(old(pickupDateTime))
    {
      notice := NoNotice;
      if selected.Some? {
        var newDateTime := WithTimeOf(pickupDateTime, selected.value);
        if IsValidPickupDateTime(newDateTime, now) {
          pickupDateTime := newDateTime;
        } else {
          notice := InvalidTime;
        }
      }
    }
  }

  /**
   * FREESHIP accepted on a 50000 delivery order keeps its 15000 discount
   * after the order is switched to pickup, where no fee is charged.
   */
  method StaleFreeShipScenario(now: int) returns (feeBefore: int, totalBefore: int, totalAfter: int)
    ensures feeBefore == DELIVERY_FEE && totalBefore == 50000
    ensures totalAfter == 50000 - DELIVERY_FEE
  {
    var screen := new Checkout(now);
    var item := StoredCartItem(Some("1"), 2, 25000, Customize(None, None, "M", "Bac xiu", 25000, 0, None));
    var failed := screen.LoadData(Present(StoredCart("c1", "u1", 50000, Some([item]))), Absent);
    assert screen.subtotal == 50000;
    screen.EditPromoCode("freeship");
    assert ToUpper("freeship") == "FREESHIP";
    var notice := screen.PressApply();
    feeBefore := screen.DeliveryFeeDue();
    totalBefore := screen.Total();
    screen.SetOrderType(Pickup);
    totalAfter := screen.Total();
  }
}
