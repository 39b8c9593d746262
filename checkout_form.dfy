/**
 * The payment screen's form check before an order is placed: an ordered
 * chain of guards whose first failure is reported and aborts the order.
 */
module CheckoutForm {
  import opened Options
  import opened Text
  import opened Pricing
  import opened Pickup

  datatype DeliveryAddress = DeliveryAddress(fullName: string, phone: string, address: string)

  /** The reason the screen shows, one per guard, in the order the guards run. */
  datatype CheckoutError = MissingRecipientName | InvalidPhone | MissingAddress | InvalidPickupTime

  /** When each guard of `validateForm` fires, as the code tests it. */
  predicate GuardFails(e: CheckoutError, a: DeliveryAddress, orderType: OrderType, pickup: int, now: int) {
    match e
    case MissingRecipientName => IsBlank(a.fullName)
    case InvalidPhone => IsBlank(a.phone) || !IsTenDigits(a.phone)
    case MissingAddress => orderType == Delivery && IsBlank(a.address)
    case InvalidPickupTime => orderType == Pickup && !IsValidPickupDateTime(pickup, now)
  }

  /** The guard chain: the first guard that fires names the error; none firing means the form is accepted. */
  function CheckoutFormError(a: DeliveryAddress, orderType: OrderType, pickup: int, now: int): Option<CheckoutError> {
    if GuardFails(MissingRecipientName, a, orderType, pickup, now) then Some(MissingRecipientName)
    else if GuardFails(InvalidPhone, a, orderType, pickup, now) then Some(InvalidPhone)
    else if GuardFails(MissingAddress, a, orderType, pickup, now) then Some(MissingAddress)
    else if GuardFails(InvalidPickupTime, a, orderType, pickup, now) then Some(InvalidPickupTime)
    else None
  }

  /** `validateForm()`: true when no guard fires. */
  predicate ValidateCheckoutForm(a: DeliveryAddress, orderType: OrderType, pickup: int, now: int) {
    CheckoutFormError(a, orderType, pickup, now).None?
  }

  function Rank(e: CheckoutError): nat {
    match e
    case MissingRecipientName => 0
    case InvalidPhone => 1
    case MissingAddress => 2
    case InvalidPickupTime => 3
  }

  /** Each requirement on its own, stated on the characters and the pickup window. */
  predicate Violates(e: CheckoutError, a: DeliveryAddress, orderType: OrderType, pickup: int, now: int) {
    match e
    case MissingRecipientName => AllWhitespace(a.fullName)
    case InvalidPhone => !IsTenDigits(a.phone)
    case MissingAddress => orderType == Delivery && AllWhitespace(a.address)
    case InvalidPickupTime =>
      orderType == Pickup
      && !(InStoreHours(pickup) && now + LEAD_MINUTES <= pickup <= now + MAX_ADVANCE_DAYS * MINUTES_PER_DAY)
  }

  /** A guard fires exactly when its requirement is violated; a ten-digit phone is never blank. */
  lemma GuardMeaning(e: CheckoutError, a: DeliveryAddress, orderType: OrderType, pickup: int, now: int)
    ensures GuardFails(e, a, orderType, pickup, now) <==> Violates(e, a, orderType, pickup, now)
  {
    match e
    case MissingRecipientName => BlankIffAllWhitespace(a.fullName);
    case InvalidPhone =>
      if IsTenDigits(a.phone) {
        TenDigitsNotBlank(a.phone);
      }
    case MissingAddress => BlankIffAllWhitespace(a.address);
    case InvalidPickupTime => ValidPickupWindow(pickup, now);
  }

  /** The error reported is the guard of least rank that fires. */
  lemma ReportedIsFirstGuard(a: DeliveryAddress, orderType: OrderType, pickup: int, now: int)
    ensures CheckoutFormError(a, orderType, pickup, now).None? <==>
      forall e :: !GuardFails(e, a, orderType, pickup, now)
    ensures CheckoutFormError(a, orderType, pickup, now).Some? ==>
      var e := CheckoutFormError(a, orderType, pickup, now).value;
      GuardFails(e, a, orderType, pickup, now)
      && forall e' :: Rank(e') < Rank(e) ==> !GuardFails(e', a, orderType, pickup, now)
  {
    var r := CheckoutFormError(a, orderType, pickup, now);
    if GuardFails(MissingRecipientName, a, orderType, pickup, now) {
      assert r == Some(MissingRecipientName);
    } else if GuardFails(InvalidPhone, a, orderType, pickup, now) {
      assert r == Some(InvalidPhone);
    } else if GuardFails(MissingAddress, a, orderType, pickup, now) {
      assert r == Some(MissingAddress);
    } else if GuardFails(InvalidPickupTime, a, orderType, pickup, now) {
      assert r == Some(InvalidPickupTime);
    } else {
      assert r == None;
    }
  }

  /**
   * The form is accepted exactly when no requirement is violated; when it is
   * refused, the reported error is violated and every earlier one holds.
   */
  lemma FirstViolationReported(a: DeliveryAddress, orderType: OrderType, pickup: int, now: int)
    ensures ValidateCheckoutForm(a, orderType, pickup, now) <==>
      forall e :: !Violates(e, a, orderType, pickup, now)
    ensures CheckoutFormError(a, orderType, pickup, now).Some? ==>
      var e := CheckoutFormError(a, orderType, pickup, now).value;
      Violates(e, a, orderType, pickup, now)
      && forall e' :: Rank(e') < Rank(e) ==> !Violates(e', a, orderType, pickup, now)
  {
    forall e ensures GuardFails(e, a, orderType, pickup, now) <==> Violates(e, a, orderType, pickup, now) {
      GuardMeaning(e, a, orderType, pickup, now);
    }
    ReportedIsFirstGuard(a, orderType, pickup, now);
  }

  /** On a delivery order the pickup time is not looked at: the same error, or none, whatever it is. */
  lemma DeliveryIgnoresPickupTime(a: DeliveryAddress, pickup: int, pickup': int, now: int)
    ensures CheckoutFormError(a, Delivery, pickup, now) == CheckoutFormError(a, Delivery, pickup', now)
  {
    assert !GuardFails(InvalidPickupTime, a, Delivery, pickup, now);
    assert !GuardFails(InvalidPickupTime, a, Delivery, pickup', now);
    assert GuardFails(MissingRecipientName, a, Delivery, pickup, now) == GuardFails(MissingRecipientName, a, Delivery, pickup', now);
    assert GuardFails(InvalidPhone, a, Delivery, pickup, now) == GuardFails(InvalidPhone, a, Delivery, pickup', now);
    assert GuardFails(MissingAddress, a, Delivery, pickup, now) == GuardFails(MissingAddress, a, Delivery, pickup', now);
  }

  /** A delivery order needs a name, a ten-digit phone and an address. */
  lemma DeliveryRequirements(a: DeliveryAddress, pickup: int, now: int)
    ensures ValidateCheckoutForm(a, Delivery, pickup, now) <==>
      !AllWhitespace(a.fullName) && IsTenDigits(a.phone) && !AllWhitespace(a.address)
  {
    GuardMeaning(MissingRecipientName, a, Delivery, pickup, now);
    GuardMeaning(InvalidPhone, a, Delivery, pickup, now);
    GuardMeaning(MissingAddress, a, Delivery, pickup, now);
    assert !GuardFails(InvalidPickupTime, a, Delivery, pickup, now);
  }

  /** A pickup order needs no address, only a name, a ten-digit phone and a valid pickup time. */
  lemma PickupIgnoresAddress(a: DeliveryAddress, pickup: int, now: int)
    ensures ValidateCheckoutForm(a, Pickup, pickup, now) <==>
      !AllWhitespace(a.fullName) && IsTenDigits(a.phone) && IsValidPickupDateTime(pickup, now)
  {
    GuardMeaning(MissingRecipientName, a, Pickup, pickup, now);
    GuardMeaning(InvalidPhone, a, Pickup, pickup, now);
    assert !GuardFails(MissingAddress, a, Pickup, pickup, now);
    assert GuardFails(InvalidPickupTime, a, Pickup, pickup, now) <==> !IsValidPickupDateTime(pickup, now);
  }

  /** A phone with a space or a country prefix is refused even though it is not blank. */
  lemma PhoneExamples(name: string, address: string, pickup: int, now: int)
    requires !IsBlank(name)
    ensures CheckoutFormError(DeliveryAddress(name, "091 234 5678", address), Delivery, pickup, now) == Some(InvalidPhone)
    ensures CheckoutFormError(DeliveryAddress(name, "+84912345678", address), Delivery, pickup, now) == Some(InvalidPhone)
  {
    assert "091 234 5678"[3] == ' ';
  }
}
