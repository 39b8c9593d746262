# Viet Coffee ordering app: checkout, cart and registration core in Dafny

This project models the logic of three screens of the Viet Coffee ordering
app, a React Native app for ordering coffee for delivery or in-store pickup:

- **The payment screen** (`app/payment.tsx`). It computes these from the
  stored cart:
  - the subtotal;
  - a flat 15000 VND delivery fee, waived above 100000 VND and for pickup;
  - the grand total, less a promo discount.

  It also handles:
  - the two promo codes `WELCOME10` (10 % off) and `FREESHIP` (the fee off);
  - the pickup-time rule: store hours 10:00–20:00, at least 30 minutes
    ahead and at most 7 days ahead;
  - the default pickup time, which (for a clock reading a whole minute) is
    the earliest quarter hour that meets the rule;
  - the date and time pickers;
  - the ordered form check run before an order is placed.
- **The cart screen** (`app/cart.tsx`). It keeps a list of lines in screen
  state, mirrored to device storage once the first load has finished. It
  supports quantity changes, removals and clearing behind confirmation
  prompts, and an order notice that empties the cart.
- **The registration screen** (`app/register.tsx`). It has:
  - a six-field form, updated one field at a time;
  - an ordered validator that reports the first failing requirement;
  - a five-level password-strength meter.

Modules:

- `Options`: the option and storage-read wrappers.
- `Text`: the JavaScript string built-ins the validators use, with their
  JavaScript meaning:
  - `trim` strips the WhiteSpace and LineTerminator sets;
  - `length` counts UTF-16 code units;
  - `toUpperCase`;
  - the pattern `/^[0-9]{10}$/`.
- `Pricing`: the subtotal, the fee, the total and the promo rule, all as
  pure functions.
- `Pickup`:
  - moments are integer minutes of local time;
  - the pickup-time predicate;
  - the default-time computation, written as a step-by-step method proved
    to give the least admissible quarter hour.
- `CheckoutForm`: the payment screen's validator.
- `PaymentScreen`: the screen state as a class whose methods are its event
  handlers.
- `CartStore`:
  - the cart's list operations, as functions with lemmas;
  - the screen as a class whose invariant is that storage mirrors the lines
    once loading has ended.
- `Register`: the registration form, its validator, the strength meter and
  the screen class.

The current time (`new Date()`) is always a parameter `now`. Storage reads
are parameters of the load handlers: absent, unparsable or a parsed value.
The alerts of the modelled handlers are returned as values (the promo and
picker notices, the load-failure flag, the registration outcome), or kept as
a `prompt` field when the alert carries a confirming button.

Behaviours of the code a reader may not expect:

- **No floor at zero.** The total is `subtotal + fee - discount`. A FREESHIP
  discount is stored when it is accepted and is never revisited. So after
  switching a FREESHIP delivery order to pickup, the total is the subtotal
  minus 15000, which is negative for carts under 15000 (`StaleFreeShipOnPickup`,
  `StaleFreeShipScenario`).
- **Fee and FREESHIP boundaries differ.** The fee waiver needs a subtotal
  above 100000, but FREESHIP needs one below 100000. At exactly 100000 the
  fee is charged and FREESHIP is refused as "already free"
  (`FreeShipBoundary`).
- **What the subtotal counts.** It uses `customize.price` times the quantity.
  `extra`, `unitPrice` and topping quantities do not enter it.
- **A second promo is kept out by the button, not the handler.** The apply
  handler itself replaces whatever promo state there is; it is the apply
  button, disabled while a promo is applied, that prevents a second one.
- **The cart screen never merges lines.** It only changes quantities and
  removes lines by id.
- **The registration screen can never succeed.** It has inputs only for
  username, email, password and confirmation. Nothing sets `acceptTerms`,
  and the register button is disabled while it is false.

## Model

| member | source | states |
|---|---|---|
| Text.TrimStart | app/payment.tsx:347 | the result is a suffix of the input, the dropped prefix is all whitespace, and the result is empty or starts with a non-whitespace character |
| Text.TrimEnd | app/payment.tsx:347 | the result is a prefix of the input, the dropped suffix is all whitespace, and the result is empty or ends with a non-whitespace character |
| Text.TrimStartEmptyIff | app/register.tsx:46 | trimming the front leaves nothing exactly when every character is whitespace |
| Text.TrimEndEmptyIff | app/register.tsx:46 | trimming the end leaves nothing exactly when every character is whitespace |
| Text.BlankIffAllWhitespace | app/payment.tsx:347-363 | `!s.trim()` holds exactly when every character of `s` is JavaScript whitespace |
| Text.JsLength | app/register.tsx:56-66 | `length` counts UTF-16 code units: between the number of code points and twice that |
| Text.ToUpper | app/payment.tsx:328-333 | upper-casing keeps the length |
| Text.ToUpperIdempotent | app/payment.tsx:328-333 | upper-casing twice equals upper-casing once |
| Text.TenDigitsNotBlank | app/payment.tsx:352-355 | a phone of ten ASCII digits is never blank, so the blank test before the pattern adds nothing |
| Text.IsJsWhitespace | app/payment.tsx:347 | definition: the WhiteSpace and LineTerminator code points `trim` strips |
| Text.Trim | app/payment.tsx:347 | definition: `s.trim()`, the leading then the trailing whitespace dropped |
| Text.IsBlank | app/register.tsx:46 | definition: `!s.trim()`, the trimmed string is empty; characterised by BlankIffAllWhitespace |
| Text.IsTenDigits | app/payment.tsx:354 | definition: `/^[0-9]{10}$/`, exactly ten ASCII digits |
| Pricing.Subtotal | app/payment.tsx:294-297 | definition: the reduce of price times quantity, folded from the left; its laws are SubtotalAppend and SubtotalFromFront |
| Pricing.GrandTotal | app/payment.tsx:113 | definition: subtotal plus fee minus discount, with no floor |
| Pricing.Recognize | app/payment.tsx:328-333 | definition: the promo the upper-cased code names; characterised by PromoSpellings and PromoCaseInsensitive |
| Pricing.TransformItems | app/payment.tsx:279-289 | a missing `cartItems` gives no lines; otherwise one line per stored line, in order, with price `customize.price` and the stored quantity |
| Pricing.SubtotalAppend | app/payment.tsx:294-297 | the subtotal of two runs of lines is the sum of their subtotals |
| Pricing.SubtotalFromFront | app/payment.tsx:294-297 | the subtotal is the first line's price times quantity plus the subtotal of the rest |
| Pricing.SubtotalNonNegative | app/payment.tsx:294-297 | with no negative prices or quantities the subtotal is not negative |
| Pricing.MissingItemsGiveZero | app/payment.tsx:279-289 | a stored cart without `cartItems` has subtotal 0 |
| Pricing.SubtotalIgnoresExtra | app/payment.tsx:279-297 | two stored carts whose lines agree on `customize.price` and quantity have the same subtotal, whatever their `extra`, `unitPrice` or toppings |
| Pricing.SameAmountsSameSubtotal | app/payment.tsx:294-297 | line lists with equal line amounts, position by position, have equal subtotals |
| Pricing.DeliveryFee | app/payment.tsx:107-112 | pickup pays no fee; delivery pays none exactly when the subtotal exceeds 100000; the fee is 0 or 15000 |
| Pricing.TenPercent | app/payment.tsx:329 | the discount is the integer nearest to a tenth of the subtotal, halves rounded up |
| Pricing.ApplyPromo | app/payment.tsx:326-344 | accepted exactly for WELCOME10, or for FREESHIP on a delivery order under 100000; rejected exactly for an unknown code; otherwise the promo state is unchanged; WELCOME10 sets a tenth of the subtotal, an accepted FREESHIP the 15000 fee |
| Pricing.PromoCaseInsensitive | app/payment.tsx:328-333 | the outcome of a code and of its upper-cased form are the same |
| Pricing.PromoSpellings | app/payment.tsx:328-333 | lower- and mixed-case spellings, and the dotless-i and long-s look-alikes, name the promos; a code with an inner or trailing space does not |
| Pricing.FreeShipDiscountIsTheFee | app/payment.tsx:333-337 | an accepted FREESHIP discount equals the fee charged at that moment, so the total is the subtotal |
| Pricing.FreeShipBoundary | app/payment.tsx:333-340 | at a subtotal of exactly 100000 a delivery order is charged the fee and FREESHIP is answered "already free" |
| Pricing.StaleFreeShipOnPickup | app/payment.tsx:107-113 | a FREESHIP discount accepted for delivery, kept after switching to pickup, puts the total 15000 below the subtotal, and below zero under 15000 |
| Pricing.SubtotalExample | app/payment.tsx:294-297 | one line at 29000 times 2 gives 58000 |
| Pricing.WelcomeExample | app/payment.tsx:326-332 | WELCOME10 on 100000 takes 10000 off a total that still carries the fee; fee examples on both sides of the threshold |
| Pickup.IsValidPickupDateTime | app/payment.tsx:167-198 | definition: the four guards in the code's order; characterised by ValidPickupWindow |
| Pickup.ValidPickupWindow | app/payment.tsx:167-198 | the four guards accept exactly the times inside store hours between 30 minutes and 7 days from now |
| Pickup.LeadTimeExample | app/payment.tsx:181-188 | ten minutes ahead is refused, forty-five minutes ahead accepted |
| Pickup.DefaultPickupTimeUnique | app/payment.tsx:116-140 | the earliest admissible quarter hour is unique |
| Pickup.RoundedUpQuarter | app/payment.tsx:118-126 | rounding the minutes up to a quarter and adding 30 minutes gives the least quarter hour at least 30 minutes ahead |
| Pickup.InHoursIsDefault | app/payment.tsx:128-139 | when that quarter hour is inside store hours it is the default |
| Pickup.BeforeOpeningIsDefault | app/payment.tsx:129-131 | when it is before opening, 10:00 that day is the default |
| Pickup.AfterClosingIsDefault | app/payment.tsx:132-137 | when it is at or after closing, 10:00 the next day is the default |
| Pickup.DefaultIsValid | app/payment.tsx:100-102 | the default pickup time passes the pickup check, for a clock reading a whole minute |
| Pickup.DefaultPickupTime | app/payment.tsx:116-140 | for a clock reading a whole minute, the computed time is a quarter hour at least 30 minutes ahead, inside store hours, no later than any other such time, and passes the pickup check |
| Pickup.WithDateOf | app/payment.tsx:206-209 | the day of the picked date with the clock time of the current pickup time |
| Pickup.WithTimeOf | app/payment.tsx:239-243 | the day of the current pickup time with the hour and minute of the picked time |
| Pickup.OpeningOn | app/payment.tsx:215-219 | 10:00 on the picked day |
| CheckoutForm.GuardFails | app/payment.tsx:346-368 | definition: the condition of each guard as the code tests it |
| CheckoutForm.CheckoutFormError | app/payment.tsx:346-371 | definition: the first guard that fires, or none; characterised by ReportedIsFirstGuard and FirstViolationReported |
| CheckoutForm.ValidateCheckoutForm | app/payment.tsx:346-371 | definition: no guard fires |
| CheckoutForm.GuardMeaning | app/payment.tsx:346-368 | each guard fires exactly when its requirement is violated: blank means all whitespace, the phone must be ten digits, the pickup time must lie in the window |
| CheckoutForm.ReportedIsFirstGuard | app/payment.tsx:346-371 | no error exactly when no guard fires; otherwise the reported guard fires and no earlier one does |
| CheckoutForm.FirstViolationReported | app/payment.tsx:346-371 | the form passes exactly when no requirement is violated; a reported error is violated and every earlier requirement holds |
| CheckoutForm.DeliveryIgnoresPickupTime | app/payment.tsx:365-368 | on a delivery order the error reported does not depend on the pickup time |
| CheckoutForm.DeliveryRequirements | app/payment.tsx:346-363 | a delivery order passes exactly with a non-blank name, a ten-digit phone and a non-blank address |
| CheckoutForm.PickupIgnoresAddress | app/payment.tsx:346-368 | a pickup order passes exactly with a non-blank name, a ten-digit phone and a valid pickup time, whatever the address |
| CheckoutForm.PhoneExamples | app/payment.tsx:352-355 | a phone with spaces or a `+84` prefix is refused |
| PaymentScreen.AddressFromUser | app/payment.tsx:301-314 | the user's saved address wins; else name and phone over the current address when both are non-empty; else the current address |
| PaymentScreen.Checkout.Valid | app/payment.tsx:326-344 | invariant over the promo state (declared at app/payment.tsx:94-96, cleared at 793-800): no discount unless a promo is applied, an applied code names a promo, and an applied FREESHIP carries the 15000 fee; every handler keeps it |
| PaymentScreen.Checkout.DeliveryFeeDue | app/payment.tsx:107-112 | definition: DeliveryFee of the current order type and subtotal, derived on every render |
| PaymentScreen.Checkout.Total | app/payment.tsx:113 | definition: GrandTotal of the current subtotal, fee and stored discount; RemovePromo and StaleFreeShipScenario state its values |
| PaymentScreen.Checkout.PromoInputEditable | app/payment.tsx:778 | definition: the promo field is editable only while no promo is applied |
| PaymentScreen.Checkout.ApplyButtonEnabled | app/payment.tsx:786 | definition: the apply button is enabled only with no promo applied and a non-empty code |
| PaymentScreen.Checkout.constructor | app/payment.tsx:84-104 | the screen starts empty, for delivery, with no promo and the default pickup time |
| PaymentScreen.Checkout.LoadData | app/payment.tsx:269-324 | a stored cart replaces the lines and sets the subtotal from them; the user then fills the address; an unparsable cart stops the load; the load-failure alert shows exactly when the cart or the user does not parse; the promo invariant is kept |
| PaymentScreen.Checkout.SetOrderType | app/payment.tsx:497-519 | the order type is set and nothing else changes, the promo discount included |
| PaymentScreen.Checkout.EditAddress | app/payment.tsx:662-724 | one part of the address is replaced, the others kept; the address line is editable only for delivery |
| PaymentScreen.Checkout.EditPromoCode | app/payment.tsx:773-778 | typing changes the code only while no promo is applied |
| PaymentScreen.Checkout.ApplyPromoCode | app/payment.tsx:326-344 | the discount, applied flag and notice are those of the promo rule on the current code, subtotal and order type; the promo invariant is kept |
| PaymentScreen.Checkout.PressApply | app/payment.tsx:780-786 | a disabled button does nothing; an enabled one applies the rule starting from no discount |
| PaymentScreen.Checkout.RemovePromo | app/payment.tsx:793-800 | code, discount and flag are cleared, and the total is back to subtotal plus fee |
| PaymentScreen.Checkout.OnDateChange | app/payment.tsx:201-231 | keep the clock time on the picked day if valid, else 10:00 that day if valid, else keep the old time and alert; a changed time is always valid |
| PaymentScreen.Checkout.OnTimeChange | app/payment.tsx:234-254 | the picked hour and minute on the same day if valid, else keep the old time and alert; the day never changes |
| PaymentScreen.StaleFreeShipScenario | app/payment.tsx:106-113 | FREESHIP on a 50000 delivery order gives total 50000; after switching to pickup the total is 35000 |
| CartStore.TotalPrice | app/cart.tsx:83-86 | definition: the reduce of price times quantity, folded from the left; its laws are TotalPriceAppend and TotalPriceAfterRemoval |
| CartStore.WithQuantity | app/cart.tsx:106-110 | same length and order; lines with the id get the new quantity, all others are unchanged |
| CartStore.WithoutId | app/cart.tsx:124 | no line with the id remains, and the list does not grow |
| CartStore.WithoutIdKeepsOthers | app/cart.tsx:124 | every line with another id keeps its number of occurrences; lines with the id occur zero times |
| CartStore.WithoutIdAppend | app/cart.tsx:124 | removal distributes over concatenation, so kept lines keep their relative order |
| CartStore.WithoutAbsentId | app/cart.tsx:124 | removing an id not in the cart changes nothing |
| CartStore.WithoutIdIdempotent | app/cart.tsx:115-129 | removing the same id twice equals removing it once |
| CartStore.WithQuantityAbsentId | app/cart.tsx:106-110 | setting a quantity on an absent id changes nothing |
| CartStore.WithoutIdKeepsPositive | app/cart.tsx:89-112 | removal keeps every quantity at least 1 |
| CartStore.TotalPriceAppend | app/cart.tsx:83-86 | the total of two runs of lines is the sum of their totals |
| CartStore.TotalPriceAfterRemoval | app/cart.tsx:115-129 | removing an id takes exactly that id's lines off the total |
| CartStore.Cart.Valid | app/cart.tsx:67-80 | invariant: once loading has ended, storage holds exactly the lines on screen; every handler keeps it |
| CartStore.Cart.Total | app/cart.tsx:83-86 | definition: TotalPrice of the current lines; Confirm states how it changes |
| CartStore.Cart.constructor | app/cart.tsx:40-41 | the screen mounts empty and loading, and storage is untouched |
| CartStore.Cart.SaveEffect | app/cart.tsx:67-80 | storage is written with the lines only when not loading |
| CartStore.Cart.Load | app/cart.tsx:48-65 | parsed stored lines replace the state, a missing or unparsable value leaves it; loading ends and storage mirrors the lines |
| CartStore.Cart.UpdateQuantity | app/cart.tsx:89-112 | below 1 it only prompts for removal; otherwise the quantity is set on the id's lines and saved; positive quantities stay positive; storage mirrors the lines after loading |
| CartStore.Cart.Decrease | app/cart.tsx:222-227 | one unit less on the line's id with the prompt unchanged, or, at one unit, only a removal prompt; nothing is saved while loading; positive quantities stay positive |
| CartStore.Cart.Increase | app/cart.tsx:231-236 | one unit more on the line's id with the prompt unchanged, or, when that is below 1, only a removal prompt; nothing is saved while loading; the length is kept |
| CartStore.Cart.RemoveItem | app/cart.tsx:115-129 | only a confirmation prompt for that id; the lines are unchanged |
| CartStore.Cart.ClearCart | app/cart.tsx:132-152 | nothing on an empty cart, otherwise a clear prompt |
| CartStore.Cart.Checkout | app/cart.tsx:155-169 | the order notice is shown; the lines stay until it is confirmed |
| CartStore.Cart.Confirm | app/cart.tsx:99-163 | a confirmed removal filters the id out and lowers the total by exactly that id's lines; a confirmed clear or order notice empties the cart and the total is 0; storage mirrors the lines after loading |
| CartStore.Cart.Cancel | app/cart.tsx:116-120 | cancelling closes a removal or clear prompt; the order notice has no cancel |
| CartStore.RemoveTwiceScenario | app/cart.tsx:115-129 | confirming the same removal twice gives the cart of one removal, and the total drops by that id's lines |
| Register.WithField | app/register.tsx:38-40 | the named field takes the value and the other five keep theirs |
| Register.GuardFails | app/register.tsx:46-79 | definition: the condition of each guard as the code tests it |
| Register.FirstRegisterError | app/register.tsx:42-82 | definition: the first guard that fires, or none; characterised by ReportedIsFirstGuard and FirstViolationReported |
| Register.ValidateForm | app/register.tsx:42-82 | definition: no guard fires |
| Register.GuardMeaning | app/register.tsx:42-79 | each guard fires exactly when its requirement is violated, blankness meaning all whitespace |
| Register.ReportedIsFirstGuard | app/register.tsx:42-82 | no error exactly when no guard fires; otherwise the reported guard fires and no earlier one does |
| Register.FirstViolationReported | app/register.tsx:42-82 | the form passes exactly when no requirement is violated; a reported error is violated and every earlier requirement holds |
| Register.MismatchRejected | app/register.tsx:66-74 | a password of 6 or more code units that differs from its confirmation is refused, at the mismatch guard or an earlier one, never for being short |
| Register.GetPasswordStrength | app/register.tsx:100-110 | the level is 0 to 4, and 0 exactly for the empty password |
| Register.StrengthMonotone | app/register.tsx:100-110 | a longer password never shows a lower level |
| Register.ValidFormHasStrongPassword | app/register.tsx:66-69 | a form that passes the validator has a password of level 3 or 4 |
| Register.StrengthExamples | app/register.tsx:100-110 | levels of sample passwords; a character beyond U+FFFF counts twice |
| Register.InputsKeepNameAndPhone | app/register.tsx:167-282 | edits through the screen's four inputs never change the full name or the phone |
| Register.ScreenFormNeverValid | app/register.tsx:46-49 | from the initial form, every sequence of edits the screen offers is refused for a missing full name |
| Register.RegisterScreen.constructor | app/register.tsx:20-30 | the form starts with six empty fields and the terms not accepted |
| Register.RegisterScreen.UpdateFormData | app/register.tsx:38-40 | the named field takes the value and the other five are unchanged |
| Register.RegisterScreen.RegisterButtonEnabled | app/register.tsx:345 | definition: the button is enabled exactly when the terms are accepted |
| Register.RegisterScreen.PressRegister | app/register.tsx:338-345 | a disabled button does nothing; otherwise success exactly when the form validates, else the alert of the first failing guard; success implies a level 3 or 4 password |

## Left out

- Placing the order is not modelled: building the order, the payment-method
  switch, the HTTP calls, the order-success navigation and the removal of
  the stored cart. These are I/O against a server outside this code.
- Login, the home screen, the product details and the add-to-cart flow are
  not modelled. They live on other screens, and other screens' writes to
  storage are not modelled either.
- Display formatting is not modelled: currency and date formatting, the
  password-match indicator, the loading spinners, and the flags that show
  the pickers.
- JavaScript numbers are taken as unbounded integers. Floating-point
  rounding in `Math.round(subtotal * 0.1)` and precision above 2^53 are not
  modelled.
- Time is whole minutes of local time. Seconds, milliseconds, time zones and
  daylight-saving changes are not modelled.
- Pickup.DefaultIsValid, Pickup.DefaultPickupTime: their promise holds for a
  clock that reads a whole minute, which is all the model can express. The
  code zeroes seconds and milliseconds, and does not round up a minute that
  is already a quarter hour. But the 30-minute guard compares against the
  full clock. So with seconds on the clock at a quarter-hour minute (12:00:30,
  say), the default (12:30:00) is before now plus 30 minutes, and the
  screen's own pickup check refuses its own default.
- PaymentScreen.Checkout.LoadData: a stored value that parses to `null` (or
  to an object of another shape) makes the code throw and alert. The model's
  parsed values always have the expected shape.
- Pickup.WithDateOf: picking a date is modelled as "the picked day, same
  clock time". The code sets year, month and day one after another, which
  can roll over a month when the current day does not exist in the picked
  month (the 31st into a 30-day month). That rollover is not captured.
- Text.ToUpper: only a–z, dotless i (U+0131) and long s (U+017F) are mapped.
  Other non-ASCII case mappings are left out. The single characters among
  them do not upper-case to an ASCII letter. Some multi-letter ones do, such
  as ß to SS and the ligature ﬁ to FI, but none of their letter runs occurs
  inside FREESHIP or WELCOME10. So a code matches a promo in the model
  exactly when it does in JavaScript.
- Text.JsLength: counts a code point above U+FFFF as two units. Lone
  surrogates cannot occur in a Dafny string.
- Register.WithField: the field key is one of the six form fields. The
  source accepts any string key and would add a new property for an unknown
  one. No call site passes one.
- CartStore.Cart.Confirm: the alert callbacks in the source capture the
  `cartItems` of the render that opened the alert. The model applies the
  confirmed action to the current lines, which is the same whenever nothing
  changes the cart while the alert is open.
- CartStore.Cart: the save effect runs after each state change. The model
  runs it at the end of each handler. Failing reads and writes of storage
  are modelled only as an unparsable stored value.
- PaymentScreen.Checkout.LoadData: the storage reads are parameters. An
  unparsable user record is modelled as no record, since the code catches
  the parse error after the cart is loaded. The loading flag is not
  modelled.
