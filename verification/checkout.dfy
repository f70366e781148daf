/**
 The checkout page (src/pages/Checkout.jsx): the shipping form's defaults
 and validation rules, when the pincode lookup fires, and when the page
 sends the visitor back to the cart.

 The form's values have the shape of `AuthContext.Address`, which is also
 what an order stores as the user's shipping address. The postal-code
 service and the toasts are not modelled; the order insert's success is a
 parameter of `OnSubmit`.
 */
module Checkout {
  import opened Js
  import opened Text
  import opened AuthContext

  /** The fields of the shipping form, in the order the page lays them out. */
  datatype Field = FullName | Street | Pincode | City | State | Phone

  function FieldValue(form: Address, field: Field): string {
    match field
    case FullName => form.fullName
    case Street => form.street
    case Pincode => form.pincode
    case City => form.city
    case State => form.state
    case Phone => form.phone
  }

  /** A message the form shows: a required field left empty, or a pincode
      that is not six digits. */
  datatype FieldError = Required(field: Field) | PincodePattern

  /** `/^[0-9]{6}$/`: exactly six ASCII digits. */
  predicate PincodeValid(p: string) {
    |p| == 6 && forall i :: 0 <= i < |p| ==> IsDigit(p[i])
  }

  /** A form the page lets through to `onSubmit`: every field filled in and
      a six-digit pincode. */
  predicate FormValid(form: Address) {
    (forall field :: FieldValue(form, field) != "") && PincodeValid(form.pincode)
  }

  /** One field's rule: `required` rejects the empty string; the pincode's
      pattern is checked only on a non-empty value. */
  function FieldErrors(form: Address, field: Field): (errs: seq<FieldError>)
    ensures |errs| <= 1
    ensures forall f :: Required(f) in errs <==> f == field && FieldValue(form, f) == ""
    ensures PincodePattern in errs <==> field == Pincode && form.pincode != "" && !PincodeValid(form.pincode)
  {
    if FieldValue(form, field) == "" then [Required(field)]
    else if field == Pincode && !PincodeValid(form.pincode) then [PincodePattern]
    else []
  }

  /** The messages of the listed fields, in list order. */
  function ErrorsOf(form: Address, fields: seq<Field>): (errs: seq<FieldError>)
    ensures |errs| <= |fields|
    ensures forall f :: Required(f) in errs <==> f in fields && FieldValue(form, f) == ""
    ensures PincodePattern in errs <==> Pincode in fields && form.pincode != "" && !PincodeValid(form.pincode)
  {
    if |fields| == 0 then []
    else FieldErrors(form, fields[0]) + ErrorsOf(form, fields[1..])
  }

  /** The form's fields in layout order. */
  const Fields: seq<Field> := [FullName, Street, Pincode, City, State, Phone]

  /** The messages of a submit attempt, one at most per field, in field
      order. A field has a "required" message exactly when it is empty, and
      the pattern message appears exactly when the pincode is non-empty but
      not six digits. The form is accepted exactly when there are none. */
  function Errors(form: Address): (errs: seq<FieldError>)
    ensures |errs| <= 6
    ensures forall field :: Required(field) in errs <==> FieldValue(form, field) == ""
    ensures PincodePattern in errs <==> form.pincode != "" && !PincodeValid(form.pincode)
    ensures errs == [] <==> FormValid(form)
  {
    var errs := ErrorsOf(form, Fields);
    assert forall f :: f in Fields by {
      assert Fields[0] == FullName && Fields[1] == Street && Fields[2] == Pincode;
      assert Fields[3] == City && Fields[4] == State && Fields[5] == Phone;
    }
    assert errs == [] <==> FormValid(form) by {
      if errs == [] {
        forall f
          ensures FieldValue(form, f) != ""
        {
          assert Required(f) !in errs;
        }
        assert Required(Pincode) !in errs && PincodePattern !in errs;
      } else {
        var e := errs[0];
        assert e in errs;
        if e.Required? {
          assert FieldValue(form, e.field) == "";
        } else {
          assert e == PincodePattern;
          assert !PincodeValid(form.pincode);
        }
      }
    }
    errs
  }

  /** The lookup effect: it runs for any truthy pincode whose length is 6. */
  predicate LookupFires(pin: string) {
    pin != "" && |pin| == 6
  }

  /** Every valid pincode starts the lookup, but the lookup checks only the
      length: a six-character value with a letter starts it too, although
      the form rejects it. */
  lemma LookupOnlyChecksLength()
    ensures forall p :: PincodeValid(p) ==> LookupFires(p)
    ensures LookupFires("12345a") && !PincodeValid("12345a")
  {
    assert !IsDigit("12345a"[5]);
  }

  /** The redirect effect: an empty cart sends the visitor to the cart page,
      except while an order is being placed or its success modal is shown. */
  function RedirectTarget(cartEmpty: bool, placingOrder: bool, showOrderSuccess: bool): (target: Option<string>)
    ensures target.Some? <==> cartEmpty && !placingOrder && !showOrderSuccess
    ensures target.Some? ==> target.value == "/cart"
  {
    if cartEmpty && !placingOrder && !showOrderSuccess then Some("/cart") else None
  }

  /** `useForm`'s default values: the user's name and phone and the saved
      address; a missing user gives an empty form. The phone here does not
      fall back to the address's phone. */
  function InitialForm(user: Option<User>): (form: Address)
    ensures user.None? ==> form == NoAddress()
    ensures user.Some? ==>
      && form.fullName == user.value.fullName && form.phone == user.value.phone
      && form.street == user.value.shippingAddress.street
      && form.city == user.value.shippingAddress.city
      && form.state == user.value.shippingAddress.state
      && form.pincode == user.value.shippingAddress.pincode
  {
    match user
    case None => NoAddress()
    case Some(u) =>
      Address(Or(u.fullName, ""), Or(u.shippingAddress.street, ""), Or(u.shippingAddress.city, ""),
              Or(u.shippingAddress.state, ""), Or(u.shippingAddress.pincode, ""), Or(u.phone, ""))
  }

  /** The `reset` run whenever the user changes: the same prefill, except
      that an empty user phone falls back to the saved address's phone. */
  function ResetForm(u: User): (form: Address)
    ensures form.fullName == u.fullName
    ensures form.phone == (if u.phone != "" then u.phone else u.shippingAddress.phone)
    ensures form.street == u.shippingAddress.street && form.city == u.shippingAddress.city
    ensures form.state == u.shippingAddress.state && form.pincode == u.shippingAddress.pincode
  {
    Address(u.fullName, Or(u.shippingAddress.street, ""), Or(u.shippingAddress.city, ""),
            Or(u.shippingAddress.state, ""), Or(u.shippingAddress.pincode, ""),
            Or(u.phone, Or(u.shippingAddress.phone, "")))
  }

  /** The reset agrees with the initial defaults on every field but the
      phone, and differs on the phone exactly when the user has none and the
      saved address has one. */
  lemma ResetDiffersOnlyInPhone(u: User)
    ensures ResetForm(u).(phone := "") == InitialForm(Some(u)).(phone := "")
    ensures ResetForm(u) != InitialForm(Some(u)) <==> u.phone == "" && u.shippingAddress.phone != ""
  {
  }

  /** After an order placed with a valid form, the next checkout is prefilled
      with that address and passes validation as it stands, provided the
      user has a name. */
  lemma SavedAddressPrefillsValidForm(u: User, address: Address)
    requires FormValid(address)
    requires u.fullName != ""
    ensures var saved := UpdateUser(Some(u), PlaceOrderUpdates(address), true).user.value;
      && ResetForm(saved).(fullName := address.fullName, phone := address.phone) == address
      && FormValid(ResetForm(saved))
  {
    PlacedOrderSavesAddress(u, address);
    var saved := u.(shippingAddress := address);
    var form := ResetForm(saved);
    assert FieldValue(address, Phone) != "";
    forall field
      ensures FieldValue(form, field) != ""
    {
      assert FieldValue(address, field) != "";
    }
  }

  /** The page state `onSubmit` leaves behind. */
  datatype SubmitOutcome = SubmitOutcome(
    placingOrder: bool,
    showOrderSuccess: bool,
    cartCleared: bool,
    target: Option<string>)

  /** `onSubmit`: `placeOrder` either inserts the order, which raises the
      success modal, or throws. On success the cart is cleared and the
      visitor is sent home; on failure the cart and the page stay as they
      are. Either way the page is no longer placing an order. */
  function OnSubmit(orderInserted: bool): (o: SubmitOutcome)
    ensures !o.placingOrder
    ensures o.cartCleared <==> orderInserted
    ensures o.showOrderSuccess <==> orderInserted
    ensures o.target.Some? <==> orderInserted
    ensures o.target.Some? ==> o.target.value == "/"
  {
    if orderInserted then SubmitOutcome(false, true, true, Some("/"))
    else SubmitOutcome(false, false, false, None)
  }

  /** Clearing the cart after a successful order does not trigger the
      redirect to the cart, because the success modal is up; a failed order
      with items in the cart redirects nowhere either. Only an empty cart
      with no modal and no order in flight does. */
  lemma SubmitNeverRedirectsToCart(orderInserted: bool, cartWasEmpty: bool)
    ensures var o := OnSubmit(orderInserted);
      RedirectTarget(o.cartCleared || cartWasEmpty, o.placingOrder, o.showOrderSuccess).Some?
      <==> !orderInserted && cartWasEmpty
  {
  }
}
