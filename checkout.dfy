/** The checkout page: two steps (shipping address, then payment), the input
    formatters of the card fields, the shipping defaults taken from the account
    name, the per-field error messages built from the schema issues, and order
    placement, which empties the cart unless the simulated payment fails. */
module Checkout {
  import opened Common
  import opened Text
  import opened Validation
  import Cart

  const PaymentFailedMessage := "Payment processing failed. Please try again."

  datatype Step = ShippingStep | PaymentStep

  datatype PaymentMethod = CreditCard | PayPal | ApplePay

  // ---- formatters ----------------------------------------------------------------

  /** `value.replace(/\D/g, '').slice(0, 16)`. */
  function FormatCardNumber(value: string): (r: string)
    ensures AllDigits(r) && |r| <= 16
  {
    Take(DigitsOnly(value), 16)
  }

  /** `value.replace(/\D/g, '').slice(0, 4)`. */
  function FormatCvv(value: string): (r: string)
    ensures AllDigits(r) && |r| <= 4
  {
    Take(DigitsOnly(value), 4)
  }

  /** At most four digits, with `/` after the first two once there are two. */
  function FormatExpiry(value: string): (r: string)
    ensures |r| <= 5
  {
    var d := Take(DigitsOnly(value), 4);
    if |d| >= 2 then d[..2] + "/" + d[2..] else d
  }

  /** The card number and CVV formatters keep the leading digits of the input, in
      order, up to 16 and 4 of them, and formatting twice is formatting once. */
  lemma DigitFormatters(value: string)
    ensures var c := FormatCardNumber(value);
            && AllDigits(c) && |c| <= 16 && c <= DigitsOnly(value)
            && FormatCardNumber(c) == c
    ensures var v := FormatCvv(value);
            && AllDigits(v) && |v| <= 4 && v <= DigitsOnly(value)
            && FormatCvv(v) == v
  {
    var d := DigitsOnly(value);
    AllDigitsPrefix(d, 16);
    AllDigitsPrefix(d, 4);
    DigitsOnlyOfDigits(Take(d, 16));
    DigitsOnlyOfDigits(Take(d, 4));
  }

  lemma AllDigitsPrefix(d: string, n: nat)
    requires AllDigits(d)
    ensures AllDigits(Take(d, n))
  {
    var t := Take(d, n);
    assert forall i :: 0 <= i < |t| ==> t[i] == d[i];
  }

  /** The expiry formatter gives at most five characters: up to four digits with a
      `/` after the second; "12" becomes "12/". Formatting twice is formatting once. */
  lemma ExpiryFormatter(value: string)
    ensures var e := FormatExpiry(value);
            var d := Take(DigitsOnly(value), 4);
            && |e| <= 5
            && (|d| < 2 ==> e == d)
            && (|d| >= 2 ==> |e| == |d| + 1 && e[2] == '/' && e[..2] == d[..2] && e[3..] == d[2..])
            && FormatExpiry(e) == e
  {
    var d := Take(DigitsOnly(value), 4);
    AllDigitsPrefix(DigitsOnly(value), 4);
    var e := FormatExpiry(value);
    if |d| >= 2 {
      DigitsOnlyOfDigits(d[..2]);
      DigitsOnlyOfDigits(d[2..]);
      assert AllDigits(d[..2]) && AllDigits(d[2..]) by {
        assert forall i :: 0 <= i < 2 ==> d[..2][i] == d[i];
        assert forall i :: 0 <= i < |d| - 2 ==> d[2..][i] == d[i + 2];
      }
      DigitsOnlyAppend(d[..2] + "/", d[2..]);
      DigitsOnlyAppend(d[..2], "/");
      assert DigitsOnly("/") == "";
      assert d[..2] + d[2..] == d;
      assert DigitsOnly(e) == d;
      assert Take(d, 4) == d;
    } else {
      DigitsOnlyOfDigits(d);
    }
  }

  /** A complete expiry field (four digits) has the shape the payment schema asks for. */
  lemma FullExpiryShape(value: string)
    requires |Take(DigitsOnly(value), 4)| == 4
    ensures var e := FormatExpiry(value);
            |e| == 5 && AllDigits(e[..2]) && e[2] == '/' && AllDigits(e[3..])
  {
    ExpiryFormatter(value);
    var d := Take(DigitsOnly(value), 4);
    AllDigitsPrefix(DigitsOnly(value), 4);
    var e := FormatExpiry(value);
    assert forall i :: 0 <= i < 2 ==> e[..2][i] == d[i];
    assert forall i :: 0 <= i < 2 ==> e[3..][i] == d[i + 2];
  }

  // ---- shipping defaults from the account name -------------------------------------

  /** `name.split(' ')[0] || ''`. */
  function FirstName(name: string): (f: string)
    ensures f <= name
  {
    Split(name, ' ')[0]
  }

  /** `name.split(' ').slice(1).join(' ') || ''`. */
  function LastName(name: string): (l: string)
    ensures ' ' !in name ==> l == ""
  {
    Join(Split(name, ' ')[1..], ' ')
  }

  /** The first name is the text before the first space and contains none; for a
      name with a space, first name, space and last name give the name back; for a
      name without one, the last name is empty. */
  lemma {:induction false} NameSplit(name: string)
    ensures ' ' !in FirstName(name)
    ensures ' ' in name ==> FirstName(name) + " " + LastName(name) == name
    ensures ' ' !in name ==> FirstName(name) == name && LastName(name) == ""
  {
    SplitPiecesLackSeparator(name, ' ');
    assert FirstName(name) in Split(name, ' ');
    var k := IndexOf(name, ' ');
    if ' ' in name {
      assert k < |name| by {
        var i :| 0 <= i < |name| && name[i] == ' ';
      }
      NameWithSpace(name, k);
    } else {
      assert k == |name|;
    }
  }

  lemma {:induction false} NameWithSpace(name: string, k: nat)
    requires k == IndexOf(name, ' ') && k < |name|
    ensures FirstName(name) + " " + LastName(name) == name
  {
    SplitAtSpace(name, k);
    JoinSplit(name[k + 1..], ' ');
    AroundSpace(name, k);
  }

  lemma AroundSpace(name: string, k: nat)
    requires k < |name| && name[k] == ' '
    ensures name[..k] + " " + name[k + 1..] == name
  {
    assert name == name[..k] + name[k..];
    assert name[k..] == [name[k]] + name[k + 1..];
  }

  /** Splitting at the first space: the first name is what comes before it, the last
      name the join of the pieces after it. */
  lemma {:induction false} SplitAtSpace(name: string, k: nat)
    requires k == IndexOf(name, ' ') && k < |name|
    ensures FirstName(name) == name[..k]
    ensures LastName(name) == Join(Split(name[k + 1..], ' '), ' ')
  {
    assert Split(name, ' ') == [name[..k]] + Split(name[k + 1..], ' ');
    assert Split(name, ' ')[1..] == Split(name[k + 1..], ' ');
  }

  // ---- per-field errors -------------------------------------------------------------

  /** The `forEach` over the issues: each writes its message under its field, so
      the last issue of a field wins. */
  function FieldErrors(issues: seq<Issue>): map<string, string> {
    if issues == [] then map[]
    else var last := issues[|issues| - 1];
         FieldErrors(issues[..|issues| - 1])[last.path := last.message]
  }

  /** A field has an error exactly when some issue is about it, and its message is
      that of the last such issue. */
  lemma {:induction false} FieldErrorsSpec(issues: seq<Issue>, field: string)
    ensures field in FieldErrors(issues) <==> exists i :: 0 <= i < |issues| && issues[i].path == field
    ensures field in FieldErrors(issues) ==>
              exists i :: 0 <= i < |issues| && issues[i].path == field
                          && FieldErrors(issues)[field] == issues[i].message
                          && forall j :: i < j < |issues| ==> issues[j].path != field
  {
    if issues != [] {
      var init := issues[..|issues| - 1];
      var last := issues[|issues| - 1];
      FieldErrorsSpec(init, field);
      if last.path != field {
        if exists i :: 0 <= i < |issues| && issues[i].path == field {
          var i :| 0 <= i < |issues| && issues[i].path == field;
          assert init[i] == issues[i];
        }
        if field in FieldErrors(init) {
          var i :| 0 <= i < |init| && init[i].path == field && FieldErrors(init)[field] == init[i].message
                   && forall j :: i < j < |init| ==> init[j].path != field;
          assert issues[i] == init[i];
          assert forall j :: i < j < |issues| ==> issues[j].path != field by {
            forall j | i < j < |issues| ensures issues[j].path != field {
              if j < |init| { assert issues[j] == init[j]; }
            }
          }
        }
      } else {
        assert issues[|issues| - 1].path == field;
      }
    }
  }

  /** The loop that fills the error map. */
  method CollectErrors(issues: seq<Issue>) returns (errors: map<string, string>)
    ensures errors == FieldErrors(issues)
  {
    errors := map[];
    var i := 0;
    while i < |issues|
      invariant 0 <= i <= |issues|
      invariant errors == FieldErrors(issues[..i])
    {
      assert issues[..i + 1][..i] == issues[..i];
      errors := errors[issues[i].path := issues[i].message];
      i := i + 1;
    }
    assert issues[..|issues|] == issues;
  }

  const LoginRoute := "/auth?mode=login&redirect=/checkout"
  const CartRoute := "/cart"

  /** The redirect effect, from the number of cart lines: a guest is sent to log in
      (the later navigation wins over the one to the empty cart), a signed-in user
      with an empty cart to the cart page. */
  function Redirect(lineCount: nat, isAuthenticated: bool): (r: Option<string>)
    ensures r.None? <==> isAuthenticated && lineCount > 0
    ensures !isAuthenticated ==> r == Some(LoginRoute)
    ensures isAuthenticated && lineCount == 0 ==> r == Some(CartRoute)
  {
    if !isAuthenticated then Some(LoginRoute)
    else if lineCount == 0 then Some(CartRoute)
    else None
  }

  // ---- the page state ------------------------------------------------------------

  function EmptyShipping(firstName: string, lastName: string): (m: map<string, string>)
    ensures HasShippingFields(m)
  {
    map["firstName" := firstName, "lastName" := lastName, "address" := "", "city" := "",
        "state" := "", "zipCode" := "", "phone" := ""]
  }

  const EmptyPayment: map<string, string> :=
    map["cardNumber" := "", "expiryDate" := "", "cvv" := "", "nameOnCard" := ""]

  /** What a change of a payment field stores. */
  function FormatPaymentField(name: string, value: string): string {
    if name == "cardNumber" then FormatCardNumber(value)
    else if name == "expiryDate" then FormatExpiry(value)
    else if name == "cvv" then FormatCvv(value)
    else value
  }

  /** An edited field's error is blanked, when it has one that is not empty. */
  function ClearError(errors: map<string, string>, name: string): map<string, string> {
    if name in errors && errors[name] != "" then errors[name := ""] else errors
  }

  class CheckoutPage {
    var step: Step
    var isSubmitting: bool
    var paymentMethod: PaymentMethod
    var errors: map<string, string>
    var serverError: Option<string>
    var shippingData: map<string, string>
    var paymentData: map<string, string>

    predicate Valid()
      reads this
    {
      HasShippingFields(shippingData) && HasPaymentFields(paymentData)
    }

    /** The address form starts from the signed-in user's name, if any. */
    constructor (userName: Option<string>)
      ensures Valid() && step == ShippingStep && !isSubmitting && paymentMethod == CreditCard
      ensures errors == map[] && serverError == None && paymentData == EmptyPayment
      ensures userName.None? ==> shippingData == EmptyShipping("", "")
      ensures userName.Some? ==> shippingData == EmptyShipping(FirstName(userName.value), LastName(userName.value))
    {
      step := ShippingStep;
      isSubmitting := false;
      paymentMethod := CreditCard;
      errors := map[];
      serverError := None;
      shippingData := if userName.Some? then EmptyShipping(FirstName(userName.value), LastName(userName.value))
                      else EmptyShipping("", "");
      paymentData := EmptyPayment;
    }

    method HandleShippingChange(name: string, value: string)
      requires Valid()
      modifies this
      ensures Valid()
      ensures shippingData == old(shippingData)[name := value] && errors == ClearError(old(errors), name)
      ensures step == old(step) && paymentData == old(paymentData) && paymentMethod == old(paymentMethod)
      ensures isSubmitting == old(isSubmitting) && serverError == old(serverError)
    {
      shippingData := shippingData[name := value];
      errors := ClearError(errors, name);
    }

    method HandlePaymentChange(name: string, value: string)
      requires Valid()
      modifies this
      ensures Valid()
      ensures paymentData == old(paymentData)[name := FormatPaymentField(name, value)]
      ensures errors == ClearError(old(errors), name)
      ensures step == old(step) && shippingData == old(shippingData) && paymentMethod == old(paymentMethod)
      ensures isSubmitting == old(isSubmitting) && serverError == old(serverError)
    {
      paymentData := paymentData[name := FormatPaymentField(name, value)];
      errors := ClearError(errors, name);
    }

    method ValidateShipping() returns (ok: bool)
      requires Valid()
      modifies this
      ensures Valid() && ok == (ShippingIssues(shippingData) == [])
      ensures errors == FieldErrors(ShippingIssues(shippingData))
      ensures step == old(step) && shippingData == old(shippingData) && paymentData == old(paymentData)
      ensures paymentMethod == old(paymentMethod) && isSubmitting == old(isSubmitting)
      ensures serverError == old(serverError)
    {
      var issues := ShippingIssues(shippingData);
      if issues != [] {
        errors := CollectErrors(issues);
        return false;
      }
      errors := map[];
      return true;
    }

    /** Card details are checked only for card payment. */
    method ValidatePayment() returns (ok: bool)
      requires Valid()
      modifies this
      ensures Valid() && ok == (paymentMethod != CreditCard || PaymentIssues(paymentData) == [])
      ensures paymentMethod != CreditCard ==> errors == old(errors)
      ensures paymentMethod == CreditCard ==> errors == FieldErrors(PaymentIssues(paymentData))
      ensures step == old(step) && shippingData == old(shippingData) && paymentData == old(paymentData)
      ensures paymentMethod == old(paymentMethod) && isSubmitting == old(isSubmitting)
      ensures serverError == old(serverError)
    {
      if paymentMethod != CreditCard {
        return true;
      }
      var issues := PaymentIssues(paymentData);
      if issues != [] {
        errors := CollectErrors(issues);
        return false;
      }
      errors := map[];
      return true;
    }

    /** `handleContinueToPayment`: the step advances exactly when the address passes
        the shipping schema, and the errors are then cleared. */
    method ContinueToPayment()
      requires Valid()
      modifies this
      ensures Valid() && shippingData == old(shippingData) && paymentData == old(paymentData)
      ensures ShippingIssues(shippingData) == [] ==> step == PaymentStep && errors == map[]
      ensures ShippingIssues(shippingData) != [] ==>
                step == old(step) && errors == FieldErrors(ShippingIssues(shippingData))
      ensures paymentMethod == old(paymentMethod) && isSubmitting == old(isSubmitting)
      ensures serverError == old(serverError)
    {
      var ok := ValidateShipping();
      if ok {
        step := PaymentStep;
        errors := map[];
      }
    }

    /** The back button. */
    method BackToShipping()
      modifies this
      ensures step == ShippingStep && errors == old(errors) && shippingData == old(shippingData)
      ensures paymentData == old(paymentData) && paymentMethod == old(paymentMethod)
      ensures isSubmitting == old(isSubmitting) && serverError == old(serverError)
    {
      step := ShippingStep;
    }

    method SetPaymentMethod(m: PaymentMethod)
      modifies this
      ensures paymentMethod == m && step == old(step) && errors == old(errors)
      ensures shippingData == old(shippingData) && paymentData == old(paymentData)
      ensures isSubmitting == old(isSubmitting) && serverError == old(serverError)
    {
      paymentMethod := m;
    }

    /** `handlePlaceOrder`. `fails` stands for the simulated 15% payment failure. The
        payment check runs first and, for card payment, replaces the errors with the
        card issues; invalid details then stop it. A successful placement empties the
        cart and leaves the page submitting while it navigates away. */
    method PlaceOrder(cart: Cart.CartStore, fails: bool)
      requires Valid()
      modifies this, cart
      ensures Valid() && paymentData == old(paymentData) && shippingData == old(shippingData)
      ensures step == old(step) && paymentMethod == old(paymentMethod) && cart.isLoading == old(cart.isLoading)
      ensures paymentMethod == CreditCard ==> errors == FieldErrors(PaymentIssues(paymentData))
      ensures paymentMethod != CreditCard ==> errors == old(errors)
      ensures var valid := paymentMethod != CreditCard || PaymentIssues(paymentData) == [];
              && (!valid ==> cart.items == old(cart.items) && isSubmitting == old(isSubmitting)
                             && serverError == old(serverError))
              && (valid && fails ==> cart.items == old(cart.items) && !isSubmitting
                                     && serverError == Some(PaymentFailedMessage))
              && (valid && !fails ==> cart.items == [] && isSubmitting && serverError == None)
    {
      var ok := ValidatePayment();
      if !ok {
        return;
      }
      isSubmitting := true;
      serverError := None;
      if fails {
        isSubmitting := false;
        serverError := Some(PaymentFailedMessage);
        return;
      }
      cart.ClearCart();
    }
  }
}
