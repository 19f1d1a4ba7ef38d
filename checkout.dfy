/**
 * The checkout page, src/pages/Checkout.jsx: the input sanitisers of the form fields,
 * `validateInputs` with its five patterns and its first-error message, and `handleCheckout`,
 * which validates, builds the order from the form and the cart, and hands it to
 * `createOrder`. The clock (`new Date().toISOString()`) is the parameter `date`, and the
 * outcome of the request is the parameter `created`.
 */
module Checkout {
  import opened Wrappers
  import opened Text
  import Seqs
  import CartContext
  import OrdersApi
  import AdminOrders

  const NameError: string := "Enter a valid full name."
  const EmailError: string := "Enter a valid email address."
  const PhoneError: string := "Enter a valid phone number."
  const CityError: string := "Enter a valid city."
  const AddressError: string := "Enter a valid address."
  const OrderFailed: string := "Failed to create order. Please try again."
  const Pending: string := "Pending"
  const CashOnDelivery: string := "COD"

  // ---------------------------------------------------------------------------
  // Character classes of the patterns and of the sanitisers
  // ---------------------------------------------------------------------------

  /** `[a-zA-Z\s]`: the name and city characters. */
  predicate LetterOrSpace(c: char) { IsLetter(c) || IsSpace(c) }

  /** `[+0-9\s\-]`: what the phone sanitiser keeps. */
  predicate PhoneChar(c: char) { c == '+' || IsDigit(c) || IsSpace(c) || c == '-' }

  /** `[0-9\s\-]`: the characters after the first digit of a phone number. */
  predicate PhoneTailChar(c: char) { IsDigit(c) || IsSpace(c) || c == '-' }

  /** `[a-zA-Z0-9\s,.-]`: the address characters. */
  predicate AddressChar(c: char) { IsLetter(c) || IsDigit(c) || IsSpace(c) || c == ',' || c == '.' || c == '-' }

  /** `[^\s@]`: a character of the three parts of an email address. */
  predicate EmailPartChar(c: char) { !IsSpace(c) && c != '@' }

  // ---------------------------------------------------------------------------
  // The patterns of `validateInputs`, matched against the untrimmed value
  // ---------------------------------------------------------------------------

  /** `/^[a-zA-Z\s]+$/`, the name and the city pattern. */
  predicate LettersPattern(s: string) {
    |s| > 0 && forall i :: 0 <= i < |s| ==> LetterOrSpace(s[i])
  }

  /** `/^[^\s@]+@[^\s@]+\.[^\s@]+$/`: a non-empty local part, '@', then a '.' with text on both sides. */
  predicate EmailPattern(s: string) {
    && (forall i :: 0 <= i < |s| ==> EmailPartChar(s[i]) || s[i] == '@')
    && exists k, j :: 0 < k && k + 1 < j < |s| - 1 && s[k] == '@' && s[j] == '.'
         && (forall i :: 0 <= i < |s| && i != k ==> s[i] != '@')
  }

  /** `/^[\+]?[0-9][0-9\s\-]{7,15}$/`: an optional '+', a digit, then 7 to 15 digits, blanks or '-'. */
  predicate PhonePattern(s: string) {
    var start := if |s| > 0 && s[0] == '+' then 1 else 0;
    && 8 <= |s| - start <= 16
    && IsDigit(s[start])
    && forall i :: start + 1 <= i < |s| ==> PhoneTailChar(s[i])
  }

  /** `/^[a-zA-Z0-9\s,.-]+$/`. */
  predicate AddressPattern(s: string) {
    |s| > 0 && forall i :: 0 <= i < |s| ==> AddressChar(s[i])
  }

  /** Which fields `validateInputs` flags: blank after trimming, or not matching the pattern. */
  datatype FieldErrors = FieldErrors(
    customerName: bool, customerEmail: bool, customerPhone: bool, city: bool, customerAddress: bool)

  const NoErrors: FieldErrors := FieldErrors(false, false, false, false, false)

  /** `newFieldErrors` of `validateInputs` for the form's values. */
  function Errors(info: OrdersApi.Customer): (r: FieldErrors)
    ensures IsBlank(info.customerName) ==> r.customerName
    ensures IsBlank(info.customerEmail) ==> r.customerEmail
    ensures IsBlank(info.customerPhone) ==> r.customerPhone
    ensures IsBlank(info.city) ==> r.city
    ensures IsBlank(info.customerAddress) ==> r.customerAddress
  {
    FieldErrors(
      IsBlank(info.customerName) || !LettersPattern(info.customerName),
      IsBlank(info.customerEmail) || !EmailPattern(info.customerEmail),
      IsBlank(info.customerPhone) || !PhonePattern(info.customerPhone),
      IsBlank(info.city) || !LettersPattern(info.city),
      IsBlank(info.customerAddress) || !AddressPattern(info.customerAddress))
  }

  /**
   * The message `validateInputs` returns: none when no field is flagged, otherwise the
   * message of the first flagged field in the order name, email, phone, city, address.
   */
  function FirstError(e: FieldErrors): (r: Option<string>)
    ensures r.None? <==> e == NoErrors
    ensures e.customerName ==> r == Some(NameError)
    ensures !e.customerName && e.customerEmail ==> r == Some(EmailError)
    ensures !e.customerName && !e.customerEmail && e.customerPhone ==> r == Some(PhoneError)
    ensures !e.customerName && !e.customerEmail && !e.customerPhone && e.city ==> r == Some(CityError)
    ensures !e.customerName && !e.customerEmail && !e.customerPhone && !e.city && e.customerAddress ==> r == Some(AddressError)
  {
    if e.customerName then Some(NameError)
    else if e.customerEmail then Some(EmailError)
    else if e.customerPhone then Some(PhoneError)
    else if e.city then Some(CityError)
    else if e.customerAddress then Some(AddressError)
    else None
  }

  /** The form passes exactly when each of the five fields is non-blank and matches its pattern. */
  lemma PassesIffAllValid(info: OrdersApi.Customer)
    ensures FirstError(Errors(info)).None? <==>
      && !IsBlank(info.customerName) && LettersPattern(info.customerName)
      && !IsBlank(info.customerEmail) && EmailPattern(info.customerEmail)
      && !IsBlank(info.customerPhone) && PhonePattern(info.customerPhone)
      && !IsBlank(info.city) && LettersPattern(info.city)
      && !IsBlank(info.customerAddress) && AddressPattern(info.customerAddress)
  {
  }

  /** A blank field is flagged whatever the pattern says: spaces alone match the name pattern. */
  lemma BlankNameFlagged(info: OrdersApi.Customer)
    requires info.customerName == "  "
    ensures LettersPattern(info.customerName)
    ensures Errors(info).customerName && FirstError(Errors(info)) == Some(NameError)
  {
    assert IsSpace(info.customerName[0]) && IsSpace(info.customerName[1]);
    BlankIffAllSpace(info.customerName);
  }

  /** An address of the email pattern has no blank in it, one '@', and so is never blank. */
  lemma EmailPatternShape(s: string)
    requires EmailPattern(s)
    ensures forall i :: 0 <= i < |s| ==> !IsSpace(s[i])
    ensures !IsBlank(s)
  {
    var k, j :| 0 < k && k + 1 < j < |s| - 1 && s[k] == '@' && s[j] == '.'
      && (forall i :: 0 <= i < |s| && i != k ==> s[i] != '@');
    assert !IsSpace(s[0]);
    BlankIffAllSpace(s);
  }

  /** The pattern's length bounds: 9 to 17 characters, and never blank. */
  lemma PhonePatternShape(s: string)
    requires PhonePattern(s)
    ensures 9 <= |s| + (if s[0] == '+' then 0 else 1) <= 17
    ensures !IsBlank(s)
  {
    var start := if s[0] == '+' then 1 else 0;
    assert IsDigit(s[start]) && !IsSpace(s[start]);
    BlankIffAllSpace(s);
  }

  /** Sample values: a complete address passes, one without a dot after the '@' does not. */
  lemma EmailExamples()
    ensures EmailPattern("ali@shop.ma")
    ensures !EmailPattern("ali@shop")
  {
    var s := "ali@shop.ma";
    assert 0 < 3 && 3 + 1 < 8 < |s| - 1 && s[3] == '@' && s[8] == '.';
    assert forall i :: 0 <= i < |s| && i != 3 ==> s[i] != '@';
  }

  /** Sample values: an international number passes, a too short one does not. */
  lemma PhoneExamples()
    ensures PhonePattern("+212 600-123456")
    ensures !PhonePattern("0612345")
  {
    var s := "+212 600-123456";
    assert forall i :: 2 <= i < |s| ==> PhoneTailChar(s[i]);
  }

  // ---------------------------------------------------------------------------
  // The input sanitisers: `value.replace(/[^…]/g, "")`
  // ---------------------------------------------------------------------------

  /** The name and city inputs keep letters and blanks. */
  function LettersOnly(s: string): (r: string)
    ensures forall i :: 0 <= i < |r| ==> LetterOrSpace(r[i])
    ensures forall c :: multiset(r)[c] == if LetterOrSpace(c) then multiset(s)[c] else 0
  {
    Seqs.Filter(s, LetterOrSpace)
  }

  /** The phone input keeps '+', digits, blanks and '-'. */
  function PhoneCharsOnly(s: string): (r: string)
    ensures forall i :: 0 <= i < |r| ==> PhoneChar(r[i])
    ensures forall c :: multiset(r)[c] == if PhoneChar(c) then multiset(s)[c] else 0
  {
    Seqs.Filter(s, PhoneChar)
  }

  /** The address input keeps letters, digits, blanks, ',', '.' and '-'. */
  function AddressCharsOnly(s: string): (r: string)
    ensures forall i :: 0 <= i < |r| ==> AddressChar(r[i])
    ensures forall c :: multiset(r)[c] == if AddressChar(c) then multiset(s)[c] else 0
  {
    Seqs.Filter(s, AddressChar)
  }

  /** Sanitising twice is sanitising once: the inputs leave what is typed in again as it is. */
  lemma SanitisersIdempotent(s: string)
    ensures LettersOnly(LettersOnly(s)) == LettersOnly(s)
    ensures PhoneCharsOnly(PhoneCharsOnly(s)) == PhoneCharsOnly(s)
    ensures AddressCharsOnly(AddressCharsOnly(s)) == AddressCharsOnly(s)
  {
    Seqs.FilterAllPass(LettersOnly(s), LetterOrSpace);
    Seqs.FilterAllPass(PhoneCharsOnly(s), PhoneChar);
    Seqs.FilterAllPass(AddressCharsOnly(s), AddressChar);
  }

  /**
   * What the name, city and address inputs hold always matches its pattern once it is
   * not blank, so those fields can only be flagged for being blank.
   */
  lemma SanitisedMatches(raw: string)
    ensures !IsBlank(LettersOnly(raw)) ==> LettersPattern(LettersOnly(raw))
    ensures !IsBlank(AddressCharsOnly(raw)) ==> AddressPattern(AddressCharsOnly(raw))
  {
    assert Trim("") == "";
  }

  /**
   * The phone input is looser than its pattern: a '+' inside the number passes the input
   * unchanged but fails the check.
   */
  lemma PhoneSanitiserLooser(s: string)
    requires s == "06+12345678"
    ensures PhoneCharsOnly(s) == s
    ensures !PhonePattern(s)
  {
    PlusInsideRejected(s);
    assert forall i :: 0 <= i < |s| ==> PhoneChar(s[i]);
    Seqs.FilterAllPass(s, PhoneChar);
  }

  /** A '+' after the first digit fails the phone pattern. */
  lemma PlusInsideRejected(s: string)
    requires |s| > 2 && s[0] != '+' && s[2] == '+'
    ensures !PhonePattern(s)
  {
    assert !PhoneTailChar(s[2]);
  }

  // ---------------------------------------------------------------------------
  // The page
  // ---------------------------------------------------------------------------

  /** The empty-cart effect sends the shopper to the cart unless an order is on its way. */
  predicate RedirectsToCart(cart: seq<CartContext.CartLine>, isNavigating: bool) {
    |cart| == 0 && !isNavigating
  }

  /** The form's state. */
  class CheckoutForm {
    var info: OrdersApi.Customer
    var fieldErrors: FieldErrors
    var error: string
    var isSubmitting: bool
    var isNavigating: bool

    /** The empty form, cash on delivery chosen. */
    constructor ()
      ensures info == OrdersApi.Customer("", "", "", "", "", CashOnDelivery)
      ensures fieldErrors == NoErrors && error == "" && !isSubmitting && !isNavigating
    {
      info := OrdersApi.Customer("", "", "", "", "", CashOnDelivery);
      fieldErrors := NoErrors;
      error := "";
      isSubmitting := false;
      isNavigating := false;
    }

    /** Typing in the name input: the sanitised value is kept and its flag cleared. */
    method TypeName(value: string)
      modifies this
      ensures info == old(info).(customerName := LettersOnly(value))
      ensures fieldErrors == old(fieldErrors).(customerName := false)
      ensures error == old(error) && isSubmitting == old(isSubmitting) && isNavigating == old(isNavigating)
    {
      info := info.(customerName := LettersOnly(value));
      if fieldErrors.customerName {
        fieldErrors := fieldErrors.(customerName := false);
      }
    }

    /** Typing in the email input (`handleChange`): the value as typed, the error and its flag cleared. */
    method TypeEmail(value: string)
      modifies this
      ensures info == old(info).(customerEmail := value)
      ensures fieldErrors == old(fieldErrors).(customerEmail := false)
      ensures error == "" && isSubmitting == old(isSubmitting) && isNavigating == old(isNavigating)
    {
      info := info.(customerEmail := value);
      error := "";
      if fieldErrors.customerEmail {
        fieldErrors := fieldErrors.(customerEmail := false);
      }
    }

    /** Typing in the phone input. */
    method TypePhone(value: string)
      modifies this
      ensures info == old(info).(customerPhone := PhoneCharsOnly(value))
      ensures fieldErrors == old(fieldErrors).(customerPhone := false)
      ensures error == old(error) && isSubmitting == old(isSubmitting) && isNavigating == old(isNavigating)
    {
      info := info.(customerPhone := PhoneCharsOnly(value));
      if fieldErrors.customerPhone {
        fieldErrors := fieldErrors.(customerPhone := false);
      }
    }

    /** Typing in the city input. */
    method TypeCity(value: string)
      modifies this
      ensures info == old(info).(city := LettersOnly(value))
      ensures fieldErrors == old(fieldErrors).(city := false)
      ensures error == old(error) && isSubmitting == old(isSubmitting) && isNavigating == old(isNavigating)
    {
      info := info.(city := LettersOnly(value));
      if fieldErrors.city {
        fieldErrors := fieldErrors.(city := false);
      }
    }

    /** Typing in the address input. */
    method TypeAddress(value: string)
      modifies this
      ensures info == old(info).(customerAddress := AddressCharsOnly(value))
      ensures fieldErrors == old(fieldErrors).(customerAddress := false)
      ensures error == old(error) && isSubmitting == old(isSubmitting) && isNavigating == old(isNavigating)
    {
      info := info.(customerAddress := AddressCharsOnly(value));
      if fieldErrors.customerAddress {
        fieldErrors := fieldErrors.(customerAddress := false);
      }
    }

    /** `validateInputs`: flags the fields and returns the first flagged field's message. */
    method ValidateInputs() returns (message: Option<string>)
      modifies this
      ensures fieldErrors == Errors(info) && message == FirstError(fieldErrors)
      ensures info == old(info) && error == old(error)
      ensures isSubmitting == old(isSubmitting) && isNavigating == old(isNavigating)
    {
      var newFieldErrors := Errors(info);
      fieldErrors := newFieldErrors;
      message := FirstMessage(newFieldErrors);
    }

    /**
     * `handleCheckout`: a validation failure shows its message and sends nothing; otherwise
     * the order of the form's fields, `date`, status "Pending" and the cart lines goes to
     * `createOrder` (`sent` is its request body). Success marks the page as navigating, so
     * the cart emptying afterwards does not send the shopper back to the cart; a failure
     * shows a message and re-enables the button.
     */
    method HandleCheckout(cart: seq<CartContext.CartLine>, date: string, created: bool)
      returns (sent: Option<OrdersApi.Payload>)
      modifies this
      ensures fieldErrors == Errors(old(info)) && info == old(info)
      ensures FirstError(Errors(old(info))).Some? ==>
        && sent.None? && error == FirstError(Errors(old(info))).value
        && isSubmitting == old(isSubmitting) && isNavigating == old(isNavigating)
      ensures FirstError(Errors(old(info))).None? ==>
        sent == Some(OrdersApi.CreateOrder(OrdersApi.OrderData(old(info), date, Pending, cart)))
      ensures FirstError(Errors(old(info))).None? && created ==>
        isSubmitting && isNavigating && error == old(error) && !RedirectsToCart([], isNavigating)
      ensures FirstError(Errors(old(info))).None? && !created ==>
        error == OrderFailed && !isSubmitting && !isNavigating
    {
      var validationError := ValidateInputs();
      if validationError.Some? {
        error := validationError.value;
        return None;
      }
      isSubmitting := true;
      var order := OrdersApi.OrderData(info, date, Pending, cart);
      sent := Some(OrdersApi.CreateOrder(order));
      if created {
        isNavigating := true;
      } else {
        error := OrderFailed;
        isNavigating := false;
        isSubmitting := false;
      }
    }
  }

  /** The `if` chain of `validateInputs`, which returns at the first flagged field. */
  method FirstMessage(e: FieldErrors) returns (message: Option<string>)
    ensures message == FirstError(e)
  {
    if e.customerName { return Some(NameError); }
    if e.customerEmail { return Some(EmailError); }
    if e.customerPhone { return Some(PhoneError); }
    if e.city { return Some(CityError); }
    if e.customerAddress { return Some(AddressError); }
    return None;
  }

  /** The order sent from the checkout is worth the cart total the page shows. */
  lemma SentTotalIsCartTotal(info: OrdersApi.Customer, date: string, cart: seq<CartContext.CartLine>)
    ensures AdminOrders.ItemsTotal(OrdersApi.CreateOrder(OrdersApi.OrderData(info, date, Pending, cart)).products)
         == CartContext.CartTotal(cart)
  {
    OrdersApi.StoredTotalIsCartTotal(OrdersApi.OrderData(info, date, Pending, cart));
  }
}
