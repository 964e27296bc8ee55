/**
 * The checkout page: the order totals derived from the cart, the checkout form and its
 * per-field error map, the quantity buttons, and the place-order and reset handlers.
 * Money is in integer cents.
 */
module CartPage {
  import opened Wrappers
  import opened Sequences
  import opened CartStore
  import opened Validations

  /** The flat delivery fee, 2.99. */
  const DeliveryFeeCents: int := 299

  /** The tax rate, 7%. */
  const TaxPercent: int := 7

  /** `it.price * it.quantity`. */
  function LineAmount(item: CartItem): int
  {
    item.price * item.quantity
  }

  /** `cart.reduce((sum, it) => sum + it.price * it.quantity, 0)`. */
  function Subtotal(cart: seq<CartItem>): int
  {
    SumOf(cart, LineAmount)
  }

  /**
   * `+x.toFixed(2)` for an amount `v` given in hundredths of a cent: the nearest whole cent,
   * with an exact half rounded away from zero.
   */
  function RoundToCents(v: int): (c: int)
    ensures -50 <= v - 100 * c <= 50
    ensures v - 100 * c == 50 ==> v < 0
    ensures v - 100 * c == -50 ==> v > 0
  {
    if v >= 0 then (v + 50) / 100 else -((-v + 50) / 100)
  }

  /** `subtotal > 0 ? 2.99 : 0`. */
  function DeliveryFee(subtotal: int): int
  {
    if subtotal > 0 then DeliveryFeeCents else 0
  }

  /** `+(subtotal * 0.07).toFixed(2)`. */
  function Tax(subtotal: int): int
  {
    RoundToCents(subtotal * TaxPercent)
  }

  /** `+(subtotal + DELIVERY_FEE + tax).toFixed(2)`. */
  function Total(subtotal: int): int
  {
    RoundToCents(100 * (subtotal + DeliveryFee(subtotal) + Tax(subtotal)))
  }

  datatype Totals = Totals(subtotal: int, delivery: int, tax: int, total: int)

  /** The four amounts of the order summary for a cart. */
  function OrderTotals(cart: seq<CartItem>): (t: Totals)
    ensures t.subtotal == Subtotal(cart)
    ensures t.subtotal > 0 ==> t.delivery == 299
    ensures t.subtotal <= 0 ==> t.delivery == 0
    ensures -50 <= 7 * t.subtotal - 100 * t.tax <= 50
    ensures 7 * t.subtotal - 100 * t.tax == 50 ==> t.subtotal < 0
    ensures 7 * t.subtotal - 100 * t.tax == -50 ==> t.subtotal > 0
    ensures t.total == t.subtotal + t.delivery + t.tax
  {
    var s := Subtotal(cart);
    Totals(s, DeliveryFee(s), Tax(s), Total(s))
  }

  /** With non-negative prices and quantities the subtotal is never negative. */
  lemma SubtotalNonNegative(cart: seq<CartItem>)
    requires forall i | 0 <= i < |cart| :: cart[i].price >= 0 && cart[i].quantity >= 0
    ensures Subtotal(cart) >= 0
  {
    forall i | 0 <= i < |cart| ensures LineAmount(cart[i]) >= 0 {
      assert cart[i].price * cart[i].quantity >= 0;
    }
    SumOfNonNegative(cart, LineAmount);
  }

  /** Adding a dish the cart does not hold raises the subtotal by the price of the units added. */
  lemma SubtotalAfterInsert(cart: seq<CartItem>, p: AddToCartPayload)
    requires !HasId(cart, p.id) && p.quantity > 0
    ensures Subtotal(AddedToCart(cart, p)) == Subtotal(cart) + p.price * p.quantity
  {
    SumAfterInsert(cart, p, LineAmount);
  }

  /**
   * Adding to line `k` of a well-formed cart moves the subtotal by the line's own price times
   * the units added, unless the line drops out, which takes the whole line away.
   */
  lemma SubtotalAfterUpdate(cart: seq<CartItem>, k: nat, p: AddToCartPayload)
    requires WellFormed(cart) && k < |cart| && cart[k].id == p.id
    ensures Subtotal(AddedToCart(cart, p)) ==
              if cart[k].quantity + p.quantity > 0 then Subtotal(cart) + cart[k].price * p.quantity
              else Subtotal(cart) - cart[k].price * cart[k].quantity
  {
    SumAfterUpdate(cart, k, p, LineAmount);
    LineAmountAdds(cart[k], p.quantity);
  }

  lemma LineAmountAdds(item: CartItem, delta: int)
    ensures LineAmount(item.(quantity := item.quantity + delta)) == LineAmount(item) + item.price * delta
  {
    assert item.price * (item.quantity + delta) == item.price * item.quantity + item.price * delta;
  }

  /** An empty cart costs nothing: no subtotal, no delivery fee, no tax. */
  lemma EmptyCartTotals()
    ensures OrderTotals([]) == Totals(0, 0, 0, 0)
  {
  }

  function SampleCart(): seq<CartItem>
  {
    [CartItem(1, "Margherita Pizza", 899, 2), CartItem(2, "Cheeseburger", 650, 1)]
  }

  /** Two pizzas at 8.99 and a burger at 6.50: 24.48 + 2.99 delivery + 1.71 tax = 29.18. */
  lemma SampleCartTotals()
    ensures OrderTotals(SampleCart()) == Totals(2448, 299, 171, 2918)
  {
    var c := SampleCart();
    assert c[..|c| - 1] == [c[0]];
    SumOfSingleton(c[0], LineAmount);
    assert Subtotal(c) == 2448;
  }

  datatype Payment = Card | Cod

  /** The checkout form; the fields marked optional in the source are `Option`s. */
  datatype CheckoutForm = CheckoutForm(
    name: string,
    email: string,
    phone: string,
    addressLine1: string,
    addressLine2: Option<string>,
    city: string,
    postalCode: string,
    instructions: Option<string>,
    paymentMethod: Payment,
    cardNumber: Option<string>,
    cardExpiry: Option<string>,
    cardCvv: Option<string>)

  /** `initialForm`: every text field empty and card payment selected. */
  const InitialForm: CheckoutForm :=
    CheckoutForm("", "", "", "", Some(""), "", "", Some(""), Card, Some(""), Some(""), Some(""))

  /** The keys of the form, the keys of the error map and of the touched map. */
  datatype Field =
    | Name | Email | Phone | AddressLine1 | AddressLine2 | City | PostalCode | Instructions
    | PaymentMethod | CardNumber | CardExpiry | CardCvv

  const AllFields: set<Field> :=
    {Name, Email, Phone, AddressLine1, AddressLine2, City, PostalCode, Instructions,
     PaymentMethod, CardNumber, CardExpiry, CardCvv}

  /** Every field of the form is one of `AllFields`. */
  lemma AllFieldsComplete()
    ensures forall k: Field :: k in AllFields
  {
    forall k: Field
      ensures k in AllFields
    {
      match k
      case Name =>
      case Email =>
      case Phone =>
      case AddressLine1 =>
      case AddressLine2 =>
      case City =>
      case PostalCode =>
      case Instructions =>
      case PaymentMethod =>
      case CardNumber =>
      case CardExpiry =>
      case CardCvv =>
    }
  }

  /** Whether the rule for field `k` fails; card rules are checked only when paying by card. */
  predicate Fails(f: CheckoutForm, k: Field)
  {
    match k
    case Name => IsBlank(f.name)
    case Email => !EmailIsValid(f.email)
    case Phone => !PhoneIsValid(f.phone)
    case AddressLine1 => IsBlank(f.addressLine1)
    case City => IsBlank(f.city)
    case PostalCode => IsBlank(f.postalCode)
    case CardNumber => f.paymentMethod == Card && !CardNumberIsValid(OrEmpty(f.cardNumber))
    case CardExpiry => f.paymentMethod == Card && !ExpiryIsValid(OrEmpty(f.cardExpiry))
    case CardCvv => f.paymentMethod == Card && !CvvIsValid(OrEmpty(f.cardCvv))
    case AddressLine2 => false
    case Instructions => false
    case PaymentMethod => false
  }

  /** The message shown under a failing field. */
  function Message(k: Field): string
  {
    match k
    case Name => "Full name is required"
    case Email => "Enter a valid email"
    case Phone => "Enter phone (digits, country code optional)"
    case AddressLine1 => "Address is required"
    case City => "City is required"
    case PostalCode => "Postal code is required"
    case CardNumber => "Invalid card number"
    case CardExpiry => "Expiry must be MM/YY"
    case CardCvv => "Invalid CVV"
    case AddressLine2 => ""
    case Instructions => ""
    case PaymentMethod => ""
  }

  /**
   * The `errors` object: a key for every field whose rule fails, and nothing else,
   * each holding that field's message.
   */
  function Errors(f: CheckoutForm): (e: map<Field, string>)
    ensures forall k :: k in e <==> Fails(f, k)
    ensures forall k | k in e :: e[k] == Message(k)
  {
    AllFieldsComplete();
    map k | k in AllFields && Fails(f, k) :: Message(k)
  }

  // One field at a time: each of these looks at a single rule.

  lemma NameError(f: CheckoutForm)
    ensures Name in Errors(f) <==> IsBlank(f.name)
  {
  }

  lemma EmailError(f: CheckoutForm)
    ensures Email in Errors(f) <==> !EmailIsValid(f.email)
  {
  }

  lemma PhoneError(f: CheckoutForm)
    ensures Phone in Errors(f) <==> !PhoneIsValid(f.phone)
  {
  }

  lemma AddressError(f: CheckoutForm)
    ensures AddressLine1 in Errors(f) <==> IsBlank(f.addressLine1)
  {
  }

  lemma CityError(f: CheckoutForm)
    ensures City in Errors(f) <==> IsBlank(f.city)
  {
  }

  lemma PostalCodeError(f: CheckoutForm)
    ensures PostalCode in Errors(f) <==> IsBlank(f.postalCode)
  {
  }

  lemma CardNumberError(f: CheckoutForm)
    ensures CardNumber in Errors(f) <==> f.paymentMethod == Card && !CardNumberIsValid(OrEmpty(f.cardNumber))
  {
  }

  lemma CardExpiryError(f: CheckoutForm)
    ensures CardExpiry in Errors(f) <==> f.paymentMethod == Card && !ExpiryIsValid(OrEmpty(f.cardExpiry))
  {
  }

  lemma CardCvvError(f: CheckoutForm)
    ensures CardCvv in Errors(f) <==> f.paymentMethod == Card && !CvvIsValid(OrEmpty(f.cardCvv))
  {
  }

  /** The six required fields carry an error exactly when their own rule fails. */
  lemma RequiredFieldErrors(f: CheckoutForm)
    ensures Name in Errors(f) <==> IsBlank(f.name)
    ensures Email in Errors(f) <==> !EmailIsValid(f.email)
    ensures Phone in Errors(f) <==> !PhoneIsValid(f.phone)
    ensures AddressLine1 in Errors(f) <==> IsBlank(f.addressLine1)
    ensures City in Errors(f) <==> IsBlank(f.city)
    ensures PostalCode in Errors(f) <==> IsBlank(f.postalCode)
  {
    NameError(f);
    EmailError(f);
    PhoneError(f);
    AddressError(f);
    CityError(f);
    PostalCodeError(f);
  }

  /** The card fields carry an error only when paying by card, and then exactly when their rule fails. */
  lemma CardFieldErrors(f: CheckoutForm)
    ensures CardNumber in Errors(f) <==> f.paymentMethod == Card && !CardNumberIsValid(OrEmpty(f.cardNumber))
    ensures CardExpiry in Errors(f) <==> f.paymentMethod == Card && !ExpiryIsValid(OrEmpty(f.cardExpiry))
    ensures CardCvv in Errors(f) <==> f.paymentMethod == Card && !CvvIsValid(OrEmpty(f.cardCvv))
  {
    CardNumberError(f);
    CardExpiryError(f);
    CardCvvError(f);
  }

  /** The second address line, the instructions and the payment choice are never in error. */
  lemma UncheckedFieldsNeverErr(f: CheckoutForm)
    ensures AddressLine2 !in Errors(f) && Instructions !in Errors(f) && PaymentMethod !in Errors(f)
  {
  }

  /** `Object.keys(errors).length === 0`. */
  predicate IsValid(f: CheckoutForm)
  {
    |Errors(f)| == 0
  }

  /** The validation table: every applicable rule passes; the card rules apply to card payment only. */
  predicate RulesPass(f: CheckoutForm)
  {
    && !AllWhitespace(f.name)
    && EmailIsValid(f.email)
    && PhoneIsValid(f.phone)
    && !AllWhitespace(f.addressLine1)
    && !AllWhitespace(f.city)
    && !AllWhitespace(f.postalCode)
    && (f.paymentMethod == Card ==>
          && CardNumberIsValid(OrEmpty(f.cardNumber))
          && ExpiryIsValid(OrEmpty(f.cardExpiry))
          && CvvIsValid(OrEmpty(f.cardCvv)))
  }

  /** An empty error object is one in which no field fails. */
  lemma ValidIffNoneFails(f: CheckoutForm)
    ensures IsValid(f) <==> forall k :: k !in Errors(f)
  {
    var e := Errors(f);
    if forall k :: k !in e {
      assert e.Keys == {};
      assert e == map[];
    } else {
      var k :| k in e;
      assert k in e.Keys;
    }
  }

  /** The form is valid exactly when every applicable rule of the table passes. */
  lemma IsValidIff(f: CheckoutForm)
    ensures IsValid(f) <==> RulesPass(f)
  {
    RequiredFieldErrors(f);
    CardFieldErrors(f);
    UncheckedFieldsNeverErr(f);
    BlankIffAllWhitespace(f.name);
    BlankIffAllWhitespace(f.addressLine1);
    BlankIffAllWhitespace(f.city);
    BlankIffAllWhitespace(f.postalCode);
    ValidIffNoneFails(f);
    var e := Errors(f);
    if RulesPass(f) {
      forall k: Field
        ensures k !in e
      {
        match k
        case Name => case Email => case Phone => case AddressLine1 => case AddressLine2 =>
        case City => case PostalCode => case Instructions => case PaymentMethod =>
        case CardNumber => case CardExpiry => case CardCvv =>
      }
    }
  }

  /** With cash on delivery the card fields, whatever they hold, never affect validity. */
  lemma CodIgnoresCardFields(f: CheckoutForm, n: Option<string>, x: Option<string>, c: Option<string>)
    requires f.paymentMethod == Cod
    ensures IsValid(f.(cardNumber := n, cardExpiry := x, cardCvv := c)) == IsValid(f)
  {
    IsValidIff(f);
    IsValidIff(f.(cardNumber := n, cardExpiry := x, cardCvv := c));
  }

  /** A card field that is missing is judged as the empty string. */
  lemma MissingCardFieldsReadAsEmpty(f: CheckoutForm)
    ensures Errors(f.(cardNumber := None, cardExpiry := None, cardCvv := None)) ==
            Errors(f.(cardNumber := Some(""), cardExpiry := Some(""), cardCvv := Some("")))
  {
    var g1 := f.(cardNumber := None, cardExpiry := None, cardCvv := None);
    var g2 := f.(cardNumber := Some(""), cardExpiry := Some(""), cardCvv := Some(""));
    assert OrEmpty(g1.cardNumber) == OrEmpty(g2.cardNumber) == "";
    assert OrEmpty(g1.cardExpiry) == OrEmpty(g2.cardExpiry) == "";
    assert OrEmpty(g1.cardCvv) == OrEmpty(g2.cardCvv) == "";
    assert forall k :: Fails(g1, k) == Fails(g2, k);
    assert Errors(g1).Keys == Errors(g2).Keys;
  }

  lemma InitialFormFailures()
    ensures forall k :: Fails(InitialForm, k) <==> k !in {AddressLine2, Instructions, PaymentMethod}
  {
    EmptyFailsFormats();
    assert IsBlank("");
  }

  /** The initial form fails every required rule and every card rule. */
  lemma InitialFormErrors()
    ensures Errors(InitialForm).Keys ==
            {Name, Email, Phone, AddressLine1, City, PostalCode, CardNumber, CardExpiry, CardCvv}
    ensures !IsValid(InitialForm)
  {
    var f := InitialForm;
    InitialFormFailures();
    var e := Errors(f);
    assert e.Keys == {Name, Email, Phone, AddressLine1, City, PostalCode, CardNumber, CardExpiry, CardCvv};
    assert Name in e.Keys;
  }

  /** A filled-in cash-on-delivery form with no card details at all. */
  const SampleCodForm: CheckoutForm :=
    CheckoutForm("Jane Doe", "you@example.com", "+923001234567", "123 Main St", None,
                 "Karachi", "10010", None, Cod, None, None, None)

  lemma SampleCodFormPassesRules()
    ensures RulesPass(SampleCodForm)
  {
    EmailExample();
    PhoneExample();
    var f := SampleCodForm;
    assert !IsWhitespace(f.name[0]) && !IsWhitespace(f.addressLine1[0]);
    assert !IsWhitespace(f.city[0]) && !IsWhitespace(f.postalCode[0]);
  }

  /** That form is valid. */
  lemma CodFormExample()
    ensures IsValid(SampleCodForm)
  {
    SampleCodFormPassesRules();
    IsValidIff(SampleCodForm);
  }

  /**
   * The `increment`/`decrement` buttons: look the line up by id; if it is there, call
   * `addToCart` with that line and `delta` as the quantity, otherwise do nothing.
   */
  function Stepped(cart: seq<CartItem>, id: int, delta: int): seq<CartItem>
  {
    match Find(cart, id)
    case None => cart
    case Some(item) => AddedToCart(cart, item.(quantity := delta))
  }

  /** A button for an id that is not in the cart does nothing. */
  lemma StepAbsentIsNoOp(cart: seq<CartItem>, id: int, delta: int)
    requires !HasId(cart, id)
    ensures Stepped(cart, id, delta) == cart
  {
  }

  /** `+` on a line of a well-formed cart adds one unit to that line, in place. */
  lemma IncrementSpec(cart: seq<CartItem>, k: nat)
    requires WellFormed(cart) && k < |cart|
    ensures Stepped(cart, cart[k].id, 1) == cart[k := cart[k].(quantity := cart[k].quantity + 1)]
  {
    FindUnique(cart, k);
    AddExisting(cart, k, cart[k].(quantity := 1));
  }

  /** `−` on a line of a well-formed cart takes one unit off, removing the line at its last unit. */
  lemma DecrementSpec(cart: seq<CartItem>, k: nat)
    requires WellFormed(cart) && k < |cart|
    ensures Stepped(cart, cart[k].id, -1) ==
            if cart[k].quantity > 1 then cart[k := cart[k].(quantity := cart[k].quantity - 1)]
            else cart[..k] + cart[k + 1..]
  {
    FindUnique(cart, k);
    AddExisting(cart, k, cart[k].(quantity := -1));
  }

  /** `+` raises the subtotal by the line's unit price. */
  lemma IncrementAddsPrice(cart: seq<CartItem>, k: nat)
    requires WellFormed(cart) && k < |cart|
    ensures Subtotal(Stepped(cart, cart[k].id, 1)) == Subtotal(cart) + cart[k].price
  {
    IncrementSpec(cart, k);
    SumOfUpdate(cart, k, cart[k].(quantity := cart[k].quantity + 1), LineAmount);
    LineAmountAdds(cart[k], 1);
  }

  /** `−` lowers the subtotal by the line's unit price, also when it removes the line at its last unit. */
  lemma DecrementTakesPrice(cart: seq<CartItem>, k: nat)
    requires WellFormed(cart) && k < |cart|
    ensures Subtotal(Stepped(cart, cart[k].id, -1)) == Subtotal(cart) - cart[k].price
  {
    DecrementSpec(cart, k);
    if cart[k].quantity > 1 {
      SumOfUpdate(cart, k, cart[k].(quantity := cart[k].quantity - 1), LineAmount);
      LineAmountAdds(cart[k], -1);
    } else {
      SumOfRemove(cart, k, LineAmount);
    }
  }

  /** The fields `placeOrder` marks as touched. */
  const AllTouched: map<Field, bool> :=
    map[Name := true, Email := true, Phone := true, AddressLine1 := true, City := true,
        PostalCode := true, CardNumber := true, CardExpiry := true, CardCvv := true]

  /** The page's component state, over the shared cart store. */
  class CheckoutPage {
    var form: CheckoutForm
    var touched: map<Field, bool>
    var submitting: bool
    var orderId: Option<string>
    /** The totals of the order just placed, taken before the cart is cleared. */
    var receipt: Option<Totals>
    const store: Store

    constructor (store: Store)
      ensures this.store == store
      ensures form == InitialForm && touched == map[] && !submitting
      ensures orderId == None && receipt == None
    {
      this.store := store;
      form := InitialForm;
      touched := map[];
      submitting := false;
      orderId := None;
      receipt := None;
    }

    /** What the summary and the success screen show: the totals of the cart as it is now. */
    function ShownTotals(): (t: Totals)
      reads this, store
      ensures store.cart == [] ==> t == Totals(0, 0, 0, 0)
    {
      OrderTotals(store.cart)
    }

    method Increment(id: int)
      modifies store
      ensures store.cart == Stepped(old(store.cart), id, 1)
      ensures old(store.Valid()) ==> store.Valid()
    {
      var item := Find(store.cart, id);
      if item.None? {
        return;
      }
      store.AddToCart(item.value.(quantity := 1));
    }

    method Decrement(id: int)
      modifies store
      ensures store.cart == Stepped(old(store.cart), id, -1)
      ensures old(store.Valid()) ==> store.Valid()
    {
      var item := Find(store.cart, id);
      if item.None? {
        return;
      }
      store.AddToCart(item.value.(quantity := -1));
    }

    /**
     * Submitting the form: mark the fields touched, then stop if the form is invalid or the
     * cart empty; otherwise record the order id and clear the cart. The id, made from the
     * clock in the source, is a parameter here.
     */
    method PlaceOrder(newOrderId: string)
      modifies this, store
      ensures touched == AllTouched && form == old(form)
      ensures !IsValid(old(form)) || old(store.cart) == [] ==>
                store.cart == old(store.cart) && orderId == old(orderId) &&
                receipt == old(receipt) && submitting == old(submitting)
      ensures IsValid(old(form)) && old(store.cart) != [] ==>
                store.cart == [] && orderId == Some(newOrderId) && !submitting &&
                receipt == Some(OrderTotals(old(store.cart))) && ShownTotals() == Totals(0, 0, 0, 0)
    {
      touched := AllTouched;
      if !IsValid(form) || |store.cart| == 0 {
        return;
      }
      submitting := true;
      orderId := Some(newOrderId);
      receipt := Some(OrderTotals(store.cart));
      store.ResetCart();
      submitting := false;
    }

    /** The Reset button: initial form, nothing touched, empty cart. */
    method Reset()
      modifies this, store
      ensures form == InitialForm && touched == map[] && store.cart == [] && store.Valid()
      ensures submitting == old(submitting) && orderId == old(orderId) && receipt == old(receipt)
    {
      form := InitialForm;
      touched := map[];
      store.ResetCart();
    }
  }

  /**
   * The success screen recomputes its totals from the cart, which placing the order has just
   * emptied: two pizzas and a burger, ordered with a valid cash-on-delivery form, came to
   * 29.18, but the screen shows 0.00 for every amount. The receipt keeps the real totals.
   */
  method ConfirmationTotalsLost() returns (receipt: Option<Totals>, shown: Totals)
    ensures receipt == Some(Totals(2448, 299, 171, 2918))
    ensures shown == Totals(0, 0, 0, 0)
  {
    var store := new Store();
    store.AddToCart(CartItem(1, "Margherita Pizza", 899, 2));
    store.AddToCart(CartItem(2, "Cheeseburger", 650, 1));
    assert store.cart == SampleCart();
    SampleCartTotals();
    var page := new CheckoutPage(store);
    page.form := SampleCodForm;
    CodFormExample();
    page.PlaceOrder("ORD-SAMPLE");
    receipt := page.receipt;
    shown := page.ShownTotals();
  }
}
