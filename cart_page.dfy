/** The cart page: the checkout handlers' early-return guards, the
    dispatch on the chosen payment method, and the quantity buttons. */
module CartPage {
  import opened Wrappers
  import opened Http
  import opened CartContext
  import opened Text

  /** The shipping form; it has no country field. */
  datatype ShippingForm = ShippingForm(
    line1: string,
    city: string,
    state: string,
    postal_code: string,
    phone: string)

  const EmptyForm := ShippingForm("", "", "", "", "")

  datatype PaymentMethod = Stripe | Cod

  /** A toast: its text and whether it is an error. */
  datatype Notice = Notice(message: string, isError: bool)

  /** The body of the one request a handler sends. */
  datatype CheckoutRequest =
    | CardCheckout(items: Cart, email: string)                        // POST /api/checkout/session
    | CodCheckout(items: Cart, email: string, address: ShippingForm)  // POST /api/checkout/cod

  const EmailMissing := "PLEASE ENTER YOUR EMAIL ADDRESS"
  const AddressMissing := "PLEASE FILL IN YOUR SHIPPING ADDRESS"
  const PhoneMissing := "PLEASE ENTER YOUR PHONE NUMBER"

  /** How a handler's guards end: silently (empty cart), with an error
      toast, or with a request. */
  datatype GuardOutcome = Silent | Toast(message: string) | Send(request: CheckoutRequest)

  /** `session?.user?.email || guestEmail` */
  function GetEmail(session: Session, guestEmail: string): (r: string)
    ensures Truthy(SessionEmail(session)) ==> r == SessionEmail(session).value
    ensures !Truthy(SessionEmail(session)) ==> r == guestEmail
  {
    StrOr(SessionEmail(session), guestEmail)
  }

  /** The guards of `handleStripeCheckout`; the shipping form plays no
      part. */
  function CardGuards(cart: Cart, email: string): (r: GuardOutcome)
    ensures r.Silent? <==> cart == []
    ensures r.Send? <==> cart != [] && email != ""
    ensures r.Send? ==> r.request == CardCheckout(cart, email)
    ensures r.Toast? ==> r.message == EmailMissing
  {
    if |cart| == 0 then Silent
    else if email == "" then Toast(EmailMissing)
    else Send(CardCheckout(cart, email))
  }

  predicate AddressComplete(f: ShippingForm) {
    f.line1 != "" && f.city != "" && f.state != "" && f.postal_code != ""
  }

  /** The guards of `handleCODCheckout`: cart, then email, then the four
      address fields, then the phone. */
  function CodGuards(cart: Cart, email: string, form: ShippingForm): (r: GuardOutcome)
    ensures r.Silent? <==> cart == []
    ensures r.Send? <==> cart != [] && email != "" && AddressComplete(form) && form.phone != ""
    ensures r.Send? ==> r.request == CodCheckout(cart, email, form)
    ensures cart != [] && email == "" ==> r == Toast(EmailMissing)
    ensures cart != [] && email != "" && !AddressComplete(form) ==> r == Toast(AddressMissing)
    ensures cart != [] && email != "" && AddressComplete(form) && form.phone == "" ==> r == Toast(PhoneMissing)
  {
    if |cart| == 0 then Silent
    else if email == "" then Toast(EmailMissing)
    else if !AddressComplete(form) then Toast(AddressMissing)
    else if form.phone == "" then Toast(PhoneMissing)
    else Send(CodCheckout(cart, email, form))
  }

  /** The address is checked before the phone: an incomplete address is
      reported whatever the phone field holds. */
  lemma AddressBeforePhone(cart: Cart, email: string, form: ShippingForm, phone: string)
    requires cart != [] && email != "" && !AddressComplete(form)
    ensures CodGuards(cart, email, form.(phone := phone)) == CodGuards(cart, email, form)
  {
  }

  /** `handleCheckout`: the card path exactly when the method is Stripe. */
  function Checkout(choice: PaymentMethod, cart: Cart, email: string, form: ShippingForm): (r: GuardOutcome)
    ensures choice == Stripe ==> r == CardGuards(cart, email)
    ensures choice == Cod ==> r == CodGuards(cart, email, form)
  {
    if choice == Stripe then CardGuards(cart, email) else CodGuards(cart, email, form)
  }

  /** With no email at all neither path sends anything. */
  lemma NoEmailNoRequest(choice: PaymentMethod, session: Session, cart: Cart, form: ShippingForm)
    requires !Truthy(SessionEmail(session))
    ensures !Checkout(choice, cart, GetEmail(session, ""), form).Send?
  {
  }

  /** ---------------------------------------------------------------------
      The quantity buttons.
      --------------------------------------------------------------------- */

  /** The "+" button as written: it passes `item.quantity + 1` where
      `updateQuantity` expects a change. */
  function PlusAsWritten(cart: Cart, item: CartItem): Cart {
    UpdateQuantity(cart, item.id, item.size, item.quantity + 1)
  }

  /** The "-" button as written: it passes `max(0, item.quantity - 1)`. */
  function MinusAsWritten(cart: Cart, item: CartItem): Cart {
    UpdateQuantity(cart, item.id, item.size, Max(0, item.quantity - 1))
  }

  /** A line of quantity 1 goes to 3 on "+", and a line of quantity 2 goes
      to 3 on "-". */
  lemma ButtonsAsWrittenCounterexample(item: CartItem)
    ensures var one := item.(quantity := 1);
      PlusAsWritten([one], one)[0].quantity == 3
    ensures var two := item.(quantity := 2);
      MinusAsWritten([two], two)[0].quantity == 3
  {
  }

  /** As written, "+" sends any line of quantity q to 2q + 1 and "-" sends a
      line of quantity q >= 1 to 2q - 1. */
  lemma ButtonsAsWritten(cart: Cart, k: nat)
    requires k < |cart| && cart[k].quantity >= 1
    ensures PlusAsWritten(cart, cart[k])[k].quantity == 2 * cart[k].quantity + 1
    ensures MinusAsWritten(cart, cart[k])[k].quantity == 2 * cart[k].quantity - 1
  {
  }

  /** The "+" button as intended: one more. */
  function Plus(cart: Cart, item: CartItem): Cart {
    UpdateQuantity(cart, item.id, item.size, 1)
  }

  /** The "-" button as intended: one fewer, never below 1. */
  function Minus(cart: Cart, item: CartItem): Cart {
    UpdateQuantity(cart, item.id, item.size, -1)
  }

  /** The intended buttons change the pressed line by one (never below 1)
      and no other line; "-" after "+" restores a line. */
  lemma ButtonsStepByOne(cart: Cart, k: nat)
    requires k < |cart|
    requires forall i :: 0 <= i < |cart| ==> cart[i].quantity >= 1
    ensures Plus(cart, cart[k])[k] == cart[k].(quantity := cart[k].quantity + 1)
    ensures Minus(cart, cart[k])[k] == cart[k].(quantity := if cart[k].quantity > 1 then cart[k].quantity - 1 else 1)
    ensures forall i :: 0 <= i < |cart| && !Matches(cart[i], cart[k].id, cart[k].size) ==>
      Plus(cart, cart[k])[i] == cart[i] && Minus(cart, cart[k])[i] == cart[i]
    ensures Minus(Plus(cart, cart[k]), cart[k]) == cart
  {
  }

  /** ---------------------------------------------------------------------
      The page state.
      --------------------------------------------------------------------- */

  class CheckoutPage {
    const provider: CartProvider
    var loading: bool
    var toast: Option<Notice>
    var paymentMethod: PaymentMethod
    var guestEmail: string
    var shipping: ShippingForm

    constructor (provider: CartProvider)
      ensures this.provider == provider && !loading && toast == None
      ensures paymentMethod == Stripe && guestEmail == "" && shipping == EmptyForm
    {
      this.provider := provider;
      loading := false;
      toast := None;
      paymentMethod := Stripe;
      guestEmail := "";
      shipping := EmptyForm;
    }

    /** `handleCheckout`: runs the guards of the chosen path; a request
        sets `loading`, a failed guard shows its toast, an empty cart does
        nothing. */
    method HandleCheckout(session: Session) returns (sent: Option<CheckoutRequest>)
      modifies this
      ensures var g := Checkout(old(paymentMethod), old(provider.cart), GetEmail(session, old(guestEmail)), old(shipping));
        && (g.Send? ==> sent == Some(g.request) && loading && toast == old(toast))
        && (g.Toast? ==> sent == None && toast == Some(Notice(g.message, true)) && loading == old(loading))
        && (g.Silent? ==> sent == None && toast == old(toast) && loading == old(loading))
      ensures paymentMethod == old(paymentMethod) && guestEmail == old(guestEmail) && shipping == old(shipping)
    {
      var email := GetEmail(session, guestEmail);
      var g := Checkout(paymentMethod, provider.cart, email, shipping);
      match g {
        case Silent => sent := None;
        case Toast(m) => toast := Some(Notice(m, true)); sent := None;
        case Send(req) => loading := true; sent := Some(req);
      }
    }

    /** The COD response: on success a success toast and `clearCart()`,
        which asks for confirmation (`confirmed`) before emptying the cart;
        on failure the server's message (or "COD Order Failed") upper-cased
        in an error toast, `loading` off and the cart kept. */
    method CodResponse(ok: bool, message: Option<string>, confirmed: bool)
      modifies this, provider`cart
      ensures ok ==>
        provider.cart == ClearCart(old(provider.cart), confirmed) && loading == old(loading)
        && toast == Some(Notice("COD ORDER PLACED SUCCESSFULLY!", false))
      ensures !ok ==>
        provider.cart == old(provider.cart) && !loading
        && toast == Some(Notice(ToUpper(StrOr(message, "COD Order Failed")), true))
    {
      if ok {
        toast := Some(Notice("COD ORDER PLACED SUCCESSFULLY!", false));
        provider.Clear(confirmed);
      } else {
        toast := Some(Notice(ToUpper(StrOr(message, "COD Order Failed")), true));
        loading := false;
      }
    }

    /** The card response: a redirect to the returned URL when the response
        is ok and carries one; otherwise an error toast with the server's
        message (or "Checkout Failed") upper-cased and `loading` off. The
        card path never touches the cart. */
    method CardResponse(ok: bool, url: Option<string>, message: Option<string>)
        returns (redirect: Option<string>)
      modifies this
      ensures ok && Truthy(url) ==> redirect == url && toast == old(toast) && loading == old(loading)
      ensures !(ok && Truthy(url)) ==>
        redirect == None && !loading && toast == Some(Notice(ToUpper(StrOr(message, "Checkout Failed")), true))
    {
      if ok && Truthy(url) {
        redirect := url;
      } else {
        toast := Some(Notice(ToUpper(StrOr(message, "Checkout Failed")), true));
        loading := false;
        redirect := None;
      }
    }

    /** The "+" button as the page wires it: the line's quantity plus
        one is handed over as the change. */
    method PressPlus(item: CartItem)
      modifies provider`cart
      ensures provider.cart == PlusAsWritten(old(provider.cart), item)
    {
      provider.Update(item.id, item.size, item.quantity + 1);
    }

    /** The "-" button as the page wires it: `max(0, quantity - 1)` is
        handed over as the change. */
    method PressMinus(item: CartItem)
      modifies provider`cart
      ensures provider.cart == MinusAsWritten(old(provider.cart), item)
    {
      provider.Update(item.id, item.size, Max(0, item.quantity - 1));
    }
  }
}
