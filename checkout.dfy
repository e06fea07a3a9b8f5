/**
 * The checkout page: the redirect of an empty cart, the validation of the contact
 * form, the order row and the order item rows it writes, and the submit handler that
 * empties the cart and moves to the confirmation page only when both writes succeed.
 */
module Checkout {
  import opened Wrappers
  import opened I18n
  import Text
  import Cart
  import Pricing

  datatype ContactForm = ContactForm(name: string, email: string, phone: string, address: string, city: string)

  datatype Field = Name | Email | Phone | Address | City

  /** `handleChange`: the input named `field` takes the new text, the others keep theirs. */
  function SetField(form: ContactForm, field: Field, value: string): (r: ContactForm)
    ensures field == Name ==> r == form.(name := value)
    ensures field == Email ==> r == form.(email := value)
    ensures field == Phone ==> r == form.(phone := value)
    ensures field == Address ==> r == form.(address := value)
    ensures field == City ==> r == form.(city := value)
  {
    match field
    case Name => form.(name := value)
    case Email => form.(email := value)
    case Phone => form.(phone := value)
    case Address => form.(address := value)
    case City => form.(city := value)
  }

  /** Where an empty cart sends the visitor. */
  function CartPath(lang: Lang): string {
    "/" + LangCode(lang) + "/cart"
  }

  /** Where a placed order sends the visitor. */
  function ConfirmationPath(lang: Lang, orderRef: string): string {
    "/" + LangCode(lang) + "/order-confirmation/" + orderRef
  }

  /** Name or e-mail blank once trimmed. */
  predicate RequiredMissing(form: ContactForm) {
    Text.Trim(form.name) == [] || Text.Trim(form.email) == []
  }

  /** The required-fields message, with JavaScript's whitespace set as "blank". */
  lemma RequiredMissingIffBlank(form: ContactForm)
    ensures RequiredMissing(form) <==> Text.AllWhitespace(form.name) || Text.AllWhitespace(form.email)
  {
  }

  function RequiredFieldsMessage(lang: Lang): string {
    if lang == Fr then "Veuillez remplir les champs obligatoires" else "Please fill in required fields"
  }

  /** `s.trim() || null`. */
  function OptionalText(s: string): (r: Option<string>)
    ensures r.None? <==> Text.AllWhitespace(s)
    ensures r.Some? ==> r.value == Text.Trim(s) && r.value != []
  {
    var t := Text.Trim(s);
    if t == [] then None else Some(t)
  }

  /** `user?.id || null`. */
  function UserIdOrNull(user: Option<string>): (r: Option<string>)
    ensures r.Some? <==> user.Some? && user.value != ""
    ensures r.Some? ==> r == user
  {
    if user.Some? && user.value != "" then user else None
  }

  /** The currency label written with the order: "FCFA" whatever the country. */
  function CurrencyLabel(country: Pricing.Country): (r: string)
    ensures r == "FCFA"
  {
    if country == Pricing.CIV then "FCFA" else if country == Pricing.NG then "FCFA" else "FCFA"
  }

  /** The row inserted into `orders`. */
  datatype OrderInsert = OrderInsert(
    orderRef: string,
    userId: Option<string>,
    customerName: string,
    customerEmail: string,
    customerPhone: Option<string>,
    deliveryAddress: Option<string>,
    city: Option<string>,
    country: Pricing.Country,
    currencyLabel: string,
    subtotal: int,
    total: int,
    status: string)

  /** The order row built from the form, the cart total and the chosen country. */
  function BuildOrder(orderRef: string, user: Option<string>, form: ContactForm,
                      country: Pricing.Country, total: int): (o: OrderInsert)
    ensures o.orderRef == orderRef && o.userId == UserIdOrNull(user)
    ensures o.customerName == Text.Trim(form.name) && o.customerEmail == Text.Trim(form.email)
    ensures o.customerPhone.None? <==> Text.AllWhitespace(form.phone)
    ensures o.deliveryAddress.None? <==> Text.AllWhitespace(form.address)
    ensures o.city.None? <==> Text.AllWhitespace(form.city)
    ensures o.country == country && o.currencyLabel == "FCFA"
    ensures o.subtotal == total && o.total == total
    ensures o.status == "pending"
  {
    OrderInsert(orderRef, UserIdOrNull(user), Text.Trim(form.name), Text.Trim(form.email),
                OptionalText(form.phone), OptionalText(form.address), OptionalText(form.city),
                country, CurrencyLabel(country), total, total, "pending")
  }

  /** A row inserted into `order_items`. */
  datatype OrderItemInsert = OrderItemInsert(
    orderId: string,
    itemType: Cart.ItemType,
    itemKey: string,
    itemName: string,
    quantity: int,
    unitPrice: int,
    totalPrice: int)

  function OrderItemOf(orderId: string, item: Cart.CartItem): OrderItemInsert {
    OrderItemInsert(orderId, item.itemType, item.id, item.name, item.quantity, item.unitPrice,
                    item.unitPrice * item.quantity)
  }

  /** `items.map(...)`: one row per cart line, in cart order. */
  function BuildOrderItems(orderId: string, items: seq<Cart.CartItem>): (r: seq<OrderItemInsert>)
    ensures |r| == |items|
    ensures forall i :: 0 <= i < |items| ==> r[i] == OrderItemOf(orderId, items[i])
  {
    if items == [] then []
    else BuildOrderItems(orderId, items[..|items| - 1]) + [OrderItemOf(orderId, items[|items| - 1])]
  }

  function SumTotalPrices(rows: seq<OrderItemInsert>): int {
    if rows == [] then 0 else SumTotalPrices(rows[..|rows| - 1]) + rows[|rows| - 1].totalPrice
  }

  /** The item rows add up to the order's total: each line's total price is the cart's
      line total, and the order total is the sum of those. */
  lemma {:induction false} OrderItemsSumToTotal(orderId: string, items: seq<Cart.CartItem>)
    ensures SumTotalPrices(BuildOrderItems(orderId, items)) == Cart.SumLineTotals(items)
  {
    if items != [] {
      var init := items[..|items| - 1];
      OrderItemsSumToTotal(orderId, init);
      assert BuildOrderItems(orderId, items)[..|items| - 1] == BuildOrderItems(orderId, init);
    }
  }

  /** What the backend answered to the order insert: the new id, and an error with its
      message if there was one. */
  datatype InsertReply = InsertReply(orderId: Option<string>, error: Option<string>)

  predicate OrderFailed(reply: InsertReply) {
    reply.error.Some? || reply.orderId.None?
  }

  /** `orderErr?.message || "Error creating order"`. */
  function OrderErrorMessage(reply: InsertReply): (r: string)
    ensures r != ""
    ensures reply.error.Some? && reply.error.value != "" ==> r == reply.error.value
  {
    if reply.error.Some? && reply.error.value != "" then reply.error.value else "Error creating order"
  }

  /** What `handleSubmit` wrote. */
  datatype Submission = NothingSent | OrderOnly(order: OrderInsert) | OrderAndItems(order: OrderInsert, rows: seq<OrderItemInsert>)

  class CheckoutPage {
    const cart: Cart.CartProvider
    const lang: Lang
    const country: Pricing.Country
    const user: Option<string>
    var form: ContactForm
    var loading: bool
    var error: string
    /** The path the page navigated to, if any. */
    var navigatedTo: Option<string>

    ghost predicate Valid()
      reads this, cart
    {
      cart.Valid()
    }

    constructor (cart: Cart.CartProvider, lang: Lang, country: Pricing.Country, user: Option<string>)
      requires cart.Valid()
      ensures Valid()
      ensures this.cart == cart && this.lang == lang && this.country == country && this.user == user
      ensures form == ContactForm("", "", "", "", "") && !loading && error == "" && navigatedTo.None?
    {
      this.cart := cart;
      this.lang := lang;
      this.country := country;
      this.user := user;
      form := ContactForm("", "", "", "", "");
      loading := false;
      error := "";
      navigatedTo := None;
    }

    /** Rendering: an empty cart redirects to the cart page and shows nothing. */
    method Render() returns (shown: bool)
      modifies this
      ensures shown <==> |cart.items| > 0
      ensures !shown ==> navigatedTo == Some(CartPath(lang))
      ensures shown ==> navigatedTo == old(navigatedTo)
      ensures form == old(form) && loading == old(loading) && error == old(error)
    {
      if |cart.items| == 0 {
        navigatedTo := Some(CartPath(lang));
        return false;
      }
      return true;
    }

    method HandleChange(field: Field, value: string)
      modifies this
      ensures form == SetField(old(form), field, value)
      ensures loading == old(loading) && error == old(error) && navigatedTo == old(navigatedTo)
    {
      form := SetField(form, field, value);
    }

    /** `handleSubmit`. `orderRef` is the generated reference, `orderReply` the answer to
        the order insert and `itemsError` the error of the item insert, if any. A blank
        name or e-mail only sets the required-fields message; otherwise the order is
        placed as `PlaceOrder` states. */
    method HandleSubmit(orderRef: string, orderReply: InsertReply, itemsError: Option<string>)
      returns (sent: Submission)
      requires Valid()
      modifies this, cart
      ensures Valid()
      ensures RequiredMissing(old(form)) ==>
        sent == NothingSent && error == RequiredFieldsMessage(lang) && cart.items == old(cart.items)
        && loading == old(loading) && navigatedTo == old(navigatedTo)
      ensures !RequiredMissing(old(form)) ==> sent.OrderOnly? || sent.OrderAndItems?
      ensures !RequiredMissing(old(form)) ==>
        sent.order == BuildOrder(orderRef, user, old(form), country, old(cart.Total()))
      ensures !RequiredMissing(old(form)) ==> (sent.OrderOnly? <==> OrderFailed(orderReply))
      ensures sent.OrderOnly? ==>
        error == OrderErrorMessage(orderReply) && !loading && cart.items == old(cart.items)
        && navigatedTo == old(navigatedTo)
      ensures sent.OrderAndItems? ==> sent.rows == BuildOrderItems(orderReply.orderId.value, old(cart.items))
      ensures sent.OrderAndItems? ==> PlacedOutcome(orderRef, itemsError, old(cart.items), old(navigatedTo))
      ensures form == old(form)
    {
      if RequiredMissing(form) {
        error := RequiredFieldsMessage(lang);
        return NothingSent;
      }
      var order := BuildOrder(orderRef, user, form, country, cart.Total());
      sent := PlaceOrder(order, orderReply, itemsError);
    }

    /** `handleSubmit` past validation: the insert of `order`, then the item insert. */
    method PlaceOrder(order: OrderInsert, orderReply: InsertReply, itemsError: Option<string>)
      returns (sent: Submission)
      requires Valid()
      modifies this, cart
      ensures Valid()
      ensures sent.OrderOnly? || sent.OrderAndItems?
      ensures sent.order == order
      ensures sent.OrderOnly? <==> OrderFailed(orderReply)
      ensures sent.OrderOnly? ==>
        error == OrderErrorMessage(orderReply) && !loading && cart.items == old(cart.items)
        && navigatedTo == old(navigatedTo)
      ensures sent.OrderAndItems? ==> sent.rows == BuildOrderItems(orderReply.orderId.value, old(cart.items))
      ensures sent.OrderAndItems? ==> PlacedOutcome(order.orderRef, itemsError, old(cart.items), old(navigatedTo))
      ensures form == old(form)
    {
      loading := true;
      error := "";
      if OrderFailed(orderReply) {
        error := OrderErrorMessage(orderReply);
        loading := false;
        return OrderOnly(order);
      }
      var rows := BuildOrderItems(orderReply.orderId.value, cart.items);
      InsertItems(order.orderRef, itemsError);
      sent := OrderAndItems(order, rows);
    }

    /** After the item insert: its error is shown and the cart kept, or the cart is
        emptied and the confirmation page of `orderRef` opened. */
    ghost predicate PlacedOutcome(orderRef: string, itemsError: Option<string>, itemsBefore: seq<Cart.CartItem>,
                                  pathBefore: Option<string>)
      reads this, cart
    {
      && (itemsError.Some? ==> error == itemsError.value && !loading && cart.items == itemsBefore
                               && navigatedTo == pathBefore)
      && (itemsError.None? ==> error == "" && loading && cart.items == [] && cart.Total() == 0
                               && navigatedTo == Some(ConfirmationPath(lang, orderRef)))
    }

    /** The item insert and what follows it. */
    method InsertItems(orderRef: string, itemsError: Option<string>)
      requires Valid() && loading && error == ""
      modifies this, cart
      ensures Valid()
      ensures itemsError.Some? ==> error == itemsError.value && !loading && cart.items == old(cart.items)
                                   && navigatedTo == old(navigatedTo)
      ensures itemsError.None? ==> error == "" && loading && cart.items == [] && cart.Total() == 0
                                   && navigatedTo == Some(ConfirmationPath(lang, orderRef))
      ensures form == old(form)
    {
      if itemsError.Some? {
        error := itemsError.value;
        loading := false;
        return;
      }
      cart.ClearCart();
      navigatedTo := Some(ConfirmationPath(lang, orderRef));
    }
  }
}
