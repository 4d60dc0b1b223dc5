/** The Order collection: the item snapshot, the three closed status
    fields, and the defaults of every optional field. */
module OrderSchema {
  import opened Wrappers
  import opened Records
  import opened Http
  import Ordering

  predicate IsPaymentMethod(s: string) { s == "stripe" || s == "cod" }
  predicate IsPaymentStatus(s: string) { s == "Pending" || s == "Paid" || s == "Failed" }
  predicate IsOrderStatus(s: string) {
    s == "Processing" || s == "Shipped" || s == "Delivered" || s == "Cancelled" || s == "Returned"
  }

  /** One line of an order: a snapshot of the product at purchase time. */
  datatype OrderItem = OrderItem(
    productId: Option<Id>,
    name: string,
    quantity: int,
    price: int,
    size: string,
    image: string)

  /** The status fields are kept as strings: the schema checks them on
      `create`, but an update by id does not run the validators. */
  datatype Order = Order(
    id: Id,
    user: Option<Id>,
    email: string,
    items: seq<OrderItem>,
    amountTotal: int,
    currency: string,
    paymentMethod: string,
    status: string,
    stripeSessionId: Option<string>,
    orderStatus: string,
    shippingAddress: Address,
    trackingId: string,
    createdAt: int)

  datatype ItemInput = ItemInput(
    productId: Option<Id>,
    name: Option<string>,
    quantity: Option<int>,
    price: Option<int>,
    size: Option<string>,
    image: Option<string>)

  /** What a caller hands to `Order.create`; an absent field gets its
      default. */
  datatype OrderInput = OrderInput(
    user: Option<Id>,
    email: Option<string>,
    items: seq<ItemInput>,
    amountTotal: Option<int>,
    currency: Option<string>,
    paymentMethod: Option<string>,
    status: Option<string>,
    stripeSessionId: Option<string>,
    orderStatus: Option<string>,
    shippingAddress: AddressInput,
    trackingId: Option<string>)

  /** Every item carries a name, a quantity, a price and a size. */
  predicate ValidItem(it: ItemInput) {
    Truthy(it.name) && it.quantity.Some? && it.price.Some? && Truthy(it.size)
  }

  predicate ValidOrderInput(input: OrderInput) {
    && Truthy(input.email)
    && (forall i :: 0 <= i < |input.items| ==> ValidItem(input.items[i]))
    && input.amountTotal.Some?
    && IsPaymentMethod(input.paymentMethod.GetOr("stripe"))
    && IsPaymentStatus(input.status.GetOr("Pending"))
    && IsOrderStatus(input.orderStatus.GetOr("Processing"))
  }

  function NewItem(it: ItemInput): OrderItem
    requires ValidItem(it)
  {
    OrderItem(it.productId, it.name.value, it.quantity.value, it.price.value, it.size.value,
              it.image.GetOr(""))
  }

  /** What every stored order created through the schema satisfies. */
  predicate WellFormed(o: Order) {
    && |o.email| > 0
    && IsPaymentMethod(o.paymentMethod)
    && IsPaymentStatus(o.status)
    && IsOrderStatus(o.orderStatus)
    && forall i :: 0 <= i < |o.items| ==> |o.items[i].name| > 0 && |o.items[i].size| > 0
  }

  /** `Order.create(input)`: validation, then the document with every
      absent field defaulted. */
  function NewOrder(input: OrderInput, id: Id, now: int): (r: Result<Order, SaveError>)
    ensures r.Ok? <==> ValidOrderInput(input)
    ensures r.Err? ==> r.error == ValidationError
    ensures r.Ok? ==> WellFormed(r.value) && r.value.id == id && r.value.createdAt == now
    ensures r.Ok? ==> (|r.value.items| == |input.items|
      && forall i :: 0 <= i < |input.items| ==> ValidItem(input.items[i]) && r.value.items[i] == NewItem(input.items[i]))
    ensures r.Ok? ==>
      && r.value.email == input.email.value && r.value.amountTotal == input.amountTotal.value
      && r.value.user == input.user && r.value.stripeSessionId == input.stripeSessionId
      && r.value.currency == input.currency.GetOr("INR") && r.value.trackingId == input.trackingId.GetOr("")
      && r.value.paymentMethod == input.paymentMethod.GetOr("stripe")
      && r.value.status == input.status.GetOr("Pending")
      && r.value.orderStatus == input.orderStatus.GetOr("Processing")
      && r.value.shippingAddress == FillAddress(input.shippingAddress, "")
  {
    if !ValidOrderInput(input) then Err(ValidationError)
    else
      var items := seq(|input.items|, i requires 0 <= i < |input.items| => NewItem(input.items[i]));
      Ok(Order(id, input.user, input.email.value, items, input.amountTotal.value,
               input.currency.GetOr("INR"), input.paymentMethod.GetOr("stripe"),
               input.status.GetOr("Pending"), input.stripeSessionId, input.orderStatus.GetOr("Processing"),
               FillAddress(input.shippingAddress, ""), input.trackingId.GetOr(""), now))
  }

  /** An input that names only the required fields. */
  function MinimalInput(email: string, amountTotal: int): OrderInput {
    OrderInput(None, Some(email), [], Some(amountTotal), None, None, None, None, None,
               NoAddress, None)
  }

  /** The defaults: no user, currency INR, paid by card, Pending, no
      session id, Processing, every address field and the tracking id ''. */
  lemma Defaults(email: string, amountTotal: int, id: Id, now: int)
    requires email != ""
    ensures var r := NewOrder(MinimalInput(email, amountTotal), id, now);
      && r.Ok?
      && r.value.user == None && r.value.currency == "INR"
      && r.value.paymentMethod == "stripe" && r.value.status == "Pending"
      && r.value.stripeSessionId == None && r.value.orderStatus == "Processing"
      && r.value.shippingAddress == Address("", "", "", "", "", "") && r.value.trackingId == ""
      && r.value.email == email && r.value.amountTotal == amountTotal
  {
    FillNothing("");
  }

  /** An item's optional fields default to no product and no image. */
  lemma ItemDefaults(name: string, quantity: int, price: int, size: string)
    requires name != "" && size != ""
    ensures var it := NewItem(ItemInput(None, Some(name), Some(quantity), Some(price), Some(size), None));
      it.productId == None && it.image == "" && it.name == name && it.quantity == quantity
      && it.price == price && it.size == size
  {
  }

  /** A value outside an enum is refused. */
  lemma EnumsEnforced(input: OrderInput, id: Id, now: int)
    requires || (input.paymentMethod.Some? && !IsPaymentMethod(input.paymentMethod.value))
             || (input.status.Some? && !IsPaymentStatus(input.status.value))
             || (input.orderStatus.Some? && !IsOrderStatus(input.orderStatus.value))
    ensures NewOrder(input, id, now) == Err(ValidationError)
  {
  }

  /** The `orders` collection. */
  class OrderCollection {
    var docs: seq<Order>

    constructor ()
      ensures docs == []
    {
      docs := [];
    }

    /** `Order.create(input)`: one insert when the input validates. */
    method Create(input: OrderInput, id: Id, now: int) returns (r: Result<Order, SaveError>)
      modifies this
      ensures r == NewOrder(input, id, now)
      ensures docs == if r.Ok? then old(docs) + [r.value] else old(docs)
    {
      r := NewOrder(input, id, now);
      if r.Ok? {
        docs := docs + [r.value];
      }
    }

    /** `findByIdAndUpdate` on the order at `i`: that document is replaced
        and no other is touched. Update queries do not run the schema's
        validators. */
    method ReplaceAt(i: nat, o: Order)
      requires i < |docs|
      modifies this
      ensures docs == old(docs)[i := o]
    {
      docs := docs[i := o];
    }

    /** `Order.find({}).sort({ createdAt: -1 })`. */
    method NewestFirst() returns (r: seq<Order>)
      ensures Ordering.SortedBy(r, NegCreatedAt)
      ensures multiset(r) == multiset(docs)
    {
      r := Ordering.SortBy(docs, NegCreatedAt);
    }
  }

  function NegCreatedAt(o: Order): int { -o.createdAt }

  /** The index of the order with id `id`, if any. */
  function IndexOfOrder(docs: seq<Order>, id: Id): (r: Option<nat>)
    ensures r.Some? ==> r.value < |docs| && docs[r.value].id == id
    ensures r.None? ==> forall i :: 0 <= i < |docs| ==> docs[i].id != id
  {
    if |docs| == 0 then None
    else if docs[0].id == id then Some(0)
    else
      var rest := IndexOfOrder(docs[1..], id);
      if rest.Some? then Some(rest.value + 1) else None
  }

  /** Newest first: each order is at least as recent as every later one. */
  lemma NewestFirstOrder(s: seq<Order>, i: int, j: int)
    requires Ordering.SortedBy(s, NegCreatedAt) && 0 <= i < j < |s|
    ensures s[i].createdAt >= s[j].createdAt
  {
    assert NegCreatedAt(s[i]) <= NegCreatedAt(s[j]);
  }
}
