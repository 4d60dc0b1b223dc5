/** `POST /api/checkout/cod`: each cart line is checked against the
    catalogue and its stock taken, one line at a time, and the order is
    created at the end with the catalogue's prices. */
module CodCheckout {
  import opened Wrappers
  import opened Records
  import opened Http
  import Seqs
  import opened CartContext
  import opened ProductSchema
  import opened OrderSchema

  /** The request body; an absent `shippingAddress` is `NoAddress`. */
  datatype CodBody = CodBody(
    items: Option<seq<CartItem>>,
    email: Option<string>,
    shippingAddress: AddressInput)

  /** A reply: its status, its message, and the id of the created order. */
  datatype Reply = Reply(status: nat, message: string, orderId: Option<Id>)

  /** Where the walk over the lines stands: stopped at line `at` with the
      store as the earlier lines left it, or every line priced so far. */
  datatype Pass =
    | Refused(at: nat, message: string, store: seq<Product>)
    | Priced(store: seq<Product>, lines: seq<ItemInput>, total: int)

  function NotFound(item: CartItem): string { "Product " + item.name + " not found" }
  function OutOfStock(item: CartItem): string { "Insufficient stock for " + item.name }

  /** The order line recorded for a cart line: the product's id, name and
      price with the cart line's quantity, size and image. */
  function Line(product: Product, item: CartItem): ItemInput {
    ItemInput(Some(product.id), Some(product.name), Some(item.quantity),
              Some(product.price), Some(item.size), Some(item.image))
  }

  /** One turn of the loop: look the product up, compare its stock, add
      the catalogue price times the quantity, record the line, take the
      stock. */
  function Step(p: Pass, item: CartItem, at: nat): Pass {
    match p {
      case Refused(_, _, _) => p
      case Priced(store, lines, total) =>
        match IndexOfId(store, item.id) {
          case None => Refused(at, NotFound(item), store)
          case Some(k) =>
            var product := store[k];
            if product.stock < item.quantity then Refused(at, OutOfStock(item), store)
            else
              Priced(store[k := product.(stock := product.stock - item.quantity)],
                     lines + [Line(product, item)], total + product.price * item.quantity)
        }
    }
  }

  /** The walk over the first `|items|` lines from `store`. */
  function Walk(store: seq<Product>, items: seq<CartItem>): Pass
    decreases |items|
  {
    if |items| == 0 then Priced(store, [], 0)
    else Step(Walk(store, items[..|items| - 1]), items[|items| - 1], |items| - 1)
  }

  /** What the handler leaves behind: its reply, the products, and the
      order it inserted. */
  datatype Effect = Effect(reply: Reply, store: seq<Product>, created: Option<Order>)

  /** The order `Order.create` is handed. */
  function CodOrderInput(email: string, lines: seq<ItemInput>, total: int, a: AddressInput): OrderInput {
    OrderInput(None, Some(email), lines, Some(total), None, Some("cod"), Some("Pending"), None,
               Some("Processing"),
               AddressInput(Some(StrOr(a.line1, "")), Some(StrOr(a.city, "")), Some(StrOr(a.state, "")),
                            Some(StrOr(a.postal_code, "")), Some(StrOr(a.country, "IN")),
                            Some(StrOr(a.phone, ""))),
               None)
  }

  /** Stands in for the store's own `err.message` on a failed save. */
  const ValidationMessage := "Order validation failed"

  /** The whole handler as a function of the request and the stored
      products. */
  function Handle(m: Method, session: Session, body: CodBody, store: seq<Product>, orderId: Id, now: int): Effect {
    if m != POST then Effect(Reply(405, "Method not allowed", None), store, None)
    else if body.items.None? || |body.items.value| == 0 then Effect(Reply(400, "No items in cart", None), store, None)
    else
      var email := OrElse(SessionEmail(session), body.email);
      if !Truthy(email) then Effect(Reply(400, "Email is required for checkout", None), store, None)
      else match Walk(store, body.items.value) {
        case Refused(_, msg, s) => Effect(Reply(400, msg, None), s, None)
        case Priced(s, lines, total) =>
          match NewOrder(CodOrderInput(email.value, lines, total, body.shippingAddress), orderId, now) {
            case Err(_) => Effect(Reply(500, ValidationMessage, None), s, None)
            case Ok(o) => Effect(Reply(201, "COD order placed successfully!", Some(o.id)), s, Some(o))
          }
      }
  }

  /** ---------------------------------------------------------------------
      Properties of the walk.
      --------------------------------------------------------------------- */

  function Stock(p: Product): int { p.stock }
  function Quantity(l: ItemInput): int { l.quantity.GetOr(0) }
  function Amount(l: ItemInput): int { l.price.GetOr(0) * l.quantity.GetOr(0) }

  /** One priced step: the product was found with enough stock, the line
      and the amount were added and the quantity taken. */
  lemma StepPriced(p: Pass, item: CartItem, at: nat)
    requires p.Priced? && Step(p, item, at).Priced?
    ensures IndexOfId(p.store, item.id).Some?
    ensures var k := IndexOfId(p.store, item.id).value;
      var product := p.store[k];
      var q := Step(p, item, at);
      && product.stock >= item.quantity
      && q.store == p.store[k := product.(stock := product.stock - item.quantity)]
      && q.lines == p.lines + [Line(product, item)]
      && q.total == p.total + product.price * item.quantity
  {
  }

  /** The step the loop takes when the product is found with enough
      stock. */
  lemma StepTakes(p: Pass, item: CartItem, at: nat, k: nat)
    requires p.Priced? && IndexOfId(p.store, item.id) == Some(k) && p.store[k].stock >= item.quantity
    ensures Step(p, item, at) == Priced(p.store[k := p.store[k].(stock := p.store[k].stock - item.quantity)],
                                        p.lines + [Line(p.store[k], item)],
                                        p.total + p.store[k].price * item.quantity)
  {
  }

  /** The walk over one more line is one more step. */
  lemma WalkPrefix(store: seq<Product>, items: seq<CartItem>, i: nat)
    requires i < |items|
    ensures Walk(store, items[..i + 1]) == Step(Walk(store, items[..i]), items[i], i)
  {
    assert items[..i + 1][..i] == items[..i];
  }

  /** Once a line is refused, the later lines change nothing. */
  lemma {:induction false} RefusalSticks(store: seq<Product>, items: seq<CartItem>, i: nat)
    requires i <= |items| && Walk(store, items[..i]).Refused?
    ensures Walk(store, items) == Walk(store, items[..i])
    decreases |items| - i
  {
    if i < |items| {
      WalkPrefix(store, items, i);
      RefusalSticks(store, items, i + 1);
    } else {
      assert items[..i] == items;
    }
  }

  /** A completed walk changes nothing but stock counts and records one
      line per cart line. */
  lemma {:induction false} WalkShape(store: seq<Product>, items: seq<CartItem>)
    requires Walk(store, items).Priced?
    ensures SameButStock(store, Walk(store, items).store)
    ensures |Walk(store, items).lines| == |items|
    decreases |items|
  {
    if |items| > 0 {
      var n := |items| - 1;
      WalkShape(store, items[..n]);
      StepPriced(Walk(store, items[..n]), items[n], n);
    }
  }

  /** A completed walk charges the sum of the recorded lines and takes from
      the stock exactly the quantities it recorded. */
  lemma {:induction false} WalkSums(store: seq<Product>, items: seq<CartItem>)
    requires Walk(store, items).Priced?
    ensures var w := Walk(store, items);
      && w.total == Seqs.Sum(w.lines, Amount)
      && Seqs.Sum(w.store, Stock) == Seqs.Sum(store, Stock) - Seqs.Sum(w.lines, Quantity)
    decreases |items|
  {
    if |items| > 0 {
      var n := |items| - 1;
      var prev := Walk(store, items[..n]);
      WalkSums(store, items[..n]);
      StepPriced(prev, items[n], n);
      var k := IndexOfId(prev.store, items[n].id).value;
      var product := prev.store[k];
      Seqs.SumAppend(prev.lines, [Line(product, items[n])], Amount);
      Seqs.SumAppend(prev.lines, [Line(product, items[n])], Quantity);
      Seqs.SumUpdate(prev.store, k, product.(stock := product.stock - items[n].quantity), Stock);
    }
  }

  /** Each recorded line is the cart line's product at its catalogue price:
      the id, name and price come from the store, the quantity and size
      from the cart. */
  lemma {:induction false} WalkUsesCatalogue(store: seq<Product>, items: seq<CartItem>, j: nat)
    requires Walk(store, items).Priced? && j < |items|
    ensures IndexOfId(store, items[j].id).Some?
    ensures var w := Walk(store, items);
      |w.lines| == |items| && w.lines[j] == Line(store[IndexOfId(store, items[j].id).value], items[j])
    decreases |items|
  {
    var n := |items| - 1;
    var prev := Walk(store, items[..n]);
    WalkShape(store, items[..n]);
    StepPriced(prev, items[n], n);
    SameButStockIndex(store, prev.store, items[j].id);
    if j < n {
      WalkUsesCatalogue(store, items[..n], j);
    }
  }

  /** The stock check happens before each take, so a walk never drives a
      count below zero. */
  lemma {:induction false} WalkKeepsStock(store: seq<Product>, items: seq<CartItem>)
    requires NoNegativeStock(store)
    ensures NoNegativeStock(Walk(store, items).store)
    decreases |items|
  {
    if |items| > 0 {
      var n := |items| - 1;
      var prev := Walk(store, items[..n]);
      WalkKeepsStock(store, items[..n]);
      if prev.Priced? && Step(prev, items[n], n).Priced? {
        StepPriced(prev, items[n], n);
      } else if prev.Priced? {
        StepRefused(prev, items[n], n);
      }
    }
  }

  /** One refused step: the product is missing or short, and the store is
      left as it was. */
  lemma StepRefused(p: Pass, item: CartItem, at: nat)
    requires p.Priced? && Step(p, item, at).Refused?
    ensures var q := Step(p, item, at);
      && q.at == at && q.store == p.store
      && (q.message == NotFound(item) || q.message == OutOfStock(item))
  {
  }

  /** A refusal is about one line, and the store it leaves is the one the
      lines before it produced: the stock already taken is not given back. */
  lemma {:induction false} WalkRefused(store: seq<Product>, items: seq<CartItem>)
    requires Walk(store, items).Refused?
    ensures var w := Walk(store, items);
      && w.at < |items|
      && Walk(store, items[..w.at]).Priced?
      && w.store == Walk(store, items[..w.at]).store
      && (w.message == NotFound(items[w.at]) || w.message == OutOfStock(items[w.at]))
    decreases |items|
  {
    var n := |items| - 1;
    var prev := Walk(store, items[..n]);
    if prev.Refused? {
      WalkRefused(store, items[..n]);
      assert items[..n][..prev.at] == items[..prev.at];
    } else {
      StepRefused(prev, items[n], n);
    }
  }

  /** Two lines of the same product, the second over what the first left:
      the first line's stock stays taken although no order is created. */
  lemma NoRollback(p: Product, a: CartItem, b: CartItem)
    requires a.id == p.id && b.id == p.id
    requires 0 <= a.quantity <= p.stock && p.stock - a.quantity < b.quantity
    ensures Walk([p], [a, b]) == Refused(1, OutOfStock(b), [p.(stock := p.stock - a.quantity)])
  {
    assert [a, b][..1] == [a];
    assert [a][..0] == [];
    assert IndexOfId([p], p.id) == Some(0);
    var taken := [p.(stock := p.stock - a.quantity)];
    assert Walk([p], [a]) == Priced(taken, [Line(p, a)], p.price * a.quantity);
    assert IndexOfId(taken, p.id) == Some(0);
  }

  /** ---------------------------------------------------------------------
      Properties of the handler.
      --------------------------------------------------------------------- */

  /** The replies: 201 exactly when an order was created, and then it is a
      cash-on-delivery order, Pending and Processing, for the email the
      session or the body gave, charged at catalogue prices. */
  lemma HandleOutcomes(m: Method, session: Session, body: CodBody, store: seq<Product>, orderId: Id, now: int)
    ensures var e := Handle(m, session, body, store, orderId, now);
      && (e.reply.status == 201 <==> e.created.Some?)
      && (e.reply.status in {201, 400, 405, 500})
      && (m != POST <==> e.reply.status == 405)
      && (e.reply.status == 405 ==> e.store == store)
      && (e.created.Some? ==>
            && m == POST && body.items.Some?
            && e.created.value.id == orderId && e.reply.orderId == Some(orderId)
            && e.created.value.paymentMethod == "cod" && e.created.value.status == "Pending"
            && e.created.value.orderStatus == "Processing"
            && e.created.value.email == OrElse(SessionEmail(session), body.email).value
            && Walk(store, body.items.value).Priced?
            && e.created.value.amountTotal == Seqs.Sum(Walk(store, body.items.value).lines, Amount)
            && e.store == Walk(store, body.items.value).store)
  {
    if m == POST && body.items.Some? && |body.items.value| > 0 && Walk(store, body.items.value).Priced? {
      WalkSums(store, body.items.value);
    }
  }

  /** A line with an empty size fails the order's validation after every
      line's stock was taken: the reply is 500 and the stock stays taken. */
  lemma EmptySizeAfterTaking(session: Session, body: CodBody, store: seq<Product>, orderId: Id, now: int, j: nat)
    requires body.items.Some? && j < |body.items.value| && body.items.value[j].size == ""
    requires Truthy(OrElse(SessionEmail(session), body.email))
    requires Walk(store, body.items.value).Priced?
    ensures var e := Handle(POST, session, body, store, orderId, now);
      e.reply.status == 500 && e.created == None && e.store == Walk(store, body.items.value).store
  {
    var w := Walk(store, body.items.value);
    WalkUsesCatalogue(store, body.items.value, j);
    assert !ValidItem(w.lines[j]);
  }

  /** An absent country is stored as IN, and every other absent address
      field as ''. */
  lemma AddressDefaults(email: string, lines: seq<ItemInput>, total: int, orderId: Id, now: int)
    requires NewOrder(CodOrderInput(email, lines, total, NoAddress), orderId, now).Ok?
    ensures NewOrder(CodOrderInput(email, lines, total, NoAddress), orderId, now).value.shippingAddress
      == Address("", "", "", "", "IN", "")
  {
  }

  /** ---------------------------------------------------------------------
      The handler over the collections.
      --------------------------------------------------------------------- */

  /** The loop of the handler: walks the lines in order, returning at the
      first refused one, taking each line's stock as it goes. */
  method TakeStock(items: seq<CartItem>, products: ProductCollection) returns (w: Pass)
    modifies products
    ensures w == Walk(old(products.docs), items) && products.docs == w.store
  {
    ghost var store0 := products.docs;
    var lines: seq<ItemInput> := [];
    var total := 0;
    var i := 0;
    while i < |items|
      invariant 0 <= i <= |items|
      invariant Walk(store0, items[..i]) == Priced(products.docs, lines, total)
    {
      var item := items[i];
      WalkPrefix(store0, items, i);
      var found := products.FindById(item.id);
      if found.None? {
        w := Refused(i, NotFound(item), products.docs);
        RefusalSticks(store0, items, i + 1);
        return;
      }
      var product := found.value;
      if product.stock < item.quantity {
        w := Refused(i, OutOfStock(item), products.docs);
        RefusalSticks(store0, items, i + 1);
        return;
      }
      ghost var before := Priced(products.docs, lines, total);
      ghost var k := IndexOfId(products.docs, item.id).value;
      StepTakes(before, item, i, k);
      assert product == before.store[k];
      total := total + product.price * item.quantity;
      lines := lines + [Line(product, item)];
      products.IncrementStock(item.id, -item.quantity);
      assert products.docs == before.store[k := product.(stock := product.stock - item.quantity)];
      assert Walk(store0, items[..i + 1]) == Step(before, item, i);
      i := i + 1;
    }
    assert items[..|items|] == items;
    w := Priced(products.docs, lines, total);
  }

  /** The handler over the two collections: the products take every stock
      change the walk made, and at most one order is inserted. */
  method HandleCod(m: Method, session: Session, body: CodBody, products: ProductCollection,
                   orders: OrderCollection, orderId: Id, now: int) returns (reply: Reply)
    requires products.Valid()
    modifies products, orders
    ensures products.Valid()
    ensures var e := Handle(m, session, body, old(products.docs), orderId, now);
      && reply == e.reply
      && products.docs == e.store
      && orders.docs == old(orders.docs) + (if e.created.Some? then [e.created.value] else [])
  {
    if m != POST {
      return Reply(405, "Method not allowed", None);
    }
    if body.items.None? || |body.items.value| == 0 {
      return Reply(400, "No items in cart", None);
    }
    var email := OrElse(SessionEmail(session), body.email);
    if !Truthy(email) {
      return Reply(400, "Email is required for checkout", None);
    }
    ghost var store0 := products.docs;
    assert NoNegativeStock(store0);
    var w := TakeStock(body.items.value, products);
    WalkKeepsStock(store0, body.items.value);
    if w.Priced? {
      WalkShape(store0, body.items.value);
    } else {
      WalkRefused(store0, body.items.value);
      WalkShape(store0, body.items.value[..w.at]);
    }
    SameButStockKeepsValid(store0, products.docs);
    if w.Refused? {
      return Reply(400, w.message, None);
    }
    var created := orders.Create(CodOrderInput(email.value, w.lines, w.total, body.shippingAddress), orderId, now);
    if created.Err? {
      return Reply(500, ValidationMessage, None);
    }
    reply := Reply(201, "COD order placed successfully!", Some(created.value.id));
  }
}
