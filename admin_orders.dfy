/** `/api/admin/orders`: the admin gate, the newest-first listing, and the
    status update of one order. */
module AdminOrders {
  import opened Wrappers
  import opened Records
  import opened Http
  import Ordering
  import opened OrderSchema

  datatype StatusBody = StatusBody(orderId: Option<Id>, orderStatus: Option<string>, status: Option<string>)

  datatype Reply =
    | Listed(orders: seq<Order>)               // 200 on GET
    | Changed(order: Order)                    // 200 on PUT
    | Refused(status: nat, message: string)    // 400, 403, 404, 405

  const AdminOnly := "ACCESS DENIED: ADMIN ONLY"
  const OrderIdRequired := "ORDER ID IS REQUIRED"
  const OrderMissing := "ORDER NOT FOUND"
  const MethodRefused := "Method not allowed"

  /** `updateData`: only a truthy `orderStatus` and a truthy `status` are
      written. */
  function ApplyStatus(o: Order, body: StatusBody): (r: Order)
    ensures r.orderStatus == StrOr(body.orderStatus, o.orderStatus)
    ensures r.status == StrOr(body.status, o.status)
    ensures r.(orderStatus := o.orderStatus, status := o.status) == o
  {
    o.(orderStatus := StrOr(body.orderStatus, o.orderStatus), status := StrOr(body.status, o.status))
  }

  /** The PUT branch over the collection's `docs`. */
  function Put(body: StatusBody, docs: seq<Order>): (Reply, seq<Order>) {
    if !Truthy(body.orderId) then (Refused(400, OrderIdRequired), docs)
    else
      var k := IndexOfOrder(docs, body.orderId.value);
      if k.None? then (Refused(404, OrderMissing), docs)
      else
        var o := ApplyStatus(docs[k.value], body);
        (Changed(o), docs[k.value := o])
  }

  /** A PUT changes at most the order it names, and only its two status
      fields; a missing id or an unknown one changes nothing. */
  lemma PutOutcomes(body: StatusBody, docs: seq<Order>)
    ensures var (reply, after) := Put(body, docs);
      && |after| == |docs|
      && (!Truthy(body.orderId) ==> reply == Refused(400, OrderIdRequired) && after == docs)
      && (reply.Refused? ==> after == docs)
      && (Truthy(body.orderId) ==>
            (reply == Refused(404, OrderMissing) <==> forall i :: 0 <= i < |docs| ==> docs[i].id != body.orderId.value))
      && (Truthy(body.orderId) ==> reply.Changed? || reply == Refused(404, OrderMissing))
      && (reply.Changed? ==> reply.order.id == body.orderId.value)
      && (reply.Changed? ==> exists k :: (0 <= k < |docs| && docs[k].id == body.orderId.value
            && reply.order == ApplyStatus(docs[k], body) && after == docs[k := reply.order]))
      && forall i :: 0 <= i < |docs| && after[i] != docs[i] ==>
           docs[i].id == body.orderId.value && after[i] == ApplyStatus(docs[i], body)
  {
    if Truthy(body.orderId) {
      var k := IndexOfOrder(docs, body.orderId.value);
      if k.Some? {
        assert docs[k.value].id == body.orderId.value;
      }
    }
  }

  /** Naming a stored order always succeeds, and a body with neither status
      leaves it as it was. */
  lemma PutKnownOrder(body: StatusBody, docs: seq<Order>, i: nat)
    requires Truthy(body.orderId) && i < |docs| && docs[i].id == body.orderId.value
    ensures Put(body, docs).0.Changed?
    ensures !Truthy(body.orderStatus) && !Truthy(body.status) ==> Put(body, docs).1 == docs
  {
    var k := IndexOfOrder(docs, body.orderId.value);
    assert k.Some?;
    if !Truthy(body.orderStatus) && !Truthy(body.status) {
      assert ApplyStatus(docs[k.value], body) == docs[k.value];
    }
  }

  /** The update does not consult the schema's enums: any non-empty
      status is stored as sent. */
  lemma PutBypassesEnums(o: Order, id: Id, bogus: string)
    requires o.id == id && id != "" && bogus != "" && !IsOrderStatus(bogus)
    ensures var after := Put(StatusBody(Some(id), Some(bogus), None), [o]).1;
      after[0].orderStatus == bogus && !IsOrderStatus(after[0].orderStatus)
  {
    var body := StatusBody(Some(id), Some(bogus), None);
    assert IndexOfOrder([o], id) == Some(0);
  }

  /** The handler over the `orders` collection. */
  method Handle(m: Method, session: Session, body: StatusBody, orders: OrderCollection) returns (reply: Reply)
    modifies orders
    ensures !IsAdmin(session) ==> reply == Refused(403, AdminOnly) && orders.docs == old(orders.docs)
    ensures IsAdmin(session) && m == GET ==>
      && reply.Listed? && orders.docs == old(orders.docs)
      && Ordering.SortedBy(reply.orders, NegCreatedAt) && multiset(reply.orders) == multiset(old(orders.docs))
    ensures IsAdmin(session) && m == PUT ==> (reply, orders.docs) == Put(body, old(orders.docs))
    ensures IsAdmin(session) && m != GET && m != PUT ==>
      reply == Refused(405, MethodRefused) && orders.docs == old(orders.docs)
  {
    if !IsAdmin(session) {
      return Refused(403, AdminOnly);
    }
    if m == GET {
      var listed := orders.NewestFirst();
      return Listed(listed);
    }
    if m != PUT {
      return Refused(405, MethodRefused);
    }
    if !Truthy(body.orderId) {
      return Refused(400, OrderIdRequired);
    }
    var k := IndexOfOrder(orders.docs, body.orderId.value);
    if k.None? {
      return Refused(404, OrderMissing);
    }
    var o := ApplyStatus(orders.docs[k.value], body);
    orders.ReplaceAt(k.value, o);
    reply := Changed(o);
  }
}
