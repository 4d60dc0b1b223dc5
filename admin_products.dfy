/** `/api/admin/products`: the admin gate, the newest-first listing, and
    product creation followed by a subscriber notification whose failures
    are swallowed. */
module AdminProducts {
  import opened Wrappers
  import opened Records
  import opened Http
  import Ordering
  import opened ProductSchema
  import Newsletter

  /** The fields of the request body the handler reads. */
  datatype ProductBody = ProductBody(
    name: Option<string>,
    description: Option<string>,
    price: Option<int>,
    category: Option<string>,
    sizes: Option<seq<string>>,
    colors: Option<seq<string>>,
    stock: Option<int>,
    images: Option<seq<string>>)

  datatype Reply =
    | Listed(products: seq<Product>)            // 200
    | Created(product: Product)                 // 201
    | Refused(status: nat, message: string)     // 400, 403, 405, 500

  function Status(r: Reply): nat {
    match r
    case Listed(_) => 200
    case Created(_) => 201
    case Refused(status, _) => status
  }

  const AdminOnly := "ACCESS DENIED: ADMIN ONLY"
  const ImageRequired := "AT LEAST ONE IMAGE IS REQUIRED"

  /** What `Product.create` is handed: the body's fields, no brand (so the
      default applies), and `[]` for absent sizes or colors. */
  function CreateInput(body: ProductBody): (r: ProductInput)
    requires body.images.Some?
    ensures r.brand == None && r.images == body.images.value
    ensures body.sizes.None? ==> r.sizes == []
    ensures body.colors.None? ==> r.colors == []
  {
    ProductInput(body.name, body.description, body.price, body.category, None,
                 body.sizes.GetOr([]), body.colors.GetOr([]), body.stock, body.images.value)
  }

  /** Whether the POST gets past its image check. */
  predicate HasImages(body: ProductBody) {
    body.images.Some? && |body.images.value| > 0
  }

  /** The reply to a POST that passed the gate, and the collection after
      it, given the store's `docs`. */
  function Post(body: ProductBody, docs: seq<Product>, id: Id, now: int): (r: (Reply, seq<Product>))
    ensures r.1 == docs || (r.0.Created? && r.1 == docs + [r.0.product])
    ensures r.0.Created? <==> HasImages(body) && NewProduct(CreateInput(body), id, now).Ok?
                              && !Clashes(docs, NewProduct(CreateInput(body), id, now).value)
    ensures !HasImages(body) ==> r == (Refused(400, ImageRequired), docs)
    ensures r.0.Created? ==> r.0.product.brand == DefaultBrand && WellFormed(r.0.product)
  {
    if !HasImages(body) then (Refused(400, ImageRequired), docs)
    else match NewProduct(CreateInput(body), id, now) {
      case Err(_) => (Refused(500, "validation failed"), docs)
      case Ok(p) => if Clashes(docs, p) then (Refused(500, "duplicate key"), docs) else (Created(p), docs + [p])
    }
  }

  /** A body whose sizes and colors are absent creates a product with
      none of either. */
  lemma AbsentListsDefault(body: ProductBody, docs: seq<Product>, id: Id, now: int)
    requires body.sizes.None? && body.colors.None?
    requires Post(body, docs, id, now).0.Created?
    ensures Post(body, docs, id, now).0.product.sizes == []
    ensures Post(body, docs, id, now).0.product.colors == []
  {
  }

  /** The subscribers `sendNewProductEmails` would write to: the active
      ones, or nobody when the lookup fails (the failure is logged and
      dropped). */
  method NotifySubscribers(subscribers: Newsletter.NewsletterCollection, lookupOk: bool) returns (recipients: seq<string>)
    ensures !lookupOk ==> recipients == []
    ensures lookupOk ==> forall e :: e in recipients <==>
      exists i :: 0 <= i < |subscribers.docs| && subscribers.docs[i].isActive && subscribers.docs[i].email == e
  {
    if !lookupOk {
      return [];
    }
    recipients := subscribers.ActiveEmails();
  }

  /** The whole handler. `lookupOk` is whether the subscriber lookup of
      the notification succeeds; the reply does not depend on it. */
  method Handle(m: Method, session: Session, body: ProductBody, products: ProductCollection,
                subscribers: Newsletter.NewsletterCollection, lookupOk: bool, id: Id, now: int)
      returns (reply: Reply, recipients: seq<string>)
    requires products.Valid()
    modifies products
    ensures products.Valid()
    ensures !IsAdmin(session) ==> reply == Refused(403, AdminOnly) && products.docs == old(products.docs)
    ensures IsAdmin(session) && m == GET ==>
      && reply.Listed? && products.docs == old(products.docs)
      && Ordering.SortedBy(reply.products, NegCreatedAt)
      && multiset(reply.products) == multiset(old(products.docs))
    ensures IsAdmin(session) && m == POST ==> (reply, products.docs) == Post(body, old(products.docs), id, now)
    ensures IsAdmin(session) && m != GET && m != POST ==>
      reply == Refused(405, NotAllowed(m)) && products.docs == old(products.docs)
    ensures !(reply.Created? && lookupOk) ==> recipients == []
    // A created product is announced to every active subscriber and to no one else.
    ensures reply.Created? && lookupOk ==> forall e :: e in recipients <==>
      exists i :: 0 <= i < |subscribers.docs| && subscribers.docs[i].isActive && subscribers.docs[i].email == e
  {
    recipients := [];
    if !IsAdmin(session) {
      return Refused(403, AdminOnly), [];
    }
    if m == GET {
      var listed := products.NewestFirst();
      return Listed(listed), [];
    }
    if m != POST {
      return Refused(405, NotAllowed(m)), [];
    }
    if !HasImages(body) {
      return Refused(400, ImageRequired), [];
    }
    var created := products.Create(CreateInput(body), id, now);
    if created.Err? {
      reply := Refused(500, if created.error == DuplicateKey then "duplicate key" else "validation failed");
      return;
    }
    recipients := NotifySubscribers(subscribers, lookupOk);
    reply := Created(created.value);
  }
}
