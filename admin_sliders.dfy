/** `/api/admin/sliders`: the admin gate, the by-order listing that stores
    slides for the newest products when there is none, and slider creation
    under the cap of three. */
module AdminSliders {
  import opened Wrappers
  import opened Records
  import opened Http
  import Seqs
  import Ordering
  import opened ProductSchema
  import opened SliderSchema
  import opened Listing
  import opened Text

  /** The fields of the request body the POST reads. */
  datatype SliderBody = SliderBody(
    image: Option<string>,
    productId: Option<Id>,
    title: Option<string>,
    subtitle: Option<string>,
    order: Option<int>)

  datatype Reply =
    | Listed(sliders: seq<Slider>)              // 200
    | Created(slider: Slider)                   // 201
    | Refused(status: nat, message: string)     // 400, 403, 405, 500

  const AdminOnly := "ACCESS DENIED: ADMIN ONLY"
  const CapReached := "MAXIMUM 3 SLIDERS ALLOWED. DELETE ONE FIRST."
  const HookRefusal := "Maximum 3 sliders allowed. Please delete an existing slider first."

  /** The message a failed save carries into the 500 reply: the hook's own
      text, or a stand-in for the store's `error.message`. */
  function SaveMessage(e: SaveError): string {
    match e
    case MaxSliders => HookRefusal
    case ValidationError => "validation failed"
    case DuplicateKey => "duplicate key"
    case StoreFailure => "store failure"
  }

  /** `order || count`: a missing order and an order of 0 both give way. */
  function OrderOr(order: Option<int>, count: nat): (r: int)
    ensures order.Some? && order.value != 0 ==> r == order.value
    ensures order.None? || order.value == 0 ==> r == count
  {
    if order.Some? && order.value != 0 then order.value else count
  }

  /** What `Slider.create` is handed. */
  function PostInput(body: SliderBody, count: nat): SliderInput {
    SliderInput(body.image, if Truthy(body.productId) then body.productId else None,
                Some(StrOr(body.title, "")), Some(StrOr(body.subtitle, "")),
                Some(OrderOr(body.order, count)), Some(true))
  }

  /** The slider a POST creates: the body's image, a falsy product as no
      product, empty title and subtitle when absent, the current count as
      the order when none (or 0) is given, and always active. */
  lemma PostDefaults(body: SliderBody, count: nat, id: Id, now: int)
    requires Truthy(body.image)
    ensures var r := NewSlider(PostInput(body, count), id, now);
      && r.Ok? && r.value.image == body.image.value && r.value.isActive
      && (Truthy(body.productId) ==> r.value.productId == body.productId)
      && (!Truthy(body.productId) ==> r.value.productId == None)
      && (!Truthy(body.title) ==> r.value.title == "")
      && (!Truthy(body.subtitle) ==> r.value.subtitle == "")
      && (body.order.None? || body.order == Some(0) ==> r.value.order == count)
  {
  }

  /** A POST without an image fails validation whatever the count. */
  lemma PostNeedsImage(body: SliderBody, count: nat, id: Id, now: int)
    requires !Truthy(body.image)
    ensures NewSlider(PostInput(body, count), id, now) == Err(ValidationError)
  {
  }

  /** The whole handler. `counted` is whether the save hook's own count
      succeeds; `ids` are the ids the store hands out, and `formatPrice`
      the price formatting of the synthesised subtitles. */
  method Handle(m: Method, session: Session, body: SliderBody, sliders: SliderCollection,
                products: ProductCollection, counted: bool, id: Id, ids: seq<Id>, now: int,
                formatPrice: int -> string)
      returns (reply: Reply)
    requires sliders.Valid() && |ids| >= MaxSliderCount
    modifies sliders
    ensures sliders.Valid()
    ensures !IsAdmin(session) ==> reply == Refused(403, AdminOnly) && sliders.docs == old(sliders.docs)
    ensures IsAdmin(session) && m != GET && m != POST ==>
      reply == Refused(405, NotAllowed(m)) && sliders.docs == old(sliders.docs)
    // GET with sliders stored: all of them, by order.
    ensures IsAdmin(session) && m == GET && |old(sliders.docs)| > 0 ==>
      && reply.Listed? && sliders.docs == old(sliders.docs)
      && Ordering.SortedBy(reply.sliders, OrderKey) && multiset(reply.sliders) == multiset(old(sliders.docs))
    // GET with none stored: one stored per newest product, or a 500 that stores nothing.
    ensures IsAdmin(session) && m == GET && |old(sliders.docs)| == 0 ==>
      || (reply.Listed? && sliders.docs == reply.sliders && |reply.sliders| == Seqs.Min(MaxSliderCount, |products.docs|))
      || (reply == Refused(500, SaveMessage(ValidationError)) && sliders.docs == [])
    ensures IsAdmin(session) && m == GET && |old(sliders.docs)| == 0 && reply.Listed? ==>
      Populated(reply.sliders, Latest(products.docs), ids, formatPrice)
    ensures IsAdmin(session) && m == GET && reply.Refused? ==>
      exists p :: p in Latest(products.docs) && FirstImage(p) == ""
    // POST: the cap, then the save.
    ensures IsAdmin(session) && m == POST && |old(sliders.docs)| >= MaxSliderCount ==>
      reply == Refused(400, CapReached) && sliders.docs == old(sliders.docs)
    ensures IsAdmin(session) && m == POST && |old(sliders.docs)| < MaxSliderCount ==>
      var saved := NewSlider(PostInput(body, |old(sliders.docs)|), id, now);
      && (reply.Created? <==> saved.Ok? && counted)
      && (reply.Created? ==> reply.slider == saved.value && sliders.docs == old(sliders.docs) + [saved.value])
      && (saved.Err? ==> reply == Refused(500, SaveMessage(ValidationError)))
      && (!reply.Created? ==> reply.Refused? && reply.status == 500 && sliders.docs == old(sliders.docs))
  {
    if !IsAdmin(session) {
      return Refused(403, AdminOnly);
    }
    if m == GET {
      reply := List(sliders, products, ids[..MaxSliderCount], now, formatPrice);
      return;
    }
    if m != POST {
      return Refused(405, NotAllowed(m));
    }
    var count := sliders.Count();
    if count >= MaxSliderCount {
      return Refused(400, CapReached);
    }
    var saved := sliders.SaveNew(PostInput(body, count), id, now, counted);
    if saved.Err? {
      return Refused(500, SaveMessage(saved.error));
    }
    reply := Created(saved.value);
  }

  /** The GET branch. */
  method List(sliders: SliderCollection, products: ProductCollection, ids: seq<Id>, now: int,
              formatPrice: int -> string)
      returns (reply: Reply)
    requires sliders.Valid() && |ids| == MaxSliderCount
    modifies sliders
    ensures sliders.Valid()
    ensures reply.Listed? || reply == Refused(500, SaveMessage(ValidationError))
    ensures |old(sliders.docs)| > 0 ==>
      && reply.Listed? && sliders.docs == old(sliders.docs)
      && Ordering.SortedBy(reply.sliders, OrderKey) && multiset(reply.sliders) == multiset(old(sliders.docs))
    ensures |old(sliders.docs)| == 0 && reply.Listed? ==>
      && sliders.docs == reply.sliders && |reply.sliders| == Seqs.Min(MaxSliderCount, |products.docs|)
      && Populated(reply.sliders, Latest(products.docs), ids, formatPrice)
    ensures reply.Refused? ==> sliders.docs == [] && exists p :: p in Latest(products.docs) && FirstImage(p) == ""
  {
    var stored := sliders.ByOrder();
    if |stored| > 0 || |products.docs| == 0 {
      assert |stored| == |multiset(stored)| == |multiset(sliders.docs)|;
      return Listed(stored);
    }
    assert sliders.docs == [] by {
      assert |multiset(sliders.docs)| == |multiset(stored)| == 0;
    }
    reply := Populate(sliders, products, ids, now, formatPrice);
  }

  /** The three newest products, which an empty listing turns into
      sliders. */
  function Latest(docs: seq<Product>): (r: seq<Product>)
    ensures |r| == Seqs.Min(MaxSliderCount, |docs|)
    ensures Ordering.SortedBy(r, NegCreatedAt)
    ensures forall i :: 0 <= i < |r| ==> r[i] in docs
    ensures forall p :: p in docs && p !in r ==> forall i :: 0 <= i < |r| ==> r[i].createdAt >= p.createdAt
  {
    NewestPrefix(docs, MaxSliderCount);
    Seqs.Take(Newest(docs), MaxSliderCount)
  }

  /** A prefix of the newest-first list holds stored products, newest
      first, none older than a stored product it leaves out. */
  lemma NewestPrefix(docs: seq<Product>, n: nat)
    ensures var r := Seqs.Take(Newest(docs), n);
      && |r| == Seqs.Min(n, |docs|)
      && Ordering.SortedBy(r, NegCreatedAt)
      && (forall i :: 0 <= i < |r| ==> r[i] in docs)
      && forall p :: p in docs && p !in r ==> forall i :: 0 <= i < |r| ==> r[i].createdAt >= p.createdAt
  {
    var sorted := Newest(docs);
    var r := Seqs.Take(sorted, n);
    assert forall i :: 0 <= i < |r| ==> r[i] == sorted[i];
    forall i | 0 <= i < |r| ensures r[i] in docs {
      assert r[i] in multiset(sorted);
    }
    forall p | p in docs && p !in r ensures forall i :: 0 <= i < |r| ==> r[i].createdAt >= p.createdAt {
      assert p in multiset(sorted);
      var k :| 0 <= k < |sorted| && sorted[k] == p;
      forall i | 0 <= i < |r| ensures r[i].createdAt >= p.createdAt {
        assert NegCreatedAt(sorted[i]) <= NegCreatedAt(sorted[k]);
      }
    }
  }

  /** What the listing stores when it starts from no slider: slider `i`
      is the `i`-th newest product's, with its id, first image and name,
      its price after the subtitle prefix as the source writes it, order
      `i`, active, and the `i`-th id. */
  ghost predicate Populated(created: seq<Slider>, latest: seq<Product>, ids: seq<Id>, formatPrice: int -> string) {
    && |created| == |latest|
    && forall i :: 0 <= i < |created| ==>
      && i < |ids| && created[i].order == i && created[i].isActive && created[i].id == ids[i]
      && created[i].productId == Some(latest[i].id) && created[i].image == FirstImage(latest[i])
      && created[i].title == latest[i].name
      && created[i].subtitle == MisencodedRupee + formatPrice(latest[i].price)
  }

  /** Sliders saved one per hero input are the populated listing, and
      every product behind them has an image. */
  lemma StoredHeroes(created: seq<Slider>, latest: seq<Product>, ids: seq<Id>, now: int, formatPrice: int -> string)
    requires |ids| >= |latest| == |created|
    requires forall i :: 0 <= i < |latest| ==>
      Ok(created[i]) == NewSlider(HeroInputs(latest, MisencodedRupee, formatPrice)[i], ids[i], now)
    ensures Populated(created, latest, ids, formatPrice)
    ensures forall p :: p in latest ==> FirstImage(p) != ""
  {
    var inputs := HeroInputs(latest, MisencodedRupee, formatPrice);
    forall i | 0 <= i < |created|
      ensures created[i].productId == Some(latest[i].id) && created[i].title == latest[i].name
      ensures created[i].image == FirstImage(latest[i]) && FirstImage(latest[i]) != ""
    {
      assert Ok(created[i]) == NewSlider(inputs[i], ids[i], now);
    }
  }

  /** Stores one slider for each of the (at most three) newest products. */
  method Populate(sliders: SliderCollection, products: ProductCollection, ids: seq<Id>, now: int,
                  formatPrice: int -> string)
      returns (reply: Reply)
    requires sliders.docs == [] && |ids| == MaxSliderCount
    modifies sliders
    ensures sliders.Valid()
    ensures reply.Listed? ==> sliders.docs == reply.sliders
    ensures reply.Listed? ==> Populated(reply.sliders, Latest(products.docs), ids, formatPrice)
    ensures !reply.Listed? ==> reply == Refused(500, SaveMessage(ValidationError)) && sliders.docs == []
    ensures reply.Listed? <==> forall p :: p in Latest(products.docs) ==> FirstImage(p) != ""
  {
    var newest := products.NewestFirst();
    var latest := Seqs.Take(newest, MaxSliderCount);
    assert latest == Latest(products.docs);
    var inputs := HeroInputs(latest, MisencodedRupee, formatPrice);
    var created := sliders.InsertMany(inputs, ids[..|inputs|], now);
    if created.Err? {
      var k :| 0 <= k < |inputs| && !Truthy(inputs[k].image);
      assert FirstImage(latest[k]) == "";
      return Refused(500, SaveMessage(ValidationError));
    }
    StoredHeroes(created.value, latest, ids, now, formatPrice);
    reply := Listed(created.value);
  }
}
