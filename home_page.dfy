/** The storefront home page: the products and hero slides the server
    loads for it, the filter effect over the loaded products, and the
    carousel's current-slide state. */
module HomePage {
  import opened Wrappers
  import opened Records
  import opened Text
  import Seqs
  import Ordering
  import opened ProductSchema
  import opened SliderSchema
  import opened Listing

  /** A slide as the page receives it: stored sliders keep their id,
      synthesised ones get a made-up key. */
  datatype Slide = Slide(
    key: string,
    image: string,
    productId: Option<Id>,
    title: string,
    subtitle: string,
    order: int,
    isActive: bool)

  datatype Props = Props(products: seq<Product>, slides: seq<Slide>)

  const ProductLimit: nat := 8
  const SlideLimit: nat := 3

  function StoredSlide(s: Slider): Slide {
    Slide(s.id, s.image, s.productId, s.title, s.subtitle, s.order, s.isActive)
  }

  /** The key of the `i`-th synthesised slide: `auto-${i}`. */
  function AutoKey(i: nat): string { "auto-" + NatToString(i) }

  /** The slide synthesised from the `i`-th newest product: the same
      fields the admin listing would store for it. */
  function AutoSlide(p: Product, i: nat, formatPrice: int -> string): (r: Slide)
    ensures var input := HeroInput(p, i, Rupee, formatPrice);
      && Some(r.image) == input.image && r.productId == input.productId
      && Some(r.title) == input.title && Some(r.subtitle) == input.subtitle
      && Some(r.order) == input.order && Some(r.isActive) == input.isActive
  {
    Slide(AutoKey(i), FirstImage(p), Some(p.id), p.name, Rupee + formatPrice(p.price), i, true)
  }

  function AutoSlides(latest: seq<Product>, formatPrice: int -> string): seq<Slide> {
    seq(|latest|, i requires 0 <= i < |latest| => AutoSlide(latest[i], i, formatPrice))
  }

  /** With the rupee sign written correctly, the slider inputs the admin
      listing would store carry exactly the subtitles the storefront
      shows; with the sign as the admin listing writes it, none agrees. */
  lemma HeroSubtitlesAgree(latest: seq<Product>, formatPrice: int -> string)
    ensures forall i :: 0 <= i < |latest| ==>
      && Some(AutoSlides(latest, formatPrice)[i].subtitle) == HeroInputs(latest, Rupee, formatPrice)[i].subtitle
      && Some(AutoSlides(latest, formatPrice)[i].subtitle) != HeroInputs(latest, MisencodedRupee, formatPrice)[i].subtitle
  {
    forall i | 0 <= i < |latest|
      ensures Some(AutoSlides(latest, formatPrice)[i].subtitle) != HeroInputs(latest, MisencodedRupee, formatPrice)[i].subtitle
    {
      AdminSubtitleMisencoded(latest[i], i, formatPrice);
    }
  }

  predicate ActiveSlider(s: Slider) { s.isActive }

  /** `Slider.find({ isActive: true }).sort({ order: 1 }).limit(3)`. */
  function ActiveByOrder(sliders: seq<Slider>): seq<Slider> {
    Seqs.Take(Ordering.SortBy(Seqs.Filter(sliders, ActiveSlider), OrderKey), SlideLimit)
  }

  /** `getServerSideProps`: the eight newest products, and the active
      sliders by order, or, when there is none, slides synthesised from
      the three newest products without storing them. `loaded` is false
      when a query fails, and the page then gets nothing. */
  function ServerProps(docs: seq<Product>, sliders: seq<Slider>, loaded: bool, formatPrice: int -> string): Props {
    if !loaded then Props([], [])
    else
      var stored := ActiveByOrder(sliders);
      var slides := if |stored| > 0 then seq(|stored|, i requires 0 <= i < |stored| => StoredSlide(stored[i]))
                    else AutoSlides(Seqs.Take(Newest(docs), SlideLimit), formatPrice);
      Props(Seqs.Take(Newest(docs), ProductLimit), slides)
  }

  /** At most eight products, newest first, all from the store. */
  lemma ServerProducts(docs: seq<Product>, sliders: seq<Slider>, formatPrice: int -> string)
    ensures var r := ServerProps(docs, sliders, true, formatPrice).products;
      && |r| == Seqs.Min(ProductLimit, |docs|)
      && Ordering.SortedBy(r, NegCreatedAt)
      && forall i :: 0 <= i < |r| ==> r[i] in docs
  {
    var n := Newest(docs);
    var r := Seqs.Take(n, ProductLimit);
    forall i | 0 <= i < |r| ensures r[i] in docs {
      assert r[i] in multiset(n);
    }
  }

  /** The stored sliders the page asks for: at most three, all active,
      in order, all from the store. */
  lemma ActiveByOrderSpec(sliders: seq<Slider>)
    ensures var r := ActiveByOrder(sliders);
      && |r| <= SlideLimit
      && (forall i :: 0 <= i < |r| ==> r[i].isActive && r[i] in sliders)
      && Ordering.SortedBy(r, OrderKey)
  {
    Seqs.FilterMembers(sliders, ActiveSlider);
    var sorted := Ordering.SortBy(Seqs.Filter(sliders, ActiveSlider), OrderKey);
    var r := ActiveByOrder(sliders);
    forall i | 0 <= i < |r| ensures r[i].isActive && r[i] in sliders {
      assert r[i] in multiset(sorted);
    }
  }

  /** One active slider is enough for the query to return something. */
  lemma ActiveByOrderNonEmpty(sliders: seq<Slider>, k: nat)
    requires k < |sliders| && sliders[k].isActive
    ensures |ActiveByOrder(sliders)| > 0
  {
    Seqs.FilterMembers(sliders, ActiveSlider);
    var active := Seqs.Filter(sliders, ActiveSlider);
    assert sliders[k] in active;
    assert |Ordering.SortBy(active, OrderKey)| == |active| > 0;
  }

  /** When an active slider is stored, the page shows at most three, all
      active, in order, all from the store. */
  lemma ServerStoredSlides(docs: seq<Product>, sliders: seq<Slider>, formatPrice: int -> string, k: nat)
    requires k < |sliders| && sliders[k].isActive
    ensures var r := ServerProps(docs, sliders, true, formatPrice).slides;
      && 0 < |r| <= SlideLimit
      && (forall i :: 0 <= i < |r| ==> r[i].isActive)
      && (forall i, j :: 0 <= i < j < |r| ==> r[i].order <= r[j].order)
      && forall i :: 0 <= i < |r| ==> exists s :: s in sliders && r[i] == StoredSlide(s)
  {
    ActiveByOrderNonEmpty(sliders, k);
    ActiveByOrderSpec(sliders);
    var stored := ActiveByOrder(sliders);
    var r := ServerProps(docs, sliders, true, formatPrice).slides;
    assert forall i :: 0 <= i < |r| ==> r[i] == StoredSlide(stored[i]);
    assert forall i, j :: 0 <= i < j < |r| ==> OrderKey(stored[i]) <= OrderKey(stored[j]);
  }

  /** With no active slider the page synthesises one slide per newest
      product, at most three, keyed `auto-i`, ordered `i` and active. */
  lemma ServerAutoSlides(docs: seq<Product>, sliders: seq<Slider>, formatPrice: int -> string)
    requires forall k :: 0 <= k < |sliders| ==> !sliders[k].isActive
    ensures var r := ServerProps(docs, sliders, true, formatPrice);
      && |r.slides| == Seqs.Min(SlideLimit, |docs|)
      && forall i :: 0 <= i < |r.slides| ==>
           && r.slides[i].key == AutoKey(i) && r.slides[i].order == i && r.slides[i].isActive
           && r.slides[i].productId == Some(r.products[i].id)
           && r.slides[i].image == FirstImage(r.products[i])
  {
    Seqs.FilterNone(sliders, ActiveSlider);
  }

  /** Synthesised keys never collide. */
  lemma AutoKeysDistinct(i: nat, j: nat)
    requires i != j
    ensures AutoKey(i) != AutoKey(j)
  {
    if AutoKey(i) == AutoKey(j) {
      var p := "auto-";
      assert NatToString(i) == AutoKey(i)[|p|..];
      assert NatToString(j) == AutoKey(j)[|p|..];
      NatToStringValue(i);
      NatToStringValue(j);
    }
  }

  /** A failed load leaves the page empty. */
  lemma ServerFailure(docs: seq<Product>, sliders: seq<Slider>, formatPrice: int -> string)
    ensures ServerProps(docs, sliders, false, formatPrice) == Props([], [])
  {
  }

  /** The slide after `prev` among `n`. */
  function NextSlide(prev: nat, n: nat): (r: nat)
    requires n > 0
    ensures r < n
    ensures prev < n ==> r == if prev + 1 < n then prev + 1 else 0
  {
    (prev + 1) % n
  }

  /** The slide shown after `m` uninterrupted ticks from `start`. */
  function Advance(start: nat, n: nat, m: nat): nat
    requires n > 0
  {
    if m == 0 then start else NextSlide(Advance(start, n, m - 1), n)
  }

  /** Uninterrupted, the carousel shows every slide in turn and is back at
      the first after `n` ticks. */
  lemma {:induction false} CarouselCycles(n: nat, m: nat)
    requires 0 < n && m <= n
    ensures m < n ==> Advance(0, n, m) == m
    ensures m == n ==> Advance(0, n, m) == 0
  {
    if m > 0 {
      CarouselCycles(n, m - 1);
    }
  }

  /** The page's state. */
  class HomeView {
    const products: seq<Product>
    const slides: seq<Slide>
    var currentSlide: nat
    var isAutoSliding: bool
    var search: string
    var filter: string
    var filteredProducts: seq<Product>

    constructor (products: seq<Product>, slides: seq<Slide>)
      ensures this.products == products && this.slides == slides
      ensures currentSlide == 0 && isAutoSliding && search == "" && filter == "all"
      ensures filteredProducts == products
    {
      this.products := products;
      this.slides := slides;
      currentSlide := 0;
      isAutoSliding := true;
      search := "";
      filter := "all";
      filteredProducts := products;
    }

    /** The filter effect, run whenever the search, the category or the
        products change. */
    method ApplyFilters()
      modifies this
      ensures filteredProducts == Visible(products, search, filter)
      ensures currentSlide == old(currentSlide) && isAutoSliding == old(isAutoSliding)
      ensures search == old(search) && filter == old(filter)
    {
      var result := products;
      if Searching(search) {
        result := Seqs.Filter(result, SearchTest(search));
      }
      if filter != "all" {
        result := Seqs.Filter(result, CategoryTest(filter));
      }
      filteredProducts := result;
    }

    method SetSearch(text: string)
      modifies this
      ensures search == text && filter == old(filter)
      ensures filteredProducts == Visible(products, text, filter)
      ensures currentSlide == old(currentSlide) && isAutoSliding == old(isAutoSliding)
    {
      search := text;
      ApplyFilters();
    }

    method SetFilter(category: string)
      modifies this
      ensures filter == category && search == old(search)
      ensures filteredProducts == Visible(products, search, category)
      ensures currentSlide == old(currentSlide) && isAutoSliding == old(isAutoSliding)
    {
      filter := category;
      ApplyFilters();
    }

    /** One firing of the five-second interval; no interval runs while
        auto-sliding is paused or there is no slide. */
    method Tick()
      modifies this
      ensures isAutoSliding && |slides| > 0 ==> currentSlide == NextSlide(old(currentSlide), |slides|)
      ensures !(isAutoSliding && |slides| > 0) ==> currentSlide == old(currentSlide)
      ensures isAutoSliding == old(isAutoSliding) && filteredProducts == old(filteredProducts)
      ensures search == old(search) && filter == old(filter)
    {
      if isAutoSliding && |slides| > 0 {
        currentSlide := NextSlide(currentSlide, |slides|);
      }
    }

    /** A dot was clicked: show that slide and pause auto-sliding. */
    method GoToSlide(index: nat)
      modifies this
      ensures currentSlide == index && !isAutoSliding
      ensures filteredProducts == old(filteredProducts) && search == old(search) && filter == old(filter)
    {
      currentSlide := index;
      isAutoSliding := false;
    }

    /** The timeout `goToSlide` starts, and the mount effect: auto-sliding
        resumes. */
    method Resume()
      modifies this
      ensures isAutoSliding && currentSlide == old(currentSlide)
      ensures filteredProducts == old(filteredProducts) && search == old(search) && filter == old(filter)
    {
      isAutoSliding := true;
    }
  }
}
