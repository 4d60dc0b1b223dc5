/** What the storefront pages and the slider admin share: the search and
    category filters, and the hero slides derived from the newest
    products when no slider is stored. */
module Listing {
  import opened Wrappers
  import opened Records
  import opened Text
  import Seqs
  import opened ProductSchema
  import SliderSchema
  import Ordering

  /** ---------------------------------------------------------------------
      Filters.
      --------------------------------------------------------------------- */

  /** The search test: the query occurs in the lower-cased name,
      description or category. */
  predicate MatchesSearch(p: Product, query: string) {
    Contains(ToLower(p.name), query) || Contains(ToLower(p.description), query)
    || Contains(ToLower(p.category), query)
  }

  /** The query the pages search for: `search.toLowerCase().trim()`. */
  function Query(search: string): string { Trim(ToLower(search)) }

  /** Whether the search box counts as filled: `search.trim()` is truthy. */
  predicate Searching(search: string) { Trim(search) != "" }

  /** Whether a product passes both filters. */
  predicate Shown(p: Product, search: string, category: string) {
    (!Searching(search) || MatchesSearch(p, Query(search))) && (category == "all" || p.category == category)
  }

  /** The tests as values, so that every use names the same function. */
  function SearchTest(search: string): Product -> bool {
    (p: Product) => MatchesSearch(p, Query(search))
  }

  function CategoryTest(category: string): Product -> bool {
    (p: Product) => p.category == category
  }

  function ShownTest(search: string, category: string): Product -> bool {
    (p: Product) => Shown(p, search, category)
  }

  /** The filter effect: the search filter when the box is filled, then
      the category filter unless the category is "all". */
  function Visible(products: seq<Product>, search: string, category: string): seq<Product> {
    var searched := if Searching(search) then Seqs.Filter(products, SearchTest(search)) else products;
    if category == "all" then searched else Seqs.Filter(searched, CategoryTest(category))
  }

  /** The two filters in a row are one filter by `Shown`. */
  lemma VisibleIsOneFilter(products: seq<Product>, search: string, category: string)
    ensures Visible(products, search, category) == Seqs.Filter(products, ShownTest(search, category))
  {
    var byName := SearchTest(search);
    var byCategory := CategoryTest(category);
    var shown := ShownTest(search, category);
    if Searching(search) {
      if category == "all" {
        Seqs.FilterSameTest(products, byName, shown);
      } else {
        Seqs.FilterFilter(products, byName, byCategory, shown);
      }
    } else if category == "all" {
      Seqs.FilterAll(products, shown);
    } else {
      Seqs.FilterSameTest(products, byCategory, shown);
    }
  }

  /** The filters only delete: the shown products are exactly those that
      pass both tests, in their original order. */
  lemma VisibleSpec(products: seq<Product>, search: string, category: string)
    ensures Seqs.IsSubsequence(Visible(products, search, category), products)
    ensures forall p :: p in Visible(products, search, category) <==> p in products && Shown(p, search, category)
  {
    VisibleIsOneFilter(products, search, category);
    Seqs.FilterIsSubsequence(products, ShownTest(search, category));
    Seqs.FilterMembers(products, ShownTest(search, category));
  }

  /** A blank search and the category "all" show everything. */
  lemma ShowAll(products: seq<Product>, search: string)
    requires !Searching(search)
    ensures Visible(products, search, "all") == products
  {
  }

  /** Search is case-insensitive in the products' letters: a product whose
      name holds the query is found. */
  lemma NameHit(products: seq<Product>, search: string, k: nat)
    requires Searching(search) && k < |products| && Contains(ToLower(products[k].name), Query(search))
    ensures products[k] in Visible(products, search, "all")
  {
    VisibleSpec(products, search, "all");
  }

  /** `Product.find({}).sort({ createdAt: -1 })`: every product, newest
      first. */
  function Newest(docs: seq<Product>): (r: seq<Product>)
    ensures Ordering.SortedBy(r, NegCreatedAt) && multiset(r) == multiset(docs)
  {
    Ordering.SortBy(docs, NegCreatedAt)
  }

  /** ---------------------------------------------------------------------
      Hero slides.
      --------------------------------------------------------------------- */

  /** `product.images?.[0] || ''`. */
  function FirstImage(p: Product): (r: string)
    ensures |p.images| > 0 ==> r == p.images[0]
    ensures |p.images| == 0 ==> r == ""
  {
    if |p.images| > 0 then p.images[0] else ""
  }

  /** The rupee sign that starts a slide's subtitle. */
  const Rupee: string := "₹"

  /** The subtitle prefix the admin listing writes as its source bytes
      have it: the rupee sign's UTF-8 bytes read as Windows-1252. */
  const MisencodedRupee: string := "â‚¹"

  /** The slider fields the `index`-th newest product yields: its first
      image, its id, its name, its price after the currency prefix `sign`
      (`formatPrice` stands for `toLocaleString('en-IN')`), the index as
      the order, and active. */
  function HeroInput(p: Product, index: nat, sign: string, formatPrice: int -> string): SliderSchema.SliderInput {
    SliderSchema.SliderInput(Some(FirstImage(p)), Some(p.id), Some(p.name),
                             Some(sign + formatPrice(p.price)), Some(index), Some(true))
  }

  /** One slide input per product, in the products' order. */
  function HeroInputs(latest: seq<Product>, sign: string, formatPrice: int -> string): (r: seq<SliderSchema.SliderInput>)
    ensures |r| == |latest|
    ensures forall i :: 0 <= i < |r| ==> r[i].order == Some(i) && r[i].productId == Some(latest[i].id)
    ensures forall i :: 0 <= i < |r| ==> r[i].isActive == Some(true) && r[i].title == Some(latest[i].name)
    ensures forall i :: 0 <= i < |r| ==>
      r[i].image == Some(FirstImage(latest[i])) && r[i].subtitle == Some(sign + formatPrice(latest[i].price))
  {
    seq(|latest|, i requires 0 <= i < |latest| => HeroInput(latest[i], i, sign, formatPrice))
  }

  /** The admin listing's subtitle and the storefront's disagree for every
      product: the admin one starts with three characters where the
      storefront has one sign. */
  lemma AdminSubtitleMisencoded(p: Product, index: nat, formatPrice: int -> string)
    ensures HeroInput(p, index, MisencodedRupee, formatPrice).subtitle != HeroInput(p, index, Rupee, formatPrice).subtitle
    ensures HeroInput(p, index, MisencodedRupee, formatPrice).subtitle.value[..3] == MisencodedRupee
    ensures HeroInput(p, index, Rupee, formatPrice).subtitle.value[..1] == Rupee
  {
    var a := HeroInput(p, index, MisencodedRupee, formatPrice).subtitle.value;
    var b := HeroInput(p, index, Rupee, formatPrice).subtitle.value;
    assert a[0] != b[0];
  }
}
