/** The shop page: every product, newest first, filtered like the home
    page and then sorted in place by the chosen order. */
module ShopPage {
  import Seqs
  import Ordering
  import opened ProductSchema
  import opened Listing

  function Price(p: Product): int { p.price }
  function NegPrice(p: Product): int { -p.price }

  /** The sort key each choice names; any other value leaves the filtered
      order as it is. */
  function SortKey(sort: string): (Product -> int, bool) {
    if sort == "newest" then (NegCreatedAt, true)
    else if sort == "price-low" then (Price, true)
    else if sort == "price-high" then (NegPrice, true)
    else (Price, false)
  }

  /** What the page shows: the filtered products, stably sorted by the
      chosen key when there is one, and left in place otherwise. */
  predicate Arranged(result: seq<Product>, products: seq<Product>, search: string, filter: string, sort: string) {
    var shown := Visible(products, search, filter);
    var (key, sorting) := SortKey(sort);
    && multiset(result) == multiset(shown)
    && (sorting ==> Ordering.SortedBy(result, key) && result == Ordering.SortBy(shown, key))
    && (!sorting ==> result == shown)
  }

  /** Products the chosen order cannot tell apart (the same price, or the
      same creation time) keep the order in which the catalogue lists
      them. */
  lemma TiesKeepOrder(result: seq<Product>, products: seq<Product>, search: string, filter: string, sort: string, k: int)
    requires Arranged(result, products, search, filter, sort)
    ensures var key := SortKey(sort).0;
      Seqs.Filter(result, Ordering.KeyIs(key, k)) == Seqs.Filter(Visible(products, search, filter), Ordering.KeyIs(key, k))
  {
    var (key, sorting) := SortKey(sort);
    if sorting {
      Ordering.SortByStable(Visible(products, search, filter), key, k);
    }
  }

  /** The stable sort of the filtered products, or the filtered products
      themselves for an unknown sort, is what the page shows. */
  lemma ArrangedBySort(result: seq<Product>, products: seq<Product>, search: string, filter: string, sort: string)
    requires SortKey(sort).1 ==> result == Ordering.SortBy(Visible(products, search, filter), SortKey(sort).0)
    requires !SortKey(sort).1 ==> result == Visible(products, search, filter)
    ensures Arranged(result, products, search, filter, sort)
  {
  }

  /** Sorting never adds a product: what is shown is in the catalogue and
      passes both filters, and each passing product is shown. */
  lemma ArrangedMembers(result: seq<Product>, products: seq<Product>, search: string, filter: string, sort: string)
    requires Arranged(result, products, search, filter, sort)
    ensures forall p :: p in result <==> p in products && Shown(p, search, filter)
    ensures |result| <= |products|
  {
    var shown := Visible(products, search, filter);
    VisibleSpec(products, search, filter);
    forall p ensures p in result <==> p in shown {
      assert p in result <==> p in multiset(result);
      assert p in shown <==> p in multiset(shown);
    }
    assert |result| == |multiset(result)| == |shown|;
    Seqs.FilterIsSubsequence(products, ShownTest(search, filter));
    VisibleIsOneFilter(products, search, filter);
  }

  /** "price-low" lists the cheapest first and "price-high" the dearest
      first. */
  lemma PriceOrders(result: seq<Product>, products: seq<Product>, search: string, filter: string, i: nat, j: nat)
    requires i < j < |result|
    ensures Arranged(result, products, search, filter, "price-low") ==> result[i].price <= result[j].price
    ensures Arranged(result, products, search, filter, "price-high") ==> result[i].price >= result[j].price
    ensures Arranged(result, products, search, filter, "newest") ==> result[i].createdAt >= result[j].createdAt
  {
    if Arranged(result, products, search, filter, "price-low") {
      ArrangedSorted(result, products, search, filter, "price-low");
    }
    if Arranged(result, products, search, filter, "price-high") {
      ArrangedSorted(result, products, search, filter, "price-high");
      assert NegPrice(result[i]) <= NegPrice(result[j]);
    }
    if Arranged(result, products, search, filter, "newest") {
      ArrangedSorted(result, products, search, filter, "newest");
      assert NegCreatedAt(result[i]) <= NegCreatedAt(result[j]);
    }
  }

  lemma ArrangedSorted(result: seq<Product>, products: seq<Product>, search: string, filter: string, sort: string)
    requires Arranged(result, products, search, filter, sort) && SortKey(sort).1
    ensures Ordering.SortedBy(result, SortKey(sort).0)
  {
  }

  /** `getServerSideProps`: every product, newest first. */
  function ServerProducts(docs: seq<Product>): (r: seq<Product>)
    ensures |r| == |docs| && forall p :: p in r <==> p in docs
    ensures forall i, j :: 0 <= i < j < |r| ==> r[i].createdAt >= r[j].createdAt
  {
    var r := Newest(docs);
    assert forall p :: p in r <==> p in multiset(r);
    assert forall i, j :: 0 <= i < j < |r| ==> NegCreatedAt(r[i]) <= NegCreatedAt(r[j]);
    r
  }

  /** `result.sort(cmp)`: the effect's own array of the filtered products,
      sorted in place. */
  method SortedCopy(s: seq<Product>, key: Product -> int) returns (r: seq<Product>)
    ensures r == Ordering.SortBy(s, key)
  {
    var a := new Product[|s|](i requires 0 <= i < |s| => s[i]);
    assert a[..] == s;
    Ordering.SortInPlace(a, key);
    r := a[..];
  }

  /** The page's state. */
  class ShopView {
    const products: seq<Product>
    var filter: string
    var sort: string
    var search: string
    var filteredProducts: seq<Product>

    constructor (products: seq<Product>)
      ensures this.products == products && filter == "all" && sort == "newest" && search == ""
      ensures filteredProducts == products
    {
      this.products := products;
      filter := "all";
      sort := "newest";
      search := "";
      filteredProducts := products;
    }

    /** The effect: filter by search and category, copy, and sort the copy
        in place. */
    method ApplyFilters()
      modifies this
      ensures Arranged(filteredProducts, products, search, filter, sort)
      ensures filter == old(filter) && sort == old(sort) && search == old(search)
    {
      var result := products;
      if Searching(search) {
        result := Seqs.Filter(result, SearchTest(search));
      }
      if filter != "all" {
        result := Seqs.Filter(result, CategoryTest(filter));
      }
      assert result == Visible(products, search, filter);
      var (key, sorting) := SortKey(sort);
      if sorting {
        result := SortedCopy(result, key);
      }
      ArrangedBySort(result, products, search, filter, sort);
      filteredProducts := result;
    }

    method SetFilter(category: string)
      modifies this
      ensures filter == category && sort == old(sort) && search == old(search)
      ensures Arranged(filteredProducts, products, search, category, sort)
    {
      filter := category;
      ApplyFilters();
    }

    method SetSort(order: string)
      modifies this
      ensures sort == order && filter == old(filter) && search == old(search)
      ensures Arranged(filteredProducts, products, search, filter, order)
    {
      sort := order;
      ApplyFilters();
    }

    method SetSearch(text: string)
      modifies this
      ensures search == text && filter == old(filter) && sort == old(sort)
      ensures Arranged(filteredProducts, products, text, filter, sort)
    {
      search := text;
      ApplyFilters();
    }
  }
}
