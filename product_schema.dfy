/** The Product collection: its schema (required fields, numeric floors,
    the category enum, defaults) and the `pre('save')` hook that derives the
    URL slug from the name. */
module ProductSchema {
  import opened Wrappers
  import opened Records
  import opened Http
  import opened Text
  import Seqs
  import Ordering

  datatype Product = Product(
    id: Id,
    name: string,
    slug: string,
    description: string,
    price: int,
    category: string,
    brand: string,
    sizes: seq<string>,
    colors: seq<string>,
    stock: int,
    images: seq<string>,
    ratings: int,
    numOfReviews: int,
    createdAt: int)

  predicate IsCategory(c: string) {
    c == "Men" || c == "Women" || c == "Children"
  }

  const DefaultBrand: string := "KickStreet"

  /** ---------------------------------------------------------------------
      Slug derivation: lowercase, trim, delete what is not `[\w\s-]`,
      collapse each run of `[\s_-]` to one `-`, strip `-` at both ends.
      --------------------------------------------------------------------- */

  /** The characters `/[^\w\s-]/g` does not delete. */
  predicate KeepInSlug(c: char) { IsWordChar(c) || IsSpace(c) || c == '-' }

  /** The characters of the class `[\s_-]`. */
  predicate IsSeparator(c: char) { IsSpace(c) || c == '_' || c == '-' }

  /** `.replace(/[^\w\s-]/g, '')` */
  function RemoveDisallowed(s: string): (r: string)
    ensures forall i :: 0 <= i < |r| ==> KeepInSlug(r[i])
    ensures forall c :: c in r <==> c in s && KeepInSlug(c)
    ensures Seqs.IsSubsequence(r, s)
  {
    var r := Seqs.Filter(s, KeepInSlug);
    Seqs.FilterMembers(s, KeepInSlug);
    Seqs.FilterIsSubsequence(s, KeepInSlug);
    r
  }

  /** Drops the run of separators at the front of `s`. */
  function SkipSeparators(s: string): (r: string)
    ensures |r| <= |s| && r == s[|s| - |r|..]
    ensures |r| > 0 ==> !IsSeparator(r[0])
    ensures forall i :: 0 <= i < |s| - |r| ==> IsSeparator(s[i])
  {
    if |s| > 0 && IsSeparator(s[0]) then SkipSeparators(s[1..]) else s
  }

  /** The characters a slug keeps apart from its hyphens. */
  function NonSeparators(s: string): string {
    Seqs.Filter(s, (c: char) => !IsSeparator(c))
  }

  lemma {:induction false} NonSeparatorsOfSkipped(s: string)
    ensures NonSeparators(SkipSeparators(s)) == NonSeparators(s)
  {
    if |s| > 0 && IsSeparator(s[0]) {
      NonSeparatorsOfSkipped(s[1..]);
    }
  }

  predicate NoDoubleHyphen(s: string) {
    forall i :: 0 <= i < |s| - 1 ==> !(s[i] == '-' && s[i + 1] == '-')
  }

  /** `.replace(/[\s_-]+/g, '-')`: each maximal run of separators becomes a
      single hyphen and every other character is kept, in order. */
  function CollapseSeparators(s: string): (r: string)
    ensures |s| > 0 ==> |r| > 0 && r[0] == (if IsSeparator(s[0]) then '-' else s[0])
    decreases |s|
  {
    if |s| == 0 then ""
    else if IsSeparator(s[0]) then ['-'] + CollapseSeparators(SkipSeparators(s[1..]))
    else [s[0]] + CollapseSeparators(s[1..])
  }

  /** Collapsing produces hyphens and characters of `s` that are not
      separators, and nothing else. */
  lemma {:induction false} CollapseChars(s: string)
    ensures forall c :: c in CollapseSeparators(s) ==> c == '-' || (c in s && !IsSeparator(c))
    decreases |s|
  {
    if |s| > 0 {
      if IsSeparator(s[0]) {
        var t := SkipSeparators(s[1..]);
        CollapseChars(t);
        assert forall c :: c in t ==> c in s;
      } else {
        CollapseChars(s[1..]);
      }
    }
  }

  /** No two hyphens are adjacent after collapsing. */
  lemma {:induction false} CollapseNoDoubleHyphen(s: string)
    ensures NoDoubleHyphen(CollapseSeparators(s))
    decreases |s|
  {
    if |s| > 0 {
      var r := CollapseSeparators(s);
      var rest := if IsSeparator(s[0]) then SkipSeparators(s[1..]) else s[1..];
      CollapseNoDoubleHyphen(rest);
      assert r[1..] == CollapseSeparators(rest);
    }
  }

  /** Collapsing keeps every non-separator character, in order. */
  lemma {:induction false} CollapseNonSeparators(s: string)
    ensures NonSeparators(CollapseSeparators(s)) == NonSeparators(s)
    decreases |s|
  {
    if |s| > 0 {
      var r := CollapseSeparators(s);
      assert r == [r[0]] + r[1..];
      assert s == [s[0]] + s[1..];
      if IsSeparator(s[0]) {
        var t := SkipSeparators(s[1..]);
        CollapseNonSeparators(t);
        NonSeparatorsOfSkipped(s[1..]);
        assert r[1..] == CollapseSeparators(t);
      } else {
        CollapseNonSeparators(s[1..]);
        assert r[1..] == CollapseSeparators(s[1..]);
      }
    }
  }

  function StripLeadingHyphens(s: string): (r: string)
    ensures |r| <= |s| && r == s[|s| - |r|..]
    ensures |r| > 0 ==> r[0] != '-'
    ensures forall i :: 0 <= i < |s| - |r| ==> s[i] == '-'
  {
    if |s| > 0 && s[0] == '-' then
      var r := StripLeadingHyphens(s[1..]);
      assert s[1..][|s| - 1 - |r|..] == s[|s| - |r|..];
      r
    else s
  }

  function StripTrailingHyphens(s: string): (r: string)
    ensures |r| <= |s| && r == s[..|r|]
    ensures |r| > 0 ==> r[|r| - 1] != '-'
    ensures forall i :: |r| <= i < |s| ==> s[i] == '-'
  {
    if |s| > 0 && s[|s| - 1] == '-' then StripTrailingHyphens(s[..|s| - 1]) else s
  }

  /** `.replace(/^-+|-+$/g, '')`: the infix of `s` between its leading and
      its trailing hyphens. */
  function StripHyphens(s: string): (r: string)
    ensures InfixAt(s, r, |s| - |StripLeadingHyphens(s)|)
    ensures |r| > 0 ==> r[0] != '-' && r[|r| - 1] != '-'
  {
    var t := StripLeadingHyphens(s);
    var r := StripTrailingHyphens(t);
    assert s[|s| - |t|..][..|r|] == r;
    r
  }

  /** Stripping keeps only characters of `s` and creates no `--`. */
  lemma StripHyphensKeeps(s: string)
    ensures NoDoubleHyphen(s) ==> NoDoubleHyphen(StripHyphens(s))
    ensures forall c :: c in StripHyphens(s) ==> c in s
  {
    var r := StripHyphens(s);
    var k := |s| - |StripLeadingHyphens(s)|;
    assert forall i :: 0 <= i < |r| ==> r[i] == s[k + i];
  }

  /** The slug the `pre('save')` hook computes from a product name. */
  function Slugify(name: string): string {
    StripHyphens(CollapseSeparators(RemoveDisallowed(Trim(ToLower(name)))))
  }

  predicate IsSlugChar(c: char) { IsLower(c) || IsDigit(c) || c == '-' }

  /** A well-formed slug: lowercase letters, digits and single hyphens, with
      no hyphen at either end. */
  predicate IsSlug(s: string) {
    && (forall i :: 0 <= i < |s| ==> IsSlugChar(s[i]))
    && NoDoubleHyphen(s)
    && (|s| > 0 ==> s[0] != '-' && s[|s| - 1] != '-')
  }

  /** A character that survives every step of the derivation is a slug
      character. */
  lemma SlugCharOfKept(c: char)
    requires !IsUpper(c) && KeepInSlug(c)
    ensures c == '-' || !IsSeparator(c) ==> IsSlugChar(c)
  {
  }

  /** Every derived slug is well formed: no `_`, no white space, no upper
      case, no `--`, no hyphen at either end. */
  lemma SlugifyIsSlug(name: string)
    ensures IsSlug(Slugify(name))
  {
    var l := ToLower(name);
    var t := Trim(l);
    TrimChars(l);
    var f := RemoveDisallowed(t);
    var c := CollapseSeparators(f);
    CollapseChars(f);
    CollapseNoDoubleHyphen(f);
    var s := StripHyphens(c);
    StripHyphensKeeps(c);
    assert s == Slugify(name);
    forall ch | ch in c ensures IsSlugChar(ch) {
      if ch != '-' {
        assert ch in f && ch in l;
        var i :| 0 <= i < |l| && l[i] == ch;
        SlugCharOfKept(ch);
      }
    }
    forall i | 0 <= i < |s| ensures IsSlugChar(s[i]) {
      assert s[i] in c;
    }
  }

  /** A string of slug characters without `--` collapses to itself. */
  lemma {:induction false} CollapseIdentity(s: string)
    requires forall i :: 0 <= i < |s| ==> IsSlugChar(s[i])
    requires NoDoubleHyphen(s)
    ensures CollapseSeparators(s) == s
    decreases |s|
  {
    if |s| > 0 {
      CollapseIdentity(s[1..]);
      if s[0] == '-' {
        assert |s| > 1 ==> s[1] != '-';
        assert SkipSeparators(s[1..]) == s[1..];
        assert CollapseSeparators(s) == ['-'] + s[1..];
      } else {
        assert CollapseSeparators(s) == [s[0]] + s[1..];
      }
      assert s == [s[0]] + s[1..];
    }
  }

  lemma StripIdentity(s: string)
    requires |s| > 0 ==> s[0] != '-' && s[|s| - 1] != '-'
    ensures StripHyphens(s) == s
  {
    assert StripLeadingHyphens(s) == s;
    assert StripTrailingHyphens(s) == s;
  }

  /** A well-formed slug is its own slug. */
  lemma SlugifyFixesSlugs(s: string)
    requires IsSlug(s)
    ensures Slugify(s) == s
  {
    ToLowerIdentity(s);
    TrimIdentity(s);
    Seqs.FilterAll(s, KeepInSlug);
    assert RemoveDisallowed(s) == s;
    CollapseIdentity(s);
    StripIdentity(s);
  }

  /** Deriving the slug twice gives the same slug as deriving it once. */
  lemma SlugifyIdempotent(name: string)
    ensures Slugify(Slugify(name)) == Slugify(name)
  {
    SlugifyIsSlug(name);
    SlugifyFixesSlugs(Slugify(name));
  }

  /** The `lowercase: true` setter on `slug` leaves a derived slug as is. */
  lemma SlugIsLowercase(name: string)
    ensures ToLower(Slugify(name)) == Slugify(name)
  {
    SlugifyIsSlug(name);
  }

  /** A stretch without separators passes through collapsing unchanged. */
  lemma {:induction false} CollapseKeepsWord(w: string, t: string)
    requires forall i :: 0 <= i < |w| ==> !IsSeparator(w[i])
    ensures CollapseSeparators(w + t) == w + CollapseSeparators(t)
    decreases |w|
  {
    if |w| == 0 {
      assert w + t == t;
    } else {
      var u := w + t;
      assert u[0] == w[0] && u[1..] == w[1..] + t;
      CollapseKeepsWord(w[1..], t);
      assert CollapseSeparators(u) == [w[0]] + CollapseSeparators(u[1..]);
      assert w == [w[0]] + w[1..];
    }
  }

  /** A word: a non-empty stretch without separators. */
  predicate IsWord(w: string) {
    |w| > 0 && forall i :: 0 <= i < |w| ==> !IsSeparator(w[i])
  }

  /** A single space before a word becomes a single hyphen. */
  lemma SpaceBeforeWord(w: string, t: string)
    requires IsWord(w)
    ensures CollapseSeparators([' '] + (w + t)) == ['-'] + (w + CollapseSeparators(t))
  {
    assert ([' '] + (w + t))[1..] == w + t;
    assert SkipSeparators(w + t) == w + t;
    CollapseKeepsWord(w, t);
  }

  /** Words separated by single spaces come out joined by single hyphens. */
  lemma {:induction false} CollapseWords(ws: seq<string>)
    requires |ws| > 0 && forall k :: 0 <= k < |ws| ==> IsWord(ws[k])
    ensures CollapseSeparators(Join(ws, ' ')) == Join(ws, '-')
  {
    if |ws| == 1 {
      CollapseKeepsWord(ws[0], "");
      assert ws[0] + "" == ws[0];
    } else {
      CollapseWords(ws[1..]);
      CollapseWordsStep(ws[0], ws[1..]);
      assert Join(ws, ' ') == ws[0] + [' '] + Join(ws[1..], ' ');
      assert Join(ws, '-') == ws[0] + ['-'] + Join(ws[1..], '-');
    }
  }

  /** One more word in front of a collapsed run of words. */
  lemma CollapseWordsStep(w: string, rest: seq<string>)
    requires IsWord(w) && |rest| > 0 && IsWord(rest[0])
    requires CollapseSeparators(Join(rest, ' ')) == Join(rest, '-')
    ensures CollapseSeparators(w + [' '] + Join(rest, ' ')) == w + ['-'] + Join(rest, '-')
  {
    var j := Join(rest, ' ');
    var h := Join(rest, '-');
    assert CollapseSeparators([' '] + j) == ['-'] + h by {
      assert j[0] == rest[0][0];
      SpaceBeforeRun(j);
    }
    assert CollapseSeparators(w + ([' '] + j)) == w + (['-'] + h) by {
      CollapseKeepsWord(w, [' '] + j);
    }
    assert w + [' '] + j == w + ([' '] + j);
    assert w + ['-'] + h == w + (['-'] + h);
  }

  /** A single space before a non-separator becomes a single hyphen. */
  lemma SpaceBeforeRun(j: string)
    requires |j| > 0 && !IsSeparator(j[0])
    ensures CollapseSeparators([' '] + j) == ['-'] + CollapseSeparators(j)
  {
    assert ([' '] + j)[1..] == j;
    assert SkipSeparators(j) == j;
  }

  /** The words of the worked example below. */
  lemma ExampleWords(ws: seq<string>)
    requires ws == ["nike", "air", "max", "270"]
    ensures forall k :: 0 <= k < |ws| ==> IsWord(ws[k])
  {
  }

  lemma ExampleJoinSpaces(ws: seq<string>)
    requires ws == ["nike", "air", "max", "270"]
    ensures Join(ws, ' ') == "nike air max 270"
  {
    assert Join(ws[3..], ' ') == "270";
    assert Join(ws[2..], ' ') == "max 270";
    assert Join(ws[1..], ' ') == "air max 270";
  }

  lemma ExampleJoinHyphens(ws: seq<string>)
    requires ws == ["nike", "air", "max", "270"]
    ensures Join(ws, '-') == "nike-air-max-270"
  {
    assert Join(ws[3..], '-') == "270";
    assert Join(ws[2..], '-') == "max-270";
    assert Join(ws[1..], '-') == "air-max-270";
  }

  lemma ExampleCleaned(name: string)
    requires name == "Nike Air Max 270!!"
    ensures Trim(ToLower(name)) == "nike air max 270!!"
  {
    var l := ToLower(name);
    assert l == "nike air max 270!!";
    TrimIdentity(l);
  }

  lemma ExampleKept()
    ensures forall i :: 0 <= i < |"nike air max 270"| ==> KeepInSlug("nike air max 270"[i])
  {
  }

  lemma ExampleDropped()
    ensures Seqs.Filter("!!", KeepInSlug) == []
  {
  }

  lemma ExampleRemoved()
    ensures RemoveDisallowed("nike air max 270!!") == "nike air max 270"
  {
    var kept := "nike air max 270";
    assert "nike air max 270!!" == kept + "!!";
    Seqs.FilterAppend(kept, "!!", KeepInSlug);
    ExampleKept();
    Seqs.FilterAll(kept, KeepInSlug);
    ExampleDropped();
  }

  /** The worked example of the hook: "Nike Air Max 270!!" gets the slug
      "nike-air-max-270". */
  lemma SlugifyExample(name: string)
    requires name == "Nike Air Max 270!!"
    ensures Slugify(name) == "nike-air-max-270"
  {
    var words := ["nike", "air", "max", "270"];
    ExampleWords(words);
    ExampleJoinSpaces(words);
    ExampleJoinHyphens(words);
    ExampleCleaned(name);
    ExampleRemoved();
    CollapseWords(words);
    StripIdentity(Join(words, '-'));
  }

  /** ---------------------------------------------------------------------
      Schema validation and defaults.
      --------------------------------------------------------------------- */

  /** What a caller hands to `Product.create`: every field may be absent. */
  datatype ProductInput = ProductInput(
    name: Option<string>,
    description: Option<string>,
    price: Option<int>,
    category: Option<string>,
    brand: Option<string>,
    sizes: seq<string>,
    colors: seq<string>,
    stock: Option<int>,
    images: seq<string>)

  /** Every rule of the schema holds of the input: name (after its `trim`
      setter) and description present, price present and at least 0, the
      category one of the three, stock (0 when absent) at least 0, and no
      empty size or image. */
  predicate ValidInput(input: ProductInput) {
    && input.name.Some? && |Trim(input.name.value)| > 0
    && Truthy(input.description)
    && input.price.Some? && input.price.value >= 0
    && input.category.Some? && IsCategory(input.category.value)
    && input.stock.GetOr(0) >= 0
    && (forall i :: 0 <= i < |input.sizes| ==> |input.sizes[i]| > 0)
    && (forall i :: 0 <= i < |input.images| ==> |input.images[i]| > 0)
  }

  /** What every stored product satisfies. */
  predicate WellFormed(p: Product) {
    && |p.name| > 0 && Trim(p.name) == p.name
    && p.price >= 0
    && IsCategory(p.category)
    && p.stock >= 0
    && IsSlug(p.slug)
  }

  /** The slug the `pre('save')` hook stores: the derived slug passed
      through the `lowercase: true` setter of `slug`. */
  function StoredSlug(name: string): (r: string)
    ensures r == Slugify(name)
  {
    SlugIsLowercase(name);
    ToLower(Slugify(name))
  }

  /** The document `Product.create(input)` validates and saves, before the
      unique indexes are consulted: the defaults filled in (brand
      "KickStreet", stock 0, ratings 0, reviews 0), `createdAt` the clock,
      and the slug derived from the trimmed name. */
  function NewProduct(input: ProductInput, id: Id, now: int): (r: Result<Product, SaveError>)
    ensures r.Ok? <==> ValidInput(input)
    ensures r.Ok? ==> WellFormed(r.value)
    ensures r.Ok? ==> && r.value.id == id && r.value.createdAt == now
                      && r.value.name == Trim(input.name.value)
                      && r.value.price == input.price.value
                      && r.value.category == input.category.value
                      && r.value.brand == input.brand.GetOr(DefaultBrand)
                      && r.value.stock == input.stock.GetOr(0)
                      && r.value.sizes == input.sizes && r.value.colors == input.colors
                      && r.value.images == input.images
                      && r.value.ratings == 0 && r.value.numOfReviews == 0
  {
    if !ValidInput(input) then Err(ValidationError)
    else
      var name := Trim(input.name.value);
      TrimIdentity(name);
      SlugifyIsSlug(name);
      Ok(Product(id, name, StoredSlug(name), input.description.value, input.price.value,
                 input.category.value, input.brand.GetOr(DefaultBrand), input.sizes,
                 input.colors, input.stock.GetOr(0), input.images, 0, 0, now))
  }

  /** No two stored products share a name or a slug (the two unique
      indexes). */
  predicate UniqueKeys(docs: seq<Product>) {
    forall i, j :: 0 <= i < j < |docs| ==> docs[i].name != docs[j].name && docs[i].slug != docs[j].slug
  }

  predicate Clashes(docs: seq<Product>, p: Product) {
    exists i :: 0 <= i < |docs| && (docs[i].name == p.name || docs[i].slug == p.slug)
  }

  /** Appending a well-formed product that clashes with none keeps the
      collection well formed and its keys unique. */
  lemma InsertKeepsValid(docs: seq<Product>, p: Product)
    requires UniqueKeys(docs) && forall i :: 0 <= i < |docs| ==> WellFormed(docs[i])
    requires WellFormed(p) && !Clashes(docs, p)
    ensures UniqueKeys(docs + [p]) && forall i :: 0 <= i < |docs + [p]| ==> WellFormed((docs + [p])[i])
  {
    var d := docs + [p];
    forall i, j | 0 <= i < j < |d|
      ensures d[i].name != d[j].name && d[i].slug != d[j].slug
    {
      assert d[i] == docs[i];
      if j < |docs| {
        assert d[j] == docs[j];
      }
    }
    forall i | 0 <= i < |d|
      ensures WellFormed(d[i])
    {
      if i < |docs| {
        assert d[i] == docs[i];
      }
    }
  }

  /** The position of the first document whose `_id` is `id`, which
      `findById` reads. */
  function IndexOfId(docs: seq<Product>, id: Id): (r: Option<nat>)
    ensures r.Some? ==> r.value < |docs| && docs[r.value].id == id
    ensures r.Some? ==> forall i :: 0 <= i < r.value ==> docs[i].id != id
    ensures r.None? ==> forall i :: 0 <= i < |docs| ==> docs[i].id != id
  {
    if |docs| == 0 then None
    else if docs[0].id == id then Some(0)
    else match IndexOfId(docs[1..], id) {
      case None => None
      case Some(k) => Some(k + 1)
    }
  }

  /** `b` is `a` with at most the stock counts changed. */
  predicate SameButStock(a: seq<Product>, b: seq<Product>) {
    |a| == |b| && forall i :: 0 <= i < |a| ==> b[i] == a[i].(stock := b[i].stock)
  }

  predicate NoNegativeStock(docs: seq<Product>) {
    forall i :: 0 <= i < |docs| ==> docs[i].stock >= 0
  }

  /** Changing stock counts moves no document: every lookup by id finds
      the same position. */
  lemma SameButStockIndex(a: seq<Product>, b: seq<Product>, id: Id)
    requires SameButStock(a, b)
    ensures IndexOfId(b, id) == IndexOfId(a, id)
  {
    assert forall i :: 0 <= i < |a| ==> a[i].id == b[i].id;
  }

  /** A well-formed collection whose stock counts change stays well formed
      as long as no count goes negative. */
  lemma SameButStockKeepsValid(a: seq<Product>, b: seq<Product>)
    requires UniqueKeys(a) && forall i :: 0 <= i < |a| ==> WellFormed(a[i])
    requires SameButStock(a, b) && forall i :: 0 <= i < |b| ==> b[i].stock >= 0
    ensures UniqueKeys(b) && forall i :: 0 <= i < |b| ==> WellFormed(b[i])
  {
    forall i, j | 0 <= i < j < |b|
      ensures b[i].name != b[j].name && b[i].slug != b[j].slug
    {
      assert b[i].name == a[i].name && b[j].name == a[j].name;
    }
  }

  /** A product document being saved, with the flag `isModified('name')`
      reports. */
  class ProductDocument {
    var doc: Product
    var nameModified: bool

    constructor (doc: Product, nameModified: bool)
      ensures this.doc == doc && this.nameModified == nameModified
    {
      this.doc := doc;
      this.nameModified := nameModified;
    }

    /** The `pre('save')` hook: recomputes the slug when the name was
        modified and leaves every other field, and otherwise the slug,
        as it was. */
    method PreSave()
      modifies this`doc
      ensures nameModified ==> doc == old(doc).(slug := Slugify(old(doc).name))
      ensures !nameModified ==> doc == old(doc)
    {
      if nameModified {
        doc := doc.(slug := StoredSlug(doc.name));
      }
    }
  }

  /** The `products` collection. */
  class ProductCollection {
    var docs: seq<Product>

    ghost predicate Valid()
      reads this
    {
      UniqueKeys(docs) && forall i :: 0 <= i < |docs| ==> WellFormed(docs[i])
    }

    constructor ()
      ensures docs == [] && Valid()
    {
      docs := [];
    }

    /** Whether the unique indexes refuse `p`. */
    method Clashing(p: Product) returns (clash: bool)
      ensures clash == Clashes(docs, p)
    {
      var i := 0;
      while i < |docs|
        invariant 0 <= i <= |docs|
        invariant forall k :: 0 <= k < i ==> docs[k].name != p.name && docs[k].slug != p.slug
      {
        if docs[i].name == p.name || docs[i].slug == p.slug {
          return true;
        }
        i := i + 1;
      }
      return false;
    }

    /** `Product.create(input)`: validation first, then the hook, then the
        insert, which the unique indexes refuse when the name or the slug
        is taken. */
    method Create(input: ProductInput, id: Id, now: int) returns (r: Result<Product, SaveError>)
      requires Valid()
      modifies this
      ensures Valid()
      ensures NewProduct(input, id, now).Err? ==> r == NewProduct(input, id, now) && docs == old(docs)
      ensures NewProduct(input, id, now).Ok? ==>
        var p := NewProduct(input, id, now).value;
        if Clashes(old(docs), p) then r == Err(DuplicateKey) && docs == old(docs)
        else r == Ok(p) && docs == old(docs) + [p]
    {
      var candidate := NewProduct(input, id, now);
      if candidate.Err? {
        return candidate;
      }
      var p := candidate.value;
      var clash := Clashing(p);
      if clash {
        return Err(DuplicateKey);
      }
      InsertKeepsValid(docs, p);
      docs := docs + [p];
      r := Ok(p);
    }

    /** `Product.findById(id)`. */
    method FindById(id: Id) returns (r: Option<Product>)
      ensures r.None? <==> forall i :: 0 <= i < |docs| ==> docs[i].id != id
      ensures r.Some? ==> IndexOfId(docs, id).Some? && r.value == docs[IndexOfId(docs, id).value]
    {
      var k := IndexOfId(docs, id);
      r := if k.Some? then Some(docs[k.value]) else None;
    }

    /** `Product.findByIdAndUpdate(id, { $inc: { stock: delta } })`: an
        update that runs no validator, so nothing keeps the count from
        going negative. */
    method IncrementStock(id: Id, delta: int)
      modifies this
      ensures IndexOfId(old(docs), id).None? ==> docs == old(docs)
      ensures IndexOfId(old(docs), id).Some? ==>
        var k := IndexOfId(old(docs), id).value;
        docs == old(docs)[k := old(docs)[k].(stock := old(docs)[k].stock + delta)]
    {
      var k := IndexOfId(docs, id);
      if k.Some? {
        docs := docs[k.value := docs[k.value].(stock := docs[k.value].stock + delta)];
      }
    }

    /** `Product.find({}).sort({ createdAt: -1 })`. */
    method NewestFirst() returns (r: seq<Product>)
      ensures r == Ordering.SortBy(docs, NegCreatedAt)
      ensures Ordering.SortedBy(r, NegCreatedAt)
      ensures multiset(r) == multiset(docs)
    {
      r := Ordering.SortBy(docs, NegCreatedAt);
    }
  }

  /** The key of a newest-first order. */
  function NegCreatedAt(p: Product): int { -p.createdAt }

  /** Newest first: each product is at least as recent as every later one. */
  lemma NewestFirstOrder(s: seq<Product>, i: int, j: int)
    requires Ordering.SortedBy(s, NegCreatedAt) && 0 <= i < j < |s|
    ensures s[i].createdAt >= s[j].createdAt
  {
    assert NegCreatedAt(s[i]) <= NegCreatedAt(s[j]);
  }
}

