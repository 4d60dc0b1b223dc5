/** The admin "add product" form: the size filter on chosen image files,
    and the request body `handleSubmit` builds from the form's strings. */
module AddProduct {
  import opened Wrappers
  import opened Text

  /** The form's fields, all strings as the inputs hold them. */
  datatype ProductForm = ProductForm(
    name: string,
    description: string,
    price: string,
    category: string,
    stock: string,
    sizes: string,
    colors: string)

  /** The form as it starts and as a successful submit leaves it. */
  const EmptyForm := ProductForm("", "", "", "Men", "", "", "")

  /** The largest image file the form reads: 5 MB. */
  const MaxImageBytes: nat := 5 * 1024 * 1024

  /** A chosen file: its size and the data URL `readAsDataURL` yields. */
  datatype ImageFile = ImageFile(size: nat, dataUrl: string)

  predicate Oversized(f: ImageFile) { f.size > MaxImageBytes }

  /** ---------------------------------------------------------------------
      `Number(s)` on integers.
      --------------------------------------------------------------------- */

  /** `Number(s)` for the strings that denote integers: blank is 0, and an
      optionally signed run of decimal digits is its value, whitespace
      around it ignored. Anything else is `None` (JavaScript's NaN, or a
      non-integer this model does not represent). */
  function NumberOf(s: string): (r: Option<int>)
    ensures Trim(s) == "" ==> r == Some(0)
    ensures |Trim(s)| > 0 && AllDigits(Trim(s)) ==> r == Some(DigitsValue(Trim(s)))
    ensures r.Some? && r.value < 0 ==> Trim(s)[0] == '-'
  {
    var t := Trim(s);
    if |t| == 0 then Some(0)
    else if AllDigits(t) then Some(DigitsValue(t))
    else if |t| > 1 && (t[0] == '-' || t[0] == '+') && AllDigits(t[1..]) then
      var v: int := DigitsValue(t[1..]);
      if t[0] == '-' then Some(0 - v) else Some(v)
    else None
  }

  /** Reading back a number's decimal digits gives the number. */
  lemma NumberOfDecimal(n: nat)
    ensures NumberOf(NatToString(n)) == Some(n)
  {
    var s := NatToString(n);
    assert !IsSpace(s[0]) && !IsSpace(s[|s| - 1]);
    TrimIdentity(s);
    NatToStringValue(n);
  }

  /** Whitespace around a number does not change it. */
  lemma NumberOfPadded(n: nat)
    ensures NumberOf(" " + NatToString(n) + " ") == Some(n)
  {
    var s := NatToString(n);
    assert Trim(" " + s + " ") == s by {
      TrimPadded(s);
    }
    NumberOfDecimal(n);
    assert Trim(s) == s by {
      TrimIdentity(s);
    }
  }

  /** One space on each side of a trimmed, non-empty string is cut off. */
  lemma TrimPadded(s: string)
    requires |s| > 0 && !IsSpace(s[0]) && !IsSpace(s[|s| - 1])
    ensures Trim(" " + s + " ") == s
  {
    var padded := " " + s + " ";
    assert TrimStart(padded) == s + " " by {
      assert padded[1..] == s + " ";
    }
    assert TrimEnd(s + " ") == s by {
      assert (s + " ")[..|s|] == s;
    }
  }

  /** ---------------------------------------------------------------------
      The comma lists.
      --------------------------------------------------------------------- */

  /** `raw.split(',').map(s => s.trim().toUpperCase())`. */
  function ParseSizes(raw: string): (r: seq<string>)
    ensures |r| == Count(raw, ',') + 1
    ensures forall i :: 0 <= i < |r| ==> r[i] == ToUpper(Trim(Split(raw, ',')[i]))
  {
    var pieces := Split(raw, ',');
    seq(|pieces|, i requires 0 <= i < |pieces| => ToUpper(Trim(pieces[i])))
  }

  /** `raw.split(',').map(c => c.trim().toLowerCase())`. */
  function ParseColors(raw: string): (r: seq<string>)
    ensures |r| == Count(raw, ',') + 1
    ensures forall i :: 0 <= i < |r| ==> r[i] == ToLower(Trim(Split(raw, ',')[i]))
  {
    var pieces := Split(raw, ',');
    seq(|pieces|, i requires 0 <= i < |pieces| => ToLower(Trim(pieces[i])))
  }

  /** A list entry as the form writes it: no comma, no space at either end. */
  predicate Clean(s: string) {
    ',' !in s && (|s| > 0 ==> !IsSpace(s[0]) && !IsSpace(s[|s| - 1]))
  }

  /** A trimmed piece has no space at either end and no comma the piece
      did not have; case mapping keeps both. */
  lemma CleanPiece(piece: string)
    requires ',' !in piece
    ensures Clean(ToUpper(Trim(piece))) && Clean(ToLower(Trim(piece)))
  {
    var t := Trim(piece);
    assert Clean(t) by {
      TrimChars(piece);
    }
    UpperKeepsClean(t);
    LowerKeepsClean(t);
  }

  lemma UpperKeepsClean(t: string)
    requires Clean(t)
    ensures Clean(ToUpper(t))
  {
    forall k | 0 <= k < |t| ensures ToUpper(t)[k] != ',' {
      assert t[k] in t;
    }
  }

  lemma LowerKeepsClean(t: string)
    requires Clean(t)
    ensures Clean(ToLower(t))
  {
    forall k | 0 <= k < |t| ensures ToLower(t)[k] != ',' {
      assert t[k] in t;
    }
  }

  /** Every parsed size is clean and has no lower-case letter. */
  lemma SizesShape(raw: string)
    ensures forall i :: 0 <= i < |ParseSizes(raw)| ==> Clean(ParseSizes(raw)[i])
    ensures forall i, k :: 0 <= i < |ParseSizes(raw)| && 0 <= k < |ParseSizes(raw)[i]| ==> !IsLower(ParseSizes(raw)[i][k])
  {
    var pieces := Split(raw, ',');
    forall i | 0 <= i < |pieces|
      ensures Clean(ParseSizes(raw)[i])
    {
      CleanPiece(pieces[i]);
    }
  }

  /** Every parsed color is clean and has no upper-case letter. */
  lemma ColorsShape(raw: string)
    ensures forall i :: 0 <= i < |ParseColors(raw)| ==> Clean(ParseColors(raw)[i])
    ensures forall i, k :: 0 <= i < |ParseColors(raw)| && 0 <= k < |ParseColors(raw)[i]| ==> !IsUpper(ParseColors(raw)[i][k])
  {
    var pieces := Split(raw, ',');
    forall i | 0 <= i < |pieces|
      ensures Clean(ParseColors(raw)[i])
    {
      CleanPiece(pieces[i]);
    }
  }

  /** Writing clean upper-case sizes with commas between them and parsing
      the result gives them back. */
  lemma ParseSizesJoin(sizes: seq<string>)
    requires |sizes| > 0
    requires forall i :: 0 <= i < |sizes| ==> Clean(sizes[i])
    requires forall i, k :: 0 <= i < |sizes| && 0 <= k < |sizes[i]| ==> !IsLower(sizes[i][k])
    ensures ParseSizes(Join(sizes, ',')) == sizes
  {
    SplitJoin(sizes, ',');
    forall i | 0 <= i < |sizes|
      ensures ToUpper(Trim(sizes[i])) == sizes[i]
    {
      TrimIdentity(sizes[i]);
      ToUpperIdentity(sizes[i]);
    }
  }

  /** Writing clean lower-case colors with commas between them and parsing
      the result gives them back. */
  lemma ParseColorsJoin(colors: seq<string>)
    requires |colors| > 0
    requires forall i :: 0 <= i < |colors| ==> Clean(colors[i])
    requires forall i, k :: 0 <= i < |colors| && 0 <= k < |colors[i]| ==> !IsUpper(colors[i][k])
    ensures ParseColors(Join(colors, ',')) == colors
  {
    SplitJoin(colors, ',');
    forall i | 0 <= i < |colors|
      ensures ToLower(Trim(colors[i])) == colors[i]
    {
      TrimIdentity(colors[i]);
      ToLowerIdentity(colors[i]);
    }
  }

  /** Parsing is idempotent: the parsed sizes, written back as a list,
      parse to themselves. */
  lemma ParseSizesIdempotent(raw: string)
    ensures ParseSizes(Join(ParseSizes(raw), ',')) == ParseSizes(raw)
  {
    SizesShape(raw);
    ParseSizesJoin(ParseSizes(raw));
  }

  /** An empty sizes field is sent as one empty size, not as no sizes. */
  lemma EmptySizesField()
    ensures ParseSizes("") == [""] && ParseColors("") == [""]
  {
    assert Split("", ',') == [""];
  }

  /** ---------------------------------------------------------------------
      The image filter.
      --------------------------------------------------------------------- */

  /** The data URLs of the files within the limit, in the order chosen. */
  function Accepted(files: seq<ImageFile>): (r: seq<string>)
    ensures |r| <= |files|
  {
    if |files| == 0 then []
    else (if Oversized(files[0]) then [] else [files[0].dataUrl]) + Accepted(files[1..])
  }

  /** How many files are refused with an alert. */
  function OversizedCount(files: seq<ImageFile>): (n: nat)
    ensures n <= |files|
  {
    if |files| == 0 then 0
    else (if Oversized(files[0]) then 1 else 0) + OversizedCount(files[1..])
  }

  lemma {:induction false} AcceptedAppend(a: seq<ImageFile>, f: ImageFile)
    ensures Accepted(a + [f]) == Accepted(a) + (if Oversized(f) then [] else [f.dataUrl])
    ensures OversizedCount(a + [f]) == OversizedCount(a) + (if Oversized(f) then 1 else 0)
  {
    if |a| > 0 {
      AcceptedAppend(a[1..], f);
      assert (a + [f])[1..] == a[1..] + [f];
    } else {
      assert a + [f] == [f];
    }
  }

  /** Each file is either read or refused: the two counts add up. */
  lemma {:induction false} AcceptedCount(files: seq<ImageFile>)
    ensures |Accepted(files)| + OversizedCount(files) == |files|
  {
    if |files| > 0 {
      AcceptedCount(files[1..]);
    }
  }

  /** A refused file does not stop the others: the accepted images are
      exactly the data URLs of the files within the limit. */
  lemma {:induction false} AcceptedMembers(files: seq<ImageFile>)
    ensures forall u :: u in Accepted(files) <==>
      exists i :: 0 <= i < |files| && !Oversized(files[i]) && files[i].dataUrl == u
  {
    if |files| > 0 {
      AcceptedMembers(files[1..]);
      forall u | (exists i :: 0 <= i < |files| && !Oversized(files[i]) && files[i].dataUrl == u)
        ensures u in Accepted(files)
      {
        var i :| 0 <= i < |files| && !Oversized(files[i]) && files[i].dataUrl == u;
        if i > 0 {
          assert files[1..][i - 1] == files[i];
        }
      }
    }
  }

  /** ---------------------------------------------------------------------
      The page.
      --------------------------------------------------------------------- */

  /** The body `handleSubmit` posts. `None` stands for what a NaN becomes
      in JSON. */
  datatype ProductData = ProductData(
    name: string,
    description: string,
    price: Option<int>,
    category: string,
    stock: Option<int>,
    sizes: seq<string>,
    colors: seq<string>,
    images: seq<string>)

  function BuildData(form: ProductForm, images: seq<string>): ProductData {
    ProductData(form.name, form.description, NumberOf(form.price), form.category,
                NumberOf(form.stock), ParseSizes(form.sizes), ParseColors(form.colors), images)
  }

  /** How the request ended. */
  datatype SubmitOutcome = Created | Rejected(message: Option<string>) | NetworkError

  const NoImages := "Please upload at least one image!"
  const TooLarge := "File too large! Max 5MB allowed."
  const Dropped := "Product Dropped to the Hype! \U{1F525}"

  class AddProductPage {
    var form: ProductForm
    var images: seq<string>
    var loading: bool
    var alerts: seq<string>

    constructor ()
      ensures form == EmptyForm && images == [] && !loading && alerts == []
    {
      form := EmptyForm;
      images := [];
      loading := false;
      alerts := [];
    }

    /** `handleImageChange`: each file over the limit raises its own
        alert; every other file is read and appended, in the order
        chosen. */
    method ChooseFiles(files: seq<ImageFile>)
      modifies this`images, this`alerts
      ensures images == old(images) + Accepted(files)
      ensures alerts == old(alerts) + seq(OversizedCount(files), _ => TooLarge)
    {
      var i := 0;
      while i < |files|
        invariant 0 <= i <= |files|
        invariant images == old(images) + Accepted(files[..i])
        invariant alerts == old(alerts) + seq(OversizedCount(files[..i]), _ => TooLarge)
      {
        var f := files[i];
        AcceptedAppend(files[..i], f);
        assert files[..i + 1] == files[..i] + [f];
        if Oversized(f) {
          alerts := alerts + [TooLarge];
        } else {
          images := images + [f.dataUrl];
        }
        i := i + 1;
      }
      assert files[..|files|] == files;
    }

    /** `handleSubmit` up to the request: with no image an alert and
        nothing sent; otherwise `loading` on and the body built from the
        form and the images. */
    method Submit() returns (request: Option<ProductData>)
      modifies this`loading, this`alerts
      ensures images == [] ==> request == None && alerts == old(alerts) + [NoImages] && loading == old(loading)
      ensures images != [] ==> request == Some(BuildData(form, images)) && alerts == old(alerts) && loading
    {
      if |images| == 0 {
        alerts := alerts + [NoImages];
        return None;
      }
      loading := true;
      request := Some(BuildData(form, images));
    }

    /** The rest of `handleSubmit`: on success an alert and the form and
        images reset; on a refusal the server's message or a fallback; on
        a network error its own alert. `loading` ends off in every case. */
    method Respond(outcome: SubmitOutcome)
      modifies this
      ensures !loading
      ensures outcome.Created? ==> form == EmptyForm && images == [] && alerts == old(alerts) + [Dropped]
      ensures outcome.Rejected? ==>
        form == old(form) && images == old(images)
        && alerts == old(alerts) + [if outcome.message.Some? && outcome.message.value != "" then outcome.message.value else "Error adding product"]
      ensures outcome.NetworkError? ==>
        form == old(form) && images == old(images) && alerts == old(alerts) + ["SERVER ERROR: CHECK CONNECTION"]
    {
      match outcome {
        case Created =>
          alerts := alerts + [Dropped];
          form := EmptyForm;
          images := [];
        case Rejected(message) =>
          alerts := alerts + [if message.Some? && message.value != "" then message.value else "Error adding product"];
        case NetworkError =>
          alerts := alerts + ["SERVER ERROR: CHECK CONNECTION"];
      }
      loading := false;
    }
  }
}
