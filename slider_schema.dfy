/** The Slider collection: its defaults and the `pre('save')` hook that
    refuses a fourth slider. */
module SliderSchema {
  import opened Wrappers
  import opened Records
  import opened Http
  import Ordering

  /** The most sliders the hook lets the collection hold. */
  const MaxSliderCount: nat := 3

  datatype Slider = Slider(
    id: Id,
    image: string,
    productId: Option<Id>,
    title: string,
    subtitle: string,
    order: int,
    isActive: bool,
    createdAt: int)

  datatype SliderInput = SliderInput(
    image: Option<string>,
    productId: Option<Id>,
    title: Option<string>,
    subtitle: Option<string>,
    order: Option<int>,
    isActive: Option<bool>)

  /** Validation and defaults: the image is required; no product, empty
      title and subtitle, order 0 and active unless given. */
  function NewSlider(input: SliderInput, id: Id, now: int): (r: Result<Slider, SaveError>)
    ensures r.Ok? <==> Truthy(input.image)
    ensures r.Err? ==> r.error == ValidationError
    ensures r.Ok? ==> && r.value.id == id && r.value.createdAt == now
                      && r.value.image == input.image.value
                      && r.value.productId == input.productId
                      && r.value.title == input.title.GetOr("")
                      && r.value.subtitle == input.subtitle.GetOr("")
                      && r.value.order == input.order.GetOr(0)
                      && r.value.isActive == input.isActive.GetOr(true)
  {
    if !Truthy(input.image) then Err(ValidationError)
    else Ok(Slider(id, input.image.value, input.productId, input.title.GetOr(""),
                   input.subtitle.GetOr(""), input.order.GetOr(0), input.isActive.GetOr(true), now))
  }

  /** With only an image given, every other field takes its default. */
  lemma SliderDefaults(image: string, id: Id, now: int)
    requires image != ""
    ensures NewSlider(SliderInput(Some(image), None, None, None, None, None), id, now)
         == Ok(Slider(id, image, None, "", "", 0, true, now))
  {
  }

  /** The `sliders` collection. */
  class SliderCollection {
    var docs: seq<Slider>

    /** The cap the hook maintains. */
    ghost predicate Valid()
      reads this
    {
      |docs| <= MaxSliderCount
    }

    constructor ()
      ensures docs == [] && Valid()
    {
      docs := [];
    }

    /** `countDocuments()`. */
    method Count() returns (n: nat)
      ensures n == |docs|
    {
      n := |docs|;
    }

    /** `new Slider(input).save()`: validation, then the hook, which counts
        the sliders (`counted` says whether that count succeeded; a failed
        count is passed on as the save's error) and refuses the insert
        when 3 or more already exist. */
    method SaveNew(input: SliderInput, id: Id, now: int, counted: bool) returns (r: Result<Slider, SaveError>)
      requires Valid()
      modifies this
      ensures Valid()
      ensures NewSlider(input, id, now).Err? || r.Ok? ==> r == NewSlider(input, id, now)
      ensures NewSlider(input, id, now).Ok? && !counted ==> r == Err(StoreFailure)
      ensures NewSlider(input, id, now).Ok? && counted && |old(docs)| >= MaxSliderCount ==> r == Err(MaxSliders)
      ensures r.Ok? <==> NewSlider(input, id, now).Ok? && counted && |old(docs)| < MaxSliderCount
      ensures docs == if r.Ok? then old(docs) + [r.value] else old(docs)
    {
      r := NewSlider(input, id, now);
      if r.Err? {
        return;
      }
      if !counted {
        return Err(StoreFailure);
      }
      var count := Count();
      if count >= MaxSliderCount {
        return Err(MaxSliders);
      }
      docs := docs + [r.value];
    }

    /** `slider.save()` on a slider already stored: the hook skips the
        count and the document at `i` is replaced. */
    method SaveExisting(i: nat, s: Slider)
      requires Valid() && i < |docs|
      modifies this
      ensures Valid()
      ensures docs == old(docs)[i := s]
    {
      docs := docs[i := s];
    }

    /** `Slider.insertMany(inputs)`: every input is validated and then all
        are inserted together; the `save` hook does not run, so nothing
        here checks the cap. */
    method InsertMany(inputs: seq<SliderInput>, ids: seq<Id>, now: int) returns (r: Result<seq<Slider>, SaveError>)
      requires |ids| == |inputs|
      modifies this
      ensures r.Err? <==> exists i :: 0 <= i < |inputs| && !Truthy(inputs[i].image)
      ensures r.Err? ==> docs == old(docs)
      ensures r.Ok? ==> |r.value| == |inputs| && docs == old(docs) + r.value
      ensures r.Ok? ==> forall i :: 0 <= i < |inputs| ==> Ok(r.value[i]) == NewSlider(inputs[i], ids[i], now)
    {
      var created: seq<Slider> := [];
      var i := 0;
      while i < |inputs|
        invariant 0 <= i <= |inputs| && |created| == i
        invariant forall k :: 0 <= k < i ==> Truthy(inputs[k].image) && Ok(created[k]) == NewSlider(inputs[k], ids[k], now)
      {
        var s := NewSlider(inputs[i], ids[i], now);
        if s.Err? {
          return Err(ValidationError);
        }
        created := created + [s.value];
        i := i + 1;
      }
      docs := docs + created;
      r := Ok(created);
    }

    /** `Slider.find({}).sort({ order: 1 })`. */
    method ByOrder() returns (r: seq<Slider>)
      ensures Ordering.SortedBy(r, OrderKey)
      ensures multiset(r) == multiset(docs)
    {
      r := Ordering.SortBy(docs, OrderKey);
    }
  }

  function OrderKey(s: Slider): int { s.order }
}
