/** The admin's "add product" form (AddProductForm): three growable slot
    lists (image URLs, detail lines, price variations) beside the scalar
    fields, and the submit step that filters and validates them into a
    product. Price texts are read by a parser supplied by the caller, which
    stands for `parseFloat` and yields cents, or `None` for NaN. */
module ProductForm {
  import opened Wrappers
  import opened Types
  import Text
  import Slots

  /** One row of the variations editor, as typed; `None` is the `undefined`
      a fresh row starts with in its two price inputs. */
  datatype VariationSlot = VariationSlot(name: string, price: Option<string>, discountPrice: Option<string>)

  const EmptyVariationSlot := VariationSlot("", None, None)

  datatype VariationField = NameField | PriceField | DiscountPriceField

  /** `{ ...v, [field]: value }`: the named input takes the typed text. */
  function WithVariationField(slot: VariationSlot, field: VariationField, value: string): (r: VariationSlot)
    ensures field == NameField ==> r == VariationSlot(value, slot.price, slot.discountPrice)
    ensures field == PriceField ==> r == VariationSlot(slot.name, Some(value), slot.discountPrice)
    ensures field == DiscountPriceField ==> r == VariationSlot(slot.name, slot.price, Some(value))
  {
    match field
    case NameField => slot.(name := value)
    case PriceField => slot.(price := Some(value))
    case DiscountPriceField => slot.(discountPrice := Some(value))
  }

  /** The scalar part of the form. */
  datatype FormState = FormState(name: string, code: string, description: string, shipping: ShippingType)

  const InitialFormState := FormState("", "", "", Negotiate)

  /** One `handleChange` event, keyed by the input that fired it. The shipping
      `<select>` only offers the labels of `ShippingType` (see `ParseShipping`). */
  datatype FormEdit = SetName(name: string) | SetCode(code: string) | SetDescription(description: string) | SetShipping(shipping: ShippingType)

  function ApplyEdit(f: FormState, e: FormEdit): (r: FormState)
  {
    match e
    case SetName(v) => f.(name := v)
    case SetCode(v) => f.(code := v)
    case SetDescription(v) => f.(description := v)
    case SetShipping(v) => f.(shipping := v)
  }

  /** `parseFloat(String(price)) || 0`: an untouched input (`undefined`), an
      unparsable text and a zero all give 0. */
  function PriceCents(text: Option<string>, parse: string -> Option<int>): int
  {
    match text
    case None => 0
    case Some(t) => match parse(t) case None => 0 case Some(p) => p
  }

  /** `discountPrice ? parseFloat(String(discountPrice)) : undefined`: only a
      non-empty text is parsed. */
  function DiscountCents(text: Option<string>, parse: string -> Option<int>): Option<int>
  {
    match text
    case None => None
    case Some(t) => if t == "" then None else parse(t)
  }

  function ToVariation(slot: VariationSlot, parse: string -> Option<int>): ProductVariation
  {
    ProductVariation(slot.name, PriceCents(slot.price, parse), DiscountCents(slot.discountPrice, parse))
  }

  /** The filter applied after conversion: a non-empty name (not trimmed) and a positive price. */
  predicate IsKept(v: ProductVariation)
  {
    v.name != "" && v.price > 0
  }

  predicate IsFilled(s: string)
  {
    !Text.IsBlank(s)
  }

  /** `variations.map(convert).filter(keep)`. */
  function SurvivingVariations(slots: seq<VariationSlot>, parse: string -> Option<int>): seq<ProductVariation>
  {
    Slots.Filter(seq(|slots|, k requires 0 <= k < |slots| => ToVariation(slots[k], parse)), IsKept)
  }

  datatype SubmitError = NoImageProvided

  /** `handleSubmit`: rejects the form when no image URL survives trimming;
      otherwise builds the product from the scalar fields and the filtered slots. */
  function Submission(urls: seq<string>, details: seq<string>, slots: seq<VariationSlot>,
                      form: FormState, parse: string -> Option<int>): (r: Result<ProductInput, SubmitError>)
    ensures r.Failure? <==> forall k :: 0 <= k < |urls| ==> Text.IsBlank(urls[k])
    ensures r.Success? ==>
      && r.value.imageGallery == Slots.Filter(urls, IsFilled)
      && r.value.imageGallery != []
      && r.value.imageUrl == r.value.imageGallery[0]
      && r.value.details == Slots.Filter(details, IsFilled)
      && r.value.variations == SurvivingVariations(slots, parse)
      && r.value.name == form.name && r.value.code == form.code
      && r.value.description == form.description && r.value.shipping == form.shipping
  {
    var gallery := Slots.Filter(urls, IsFilled);
    if gallery == [] then
      Failure(NoImageProvided)
    else
      Success(ProductInput(form.name, form.code, form.description, Slots.Filter(details, IsFilled),
                           gallery[0], gallery, form.shipping, SurvivingVariations(slots, parse)))
  }

  /** What a submitted product never contains: a blank image URL, a blank
      detail line, or a variation without a name or without a positive price. */
  lemma SubmittedProductIsClean(urls: seq<string>, details: seq<string>, slots: seq<VariationSlot>,
                                form: FormState, parse: string -> Option<int>)
    requires Submission(urls, details, slots, form, parse).Success?
    ensures var p := Submission(urls, details, slots, form, parse).value;
      && (forall k :: 0 <= k < |p.imageGallery| ==> !Text.IsBlank(p.imageGallery[k]))
      && (forall k :: 0 <= k < |p.details| ==> !Text.IsBlank(p.details[k]))
      && (forall k :: 0 <= k < |p.variations| ==> p.variations[k].name != "" && p.variations[k].price > 0)
  {
    var p := Submission(urls, details, slots, form, parse).value;
    var gallery, lines, kept := p.imageGallery, p.details, p.variations;
    assert gallery == Slots.Filter(urls, IsFilled);
    assert lines == Slots.Filter(details, IsFilled);
    assert kept == SurvivingVariations(slots, parse);
    forall k | 0 <= k < |gallery| ensures !Text.IsBlank(gallery[k]) {
      assert IsFilled(gallery[k]);
    }
    forall k | 0 <= k < |lines| ensures !Text.IsBlank(lines[k]) {
      assert IsFilled(lines[k]);
    }
    forall k | 0 <= k < |kept| ensures kept[k].name != "" && kept[k].price > 0 {
      assert IsKept(kept[k]);
    }
  }

  /** The product's main image is the first URL slot that is not blank. */
  lemma FirstFilledUrlIsMainImage(urls: seq<string>, details: seq<string>, slots: seq<VariationSlot>,
                                  form: FormState, parse: string -> Option<int>, k: nat)
    requires k < |urls| && !Text.IsBlank(urls[k])
    requires forall j :: 0 <= j < k ==> Text.IsBlank(urls[j])
    ensures Submission(urls, details, slots, form, parse).Success?
    ensures Submission(urls, details, slots, form, parse).value.imageUrl == urls[k]
  {
    Slots.FilterHead(urls, IsFilled, k);
  }

  /** Variations are converted and filtered slot by slot, so the survivors of
      two lists of slots are the survivors of each, in order. */
  lemma {:induction false} SurvivingVariationsAppend(a: seq<VariationSlot>, b: seq<VariationSlot>, parse: string -> Option<int>)
    ensures SurvivingVariations(a + b, parse) == SurvivingVariations(a, parse) + SurvivingVariations(b, parse)
  {
    var conv := (s: seq<VariationSlot>) => seq(|s|, k requires 0 <= k < |s| => ToVariation(s[k], parse));
    assert conv(a + b) == conv(a) + conv(b);
    Slots.FilterAppend(conv(a), conv(b), IsKept);
  }

  /** A single slot survives exactly when its name is non-empty and its parsed
      price is positive; a fresh, untouched slot never survives as a zero-price tier. */
  lemma SingleSlotSurvives(slot: VariationSlot, parse: string -> Option<int>)
    ensures SurvivingVariations([slot], parse) ==
      (if slot.name != "" && PriceCents(slot.price, parse) > 0 then [ToVariation(slot, parse)] else [])
    ensures SurvivingVariations([EmptyVariationSlot], parse) == []
  {
    assert seq(1, k requires 0 <= k < 1 => ToVariation([slot][k], parse)) == [ToVariation(slot, parse)];
    assert seq(1, k requires 0 <= k < 1 => ToVariation([EmptyVariationSlot][k], parse)) == [ToVariation(EmptyVariationSlot, parse)];
  }

  /** `handleSubmit` called directly on a filled slot "Caixa 100un" at 25.50
      beside an entirely blank slot gives one variation at 2550 cents; the
      blank slot is dropped. */
  lemma FilledAndBlankSlot(url: string, form: FormState, parse: string -> Option<int>)
    requires !Text.IsBlank(url)
    requires parse("25.50") == Some(2550)
    ensures var r := Submission([url], [], [VariationSlot("Caixa 100un", Some("25.50"), None), EmptyVariationSlot], form, parse);
      r.Success? && |r.value.variations| == 1 && r.value.variations[0].price == 2550
      && r.value.variations[0].name == "Caixa 100un" && r.value.imageGallery == [url]
  {
    var filled := VariationSlot("Caixa 100un", Some("25.50"), None);
    SingleSlotSurvives(filled, parse);
    SurvivingVariationsAppend([filled], [EmptyVariationSlot], parse);
    assert [filled] + [EmptyVariationSlot] == [filled, EmptyVariationSlot];
    assert Slots.Filter([url], IsFilled) == [url];
  }

  /** No surviving variation is not a reason to reject: a form with a
      non-blank image whose slots all get filtered out is accepted with no
      variations. */
  lemma NoVariationIsAccepted(urls: seq<string>, details: seq<string>, slots: seq<VariationSlot>,
                              form: FormState, parse: string -> Option<int>)
    requires exists k :: 0 <= k < |urls| && !Text.IsBlank(urls[k])
    requires forall k :: 0 <= k < |slots| ==> !IsKept(ToVariation(slots[k], parse))
    ensures var r := Submission(urls, details, slots, form, parse);
      r.Success? && r.value.variations == []
  {
    var converted := seq(|slots|, k requires 0 <= k < |slots| => ToVariation(slots[k], parse));
    assert forall k :: 0 <= k < |converted| ==> !IsKept(converted[k]);
  }

  /** A form that passes the browser's `required` checks can still end up
      with no tier: a named slot whose price parses to zero is dropped, and
      the product is saved without variations. */
  lemma ZeroPriceTierIsDropped(url: string, name: string, price: string,
                               form: FormState, parse: string -> Option<int>)
    requires !Text.IsBlank(url) && name != "" && price != ""
    requires parse(price) == Some(0)
    ensures var r := Submission([url], [], [VariationSlot(name, Some(price), None)], form, parse);
      r.Success? && r.value.variations == [] && r.value.imageUrl == url
  {
    var slots := [VariationSlot(name, Some(price), None)];
    assert !IsKept(ToVariation(slots[0], parse));
    assert [url][0] == url;
    NoVariationIsAccepted([url], [], slots, form, parse);
    FirstFilledUrlIsMainImage([url], [], slots, form, parse, 0);
  }

  /** The form's state. `imageUrls` never drops below one slot: the only
      removal that could empty it is guarded. */
  class AddProductForm {
    var formState: FormState
    var imageUrls: seq<string>
    var details: seq<string>
    var variations: seq<VariationSlot>

    ghost predicate Valid()
      reads this
    {
      |imageUrls| >= 1
    }

    constructor ()
      ensures Valid()
      ensures formState == InitialFormState
      ensures imageUrls == [""] && details == [""] && variations == [EmptyVariationSlot]
    {
      formState := InitialFormState;
      imageUrls := [""];
      details := [""];
      variations := [EmptyVariationSlot];
    }

    /** `handleChange`: one scalar field takes the typed value. */
    method HandleChange(e: FormEdit)
      modifies this
      ensures formState == ApplyEdit(old(formState), e)
      ensures imageUrls == old(imageUrls) && details == old(details) && variations == old(variations)
    {
      formState := ApplyEdit(formState, e);
    }

    method HandleImageUrlChange(index: int, value: string)
      requires Valid()
      modifies this
      ensures Valid()
      ensures imageUrls == Slots.Replaced(old(imageUrls), index, value)
      ensures formState == old(formState) && details == old(details) && variations == old(variations)
    {
      imageUrls := Slots.Replaced(imageUrls, index, value);
    }

    method AddImageUrl()
      requires Valid()
      modifies this
      ensures Valid()
      ensures imageUrls == old(imageUrls) + [""]
      ensures formState == old(formState) && details == old(details) && variations == old(variations)
    {
      imageUrls := imageUrls + [""];
    }

    /** Does nothing while only one URL slot is left. */
    method RemoveImageUrl(index: int)
      requires Valid()
      modifies this
      ensures Valid()
      ensures imageUrls == if |old(imageUrls)| > 1 then Slots.Removed(old(imageUrls), index) else old(imageUrls)
      ensures formState == old(formState) && details == old(details) && variations == old(variations)
    {
      if |imageUrls| > 1 {
        imageUrls := Slots.Removed(imageUrls, index);
      }
    }

    method HandleDetailChange(index: int, value: string)
      requires Valid()
      modifies this
      ensures Valid()
      ensures details == Slots.Replaced(old(details), index, value)
      ensures formState == old(formState) && imageUrls == old(imageUrls) && variations == old(variations)
    {
      details := Slots.Replaced(details, index, value);
    }

    method AddDetail()
      requires Valid()
      modifies this
      ensures Valid()
      ensures details == old(details) + [""]
      ensures formState == old(formState) && imageUrls == old(imageUrls) && variations == old(variations)
    {
      details := details + [""];
    }

    method RemoveDetail(index: int)
      requires Valid()
      modifies this
      ensures Valid()
      ensures details == Slots.Removed(old(details), index)
      ensures formState == old(formState) && imageUrls == old(imageUrls) && variations == old(variations)
    {
      details := Slots.Removed(details, index);
    }

    /** Only slot `index` changes, and in it only the named input. */
    method HandleVariationChange(index: int, field: VariationField, value: string)
      requires Valid()
      modifies this
      ensures Valid()
      ensures |variations| == |old(variations)|
      ensures forall j :: 0 <= j < |variations| ==>
        variations[j] == if j == index then WithVariationField(old(variations)[j], field, value) else old(variations)[j]
      ensures formState == old(formState) && imageUrls == old(imageUrls) && details == old(details)
    {
      if 0 <= index < |variations| {
        variations := Slots.Replaced(variations, index, WithVariationField(variations[index], field, value));
      }
    }

    method AddVariation()
      requires Valid()
      modifies this
      ensures Valid()
      ensures variations == old(variations) + [EmptyVariationSlot]
      ensures formState == old(formState) && imageUrls == old(imageUrls) && details == old(details)
    {
      variations := variations + [EmptyVariationSlot];
    }

    /** Unguarded in the handler; the page hides its button when one slot is left. */
    method RemoveVariation(index: int)
      requires Valid()
      modifies this
      ensures Valid()
      ensures variations == Slots.Removed(old(variations), index)
      ensures formState == old(formState) && imageUrls == old(imageUrls) && details == old(details)
    {
      variations := Slots.Removed(variations, index);
    }

    /** `handleSubmit`: the product handed to the catalog, or the rejection
      that raises the "add at least one image URL" alert. The form is not changed. */
    method HandleSubmit(parse: string -> Option<int>) returns (r: Result<ProductInput, SubmitError>)
      requires Valid()
      ensures r == Submission(imageUrls, details, variations, formState, parse)
      ensures r.Failure? <==> forall k :: 0 <= k < |imageUrls| ==> Text.IsBlank(imageUrls[k])
    {
      r := Submission(imageUrls, details, variations, formState, parse);
    }
  }
}
