/** The product page (ProductDetailPage): the product whose id is in the
    route, the selected gallery image and price tier, the detail lines shown
    as "label: value", and the price panel. */
module ProductDetail {
  import opened Wrappers
  import opened Types
  import Text
  import Slots

  /** `products.find(p => p.id === productId)`. */
  function FindProduct(products: seq<Product>, productId: string): (r: Option<Product>)
    ensures r.None? <==> forall k :: 0 <= k < |products| ==> products[k].id != productId
    ensures r.Some? ==> r.value.id == productId
    ensures r.Some? ==> exists k :: 0 <= k < |products| && products[k] == r.value &&
                                    (forall j :: 0 <= j < k ==> products[j].id != productId)
  {
    Slots.Find(products, (p: Product) => p.id == productId)
  }

  /** `variations.find(v => v.name === name)`: the first tier with that name. */
  function FindVariation(variations: seq<ProductVariation>, name: string): (r: Option<ProductVariation>)
    ensures r.None? <==> forall k :: 0 <= k < |variations| ==> variations[k].name != name
    ensures r.Some? ==> r.value.name == name
    ensures r.Some? ==> exists k :: 0 <= k < |variations| && variations[k] == r.value &&
                                    (forall j :: 0 <= j < k ==> variations[j].name != name)
  {
    Slots.Find(variations, (v: ProductVariation) => v.name == name)
  }

  /** `variations[0]`, which is `undefined` for an empty list. */
  function FirstVariation(variations: seq<ProductVariation>): Option<ProductVariation>
  {
    if |variations| > 0 then Some(variations[0]) else None
  }

  /** `detail.split(':')[0]`: the text before the first colon. */
  function DetailLabel(detail: string): string
  {
    Text.Split(detail, ':')[0]
  }

  /** `detail.split(':')[1]`: the text between the first and the second
      colon, or `undefined` (rendered as nothing) when there is no colon. */
  function DetailValue(detail: string): Option<string>
  {
    var parts := Text.Split(detail, ':');
    if |parts| > 1 then Some(parts[1]) else None
  }

  /** Label and value hold no colon. Without a colon the label is the whole
      line and there is no value. With one, the line starts with label, colon,
      value, and whatever follows (dropped from the page) starts with a colon. */
  lemma DetailLineParts(detail: string)
    ensures ':' !in DetailLabel(detail)
    ensures ':' !in detail ==> DetailLabel(detail) == detail && DetailValue(detail).None?
    ensures ':' in detail ==>
      && DetailValue(detail).Some?
      && ':' !in DetailValue(detail).value
      && var shown := DetailLabel(detail) + ":" + DetailValue(detail).value;
         |shown| <= |detail| && detail[..|shown|] == shown
         && (|shown| < |detail| ==> detail[|shown|] == ':')
  {
    var parts := Text.Split(detail, ':');
    Text.JoinSplit(detail, ':');
    if ':' in detail {
      var tail := Text.Join(parts[2..], ':');
      var shown := parts[0] + [':'] + parts[1];
      assert Text.Join(parts, ':') == parts[0] + [':'] + Text.Join(parts[1..], ':');
      if |parts| == 2 {
        assert Text.Join(parts[1..], ':') == parts[1];
        assert detail == shown;
      } else {
        assert parts[1..][1..] == parts[2..];
        assert Text.Join(parts[1..], ':') == parts[1] + [':'] + tail;
        assert detail == shown + ([':'] + tail);
      }
    }
  }

  /** The pricing block: nothing without a selected tier, the price, and the
      two discount lines only when the discount is present and not zero. */
  datatype PricePanel = NoPrice | Price(price: int) | PriceWithDiscount(price: int, discount: int)

  function PricePanelOf(selected: Option<ProductVariation>): (r: PricePanel)
    ensures r.NoPrice? <==> selected.None?
    ensures r.PriceWithDiscount? <==>
      selected.Some? && selected.value.discountPrice.Some? && selected.value.discountPrice.value != 0
    ensures r.Price? || r.PriceWithDiscount? ==> r.price == selected.value.price
    ensures r.PriceWithDiscount? ==> r.discount == selected.value.discountPrice.value
  {
    match selected
    case None => NoPrice
    case Some(v) =>
      match v.discountPrice
      case Some(d) => if d != 0 then PriceWithDiscount(v.price, d) else Price(v.price)
      case None => Price(v.price)
  }

  /** The page's state for the route's product id. */
  class ProductDetailPage {
    var product: Option<Product>
    var selectedImage: string
    var selectedVariation: Option<ProductVariation>

    /** First render: the found product's main image and first tier, or an
      empty image and no tier when nothing matches. */
    constructor (products: seq<Product>, productId: string)
      ensures product == FindProduct(products, productId)
      ensures product.Some? ==>
        selectedImage == product.value.imageUrl && selectedVariation == FirstVariation(product.value.variations)
      ensures product.None? ==> selectedImage == "" && selectedVariation.None?
    {
      var found := FindProduct(products, productId);
      product := found;
      if found.Some? {
        selectedImage := found.value.imageUrl;
        selectedVariation := FirstVariation(found.value.variations);
      } else {
        selectedImage := "";
        selectedVariation := None;
      }
    }

    /** A new catalog or route id: the lookup is redone. The effect keyed on
      the found product runs only when that product changed; it then resets
      the selection to the product's main image and first tier. */
    method Reload(products: seq<Product>, productId: string)
      modifies this
      ensures product == FindProduct(products, productId)
      ensures product.Some? && product != old(product) ==>
        selectedImage == product.value.imageUrl && selectedVariation == FirstVariation(product.value.variations)
      ensures product.None? || product == old(product) ==>
        selectedImage == old(selectedImage) && selectedVariation == old(selectedVariation)
    {
      var found := FindProduct(products, productId);
      if found.Some? && found != product {
        selectedImage := found.value.imageUrl;
        selectedVariation := FirstVariation(found.value.variations);
      }
      product := found;
    }

    /** `handleVariationChange`, reachable only on the found-product branch. */
    method HandleVariationChange(name: string)
      requires product.Some?
      modifies this
      ensures product == old(product) && selectedImage == old(selectedImage)
      ensures selectedVariation == FindVariation(product.value.variations, name)
    {
      selectedVariation := FindVariation(product.value.variations, name);
    }

    /** A click on gallery thumbnail `k`. */
    method SelectImage(k: nat)
      requires product.Some? && k < |product.value.imageGallery|
      modifies this
      ensures product == old(product) && selectedVariation == old(selectedVariation)
      ensures selectedImage == product.value.imageGallery[k]
    {
      selectedImage := product.value.imageGallery[k];
    }

    /** Whether the page shows the "not found" message, and otherwise its price panel. */
    method Render() returns (found: bool, panel: PricePanel)
      ensures found <==> product.Some?
      ensures panel == PricePanelOf(selectedVariation)
    {
      found := product.Some?;
      panel := PricePanelOf(selectedVariation);
    }
  }
}
