/** The catalog card (ProductCard): "from" the lowest price among the
    product's tiers, or 0 when it has none. */
module ProductCard {
  import opened Types

  function Prices(variations: seq<ProductVariation>): (r: seq<int>)
    ensures |r| == |variations|
    ensures forall k :: 0 <= k < |r| ==> r[k] == variations[k].price
  {
    seq(|variations|, k requires 0 <= k < |variations| => variations[k].price)
  }

  /** `Math.min(...prices)` for a non-empty list. */
  function Min(prices: seq<int>): (m: int)
    requires |prices| > 0
    ensures forall k :: 0 <= k < |prices| ==> m <= prices[k]
    ensures m in prices
  {
    if |prices| == 1 then prices[0]
    else
      var rest := Min(prices[1..]);
      if prices[0] <= rest then prices[0] else rest
  }

  /** The card's starting price. */
  function StartingPrice(variations: seq<ProductVariation>): (r: int)
    ensures |variations| == 0 ==> r == 0
    ensures forall k :: 0 <= k < |variations| ==> r <= variations[k].price
    ensures |variations| > 0 ==> exists k :: 0 <= k < |variations| && variations[k].price == r
  {
    if |variations| > 0 then
      var m := Min(Prices(variations));
      assert m in Prices(variations);
      m
    else 0
  }

  /** The starting price depends only on which prices occur, not on the order of the tiers. */
  lemma StartingPriceIgnoresOrder(a: seq<ProductVariation>, b: seq<ProductVariation>)
    requires multiset(Prices(a)) == multiset(Prices(b))
    ensures StartingPrice(a) == StartingPrice(b)
  {
    if |a| > 0 {
      assert |Prices(a)| == |multiset(Prices(a))| == |multiset(Prices(b))| == |Prices(b)|;
      var ka :| 0 <= ka < |a| && a[ka].price == StartingPrice(a);
      var kb :| 0 <= kb < |b| && b[kb].price == StartingPrice(b);
      assert Prices(a)[ka] in multiset(Prices(b));
      assert Prices(b)[kb] in multiset(Prices(a));
    } else {
      assert |Prices(b)| == |multiset(Prices(b))| == 0;
    }
  }
}
