/**
 The product catalog of the vending machine (`Product` and the `products`
 array of src/components/VendingMachine.tsx). The catalog is a parameter of
 the model rather than the three hard-coded drinks; the only part of it that
 ever changes is the stock, and only through `DecreaseStock`.
 */
module Catalog {
  import opened Wrappers

  /** One purchasable item. The source's image path is presentation only. */
  datatype Product = Product(name: string, price: int, stock: int)

  type Listing = seq<Product>

  /** Product names are the key the source looks products up by. */
  ghost predicate UniqueNames(c: Listing) {
    forall i, j :: 0 <= i < j < |c| ==> c[i].name != c[j].name
  }

  ghost predicate PositivePrices(c: Listing) {
    forall i :: 0 <= i < |c| ==> c[i].price > 0
  }

  ghost predicate NonNegativeStock(c: Listing) {
    forall i :: 0 <= i < |c| ==> c[i].stock >= 0
  }

  /** The catalogs the machine may be started with. */
  ghost predicate WellFormed(c: Listing) {
    UniqueNames(c) && PositivePrices(c) && NonNegativeStock(c)
  }

  /** Some product carries the name `n`. */
  ghost predicate Listed(c: Listing, n: string) {
    exists k :: 0 <= k < |c| && c[k].name == n
  }

  /** `d` lists the same products as `c`, in the same order and at the same
      prices; only the stock counts may differ. */
  ghost predicate SameListing(c: Listing, d: Listing) {
    && |c| == |d|
    && forall k :: 0 <= k < |c| ==> c[k].name == d[k].name && c[k].price == d[k].price
  }

  /** Position of the first product named `n`, the product `Array.find` returns. */
  function IndexOf(c: Listing, n: string): (r: Option<nat>)
    ensures r.Some? ==> r.value < |c| && c[r.value].name == n
    ensures r.Some? ==> forall j :: 0 <= j < r.value ==> c[j].name != n
    ensures r.None? <==> !Listed(c, n)
  {
    if |c| == 0 then None
    else if c[0].name == n then Some(0)
    else
      match IndexOf(c[1..], n)
      case None =>
        assert forall k :: 1 <= k < |c| ==> c[k] == c[1..][k - 1];
        None
      case Some(k) => Some(k + 1)
  }

  /** Price of the selected product named `n`; 0 when no product has that name
      (which never happens for a selected name, see `Selection.InCatalog`). */
  function PriceOf(c: Listing, n: string): int {
    match IndexOf(c, n)
    case Some(k) => c[k].price
    case None => 0
  }

  /** With unique names, the first product named `n` is the only one. */
  lemma IndexOfUnique(c: Listing, n: string, k: nat)
    requires UniqueNames(c)
    requires k < |c| && c[k].name == n
    ensures IndexOf(c, n) == Some(k)
  {
    assert Listed(c, n);
  }

  /** Looking a product up only reads names, so a catalog with the same listing
      gives the same position and price. */
  lemma {:induction false} SameListingLookup(c: Listing, d: Listing, n: string)
    requires SameListing(c, d)
    ensures IndexOf(c, n) == IndexOf(d, n)
    ensures PriceOf(c, n) == PriceOf(d, n)
    ensures Listed(c, n) <==> Listed(d, n)
  {
    if |c| > 0 && c[0].name != n {
      SameListingLookup(c[1..], d[1..], n);
    }
  }

  /** One pass of the inner search of `decreaseProductStock`: the search
      callback never answers true, so every product named `n` loses one unit. */
  function DecreaseNamed(c: Listing, n: string): (r: Listing)
    ensures SameListing(c, r)
    ensures forall k :: 0 <= k < |c| ==> r[k].stock == c[k].stock - (if c[k].name == n then 1 else 0)
  {
    seq(|c|, k requires 0 <= k < |c| =>
      if c[k].name == n then c[k].(stock := c[k].stock - 1) else c[k])
  }

  /** `decreaseProductStock`: one search pass per selected entry, in order.
      A product loses as many units as the selection names it. */
  function DecreaseStock(c: Listing, sel: seq<string>): (r: Listing)
    ensures SameListing(c, r)
    ensures forall k :: 0 <= k < |c| ==> r[k].stock == c[k].stock - multiset(sel)[c[k].name]
    decreases |sel|
  {
    if |sel| == 0 then c
    else
      assert sel == [sel[0]] + sel[1..];
      DecreaseStock(DecreaseNamed(c, sel[0]), sel[1..])
  }
}
