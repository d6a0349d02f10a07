/**
 The selection of products (`selectedProduct` in src/components/VendingMachine.tsx),
 kept as the ordered list of the selected products' names, and its total (`sum`).
 */
module Selection {
  import opened Catalog

  /** No name is selected twice. */
  ghost predicate NoDup(sel: seq<string>) {
    forall i, j :: 0 <= i < j < |sel| ==> sel[i] != sel[j]
  }

  /** Every selected name belongs to a product of the catalog. */
  ghost predicate InCatalog(c: Listing, sel: seq<string>) {
    forall i :: 0 <= i < |sel| ==> Listed(c, sel[i])
  }

  /** Every selected product still has stock. */
  ghost predicate SelectedInStock(c: Listing, sel: seq<string>) {
    forall k :: 0 <= k < |c| && c[k].name in sel ==> c[k].stock > 0
  }

  /** `prevSelected.filter(product => product.name !== n)`. */
  function Remove(sel: seq<string>, n: string): (r: seq<string>)
    ensures forall m :: m in r <==> m in sel && m != n
    ensures n !in sel ==> r == sel
    ensures NoDup(sel) ==> NoDup(r)
  {
    if |sel| == 0 then []
    else if sel[0] == n then Remove(sel[1..], n)
    else
      var rest := Remove(sel[1..], n);
      assert forall i :: 1 <= i < |sel| ==> sel[i] == sel[1..][i - 1];
      assert forall m :: m in sel[1..] ==> m in sel;
      assert NoDup(sel) ==> NoDup(sel[1..]) && sel[0] !in sel[1..];
      assert NoDup(sel) ==> NoDup([sel[0]] + rest) by {
        if NoDup(sel) {
          var r := [sel[0]] + rest;
          assert forall i :: 1 <= i < |r| ==> r[i] == rest[i - 1];
        }
      }
      [sel[0]] + rest
  }

  /** `selectProduct`: an unknown name changes nothing; a known name that is not
      selected is appended; a selected name is filtered out. */
  function SelectProduct(c: Listing, sel: seq<string>, n: string): (r: seq<string>)
    ensures !Listed(c, n) ==> r == sel
    ensures Listed(c, n) ==> forall m :: m in r <==> (m in sel) != (m == n)
    ensures NoDup(sel) ==> NoDup(r)
  {
    if IndexOf(c, n).None? then sel
    else if n !in sel then sel + [n]
    else Remove(sel, n)
  }

  /** `sum`: the prices of the selected products added up. */
  function Total(c: Listing, sel: seq<string>): int {
    if |sel| == 0 then 0 else PriceOf(c, sel[0]) + Total(c, sel[1..])
  }

  /** The `reduce` of the source, left to right from 0, computes `Total`. */
  method SumSelected(c: Listing, sel: seq<string>) returns (sum: int)
    ensures sum == Total(c, sel)
  {
    sum := 0;
    var i := 0;
    while i < |sel|
      invariant 0 <= i <= |sel|
      invariant sum == Total(c, sel[..i])
    {
      TotalAppend(c, sel[..i], sel[i]);
      assert sel[..i + 1] == sel[..i] + [sel[i]];
      sum := sum + PriceOf(c, sel[i]);
      i := i + 1;
    }
    assert sel[..i] == sel;
  }

  /** Appending a product adds its price. */
  lemma {:induction false} TotalAppend(c: Listing, sel: seq<string>, n: string)
    ensures Total(c, sel + [n]) == Total(c, sel) + PriceOf(c, n)
  {
    if |sel| > 0 {
      assert (sel + [n])[1..] == sel[1..] + [n];
      TotalAppend(c, sel[1..], n);
    }
  }

  /** Filtering out a name that is selected once subtracts its price. */
  lemma {:induction false} TotalRemove(c: Listing, sel: seq<string>, n: string)
    requires NoDup(sel)
    requires n in sel
    ensures Total(c, Remove(sel, n)) == Total(c, sel) - PriceOf(c, n)
  {
    assert NoDup(sel[1..]);
    if sel[0] != n {
      TotalRemove(c, sel[1..], n);
      assert Remove(sel, n) == [sel[0]] + Remove(sel[1..], n);
      assert ([sel[0]] + Remove(sel[1..], n))[1..] == Remove(sel[1..], n);
    } else {
      assert n !in sel[1..];
    }
  }

  /** With positive prices the total of catalog products is never negative,
      and it is 0 exactly for the empty selection. */
  lemma {:induction false} TotalZeroIffEmpty(c: Listing, sel: seq<string>)
    requires PositivePrices(c)
    requires InCatalog(c, sel)
    ensures Total(c, sel) >= 0
    ensures Total(c, sel) == 0 <==> |sel| == 0
  {
    if |sel| > 0 {
      assert Listed(c, sel[0]);
      assert InCatalog(c, sel[1..]) by {
        assert forall i :: 0 <= i < |sel| - 1 ==> sel[1..][i] == sel[i + 1];
      }
      TotalZeroIffEmpty(c, sel[1..]);
    }
  }

  /** Selecting a product adds its price to the total and deselecting it takes
      the price off again. */
  lemma SelectChangesTotal(c: Listing, sel: seq<string>, n: string)
    requires NoDup(sel)
    requires Listed(c, n)
    ensures n !in sel ==> Total(c, SelectProduct(c, sel, n)) == Total(c, sel) + PriceOf(c, n)
    ensures n in sel ==> Total(c, SelectProduct(c, sel, n)) == Total(c, sel) - PriceOf(c, n)
  {
    if n !in sel {
      TotalAppend(c, sel, n);
    } else {
      TotalRemove(c, sel, n);
    }
  }

  /** Selecting a product and selecting it again restores the selection. */
  lemma {:induction false} SelectTwiceRestores(c: Listing, sel: seq<string>, n: string)
    requires n !in sel
    ensures SelectProduct(c, SelectProduct(c, sel, n), n) == sel
  {
    if Listed(c, n) {
      RemoveAppended(sel, n);
    }
  }

  lemma {:induction false} RemoveAppended(sel: seq<string>, n: string)
    requires n !in sel
    ensures Remove(sel + [n], n) == sel
  {
    if |sel| > 0 {
      assert (sel + [n])[1..] == sel[1..] + [n];
      RemoveAppended(sel[1..], n);
    }
  }

  /** In a selection without duplicates a name occurs at most once. */
  lemma {:induction false} NoDupCount(sel: seq<string>, n: string)
    requires NoDup(sel)
    ensures multiset(sel)[n] == if n in sel then 1 else 0
  {
    if |sel| > 0 {
      assert sel == [sel[0]] + sel[1..];
      assert NoDup(sel[1..]);
      NoDupCount(sel[1..], n);
    }
  }

  /** A purchase of a duplicate-free selection takes exactly one unit of each
      selected product and leaves every other product alone. */
  lemma DecreaseSelectedOnce(c: Listing, sel: seq<string>)
    requires NoDup(sel)
    ensures forall k :: 0 <= k < |c| && c[k].name in sel ==>
      DecreaseStock(c, sel)[k].stock == c[k].stock - 1
    ensures forall k :: 0 <= k < |c| && c[k].name !in sel ==>
      DecreaseStock(c, sel)[k] == c[k]
  {
    forall n | true
      ensures multiset(sel)[n] == if n in sel then 1 else 0
    {
      NoDupCount(sel, n);
    }
  }

  /** A purchase keeps stock non-negative when every selected product had stock. */
  lemma DecreaseKeepsStock(c: Listing, sel: seq<string>)
    requires NoDup(sel)
    requires NonNegativeStock(c)
    requires SelectedInStock(c, sel)
    ensures NonNegativeStock(DecreaseStock(c, sel))
  {
    DecreaseSelectedOnce(c, sel);
  }

  /** The total only reads prices, which a purchase leaves alone. */
  lemma {:induction false} SameListingTotal(c: Listing, d: Listing, sel: seq<string>)
    requires SameListing(c, d)
    ensures Total(c, sel) == Total(d, sel)
    ensures InCatalog(c, sel) <==> InCatalog(d, sel)
  {
    forall n | true
      ensures Listed(c, n) <==> Listed(d, n)
    {
      SameListingLookup(c, d, n);
    }
    if |sel| > 0 {
      SameListingLookup(c, d, sel[0]);
      SameListingTotal(c, d, sel[1..]);
    }
  }
}
