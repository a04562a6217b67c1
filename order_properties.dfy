/** Properties of the checkout pricing model beyond those in the contracts. */
module OrderProperties {
  import opened Wrappers
  import opened OrderController

  /** Worked example: two shirts at catalogue price 100 plus shipping 20. */
  lemma ExampleCheckout()
    ensures
      var cart := [CartEntry(1, "M", 2)];
      var catalogue := [Product(1, "Tee", 100)];
      var quotes := [QuoteResult("jne", "JNE", [ServiceCost("SVC", "", [CostDetail(20, "1-2", "")])])];
      var lines := ProductLines(cart, catalogue);
      var choice := SelectShipping(quotes, "SVC");
      && lines == Success([LineItem(ProductRef(1), 2, "Tee (Size M)", 100)])
      && choice.Success?
      && ShippingItem(choice.value) == Success(LineItem(ServiceRef("SVC"), 1, "Shipping JNE (SVC)", 20))
      && GrossAmount(lines.value + [ShippingItem(choice.value).value]) == 220
  {
    var cart := [CartEntry(1, "M", 2)];
    var catalogue := [Product(1, "Tee", 100)];
    assert InCatalogue(catalogue, 1) by { assert catalogue[0].id == 1; }
    assert FirstIndex(catalogue, 1) == 0;
    var lines := ProductLines(cart, catalogue);
    assert lines.Success?;
    assert ProductLine(cart[0], catalogue) == Success(lines.value[0]);
    assert lines.value == [lines.value[0]];
    assert "Tee" + " (Size " + "M" + ")" == "Tee (Size M)";
    var svc := ServiceCost("SVC", "", [CostDetail(20, "1-2", "")]);
    var quotes := [QuoteResult("jne", "JNE", [svc])];
    assert quotes[0].costs[0].service == "SVC";
    assert SelectShipping(quotes, "SVC") == Success(svc);
    assert "Shipping JNE (" + "SVC" + ")" == "Shipping JNE (SVC)";
    var items := lines.value + [ShippingItem(svc).value];
    assert items[1..][1..] == [];
    assert Sum(items[1..]) == 20;
  }

  /** The first catalogue entry carrying the id decides the line, behind any
      prefix of entries with other ids and ahead of any later duplicate. */
  lemma {:induction false} FirstCatalogueEntryWins(entry: CartEntry, prefix: seq<Product>, first: Product,
                                                   rest: seq<Product>)
    requires forall k :: 0 <= k < |prefix| ==> prefix[k].id != entry.id
    requires first.id == entry.id
    ensures ProductLine(entry, prefix + [first] + rest) ==
      Success(LineItem(ProductRef(entry.id), entry.quantity,
                       first.name + " (Size " + entry.size + ")", first.price))
  {
    var catalogue := prefix + [first] + rest;
    assert catalogue[|prefix|] == first;
    assert InCatalogue(catalogue, entry.id);
    assert forall k :: 0 <= k < |prefix| ==> catalogue[k] == prefix[k];
    assert FirstIndex(catalogue, entry.id) == |prefix|;
  }

  /** A cart entry whose id is missing from the catalogue makes the whole
      map fail, wherever that entry sits in the cart. */
  lemma {:induction false} MissingProductFails(before: seq<CartEntry>, missing: CartEntry,
                                               after: seq<CartEntry>, catalogue: seq<Product>)
    requires forall j :: 0 <= j < |catalogue| ==> catalogue[j].id != missing.id
    ensures ProductLines(before + [missing] + after, catalogue).Failure?
  {
    var cart := before + [missing] + after;
    assert cart[|before|] == missing;
    assert !InCatalogue(catalogue, missing.id);
  }

  /** The gross amount of product lines followed by the shipping line is the
      product total plus the shipping line's own quantity * price. */
  lemma {:induction false} GrossAmountWithShipping(lines: seq<LineItem>, shipping: LineItem)
    requires shipping.quantity == 1
    ensures GrossAmount(lines + [shipping]) == Sum(lines) + shipping.price
  {
    SumAppend(lines, [shipping]);
    assert [shipping][1..] == [];
  }
}
