/** The diagnostic script: for every product, the list of its missing
    attributes and the verdict "all fields present" or not. It only reads the
    products. */
module Diagnose {
  import opened Products

  /** What the script reports about one product. */
  datatype Report = Report(id: int, missing: seq<Field>, allPresent: bool)

  /** Build the missing list by appending, attribute by attribute, and give
      the verdict. */
  method CheckProduct(p: Product) returns (missing: seq<Field>, allPresent: bool)
    ensures missing == MissingFields(p)
    ensures allPresent <==> missing == []
  {
    missing := [];
    if Absent(Text(p.fertilizer)) { missing := missing + [Fertilizer]; }
    assert missing == Entry(p, Fertilizer);
    if Absent(Text(p.organic)) { missing := missing + [Organic]; }
    assert missing == Entry(p, Fertilizer) + Entry(p, Organic);
    if Absent(Text(p.soil)) { missing := missing + [Soil]; }
    assert missing == Entry(p, Fertilizer) + Entry(p, Organic) + Entry(p, Soil);
    if Absent(Text(p.irrigation)) { missing := missing + [Irrigation]; }
    assert missing == Entry(p, Fertilizer) + Entry(p, Organic) + Entry(p, Soil) + Entry(p, Irrigation);
    if p.quantity.None? { missing := missing + [Quantity]; }
    assert missing == Entry(p, Fertilizer) + Entry(p, Organic) + Entry(p, Soil) + Entry(p, Irrigation)
                      + Entry(p, Quantity);
    if Absent(Text(p.quality)) { missing := missing + [Quality]; }
    MissingFieldsByAppending(p);
    allPresent := missing == [];
  }

  /** The loop over all products: one report per product, in order. */
  method DebugProducts(products: array<Product>) returns (reports: seq<Report>)
    ensures |reports| == products.Length
    ensures forall i :: 0 <= i < products.Length ==>
              reports[i] == Report(products[i].id, MissingFields(products[i]), MissingFields(products[i]) == [])
  {
    reports := [];
    for i := 0 to products.Length
      invariant |reports| == i
      invariant forall k :: 0 <= k < i ==>
                  reports[k] == Report(products[k].id, MissingFields(products[k]), MissingFields(products[k]) == [])
    {
      var p := products[i];
      var missing, allPresent := CheckProduct(p);
      reports := reports + [Report(p.id, missing, allPresent)];
    }
  }
}
