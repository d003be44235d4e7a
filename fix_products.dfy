/** The repair script: every product whose attribute is missing gets that
    attribute's fixed default, and a `changed` flag records whether anything
    was filled in. */
module Repair {
  import opened Text
  import opened Products

  datatype KeyError = KeyError(key: string)

  datatype Result<T, E> = Ok(value: T) | Err(error: E)

  /** The defaults table of `get_default`. */
  const Defaults: map<string, Value> :=
    map["fertilizer" := Text(Some("urea")), "organic" := Text(Some("organic")),
        "soil" := Text(Some("loamy")), "irrigation" := Text(Some("drip")),
        "quantity" := Count(Some(1)), "quality" := Text(Some("medium"))]

  /** `get_default(field)`: the default of a known attribute name, a
      `KeyError` for any other key. */
  function GetDefault(field: string): (r: Result<Value, KeyError>)
    ensures r.Ok? <==> exists f: Field :: f.Name() == field
    ensures r.Err? ==> r.error == KeyError(field)
  {
    if field in Defaults then NameOfKnownKey(field); Ok(Defaults[field]) else Err(KeyError(field))
  }

  /** Every key of the defaults table is the name of an attribute. */
  lemma NameOfKnownKey(key: string)
    requires key in Defaults
    ensures exists f: Field :: f.Name() == key
  {
    if key == "fertilizer" { assert Fertilizer.Name() == key; }
    else if key == "organic" { assert Organic.Name() == key; }
    else if key == "soil" { assert Soil.Name() == key; }
    else if key == "irrigation" { assert Irrigation.Name() == key; }
    else if key == "quantity" { assert Quantity.Name() == key; }
    else { assert Quality.Name() == key; }
  }

  /** The six defaults: urea, organic, loamy, drip, 1 and medium. */
  lemma DefaultValues()
    ensures GetDefault("fertilizer") == Ok(Text(Some("urea")))
    ensures GetDefault("organic") == Ok(Text(Some("organic")))
    ensures GetDefault("soil") == Ok(Text(Some("loamy")))
    ensures GetDefault("irrigation") == Ok(Text(Some("drip")))
    ensures GetDefault("quantity") == Ok(Count(Some(1)))
    ensures GetDefault("quality") == Ok(Text(Some("medium")))
  {
  }

  /** The default for attribute `f`: the table entry under its name, which
      is what `get_default` returns for that name. */
  function DefaultOf(f: Field): (v: Value)
    ensures GetDefault(f.Name()) == Ok(v)
    ensures v.Count? <==> f == Quantity
  {
    Defaults[f.Name()]
  }

  /** No default is itself missing. */
  lemma DefaultsPresent(f: Field)
    ensures !Absent(DefaultOf(f))
  {
    DefaultValues();
    DefaultsNotBlank();
  }

  /** None of the default strings is blank. */
  lemma DefaultsNotBlank()
    ensures !IsBlank("urea") && !IsBlank("organic") && !IsBlank("loamy")
    ensures !IsBlank("drip") && !IsBlank("medium")
  {
    NotBlankWhenFirstIsNotSpace("urea");
    NotBlankWhenFirstIsNotSpace("organic");
    NotBlankWhenFirstIsNotSpace("loamy");
    NotBlankWhenFirstIsNotSpace("drip");
    NotBlankWhenFirstIsNotSpace("medium");
  }

  /** What attribute `f` of `p` holds after the repair. */
  function Filled(p: Product, f: Field): Value {
    if IsMissing(p, f) then DefaultOf(f) else Get(p, f)
  }

  /** The repaired product: identity kept, each present attribute kept, each
      missing attribute replaced by its default. */
  function Repaired(p: Product): (r: Product)
    ensures r.id == p.id && r.name == p.name
    ensures forall f :: !IsMissing(p, f) ==> Get(r, f) == Get(p, f)
    ensures forall f :: IsMissing(p, f) ==> Get(r, f) == DefaultOf(f)
  {
    p.(fertilizer := Filled(p, Fertilizer).text,
       organic := Filled(p, Organic).text,
       soil := Filled(p, Soil).text,
       irrigation := Filled(p, Irrigation).text,
       quantity := Filled(p, Quantity).count,
       quality := Filled(p, Quality).text)
  }

  /** After the repair no attribute is missing. */
  lemma RepairedIsComplete(p: Product)
    ensures forall f :: !IsMissing(Repaired(p), f)
    ensures MissingFields(Repaired(p)) == []
  {
    var r := Repaired(p);
    forall f ensures !IsMissing(r, f) {
      if IsMissing(p, f) { DefaultsPresent(f); }
    }
    MissingFieldsSpec(r);
  }

  /** Repairing a repaired product changes nothing. */
  lemma RepairIdempotent(p: Product)
    ensures Repaired(Repaired(p)) == Repaired(p)
  {
    var r := Repaired(p);
    RepairedIsComplete(p);
    ProductsEqual(Repaired(r), r);
  }

  /** The repair changes a product exactly when some attribute is missing. */
  lemma RepairChangesIffMissing(p: Product)
    ensures Repaired(p) != p <==> MissingFields(p) != []
  {
    MissingFieldsSpec(p);
    if MissingFields(p) == [] {
      ProductsEqual(Repaired(p), p);
    } else {
      var f := MissingFields(p)[0];
      DefaultsPresent(f);
      assert IsMissing(p, f) && !IsMissing(Repaired(p), f);
    }
  }

  /** A quantity of 0 is present, so the repair keeps it. */
  lemma ZeroQuantityKept(p: Product)
    requires p.quantity == Some(0)
    ensures Repaired(p).quantity == Some(0)
  {
    assert Get(Repaired(p), Quantity) == Get(p, Quantity);
  }

  /** The repaired product written out field by field. */
  lemma RepairedFieldByField(p: Product)
    ensures Repaired(p) ==
      p.(fertilizer := if Absent(Text(p.fertilizer)) then Some("urea") else p.fertilizer,
         organic := if Absent(Text(p.organic)) then Some("organic") else p.organic,
         soil := if Absent(Text(p.soil)) then Some("loamy") else p.soil,
         irrigation := if Absent(Text(p.irrigation)) then Some("drip") else p.irrigation,
         quantity := if p.quantity.None? then Some(1) else p.quantity,
         quality := if Absent(Text(p.quality)) then Some("medium") else p.quality)
  {
    DefaultValues();
  }

  /** The body of the loop over products: fill each missing attribute from
      `get_default` and note that something changed. */
  method FixProduct(p: Product) returns (q: Product, changed: bool)
    ensures q == Repaired(p)
    ensures changed <==> MissingFields(p) != []
  {
    MissingFieldsSpec(p);
    DefaultValues();
    RepairedFieldByField(p);
    q, changed := p, false;
    if Absent(Text(q.fertilizer)) {
      q := q.(fertilizer := GetDefault("fertilizer").value.text);
      changed := true;
    }
    if Absent(Text(q.organic)) {
      q := q.(organic := GetDefault("organic").value.text);
      changed := true;
    }
    if Absent(Text(q.soil)) {
      q := q.(soil := GetDefault("soil").value.text);
      changed := true;
    }
    if Absent(Text(q.irrigation)) {
      q := q.(irrigation := GetDefault("irrigation").value.text);
      changed := true;
    }
    if q.quantity.None? {
      q := q.(quantity := GetDefault("quantity").value.count);
      changed := true;
    }
    if Absent(Text(q.quality)) {
      q := q.(quality := GetDefault("quality").value.text);
      changed := true;
    }
  }

  /** `q` and `c` are what the loop body makes of product `p`. */
  predicate FixedAs(p: Product, q: Product, c: bool) {
    q == Repaired(p) && (c <==> MissingFields(p) != [])
  }

  /** The script: every product of the list is repaired in place; the result
      holds each product's `changed` flag. */
  method FixProducts(products: array<Product>) returns (changed: seq<bool>)
    modifies products
    ensures |changed| == products.Length
    ensures forall i :: 0 <= i < products.Length ==> products[i] == Repaired(old(products[i]))
    ensures forall i :: 0 <= i < products.Length ==> (changed[i] <==> MissingFields(old(products[i])) != [])
  {
    ghost var before := products[..];
    changed := [];
    for i := 0 to products.Length
      invariant |changed| == i
      invariant forall k :: 0 <= k < i ==> FixedAs(before[k], products[k], changed[k])
      invariant forall k :: i <= k < products.Length ==> products[k] == before[k]
    {
      var fixedProduct, c := FixProduct(products[i]);
      products[i] := fixedProduct;
      changed := changed + [c];
    }
  }
}
