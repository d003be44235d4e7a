/** The product record the two maintenance scripts read and repair, and the
    "field is missing" test they share. */
module Products {
  import opened Text

  datatype Option<T> = None | Some(value: T)

  /** A stored product: its identity plus the six attributes the grading
      function consumes. Every attribute may be absent (`None`); quantity is
      an integer column, the others are strings. */
  datatype Product = Product(
    id: int,
    name: string,
    fertilizer: Option<string>,
    organic: Option<string>,
    soil: Option<string>,
    irrigation: Option<string>,
    quantity: Option<int>,
    quality: Option<string>)

  /** The six attributes, in the order the scripts examine them. */
  datatype Field = Fertilizer | Organic | Soil | Irrigation | Quantity | Quality {
    /** The attribute's name, as the scripts spell it. */
    function Name(): string {
      match this
      case Fertilizer => "fertilizer"
      case Organic => "organic"
      case Soil => "soil"
      case Irrigation => "irrigation"
      case Quantity => "quantity"
      case Quality => "quality"
    }

    /** The attribute's place in that order. */
    function Position(): nat {
      match this
      case Fertilizer => 0
      case Organic => 1
      case Soil => 2
      case Irrigation => 3
      case Quantity => 4
      case Quality => 5
    }
  }

  const AllFields: seq<Field> := [Fertilizer, Organic, Soil, Irrigation, Quantity, Quality]

  /** The value held in one attribute column. */
  datatype Value = Text(text: Option<string>) | Count(count: Option<int>)

  function Get(p: Product, f: Field): (v: Value)
    ensures v.Count? <==> f == Quantity
  {
    match f
    case Fertilizer => Text(p.fertilizer)
    case Organic => Text(p.organic)
    case Soil => Text(p.soil)
    case Irrigation => Text(p.irrigation)
    case Quantity => Count(p.quantity)
    case Quality => Text(p.quality)
  }

  /** The shared test: a string column is missing when it is None, empty or
      only whitespace (`not v or not v.strip()`); the quantity column only
      when it is None (`v is None`), so a quantity of 0 is present. */
  predicate Absent(v: Value) {
    match v
    case Text(t) => t.None? || IsBlank(t.value)
    case Count(n) => n.None?
  }

  predicate IsMissing(p: Product, f: Field) {
    Absent(Get(p, f))
  }

  /** The fields of `fields` that are missing from `p`, in their order. */
  function MissingAmong(p: Product, fields: seq<Field>): seq<Field> {
    if fields == [] then []
    else Entry(p, fields[0]) + MissingAmong(p, fields[1..])
  }

  /** The one-entry contribution of field `f` to a missing list. */
  function Entry(p: Product, f: Field): seq<Field> {
    if IsMissing(p, f) then [f] else []
  }

  /** The missing attributes of `p`, in the scripts' order. */
  function MissingFields(p: Product): seq<Field> {
    MissingAmong(p, AllFields)
  }

  /** Fields strictly increasing by position: in order and each at most once. */
  predicate InOrder(fields: seq<Field>) {
    forall i, j :: 0 <= i < j < |fields| ==> fields[i].Position() < fields[j].Position()
  }

  /** Filtering keeps exactly the missing members of the list filtered. */
  lemma {:induction false} MissingAmongMembers(p: Product, fields: seq<Field>)
    ensures |MissingAmong(p, fields)| <= |fields|
    ensures forall f :: f in MissingAmong(p, fields) <==> f in fields && IsMissing(p, f)
  {
    if fields != [] {
      MissingAmongMembers(p, fields[1..]);
    }
  }

  /** Filtering keeps the order of the list filtered. */
  lemma {:induction false} MissingAmongInOrder(p: Product, fields: seq<Field>)
    requires InOrder(fields)
    ensures InOrder(MissingAmong(p, fields))
  {
    if fields != [] {
      var rest := MissingAmong(p, fields[1..]);
      MissingAmongInOrder(p, fields[1..]);
      MissingAmongMembers(p, fields[1..]);
      forall f | f in rest ensures fields[0].Position() < f.Position() {
        var k :| 1 <= k < |fields| && fields[k] == f;
      }
    }
  }

  /** What the missing list is: exactly the missing attributes, in the order
      fertilizer, organic, soil, irrigation, quantity, quality, each once. */
  lemma MissingFieldsSpec(p: Product)
    ensures forall f :: f in MissingFields(p) <==> IsMissing(p, f)
    ensures InOrder(MissingFields(p))
    ensures MissingFields(p) == [] <==> forall f :: !IsMissing(p, f)
  {
    MissingAmongInOrder(p, AllFields);
    MissingAmongMembers(p, AllFields);
    forall f ensures f in AllFields {
      match f
      case Fertilizer => assert AllFields[0] == f;
      case Organic => assert AllFields[1] == f;
      case Soil => assert AllFields[2] == f;
      case Irrigation => assert AllFields[3] == f;
      case Quantity => assert AllFields[4] == f;
      case Quality => assert AllFields[5] == f;
    }
    if MissingFields(p) != [] {
      assert MissingFields(p)[0] in MissingFields(p);
    }
  }

  /** Filtering a list extended by one field extends the result by that
      field's entry: the missing list can be built by appending. */
  lemma {:induction false} MissingAmongSnoc(p: Product, fields: seq<Field>, f: Field)
    ensures MissingAmong(p, fields + [f]) == MissingAmong(p, fields) + Entry(p, f)
  {
    if fields == [] {
      assert [f][1..] == [];
    } else {
      assert (fields + [f])[1..] == fields[1..] + [f];
      MissingAmongSnoc(p, fields[1..], f);
    }
  }

  /** The missing list as the scripts build it: one optional entry per
      attribute, appended in order. */
  lemma MissingFieldsByAppending(p: Product)
    ensures MissingFields(p) ==
      Entry(p, Fertilizer) + Entry(p, Organic) + Entry(p, Soil) +
      Entry(p, Irrigation) + Entry(p, Quantity) + Entry(p, Quality)
  {
    var f1: seq<Field> := [Fertilizer];
    var f2 := f1 + [Organic];
    var f3 := f2 + [Soil];
    var f4 := f3 + [Irrigation];
    var f5 := f4 + [Quantity];
    assert f5 + [Quality] == AllFields;
    assert MissingAmong(p, f1) == Entry(p, Fertilizer) by {
      MissingAmongSnoc(p, [], Fertilizer);
      assert [] + [Fertilizer] == f1;
    }
    MissingAmongSnoc(p, f1, Organic);
    MissingAmongSnoc(p, f2, Soil);
    MissingAmongSnoc(p, f3, Irrigation);
    MissingAmongSnoc(p, f4, Quantity);
    MissingAmongSnoc(p, f5, Quality);
  }

  /** A string column is missing exactly when it is None or all whitespace. */
  lemma AbsentTextIff(t: Option<string>)
    ensures Absent(Text(t)) <==> t.None? || AllSpace(t.value)
  {
    if t.Some? { BlankIffAllSpace(t.value); }
  }

  /** What "missing" means for each kind of column: a string attribute is
      listed exactly when it is None or all whitespace (the empty string
      included), the quantity exactly when it is None, so 0 is present. */
  lemma MissingMeans(p: Product)
    ensures forall f :: f != Quantity ==>
              (f in MissingFields(p) <==> Get(p, f).text.None? || AllSpace(Get(p, f).text.value))
    ensures Quantity in MissingFields(p) <==> p.quantity.None?
  {
    MissingFieldsSpec(p);
    forall f | f != Quantity
      ensures f in MissingFields(p) <==> Get(p, f).text.None? || AllSpace(Get(p, f).text.value)
    {
      AbsentTextIff(Get(p, f).text);
    }
  }

  /** Records that agree on identity and on every attribute are equal. */
  lemma ProductsEqual(p: Product, q: Product)
    requires p.id == q.id && p.name == q.name
    requires forall f :: Get(p, f) == Get(q, f)
    ensures p == q
  {
    assert Get(p, Fertilizer) == Get(q, Fertilizer);
    assert Get(p, Organic) == Get(q, Organic);
    assert Get(p, Soil) == Get(q, Soil);
    assert Get(p, Irrigation) == Get(q, Irrigation);
    assert Get(p, Quantity) == Get(q, Quantity);
    assert Get(p, Quality) == Get(q, Quality);
  }
}
