/** The products table of routes/products.js: creation under a unique `plu`
    and the name/plu search. */
module Products {
  import opened Common

  datatype Product = Product(id: int, plu: string, name: string)

  /** The body productSchema admits. */
  datatype ProductInput = ProductInput(plu: string, name: string)

  const ProductFields: set<string> := {"plu", "name"}
  const SearchFields: set<string> := {"name", "plu"}

  /** productSchema: `plu` and `name` are required strings, nothing else is allowed. */
  function ParseProduct(b: Fields): (r: Option<ProductInput>)
    ensures r.Some? <==> b.Keys == ProductFields && IsText(b["plu"]) && IsText(b["name"])
    ensures r.Some? ==> b["plu"] == JString(r.value.plu) && b["name"] == JString(r.value.name)
    ensures (exists k :: k in b && k !in ProductFields) ==> r.None?
  {
    if !OnlyKeys(b, ProductFields) then None
    else
      match (RequiredText(b, "plu"), RequiredText(b, "name"))
      case (Some(plu), Some(name)) => Some(ProductInput(plu, name))
      case _ => None
  }

  /** Some stored product already carries this plu. */
  predicate PluTaken(rows: map<int, Product>, plu: string)
  {
    exists k :: k in rows && rows[k].plu == plu
  }

  /** The unique constraint on products.plu. */
  ghost predicate PluUnique(rows: map<int, Product>)
  {
    forall a, b :: a in rows && b in rows && rows[a].plu == rows[b].plu ==> a == b
  }

  /** The products table: rows by id and the serial sequence that numbers them. */
  class ProductTable {
    var rows: map<int, Product>
    var nextId: int

    ghost predicate Valid()
      reads this
    {
      nextId >= 1 &&
      (forall k :: k in rows ==> rows[k].id == k && 1 <= k < nextId) &&
      PluUnique(rows)
    }

    constructor ()
      ensures Valid() && rows == map[] && nextId == 1
    {
      rows := map[];
      nextId := 1;
    }

    /** POST /products. Validation comes first; the INSERT then draws the next
        serial id, which is spent even when the unique constraint refuses the
        row (code 23505, answered 400). */
    method Create(body: Fields, outage: bool) returns (r: Result<Product>)
      requires Valid()
      modifies this
      ensures Valid()
      ensures ParseProduct(body).None? ==> r == Err(ValidationError) && rows == old(rows) && nextId == old(nextId)
      ensures ParseProduct(body).Some? && outage ==> r == Err(StoreError) && rows == old(rows) && nextId == old(nextId)
      ensures ParseProduct(body).Some? && !outage ==>
        var input := ParseProduct(body).value;
        nextId == old(nextId) + 1 &&
        if PluTaken(old(rows), input.plu) then
          r == Err(UniqueConflict) && rows == old(rows)
        else
          r == Ok(Product(old(nextId), input.plu, input.name)) &&
          old(nextId) !in old(rows) && rows == old(rows)[old(nextId) := r.value]
    {
      var input := ParseProduct(body);
      if input.None? {
        return Err(ValidationError);
      }
      if outage {
        return Err(StoreError);
      }
      var id := nextId;
      nextId := nextId + 1;
      if PluTaken(rows, input.value.plu) {
        return Err(UniqueConflict);
      }
      var p := Product(id, input.value.plu, input.value.name);
      rows := rows[id := p];
      r := Ok(p);
    }
  }

  /** The query GET /products admits: both fields optional strings. */
  datatype ProductQuery = ProductQuery(name: Option<string>, plu: Option<string>)

  function ParseProductQuery(q: Fields): (r: Option<ProductQuery>)
    ensures r.Some? <==> OnlyKeys(q, SearchFields) &&
                         ("name" in q ==> IsText(q["name"])) && ("plu" in q ==> IsText(q["plu"]))
    ensures r.Some? ==> (r.value.name.None? <==> "name" !in q) && (r.value.plu.None? <==> "plu" !in q)
    ensures r.Some? && r.value.name.Some? ==> q["name"] == JString(r.value.name.value)
    ensures r.Some? && r.value.plu.Some? ==> q["plu"] == JString(r.value.plu.value)
  {
    if !OnlyKeys(q, SearchFields) then None
    else
      match (OptionalText(q, "name"), OptionalText(q, "plu"))
      case (Some(name), Some(plu)) => Some(ProductQuery(name, plu))
      case _ => None
  }

  /** A string with every character passed through a case-normalising map. */
  function Folded(s: string, fold: char -> char): (r: string)
    ensures |r| == |s|
  {
    if s == [] then [] else [fold(s[0])] + Folded(s[1..], fold)
  }

  /** `needle` occurs in `hay` as a contiguous run: it is a prefix of `hay`
      or of one of its suffixes. */
  predicate Contains(hay: string, needle: string)
  {
    needle <= hay || (|hay| > 0 && Contains(hay[1..], needle))
  }

  /** The WHERE clause: `name ILIKE '%' || $1 || '%'` when a name is given,
      `plu = $2` when a plu is given; an absent field is a no-op. */
  predicate Matches(p: Product, f: ProductQuery, fold: char -> char)
  {
    (f.name.None? || Contains(Folded(p.name, fold), Folded(f.name.value, fold))) &&
    (f.plu.None? || p.plu == f.plu.value)
  }

  /** GET /products: the matching rows, by id. */
  function Search(rows: map<int, Product>, q: Fields, fold: char -> char, outage: bool): (r: Result<map<int, Product>>)
    ensures ParseProductQuery(q).None? <==> r == Err(ValidationError)
    ensures ParseProductQuery(q).Some? && outage ==> r == Err(StoreError)
    ensures ParseProductQuery(q).Some? && !outage ==> r.Ok?
    ensures r.Ok? ==> forall k :: k in r.value <==> k in rows && Matches(rows[k], ParseProductQuery(q).value, fold)
    ensures r.Ok? ==> forall k :: k in r.value ==> r.value[k] == rows[k]
  {
    match ParseProductQuery(q)
    case None => Err(ValidationError)
    case Some(f) =>
      if outage then Err(StoreError)
      else Ok(map k | k in rows && Matches(rows[k], f, fold) :: rows[k])
  }

  /** With neither `name` nor `plu` the search returns every product. */
  lemma SearchWithoutFilters(rows: map<int, Product>, fold: char -> char)
    ensures Search(rows, map[], fold, false) == Ok(rows)
  {
    var f := ProductQuery(None, None);
    assert ParseProductQuery(map[]) == Some(f);
    assert forall p :: Matches(p, f, fold);
    var r := Search(rows, map[], fold, false);
    assert forall k :: k in r.value <==> k in rows;
    assert forall k :: k in r.value ==> r.value[k] == rows[k];
    assert r.value == rows;
  }

  /** A product whose name equals the searched name (after folding) is found. */
  lemma SearchFindsEqualName(rows: map<int, Product>, name: string, fold: char -> char, k: int)
    requires |name| > 0 && k in rows && Folded(rows[k].name, fold) == Folded(name, fold)
    ensures Search(rows, map["name" := JString(name)], fold, false).Ok?
    ensures k in Search(rows, map["name" := JString(name)], fold, false).value
  {
    assert ParseProductQuery(map["name" := JString(name)]) == Some(ProductQuery(Some(name), None));
  }

  /** `plu` is an exact match, and under the unique constraint it selects at
      most one product: exactly the one holding that plu, if any. */
  lemma {:induction false} SearchByPluIsExact(rows: map<int, Product>, plu: string, fold: char -> char)
    requires |plu| > 0 && PluUnique(rows)
    ensures Search(rows, map["plu" := JString(plu)], fold, false).Ok?
    ensures var found := Search(rows, map["plu" := JString(plu)], fold, false).value;
            (forall k :: k in found <==> k in rows && rows[k].plu == plu) && |found| <= 1
  {
    var q := map["plu" := JString(plu)];
    assert ParseProductQuery(q) == Some(ProductQuery(None, Some(plu)));
    var found := Search(rows, q, fold, false).value;
    if exists k :: k in rows && rows[k].plu == plu {
      var k :| k in rows && rows[k].plu == plu;
      assert forall j :: j in found.Keys <==> j in {k};
      assert found.Keys == {k};
    } else {
      assert forall j :: j in found.Keys <==> j in {};
      assert found.Keys == {};
    }
  }
}
