/** The stocks table of routes/stocks.js: one row per (product, shop) pairing
    with a shelf counter and an order counter, the handlers that create,
    read, replace, delete, increase and decrease rows, and the joined filter. */
module Stocks {
  import opened Common
  import Products

  const StockFields: set<string> := {"product_id", "shelf_quantity", "order_quantity", "shop_id"}
  const ChangeFields: set<string> := {"shelf_quantity", "order_quantity"}
  const FilterFields: set<string> := {"plu", "shop_id", "shelf_min", "shelf_max", "order_min", "order_max"}

  datatype Stock = Stock(id: int, product_id: int, shop_id: int, shelf_quantity: int, order_quantity: int)

  /** The body stockSchema admits. */
  datatype StockInput = StockInput(product_id: int, shelf_quantity: int, order_quantity: int, shop_id: int)

  /** The body stockChangeSchema admits; None is an absent field. */
  datatype Delta = Delta(shelf_quantity: Option<int>, order_quantity: Option<int>)

  /** stockSchema: all four fields required, the two ids positive integers,
      the two quantities non-negative integers, no other field. */
  function ParseStock(b: Fields): (r: Option<StockInput>)
    ensures r.Some? <==>
      b.Keys == StockFields &&
      IsPositive(b["product_id"]) && IsNonNegative(b["shelf_quantity"]) &&
      IsNonNegative(b["order_quantity"]) && IsPositive(b["shop_id"])
    ensures r.Some? ==>
      r.value == StockInput(AsInteger(b["product_id"]).value, AsInteger(b["shelf_quantity"]).value,
                            AsInteger(b["order_quantity"]).value, AsInteger(b["shop_id"]).value)
  {
    if !OnlyKeys(b, StockFields) then None
    else
      match (RequiredPositive(b, "product_id"), RequiredNonNegative(b, "shelf_quantity"),
             RequiredNonNegative(b, "order_quantity"), RequiredPositive(b, "shop_id"))
      case (Some(p), Some(s), Some(o), Some(h)) => Some(StockInput(p, s, o, h))
      case _ => None
  }

  /** A body missing a field, carrying an unknown field, a non-positive id or
      a negative or fractional quantity is refused. */
  lemma StockBodyRejections(b: Fields)
    ensures (exists k :: k in StockFields && k !in b) ==> ParseStock(b).None?
    ensures (exists k :: k in b && k !in StockFields) ==> ParseStock(b).None?
    ensures "product_id" in b && AsInteger(b["product_id"]).Some? && AsInteger(b["product_id"]).value <= 0 ==> ParseStock(b).None?
    ensures "shop_id" in b && AsInteger(b["shop_id"]).Some? && AsInteger(b["shop_id"]).value <= 0 ==> ParseStock(b).None?
    ensures "shelf_quantity" in b && (b["shelf_quantity"] == JFraction || (b["shelf_quantity"].JInt? && b["shelf_quantity"].n < 0)) ==> ParseStock(b).None?
    ensures "order_quantity" in b && (b["order_quantity"] == JFraction || (b["order_quantity"].JInt? && b["order_quantity"].n < 0)) ==> ParseStock(b).None?
  {
  }

  /** stockChangeSchema: both quantities optional non-negative integers, no other field. */
  function ParseChange(b: Fields): (r: Option<Delta>)
    ensures r.Some? <==>
      OnlyKeys(b, ChangeFields) &&
      ("shelf_quantity" in b ==> IsNonNegative(b["shelf_quantity"])) &&
      ("order_quantity" in b ==> IsNonNegative(b["order_quantity"]))
    ensures r.Some? ==> r.value.shelf_quantity == (if "shelf_quantity" in b then Some(AsInteger(b["shelf_quantity"]).value) else None)
    ensures r.Some? ==> r.value.order_quantity == (if "order_quantity" in b then Some(AsInteger(b["order_quantity"]).value) else None)
    ensures r.Some? ==> NonNegative(r.value)
  {
    if !OnlyKeys(b, ChangeFields) then None
    else
      match (OptionalNonNegative(b, "shelf_quantity"), OptionalNonNegative(b, "order_quantity"))
      case (Some(s), Some(o)) => Some(Delta(s, o))
      case _ => None
  }

  predicate NonNegative(d: Delta)
  {
    (d.shelf_quantity.Some? ==> d.shelf_quantity.value >= 0) &&
    (d.order_quantity.Some? ==> d.order_quantity.value >= 0)
  }

  /** SQL COALESCE(x, 0): an absent delta counts as 0. */
  function Coalesce(o: Option<int>): int
  {
    if o.Some? then o.value else 0
  }

  /** SQL GREATEST(a, b). */
  function Greatest(a: int, b: int): int
  {
    if a < b then b else a
  }

  /** The row after `shelf_quantity + COALESCE($1, 0), order_quantity + COALESCE($2, 0)`. */
  function Increased(s: Stock, d: Delta): Stock
  {
    s.(shelf_quantity := s.shelf_quantity + Coalesce(d.shelf_quantity),
       order_quantity := s.order_quantity + Coalesce(d.order_quantity))
  }

  /** The row after `GREATEST(shelf_quantity - COALESCE($1, 0), 0)` and the
      same for order_quantity. */
  function Decreased(s: Stock, d: Delta): (r: Stock)
    ensures r.shelf_quantity >= 0 && r.order_quantity >= 0
    ensures NonNegative(d) && s.shelf_quantity >= 0 ==> r.shelf_quantity <= s.shelf_quantity
    ensures NonNegative(d) && s.order_quantity >= 0 ==> r.order_quantity <= s.order_quantity
    ensures r.id == s.id && r.product_id == s.product_id && r.shop_id == s.shop_id
  {
    s.(shelf_quantity := Greatest(s.shelf_quantity - Coalesce(d.shelf_quantity), 0),
       order_quantity := Greatest(s.order_quantity - Coalesce(d.order_quantity), 0))
  }

  /** Increase adds each supplied delta, an absent one adds nothing, and only
      the two counters change. */
  lemma IncreaseAddsDelta(s: Stock, d: Delta)
    ensures Increased(s, d).shelf_quantity == s.shelf_quantity + (if d.shelf_quantity.Some? then d.shelf_quantity.value else 0)
    ensures Increased(s, d).order_quantity == s.order_quantity + (if d.order_quantity.Some? then d.order_quantity.value else 0)
    ensures d == Delta(None, None) ==> Increased(s, d) == s
    ensures Increased(s, d).(shelf_quantity := s.shelf_quantity, order_quantity := s.order_quantity) == s
  {
  }

  /** Decrease saturates at zero: a counter at 0 stays 0 whatever the delta,
      and a delta larger than the counter empties it instead of failing. */
  lemma DecreaseClampsAtZero(s: Stock, d: Delta)
    requires NonNegative(d)
    ensures s.shelf_quantity == 0 ==> Decreased(s, d).shelf_quantity == 0
    ensures s.order_quantity == 0 ==> Decreased(s, d).order_quantity == 0
    ensures Coalesce(d.shelf_quantity) >= s.shelf_quantity ==> Decreased(s, d).shelf_quantity == 0
    ensures Coalesce(d.order_quantity) >= s.order_quantity ==> Decreased(s, d).order_quantity == 0
    ensures Coalesce(d.shelf_quantity) <= s.shelf_quantity ==> Decreased(s, d).shelf_quantity == s.shelf_quantity - Coalesce(d.shelf_quantity)
    ensures Coalesce(d.order_quantity) <= s.order_quantity ==> Decreased(s, d).order_quantity == s.order_quantity - Coalesce(d.order_quantity)
  {
  }

  /** Increase followed by decrease by the same delta restores a row with
      non-negative counters (the clamp cannot fire), and so does decrease
      followed by increase when the delta does not exceed the counters. */
  lemma IncreaseDecreaseRoundTrip(s: Stock, d: Delta)
    requires NonNegative(d) && s.shelf_quantity >= 0 && s.order_quantity >= 0
    ensures Decreased(Increased(s, d), d) == s
    ensures Coalesce(d.shelf_quantity) <= s.shelf_quantity && Coalesce(d.order_quantity) <= s.order_quantity ==>
              Increased(Decreased(s, d), d) == s
  {
  }

  /** Two deltas supplied as one: what a single combined request would add or subtract. */
  function Combined(d: Delta, e: Delta): Delta
  {
    Delta(Some(Coalesce(d.shelf_quantity) + Coalesce(e.shelf_quantity)),
          Some(Coalesce(d.order_quantity) + Coalesce(e.order_quantity)))
  }

  /** The delta a batch of requests adds up to. */
  function Total(ds: seq<Delta>): (t: Delta)
    ensures (forall i :: 0 <= i < |ds| ==> NonNegative(ds[i])) ==> NonNegative(t)
  {
    if ds == [] then Delta(None, None) else Combined(Total(ds[..|ds| - 1]), ds[|ds| - 1])
  }

  /** A batch of increases applied one statement at a time. */
  function IncreaseAll(s: Stock, ds: seq<Delta>): Stock
  {
    if ds == [] then s else Increased(IncreaseAll(s, ds[..|ds| - 1]), ds[|ds| - 1])
  }

  /** A batch of decreases applied one statement at a time. */
  function DecreaseAll(s: Stock, ds: seq<Delta>): Stock
  {
    if ds == [] then s else Decreased(DecreaseAll(s, ds[..|ds| - 1]), ds[|ds| - 1])
  }

  /** Concurrent increases serialised by the store in either order give the same row. */
  lemma IncreasesCommute(s: Stock, d: Delta, e: Delta)
    ensures Increased(Increased(s, d), e) == Increased(Increased(s, e), d)
  {
  }

  /** However a batch of increases is serialised, the row ends where one
      increase by the summed delta would put it. */
  lemma {:induction false} IncreaseAllIsOneIncrease(s: Stock, ds: seq<Delta>)
    ensures IncreaseAll(s, ds) == Increased(s, Total(ds))
  {
    if ds != [] {
      IncreaseAllIsOneIncrease(s, ds[..|ds| - 1]);
    }
  }

  /** A batch of non-negative decreases, each clamped on its own, removes
      exactly what one decrease by the summed delta removes: clamping
      sequential decreases loses nothing. */
  lemma {:induction false} DecreaseAllIsOneDecrease(s: Stock, ds: seq<Delta>)
    requires s.shelf_quantity >= 0 && s.order_quantity >= 0
    requires forall i :: 0 <= i < |ds| ==> NonNegative(ds[i])
    ensures DecreaseAll(s, ds) == Decreased(s, Total(ds))
  {
    if ds != [] {
      var init := ds[..|ds| - 1];
      assert forall i :: 0 <= i < |init| ==> NonNegative(init[i]) by {
        forall i | 0 <= i < |init| ensures NonNegative(init[i]) { assert init[i] == ds[i]; }
      }
      DecreaseAllIsOneDecrease(s, init);
    }
  }

  /** An increase and a decrease on the same row do not commute: the
      clamp makes the outcome depend on which statement the store runs first. */
  lemma IncreaseDecreaseOrderMatters()
    ensures var s := Stock(1, 1, 1, 0, 0);
            var d := Delta(Some(5), None);
            var e := Delta(Some(10), None);
            Decreased(Increased(s, d), e) != Increased(Decreased(s, e), d)
  {
  }

  /** The stocks table: rows by id, the serial sequence that numbers them,
      and the two tables its foreign keys point to. */
  class StockTable {
    var rows: map<int, Stock>
    var nextId: int
    /** products.id is the target of stocks.product_id */
    const catalog: Products.ProductTable
    /** shops.id is the target of stocks.shop_id; no handler changes the shops table */
    const shops: set<int>

    /** Ids match keys and stay below the sequence, counters are
        non-negative, and both foreign keys resolve. */
    ghost predicate Valid()
      reads this, catalog
    {
      nextId >= 1 &&
      forall k :: k in rows ==>
        rows[k].id == k && 1 <= k < nextId &&
        rows[k].shelf_quantity >= 0 && rows[k].order_quantity >= 0 &&
        rows[k].product_id in catalog.rows && rows[k].shop_id in shops
    }

    constructor (catalog: Products.ProductTable, shops: set<int>)
      ensures Valid() && rows == map[] && nextId == 1
      ensures this.catalog == catalog && this.shops == shops
    {
      rows := map[];
      nextId := 1;
      this.catalog := catalog;
      this.shops := shops;
    }

    /** POST /stocks. Validation comes first; the INSERT draws the next serial
        id, which is spent even when a foreign key fails (code 23503, answered 400). */
    method Create(body: Fields, outage: bool) returns (r: Result<Stock>)
      requires Valid()
      modifies this
      ensures Valid()
      ensures ParseStock(body).None? ==> r == Err(ValidationError) && rows == old(rows) && nextId == old(nextId)
      ensures ParseStock(body).Some? && outage ==> r == Err(StoreError) && rows == old(rows) && nextId == old(nextId)
      ensures ParseStock(body).Some? && !outage ==>
        var input := ParseStock(body).value;
        nextId == old(nextId) + 1 &&
        if input.product_id !in catalog.rows || input.shop_id !in shops then
          r == Err(FkConflict) && rows == old(rows)
        else
          r == Ok(Stock(old(nextId), input.product_id, input.shop_id, input.shelf_quantity, input.order_quantity)) &&
          old(nextId) !in old(rows) && rows == old(rows)[old(nextId) := r.value]
    {
      var input := ParseStock(body);
      if input.None? {
        return Err(ValidationError);
      }
      if outage {
        return Err(StoreError);
      }
      var id := nextId;
      nextId := nextId + 1;
      var v := input.value;
      if v.product_id !in catalog.rows || v.shop_id !in shops {
        return Err(FkConflict);
      }
      var row := Stock(id, v.product_id, v.shop_id, v.shelf_quantity, v.order_quantity);
      rows := rows[id := row];
      r := Ok(row);
    }

    /** GET /stocks: every row. */
    method List(outage: bool) returns (r: Result<map<int, Stock>>)
      requires Valid()
      ensures outage ==> r == Err(StoreError)
      ensures !outage ==> r.Ok? && r.value.Keys == rows.Keys && forall k :: k in r.value ==> r.value[k] == rows[k]
    {
      if outage {
        return Err(StoreError);
      }
      r := Ok(rows);
    }

    /** GET /stocks/:id. The path id is compared with product_id, not with
        the row id; the SELECT has no ORDER BY, so when several rows hold that
        product any one of them is answered. */
    method GetByProduct(id: string, outage: bool) returns (r: Result<Stock>)
      requires Valid()
      ensures ParseId(id).None? ==> r == Err(ValidationError)
      ensures ParseId(id).Some? && outage ==> r == Err(StoreError)
      ensures ParseId(id).Some? && !outage ==>
        (r.Ok? <==> exists k :: k in rows && rows[k].product_id == ParseId(id).value) &&
        (r.Err? ==> r.failure == NotFound)
      ensures r.Ok? ==> r.value.id in rows && rows[r.value.id] == r.value && r.value.product_id == ParseId(id).value
    {
      var pid := ParseId(id);
      if pid.None? {
        return Err(ValidationError);
      }
      if outage {
        return Err(StoreError);
      }
      if exists k :: k in rows && rows[k].product_id == pid.value {
        var k :| k in rows && rows[k].product_id == pid.value;
        r := Ok(rows[k]);
      } else {
        r := Err(NotFound);
      }
    }

    /** PUT /stocks/:id. Both the id and the full body are validated, but the
        UPDATE writes only shelf_quantity, order_quantity and shop_id: the
        required product_id is ignored. */
    method Replace(id: string, body: Fields, outage: bool) returns (r: Result<Stock>)
      requires Valid()
      modifies this
      ensures Valid() && nextId == old(nextId)
      ensures ParseId(id).None? || ParseStock(body).None? ==> r == Err(ValidationError) && rows == old(rows)
      ensures ParseId(id).Some? && ParseStock(body).Some? ==>
        var k, input := ParseId(id).value, ParseStock(body).value;
        if outage then r == Err(StoreError) && rows == old(rows)
        else if k !in old(rows) then r == Err(NotFound) && rows == old(rows)
        else if input.shop_id !in shops then r == Err(FkConflict) && rows == old(rows)
        else
          r == Ok(old(rows)[k].(shop_id := input.shop_id,
                                shelf_quantity := input.shelf_quantity,
                                order_quantity := input.order_quantity)) &&
          rows == old(rows)[k := r.value]
      ensures r.Ok? ==> r.value.id == ParseId(id).value && r.value.product_id == old(rows)[r.value.id].product_id
    {
      var k := ParseId(id);
      if k.None? {
        return Err(ValidationError);
      }
      var input := ParseStock(body);
      if input.None? {
        return Err(ValidationError);
      }
      if outage {
        return Err(StoreError);
      }
      if k.value !in rows {
        return Err(NotFound);
      }
      var v := input.value;
      if v.shop_id !in shops {
        return Err(FkConflict);
      }
      var row := rows[k.value].(shop_id := v.shop_id, shelf_quantity := v.shelf_quantity, order_quantity := v.order_quantity);
      rows := rows[k.value := row];
      r := Ok(row);
    }

    /** DELETE /stocks/:id: removes the row and answers it. */
    method Delete(id: string, outage: bool) returns (r: Result<Stock>)
      requires Valid()
      modifies this
      ensures Valid() && nextId == old(nextId)
      ensures ParseId(id).None? ==> r == Err(ValidationError) && rows == old(rows)
      ensures ParseId(id).Some? ==>
        var k := ParseId(id).value;
        if outage then r == Err(StoreError) && rows == old(rows)
        else if k !in old(rows) then r == Err(NotFound) && rows == old(rows)
        else r == Ok(old(rows)[k]) && rows == old(rows) - {k}
    {
      var k := ParseId(id);
      if k.None? {
        return Err(ValidationError);
      }
      if outage {
        return Err(StoreError);
      }
      if k.value !in rows {
        return Err(NotFound);
      }
      r := Ok(rows[k.value]);
      rows := rows - {k.value};
    }

    /** PUT /stocks/increase/:id: one UPDATE adds both deltas, an absent one as 0. */
    method Increase(id: string, body: Fields, outage: bool) returns (r: Result<Stock>)
      requires Valid()
      modifies this
      ensures Valid() && nextId == old(nextId)
      ensures ParseId(id).None? || ParseChange(body).None? ==> r == Err(ValidationError) && rows == old(rows)
      ensures ParseId(id).Some? && ParseChange(body).Some? ==>
        var k, d := ParseId(id).value, ParseChange(body).value;
        if outage then r == Err(StoreError) && rows == old(rows)
        else if k !in old(rows) then r == Err(NotFound) && rows == old(rows)
        else r == Ok(Increased(old(rows)[k], d)) && rows == old(rows)[k := r.value]
    {
      var k := ParseId(id);
      if k.None? {
        return Err(ValidationError);
      }
      var d := ParseChange(body);
      if d.None? {
        return Err(ValidationError);
      }
      if outage {
        return Err(StoreError);
      }
      if k.value !in rows {
        return Err(NotFound);
      }
      var row := Increased(rows[k.value], d.value);
      rows := rows[k.value := row];
      r := Ok(row);
    }

    /** PUT /stocks/decrease/:id: one UPDATE subtracts both deltas, clamping each counter at 0. */
    method Decrease(id: string, body: Fields, outage: bool) returns (r: Result<Stock>)
      requires Valid()
      modifies this
      ensures Valid() && nextId == old(nextId)
      ensures ParseId(id).None? || ParseChange(body).None? ==> r == Err(ValidationError) && rows == old(rows)
      ensures ParseId(id).Some? && ParseChange(body).Some? ==>
        var k, d := ParseId(id).value, ParseChange(body).value;
        if outage then r == Err(StoreError) && rows == old(rows)
        else if k !in old(rows) then r == Err(NotFound) && rows == old(rows)
        else r == Ok(Decreased(old(rows)[k], d)) && rows == old(rows)[k := r.value]
    {
      var k := ParseId(id);
      if k.None? {
        return Err(ValidationError);
      }
      var d := ParseChange(body);
      if d.None? {
        return Err(ValidationError);
      }
      if outage {
        return Err(StoreError);
      }
      if k.value !in rows {
        return Err(NotFound);
      }
      var row := Decreased(rows[k.value], d.value);
      rows := rows[k.value := row];
      r := Ok(row);
    }
  }

  /** The query GET /stocks/filter admits. None is an absent field. */
  datatype StockFilter = StockFilter(
    plu: Option<string>, shop_id: Option<int>,
    shelf_min: Option<int>, shelf_max: Option<int>,
    order_min: Option<int>, order_max: Option<int>)

  function ParseFilter(q: Fields): (r: Option<StockFilter>)
    ensures r.Some? <==>
      OnlyKeys(q, FilterFields) &&
      ("plu" in q ==> IsText(q["plu"])) && ("shop_id" in q ==> IsPositive(q["shop_id"])) &&
      ("shelf_min" in q ==> IsNonNegative(q["shelf_min"])) && ("shelf_max" in q ==> IsNonNegative(q["shelf_max"])) &&
      ("order_min" in q ==> IsNonNegative(q["order_min"])) && ("order_max" in q ==> IsNonNegative(q["order_max"]))
    ensures r.Some? ==>
      (r.value.plu.None? <==> "plu" !in q) && (r.value.shop_id.None? <==> "shop_id" !in q) &&
      (r.value.shelf_min.None? <==> "shelf_min" !in q) && (r.value.shelf_max.None? <==> "shelf_max" !in q) &&
      (r.value.order_min.None? <==> "order_min" !in q) && (r.value.order_max.None? <==> "order_max" !in q)
    ensures r.Some? && r.value.shelf_min.Some? ==> r.value.shelf_min.value == AsInteger(q["shelf_min"]).value
    ensures r.Some? && r.value.shelf_max.Some? ==> r.value.shelf_max.value == AsInteger(q["shelf_max"]).value
    ensures r.Some? && r.value.order_min.Some? ==> r.value.order_min.value == AsInteger(q["order_min"]).value
    ensures r.Some? && r.value.order_max.Some? ==> r.value.order_max.value == AsInteger(q["order_max"]).value
    ensures r.Some? && r.value.shop_id.Some? ==> r.value.shop_id.value == AsInteger(q["shop_id"]).value
    ensures r.Some? && r.value.plu.Some? ==> q["plu"] == JString(r.value.plu.value)
  {
    var plu, shop := OptionalText(q, "plu"), OptionalPositive(q, "shop_id");
    var smin, smax := OptionalNonNegative(q, "shelf_min"), OptionalNonNegative(q, "shelf_max");
    var omin, omax := OptionalNonNegative(q, "order_min"), OptionalNonNegative(q, "order_max");
    if !OnlyKeys(q, FilterFields) || plu.None? || shop.None? || smin.None? || smax.None? || omin.None? || omax.None? then
      None
    else
      Some(StockFilter(plu.value, shop.value, smin.value, smax.value, omin.value, omax.value))
  }

  /** A row of `stocks JOIN products`: the stock with its product's plu and name. */
  datatype JoinedRow = JoinedRow(stock: Stock, plu: string, name: string)

  /** The inner join on stocks.product_id = products.id, keyed by stock id. */
  function Join(stocks: map<int, Stock>, products: map<int, Products.Product>): map<int, JoinedRow>
  {
    map k | k in stocks && stocks[k].product_id in products ::
      JoinedRow(stocks[k], products[stocks[k].product_id].plu, products[stocks[k].product_id].name)
  }

  /** The WHERE clause: each `$n IS NULL OR <test>` term is a no-op for an
      absent field and the terms are conjoined. */
  predicate Admits(f: StockFilter, j: JoinedRow)
  {
    (f.plu.None? || j.plu == f.plu.value) &&
    (f.shop_id.None? || j.stock.shop_id == f.shop_id.value) &&
    (f.shelf_min.None? || j.stock.shelf_quantity >= f.shelf_min.value) &&
    (f.shelf_max.None? || j.stock.shelf_quantity <= f.shelf_max.value) &&
    (f.order_min.None? || j.stock.order_quantity >= f.order_min.value) &&
    (f.order_max.None? || j.stock.order_quantity <= f.order_max.value)
  }

  /** GET /stocks/filter, as the handler computes it. As registered the
      router never reaches it (see FilterIsShadowed). */
  function Filter(stocks: map<int, Stock>, products: map<int, Products.Product>, q: Fields, outage: bool): (r: Result<map<int, JoinedRow>>)
    ensures ParseFilter(q).None? <==> r == Err(ValidationError)
    ensures ParseFilter(q).Some? && outage ==> r == Err(StoreError)
    ensures ParseFilter(q).Some? && !outage ==> r.Ok?
    ensures r.Ok? ==> forall k :: k in r.value <==> k in Join(stocks, products) && Admits(ParseFilter(q).value, Join(stocks, products)[k])
    ensures r.Ok? ==> forall k :: k in r.value ==> r.value[k] == Join(stocks, products)[k]
  {
    match ParseFilter(q)
    case None => Err(ValidationError)
    case Some(f) =>
      if outage then Err(StoreError)
      else
        var joined := Join(stocks, products);
        Ok(map k | k in joined && Admits(f, joined[k]) :: joined[k])
  }

  /** With no field the filter is the whole join, and when every stock's
      product exists (the foreign key) that join holds every stock row. */
  lemma FilterWithoutFields(stocks: map<int, Stock>, products: map<int, Products.Product>)
    ensures Filter(stocks, products, map[], false) == Ok(Join(stocks, products))
    ensures (forall k :: k in stocks ==> stocks[k].product_id in products) ==>
              Join(stocks, products).Keys == stocks.Keys &&
              forall k :: k in stocks ==> Join(stocks, products)[k].stock == stocks[k]
  {
    var f := StockFilter(None, None, None, None, None, None);
    assert ParseFilter(map[]) == Some(f);
    var joined := Join(stocks, products);
    var r := Filter(stocks, products, map[], false);
    assert forall k :: k in r.value <==> k in joined;
    assert forall k :: k in r.value ==> r.value[k] == joined[k];
    assert r.value == joined;
    if forall k :: k in stocks ==> stocks[k].product_id in products {
      assert forall k :: k in joined <==> k in stocks;
      assert joined.Keys == stocks.Keys;
    }
  }

  /** `shelf_min=n&shelf_max=n` selects exactly the joined rows whose shelf
      quantity is n. */
  lemma {:induction false} FilterExactShelf(stocks: map<int, Stock>, products: map<int, Products.Product>, n: nat)
    requires n <= MaxSafeInteger
    ensures var q := map["shelf_min" := JString(Decimal(n)), "shelf_max" := JString(Decimal(n))];
            var r := Filter(stocks, products, q, false);
            r.Ok? && forall k :: k in r.value <==> k in Join(stocks, products) && Join(stocks, products)[k].stock.shelf_quantity == n
  {
    var q := map["shelf_min" := JString(Decimal(n)), "shelf_max" := JString(Decimal(n))];
    NumeralOfDecimal(n);
    assert AsInteger(JString(Decimal(n))) == Some(n);
    var f := ParseFilter(q);
    assert f.Some? && f.value == StockFilter(None, None, Some(n), Some(n), None, None);
  }

  /** The handler a one-segment GET /stocks/<segment> reaches. */
  datatype GetRoute = GetById(id: string) | GetFilter

  /** Express tries the routes in registration order. GET /:id is
      registered before GET /filter and matches any single segment, so it
      takes every one, "filter" included. */
  function RouteAsWritten(segment: string): GetRoute
  {
    GetById(segment)
  }

  /** The dispatch with GET /filter registered ahead of GET /:id. */
  function RouteIntended(segment: string): GetRoute
  {
    if segment == "filter" then GetFilter else GetById(segment)
  }

  /** As registered, GET /stocks/filter never reaches the filter: the id
      handler takes it and answers 400, since "filter" is not an id. */
  lemma FilterIsShadowed()
    ensures RouteAsWritten("filter") == GetById("filter") && ParseId("filter").None?
    ensures forall segment :: RouteAsWritten(segment) != GetFilter
  {
    WordIsNotAnId("filter");
  }

  /** With /filter registered first the filter is reachable, and every
      segment that is a valid id still reaches the id handler. */
  lemma IntendedRouteReachesFilter(segment: string)
    ensures RouteIntended(segment) == GetFilter <==> segment == "filter"
    ensures ParseId(segment).Some? ==> RouteIntended(segment) == RouteAsWritten(segment)
  {
    if segment == "filter" {
      WordIsNotAnId(segment);
    }
  }
}
