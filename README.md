# Product-Stock-Service in Dafny

A model of the three route modules of an inventory service backed by
PostgreSQL, and proofs about the model. The modules are:

- `routes/stocks.js`: stock rows per (product, shop) with shelf and order counters;
- `routes/products.js`: the product catalogue with a unique `plu`;
- `routes/history.js`: the paginated history query.

The model has one file per module, plus one shared file and one scenario:

- `common.dfy` (module `Common`). Handler outcomes (`Result`, `Failure` and the
  HTTP status of each failure). Request values (`Json`, `Fields`). The Joi
  rules the schemas are built from: integer conversion of numeral strings,
  `positive()`, `min(0)`, non-empty `string()`, required or optional fields,
  unknown keys refused.
- `products.dfy` (module `Products`).
  - The class `ProductTable` holds the `products` table and its serial
    sequence. `Create` inserts under the unique `plu` constraint.
  - The pure function `Search` is the name/plu filter.
- `stocks.dfy` (module `Stocks`).
  - The class `StockTable` holds the `stocks` table, its serial sequence
    and the two tables its foreign keys point to. It has the create, list,
    get, replace, delete, increase and decrease handlers as methods.
  - The pure functions are the schemas, the counter arithmetic
    (`Increased`, `Decreased`), the joined filter (`Filter`) and the GET
    route dispatch.
- `history.dfy` (module `History`).
  - `ParseHistoryFilter` is the schema with its pagination defaults.
  - The methods `BuildStatement` and `BuildQuery` build the SQL text and
    its parameter array step by step, as the handler does.
  - They are proved against the reference function `StatementFor`.
    Lemmas about `StatementFor` show that the placeholders are `$1..$n` in
    step with the parameters.
- `scenario.dfy` (module `Scenario`): one row's life cycle through the stock
  handlers.

How the model treats the environment:

- **Store failures** other than constraint violations (connection loss,
  timeouts) come in as a boolean `outage` and give `StoreError` (500).
- **Serial ids.** The id sequence is `nextId`. PostgreSQL draws the next
  value before it checks constraints, so an INSERT refused by a foreign or
  unique key still uses up an id.
- **Dates.** The ISO 8601 date parser is a parameter `iso`.
- **ILIKE.** The case folding of `ILIKE` is a parameter `fold`.

Facts about the code that the model makes explicit:

- The replace handler writes `shop_id`, `shelf_quantity` and `order_quantity`.
  `product_id` is validated but not written.
- GET `/stocks/:id` looks rows up by `product_id`, not by the row id.
- No stock handler writes a history row.
- A batch of clamped decreases by non-negative amounts equals one decrease
  by their sum (`DecreaseAllIsOneDecrease`). What depends on order is an
  increase interleaved with a decrease (`IncreaseDecreaseOrderMatters`).

## Model

| member | source | states |
|---|---|---|
| Common.ReadsDecimal | routes/stocks.js:8-11 | Joi `number().integer()` converts the decimal numeral of any safe integer, with or without a minus sign, to that integer |
| Common.ParseId | routes/stocks.js:61-65 | the path id is accepted exactly when it is a positive integer numeral, and the result is the number it denotes |
| Common.WordIsNotAnId | routes/stocks.js:61-65 | a path segment starting with anything but a digit or a sign is refused as an id |
| Products.ParseProduct | routes/products.js:7-10 | `productSchema` accepts exactly bodies with the keys `plu` and `name`, both non-empty strings, and returns those two strings |
| Products.ProductTable.Create | routes/products.js:13-34 | an invalid body gives 400 and no change; otherwise the serial id is drawn; a taken `plu` gives 400 (23505) with the table unchanged; else the row `(id, plu, name)` is added under a fresh id; the `plu` stays unique |
| Products.ParseProductQuery | routes/products.js:41-48 | the product query accepts only `name` and `plu`, each an optional non-empty string, and reports which were given |
| Products.Search | routes/products.js:37-60 | 400 on a bad query, 500 on a store failure; otherwise a product is returned exactly when its folded name contains the folded `name` and its `plu` equals `plu`, for each field given |
| Products.SearchWithoutFilters | routes/products.js:50-53 | with neither field, every product is returned |
| Products.SearchFindsEqualName | routes/products.js:51 | a product whose name equals the searched name up to folding is found |
| Products.SearchByPluIsExact | routes/products.js:52 | the `plu` filter finds exactly the products holding that `plu`, and under the unique constraint at most one |
| Stocks.ParseStock | routes/stocks.js:7-12 | `stockSchema` accepts exactly bodies with the four keys, positive ids and non-negative quantities, and returns their values |
| Stocks.StockBodyRejections | routes/stocks.js:7-12 | a missing field, an unknown field, a non-positive id, or a negative or fractional quantity is refused |
| Stocks.ParseChange | routes/stocks.js:15-18 | `stockChangeSchema` accepts exactly bodies whose only keys are the two quantities, each optional and non-negative; an absent one is None |
| Stocks.Decreased | routes/stocks.js:195-196 | after a decrease both counters are non-negative, neither grows, and id, product and shop stay |
| Stocks.IncreaseAddsDelta | routes/stocks.js:158-159 | an increase adds each given delta, an absent delta adds 0, and only the two counters change |
| Stocks.DecreaseClampsAtZero | routes/stocks.js:195-196 | a counter at 0 stays 0; a delta at least the counter empties it; a smaller delta subtracts exactly |
| Stocks.IncreaseDecreaseRoundTrip | routes/stocks.js:155-200 | an increase then a decrease by the same delta restores the row; so does a decrease then an increase when no clamp fires |
| Stocks.IncreasesCommute | routes/stocks.js:155-163 | two increases give the same row in either order |
| Stocks.IncreaseAllIsOneIncrease | routes/stocks.js:155-163 | a batch of increases, applied one statement at a time, equals one increase by the summed delta |
| Stocks.DecreaseAllIsOneDecrease | routes/stocks.js:192-200 | a batch of non-negative decreases, each clamped on its own, equals one decrease by the summed delta |
| Stocks.IncreaseDecreaseOrderMatters | routes/stocks.js:155-200 | an increase and a decrease on one row can give different rows depending on which runs first |
| Stocks.StockTable.Create | routes/stocks.js:21-43 | 400 on an invalid body and 500 on a store failure, both with no change; otherwise the serial id is drawn; an unknown product or shop gives 400 (23503) and no row; else the row with the given values is added under a fresh id; the table invariant is kept |
| Stocks.StockTable.List | routes/stocks.js:46-54 | every row, or 500 on a store failure |
| Stocks.StockTable.GetByProduct | routes/stocks.js:57-76 | 400 on an invalid id, 500 on a store failure; otherwise a row is returned exactly when some row has that `product_id`, and it is such a row; else 404 |
| Stocks.StockTable.Replace | routes/stocks.js:79-113 | 400 on an invalid id or body; 404 on an unknown id; 400 on an unknown shop; otherwise only `shop_id` and the two quantities of that row are written and `product_id` stays; no other row changes |
| Stocks.StockTable.Delete | routes/stocks.js:116-135 | 400 on an invalid id; 404 on an unknown id with no change; otherwise the row is removed and returned |
| Stocks.StockTable.Increase | routes/stocks.js:138-172 | 400 on an invalid id or body; 404 on an unknown id with no change; otherwise that row becomes `Increased` of it and no other row changes |
| Stocks.StockTable.Decrease | routes/stocks.js:175-209 | 400 on an invalid id or body; 404 on an unknown id with no change; otherwise that row becomes `Decreased` of it and counters stay non-negative |
| Stocks.ParseFilter | routes/stocks.js:217-228 | the filter query accepts only its six keys, each optional and valid for its rule, and returns their values |
| Stocks.Filter | routes/stocks.js:212-247 | 400 on a bad query, 500 on a store failure; otherwise a joined row is returned exactly when every given field's test holds |
| Stocks.FilterWithoutFields | routes/stocks.js:230-241 | with no field the result is the whole join, which holds every stock row when the foreign keys hold |
| Stocks.FilterExactShelf | routes/stocks.js:236-237 | `shelf_min=n&shelf_max=n` returns exactly the joined rows whose shelf quantity is n |
| Stocks.FilterIsShadowed | routes/stocks.js:57-65 | as registered, GET /stocks/filter reaches the id handler, which refuses "filter"; no path reaches the filter |
| Stocks.IntendedRouteReachesFilter | routes/stocks.js:212-247 | with /filter registered first, exactly "filter" reaches the filter and every valid id still reaches the id handler |
| History.ParseHistoryFilter | routes/history.js:13-75 | the schema accepts exactly queries with declared keys and valid values; each given field's value is returned; page and pageSize are at least 1 and default to 1 and 10 |
| History.HistoryRejections | routes/history.js:13-47 | a page or pageSize below 1, an unknown action or an undeclared key gives 400 |
| History.ConditionsAreSuppliedFields | routes/history.js:89-127 | a condition is appended for each supplied field and for no absent one, in field order (shop_id, product_id, action, start_date, end_date), and no condition text appears twice |
| History.AppendKeepsNumbered | routes/history.js:91-93 | appending a condition with placeholder `$(length + 1)` and pushing its value keeps every condition followed by its own placeholder and the placeholders equal to 1..n |
| History.WhereIsNumbered | routes/history.js:81-127 | the text after any list of conditions is numbered: condition i is followed by `$(i+1)` and the placeholders are 1..n |
| History.AppendCondition | routes/history.js:91-93 | one append step extends the text by the condition and `$(n+1)` and the parameters by its value |
| History.PaginationPlaceholders | routes/history.js:133 | LIMIT `$(n+1)` and OFFSET `$(n+2)` continue the numbering 1..n |
| History.PaginateKeepsNumbering | routes/history.js:133-135 | after LIMIT and OFFSET the statement is paginated: the conditions stay numbered, LIMIT and OFFSET hold the last two placeholders, and those bind the last two values |
| History.Offset | routes/history.js:135 | the offset skips `page - 1` whole pages and is never negative |
| History.AppendSlot | routes/history.js:89-127 | each of the five steps turns the text and parameters for the first j fields into those for the first j+1 |
| History.StatementIsPaginated | routes/history.js:81-135 | the statement's placeholders are exactly `$1..$n` for its n parameters, and it ends with the page size and the offset |
| History.NoConditions | routes/history.js:89-127 | with no filter field, no condition is appended |
| History.RenderUnfiltered | routes/history.js:81-133 | the unfiltered text reads `SELECT * FROM history WHERE 1=1 LIMIT $1 OFFSET $2` |
| History.UnfilteredStatement | routes/history.js:81-135 | with no filter field, the statement is that text, bound to the page size and the offset |
| History.BuildStatement | routes/history.js:81-135 | the step-by-step construction yields the reference statement `StatementFor` |
| History.BuildQuery | routes/history.js:35-135 | an invalid query gives 400; otherwise the statement for the validated filter |
| History.DefaultRequest | routes/history.js:73-75 | an empty query gives page 1 of size 10: `LIMIT $1 OFFSET $2` bound to 10 and 0 |
| Scenario.StockLifeCycle | routes/stocks.js:21-209 | create (10, 2), increase shelf by 5, decrease order by 10, delete, then get: rows (15, 2) then (15, 0), the deleted row (15, 0), and 404 |

## Left out

- app.js (Express wiring, request logging, the 404 and 500 fallbacks, `listen`) and db/index.js (pool, timeouts, connection test) are not part of this model. Their failures are the `outage` parameter.
- Running the history statement and reading its rows is left out; `BuildQuery` ends with the statement it would send.
- Joi's string-to-number conversion is modelled only for an optional sign followed by decimal digits. Exponents, decimal points, surrounding blanks and hexadecimal are not modelled.
- Query-string values that arrive as arrays (a repeated key) are not modelled: every query value is one string.
- Common.AsInteger: JSON numbers are integers or "fractional"; floating point and its rounding are not modelled.
- History.Offset: the handler computes `(page - 1) * pageSize` in JavaScript doubles. Once the product passes 2^53 it is rounded (page 1073741826 with pageSize 1073741825 gives 1152921506754330624, not ...625), and from 10^21 on it is printed in exponent notation. The model binds the exact integer.
- Column widths are not part of the source (no schema file). Integers are unbounded, so an overflow that PostgreSQL would answer with 500 is not modelled.
- Products.Search: `ILIKE` is modelled as substring containment after a case-folding parameter. The wildcards `%` and `_` and the escape character `\` inside the searched name are not modelled.
- Stocks.StockTable.GetByProduct: the source answers the first row the store returns, but the SELECT has no ORDER BY. The contract says "some row with that product_id", not which one.
- Stocks.StockTable.List, Products.Search, Stocks.Filter: results are maps keyed by id. The order of the returned rows is not modelled.
- The ISO 8601 date parser and `toISOString` are the parameter `iso`. A date parameter is modelled as the instant it denotes, not as its text.
- Concurrency and the atomicity of single-statement UPDATEs are not modelled: the model is sequential. The lemmas on batches of increases and decreases state what any serialisation yields.
- Foreign-key and unique constraints are modelled as explicit checks against the referenced tables. The shops table is a fixed set of ids, since no handler changes it.
- Response bodies, message texts and logging are not modelled; each outcome is a `Result` with a `Failure` kind.
- Express route matching is modelled only for the GET `/stocks/filter` versus GET `/stocks/:id` clash.

## Findings

| source | as written | input that shows it | evidently intended | confidence | as-written member | corrected member |
|---|---|---|---|---|---|---|
| routes/stocks.js:57 | GET `/:id` is registered before GET `/filter` (line 212) and matches every single path segment | GET /stocks/filter reaches the id handler, which refuses "filter" with 400 | GET /stocks/filter runs the filter handler | high; not executed | Stocks.FilterIsShadowed | Stocks.IntendedRouteReachesFilter |
