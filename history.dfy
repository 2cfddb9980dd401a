/** GET /history of routes/history.js: validation of the query string and the
    step-by-step construction of the parameterised SELECT with its LIMIT and
    OFFSET. Running the statement is not part of this module. */
module History {
  import opened Common

  const HistoryFields: set<string> := {"shop_id", "product_id", "action", "start_date", "end_date", "page", "pageSize"}
  const Actions: set<string> := {"add", "remove", "update"}
  const DefaultPage: int := 1
  const DefaultPageSize: int := 10
  const BaseQuery: string := "SELECT * FROM history WHERE 1=1"

  /** The validated query. Dates are the instants the ISO strings denote. */
  datatype HistoryFilter = HistoryFilter(
    shop_id: Option<int>, product_id: Option<int>, action: Option<string>,
    start_date: Option<int>, end_date: Option<int>, page: int, pageSize: int)

  /** A value bound to a placeholder. */
  datatype Param = PInt(n: int) | PText(s: string) | PInstant(t: int)

  /** A piece of SQL text, or the placeholder `$k`. */
  datatype Fragment = Sql(text: string) | Placeholder(k: nat)

  /** The statement handed to the store: its text and its parameter array. */
  datatype Statement = Statement(sql: seq<Fragment>, params: seq<Param>)

  /** Joi.string().valid('add', 'remove', 'update').optional() */
  function OptionalAction(q: Fields, key: string): (r: Option<Option<string>>)
    ensures r.None? <==> key in q && !(q[key].JString? && q[key].s in Actions)
    ensures r == Some(None) <==> key !in q
    ensures r.Some? && r.value.Some? ==> r.value.value in Actions && q[key] == JString(r.value.value)
  {
    if key !in q then Some(None)
    else if q[key].JString? && q[key].s in Actions then Some(Some(q[key].s))
    else None
  }

  /** Joi.date().iso().optional(); `iso` reads an ISO 8601 string as an
      instant. Joi refuses the empty string, so a present date is never
      the falsy '' the handler tests for. */
  function OptionalDate(q: Fields, key: string, iso: string -> Option<int>): (r: Option<Option<int>>)
    ensures r.None? <==> key in q && !(IsText(q[key]) && iso(q[key].s).Some?)
    ensures r == Some(None) <==> key !in q
    ensures r.Some? && r.value.Some? ==> IsText(q[key]) && iso(q[key].s) == r.value
  {
    if key !in q then Some(None)
    else if IsText(q[key]) && iso(q[key].s).Some? then Some(iso(q[key].s))
    else None
  }

  /** historyFilterSchema, followed by the defaults `page = 1` and `pageSize = 10`. */
  function ParseHistoryFilter(q: Fields, iso: string -> Option<int>): (r: Option<HistoryFilter>)
    ensures r.Some? <==>
      OnlyKeys(q, HistoryFields) &&
      ("shop_id" in q ==> IsPositive(q["shop_id"])) && ("product_id" in q ==> IsPositive(q["product_id"])) &&
      ("action" in q ==> q["action"].JString? && q["action"].s in Actions) &&
      ("start_date" in q ==> IsText(q["start_date"]) && iso(q["start_date"].s).Some?) &&
      ("end_date" in q ==> IsText(q["end_date"]) && iso(q["end_date"].s).Some?) &&
      ("page" in q ==> IsPositive(q["page"])) && ("pageSize" in q ==> IsPositive(q["pageSize"]))
    ensures r.Some? ==>
      (r.value.shop_id.None? <==> "shop_id" !in q) && (r.value.product_id.None? <==> "product_id" !in q) &&
      (r.value.action.None? <==> "action" !in q) &&
      (r.value.start_date.None? <==> "start_date" !in q) && (r.value.end_date.None? <==> "end_date" !in q)
    ensures r.Some? && r.value.shop_id.Some? ==> r.value.shop_id.value == AsInteger(q["shop_id"]).value
    ensures r.Some? && r.value.product_id.Some? ==> r.value.product_id.value == AsInteger(q["product_id"]).value
    ensures r.Some? && r.value.action.Some? ==> q["action"] == JString(r.value.action.value)
    ensures r.Some? && r.value.start_date.Some? ==> iso(q["start_date"].s) == r.value.start_date
    ensures r.Some? && r.value.end_date.Some? ==> iso(q["end_date"].s) == r.value.end_date
    ensures r.Some? ==> r.value.page >= 1 && r.value.pageSize >= 1
    ensures r.Some? ==> r.value.page == (if "page" in q then AsInteger(q["page"]).value else DefaultPage)
    ensures r.Some? ==> r.value.pageSize == (if "pageSize" in q then AsInteger(q["pageSize"]).value else DefaultPageSize)
  {
    var shop, product, action := OptionalPositive(q, "shop_id"), OptionalPositive(q, "product_id"), OptionalAction(q, "action");
    var start, end := OptionalDate(q, "start_date", iso), OptionalDate(q, "end_date", iso);
    var page, size := OptionalPositive(q, "page"), OptionalPositive(q, "pageSize");
    if !OnlyKeys(q, HistoryFields) || shop.None? || product.None? || action.None? || start.None? || end.None? || page.None? || size.None? then
      None
    else
      Some(HistoryFilter(shop.value, product.value, action.value, start.value, end.value,
                         if page.value.Some? then page.value.value else DefaultPage,
                         if size.value.Some? then size.value.value else DefaultPageSize))
  }

  /** A page or page size below 1, an action outside add/remove/update or an
      undeclared key makes the request a 400. */
  lemma HistoryRejections(q: Fields, iso: string -> Option<int>)
    ensures "page" in q && AsInteger(q["page"]).Some? && AsInteger(q["page"]).value < 1 ==> ParseHistoryFilter(q, iso).None?
    ensures "pageSize" in q && AsInteger(q["pageSize"]).Some? && AsInteger(q["pageSize"]).value < 1 ==> ParseHistoryFilter(q, iso).None?
    ensures "action" in q && q["action"].JString? && q["action"].s !in Actions ==> ParseHistoryFilter(q, iso).None?
    ensures (exists k :: k in q && k !in HistoryFields) ==> ParseHistoryFilter(q, iso).None?
  {
  }

  /** The condition the j-th filter field contributes, in the order the
      handler appends them (shop_id, product_id, action, start_date,
      end_date): its SQL text and bound value, or None when the field is
      absent. */
  function Slot(f: HistoryFilter, j: nat): Option<(string, Param)>
  {
    match j
    case 0 => if f.shop_id.Some? then Some((" AND shop_id = ", PInt(f.shop_id.value))) else None
    case 1 => if f.product_id.Some? then Some((" AND product_id = ", PInt(f.product_id.value))) else None
    case 2 => if f.action.Some? then Some((" AND action = ", PText(f.action.value))) else None
    case 3 => if f.start_date.Some? then Some((" AND created_at >= ", PInstant(f.start_date.value))) else None
    case 4 => if f.end_date.Some? then Some((" AND created_at <= ", PInstant(f.end_date.value))) else None
    case _ => None
  }

  /** The conditions of the first j filter fields. */
  function ConditionsUpTo(f: HistoryFilter, j: nat): seq<(string, Param)>
  {
    if j == 0 then []
    else if Slot(f, j - 1).Some? then ConditionsUpTo(f, j - 1) + [Slot(f, j - 1).value]
    else ConditionsUpTo(f, j - 1)
  }

  /** All the conditions the filter asks for. */
  function Conditions(f: HistoryFilter): seq<(string, Param)>
  {
    ConditionsUpTo(f, 5)
  }

  /** Two different filter fields contribute conditions with different text. */
  lemma SlotTextsDiffer(f: HistoryFilter, j1: nat, j2: nat)
    requires j1 != j2 && Slot(f, j1).Some? && Slot(f, j2).Some?
    ensures Slot(f, j1).value.0 != Slot(f, j2).value.0
  {
  }

  /** A condition is appended exactly for each supplied field among the
      first n, in field order: every condition in the list is some supplied
      field's, every supplied field's condition is in it, a condition comes
      from a strictly earlier field than every condition after it, and no
      condition text appears twice. */
  lemma {:induction false} ConditionsAreSuppliedFields(f: HistoryFilter, n: nat)
    ensures forall c :: c in ConditionsUpTo(f, n) ==> exists j :: 0 <= j < n && Slot(f, j) == Some(c)
    ensures forall j :: 0 <= j < n && Slot(f, j).Some? ==> Slot(f, j).value in ConditionsUpTo(f, n)
    ensures var cs := ConditionsUpTo(f, n);
      forall i, k :: 0 <= i < k < |cs| ==>
        exists j1, j2 :: 0 <= j1 < j2 < n && Slot(f, j1) == Some(cs[i]) && Slot(f, j2) == Some(cs[k])
    ensures var cs := ConditionsUpTo(f, n);
      forall i, k :: 0 <= i < k < |cs| ==> cs[i].0 != cs[k].0
    ensures |ConditionsUpTo(f, n)| <= n
  {
    var cs := ConditionsUpTo(f, n);
    if n > 0 {
      ConditionsAreSuppliedFields(f, n - 1);
      var pre := ConditionsUpTo(f, n - 1);
      forall c | c in cs
        ensures exists j :: 0 <= j < n && Slot(f, j) == Some(c)
      {
        if c !in pre {
          assert Slot(f, n - 1) == Some(c);
        }
      }
      forall i, k | 0 <= i < k < |cs|
        ensures exists j1, j2 :: 0 <= j1 < j2 < n && Slot(f, j1) == Some(cs[i]) && Slot(f, j2) == Some(cs[k])
      {
        assert cs[i] == pre[i];
        if k < |pre| {
          assert cs[k] == pre[k];
        } else {
          assert pre[i] in pre;
          var j1 :| 0 <= j1 < n - 1 && Slot(f, j1) == Some(pre[i]);
          assert Slot(f, j1) == Some(cs[i]) && Slot(f, n - 1) == Some(cs[k]);
        }
      }
    }
    forall i, k | 0 <= i < k < |cs|
      ensures cs[i].0 != cs[k].0
    {
      var j1, j2 :| 0 <= j1 < j2 < n && Slot(f, j1) == Some(cs[i]) && Slot(f, j2) == Some(cs[k]);
      SlotTextsDiffer(f, j1, j2);
    }
  }

  /** The bound values of a list of conditions. */
  function Values(cs: seq<(string, Param)>): (vs: seq<Param>)
    ensures |vs| == |cs|
  {
    if cs == [] then [] else Values(cs[..|cs| - 1]) + [cs[|cs| - 1].1]
  }

  /** The placeholder numbers of a statement text, left to right. */
  function Placeholders(sql: seq<Fragment>): seq<nat>
  {
    if sql == [] then []
    else Placeholders(sql[..|sql| - 1]) + (if sql[|sql| - 1].Placeholder? then [sql[|sql| - 1].k] else [])
  }

  /** 1, 2, ..., n */
  function Ascending(n: nat): (s: seq<nat>)
    ensures |s| == n && forall i :: 0 <= i < n ==> s[i] == i + 1
  {
    seq(n, i => i + 1)
  }

  /** The statement text as the store receives it. */
  function Render(sql: seq<Fragment>): string
  {
    if sql == [] then ""
    else Render(sql[..|sql| - 1]) +
         match sql[|sql| - 1]
         case Sql(t) => t
         case Placeholder(k) => "$" + Decimal(k)
  }

  /** What holds after the base text and any number of conditions: every
      condition's text is followed by its placeholder, placeholder i + 1
      binds the i-th value, and the placeholders are exactly 1..n for n
      pushed values. */
  ghost predicate Numbered(sql: seq<Fragment>, params: seq<Param>, conds: seq<(string, Param)>)
  {
    |sql| == 1 + 2 * |conds| && sql[0] == Sql(BaseQuery) && params == Values(conds) &&
    (forall i :: 0 <= i < |conds| ==> sql[1 + 2 * i] == Sql(conds[i].0) && sql[2 + 2 * i] == Placeholder(i + 1)) &&
    Placeholders(sql) == Ascending(|params|)
  }

  /** Appending a text and the placeholder `$k` adds k to the placeholders. */
  lemma AppendPlaceholder(sql: seq<Fragment>, text: string, k: nat)
    ensures Placeholders(sql + [Sql(text), Placeholder(k)]) == Placeholders(sql) + [k]
  {
    var longer := sql + [Sql(text), Placeholder(k)];
    assert longer[..|longer| - 1] == sql + [Sql(text)];
    assert (sql + [Sql(text)])[..|sql|] == sql;
  }

  /** One `query += ... $${queryParams.length + 1}; queryParams.push(v)` step
      keeps the numbering: the new placeholder is the new length of the
      parameter array. */
  lemma {:induction false} AppendKeepsNumbered(sql: seq<Fragment>, params: seq<Param>, conds: seq<(string, Param)>, text: string, v: Param)
    requires Numbered(sql, params, conds)
    ensures Numbered(sql + [Sql(text), Placeholder(|params| + 1)], params + [v], conds + [(text, v)])
  {
    var sql', params', conds' := sql + [Sql(text), Placeholder(|params| + 1)], params + [v], conds + [(text, v)];
    assert conds'[..|conds'| - 1] == conds;
    assert params' == Values(conds');
    assert forall i :: 0 <= i < |conds| ==> sql[1 + 2 * i] == Sql(conds[i].0) && sql[2 + 2 * i] == Placeholder(i + 1);
    forall i | 0 <= i < |conds'|
      ensures sql'[1 + 2 * i] == Sql(conds'[i].0) && sql'[2 + 2 * i] == Placeholder(i + 1)
    {
      if i < |conds| {
        assert conds'[i] == conds[i];
      }
    }
    AppendPlaceholder(sql, text, |params| + 1);
    assert Placeholders(sql) == Ascending(|params|);
    assert forall i :: 0 <= i < |params'| ==> Placeholders(sql')[i] == Ascending(|params'|)[i];
    assert Placeholders(sql') == Ascending(|params'|);
  }

  /** The text after the base query and the given conditions, each condition
      followed by the placeholder numbered after its position. */
  function Where(conds: seq<(string, Param)>): (sql: seq<Fragment>)
    ensures |sql| == 1 + 2 * |conds|
  {
    if conds == [] then [Sql(BaseQuery)]
    else Where(conds[..|conds| - 1]) + [Sql(conds[|conds| - 1].0), Placeholder(|conds|)]
  }

  /** The text `Where` builds is numbered: placeholder i + 1 follows the i-th
      condition and the placeholders are 1..n. */
  lemma {:induction false} WhereIsNumbered(conds: seq<(string, Param)>)
    ensures Numbered(Where(conds), Values(conds), conds)
  {
    if conds == [] {
      assert Placeholders([Sql(BaseQuery)]) == Placeholders([]) + [];
    } else {
      var init, last := conds[..|conds| - 1], conds[|conds| - 1];
      WhereIsNumbered(init);
      AppendKeepsNumbered(Where(init), Values(init), init, last.0, last.1);
      assert init + [last] == conds;
    }
  }

  /** What holds of the finished statement: the text before LIMIT is
      numbered for the conditions and their values, ` LIMIT $n-1 OFFSET $n`
      closes it, and the placeholders of the whole text are 1..n for its n
      parameters. */
  ghost predicate Paginated(sql: seq<Fragment>, params: seq<Param>, conds: seq<(string, Param)>)
  {
    var n := |params|;
    n == |conds| + 2 && |sql| == 2 * |conds| + 5 &&
    Numbered(sql[..|sql| - 4], params[..|conds|], conds) &&
    sql[|sql| - 4..] == [Sql(" LIMIT "), Placeholder(n - 1), Sql(" OFFSET "), Placeholder(n)] &&
    Placeholders(sql) == Ascending(n)
  }

  /** LIMIT $m+1 OFFSET $m+2 continues the numbering 1..m. */
  lemma {:induction false} PaginationPlaceholders(sql: seq<Fragment>, m: nat)
    requires Placeholders(sql) == Ascending(m)
    ensures Placeholders(sql + [Sql(" LIMIT "), Placeholder(m + 1), Sql(" OFFSET "), Placeholder(m + 2)]) == Ascending(m + 2)
  {
    var half := sql + [Sql(" LIMIT "), Placeholder(m + 1)];
    var sql' := sql + [Sql(" LIMIT "), Placeholder(m + 1), Sql(" OFFSET "), Placeholder(m + 2)];
    AppendPlaceholder(sql, " LIMIT ", m + 1);
    AppendPlaceholder(half, " OFFSET ", m + 2);
    assert sql' == half + [Sql(" OFFSET "), Placeholder(m + 2)];
    assert Placeholders(sql') == Ascending(m) + [m + 1, m + 2];
    assert forall i :: 0 <= i < m + 2 ==> Placeholders(sql')[i] == Ascending(m + 2)[i];
  }

  /** The final `query += LIMIT $n+1 OFFSET $n+2; queryParams.push(size, offset)`
      after the conditions gives a paginated statement. */
  lemma {:induction false} PaginateKeepsNumbering(conds: seq<(string, Param)>, size: int, offset: int)
    ensures Paginated(Where(conds) + [Sql(" LIMIT "), Placeholder(|conds| + 1), Sql(" OFFSET "), Placeholder(|conds| + 2)],
                      Values(conds) + [PInt(size), PInt(offset)], conds)
  {
    var sql, params := Where(conds), Values(conds);
    WhereIsNumbered(conds);
    var m := |params|;
    var tail := [Sql(" LIMIT "), Placeholder(m + 1), Sql(" OFFSET "), Placeholder(m + 2)];
    var sql' := sql + tail;
    PaginationPlaceholders(sql, m);
    assert (params + [PInt(size), PInt(offset)])[..|conds|] == params;
    assert sql'[..|sql'| - 4] == sql;
    assert sql'[|sql'| - 4..] == tail;
  }

  /** One `query += ' AND ... = $' + (queryParams.length + 1); queryParams.push(v)`
      step extends `Where` and `Values` by that condition: the placeholder is
      numbered after the value it binds. */
  lemma AppendCondition(conds: seq<(string, Param)>, c: (string, Param))
    ensures Where(conds + [c]) == Where(conds) + [Sql(c.0), Placeholder(|Values(conds)| + 1)]
    ensures Values(conds + [c]) == Values(conds) + [c.1]
  {
    assert (conds + [c])[..|conds|] == conds;
  }

  /** OFFSET for a page: page `page` starts after `page - 1` whole pages. */
  function Offset(page: int, pageSize: int): (o: int)
    requires page >= 1 && pageSize >= 1
    ensures o >= 0 && o + pageSize == page * pageSize
  {
    (page - 1) * pageSize
  }

  /** One of the handler's five guarded steps, for the j-th filter field:
      when the field is given, the text gains its condition and the
      placeholder numbered after the values already bound, and its value is
      bound next; when it is absent, nothing changes. */
  method AppendSlot(f: HistoryFilter, j: nat, query: seq<Fragment>, params: seq<Param>)
    returns (query': seq<Fragment>, params': seq<Param>)
    requires query == Where(ConditionsUpTo(f, j)) && params == Values(ConditionsUpTo(f, j))
    ensures query' == Where(ConditionsUpTo(f, j + 1)) && params' == Values(ConditionsUpTo(f, j + 1))
  {
    var slot := Slot(f, j);
    if slot.Some? {
      AppendCondition(ConditionsUpTo(f, j), slot.value);
      query' := query + [Sql(slot.value.0), Placeholder(|params| + 1)];
      params' := params + [slot.value.1];
    } else {
      query', params' := query, params;
    }
  }

  /** The statement GET /history sends for a validated filter: the base
      query, one condition per supplied field in handler order, then LIMIT
      and OFFSET; the parameters are the conditions' values, the page size
      and the offset. */
  function StatementFor(f: HistoryFilter): Statement
    requires f.page >= 1 && f.pageSize >= 1
  {
    var conds := Conditions(f);
    Statement(Where(conds) + [Sql(" LIMIT "), Placeholder(|conds| + 1), Sql(" OFFSET "), Placeholder(|conds| + 2)],
              Values(conds) + [PInt(f.pageSize), PInt(Offset(f.page, f.pageSize))])
  }

  /** The placeholders of the statement are exactly $1..$n for its n
      parameters, every condition binds its own value, and LIMIT and OFFSET
      bind the page size and the offset. */
  lemma StatementIsPaginated(f: HistoryFilter)
    requires f.page >= 1 && f.pageSize >= 1
    ensures Paginated(StatementFor(f).sql, StatementFor(f).params, Conditions(f))
    ensures StatementFor(f).params[|Conditions(f)|..] == [PInt(f.pageSize), PInt(Offset(f.page, f.pageSize))]
  {
    PaginateKeepsNumbering(Conditions(f), f.pageSize, Offset(f.page, f.pageSize));
  }

  /** A filter without any of the five fields asks for no condition. */
  lemma NoConditions(f: HistoryFilter)
    requires f.shop_id.None? && f.product_id.None? && f.action.None? && f.start_date.None? && f.end_date.None?
    ensures Conditions(f) == []
  {
    assert Slot(f, 0).None? && Slot(f, 1).None? && Slot(f, 2).None? && Slot(f, 3).None? && Slot(f, 4).None?;
    assert ConditionsUpTo(f, 1) == [];
    assert ConditionsUpTo(f, 2) == [];
    assert ConditionsUpTo(f, 3) == [];
    assert ConditionsUpTo(f, 4) == [];
  }

  /** Rendering one more fragment appends its text. */
  lemma RenderAppend(sql: seq<Fragment>, x: Fragment)
    ensures Render(sql + [x]) == Render(sql) + (match x case Sql(t) => t case Placeholder(k) => "$" + Decimal(k))
  {
    assert (sql + [x])[..|sql|] == sql;
  }

  /** The text of the base query followed by LIMIT $1 OFFSET $2. */
  lemma RenderUnfiltered()
    ensures Render([Sql(BaseQuery), Sql(" LIMIT "), Placeholder(1), Sql(" OFFSET "), Placeholder(2)])
         == "SELECT * FROM history WHERE 1=1 LIMIT $1 OFFSET $2"
  {
    assert Decimal(1) == "1" && Decimal(2) == "2";
    var s1 := [Sql(BaseQuery)];
    var s2 := s1 + [Sql(" LIMIT ")];
    var s3 := s2 + [Placeholder(1)];
    var s4 := s3 + [Sql(" OFFSET ")];
    var s5 := s4 + [Placeholder(2)];
    RenderAppend([], Sql(BaseQuery));
    assert [] + s1 == s1;
    RenderAppend(s1, Sql(" LIMIT "));
    RenderAppend(s2, Placeholder(1));
    RenderAppend(s3, Sql(" OFFSET "));
    RenderAppend(s4, Placeholder(2));
    assert s5 == [Sql(BaseQuery), Sql(" LIMIT "), Placeholder(1), Sql(" OFFSET "), Placeholder(2)];
  }

  /** With no filter field the statement is the base query with LIMIT $1
      OFFSET $2, bound to the page size and the offset. */
  lemma UnfilteredStatement(f: HistoryFilter)
    requires f.page >= 1 && f.pageSize >= 1
    requires f.shop_id.None? && f.product_id.None? && f.action.None? && f.start_date.None? && f.end_date.None?
    ensures Render(StatementFor(f).sql) == "SELECT * FROM history WHERE 1=1 LIMIT $1 OFFSET $2"
    ensures StatementFor(f).params == [PInt(f.pageSize), PInt(Offset(f.page, f.pageSize))]
  {
    NoConditions(f);
    RenderUnfiltered();
    assert StatementFor(f).sql == [Sql(BaseQuery), Sql(" LIMIT "), Placeholder(1), Sql(" OFFSET "), Placeholder(2)];
  }

  /** The statement GET /history sends for a validated filter: one condition
      per supplied field, appended in order, then LIMIT and OFFSET, each
      placeholder numbered after the parameter it binds. */
  method BuildStatement(f: HistoryFilter) returns (st: Statement)
    requires f.page >= 1 && f.pageSize >= 1
    ensures st == StatementFor(f)
  {
    var query := [Sql(BaseQuery)];
    var params: seq<Param> := [];
    query, params := AppendSlot(f, 0, query, params);  // shop_id
    query, params := AppendSlot(f, 1, query, params);  // product_id
    query, params := AppendSlot(f, 2, query, params);  // action
    query, params := AppendSlot(f, 3, query, params);  // start_date
    query, params := AppendSlot(f, 4, query, params);  // end_date

    var offset := Offset(f.page, f.pageSize);
    query := query + [Sql(" LIMIT "), Placeholder(|params| + 1), Sql(" OFFSET "), Placeholder(|params| + 2)];
    params := params + [PInt(f.pageSize), PInt(offset)];
    st := Statement(query, params);
  }

  /** GET /history: validate the query (400 on failure), apply the pagination
      defaults and build the statement. */
  method BuildQuery(q: Fields, iso: string -> Option<int>) returns (r: Result<Statement>)
    ensures ParseHistoryFilter(q, iso).None? ==> r == Err(ValidationError)
    ensures ParseHistoryFilter(q, iso).Some? ==> r == Ok(StatementFor(ParseHistoryFilter(q, iso).value))
  {
    var parsed := ParseHistoryFilter(q, iso);
    if parsed.None? {
      return Err(ValidationError);
    }
    var st := BuildStatement(parsed.value);
    r := Ok(st);
  }

  /** GET /history with an empty query string: the first page of ten rows,
      without conditions. */
  lemma DefaultRequest(iso: string -> Option<int>)
    ensures ParseHistoryFilter(map[], iso) == Some(HistoryFilter(None, None, None, None, None, DefaultPage, DefaultPageSize))
    ensures Render(StatementFor(ParseHistoryFilter(map[], iso).value).sql) == "SELECT * FROM history WHERE 1=1 LIMIT $1 OFFSET $2"
    ensures StatementFor(ParseHistoryFilter(map[], iso).value).params == [PInt(10), PInt(0)]
  {
    var f := ParseHistoryFilter(map[], iso).value;
    UnfilteredStatement(f);
  }
}
