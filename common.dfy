/** Shared vocabulary of the three route modules: results, request values and
    the Joi rules the validation schemas are built from. */
module Common {

  datatype Option<T> = None | Some(value: T)

  /** The error kinds a handler answers with (HTTP status in the comment). */
  datatype Failure =
    | ValidationError   // 400: the request failed its Joi schema
    | NotFound          // 404: no row matched the id
    | FkConflict        // 400: the store reported code 23503 (foreign key)
    | UniqueConflict    // 400: the store reported code 23505 (unique key)
    | StoreError        // 500: any other store failure

  datatype Result<T> = Ok(value: T) | Err(failure: Failure)

  /** The HTTP status a failure is answered with. */
  function StatusOf(f: Failure): int
  {
    match f
    case NotFound => 404
    case StoreError => 500
    case _ => 400
  }

  /** A JSON value of a request body. Path and query parameters always arrive
      as JString. JInt is a JSON number without fractional part, JFraction one
      with a fractional part, JCompound an object or an array. */
  datatype Json = JInt(n: int) | JFraction | JString(s: string) | JBool(b: bool) | JNull | JCompound

  /** A request body, a query string or a path parameter set: field name to value. */
  type Fields = map<string, Json>

  /** Number.MAX_SAFE_INTEGER: Joi's number() refuses anything beyond it. */
  const MaxSafeInteger: int := 9007199254740991

  predicate IsDigit(c: char) { '0' <= c <= '9' }

  predicate AllDigits(s: string) { forall i :: 0 <= i < |s| ==> IsDigit(s[i]) }

  function DigitsValue(s: string): nat
    requires AllDigits(s)
  {
    if s == [] then 0 else DigitsValue(s[..|s| - 1]) * 10 + (s[|s| - 1] as int - '0' as int)
  }

  function DigitChar(d: nat): char
    requires d < 10
  {
    ('0' as int + d) as char
  }

  /** The decimal numeral of a natural number, as JavaScript prints it. */
  function Decimal(n: nat): (s: string)
    ensures |s| > 0 && AllDigits(s)
  {
    if n < 10 then [DigitChar(n)] else Decimal(n / 10) + [DigitChar(n % 10)]
  }

  lemma {:induction false} DigitsOfDecimal(n: nat)
    ensures DigitsValue(Decimal(n)) == n
  {
    if n >= 10 {
      DigitsOfDecimal(n / 10);
      var s := Decimal(n);
      assert s[..|s| - 1] == Decimal(n / 10);
    }
  }

  /** Reading back a printed number gives the number. */
  lemma {:induction false} NumeralOfDecimal(n: nat)
    ensures Numeral(Decimal(n)) == Some(n)
  {
    DigitsOfDecimal(n);
    var s := Decimal(n);
    assert IsDigit(s[0]);
  }

  /** Joi's number conversion reads back the decimal numeral of any safe
      integer, with or without a minus sign. */
  lemma {:induction false} ReadsDecimal(n: nat)
    requires n <= MaxSafeInteger
    ensures AsInteger(JString(Decimal(n))) == Some(n)
    ensures AsInteger(JString("-" + Decimal(n))) == Some(-(n as int))
  {
    NumeralOfDecimal(n);
    DigitsOfDecimal(n);
    var s := Decimal(n);
    assert ("-" + s)[1..] == s;
  }

  /** The integer a string denotes when Joi converts it to a number: an
      optional sign followed by at least one decimal digit. */
  function Numeral(s: string): Option<int>
  {
    if |s| > 1 && (s[0] == '-' || s[0] == '+') && AllDigits(s[1..]) then
      var n: int := DigitsValue(s[1..]);
      Some(if s[0] == '-' then -n else n)
    else if |s| > 0 && AllDigits(s) then Some(DigitsValue(s))
    else None
  }

  /** Joi.number().integer(): a JSON integer or a numeral string, within the
      safe-integer range. */
  function AsInteger(v: Json): (r: Option<int>)
    ensures r.Some? ==> -MaxSafeInteger <= r.value <= MaxSafeInteger
    ensures v.JInt? ==> r == if -MaxSafeInteger <= v.n <= MaxSafeInteger then Some(v.n) else None
    ensures !v.JInt? && !v.JString? ==> r == None
  {
    var n := match v
      case JInt(n) => Some(n)
      case JString(s) => Numeral(s)
      case _ => None;
    if n.Some? && -MaxSafeInteger <= n.value <= MaxSafeInteger then n else None
  }

  /** Joi.number().integer().positive() */
  predicate IsPositive(v: Json) { AsInteger(v).Some? && AsInteger(v).value > 0 }

  /** Joi.number().integer().min(0) */
  predicate IsNonNegative(v: Json) { AsInteger(v).Some? && AsInteger(v).value >= 0 }

  /** Joi.string(): a string, and (Joi's default) not the empty one. */
  predicate IsText(v: Json) { v.JString? && |v.s| > 0 }

  /** A field with a rule that is `.required()`: the value, or None when the
      field is missing or breaks the rule. */
  function RequiredPositive(b: Fields, key: string): (r: Option<int>)
    ensures r.Some? <==> key in b && IsPositive(b[key])
    ensures r.Some? ==> r.value > 0 && r.value == AsInteger(b[key]).value
  {
    if key in b && IsPositive(b[key]) then Some(AsInteger(b[key]).value) else None
  }

  function RequiredNonNegative(b: Fields, key: string): (r: Option<int>)
    ensures r.Some? <==> key in b && IsNonNegative(b[key])
    ensures r.Some? ==> r.value >= 0 && r.value == AsInteger(b[key]).value
  {
    if key in b && IsNonNegative(b[key]) then Some(AsInteger(b[key]).value) else None
  }

  function RequiredText(b: Fields, key: string): (r: Option<string>)
    ensures r.Some? <==> key in b && IsText(b[key])
    ensures r.Some? ==> |r.value| > 0 && b[key] == JString(r.value)
  {
    if key in b && IsText(b[key]) then Some(b[key].s) else None
  }

  /** A field with a rule that is `.optional()`: Some(None) when it is absent,
      Some(Some(x)) when it is present and keeps the rule, None when it is
      present and breaks it (null included). */
  function OptionalPositive(b: Fields, key: string): (r: Option<Option<int>>)
    ensures r.None? <==> key in b && !IsPositive(b[key])
    ensures r == Some(None) <==> key !in b
    ensures r.Some? && r.value.Some? ==> r.value.value > 0 && r.value.value == AsInteger(b[key]).value
  {
    if key !in b then Some(None)
    else if IsPositive(b[key]) then Some(Some(AsInteger(b[key]).value))
    else None
  }

  function OptionalNonNegative(b: Fields, key: string): (r: Option<Option<int>>)
    ensures r.None? <==> key in b && !IsNonNegative(b[key])
    ensures r == Some(None) <==> key !in b
    ensures r.Some? && r.value.Some? ==> r.value.value >= 0 && r.value.value == AsInteger(b[key]).value
  {
    if key !in b then Some(None)
    else if IsNonNegative(b[key]) then Some(Some(AsInteger(b[key]).value))
    else None
  }

  function OptionalText(b: Fields, key: string): (r: Option<Option<string>>)
    ensures r.None? <==> key in b && !IsText(b[key])
    ensures r == Some(None) <==> key !in b
    ensures r.Some? && r.value.Some? ==> |r.value.value| > 0 && b[key] == JString(r.value.value)
  {
    if key !in b then Some(None)
    else if IsText(b[key]) then Some(Some(b[key].s))
    else None
  }

  /** A Joi.object() schema refuses keys it does not declare. */
  predicate OnlyKeys(b: Fields, declared: set<string>) { b.Keys <= declared }

  /** Joi.number().integer().positive().required() applied to a path id. */
  function ParseId(id: string): (r: Option<int>)
    ensures r.Some? <==> IsPositive(JString(id))
    ensures r.Some? ==> r.value > 0 && Numeral(id) == Some(r.value)
  {
    RequiredPositive(map["id" := JString(id)], "id")
  }

  /** A path segment that is not a numeral is refused as an id; in particular
      "filter", which is how GET /stocks/filter reaches the id handler. */
  lemma {:induction false} WordIsNotAnId(id: string)
    requires |id| > 0 && !IsDigit(id[0]) && id[0] != '-' && id[0] != '+'
    ensures ParseId(id) == None
  {
    assert !AllDigits(id) by { assert !IsDigit(id[0]); }
  }
}
