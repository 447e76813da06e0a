/** What both versions of ExtFilterParser share: the decoded filter record, the three
    error conditions, the JSON decoding rule, the operator table, the four renderers,
    the type dispatch, the batch semantics of `parse` and the WHERE-clause assembly.
    The foreign calls `json_decode`, `strtotime` and `date` are parameters. */
module Filters {
  import opened Php

  datatype Option<T> = None | Some(value: T)

  /** The `value` of a decoded filter: a JSON string, a JSON integer or an array of strings. */
  datatype Value = Str(s: string) | Int(i: int) | List(items: seq<string>)

  /** One decoded filter record; a missing `comparison` decodes as "". */
  datatype Filter = Filter(filterType: string, field: string, value: Value, comparison: string)

  /** One rendered filter, the `array('expression' => ..., 'value' => ...)` of the source. */
  datatype ParsedFilter = ParsedFilter(expression: string, value: string)

  /** The three exceptions the parser throws, each carrying what caused it. */
  datatype Error =
    | InvalidJson
    | UnknownFilterType(filterType: string)
    | InvalidComparisonOperator(operator: string)

  datatype Result<T> = Ok(value: T) | Err(error: Error)

  datatype Outcome = Pass | Fail(error: Error)

  /** What `json_decode` returns: NULL, one object, or an array of objects. */
  datatype Json = Invalid | Obj(filter: Filter) | Arr(filters: seq<Filter>)

  /** `strtotime` (None for FALSE) and `date(format, timestamp)`. */
  datatype DateLib = DateLib(strToTime: string -> Option<int>, date: (string, int) -> string)

  /** `strtotime('')` is FALSE. */
  predicate RejectsEmpty(dates: DateLib) {
    dates.strToTime("") == None
  }

  // ---------------------------------------------------------------- values

  /** PHP's string conversion of a filter value (an array converts to "Array"). */
  function Text(v: Value): string {
    match v
    case Str(s) => s
    case Int(i) => IntToString(i)
    case List(_) => "Array"
  }

  /** `is_numeric` on a filter value. */
  predicate IsNumeric(v: Value) {
    match v
    case Str(s) => IsNumericString(s)
    case Int(_) => true
    case List(_) => false
  }

  /** An integer value is numeric and renders as text that reads back as the integer. */
  lemma IntValueIsNumeric(i: int)
    ensures IsNumeric(Int(i)) && IsNumericString(Text(Int(i)))
    ensures StringToInt(Text(Int(i))) == i
  {
    IntToStringRoundTrip(i);
  }

  // ---------------------------------------------------------------- decoding

  /** `decodeFilterJson`: empty text means no filters, NULL from the decoder is an
      error, a single object becomes a one-element batch and an array is kept. */
  function Decode(text: string, json: string -> Json): (r: Result<seq<Filter>>)
    ensures IsEmpty(text) ==> r == Ok([])
    ensures r.Err? <==> !IsEmpty(text) && json(text).Invalid?
    ensures r.Err? ==> r.error == InvalidJson
    ensures !IsEmpty(text) && json(text).Obj? ==> r == Ok([json(text).filter])
    ensures !IsEmpty(text) && json(text).Arr? ==> r == Ok(json(text).filters)
  {
    if IsEmpty(text) then Ok([])
    else
      match json(text)
      case Invalid => Err(InvalidJson)
      case Obj(f) => Ok([f])
      case Arr(fs) => Ok(fs)
  }

  // ---------------------------------------------------------------- operators

  /** The operator table: Ext's comparison tokens and their SQL symbols. */
  const Operators: map<string, string> := map["lt" := "<", "gt" := ">", "eq" := "="]

  /** `translateComparisonOperator`. */
  function TranslateComparisonOperator(token: string): (r: Result<string>)
    ensures r.Ok? <==> token in Operators
    ensures r.Ok? ==> r.value == Operators[token]
    ensures r.Err? ==> r.error == InvalidComparisonOperator(token)
  {
    if token == "lt" then Ok("<")
    else if token == "gt" then Ok(">")
    else if token == "eq" then Ok("=")
    else Err(InvalidComparisonOperator(token))
  }

  /** Distinct tokens translate to distinct symbols, so the symbol identifies the token. */
  lemma {:induction false} TranslateInjective(a: string, b: string)
    requires TranslateComparisonOperator(a).Ok? && TranslateComparisonOperator(b).Ok?
    requires TranslateComparisonOperator(a).value == TranslateComparisonOperator(b).value
    ensures a == b
  {
    assert a in Operators && b in Operators;
    assert a == "lt" || a == "gt" || a == "eq";
  }

  // ---------------------------------------------------------------- renderers

  /** `parseComparisonFilter`: the field and the translated operator; the value bare
      when numeric and single-quoted verbatim (no escaping) otherwise. */
  function RenderComparison(f: Filter): (r: Result<ParsedFilter>)
    ensures r.Ok? <==> f.comparison in Operators
    ensures r.Err? ==> r.error == InvalidComparisonOperator(f.comparison)
    ensures r.Ok? ==> r.value.expression == f.field + " " + Operators[f.comparison]
    ensures r.Ok? ==> (r.value.value == Text(f.value) <==> IsNumeric(f.value))
    ensures r.Ok? && !IsNumeric(f.value) ==> r.value.value == Quote(Text(f.value))
  {
    match TranslateComparisonOperator(f.comparison)
    case Err(e) => Err(e)
    case Ok(op) =>
      var value := if IsNumeric(f.value) then Text(f.value) else Quote(Text(f.value));
      Ok(ParsedFilter(f.field + " " + op, value))
  }

  /** A rendered comparison value starts with a quote exactly when the value is not numeric. */
  lemma ComparisonQuotedIffNotNumeric(f: Filter)
    requires f.comparison in Operators
    ensures var r := RenderComparison(f).value.value;
      |r| > 0 && (r[0] == '\'' <==> !IsNumeric(f.value))
  {
    if IsNumeric(f.value) {
      var t := Text(f.value);
      assert IsNumericString(t);
      assert |t| > 0;
      assert t[0] == '+' || t[0] == '-' || IsDigit(t[0]);
    }
  }

  /** The date sentinel that stands for "no date". */
  const EmptyDate := "0000-00-00"

  /** The text handed to `strtotime`: the value, with the sentinel replaced by "". */
  function DateInput(v: Value): string {
    if Text(v) == EmptyDate then "" else Text(v)
  }

  /** The value `parseDateFilter` stores back into the filter before delegating. */
  function NormalizeDate(v: Value, format: string, dates: DateLib): Value {
    match v
    case List(_) => v
    case _ =>
      match dates.strToTime(DateInput(v))
      case Some(ts) => Str(dates.date(format, ts))
      case None => if Text(v) == EmptyDate then Str("") else v
  }

  /** `parseDateFilter`: a parseable date is reformatted with `format`, the sentinel becomes
      empty, anything else is kept; the result is rendered as a comparison. */
  function RenderDate(f: Filter, format: string, dates: DateLib): (r: Result<ParsedFilter>)
    ensures r.Err? <==> f.comparison !in Operators
    ensures r.Err? ==> r.error == InvalidComparisonOperator(f.comparison)
    ensures !f.value.List? && dates.strToTime(DateInput(f.value)).Some? ==>
      r == RenderComparison(f.(value := Str(dates.date(format, dates.strToTime(DateInput(f.value)).value))))
    ensures Text(f.value) != EmptyDate && (f.value.List? || dates.strToTime(Text(f.value)).None?) ==>
      r == RenderComparison(f)
    ensures Text(f.value) == EmptyDate && RejectsEmpty(dates) && f.comparison in Operators ==>
      r == Ok(ParsedFilter(f.field + " " + Operators[f.comparison], "''"))
  {
    SentinelNormalizesToEmpty(f.value, format, dates);
    assert !IsNumericString("") && Quote("") == "''";
    RenderComparison(f.(value := NormalizeDate(f.value, format, dates)))
  }

  /** A date that parses is emitted as its reformatted text, quoted unless that text is
      numeric (which a format such as "Ymd" can produce). */
  lemma ParsedDateRendersFormatted(f: Filter, format: string, dates: DateLib)
    requires f.value.Str? && f.value.s != EmptyDate && dates.strToTime(f.value.s).Some?
    requires f.comparison in Operators
    ensures var d := dates.date(format, dates.strToTime(f.value.s).value);
      RenderDate(f, format, dates) ==
        Ok(ParsedFilter(f.field + " " + Operators[f.comparison], if IsNumericString(d) then d else Quote(d)))
  {
  }

  /** The sentinel is the text of a string value only (no integer prints as it), and it
      normalizes to the empty string when `strtotime('')` fails. */
  lemma SentinelNormalizesToEmpty(v: Value, format: string, dates: DateLib)
    ensures Text(v) == EmptyDate && RejectsEmpty(dates) ==>
      v == Str(EmptyDate) && NormalizeDate(v, format, dates) == Str("")
  {
    assert !IsNumericString(EmptyDate) by {
      assert EmptyDate[4] == '-';
    }
  }

  /** `parseStringFilter`: a LIKE with the value verbatim between `'%` and `%'`. */
  function RenderString(f: Filter): (r: ParsedFilter)
    ensures r.expression == f.field + " LIKE"
    ensures |r.value| == |Text(f.value)| + 4
    ensures r.value[..2] == "'%" && r.value[|r.value| - 2..] == "%'"
    ensures r.value[2..|r.value| - 2] == Text(f.value)
  {
    ParsedFilter(f.field + " LIKE", "'%" + Text(f.value) + "%'")
  }

  /** The list elements: an array as is, anything else exploded on ','. */
  function ListItems(v: Value): seq<string> {
    match v
    case List(items) => items
    case _ => Explode(Text(v), ',')
  }

  /** `parseListFilter`: an IN over the single-quoted, comma-joined elements. */
  function RenderList(f: Filter): (r: ParsedFilter)
    ensures r.expression == f.field + " IN"
    ensures var inner := Implode(ListItems(f.value), "','");
      r.value == "('" + inner + "')" && r.value[2..|r.value| - 2] == inner
  {
    ParsedFilter(f.field + " IN", "('" + Implode(ListItems(f.value), "','") + "')")
  }

  /** The CSV form of a list renders as the array of its comma-separated pieces. */
  lemma ListCsvIsExplodedArray(f: Filter)
    requires f.value.Str?
    ensures RenderList(f) == RenderList(f.(value := List(Explode(f.value.s, ','))))
  {
  }

  /** A non-empty array of comma-free strings renders as its comma-joined CSV form. */
  lemma ListArrayIsCsv(f: Filter)
    requires f.value.List? && |f.value.items| >= 1
    requires forall i :: 0 <= i < |f.value.items| ==> ',' !in f.value.items[i]
    ensures RenderList(f) == RenderList(f.(value := Str(Implode(f.value.items, ","))))
  {
    ExplodeImplode(f.value.items, ',');
  }

  /** A CSV value yields one quoted element more than it has commas. */
  lemma ListCsvElementCount(f: Filter)
    requires f.value.Str?
    ensures |ListItems(f.value)| == multiset(f.value.s)[','] + 1
  {
    ExplodeCount(f.value.s, ',');
  }

  /** An empty list, as an array or as empty text, renders as `('')`, never as `()`. */
  lemma ListEmptyRendersEmptyString(field: string, filterType: string, comparison: string)
    ensures RenderList(Filter(filterType, field, List([]), comparison)).value == "('')"
    ensures RenderList(Filter(filterType, field, Str(""), comparison)).value == "('')"
  {
    assert Explode("", ',') == [""];
  }

  // ---------------------------------------------------------------- dispatch

  predicate IsComparisonType(t: string) {
    t == "numeric" || t == "date"
  }

  predicate IsKnownType(t: string) {
    t == "numeric" || t == "date" || t == "list" || t == "string"
  }

  /** The `switch ($filter->type)` of `parse`, for one record. */
  function Render(f: Filter, format: string, dates: DateLib): (r: Result<ParsedFilter>)
    ensures r.Ok? <==> IsKnownType(f.filterType) && (IsComparisonType(f.filterType) ==> f.comparison in Operators)
    ensures r.Err? && !IsKnownType(f.filterType) ==> r.error == UnknownFilterType(f.filterType)
    ensures r.Err? && IsKnownType(f.filterType) ==> r.error == InvalidComparisonOperator(f.comparison)
    ensures f.filterType == "numeric" ==> r == RenderComparison(f)
    ensures f.filterType == "date" ==> r == RenderDate(f, format, dates)
    ensures f.filterType == "list" ==> r == Ok(RenderList(f))
    ensures f.filterType == "string" ==> r == Ok(RenderString(f))
  {
    match f.filterType
    case "numeric" => RenderComparison(f)
    case "date" => RenderDate(f, format, dates)
    case "list" => Ok(RenderList(f))
    case "string" => Ok(RenderString(f))
    case _ => Err(UnknownFilterType(f.filterType))
  }

  /** The date format only matters to date filters. */
  lemma FormatOnlyAffectsDates(f: Filter, format1: string, format2: string, dates: DateLib)
    requires f.filterType != "date"
    ensures Render(f, format1, dates) == Render(f, format2, dates)
  {
  }

  // ---------------------------------------------------------------- batches

  /** What the `foreach` of `parse` leaves behind: the pairs appended, and the
      exception that stopped it, if any. */
  datatype Batch = Batch(rendered: seq<ParsedFilter>, failure: Option<Error>)

  /** The `foreach` of `parse`, defined over its prefix so far. */
  function RenderAll(fs: seq<Filter>, format: string, dates: DateLib): Batch
    decreases |fs|
  {
    if fs == [] then Batch([], None)
    else
      var before := RenderAll(fs[..|fs| - 1], format, dates);
      if before.failure.Some? then before
      else
        match Render(fs[|fs| - 1], format, dates)
        case Ok(p) => Batch(before.rendered + [p], None)
        case Err(e) => Batch(before.rendered, Some(e))
  }

  /** A batch renders every record in order until the first one that fails, which
      supplies the error; without a failure every record is rendered. */
  lemma {:induction false} RenderAllSpec(fs: seq<Filter>, format: string, dates: DateLib)
    ensures var b := RenderAll(fs, format, dates);
      && |b.rendered| <= |fs|
      && (forall i :: 0 <= i < |b.rendered| ==> Render(fs[i], format, dates) == Ok(b.rendered[i]))
      && (b.failure.None? ==> |b.rendered| == |fs|)
      && (b.failure.Some? ==> |b.rendered| < |fs| && Render(fs[|b.rendered|], format, dates) == Err(b.failure.value))
    decreases |fs|
  {
    if fs != [] {
      var init := fs[..|fs| - 1];
      RenderAllSpec(init, format, dates);
      var before := RenderAll(init, format, dates);
      assert forall i :: 0 <= i < |init| ==> init[i] == fs[i];
    }
  }

  /** A batch fails exactly when one of its records fails to render. */
  lemma BatchFailsIffSomeRecordFails(fs: seq<Filter>, format: string, dates: DateLib)
    ensures RenderAll(fs, format, dates).failure.None? <==>
      forall i :: 0 <= i < |fs| ==> Render(fs[i], format, dates).Ok?
  {
    RenderAllSpec(fs, format, dates);
  }

  /** Once a prefix has failed, the rest of the batch is not looked at. */
  lemma {:induction false} FailureStopsBatch(fs: seq<Filter>, k: nat, format: string, dates: DateLib)
    requires k <= |fs|
    requires RenderAll(fs[..k], format, dates).failure.Some?
    ensures RenderAll(fs, format, dates) == RenderAll(fs[..k], format, dates)
    decreases |fs| - k
  {
    if k == |fs| {
      assert fs[..k] == fs;
    } else {
      var init := fs[..|fs| - 1];
      assert init[..k] == fs[..k];
      FailureStopsBatch(init, k, format, dates);
    }
  }

  /** What one call of `parse` leaves in `parsedFilters`, and how it ends. */
  datatype Parsed = Parsed(parsedFilters: seq<ParsedFilter>, outcome: Outcome)

  /** `parse` on the stored text `text`, starting from the pairs `before`: a decoding
      error appends nothing; otherwise the batch's pairs are appended, and its failure,
      if any, is thrown. */
  function ParseStep(text: string, json: string -> Json, format: string, dates: DateLib,
                     before: seq<ParsedFilter>): Parsed
  {
    match Decode(text, json)
    case Err(e) => Parsed(before, Fail(e))
    case Ok(fs) =>
      var b := RenderAll(fs, format, dates);
      Parsed(before + b.rendered, if b.failure.Some? then Fail(b.failure.value) else Pass)
  }

  /** `parse` appends and never replaces: on success one pair per decoded record, in input
      order; on an unknown type or operator the pairs of the records before the offending
      one stay appended and the offending record supplies the error. */
  lemma ParseAppendsInOrder(text: string, json: string -> Json, format: string, dates: DateLib,
                            before: seq<ParsedFilter>)
    ensures var p := ParseStep(text, json, format, dates, before);
      && |p.parsedFilters| >= |before| && p.parsedFilters[..|before|] == before
      && (Decode(text, json).Err? ==> p == Parsed(before, Fail(InvalidJson)))
      && (Decode(text, json).Ok? ==>
            var fs := Decode(text, json).value;
            var n := |p.parsedFilters| - |before|;
            && n <= |fs|
            && (forall i :: 0 <= i < n ==> Render(fs[i], format, dates) == Ok(p.parsedFilters[|before| + i]))
            && (p.outcome.Pass? ==> n == |fs|)
            && (p.outcome.Fail? ==> n < |fs| && Render(fs[n], format, dates) == Err(p.outcome.error)))
  {
    match Decode(text, json)
    case Err(e) =>
    case Ok(fs) =>
      RenderAllSpec(fs, format, dates);
      var b := RenderAll(fs, format, dates);
      assert (before + b.rendered)[..|before|] == before;
      assert forall i :: 0 <= i < |b.rendered| ==> (before + b.rendered)[|before| + i] == b.rendered[i];
  }

  /** A text that decodes to one object appends that object's pair alone. */
  lemma ParseSingleObject(text: string, json: string -> Json, format: string, dates: DateLib,
                          before: seq<ParsedFilter>, p: ParsedFilter)
    requires !IsEmpty(text) && json(text).Obj?
    requires Render(json(text).filter, format, dates) == Ok(p)
    ensures ParseStep(text, json, format, dates, before) == Parsed(before + [p], Pass)
  {
    var f := json(text).filter;
    assert [f][..0] == [];
    assert RenderAll([f], format, dates) == Batch([] + [p], None);
    assert [] + [p] == [p];
  }

  /** Empty text (PHP `empty`, so also "0") parses to nothing and throws nothing. */
  lemma ParseEmptyTextIsNoOp(text: string, json: string -> Json, format: string, dates: DateLib,
                             before: seq<ParsedFilter>)
    requires IsEmpty(text)
    ensures ParseStep(text, json, format, dates, before) == Parsed(before, Pass)
  {
  }

  /** Parsing the same successful text twice appends its pairs twice, when `strtotime` and
      `date` give the same answers on both calls (one `dates` serves both here). */
  lemma ReparseAppendsAgain(text: string, json: string -> Json, format: string, dates: DateLib,
                            before: seq<ParsedFilter>)
    requires ParseStep(text, json, format, dates, before).outcome.Pass?
    ensures var once := ParseStep(text, json, format, dates, before).parsedFilters;
      var added := once[|before|..];
      ParseStep(text, json, format, dates, once) == Parsed(before + added + added, Pass)
  {
    ParseAppendsInOrder(text, json, format, dates, before);
    var once := ParseStep(text, json, format, dates, before).parsedFilters;
    assert once == before + once[|before|..];
  }

  // ---------------------------------------------------------------- request values

  /** The pick made by both constructors: the first value unless PHP-empty, else the
      second unless PHP-empty, else "". */
  function SelectFilterText(first: string, second: string): (r: string)
    ensures r == first || r == second || r == ""
    ensures !IsEmpty(r) <==> !IsEmpty(first) || !IsEmpty(second)
    ensures !IsEmpty(first) ==> r == first
    ensures IsEmpty(first) && !IsEmpty(second) ==> r == second
    ensures IsEmpty(first) && IsEmpty(second) ==> r == ""
  {
    if !IsEmpty(first) then first
    else if !IsEmpty(second) then second
    else ""
  }

  // ---------------------------------------------------------------- WHERE clause

  /** One conjunct of the WHERE clause: the expression, a space, the value. */
  function Clause(p: ParsedFilter): string {
    p.expression + " " + p.value
  }

  function Clauses(ps: seq<ParsedFilter>): (cs: seq<string>)
    ensures |cs| == |ps| && forall i :: 0 <= i < |ps| ==> cs[i] == Clause(ps[i])
  {
    seq(|ps|, i requires 0 <= i < |ps| => Clause(ps[i]))
  }

  /** The WHERE clause `parseIntoQuery` appends to its query. */
  function WhereClause(ps: seq<ParsedFilter>): string {
    if |ps| == 0 then "WHERE 1=1" else "WHERE " + Implode(Clauses(ps), " AND ")
  }

  /** The conjuncts appear in list order: one more pair adds one more " AND " conjunct. */
  lemma WhereClauseAppend(ps: seq<ParsedFilter>, p: ParsedFilter)
    ensures WhereClause(ps + [p]) ==
      if ps == [] then "WHERE " + Clause(p) else WhereClause(ps) + " AND " + Clause(p)
  {
    assert Clauses(ps + [p]) == Clauses(ps) + [Clause(p)];
    if ps != [] {
      ImplodeSnoc(Clauses(ps), Clause(p), " AND ");
    }
  }

  // ---------------------------------------------------------------- messages

  /** The exception message, prefixed with the throwing method's `__METHOD__`. */
  function Message(className: string, e: Error): (m: string)
    ensures |m| > |className| + 2 && m[..|className| + 2] == className + "::"
    ensures e.UnknownFilterType? ==>
      var q := Quote(e.filterType); |m| >= |q| && m[|m| - |q|..] == q
    ensures e.InvalidComparisonOperator? ==>
      var q := Quote(e.operator); |m| >= |q| && m[|m| - |q|..] == q
  {
    var detail := match e
      case InvalidJson => "decodeFilterJson Expects first parameter to be a valid JSON string"
      case UnknownFilterType(t) => "parse Unknown filter type " + Quote(t)
      case InvalidComparisonOperator(op) => "translateComparisonOperator Invalid comparison operator " + Quote(op);
    assert (className + "::" + detail)[..|className| + 2] == className + "::";
    className + "::" + detail
  }

  function Quote(s: string): string {
    "'" + s + "'"
  }

  /** The unknown-type message of a class named `ExtFilterParser` in namespace `ns` ends
      with the text the unknown-type tests expect. */
  lemma UnknownTypeMessageEnds(ns: string, t: string)
    ensures var m := Message(ns + "ExtFilterParser", UnknownFilterType(t));
      var want := "ExtFilterParser::parse Unknown filter type " + Quote(t);
      |m| >= |want| && m[|m| - |want|..] == want
  {
    var m := Message(ns + "ExtFilterParser", UnknownFilterType(t));
    var want := "ExtFilterParser::parse Unknown filter type " + Quote(t);
    assert m == ns + want;
    SuffixOfConcat(ns, want);
  }
}
