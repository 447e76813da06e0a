/** The namespaced `OpnSrce\Ext\ExtFilterParser\ExtFilterParser` class: a configurable
    request parameter and date format, a constructor that pulls filter text from GET or
    POST and parses it at once, and `parseIntoQuery`, which appends a WHERE clause to an
    SQL string. The superglobals are passed in as maps. */
module OpnSrce {
  import opened Php
  import opened Filters

  const DefaultRequestParam := "filter"
  const DefaultDateFormat := "Y-m-d"

  class ExtFilterParser {
    var parsedFilters: seq<ParsedFilter>
    var filters: string
    var requestParam: string
    var dateFormat: string

    /** The property defaults, then the two arguments stored; nothing is pulled or parsed. */
    constructor Init(requestParam: string := DefaultRequestParam, dateFormat: string := DefaultDateFormat)
      ensures this.requestParam == requestParam && this.dateFormat == dateFormat
      ensures parsedFilters == [] && filters == ""
    {
      parsedFilters := [];
      filters := "";
      this.requestParam := requestParam;
      this.dateFormat := dateFormat;
    }

    /** `__construct`: stores the arguments (by default "filter" and "Y-m-d"), pulls the
        filter text from GET or POST and, when that text is not PHP-empty, stores and parses
        it. A failing parse throws out of the constructor, so no parser is obtained. */
    static method Create(get: map<string, string>, post: map<string, string>,
                         json: string -> Json, dates: DateLib,
                         requestParam: string := DefaultRequestParam,
                         dateFormat: string := DefaultDateFormat)
      returns (r: Result<ExtFilterParser>)
      ensures r.Ok? ==> fresh(r.value)
      ensures r.Ok? ==> r.value.requestParam == requestParam && r.value.dateFormat == dateFormat
      ensures var picked := SelectFilterText(Lookup(get, requestParam), Lookup(post, requestParam));
        && (IsEmpty(picked) ==> r.Ok? && r.value.filters == "" && r.value.parsedFilters == [])
        && (!IsEmpty(picked) ==>
              var p := ParseStep(picked, json, dateFormat, dates, []);
              && (r.Ok? <==> p.outcome.Pass?)
              && (r.Err? ==> p.outcome == Fail(r.error))
              && (r.Ok? ==> r.value.filters == picked && r.value.parsedFilters == p.parsedFilters))
    {
      var parser := new ExtFilterParser.Init(requestParam, dateFormat);
      var picked := parser.PullFiltersFromGetOrPost(get, post);
      if !IsEmpty(picked) {
        parser.SetFilters(picked);
        var outcome := parser.Parse(json, dates);
        if outcome.Fail? {
          return Err(outcome.error);
        }
      }
      return Ok(parser);
    }

    /** `pullFiltersFromGetOrPost`: a non-empty GET value wins over a non-empty POST value. */
    function PullFiltersFromGetOrPost(get: map<string, string>, post: map<string, string>): string
      reads this
    {
      SelectFilterText(Lookup(get, requestParam), Lookup(post, requestParam))
    }

    function ToString(): string
      reads this
    {
      filters
    }

    function GetParsedFilters(): seq<ParsedFilter>
      reads this
    {
      parsedFilters
    }

    function GetFilters(): string
      reads this
    {
      filters
    }

    function GetDateFormat(): string
      reads this
    {
      dateFormat
    }

    /** `setDateFormat`: only the date format changes. */
    method SetDateFormat(dateFormat: string)
      modifies this
      ensures GetDateFormat() == dateFormat
      ensures filters == old(filters) && parsedFilters == old(parsedFilters)
      ensures requestParam == old(requestParam)
    {
      this.dateFormat := dateFormat;
    }

    /** `setFilters`: the text is stored verbatim and read back by both accessors;
        nothing else changes (in particular nothing is parsed). */
    method SetFilters(filters: string)
      modifies this
      ensures GetFilters() == filters && ToString() == filters
      ensures parsedFilters == old(parsedFilters)
      ensures dateFormat == old(dateFormat) && requestParam == old(requestParam)
    {
      this.filters := filters;
    }

    /** `parse`: decodes the stored text and appends one rendered pair per record, in order,
        using the configured date format; throws on bad JSON, an unknown type or an unknown
        operator. The stored text and the configuration are unchanged. */
    method Parse(json: string -> Json, dates: DateLib) returns (outcome: Outcome)
      modifies this
      ensures filters == old(filters) && dateFormat == old(dateFormat)
      ensures requestParam == old(requestParam)
      ensures Parsed(parsedFilters, outcome) ==
        ParseStep(filters, json, dateFormat, dates, old(parsedFilters))
    {
      var decoded := Decode(filters, json);
      if decoded.Err? {
        return Fail(decoded.error);
      }
      var fs := decoded.value;
      var i := 0;
      while i < |fs|
        invariant 0 <= i <= |fs|
        invariant filters == old(filters) && dateFormat == old(dateFormat)
        invariant requestParam == old(requestParam)
        invariant RenderAll(fs[..i], dateFormat, dates).failure.None?
        invariant parsedFilters == old(parsedFilters) + RenderAll(fs[..i], dateFormat, dates).rendered
      {
        assert fs[..i + 1][..i] == fs[..i];
        match Render(fs[i], dateFormat, dates) {
          case Err(e) =>
            FailureStopsBatch(fs, i + 1, dateFormat, dates);
            return Fail(e);
          case Ok(p) =>
            parsedFilters := parsedFilters + [p];
        }
        i := i + 1;
      }
      assert fs[..i] == fs;
      return Pass;
    }

    /** `parseIntoQuery`: parses (appending, as `parse` does), then appends to `query`
        "WHERE 1=1" when no pairs are stored, else every stored pair AND-joined in order. */
    method ParseIntoQuery(query: string, json: string -> Json, dates: DateLib)
      returns (r: Result<string>)
      modifies this
      ensures filters == old(filters) && dateFormat == old(dateFormat)
      ensures requestParam == old(requestParam)
      ensures var p := ParseStep(filters, json, dateFormat, dates, old(parsedFilters));
        && parsedFilters == p.parsedFilters
        && (r.Ok? <==> p.outcome.Pass?)
        && (r.Err? ==> p.outcome == Fail(r.error))
      ensures r.Ok? ==> r.value == query + " " + WhereClause(parsedFilters)
    {
      var outcome := Parse(json, dates);
      if outcome.Fail? {
        return Err(outcome.error);
      }
      var whereClause := "WHERE 1=1";
      var clauses: seq<string> := [];
      var i := 0;
      while i < |parsedFilters|
        invariant 0 <= i <= |parsedFilters|
        invariant |clauses| == i
        invariant forall k :: 0 <= k < i ==> clauses[k] == Clause(parsedFilters[k])
      {
        clauses := clauses + [parsedFilters[i].expression + " " + parsedFilters[i].value];
        i := i + 1;
      }
      assert clauses == Clauses(parsedFilters);
      if clauses != [] {
        whereClause := "WHERE " + Implode(clauses, " AND ");
      }
      return Ok(query + " " + whereClause);
    }
  }

  /** The date test's filter renders as a quoted, reformatted date. */
  lemma DateExampleRenders(dates: DateLib)
    requires dates.strToTime("2010-10-10").Some?
    requires dates.date(DefaultDateFormat, dates.strToTime("2010-10-10").value) == "2010-10-10"
    ensures Render(Filter("date", "dateField", Str("2010-10-10"), "lt"), DefaultDateFormat, dates)
      == Ok(ParsedFilter("dateField <", "'2010-10-10'"))
  {
    assert "dateField" + " " + "<" == "dateField <";
    assert Quote("2010-10-10") == "'2010-10-10'";
    assert !IsNumericString("2010-10-10") by {
      assert "2010-10-10"[0] == '2' && !IsDigit("2010-10-10"[4]);
    }
    assert "2010-10-10" != EmptyDate;
    assert Operators["lt"] == "<";
    ParsedDateRendersFormatted(Filter("date", "dateField", Str("2010-10-10"), "lt"), DefaultDateFormat, dates);
  }

  /** The query the parseIntoQuery test expects, for a text holding that one date filter. */
  lemma ParseIntoQueryDateExample(text: string, json: string -> Json, dates: DateLib)
    requires !IsEmpty(text) && json(text) == Obj(Filter("date", "dateField", Str("2010-10-10"), "lt"))
    requires dates.strToTime("2010-10-10").Some?
    requires dates.date(DefaultDateFormat, dates.strToTime("2010-10-10").value) == "2010-10-10"
    ensures var p := ParseStep(text, json, DefaultDateFormat, dates, []);
      && p.outcome == Pass
      && p.parsedFilters == [ParsedFilter("dateField <", "'2010-10-10'")]
      && WhereClause(p.parsedFilters) == "WHERE dateField < '2010-10-10'"
  {
    var pf := ParsedFilter("dateField <", "'2010-10-10'");
    assert "WHERE " + Clause(pf) == "WHERE dateField < '2010-10-10'";
    DateExampleRenders(dates);
    ParseSingleObject(text, json, DefaultDateFormat, dates, [], pf);
    WhereClauseAppend([], pf);
    assert [] + [pf] == [pf];
  }
}
