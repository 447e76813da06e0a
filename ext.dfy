/** The older `Ext\ExtFilterParser\ExtFilterParser` class: the request parameter is fixed
    to "filter", dates are always written as "Y-m-d", the constructor only pulls the
    filter text from a request (it never parses), and `parseIntoQueryBuilder` hands each
    stored pair to a query builder's `andWhere`, prefixed with the alias "p.". The
    request's two parameter bags are maps; the query builder is the sequence of
    conditions it has received. */
module Ext {
  import opened Php
  import opened Filters

  const DefaultRequestParam := "filter"

  /** The format `parseDateFilter` hard-codes. */
  const FixedDateFormat := "Y-m-d"

  /** The entity alias `parseIntoQueryBuilder` puts before every expression. */
  const Alias := "p."

  /** A Symfony request: its query-string bag and its body bag. */
  datatype Request = Request(query: map<string, string>, request: map<string, string>)

  /** The type dispatch of this class: the shared renderers with dates always as "Y-m-d". */
  function RenderFilter(f: Filter, dates: DateLib): (r: Result<ParsedFilter>)
    ensures forall format :: f.filterType != "date" ==> r == Render(f, format, dates)
    ensures f.filterType == "date" ==> r == RenderDate(f, FixedDateFormat, dates)
    ensures f.filterType == "date" && !f.value.List? && dates.strToTime(DateInput(f.value)).Some? ==>
      r == RenderComparison(f.(value := Str(dates.date(FixedDateFormat, dates.strToTime(DateInput(f.value)).value))))
  {
    Render(f, FixedDateFormat, dates)
  }

  /** The arguments of the `andWhere` calls for the pairs `ps`, one per pair in order. */
  function AndWhereArguments(ps: seq<ParsedFilter>): (args: seq<string>)
    ensures |args| == |ps|
    ensures forall i :: 0 <= i < |ps| ==> args[i] == Alias + ps[i].expression + " " + ps[i].value
  {
    seq(|ps|, i requires 0 <= i < |ps| => Alias + ps[i].expression + " " + ps[i].value)
  }

  class ExtFilterParser {
    var parsedFilters: seq<ParsedFilter>
    var filters: string
    var requestParam: string

    /** `__construct`: with a request, the filter text is pulled from it; without one (the
        default) it stays "". Nothing is parsed. */
    constructor (request: Option<Request> := None)
      ensures requestParam == DefaultRequestParam && parsedFilters == []
      ensures request.None? ==> filters == ""
      ensures request.Some? ==>
        filters == SelectFilterText(Lookup(request.value.query, DefaultRequestParam),
                                    Lookup(request.value.request, DefaultRequestParam))
    {
      parsedFilters := [];
      filters := "";
      requestParam := DefaultRequestParam;
      new;
      if request.Some? {
        filters := PullFilterJsonFromRequest(request.value);
      }
    }

    /** `pullFilterJsonFromRequest`: a non-empty query value wins over a non-empty body value. */
    function PullFilterJsonFromRequest(request: Request): string
      reads this
    {
      SelectFilterText(Lookup(request.query, requestParam), Lookup(request.request, requestParam))
    }

    function ToString(): string
      reads this
    {
      filters
    }

    function GetParsedFilters(): seq<ParsedFilter>
      reads this
    {
      parsedFilters
    }

    function GetFilters(): string
      reads this
    {
      filters
    }

    /** `setFilters`: the text is stored verbatim and read back by both accessors;
        nothing else changes. */
    method SetFilters(filters: string)
      modifies this
      ensures GetFilters() == filters && ToString() == filters
      ensures parsedFilters == old(parsedFilters) && requestParam == old(requestParam)
    {
      this.filters := filters;
    }

    /** `parse`: decodes the stored text and appends one rendered pair per record, in order,
        with dates as "Y-m-d"; throws on bad JSON, an unknown type or an unknown operator. */
    method Parse(json: string -> Json, dates: DateLib) returns (outcome: Outcome)
      modifies this
      ensures filters == old(filters) && requestParam == old(requestParam)
      ensures Parsed(parsedFilters, outcome) ==
        ParseStep(filters, json, FixedDateFormat, dates, old(parsedFilters))
    {
      var decoded := Decode(filters, json);
      if decoded.Err? {
        return Fail(decoded.error);
      }
      var fs := decoded.value;
      var i := 0;
      while i < |fs|
        invariant 0 <= i <= |fs|
        invariant filters == old(filters) && requestParam == old(requestParam)
        invariant RenderAll(fs[..i], FixedDateFormat, dates).failure.None?
        invariant parsedFilters == old(parsedFilters) + RenderAll(fs[..i], FixedDateFormat, dates).rendered
      {
        assert fs[..i + 1][..i] == fs[..i];
        match RenderFilter(fs[i], dates) {
          case Err(e) =>
            FailureStopsBatch(fs, i + 1, FixedDateFormat, dates);
            return Fail(e);
          case Ok(p) =>
            parsedFilters := parsedFilters + [p];
        }
        i := i + 1;
      }
      assert fs[..i] == fs;
      return Pass;
    }

    /** `parseIntoQueryBuilder`: parses (appending, as `parse` does), then calls `andWhere`
        once per stored pair, in order, and returns the same builder. A failing parse
        throws before any call is made. */
    method ParseIntoQueryBuilder(builder: seq<string>, json: string -> Json, dates: DateLib)
      returns (r: Result<seq<string>>)
      modifies this
      ensures filters == old(filters) && requestParam == old(requestParam)
      ensures var p := ParseStep(filters, json, FixedDateFormat, dates, old(parsedFilters));
        && parsedFilters == p.parsedFilters
        && (r.Ok? <==> p.outcome.Pass?)
        && (r.Err? ==> p.outcome == Fail(r.error))
      ensures r.Ok? ==> r.value == builder + AndWhereArguments(parsedFilters)
    {
      var outcome := Parse(json, dates);
      if outcome.Fail? {
        return Err(outcome.error);
      }
      var conditions := builder;
      var i := 0;
      while i < |parsedFilters|
        invariant 0 <= i <= |parsedFilters|
        invariant conditions == builder + AndWhereArguments(parsedFilters[..i])
      {
        assert parsedFilters[..i + 1] == parsedFilters[..i] + [parsedFilters[i]];
        conditions := conditions + [Alias + parsedFilters[i].expression + " " + parsedFilters[i].value];
        i := i + 1;
      }
      assert parsedFilters[..i] == parsedFilters;
      return Ok(conditions);
    }
  }
}
