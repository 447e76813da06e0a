# ExtFilterParser in Dafny

A model of ExtFilterParser. ExtFilterParser turns the JSON filter list that an Ext JS
grid sends into SQL predicate pieces. A filter text holds one JSON object or an array
of objects. It is decoded, each record is dispatched on its `type` (`numeric`, `date`,
`list`, `string`), and each record is rendered into an `(expression, value)` pair. The
pairs are appended, in order, to the parser's `parsedFilters`. The pairs can then be
assembled into a `WHERE` clause, or handed one by one to a query builder's `andWhere`.

The repository ships two versions of the class, and both are modelled:

- `OpnSrce\Ext\ExtFilterParser\ExtFilterParser` (module `OpnSrce`, file `opnsrce.dfy`).
  It has a configurable request parameter and date format. Its constructor pulls the
  filter text from GET or POST and parses it at once. `parseIntoQuery` appends a WHERE
  clause to an SQL string.
- `Ext\ExtFilterParser\ExtFilterParser` (module `Ext`, file `ext.dfy`). It always
  formats dates as `Y-m-d`. Its constructor only pulls the text from a Symfony request
  and never parses. `parseIntoQueryBuilder` issues one `andWhere("p." + expression + " "
  + value)` per stored pair.

The decoder, the operator table and the four renderers are the same code in both
classes, apart from the date format. They are defined once, in module `Filters`
(`filters.dfy`):

- `Ext/ExtFilterParser/ExtFilterParser.php:137-149` is modelled by `Filters.Decode`.
- `Ext/ExtFilterParser/ExtFilterParser.php:158-174` is modelled by `Filters.TranslateComparisonOperator`.
- `Ext/ExtFilterParser/ExtFilterParser.php:182-239` is modelled by the renderers, with the
  format passed as `"Y-m-d"`.

Module `Php` (`php.dfy`) states the PHP built-ins that the code relies on: `empty()` on
strings (true for `""` and `"0"`), `explode`, `implode`, `is_numeric` and the
integer-to-string conversion.

External calls are parameters:

- `json_decode` is `json: string -> Json`. Its result is `Invalid` (NULL), `Obj` (one
  object) or `Arr` (an array of objects).
- `strtotime` and `date` are the two function fields of `DateLib`. `strtotime`
  returning FALSE is `None`. `RejectsEmpty` states that `strtotime('')` is FALSE.
- `$_GET` and `$_POST`, and the Symfony parameter bags, are maps from parameter name
  to value. A missing key reads as `""`.
- A Doctrine query builder is the sequence of conditions passed to its `andWhere`.

Getters and `__toString` are functions reading the object. Their round trips are in
the contracts of the setters. Each PHP exception is an `Error` value. `Filters.Message`
gives its text. Methods that throw return a `Result` or an `Outcome`.

In three places the code behaves differently from what a reader might expect, and the
model follows the code:

- An empty list renders as `('')`, not `()`. `implode` of no elements is `""`, so the
  quotes stay. `explode(',', '')` gives one empty element.
- An unknown filter type does not discard the batch. The pairs of the records before
  it stay in `parsedFilters`, because the `foreach` appends as it goes.
- A parsed date is not always quoted. It is quoted only when its formatted text is not
  numeric. A format such as `Ymd` yields a bare number.

## Model

| member | source | states |
|---|---|---|
| `Php.Explode` | OpnSrce/Ext/ExtFilterParser/ExtFilterParser.php:310-312 | `explode` on a list value gives at least one piece, and no piece contains the delimiter |
| `Php.ImplodeExplode` | OpnSrce/Ext/ExtFilterParser/ExtFilterParser.php:310-315 | imploding the pieces of an `explode` with the same delimiter gives back the original CSV text, so nothing is trimmed or dropped |
| `Php.ExplodeImplode` | OpnSrce/Ext/ExtFilterParser/ExtFilterParser.php:310-315 | exploding an `implode` of one or more comma-free pieces gives back exactly those pieces |
| `Php.ExplodeCount` | OpnSrce/Ext/ExtFilterParser/ExtFilterParser.php:311 | a CSV text splits into one piece more than it has commas |
| `Php.ImplodeSnoc` | OpnSrce/Ext/ExtFilterParser/ExtFilterParser.php:190 | adding one more clause to an `implode` puts the glue and that clause at the end |
| `Php.NatToString` | OpnSrce/Ext/ExtFilterParser/ExtFilterParser.php:262-263 | a natural number prints as a non-empty run of decimal digits with no leading zero |
| `Php.IntToString` | OpnSrce/Ext/ExtFilterParser/ExtFilterParser.php:262-263 | an integer value prints as numeric text, starting with `-` exactly when it is negative |
| `Php.IntToStringRoundTrip` | OpnSrce/Ext/ExtFilterParser/ExtFilterParser.php:257-263 | the printed form of an integer value reads back as the same integer |
| `Filters.IntValueIsNumeric` | OpnSrce/Ext/ExtFilterParser/ExtFilterParser.php:257 | an integer JSON value counts as numeric, and both its text and its value are kept when it is emitted bare |
| `Filters.Decode` | OpnSrce/Ext/ExtFilterParser/ExtFilterParser.php:205-219 | PHP-empty text (including `"0"`) decodes to no filters; a NULL decode is an `InvalidJson` error, and no other error happens here; one object becomes a one-element batch; an array is kept as it is |
| `Filters.TranslateComparisonOperator` | OpnSrce/Ext/ExtFilterParser/ExtFilterParser.php:228-246 | a token succeeds exactly when it is in the table `lt`→`<`, `gt`→`>`, `eq`→`=`, and then yields the table's symbol; any other token fails with `InvalidComparisonOperator` carrying that token |
| `Filters.TranslateInjective` | OpnSrce/Ext/ExtFilterParser/ExtFilterParser.php:228-246 | two tokens that translate to the same symbol are the same token |
| `Filters.RenderComparison` | OpnSrce/Ext/ExtFilterParser/ExtFilterParser.php:254-265 | rendering succeeds exactly when the operator is in the table, and otherwise fails with the offending token; the expression is the field, a space and the symbol; the value is bare exactly when it is numeric, and otherwise is wrapped verbatim in single quotes |
| `Filters.ComparisonQuotedIffNotNumeric` | OpnSrce/Ext/ExtFilterParser/ExtFilterParser.php:257-259 | a rendered comparison value is never empty, and it starts with a quote exactly when the filter value is not numeric |
| `Filters.NormalizeDate` | OpnSrce/Ext/ExtFilterParser/ExtFilterParser.php:275-283 | the value stored back before delegating; it has no contract of its own, and its behaviour is stated by the `Filters.RenderDate` and `Filters.SentinelNormalizesToEmpty` contracts |
| `Filters.RenderDate` | OpnSrce/Ext/ExtFilterParser/ExtFilterParser.php:273-286 | a date filter fails only on an unknown operator; a value that `strtotime` parses (after `0000-00-00` is replaced by `""`) is rendered as its `date(format, ts)` text; a value that does not parse, or a list, is rendered as a plain comparison filter; `0000-00-00` with a valid operator gives `''` |
| `Filters.SentinelNormalizesToEmpty` | OpnSrce/Ext/ExtFilterParser/ExtFilterParser.php:275-283 | only a string value can print as `0000-00-00`; when `strtotime('')` fails, that value is stored back as `""` |
| `Filters.ParsedDateRendersFormatted` | OpnSrce/Ext/ExtFilterParser/ExtFilterParser.php:279-285 | a date that parses is emitted as `date(format, ts)` under the configured format, quoted unless that text is numeric |
| `Filters.RenderString` | OpnSrce/Ext/ExtFilterParser/ExtFilterParser.php:294-300 | the expression is `field LIKE`; the value is the filter value embedded verbatim, with nothing escaped, between `'%` and `%'`, and can be read back from between them |
| `Filters.RenderList` | OpnSrce/Ext/ExtFilterParser/ExtFilterParser.php:308-317 | the expression is `field IN`; the value is `('`, the elements joined with `','`, then `')`, and the joined elements can be read back from inside the brackets |
| `Filters.ListCsvIsExplodedArray` | OpnSrce/Ext/ExtFilterParser/ExtFilterParser.php:310-312 | a CSV list value renders exactly as the array of its comma-separated pieces |
| `Filters.ListArrayIsCsv` | OpnSrce/Ext/ExtFilterParser/ExtFilterParser.php:308-317 | a non-empty array of comma-free strings renders exactly as its comma-joined CSV text |
| `Filters.ListCsvElementCount` | OpnSrce/Ext/ExtFilterParser/ExtFilterParser.php:310-312 | a CSV list value yields one element more than it has commas |
| `Filters.ListEmptyRendersEmptyString` | OpnSrce/Ext/ExtFilterParser/ExtFilterParser.php:308-317 | an empty array and an empty CSV text both render as `('')` |
| `Filters.Render` | OpnSrce/Ext/ExtFilterParser/ExtFilterParser.php:155-170 | a record renders exactly when its type is one of `numeric`, `date`, `list`, `string` and, for the first two, its operator is in the table; an unknown type fails with `UnknownFilterType` carrying the type, and a known type fails only with `InvalidComparisonOperator`; `numeric` goes to the comparison renderer, `date` to the date renderer, `list` to the list renderer and `string` to the string renderer |
| `Filters.FormatOnlyAffectsDates` | OpnSrce/Ext/ExtFilterParser/ExtFilterParser.php:155-167 | the configured date format changes the rendering of date records only |
| `Filters.RenderAll` | OpnSrce/Ext/ExtFilterParser/ExtFilterParser.php:154-171 | the `foreach` of `parse` as a value; it has no contract of its own, and it is characterised by `Filters.RenderAllSpec`, `Filters.BatchFailsIffSomeRecordFails` and `Filters.FailureStopsBatch` |
| `Filters.RenderAllSpec` | OpnSrce/Ext/ExtFilterParser/ExtFilterParser.php:154-171 | the batch appends, for the records in input order, the pair each renders to; with no failure every record has its pair; on failure, the first record without a pair is the one whose error is thrown |
| `Filters.BatchFailsIffSomeRecordFails` | OpnSrce/Ext/ExtFilterParser/ExtFilterParser.php:154-171 | a batch throws exactly when some record in it fails to render |
| `Filters.FailureStopsBatch` | OpnSrce/Ext/ExtFilterParser/ExtFilterParser.php:168-169 | once a prefix of the batch has thrown, the records after it change nothing |
| `Filters.ParseStep` | OpnSrce/Ext/ExtFilterParser/ExtFilterParser.php:151-174 | one call of `parse` as a value; it has no contract of its own, and it is characterised by `Filters.ParseAppendsInOrder`, `Filters.ParseSingleObject`, `Filters.ParseEmptyTextIsNoOp` and `Filters.ReparseAppendsAgain`, and both classes' `Parse` methods are proved equal to it |
| `Filters.ParseAppendsInOrder` | OpnSrce/Ext/ExtFilterParser/ExtFilterParser.php:151-174 | `parse` keeps the earlier pairs as a prefix and never replaces them; bad JSON appends nothing; on success it appends one pair per decoded record in order; on failure the records before the offending one stay appended, and the offending one supplies the error |
| `Filters.ParseSingleObject` | OpnSrce/Ext/ExtFilterParser/ExtFilterParser.php:213-215 | a text that decodes to a single object appends that object's pair alone |
| `Filters.ParseEmptyTextIsNoOp` | OpnSrce/Ext/ExtFilterParser/ExtFilterParser.php:207-208 | parsing PHP-empty text appends nothing and throws nothing |
| `Filters.ReparseAppendsAgain` | OpnSrce/Ext/ExtFilterParser/ExtFilterParser.php:157-166 | parsing the same successful text twice appends its pairs twice, when `strtotime` and `date` give the same answers on both calls |
| `Filters.SelectFilterText` | OpnSrce/Ext/ExtFilterParser/ExtFilterParser.php:131-144 | the picked text is the first value, the second value or `""`; it is non-empty exactly when one of the two is; a non-empty first value wins, a non-empty second value comes next, else `""` |
| `Filters.Clauses` | OpnSrce/Ext/ExtFilterParser/ExtFilterParser.php:186-188 | there is one conjunct per stored pair, in order, each being the expression, a space and the value |
| `Filters.WhereClause` | OpnSrce/Ext/ExtFilterParser/ExtFilterParser.php:183-192 | `WHERE 1=1` for no pairs, else `WHERE ` and the conjuncts joined by ` AND `; it has no contract of its own, and it is stated by `Filters.WhereClauseAppend` and used in the contract of `OpnSrce.ExtFilterParser.ParseIntoQuery` |
| `Filters.WhereClauseAppend` | OpnSrce/Ext/ExtFilterParser/ExtFilterParser.php:183-192 | the first pair gives `WHERE` and its conjunct; each later pair adds ` AND ` and its conjunct at the end |
| `Filters.Message` | OpnSrce/Ext/ExtFilterParser/ExtFilterParser.php:169 | an exception message starts with the class and `::`; for an unknown type or operator it ends with the offending string in single quotes |
| `Filters.UnknownTypeMessageEnds` | OpnSrce/Ext/ExtFilterParser/Tests/ExtFilterParserTest.php:166-173 | for any namespace and any type `t`, the unknown-type exception of an `ExtFilterParser` class ends with `ExtFilterParser::parse Unknown filter type '` followed by `t` and `'`, the text both classes' tests expect (also Ext/ExtFilterParser/Tests/ExtFilterParserTest.php:89-95) |
| `OpnSrce.ExtFilterParser.Init` | OpnSrce/Ext/ExtFilterParser/ExtFilterParser.php:33-51 | the property defaults (no pairs, empty text), then the given request parameter and date format are stored; they default to `filter` and `Y-m-d` |
| `OpnSrce.ExtFilterParser.Create` | OpnSrce/Ext/ExtFilterParser/ExtFilterParser.php:114-123 | the constructor stores both arguments, which default to `filter` and `Y-m-d`, and picks the text from GET over POST; PHP-empty text leaves `filters` `""` and no pairs; otherwise the text is stored and parsed, and a failing parse throws out of the constructor, so no parser is obtained |
| `OpnSrce.ExtFilterParser.PullFiltersFromGetOrPost` | OpnSrce/Ext/ExtFilterParser/ExtFilterParser.php:131-144 | the lookup of `requestParam` in GET and POST; it has no contract of its own, and the pick is stated by the `Filters.SelectFilterText` contract and used in that of `OpnSrce.ExtFilterParser.Create` |
| `OpnSrce.ExtFilterParser.SetDateFormat` | OpnSrce/Ext/ExtFilterParser/ExtFilterParser.php:84-94 | `getDateFormat()` returns the new format; `filters`, `parsedFilters` and `requestParam` are unchanged |
| `OpnSrce.ExtFilterParser.SetFilters` | OpnSrce/Ext/ExtFilterParser/ExtFilterParser.php:57-106 | `getFilters()` and `__toString()` return exactly the new text; nothing else changes and nothing is parsed |
| `OpnSrce.ExtFilterParser.Parse` | OpnSrce/Ext/ExtFilterParser/ExtFilterParser.php:151-174 | `parsedFilters` and the outcome are those of `Filters.ParseStep` from the old pairs, under the configured date format; `filters`, `dateFormat` and `requestParam` are unchanged |
| `OpnSrce.ExtFilterParser.ParseIntoQuery` | OpnSrce/Ext/ExtFilterParser/ExtFilterParser.php:180-196 | it parses as `parse` does (and so appends), throws what `parse` throws, and otherwise returns the query, a space, and `WHERE 1=1` when no pairs are stored or the AND-joined conjuncts of all stored pairs |
| `OpnSrce.DateExampleRenders` | OpnSrce/Ext/ExtFilterParser/ExtFilterParser.php:273-286 | when `strtotime` parses `2010-10-10` and `Y-m-d` formats it back, the `lt` date filter renders as `dateField <` with the value `'2010-10-10'` |
| `OpnSrce.ParseIntoQueryDateExample` | OpnSrce/Ext/ExtFilterParser/Tests/ExtFilterParserTest.php:361-367 | a text holding that one date filter parses without error into that one pair, and its WHERE clause is `WHERE dateField < '2010-10-10'` |
| `Ext.RenderFilter` | Ext/ExtFilterParser/ExtFilterParser.php:96-108 | the older dispatch renders non-date records as the newer one does under any format, and sends date records to the date renderer with the fixed `Y-m-d` of line 206, so a parsed date is formatted as `Y-m-d` |
| `Ext.AndWhereArguments` | Ext/ExtFilterParser/ExtFilterParser.php:124-126 | there is one `andWhere` argument per stored pair, in order, each being `p.`, the expression, a space and the value |
| `Ext.ExtFilterParser.constructor` | Ext/ExtFilterParser/ExtFilterParser.php:64-86 | `requestParam` is `filter` and no pairs are stored; without a request (the default) `filters` is `""`; with one it is the non-empty query value, else the non-empty body value, else `""`; nothing is parsed |
| `Ext.ExtFilterParser.PullFilterJsonFromRequest` | Ext/ExtFilterParser/ExtFilterParser.php:76-86 | the lookup of `requestParam` in the query and body bags; it has no contract of its own, and the pick is stated by the `Filters.SelectFilterText` contract and used in that of `Ext.ExtFilterParser.constructor` |
| `Ext.ExtFilterParser.SetFilters` | Ext/ExtFilterParser/ExtFilterParser.php:29-57 | `getFilters()` and `__toString()` return exactly the new text; `parsedFilters` and `requestParam` are unchanged |
| `Ext.ExtFilterParser.Parse` | Ext/ExtFilterParser/ExtFilterParser.php:93-114 | `parsedFilters` and the outcome are those of `Filters.ParseStep` from the old pairs, with dates always as `Y-m-d`; `filters` and `requestParam` are unchanged |
| `Ext.ExtFilterParser.ParseIntoQueryBuilder` | Ext/ExtFilterParser/ExtFilterParser.php:122-128 | it parses as `parse` does, throws what `parse` throws before any `andWhere` call, and otherwise returns the builder's conditions followed by one `p.`-prefixed condition per stored pair (old and new), in order |

## Left out

- `json_decode` itself is a parameter, and no JSON parser is modelled. A JSON scalar (a
  number, a string, `true`) is not one of the three decode shapes. The source wraps
  such a scalar into a one-element array, and the type switch then rejects it.
- A record's missing fields are not modelled, except `comparison`. A missing
  `comparison` reads as PHP NULL, which no operator case matches. It is modelled as `""`,
  which fails the same way.
- `strtotime` and `date` are parameters, because they depend on the locale, the time
  zone and the clock. Only the sentinel rule and the branch on success or failure are
  modelled.
- Filters.RenderComparison: the numeric test recognises only decimal integers with an
  optional sign. PHP's `is_numeric` also accepts decimals, exponents and leading
  whitespace, and under PHP 5 only, hexadecimal strings such as `"0x1A"`. Under PHP 8
  only, it also accepts trailing whitespace. The model therefore quotes `"1.5"`, which
  every PHP version emits bare. It also quotes `"0x1A"`, which PHP 5 emits bare, and
  `"1 "`, which PHP 8 emits bare.
- An integer value is unbounded. PHP's `json_decode` turns an integer
  beyond `PHP_INT_MAX` into a float, which then prints in float form (for example
  `9.2233720368548E+18`). The model prints every integer in full decimal form.
- JSON floating-point values are not modelled. A value is a string, an integer or an
  array of strings.
- The model does not follow one PHP version throughout. The inputs on which PHP
  versions differ are these:
  - an integer 0 as a date value (the model follows PHP 8);
  - an array as a date value (the model follows PHP 5 and 7);
  - a hexadecimal string such as `"0x1A"` (the model follows PHP 7 and 8);
  - a numeric string with trailing whitespace such as `"1 "` (the model follows PHP 5
    and 7).

  The next lines give the details.
- Filters.RenderDate: the `0000-00-00` test compares the value's text (PHP 8). Under
  PHP 5 and 7 the loose `==` also matches the integer 0, which would then go to
  `strtotime('')`.
- Filters.RenderDate: an array date value is kept as it is, because `strtotime`
  returns FALSE for a non-string (PHP 5 and 7). Under PHP 8, `strtotime` of an array
  throws a `TypeError`, so `parse` would abort at that record.
- An array value used in a string context becomes the text `Array`, as PHP's
  conversion does. The notice PHP emits is not modelled.
- A stored pair's value is its text. PHP keeps an integer there for a numeric integer
  value. The two agree wherever the value is used, which is string concatenation.
- Filters.ReparseAppendsAgain: holds only when `strtotime` and `date` answer the same
  on both calls, because one `DateLib` serves both. In PHP they read the clock and the
  time zone. A relative date such as `now`, under a format with a time part, can
  render differently on the second call.
- The fluent `return $this` of the setters and of `parse` is not modelled. Methods
  return their outcome instead, and the object is the receiver.
- The PHP exception classes (`InvalidArgumentException`, `UnexpectedValueException`)
  are not modelled. They are the `Error` constructors, and their texts come from
  `Filters.Message`.
- `OpnSrce/Ext/ExtFilterParser/ExtFilterParserSymfony.php` is not modelled. It repeats
  the GET-over-POST pick, reading from a Symfony request, and forwards to Doctrine's
  `andWhere`.
- Concurrency is not modelled. The source is single-threaded.
