/** The filter compiler: turns the dashboard's filter list into the text of an
    SQL `AND …` condition for the analytics event store.

    Everything the compiler borrows from its host is a field of `Host`: the
    SQL string escaper, JavaScript's `Number(…)` (rendered, or `None` for NaN),
    whether `new RegExp(p)` compiles, and the rendering of the ±0.001 band
    around a latitude or longitude. Filter values are held in their JavaScript
    string form. The whitespace of the source's multi-line template literals
    is written here as single spaces. */
module FilterStatement {
  import opened Util

  datatype FilterType =
    | Equals | NotEquals | Contains | NotContains
    | GreaterThan | LessThan | Regex | NotRegex

  /** One validated filter: a dimension, an operator and its values (OR-ed). */
  datatype Filter = Filter(parameter: string, kind: FilterType, values: seq<string>)

  /** The exceptions a filter can raise; each aborts the whole statement. */
  datatype FilterError = EmptyPattern | InvalidPattern | PatternTooLong | NotNumeric

  datatype Host = Host(
    escape: string -> string,
    toNumber: string -> Option<string>,
    isValidRegex: string -> bool,
    bandLow: string -> string,
    bandHigh: string -> string)

  /** `FilterStatementOptions`; `None` is an omitted option. Field mappings are
      listed in the order of the object's entries. */
  datatype Options = Options(
    sessionLevelParams: Option<seq<string>>,
    fieldMappings: Option<seq<(string, string)>>)

  const DefaultSessionLevelParams: seq<string> := ["event_name"]
  const MaxPatternLength := 500

  /** `filterTypeToOperator`: the fixed operator table; regex kinds have none. */
  function Operator(t: FilterType): (op: Option<string>)
    ensures op.None? <==> (t == Regex || t == NotRegex)
  {
    match t
    case Equals => Some("=")
    case NotEquals => Some("!=")
    case Contains => Some("LIKE")
    case NotContains => Some("NOT LIKE")
    case GreaterThan => Some(">")
    case LessThan => Some("<")
    case Regex => None
    case NotRegex => None
  }

  /** What a template literal prints for the operator (`null` for the regex kinds). */
  function OperatorText(t: FilterType): string
  {
    match Operator(t)
    case Some(op) => op
    case None => "null"
  }

  /** The `%` wrapped around a value for LIKE matching. */
  function Wildcard(t: FilterType): string
  {
    if t == Contains || t == NotContains then "%" else ""
  }

  /** `field op escape(x + value + x)` */
  function Comparison(field: string, t: FilterType, v: string, host: Host): string
  {
    field + " " + OperatorText(t) + " " + host.escape(Wildcard(t) + v + Wildcard(t))
  }

  function Comparisons(field: string, t: FilterType, vs: seq<string>, host: Host): (cs: seq<string>)
    ensures |cs| == |vs|
    ensures forall i :: 0 <= i < |vs| ==> cs[i] == Comparison(field, t, vs[i], host)
  {
    seq(|vs|, i requires 0 <= i < |vs| => Comparison(field, t, vs[i], host))
  }

  /** One clause as it is, several as a parenthesised OR. */
  function AnyOf(clauses: seq<string>): string
  {
    if |clauses| == 1 then clauses[0] else "(" + Join(" OR ", clauses) + ")"
  }

  /** `getSqlParam`: the column expression a dimension is compared on. */
  function SqlParam(p: string): string
  {
    if StartsWith(p, "utm_") || StartsWith(p, "url_param:") then
      if StartsWith(p, "url_param:") then "url_parameters['" + p[|"url_param:"|..] + "']"
      else "url_parameters['" + p + "']"
    else if p == "referrer" then "domainWithoutWWW(referrer)"
    else if p == "entry_page" then
      "(SELECT argMin(pathname, timestamp) FROM events WHERE session_id = events.session_id)"
    else if p == "exit_page" then
      "(SELECT argMax(pathname, timestamp) FROM events WHERE session_id = events.session_id)"
    else if p == "dimensions" then "concat(toString(screen_width), 'x', toString(screen_height))"
    else if p == "city" then "concat(toString(region), '-', toString(city))"
    else if p == "browser_version" then "concat(toString(browser), ' ', toString(browser_version))"
    else if p == "operating_system_version" then
      "CASE WHEN concat(toString(operating_system), ' ', toString(operating_system_version)) = 'Windows 10' "
      + "THEN 'Windows 10/11' "
      + "ELSE concat(toString(operating_system), ' ', toString(operating_system_version)) END"
    else p
  }

  /** URL dimensions are read from the `url_parameters` map under their own name. */
  lemma SqlParamUrlParameters(name: string)
    ensures SqlParam("url_param:" + name) == "url_parameters['" + name + "']"
    ensures StartsWith(name, "utm_") ==> SqlParam(name) == "url_parameters['" + name + "']"
  {
    var p := "url_param:" + name;
    assert p[..|"url_param:"|] == "url_param:";
    assert p[|"url_param:"|..] == name;
    if StartsWith(name, "utm_") {
      assert name[2] == 'm';
      assert !StartsWith(name, "url_param:");
    }
  }

  /** A dimension outside the table is used as its own column name. */
  lemma SqlParamPlainColumn(p: string)
    requires !StartsWith(p, "utm_") && !StartsWith(p, "url_param:")
    requires p != "referrer" && p != "entry_page" && p != "exit_page" && p != "dimensions"
    requires p != "city" && p != "browser_version" && p != "operating_system_version"
    ensures SqlParam(p) == p
  {
  }

  /** `timeStatement.replace(/^AND\s+/i, "")` */
  function StripLeadingAnd(t: string): (r: string)
    ensures |r| <= |t|
  {
    if |t| >= 4 && Lower(t[..3]) == "and" && IsSpace(t[3]) then TrimStart(t[3..]) else t
  }

  /** The time filter used inside subqueries: the time statement without its
      leading `AND`, trimmed; empty when there is no time statement. */
  function TimeFilter(timeStatement: Option<string>): string
  {
    match timeStatement
    case None => ""
    case Some(t) => if t == "" then "" else Trim(StripLeadingAnd(t))
  }

  /** A time statement written as "AND <condition>" yields the bare condition. */
  lemma TimeFilterStripsAnd(cond: string)
    requires cond != [] && !IsSpace(cond[0]) && !IsSpace(cond[|cond| - 1])
    ensures TimeFilter(Some("AND " + cond)) == cond
  {
    var t := "AND " + cond;
    assert t[..3] == "AND";
    assert Lower("AND") == "and";
    assert t[3..] == " " + cond;
    assert TrimStart(t[3..]) == TrimStart(cond) by {
      assert (" " + cond)[1..] == cond;
    }
  }

  /** `siteId ? "site_id = <siteId>" : ""` (0 is falsy, as is a missing id). */
  function SiteIdFilter(siteId: Option<int>): string
  {
    match siteId
    case None => ""
    case Some(id) => if id == 0 then "" else "site_id = " + IntToString(id)
  }

  /** `[siteIdFilter, timeFilter].filter(Boolean).join(" AND ")` */
  function ScopeWhere(siteFilter: string, timeFilter: string): (w: string)
    ensures w == "" <==> siteFilter == "" && timeFilter == ""
  {
    if siteFilter == "" then timeFilter
    else if timeFilter == "" then siteFilter
    else siteFilter + " AND " + timeFilter
  }

  /** `buildSessionLevelSubquery`: the sessions having at least one matching event in scope. */
  function SessionLevelSubquery(f: Filter, scope: string, host: Host): string
  {
    var condition := AnyOf(Comparisons(f.parameter, f.kind, f.values, host));
    var finalWhere := if scope != "" then "WHERE " + scope + " AND " + condition else "WHERE " + condition;
    "session_id IN ( SELECT DISTINCT session_id FROM events " + finalWhere + " )"
  }

  /** The `entry_page` / `exit_page` subquery over each session's first or last pathname. */
  function PageSubquery(aggregate: string, alias: string, f: Filter, scope: string, host: Host): string
  {
    var whereStatement := if scope != "" then "WHERE " + scope else "";
    "session_id IN ( SELECT session_id FROM ( SELECT session_id, " + aggregate
    + "(pathname, timestamp) AS " + alias + " FROM events " + whereStatement
    + " GROUP BY session_id ) WHERE " + AnyOf(Comparisons(alias, f.kind, f.values, host)) + " )"
  }

  function UserIdEquals(e: string): string
  {
    "(user_id = " + e + " OR identified_user_id = " + e + ")"
  }

  function UserIdNotEquals(e: string): string
  {
    "(user_id != " + e + " AND identified_user_id != " + e + ")"
  }

  /** The per-value user clause: `equals` matches either id, anything else excludes both. */
  function UserIdClause(t: FilterType, v: string, host: Host): string
  {
    if t == Equals then UserIdEquals(host.escape(v)) else UserIdNotEquals(host.escape(v))
  }

  function UserIdFragment(f: Filter, host: Host): string
  {
    if |f.values| == 1 && f.kind == Equals then UserIdEquals(host.escape(f.values[0]))
    else if |f.values| == 1 && f.kind == NotEquals then UserIdNotEquals(host.escape(f.values[0]))
    else
      var conditions := seq(|f.values|, i requires 0 <= i < |f.values| => UserIdClause(f.kind, f.values[i], host));
      if f.kind == Equals then "(" + Join(" OR ", conditions) + ")"
      else "(" + Join(" AND ", conditions) + ")"
  }

  /** `match(field, pattern)` after the three fail-fast checks, in their order;
      the length limit counts UTF-16 code units, as `pattern.length` does. */
  function RegexFragment(f: Filter, host: Host): Result<string, FilterError>
  {
    var pattern := if |f.values| > 0 then f.values[0] else "";
    if pattern == "" then Err(EmptyPattern)
    else if !host.isValidRegex(pattern) then Err(InvalidPattern)
    else if Utf16Length(pattern) > MaxPatternLength then Err(PatternTooLong)
    else
      var matchExpr := "match(" + SqlParam(f.parameter) + ", " + host.escape(pattern) + ")";
      Ok(if f.kind == Regex then matchExpr else "NOT " + matchExpr)
  }

  /** `field > n` / `field < n` for the first value, which must be a number. */
  function NumericFragment(f: Filter, host: Host): Result<string, FilterError>
  {
    if |f.values| == 0 then Err(NotNumeric)
    else
      match host.toNumber(f.values[0])
      case None => Err(NotNumeric)
      case Some(n) => Ok(SqlParam(f.parameter) + " " + OperatorText(f.kind) + " " + n)
  }

  function Band(p: string, v: string, host: Host): string
  {
    p + " >= " + host.bandLow(v) + " AND " + p + " <= " + host.bandHigh(v)
  }

  /** `lat` / `lon`: a tolerance band per value, OR-ed. */
  function LatLonFragment(f: Filter, host: Host): string
  {
    if |f.values| == 1 then Band(f.parameter, f.values[0], host)
    else
      var ranges := seq(|f.values|, i requires 0 <= i < |f.values| => "(" + Band(f.parameter, f.values[i], host) + ")");
      "(" + Join(" OR ", ranges) + ")"
  }

  /** The fragment of one filter: the first matching case of the dispatch decides. */
  function CompileFilter(f: Filter, sessionLevelParams: seq<string>, scope: string, host: Host)
    : Result<string, FilterError>
  {
    if f.parameter in sessionLevelParams then Ok(SessionLevelSubquery(f, scope, host))
    else if f.parameter == "entry_page" then Ok(PageSubquery("argMin", "entry_pathname", f, scope, host))
    else if f.parameter == "exit_page" then Ok(PageSubquery("argMax", "exit_pathname", f, scope, host))
    else if f.parameter == "user_id" then Ok(UserIdFragment(f, host))
    else if f.kind == Regex || f.kind == NotRegex then RegexFragment(f, host)
    else if f.kind == GreaterThan || f.kind == LessThan then NumericFragment(f, host)
    else if f.parameter == "lat" || f.parameter == "lon" then Ok(LatLonFragment(f, host))
    else Ok(AnyOf(Comparisons(SqlParam(f.parameter), f.kind, f.values, host)))
  }

  /** The `.map` over all filters: the first filter that throws aborts. */
  function CompileFilters(fs: seq<Filter>, sessionLevelParams: seq<string>, scope: string, host: Host)
    : (r: Result<seq<string>, FilterError>)
    ensures r.Ok? ==> |r.value| == |fs|
    ensures r.Ok? ==> forall i :: 0 <= i < |fs| ==>
      CompileFilter(fs[i], sessionLevelParams, scope, host) == Ok(r.value[i])
    ensures r.Err? <==> exists i :: 0 <= i < |fs| && CompileFilter(fs[i], sessionLevelParams, scope, host).Err?
  {
    MapResult(fs, f => CompileFilter(f, sessionLevelParams, scope, host))
  }

  /** Literal, left-to-right, non-overlapping replacement of every `from` by `to`
      (the global `RegExp` built from the escaped key). JavaScript would
      read `$&`, `$1` or `$$` in `to` as substitution patterns; no mapping
      the handlers pass contains a `$`, so the replacement is literal. */
  function ReplaceAll(s: string, from: string, to: string): string
    requires from != ""
    decreases |s|
  {
    if |s| < |from| then s
    else if s[..|from|] == from then to + ReplaceAll(s[|from|..], from, to)
    else [s[0]] + ReplaceAll(s[1..], from, to)
  }

  /** Text that does not contain the key is left as it is. */
  lemma {:induction false} ReplaceAllAbsent(s: string, from: string, to: string)
    requires from != "" && !Includes(s, from)
    ensures ReplaceAll(s, from, to) == s
    decreases |s|
  {
    if |s| >= |from| {
      assert !StartsWith(s, from);
      ReplaceAllAbsent(s[1..], from, to);
      assert [s[0]] + s[1..] == s;
    }
  }

  /** Replacing a key by itself changes nothing. */
  lemma {:induction false} ReplaceAllSelf(s: string, from: string)
    requires from != ""
    ensures ReplaceAll(s, from, from) == s
    decreases |s|
  {
    if |s| >= |from| {
      if s[..|from|] == from {
        ReplaceAllSelf(s[|from|..], from);
        assert from + s[|from|..] == s;
      } else {
        ReplaceAllSelf(s[1..], from);
        assert [s[0]] + s[1..] == s;
      }
    }
  }

  predicate NonEmptyKeys(mappings: seq<(string, string)>)
  {
    forall i :: 0 <= i < |mappings| ==> mappings[i].0 != ""
  }

  /** The mapping pass: each entry, in order, rewrites the result of the previous ones. */
  function MapFields(text: string, mappings: seq<(string, string)>): string
    requires NonEmptyKeys(mappings)
    decreases |mappings|
  {
    if |mappings| == 0 then text
    else
      var last := mappings[|mappings| - 1];
      ReplaceAll(MapFields(text, mappings[..|mappings| - 1]), last.0, last.1)
  }

  /** No entry's key occurs, in sequence, so the pass leaves the text unchanged. */
  lemma {:induction false} MapFieldsAbsent(text: string, mappings: seq<(string, string)>)
    requires NonEmptyKeys(mappings)
    requires forall i :: 0 <= i < |mappings| ==> !Includes(text, mappings[i].0)
    ensures MapFields(text, mappings) == text
    decreases |mappings|
  {
    if |mappings| > 0 {
      MapFieldsAbsent(text, mappings[..|mappings| - 1]);
      ReplaceAllAbsent(text, mappings[|mappings| - 1].0, mappings[|mappings| - 1].1);
    }
  }

  /** The statement `getFilterStatement` returns, as a function of its inputs. */
  function FilterStatement(filters: Option<seq<Filter>>, siteId: Option<int>,
                           timeStatement: Option<string>, options: Options, host: Host)
    : Result<string, FilterError>
    requires options.fieldMappings.Some? ==> NonEmptyKeys(options.fieldMappings.value)
  {
    if filters.None? || |filters.value| == 0 then Ok("")
    else
      var sessionLevel := if options.sessionLevelParams.Some? then options.sessionLevelParams.value
                          else DefaultSessionLevelParams;
      var scope := ScopeWhere(SiteIdFilter(siteId), TimeFilter(timeStatement));
      match CompileFilters(filters.value, sessionLevel, scope, host)
      case Err(e) => Err(e)
      case Ok(frags) =>
        var joined := "AND " + Join(" AND ", frags);
        Ok(if options.fieldMappings.Some? then MapFields(joined, options.fieldMappings.value) else joined)
  }

  /** `getFilterStatement`: compiles the fragments, then applies the field
      mappings with a loop that reassigns the result entry by entry. */
  method GetFilterStatement(filters: Option<seq<Filter>>, siteId: Option<int>,
                            timeStatement: Option<string>, options: Options, host: Host)
    returns (r: Result<string, FilterError>)
    requires options.fieldMappings.Some? ==> NonEmptyKeys(options.fieldMappings.value)
    ensures r == FilterStatement(filters, siteId, timeStatement, options, host)
  {
    if filters.None? || |filters.value| == 0 {
      return Ok("");
    }
    var sessionLevel := if options.sessionLevelParams.Some? then options.sessionLevelParams.value
                        else DefaultSessionLevelParams;
    var scope := ScopeWhere(SiteIdFilter(siteId), TimeFilter(timeStatement));
    var compiled := CompileFilters(filters.value, sessionLevel, scope, host);
    if compiled.Err? {
      return Err(compiled.error);
    }
    var result := "AND " + Join(" AND ", compiled.value);
    if options.fieldMappings.Some? {
      result := ApplyFieldMappings(result, options.fieldMappings.value);
    }
    return Ok(result);
  }

  /** The `for` loop over the field mappings, reassigning the result. */
  method ApplyFieldMappings(text: string, mappings: seq<(string, string)>) returns (result: string)
    requires NonEmptyKeys(mappings)
    ensures result == MapFields(text, mappings)
  {
    result := text;
    for i := 0 to |mappings|
      invariant result == MapFields(text, mappings[..i])
    {
      assert mappings[..i + 1][..i] == mappings[..i];
      result := ReplaceAll(result, mappings[i].0, mappings[i].1);
    }
    assert mappings[..|mappings|] == mappings;
  }

  // ---------------------------------------------------------------------------
  // Properties of the compiled statement

  /** No filters, or an empty validated list, compile to the empty string. */
  lemma EmptyFiltersYieldEmpty(filters: Option<seq<Filter>>, siteId: Option<int>,
                               timeStatement: Option<string>, options: Options, host: Host)
    requires options.fieldMappings.Some? ==> NonEmptyKeys(options.fieldMappings.value)
    requires filters.None? || filters.value == []
    ensures FilterStatement(filters, siteId, timeStatement, options, host) == Ok("")
  {
  }

  /** Without field mappings a compiled statement is "AND " followed by one
      fragment per filter, in input order, joined with " AND "; and it fails
      exactly when some filter fails. */
  lemma StatementShape(fs: seq<Filter>, siteId: Option<int>, timeStatement: Option<string>,
                       sessionLevel: seq<string>, host: Host)
    requires |fs| > 0
    ensures var scope := ScopeWhere(SiteIdFilter(siteId), TimeFilter(timeStatement));
            var r := FilterStatement(Some(fs), siteId, timeStatement, Options(Some(sessionLevel), None), host);
            var c := CompileFilters(fs, sessionLevel, scope, host);
            && (r.Err? <==> exists i :: 0 <= i < |fs| && CompileFilter(fs[i], sessionLevel, scope, host).Err?)
            && (r.Ok? ==> && c.Ok? && |c.value| == |fs|
                          && (forall i :: 0 <= i < |fs| ==> CompileFilter(fs[i], sessionLevel, scope, host) == Ok(c.value[i]))
                          && r.value == "AND " + Join(" AND ", c.value))
  {
    var scope := ScopeWhere(SiteIdFilter(siteId), TimeFilter(timeStatement));
    var c := CompileFilters(fs, sessionLevel, scope, host);
    var r := FilterStatement(Some(fs), siteId, timeStatement, Options(Some(sessionLevel), None), host);
    assert r == if c.Err? then Err(c.error) else Ok("AND " + Join(" AND ", c.value));
  }

  /** The first failing filter's error is the statement's error. */
  lemma FirstErrorWins(fs: seq<Filter>, k: nat, sessionLevelParams: seq<string>,
                       scope: string, host: Host)
    requires k < |fs|
    requires forall i :: 0 <= i < k ==> CompileFilter(fs[i], sessionLevelParams, scope, host).Ok?
    requires CompileFilter(fs[k], sessionLevelParams, scope, host).Err?
    ensures CompileFilters(fs, sessionLevelParams, scope, host)
         == Err(CompileFilter(fs[k], sessionLevelParams, scope, host).error)
  {
    MapResultFirstError(fs, f => CompileFilter(f, sessionLevelParams, scope, host), k);
  }

  /** Session-level parameters become an existential subquery over the
      scoped events, whatever the operator: they never fail. */
  lemma SessionLevelDispatch(f: Filter, sessionLevelParams: seq<string>, scope: string, host: Host)
    requires f.parameter in sessionLevelParams
    ensures CompileFilter(f, sessionLevelParams, scope, host) == Ok(SessionLevelSubquery(f, scope, host))
  {
  }

  /** A single equals/not_equals on user_id tests both identifiers. */
  lemma UserIdSingleValue(v: string, t: FilterType, sessionLevelParams: seq<string>, scope: string, host: Host)
    requires "user_id" !in sessionLevelParams
    requires t == Equals || t == NotEquals
    ensures CompileFilter(Filter("user_id", t, [v]), sessionLevelParams, scope, host)
         == Ok(if t == Equals
               then "(user_id = " + host.escape(v) + " OR identified_user_id = " + host.escape(v) + ")"
               else "(user_id != " + host.escape(v) + " AND identified_user_id != " + host.escape(v) + ")")
  {
  }

  /** Several user ids: OR of the per-value clauses for equals, AND otherwise. */
  lemma UserIdSeveralValues(f: Filter, sessionLevelParams: seq<string>, scope: string, host: Host)
    requires f.parameter == "user_id" && "user_id" !in sessionLevelParams
    requires |f.values| != 1
    ensures var clauses := seq(|f.values|, i requires 0 <= i < |f.values| => UserIdClause(f.kind, f.values[i], host));
            (CompileFilter(f, sessionLevelParams, scope, host)
             == Ok("(" + Join(if f.kind == Equals then " OR " else " AND ", clauses) + ")"))
  {
  }

  /** Any user_id operator other than `equals` (contains, regex, …) compiles to
      the not-equals clause of both identifiers. */
  lemma UserIdOtherOperatorsExclude(v: string, t: FilterType, sessionLevelParams: seq<string>,
                                    scope: string, host: Host)
    requires "user_id" !in sessionLevelParams
    requires t != Equals && t != NotEquals
    ensures CompileFilter(Filter("user_id", t, [v]), sessionLevelParams, scope, host)
         == Ok("(" + UserIdNotEquals(host.escape(v)) + ")")
  {
    var f := Filter("user_id", t, [v]);
    var clauses := seq(|f.values|, i requires 0 <= i < |f.values| => UserIdClause(f.kind, f.values[i], host));
    assert clauses == [UserIdNotEquals(host.escape(v))];
  }


  /** The regex checks run in order: empty, then invalid, then too long; a
      pattern that passes all three is embedded as `match(...)` or `NOT match(...)`. */
  lemma RegexValidation(f: Filter, sessionLevelParams: seq<string>, scope: string, host: Host)
    requires f.kind == Regex || f.kind == NotRegex
    requires f.parameter !in sessionLevelParams
    requires f.parameter !in ["entry_page", "exit_page", "user_id"]
    ensures var r := CompileFilter(f, sessionLevelParams, scope, host);
            var pattern := if |f.values| > 0 then f.values[0] else "";
            && (pattern == "" ==> r == Err(EmptyPattern))
            && (pattern != "" && !host.isValidRegex(pattern) ==> r == Err(InvalidPattern))
            && (pattern != "" && host.isValidRegex(pattern) && Utf16Length(pattern) > 500 ==> r == Err(PatternTooLong))
            && (r.Ok? <==> pattern != "" && host.isValidRegex(pattern) && Utf16Length(pattern) <= 500)
            && (r.Ok? ==> r.value == (if f.kind == NotRegex then "NOT " else "")
                                     + "match(" + SqlParam(f.parameter) + ", " + host.escape(pattern) + ")")
  {
  }

  /** greater_than / less_than fail exactly on a non-numeric first value. */
  lemma NumericValidation(f: Filter, sessionLevelParams: seq<string>, scope: string, host: Host)
    requires f.kind == GreaterThan || f.kind == LessThan
    requires f.parameter !in sessionLevelParams
    requires f.parameter !in ["entry_page", "exit_page", "user_id"]
    ensures var r := CompileFilter(f, sessionLevelParams, scope, host);
            && (r.Err? <==> |f.values| == 0 || host.toNumber(f.values[0]).None?)
            && (r.Err? ==> r.error == NotNumeric)
            && (r.Ok? ==> r.value == SqlParam(f.parameter) + (if f.kind == GreaterThan then " > " else " < ")
                                     + host.toNumber(f.values[0]).value)
  {
  }

  /** The default case: `field op value` for one value, a parenthesised OR of
      such comparisons for several; only contains/not_contains add `%`. */
  lemma DefaultCase(f: Filter, sessionLevelParams: seq<string>, scope: string, host: Host)
    requires f.parameter !in sessionLevelParams
    requires f.parameter != "entry_page" && f.parameter != "exit_page" && f.parameter != "user_id"
    requires f.parameter != "lat" && f.parameter != "lon"
    requires f.kind == Equals || f.kind == NotEquals || f.kind == Contains || f.kind == NotContains
    ensures var field := SqlParam(f.parameter);
            var w := if f.kind == Contains || f.kind == NotContains then "%" else "";
            var cmp := (v: string) => field + " " + Operator(f.kind).value + " " + host.escape(w + v + w);
            && (|f.values| == 1 ==> CompileFilter(f, sessionLevelParams, scope, host) == Ok(cmp(f.values[0])))
            && (|f.values| != 1 ==>
                  (CompileFilter(f, sessionLevelParams, scope, host)
                   == Ok("(" + Join(" OR ", seq(|f.values|, i requires 0 <= i < |f.values| => cmp(f.values[i]))) + ")")))
  {
    var field := SqlParam(f.parameter);
    var w := if f.kind == Contains || f.kind == NotContains then "%" else "";
    var cmp := (v: string) => field + " " + Operator(f.kind).value + " " + host.escape(w + v + w);
    assert Wildcard(f.kind) == w;
    var cs := Comparisons(field, f.kind, f.values, host);
    assert CompileFilter(f, sessionLevelParams, scope, host) == Ok(AnyOf(cs));
    assert cs == seq(|f.values|, i requires 0 <= i < |f.values| => cmp(f.values[i]));
  }


  /** lat/lon take the tolerance band for every operator but the numeric and
      regex ones: the raw-value path of the default case is never reached. */
  lemma LatLonBand(f: Filter, sessionLevelParams: seq<string>, scope: string, host: Host)
    requires f.parameter == "lat" || f.parameter == "lon"
    requires f.parameter !in sessionLevelParams
    requires f.kind in {Equals, NotEquals, Contains, NotContains}
    requires |f.values| == 1
    ensures CompileFilter(f, sessionLevelParams, scope, host)
         == Ok(f.parameter + " >= " + host.bandLow(f.values[0]) + " AND " + f.parameter + " <= " + host.bandHigh(f.values[0]))
  {
  }

  /** entry_page / exit_page become subqueries over each session's first or
      last pathname, independent of the session-level configuration. */
  lemma PageFilters(f: Filter, sessionLevelParams: seq<string>, scope: string, host: Host)
    requires f.parameter == "entry_page" || f.parameter == "exit_page"
    requires f.parameter !in sessionLevelParams
    ensures var r := CompileFilter(f, sessionLevelParams, scope, host);
            var aggregate := if f.parameter == "entry_page" then "argMin" else "argMax";
            var alias := if f.parameter == "entry_page" then "entry_pathname" else "exit_pathname";
            r == Ok("session_id IN ( SELECT session_id FROM ( SELECT session_id, " + aggregate
                    + "(pathname, timestamp) AS " + alias + " FROM events "
                    + (if scope != "" then "WHERE " + scope else "")
                    + " GROUP BY session_id ) WHERE " + AnyOf(Comparisons(alias, f.kind, f.values, host)) + " )")
  {
  }
}
