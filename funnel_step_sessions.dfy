/** The funnel step sessions endpoint: request validation, the per-step
    condition builder, the chain of Step CTEs, the TargetSessions selection
    and the paging of the result, together with the meaning of a step's
    condition on one event. */
module FunnelStepSessions {
  import opened Util
  import opened Events
  import FilterStatement
  import Sessions
  import Sorting
  import FunnelSemantics

  // ---------------------------------------------------------------------------
  // Request

  datatype StepKind = Page | CustomEventStep

  /** A property value as it arrives in the request body: a string, a number
      (kept as its decimal text) or a boolean. */
  datatype PropValue = StringValue(s: string) | NumberValue(text: string) | BoolValue(b: bool)

  datatype PropertyFilter = PropertyFilter(key: string, value: PropValue)

  datatype FunnelStep = FunnelStep(
    value: string,
    kind: StepKind,
    hostname: Option<string>,
    eventPropertyKey: Option<string>,
    eventPropertyValue: Option<PropValue>,
    propertyFilters: Option<seq<PropertyFilter>>)

  /** `SqlString.escape` on strings and on numbers, and `patternToRegex`. */
  datatype FunnelHost = FunnelHost(
    sql: FilterStatement.Host,
    escapeNumber: string -> string,
    patternToRegex: string -> string)

  const TooFewSteps := "At least 2 steps are required for a funnel"
  const InvalidStepNumber := "Invalid step number"
  const InvalidMode := "Mode must be 'reached' or 'dropped'"
  const FetchFailed := "Failed to fetch funnel step sessions"
  const DefaultLimit := 25

  /** The three checks in their order; `stepNumber` is `parseInt`'s result,
      None standing for NaN. */
  function Validate(steps: Option<seq<FunnelStep>>, stepNumber: Option<int>, mode: string)
    : Result<(seq<FunnelStep>, int, FunnelSemantics.Mode), string>
  {
    if steps.None? || |steps.value| < 2 then Err(TooFewSteps)
    else if stepNumber.None? || stepNumber.value < 1 || stepNumber.value > |steps.value| then Err(InvalidStepNumber)
    else if mode != "reached" && mode != "dropped" then Err(InvalidMode)
    else Ok((steps.value, stepNumber.value, if mode == "reached" then FunnelSemantics.Reached else FunnelSemantics.Dropped))
  }

  /** Each check rejects only requests that passed the checks before it, and
      a request passing all three has at least two steps, a step number
      within them and one of the two modes. */
  lemma ValidationOrder(steps: Option<seq<FunnelStep>>, stepNumber: Option<int>, mode: string)
    ensures Validate(steps, stepNumber, mode) == Err(TooFewSteps)
        <==> steps.None? || |steps.value| < 2
    ensures Validate(steps, stepNumber, mode) == Err(InvalidStepNumber)
        <==> steps.Some? && |steps.value| >= 2
             && (stepNumber.None? || stepNumber.value < 1 || stepNumber.value > |steps.value|)
    ensures Validate(steps, stepNumber, mode) == Err(InvalidMode)
        <==> steps.Some? && |steps.value| >= 2
             && stepNumber.Some? && 1 <= stepNumber.value <= |steps.value|
             && mode != "reached" && mode != "dropped"
    ensures Validate(steps, stepNumber, mode).Ok? ==>
              var (ss, n, m) := Validate(steps, stepNumber, mode).value;
              && steps == Some(ss) && 2 <= |ss| && stepNumber == Some(n) && 1 <= n <= |ss|
              && (m == FunnelSemantics.Reached <==> mode == "reached")
              && (m == FunnelSemantics.Dropped <==> mode == "dropped")
  {
  }

  /** `stepsToCheck`: one more step is needed to see who dropped off. */
  function StepsToCheck(mode: FunnelSemantics.Mode, stepNumber: int): int
  {
    if mode == FunnelSemantics.Reached then stepNumber else stepNumber + 1
  }

  /** Once validated and past the dropped-at-last-step case, the steps to
      check are between 1 and the number of steps. */
  lemma StepsToCheckWithinSteps(steps: Option<seq<FunnelStep>>, stepNumber: Option<int>, mode: string)
    requires Validate(steps, stepNumber, mode).Ok?
    ensures var (ss, n, m) := Validate(steps, stepNumber, mode).value;
            !(m == FunnelSemantics.Dropped && n == |ss|) ==> 1 <= StepsToCheck(m, n) <= |ss|
  {
  }

  // ---------------------------------------------------------------------------
  // Step conditions

  /** `propertyFilters`, when present (even empty), wins; otherwise the legacy
      key/value pair counts when the key is non-empty and the value present. */
  function PropertyFilters(step: FunnelStep): seq<PropertyFilter>
  {
    if step.propertyFilters.Some? then step.propertyFilters.value
    else if step.eventPropertyKey.Some? && step.eventPropertyKey.value != "" && step.eventPropertyValue.Some?
    then [PropertyFilter(step.eventPropertyKey.value, step.eventPropertyValue.value)]
    else []
  }

  /** One conjunct of a step's condition. */
  datatype Clause =
    | TypeIs(t: string)
    | PathMatches(regex: string)
    | UrlParamIs(key: string, value: string)
    | EventNameIs(name: string)
    | PropStringIs(key: string, value: string)
    | PropNumberIs(key: string, number: string)
    | PropBoolIs(key: string, b: bool)
    | HostnameIs(hostname: string)

  function BoolText(b: bool): string { if b then "true" else "false" }

  /** `String(value)` */
  function ValueText(v: PropValue): string
  {
    match v
    case StringValue(s) => s
    case NumberValue(t) => t
    case BoolValue(b) => BoolText(b)
  }

  /** Page steps compare URL parameters as text; event steps compare the
      event's props by the value's type. */
  function PropertyClause(kind: StepKind, f: PropertyFilter): Clause
  {
    if kind == Page then UrlParamIs(f.key, ValueText(f.value))
    else
      match f.value
      case StringValue(s) => PropStringIs(f.key, s)
      case NumberValue(t) => PropNumberIs(f.key, t)
      case BoolValue(b) => PropBoolIs(f.key, b)
  }

  function PropertyClauses(kind: StepKind, fs: seq<PropertyFilter>): (cs: seq<Clause>)
    ensures |cs| == |fs|
  {
    seq(|fs|, i requires 0 <= i < |fs| => PropertyClause(kind, fs[i]))
  }

  function BaseClauses(step: FunnelStep, host: FunnelHost): seq<Clause>
  {
    if step.kind == Page then [TypeIs(PageviewType), PathMatches(host.patternToRegex(step.value))]
    else [TypeIs(CustomEventType), EventNameIs(step.value)]
  }

  /** A hostname is added only when it is a non-empty string. */
  function HostnameClauses(step: FunnelStep): seq<Clause>
  {
    if step.hostname.Some? && step.hostname.value != "" then [HostnameIs(step.hostname.value)] else []
  }

  /** The conjuncts of a step's condition, in the order they are written. */
  function StepClauses(step: FunnelStep, host: FunnelHost): seq<Clause>
  {
    BaseClauses(step, host) + PropertyClauses(step.kind, PropertyFilters(step)) + HostnameClauses(step)
  }

  function Render(c: Clause, host: FunnelHost): string
  {
    var esc := host.sql.escape;
    match c
    case TypeIs(t) => "type = '" + t + "'"
    case PathMatches(r) => "match(pathname, " + esc(r) + ")"
    case UrlParamIs(k, v) => "url_parameters[" + esc(k) + "] = " + esc(v)
    case EventNameIs(n) => "event_name = " + esc(n)
    case PropStringIs(k, v) => "JSONExtractString(toString(props), " + esc(k) + ") = " + esc(v)
    case PropNumberIs(k, n) => "toFloat64(JSONExtractString(toString(props), " + esc(k) + ")) = " + host.escapeNumber(n)
    case PropBoolIs(k, b) => "JSONExtractString(toString(props), " + esc(k) + ") = " + esc(BoolText(b))
    case HostnameIs(h) => "hostname = " + esc(h)
  }

  function RenderAll(cs: seq<Clause>, host: FunnelHost): (r: seq<string>)
    ensures |r| == |cs|
  {
    seq(|cs|, i requires 0 <= i < |cs| => Render(cs[i], host))
  }

  /** The condition text of a step: its clauses joined with " AND ". */
  function StepCondition(step: FunnelStep, host: FunnelHost): string
  {
    Join(" AND ", RenderAll(StepClauses(step, host), host))
  }

  /** Builds a step's condition as the handler does: the base condition, then
      one `AND` per property filter, then the hostname. */
  method BuildStepCondition(step: FunnelStep, host: FunnelHost) returns (condition: string)
    ensures condition == StepCondition(step, host)
  {
    var base := BaseClauses(step, host);
    condition := Render(base[0], host) + " AND " + Render(base[1], host);
    assert RenderAll(base, host) == [Render(base[0], host)] + [Render(base[1], host)];
    assert RenderAll(base, host)[1..] == [Render(base[1], host)];
    var filters := PropertyFilters(step);
    ghost var written := base;
    var i := 0;
    while i < |filters|
      invariant 0 <= i <= |filters|
      invariant written == base + PropertyClauses(step.kind, filters[..i])
      invariant condition == Join(" AND ", RenderAll(written, host))
    {
      var clause := PropertyClause(step.kind, filters[i]);
      JoinSnoc(" AND ", RenderAll(written, host), Render(clause, host));
      assert RenderAll(written + [clause], host) == RenderAll(written, host) + [Render(clause, host)];
      assert PropertyClauses(step.kind, filters[..i + 1]) == PropertyClauses(step.kind, filters[..i]) + [clause];
      condition := condition + " AND " + Render(clause, host);
      written := written + [clause];
      i := i + 1;
    }
    assert filters[..i] == filters;
    if step.hostname.Some? && step.hostname.value != "" {
      var clause := HostnameIs(step.hostname.value);
      JoinSnoc(" AND ", RenderAll(written, host), Render(clause, host));
      assert RenderAll(written + [clause], host) == RenderAll(written, host) + [Render(clause, host)];
      condition := condition + " AND " + Render(clause, host);
      written := written + [clause];
    } else {
      assert written + HostnameClauses(step) == written;
    }
    assert written == StepClauses(step, host);
  }

  // ---------------------------------------------------------------------------
  // Meaning of a step's condition

  /** What the query engine provides: regular-expression matching and the
      comparison of `toFloat64` of a props value with a number. */
  datatype Engine = Engine(regexMatch: (string, string) -> bool, floatEquals: (string, string) -> bool)

  predicate ClauseHolds(c: Clause, e: Event, engine: Engine)
  {
    match c
    case TypeIs(t) => e.kind == t
    case PathMatches(r) => engine.regexMatch(r, e.pathname)
    case UrlParamIs(k, v) => MapGet(e.urlParameters, k) == v
    case EventNameIs(n) => e.eventName == n
    case PropStringIs(k, v) => MapGet(e.props, k) == v
    case PropNumberIs(k, n) => engine.floatEquals(MapGet(e.props, k), n)
    case PropBoolIs(k, b) => MapGet(e.props, k) == BoolText(b)
    case HostnameIs(h) => e.hostname == h
  }

  /** Every clause of cs holds for e. */
  predicate AllHold(cs: seq<Clause>, e: Event, engine: Engine)
  {
    forall i :: 0 <= i < |cs| ==> ClauseHolds(cs[i], e, engine)
  }

  lemma AllHoldConcat(a: seq<Clause>, b: seq<Clause>, e: Event, engine: Engine)
    ensures AllHold(a + b, e, engine) <==> AllHold(a, e, engine) && AllHold(b, e, engine)
  {
    if AllHold(a + b, e, engine) {
      forall i | 0 <= i < |a|
        ensures ClauseHolds(a[i], e, engine)
      {
        assert (a + b)[i] == a[i];
      }
      forall i | 0 <= i < |b|
        ensures ClauseHolds(b[i], e, engine)
      {
        assert (a + b)[|a| + i] == b[i];
      }
    }
    if AllHold(a, e, engine) && AllHold(b, e, engine) {
      forall i | 0 <= i < |a + b|
        ensures ClauseHolds((a + b)[i], e, engine)
      {
        if i >= |a| {
          assert (a + b)[i] == b[i - |a|];
        }
      }
    }
  }

  lemma AllHoldProperties(kind: StepKind, fs: seq<PropertyFilter>, e: Event, engine: Engine)
    ensures AllHold(PropertyClauses(kind, fs), e, engine)
        <==> forall f :: f in fs ==> ClauseHolds(PropertyClause(kind, f), e, engine)
  {
    var cs := PropertyClauses(kind, fs);
    if AllHold(cs, e, engine) {
      forall f | f in fs
        ensures ClauseHolds(PropertyClause(kind, f), e, engine)
      {
        var i :| 0 <= i < |fs| && fs[i] == f;
        assert cs[i] == PropertyClause(kind, f);
      }
    }
  }

  /** An event satisfies a step's condition: every conjunct holds. */
  predicate StepMatches(step: FunnelStep, host: FunnelHost, engine: Engine, e: Event)
  {
    AllHold(StepClauses(step, host), e, engine)
  }

  /** A step's condition holds when its base condition, every property
      filter's condition and its hostname condition hold. */
  lemma StepMatchesSplit(step: FunnelStep, host: FunnelHost, engine: Engine, e: Event)
    ensures StepMatches(step, host, engine, e)
        <==> && AllHold(BaseClauses(step, host), e, engine)
             && (forall f :: f in PropertyFilters(step) ==> ClauseHolds(PropertyClause(step.kind, f), e, engine))
             && (step.hostname.Some? && step.hostname.value != "" ==> e.hostname == step.hostname.value)
  {
    var base := BaseClauses(step, host);
    var props := PropertyClauses(step.kind, PropertyFilters(step));
    AllHoldConcat(base + props, HostnameClauses(step), e, engine);
    AllHoldConcat(base, props, e, engine);
    AllHoldProperties(step.kind, PropertyFilters(step), e, engine);
    assert AllHold(HostnameClauses(step), e, engine)
       <==> (step.hostname.Some? && step.hostname.value != "" ==> e.hostname == step.hostname.value) by {
      if step.hostname.Some? && step.hostname.value != "" {
        var hc := HostnameClauses(step);
        assert hc == [HostnameIs(step.hostname.value)];
        assert AllHold(hc, e, engine) <==> ClauseHolds(hc[0], e, engine);
      } else {
        assert HostnameClauses(step) == [];
      }
    }
  }

  /** A page step matches a pageview whose path matches the step's pattern,
      whose URL parameters carry every property filter's value as text, and
      whose hostname is the step's, when one is set. */
  lemma PageStepMeaning(step: FunnelStep, host: FunnelHost, engine: Engine, e: Event)
    requires step.kind == Page
    ensures StepMatches(step, host, engine, e)
        <==> && e.kind == PageviewType
             && engine.regexMatch(host.patternToRegex(step.value), e.pathname)
             && (forall f :: f in PropertyFilters(step) ==> MapGet(e.urlParameters, f.key) == ValueText(f.value))
             && (step.hostname.Some? && step.hostname.value != "" ==> e.hostname == step.hostname.value)
  {
    StepMatchesSplit(step, host, engine, e);
    var base := BaseClauses(step, host);
    assert AllHold(base, e, engine) <==> ClauseHolds(base[0], e, engine) && ClauseHolds(base[1], e, engine);
  }

  /** An event step matches a custom event of the step's name whose props
      hold every property filter's value — a string as is, a number after
      `toFloat64`, a boolean as "true"/"false" — and whose hostname is the
      step's, when one is set. */
  lemma EventStepMeaning(step: FunnelStep, host: FunnelHost, engine: Engine, e: Event)
    requires step.kind == CustomEventStep
    ensures StepMatches(step, host, engine, e)
        <==> && e.kind == CustomEventType
             && e.eventName == step.value
             && (forall f :: f in PropertyFilters(step) ==>
                   match f.value
                   case StringValue(s) => MapGet(e.props, f.key) == s
                   case NumberValue(t) => engine.floatEquals(MapGet(e.props, f.key), t)
                   case BoolValue(b) => MapGet(e.props, f.key) == BoolText(b))
             && (step.hostname.Some? && step.hostname.value != "" ==> e.hostname == step.hostname.value)
  {
    StepMatchesSplit(step, host, engine, e);
    var base := BaseClauses(step, host);
    assert AllHold(base, e, engine) <==> ClauseHolds(base[0], e, engine) && ClauseHolds(base[1], e, engine);
  }

  /** Given `propertyFilters`, the legacy key and value play no part. */
  lemma LegacyPropertyIgnored(step: FunnelStep, host: FunnelHost, key: Option<string>, value: Option<PropValue>)
    requires step.propertyFilters.Some?
    ensures StepClauses(step.(eventPropertyKey := key, eventPropertyValue := value), host) == StepClauses(step, host)
  {
  }

  /** Without `propertyFilters`, a missing or empty legacy key, or a missing
      value, adds no property condition. */
  lemma NoPropertyWithoutLegacyPair(step: FunnelStep, host: FunnelHost)
    requires step.propertyFilters.None?
    requires step.eventPropertyKey.None? || step.eventPropertyKey == Some("") || step.eventPropertyValue.None?
    ensures StepClauses(step, host) == BaseClauses(step, host) + HostnameClauses(step)
  {
  }

  /** The step predicates the chain uses, one per checked step. */
  function StepPredicates(steps: seq<FunnelStep>, count: nat, host: FunnelHost, engine: Engine): (ps: seq<Event -> bool>)
    requires count <= |steps|
    ensures |ps| == count
  {
    seq(count, i requires 0 <= i < count => (e: Event) => StepMatches(steps[i], host, engine, e))
  }

  // ---------------------------------------------------------------------------
  // The Step CTE chain and the target sessions

  /** One CTE of the chain: `SessionActions` (the scoped events) together
      with `Step1`, or `Step(index+1)` built from `Step(index)`. */
  datatype StepCte =
    | FirstStep(timeStatement: string, filterStatement: string, condition: string)
    | NextStep(index: nat, condition: string)

  function StepCteText(c: StepCte): string
  {
    match c
    case FirstStep(timeStatement, filterStatement, condition) =>
      "SessionActions AS ( SELECT session_id, timestamp, pathname, event_name, type, props, hostname, url_parameters"
      + " FROM events WHERE site_id = {siteId:Int32} " + timeStatement + " " + filterStatement + " ),"
      + " Step1 AS ( SELECT DISTINCT session_id, min(timestamp) as step_time FROM SessionActions WHERE "
      + condition + " GROUP BY session_id )"
    case NextStep(i, condition) =>
      var prev := NatToString(i);
      "Step" + NatToString(i + 1) + " AS ( SELECT DISTINCT s" + prev + ".session_id, min(sa.timestamp) as step_time"
      + " FROM Step" + prev + " s" + prev + " JOIN SessionActions sa ON s" + prev + ".session_id = sa.session_id"
      + " WHERE sa.timestamp > s" + prev + ".step_time AND " + condition + " GROUP BY s" + prev + ".session_id )"
  }

  /** The chain for the given conditions: Step1 from the first, and Step i+1
      from Step i with the (i+1)-th. */
  function StepCtes(conditions: seq<string>, timeStatement: string, filterStatement: string): (ctes: seq<StepCte>)
    requires |conditions| >= 1
    ensures |ctes| == |conditions|
  {
    seq(|conditions|, i requires 0 <= i < |conditions| =>
          if i == 0 then FirstStep(timeStatement, filterStatement, conditions[0]) else NextStep(i, conditions[i]))
  }

  /** `stepCTEs`: the first CTEs, then one pushed per further step. */
  method BuildStepCtes(conditions: seq<string>, timeStatement: string, filterStatement: string)
    returns (ctes: seq<StepCte>)
    requires |conditions| >= 1
    ensures ctes == StepCtes(conditions, timeStatement, filterStatement)
  {
    ghost var spec := StepCtes(conditions, timeStatement, filterStatement);
    ctes := [FirstStep(timeStatement, filterStatement, conditions[0])];
    var i := 1;
    while i < |conditions|
      invariant 1 <= i <= |conditions| && ctes == spec[..i]
    {
      ctes := ctes + [NextStep(i, conditions[i])];
      i := i + 1;
    }
    assert spec[..i] == spec;
  }

  /** `TargetSessions`: Step n, or Step n without the sessions of Step n+1. */
  function TargetCteText(mode: FunnelSemantics.Mode, stepNumber: nat): string
  {
    var n := NatToString(stepNumber);
    if mode == FunnelSemantics.Reached then "TargetSessions AS ( SELECT session_id FROM Step" + n + " )"
    else
      "TargetSessions AS ( SELECT session_id FROM Step" + n + " WHERE session_id NOT IN ( SELECT session_id FROM Step"
      + NatToString(stepNumber + 1) + " ) )"
  }

  // ---------------------------------------------------------------------------
  // The handler

  /** The conditions of the first `count` steps. */
  function StepConditions(steps: seq<FunnelStep>, count: nat, host: FunnelHost): (cs: seq<string>)
    requires count <= |steps|
    ensures |cs| == count
  {
    seq(count, i requires 0 <= i < count => StepCondition(steps[i], host))
  }

  /** The `.map` over the first `count` steps. */
  method BuildStepConditions(steps: seq<FunnelStep>, count: nat, host: FunnelHost) returns (conditions: seq<string>)
    requires count <= |steps|
    ensures conditions == StepConditions(steps, count, host)
  {
    conditions := [];
    var i := 0;
    while i < count
      invariant 0 <= i <= count && |conditions| == i
      invariant forall j :: 0 <= j < i ==> conditions[j] == StepCondition(steps[j], host)
    {
      var c := BuildStepCondition(steps[i], host);
      conditions := conditions + [c];
      i := i + 1;
    }
  }

  /** The query the handler runs: the step conditions, the Step CTEs, the
      target (mode and step), the compiled filter statement and the paging
      parameters. The `AggregatedSessions` block is given by `FunnelRows`. */
  datatype FunnelQuery = FunnelQuery(
    stepConditions: seq<string>,
    stepCtes: seq<StepCte>,
    mode: FunnelSemantics.Mode,
    stepNumber: nat,
    filterStatement: string,
    limit: int,
    offset: int)

  datatype Response = BadRequest(error: string) | NoRows | ServerError(error: string) | Run(query: FunnelQuery)

  /** The UTM mappings, the same five entries as the sessions list's. */
  const FunnelFilterOptions := FilterStatement.Options(None, Some(Sessions.SessionFieldMappings))

  function CompiledFilters(filters: Option<seq<FilterStatement.Filter>>, siteId: int, timeStatement: string,
                           host: FunnelHost): Result<string, FilterStatement.FilterError>
  {
    FilterStatement.FilterStatement(filters, Some(siteId), Some(timeStatement), FunnelFilterOptions, host.sql)
  }

  /** The query for validated steps, step number and mode. */
  function FunnelQueryFor(ss: seq<FunnelStep>, n: nat, m: FunnelSemantics.Mode, fs: string, page: int,
                          limit: Option<int>, timeStatement: string, host: FunnelHost): FunnelQuery
    requires 1 <= StepsToCheck(m, n) <= |ss|
  {
    var conditions := StepConditions(ss, StepsToCheck(m, n), host);
    var l := Sessions.LimitOr(limit, DefaultLimit);
    FunnelQuery(conditions, StepCtes(conditions, timeStatement, fs), m, n, fs, l, Sessions.Offset(page, l))
  }

  /** The handler's answer as a function of the request. */
  function FunnelResponse(steps: Option<seq<FunnelStep>>, stepNumber: Option<int>, mode: string,
                          page: int, limit: Option<int>, siteId: int,
                          filters: Option<seq<FilterStatement.Filter>>, timeStatement: string, host: FunnelHost)
    : Response
  {
    match Validate(steps, stepNumber, mode)
    case Err(msg) => BadRequest(msg)
    case Ok((ss, n, m)) =>
      StepsToCheckWithinSteps(steps, stepNumber, mode);
      if m == FunnelSemantics.Dropped && n == |ss| then NoRows
      else
        match CompiledFilters(filters, siteId, timeStatement, host)
        case Err(_) => ServerError(FetchFailed)
        case Ok(fs) => Run(FunnelQueryFor(ss, n, m, fs, page, limit, timeStatement, host))
  }

  /** `getFunnelStepSessions` up to running the query. */
  method GetFunnelStepSessions(steps: Option<seq<FunnelStep>>, stepNumber: Option<int>, mode: string,
                               page: int, limit: Option<int>, siteId: int,
                               filters: Option<seq<FilterStatement.Filter>>, timeStatement: string, host: FunnelHost)
    returns (resp: Response)
    ensures resp == FunnelResponse(steps, stepNumber, mode, page, limit, siteId, filters, timeStatement, host)
  {
    if steps.None? || |steps.value| < 2 {
      return BadRequest(TooFewSteps);
    }
    if stepNumber.None? || stepNumber.value < 1 || stepNumber.value > |steps.value| {
      return BadRequest(InvalidStepNumber);
    }
    if mode != "reached" && mode != "dropped" {
      return BadRequest(InvalidMode);
    }
    var ss := steps.value;
    var n := stepNumber.value;
    var m := if mode == "reached" then FunnelSemantics.Reached else FunnelSemantics.Dropped;
    if m == FunnelSemantics.Dropped && n == |ss| {
      return NoRows;
    }
    var filterStatement := FilterStatement.GetFilterStatement(filters, Some(siteId), Some(timeStatement),
                                                              FunnelFilterOptions, host.sql);
    if filterStatement.Err? {
      return ServerError(FetchFailed);
    }
    var count := StepsToCheck(m, n);
    var conditions := BuildStepConditions(ss, count, host);
    var ctes := BuildStepCtes(conditions, timeStatement, filterStatement.value);
    var l := Sessions.LimitOr(limit, DefaultLimit);
    resp := Run(FunnelQuery(conditions, ctes, m, n, filterStatement.value, l, Sessions.Offset(page, l)));
  }

  /** Dropping off at the last step is impossible: no query is built. */
  lemma DroppedAtLastStepIsEmpty(steps: seq<FunnelStep>, page: int, limit: Option<int>, siteId: int,
                                 filters: Option<seq<FilterStatement.Filter>>, timeStatement: string, host: FunnelHost)
    requires |steps| >= 2
    ensures FunnelResponse(Some(steps), Some(|steps|), "dropped", page, limit, siteId, filters, timeStatement, host) == NoRows
  {
  }

  /** A filter the compiler rejects makes the handler fail with 500 rather
      than 400, because it is compiled inside the `try`. */
  lemma FilterErrorIsServerError(steps: Option<seq<FunnelStep>>, stepNumber: Option<int>, mode: string,
                                 page: int, limit: Option<int>, siteId: int,
                                 filters: Option<seq<FilterStatement.Filter>>, timeStatement: string, host: FunnelHost)
    requires Validate(steps, stepNumber, mode).Ok?
    requires !(mode == "dropped" && stepNumber == Some(|steps.value|))
    requires CompiledFilters(filters, siteId, timeStatement, host).Err?
    ensures FunnelResponse(steps, stepNumber, mode, page, limit, siteId, filters, timeStatement, host) == ServerError(FetchFailed)
  {
  }

  /** A query that runs has one condition per checked step — stepNumber of
      them for reached, one more for dropped, never more than there are
      steps — one Step CTE per condition, each after the first taking the
      earliest match after the previous step, the target of the mode, the
      compiled filter statement, and offset (page − 1) · (limit or 25). */
  lemma RunQueryShape(steps: Option<seq<FunnelStep>>, stepNumber: Option<int>, mode: string,
                      page: int, limit: Option<int>, siteId: int,
                      filters: Option<seq<FilterStatement.Filter>>, timeStatement: string, host: FunnelHost)
    requires FunnelResponse(steps, stepNumber, mode, page, limit, siteId, filters, timeStatement, host).Run?
    ensures var q := FunnelResponse(steps, stepNumber, mode, page, limit, siteId, filters, timeStatement, host).query;
            && steps.Some? && stepNumber == Some(q.stepNumber) && 1 <= q.stepNumber
            && |q.stepConditions| == (if mode == "reached" then q.stepNumber else q.stepNumber + 1) <= |steps.value|
            && (forall i :: 0 <= i < |q.stepConditions| ==> q.stepConditions[i] == StepCondition(steps.value[i], host))
            && |q.stepCtes| == |q.stepConditions|
            && q.stepCtes[0] == FirstStep(timeStatement, q.filterStatement, q.stepConditions[0])
            && (forall i :: 1 <= i < |q.stepCtes| ==> q.stepCtes[i] == NextStep(i, q.stepConditions[i]))
            && (q.mode == FunnelSemantics.Reached <==> mode == "reached")
            && CompiledFilters(filters, siteId, timeStatement, host) == Ok(q.filterStatement)
            && q.limit == (if limit.None? || limit.value == 0 then 25 else limit.value)
            && q.offset == (page - 1) * q.limit
  {
    ValidationOrder(steps, stepNumber, mode);
    var (ss, n, m) := Validate(steps, stepNumber, mode).value;
    var fs := CompiledFilters(filters, siteId, timeStatement, host).value;
    var q := FunnelQueryFor(ss, n, m, fs, page, limit, timeStatement, host);
    assert FunnelResponse(steps, stepNumber, mode, page, limit, siteId, filters, timeStatement, host) == Run(q);
  }

  /** A query that runs targets a step of the request: its step number is
      the request's, between 1 and the number of steps, and below it for
      dropped; its mode is the request's. */
  lemma RunQueryTarget(steps: Option<seq<FunnelStep>>, stepNumber: Option<int>, mode: string,
                       page: int, limit: Option<int>, siteId: int,
                       filters: Option<seq<FilterStatement.Filter>>, timeStatement: string, host: FunnelHost)
    requires FunnelResponse(steps, stepNumber, mode, page, limit, siteId, filters, timeStatement, host).Run?
    ensures var q := FunnelResponse(steps, stepNumber, mode, page, limit, siteId, filters, timeStatement, host).query;
            && steps.Some? && stepNumber == Some(q.stepNumber) && 1 <= q.stepNumber <= |steps.value|
            && (q.mode == FunnelSemantics.Reached <==> mode == "reached")
            && (q.mode == FunnelSemantics.Dropped <==> mode == "dropped")
            && (q.mode == FunnelSemantics.Dropped ==> q.stepNumber < |steps.value|)
  {
    ValidationOrder(steps, stepNumber, mode);
  }

  // ---------------------------------------------------------------------------
  // Meaning of the result

  /** The sessions the query targets, over the scoped actions. */
  function FunnelTargets(steps: seq<FunnelStep>, n: nat, mode: FunnelSemantics.Mode, host: FunnelHost,
                         engine: Engine, actions: seq<Event>): set<string>
    requires 1 <= n <= |steps|
    requires mode == FunnelSemantics.Dropped ==> n < |steps|
  {
    var count := StepsToCheck(mode, n);
    FunnelSemantics.TargetSessions(StepPredicates(steps, count, host, engine), mode, n, actions)
  }

  /** A reached session has, in strictly increasing time, one event matching
      each of steps 1..n; a dropped one has that but no such chain through
      step n+1. */
  lemma FunnelTargetsMeaning(steps: seq<FunnelStep>, n: nat, mode: FunnelSemantics.Mode, host: FunnelHost,
                             engine: Engine, actions: seq<Event>, s: string)
    requires 1 <= n <= |steps|
    requires mode == FunnelSemantics.Dropped ==> n < |steps|
    ensures var ps := StepPredicates(steps, StepsToCheck(mode, n), host, engine);
            (s in FunnelTargets(steps, n, mode, host, engine, actions)
             <==> (if mode == FunnelSemantics.Reached then FunnelSemantics.CompletesSteps(ps, n, actions, s)
                   else FunnelSemantics.CompletesSteps(ps, n, actions, s) && !FunnelSemantics.CompletesSteps(ps, n + 1, actions, s)))
  {
    var ps := StepPredicates(steps, StepsToCheck(mode, n), host, engine);
    if mode == FunnelSemantics.Reached {
      FunnelSemantics.StepSessionsMeaning(ps, n, actions, s);
    } else {
      FunnelSemantics.DroppedMeaning(ps, n, actions, s);
    }
  }

  /** The session completes steps 1..n, and for dropped not step n+1. */
  predicate CompletesTarget(steps: seq<FunnelStep>, n: nat, mode: FunnelSemantics.Mode, host: FunnelHost,
                            engine: Engine, actions: seq<Event>, s: string)
    requires 1 <= n <= |steps|
    requires mode == FunnelSemantics.Dropped ==> n < |steps|
  {
    var ps := StepPredicates(steps, StepsToCheck(mode, n), host, engine);
    && FunnelSemantics.CompletesSteps(ps, n, actions, s)
    && (mode == FunnelSemantics.Dropped ==> !FunnelSemantics.CompletesSteps(ps, n + 1, actions, s))
  }

  /** The funnel groups by session and user. */
  function FunnelKey(e: Event): (string, string) { (e.sessionId, e.userId) }

  /** The test of the `JOIN TargetSessions`. */
  function InTargets(targets: set<string>): Event -> bool
  {
    (e: Event) => e.sessionId in targets
  }

  /** The scoped events of target sessions (the `JOIN TargetSessions`). */
  function TargetEvents(targets: set<string>, scoped: seq<Event>): (r: seq<Event>)
    ensures forall e :: e in r <==> e in scoped && e.sessionId in targets
  {
    Filter(scoped, InTargets(targets))
  }

  /** One row of the funnel's `AggregatedSessions`: the session and user it
      is grouped by and the columns it selects. Unlike a row of the sessions
      list it has no identified user and no replay flag, and it carries the
      first page title and query string. */
  datatype FunnelRow = FunnelRow(
    sessionId: string,
    userId: string,
    country: string,
    region: string,
    city: string,
    language: string,
    deviceType: string,
    browser: string,
    browserVersion: string,
    operatingSystem: string,
    operatingSystemVersion: string,
    screenWidth: int,
    screenHeight: int,
    referrer: string,
    channel: string,
    hostname: string,
    pageTitle: string,
    querystring: string,
    utmSource: string,
    utmMedium: string,
    utmCampaign: string,
    utmTerm: string,
    utmContent: string,
    sessionEnd: int,
    sessionStart: int,
    sessionDuration: int,
    entryPage: string,
    exitPage: string,
    pageviews: nat,
    events: nat,
    errors: nat,
    outbound: nat,
    ip: string,
    lat: real,
    lon: real)

  /** The columns of one non-empty (session, user) group. The columns the
      funnel shares with the sessions list are aggregated as there. */
  function FunnelAggregate(key: (string, string), evs: seq<Event>): (r: FunnelRow)
    requires |evs| > 0
    ensures r.sessionId == key.0 && r.userId == key.1
  {
    var s := Sessions.AggregateSession(key.0, evs);
    assert Sessions.IsAny(evs[0]);
    var first := evs[Sessions.EarliestWhere(evs, Sessions.IsAny, |evs|).value];
    FunnelRow(
      key.0, key.1,
      s.country, s.region, s.city, s.language, s.deviceType,
      s.browser, s.browserVersion, s.operatingSystem, s.operatingSystemVersion,
      s.screenWidth, s.screenHeight,
      s.referrer, s.channel, s.hostname, first.pageTitle, first.querystring,
      s.utmSource, s.utmMedium, s.utmCampaign, s.utmTerm, s.utmContent,
      s.sessionEnd, s.sessionStart, s.sessionDuration, s.entryPage, s.exitPage,
      s.pageviews, s.events, s.errors, s.outbound,
      s.ip, s.lat, s.lon)
  }

  /** First-touch columns, page title and query string included, all come
      from one event with the earliest timestamp. */
  lemma FunnelFirstTouch(key: (string, string), evs: seq<Event>)
    requires |evs| > 0
    ensures var r := FunnelAggregate(key, evs);
            exists i :: 0 <= i < |evs|
              && (forall j :: 0 <= j < |evs| ==> evs[i].timestamp <= evs[j].timestamp)
              && r.referrer == evs[i].referrer && r.channel == evs[i].channel
              && r.hostname == evs[i].hostname
              && r.pageTitle == evs[i].pageTitle && r.querystring == evs[i].querystring
              && r.utmSource == MapGet(evs[i].urlParameters, "utm_source")
              && r.utmMedium == MapGet(evs[i].urlParameters, "utm_medium")
              && r.utmCampaign == MapGet(evs[i].urlParameters, "utm_campaign")
              && r.utmTerm == MapGet(evs[i].urlParameters, "utm_term")
              && r.utmContent == MapGet(evs[i].urlParameters, "utm_content")
  {
    assert Sessions.IsAny(evs[0]);
    assert forall i :: 0 <= i < |evs| ==> Sessions.IsAny(evs[i]);
    var i := Sessions.EarliestWhere(evs, Sessions.IsAny, |evs|).value;
    assert forall j :: 0 <= j < |evs| ==> evs[i].timestamp <= evs[j].timestamp;
  }

  /** Last-touch columns all come from one event with the latest timestamp;
      the user is the group's own. */
  lemma FunnelLastTouch(key: (string, string), evs: seq<Event>)
    requires |evs| > 0
    ensures var r := FunnelAggregate(key, evs);
            exists i :: 0 <= i < |evs|
              && (forall j :: 0 <= j < |evs| ==> evs[j].timestamp <= evs[i].timestamp)
              && r.country == evs[i].country && r.region == evs[i].region && r.city == evs[i].city
              && r.language == evs[i].language && r.deviceType == evs[i].deviceType
              && r.browser == evs[i].browser && r.browserVersion == evs[i].browserVersion
              && r.operatingSystem == evs[i].operatingSystem
              && r.operatingSystemVersion == evs[i].operatingSystemVersion
              && r.screenWidth == evs[i].screenWidth && r.screenHeight == evs[i].screenHeight
              && r.ip == evs[i].ip && r.lat == evs[i].lat && r.lon == evs[i].lon
  {
    assert Sessions.IsAny(evs[0]);
    assert forall i :: 0 <= i < |evs| ==> Sessions.IsAny(evs[i]);
    var i := Sessions.LatestWhere(evs, Sessions.IsAny, |evs|).value;
    assert forall j :: 0 <= j < |evs| ==> evs[j].timestamp <= evs[i].timestamp;
  }

  /** session_start and session_end bound the group's timestamps and are
      attained, the duration is their difference, and the four per-type
      counts add up to at most the group's size. */
  lemma FunnelTotals(key: (string, string), evs: seq<Event>)
    requires |evs| > 0
    ensures var r := FunnelAggregate(key, evs);
            && (forall i :: 0 <= i < |evs| ==> r.sessionStart <= evs[i].timestamp <= r.sessionEnd)
            && (exists i :: 0 <= i < |evs| && evs[i].timestamp == r.sessionStart)
            && (exists i :: 0 <= i < |evs| && evs[i].timestamp == r.sessionEnd)
            && r.sessionDuration == r.sessionEnd - r.sessionStart >= 0
            && r.pageviews + r.events + r.errors + r.outbound <= |evs|
  {
    Sessions.SessionBounds(key.0, evs);
    Sessions.TypeCountsBounded(key.0, evs);
  }

  /** One aggregated row per (session, user) group of the target events. */
  function TargetRows(targets: set<string>, scoped: seq<Event>): (rows: seq<FunnelRow>)
  {
    var gs := Sessions.Groups(TargetEvents(targets, scoped), FunnelKey);
    seq(|gs|, j requires 0 <= j < |gs| => FunnelAggregate(gs[j].0, gs[j].1))
  }

  /** The events of one session and user, in their order. */
  function KeyGroup(scoped: seq<Event>, sessionId: string, userId: string): (g: seq<Event>)
    ensures forall e :: e in g <==> e in scoped && e.sessionId == sessionId && e.userId == userId
  {
    Sessions.GroupOf(scoped, FunnelKey, (sessionId, userId))
  }

  /** A row of a target session that aggregates all the scoped events of
      its session and user. */
  predicate GroupRow(row: FunnelRow, targets: set<string>, scoped: seq<Event>)
  {
    && row.sessionId in targets
    && |KeyGroup(scoped, row.sessionId, row.userId)| > 0
    && row == FunnelAggregate((row.sessionId, row.userId), KeyGroup(scoped, row.sessionId, row.userId))
  }

  /** The group of a target session's key among the target events is the
      key's group among all the scoped events. */
  lemma TargetGroup(targets: set<string>, scoped: seq<Event>, k: (string, string))
    requires k.0 in targets
    ensures Sessions.GroupOf(TargetEvents(targets, scoped), FunnelKey, k) == KeyGroup(scoped, k.0, k.1)
  {
    forall x | Sessions.HasKey(FunnelKey, k)(x)
      ensures InTargets(targets)(x)
    {
      assert FunnelKey(x) == k;
    }
    FilterOfFilter(scoped, InTargets(targets), Sessions.HasKey(FunnelKey, k));
  }

  /** Each row is of a target session and aggregates all the scoped events of
      its session and user, and no two rows share both session and user. */
  lemma TargetRowsKeys(targets: set<string>, scoped: seq<Event>)
    ensures var rows := TargetRows(targets, scoped);
            && (forall j :: 0 <= j < |rows| ==> GroupRow(rows[j], targets, scoped))
            && (forall i, j :: 0 <= i < j < |rows| ==>
                  rows[i].sessionId != rows[j].sessionId || rows[i].userId != rows[j].userId)
  {
    var joined := TargetEvents(targets, scoped);
    var gs := Sessions.Groups(joined, FunnelKey);
    var rows := TargetRows(targets, scoped);
    forall j | 0 <= j < |rows|
      ensures GroupRow(rows[j], targets, scoped)
    {
      var k := gs[j].0;
      assert (rows[j].sessionId, rows[j].userId) == k;
      assert gs[j].1[0] in gs[j].1;
      TargetGroup(targets, scoped, k);
    }
  }

  /** Every scoped event of a target session has the row of its session and
      user. */
  lemma TargetRowsComplete(targets: set<string>, scoped: seq<Event>, e: Event)
    requires e in scoped && e.sessionId in targets
    ensures var rows := TargetRows(targets, scoped);
            exists j :: 0 <= j < |rows| && rows[j].sessionId == e.sessionId && rows[j].userId == e.userId
  {
    var joined := TargetEvents(targets, scoped);
    var gs := Sessions.Groups(joined, FunnelKey);
    var rows := TargetRows(targets, scoped);
    assert e in joined;
    var i :| 0 <= i < |joined| && joined[i] == e;
    var j :| 0 <= j < |gs| && gs[j].0 == FunnelKey(joined[i]);
    assert rows[j].sessionId == e.sessionId && rows[j].userId == e.userId;
  }

  function FunnelEndDescending(r: FunnelRow): int { -r.sessionEnd }

  /** Rows kept by the filter statement, latest session_end first, paged. */
  function FunnelPage(rows: seq<FunnelRow>, keep: FunnelRow -> bool, limit: nat, offset: nat): seq<FunnelRow>
  {
    Sessions.PageRows(Filter(Sorting.SortBy(rows, FunnelEndDescending), keep), limit, offset)
  }

  /** At most `limit` rows, each among the input rows and kept by the filter
      statement, ordered latest session_end first. */
  lemma FunnelPageProperties(rows: seq<FunnelRow>, keep: FunnelRow -> bool, limit: nat, offset: nat)
    ensures var r := FunnelPage(rows, keep, limit, offset);
            && |r| <= limit
            && (forall i :: 0 <= i < |r| ==> r[i] in rows && keep(r[i]))
            && (forall i, j :: 0 <= i < j < |r| ==> r[i].sessionEnd >= r[j].sessionEnd)
  {
    var ordered := Sorting.SortBy(rows, FunnelEndDescending);
    var rel := (a: FunnelRow, b: FunnelRow) => a.sessionEnd >= b.sessionEnd;
    forall i, j | 0 <= i < j < |ordered|
      ensures rel(ordered[i], ordered[j])
    {
      assert FunnelEndDescending(ordered[i]) <= FunnelEndDescending(ordered[j]);
    }
    PairwiseFilter(ordered, keep, rel);
    var kept := Filter(ordered, keep);
    var page := Sessions.PageRows(kept, limit, offset);
    forall i, j | 0 <= i < j < |page|
      ensures page[i].sessionEnd >= page[j].sessionEnd
    {
      assert page[i] == kept[offset + i] && page[j] == kept[offset + j];
      assert rel(kept[offset + i], kept[offset + j]);
    }
    forall i | 0 <= i < |page|
      ensures page[i] in rows && keep(page[i])
    {
      assert page[i] == kept[offset + i];
      assert page[i] in kept;
      assert page[i] in multiset(ordered);
    }
  }

  /** `AggregatedSessions` of the funnel with the outer WHERE, ORDER BY and
      paging. */
  function FunnelRows(targets: set<string>, scoped: seq<Event>, keep: FunnelRow -> bool,
                      limit: nat, offset: nat): seq<FunnelRow>
  {
    FunnelPage(TargetRows(targets, scoped), keep, limit, offset)
  }

  /** The page of target rows: at most `limit` rows, latest session_end
      first, each kept, of a target session, and the aggregate of all the
      scoped events of its session and user. */
  lemma FunnelRowsMeaning(targets: set<string>, scoped: seq<Event>, keep: FunnelRow -> bool,
                          limit: nat, offset: nat)
    ensures var r := FunnelRows(targets, scoped, keep, limit, offset);
            && |r| <= limit
            && (forall i, j :: 0 <= i < j < |r| ==> r[i].sessionEnd >= r[j].sessionEnd)
            && (forall i :: 0 <= i < |r| ==> keep(r[i]) && GroupRow(r[i], targets, scoped))
  {
    var rows := TargetRows(targets, scoped);
    TargetRowsKeys(targets, scoped);
    FunnelPageProperties(rows, keep, limit, offset);
    PageKeepsProperty(rows, IsGroupRow(targets, scoped), keep, limit, offset);
  }

  /** A page of rows that all have a property holds only rows with it. */
  lemma PageKeepsProperty(rows: seq<FunnelRow>, p: FunnelRow -> bool, keep: FunnelRow -> bool, limit: nat, offset: nat)
    requires forall j :: 0 <= j < |rows| ==> p(rows[j])
    ensures var r := FunnelPage(rows, keep, limit, offset);
            forall i :: 0 <= i < |r| ==> p(r[i])
  {
    FunnelPageProperties(rows, keep, limit, offset);
    var r := FunnelPage(rows, keep, limit, offset);
    forall i | 0 <= i < |r|
      ensures p(r[i])
    {
      var j :| 0 <= j < |rows| && rows[j] == r[i];
    }
  }

  /** `GroupRow` as a test on a row. */
  function IsGroupRow(targets: set<string>, scoped: seq<Event>): FunnelRow -> bool
  {
    row => GroupRow(row, targets, scoped)
  }

  // ---------------------------------------------------------------------------
  // The handler's answer

  /** What the query reads: the events the Step CTEs scan, the events of the
      site and time range that `AggregatedSessions` scans, the outer filter
      statement as a test on a row, and the engine that evaluates the step
      conditions. */
  datatype Database = Database(actions: seq<Event>, scoped: seq<Event>, keep: FunnelRow -> bool, engine: Engine)

  /** The rows the handler sends: none for a drop-off at the last step, the
      page of the query it runs, or None when it answers with an error or
      the query's LIMIT or OFFSET is negative. */
  function FunnelAnswer(steps: Option<seq<FunnelStep>>, stepNumber: Option<int>, mode: string,
                        page: int, limit: Option<int>, siteId: int,
                        filters: Option<seq<FilterStatement.Filter>>, timeStatement: string, host: FunnelHost,
                        db: Database): Option<seq<FunnelRow>>
  {
    match FunnelResponse(steps, stepNumber, mode, page, limit, siteId, filters, timeStatement, host)
    case NoRows => Some([])
    case Run(q) =>
      if q.limit < 0 || q.offset < 0 then None
      else
        RunQueryTarget(steps, stepNumber, mode, page, limit, siteId, filters, timeStatement, host);
        var targets := FunnelTargets(steps.value, q.stepNumber, q.mode, host, db.engine, db.actions);
        Some(FunnelRows(targets, db.scoped, db.keep, q.limit, q.offset))
    case _ => None
  }

  /** The page of a funnel's target sessions: at most `limit` rows, latest
      session_end first, each kept by the filter statement, each of a
      session that completes steps 1..n (and, for dropped, not step n+1),
      and each the aggregate of all the scoped events of its session and
      user. */
  lemma TargetPageMeaning(steps: seq<FunnelStep>, n: nat, mode: FunnelSemantics.Mode, host: FunnelHost,
                          db: Database, limit: nat, offset: nat)
    requires 1 <= n <= |steps|
    requires mode == FunnelSemantics.Dropped ==> n < |steps|
    ensures var r := FunnelRows(FunnelTargets(steps, n, mode, host, db.engine, db.actions), db.scoped, db.keep, limit, offset);
            && |r| <= limit
            && (forall i, j :: 0 <= i < j < |r| ==> r[i].sessionEnd >= r[j].sessionEnd)
            && (forall i :: 0 <= i < |r| ==>
                  && db.keep(r[i])
                  && CompletesTarget(steps, n, mode, host, db.engine, db.actions, r[i].sessionId)
                  && |KeyGroup(db.scoped, r[i].sessionId, r[i].userId)| > 0
                  && r[i] == FunnelAggregate((r[i].sessionId, r[i].userId), KeyGroup(db.scoped, r[i].sessionId, r[i].userId)))
  {
    var targets := FunnelTargets(steps, n, mode, host, db.engine, db.actions);
    var r := FunnelRows(targets, db.scoped, db.keep, limit, offset);
    FunnelRowsMeaning(targets, db.scoped, db.keep, limit, offset);
    TargetsComplete(steps, n, mode, host, db.engine, db.actions);
  }

  /** Every target session completes steps 1..n, and for dropped not step
      n+1. */
  lemma TargetsComplete(steps: seq<FunnelStep>, n: nat, mode: FunnelSemantics.Mode, host: FunnelHost,
                        engine: Engine, actions: seq<Event>)
    requires 1 <= n <= |steps|
    requires mode == FunnelSemantics.Dropped ==> n < |steps|
    ensures forall s :: s in FunnelTargets(steps, n, mode, host, engine, actions) ==>
              CompletesTarget(steps, n, mode, host, engine, actions, s)
  {
    forall s | s in FunnelTargets(steps, n, mode, host, engine, actions)
      ensures CompletesTarget(steps, n, mode, host, engine, actions, s)
    {
      FunnelTargetsMeaning(steps, n, mode, host, engine, actions, s);
    }
  }

  /** A query that runs with a non-negative LIMIT and OFFSET answers with the
      page of the target sessions of the requested step and mode, with the
      query's own limit and offset; a drop-off at the last step answers with
      no rows. */
  lemma FunnelAnswerMeaning(steps: Option<seq<FunnelStep>>, stepNumber: Option<int>, mode: string,
                            page: int, limit: Option<int>, siteId: int,
                            filters: Option<seq<FilterStatement.Filter>>, timeStatement: string, host: FunnelHost,
                            db: Database)
    ensures var resp := FunnelResponse(steps, stepNumber, mode, page, limit, siteId, filters, timeStatement, host);
            var r := FunnelAnswer(steps, stepNumber, mode, page, limit, siteId, filters, timeStatement, host, db);
            && (resp.NoRows? ==> r == Some([]))
            && (resp.BadRequest? || resp.ServerError? ==> r.None?)
            && (resp.Run? ==>
                  && steps.Some? && 1 <= resp.query.stepNumber <= |steps.value|
                  && (resp.query.mode == FunnelSemantics.Dropped ==> resp.query.stepNumber < |steps.value|)
                  && (resp.query.limit >= 0 && resp.query.offset >= 0 <==> r.Some?)
                  && (r.Some? ==>
                        r.value == FunnelRows(FunnelTargets(steps.value, resp.query.stepNumber, resp.query.mode,
                                                            host, db.engine, db.actions),
                                              db.scoped, db.keep, resp.query.limit, resp.query.offset)))
  {
    var resp := FunnelResponse(steps, stepNumber, mode, page, limit, siteId, filters, timeStatement, host);
    if resp.Run? {
      RunQueryTarget(steps, stepNumber, mode, page, limit, siteId, filters, timeStatement, host);
    }
  }

  /** The rows the handler sends for a query that runs: at most `limit` of
      them, latest session_end first, each kept by the filter statement,
      each of a session that completes the requested steps (and, for
      dropped, not the next one), and each the aggregate of all the scoped
      events of its session and user. */
  lemma FunnelAnswerRows(steps: Option<seq<FunnelStep>>, stepNumber: Option<int>, mode: string,
                         page: int, limit: Option<int>, siteId: int,
                         filters: Option<seq<FilterStatement.Filter>>, timeStatement: string, host: FunnelHost,
                         db: Database)
    requires FunnelResponse(steps, stepNumber, mode, page, limit, siteId, filters, timeStatement, host).Run?
    requires FunnelAnswer(steps, stepNumber, mode, page, limit, siteId, filters, timeStatement, host, db).Some?
    ensures var q := FunnelResponse(steps, stepNumber, mode, page, limit, siteId, filters, timeStatement, host).query;
            var r := FunnelAnswer(steps, stepNumber, mode, page, limit, siteId, filters, timeStatement, host, db).value;
            && steps.Some? && 1 <= q.stepNumber <= |steps.value|
            && (q.mode == FunnelSemantics.Dropped ==> q.stepNumber < |steps.value|)
            && (q.mode == FunnelSemantics.Dropped <==> mode == "dropped")
            && |r| <= q.limit
            && (forall i, j :: 0 <= i < j < |r| ==> r[i].sessionEnd >= r[j].sessionEnd)
            && (forall i :: 0 <= i < |r| ==>
                  && db.keep(r[i])
                  && CompletesTarget(steps.value, q.stepNumber, q.mode, host, db.engine, db.actions, r[i].sessionId)
                  && |KeyGroup(db.scoped, r[i].sessionId, r[i].userId)| > 0
                  && r[i] == FunnelAggregate((r[i].sessionId, r[i].userId), KeyGroup(db.scoped, r[i].sessionId, r[i].userId)))
  {
    FunnelAnswerMeaning(steps, stepNumber, mode, page, limit, siteId, filters, timeStatement, host, db);
    RunQueryTarget(steps, stepNumber, mode, page, limit, siteId, filters, timeStatement, host);
    var q := FunnelResponse(steps, stepNumber, mode, page, limit, siteId, filters, timeStatement, host).query;
    TargetPageMeaning(steps.value, q.stepNumber, q.mode, host, db, q.limit, q.offset);
  }
}
