/** The sessions list: request defaults and paging, the filter options it
    compiles its filters with, and the meaning of its `AggregatedSessions`,
    `ReplaySessions` and `has_replay` query over the rows of `events`.
    The funnel's own `AggregatedSessions` block, with its different
    columns, is modelled beside the funnel. */
module Sessions {
  import opened Util
  import opened Events
  import Sorting
  import FilterStatement

  // ---------------------------------------------------------------------------
  // Request defaults, filter options and paging

  datatype SessionsRequest = SessionsRequest(
    page: Option<int>,
    limit: Option<int>,
    userId: Option<string>,
    identifiedOnly: Option<string>)

  const DefaultPage := 1
  const DefaultLimit := 100
  const DefaultIdentifiedOnly := "false"

  /** The five UTM columns the aggregation extracts, keyed by the expression
      the filter compiler would otherwise emit. */
  const SessionFieldMappings: seq<(string, string)> := [
    ("url_parameters['utm_source']", "utm_source"),
    ("url_parameters['utm_medium']", "utm_medium"),
    ("url_parameters['utm_campaign']", "utm_campaign"),
    ("url_parameters['utm_term']", "utm_term"),
    ("url_parameters['utm_content']", "utm_content")
  ]

  const SessionLevelParams: seq<string> := ["event_name", "pathname", "page_title"]

  const SessionsFilterOptions := FilterStatement.Options(Some(SessionLevelParams), Some(SessionFieldMappings))

  /** `limit || fallback`: a missing or zero limit falls back. */
  function LimitOr(limit: Option<int>, fallback: int): int
  {
    if limit.None? || limit.value == 0 then fallback else limit.value
  }

  /** `(page - 1) * limit` */
  function Offset(page: int, limit: int): int
  {
    (page - 1) * limit
  }

  /** What the handler computes before running the query. */
  datatype SessionsPlan = SessionsPlan(
    filterStatement: string,
    filterIdentified: bool,
    userId: Option<string>,
    limit: int,
    offset: int)

  /** The handler up to the query: an error from the filter compiler escapes
      the handler (it is compiled outside the `try`). */
  function GetSessionsPlan(q: SessionsRequest, siteId: int, filters: Option<seq<FilterStatement.Filter>>,
                           timeStatement: Option<string>, host: FilterStatement.Host)
    : (r: Result<SessionsPlan, FilterStatement.FilterError>)
    ensures r.Ok? ==> r.value.limit == (if q.limit.None? || q.limit.value == 0 then DefaultLimit else q.limit.value)
    ensures r.Ok? ==> r.value.offset == ((if q.page.Some? then q.page.value else DefaultPage) - 1) * r.value.limit
    ensures r.Ok? ==> (r.value.filterIdentified <==> q.identifiedOnly == Some("true"))
    ensures r.Err? <==> FilterStatement.FilterStatement(filters, Some(siteId), timeStatement,
                                                       SessionsFilterOptions, host).Err?
  {
    var page := if q.page.Some? then q.page.value else DefaultPage;
    var limit := if q.limit.Some? then Some(q.limit.value) else Some(DefaultLimit);
    var identifiedOnly := if q.identifiedOnly.Some? then q.identifiedOnly.value else DefaultIdentifiedOnly;
    match FilterStatement.FilterStatement(filters, Some(siteId), timeStatement, SessionsFilterOptions, host)
    case Err(e) => Err(e)
    case Ok(statement) =>
      var l := LimitOr(limit, DefaultLimit);
      Ok(SessionsPlan(statement, identifiedOnly == "true", q.userId, l, Offset(page, l)))
  }

  /** With no query parameters the first 100 sessions are asked for. */
  lemma DefaultsAskForFirstPage(siteId: int, filters: Option<seq<FilterStatement.Filter>>,
                                timeStatement: Option<string>, host: FilterStatement.Host)
    requires FilterStatement.FilterStatement(filters, Some(siteId), timeStatement, SessionsFilterOptions, host).Ok?
    ensures var r := GetSessionsPlan(SessionsRequest(None, None, None, None), siteId, filters, timeStatement, host);
            r.Ok? && r.value.limit == 100 && r.value.offset == 0 && !r.value.filterIdentified
  {
  }

  /** The sessions filters treat event_name, pathname and page_title as
      session-level: such a filter compiles to the session-level subquery
      (`session_id IN (SELECT … )`) rather than to a condition on the row. */
  lemma SessionsFilterLevels(f: FilterStatement.Filter, scope: string, host: FilterStatement.Host)
    requires f.parameter == "pathname" || f.parameter == "page_title" || f.parameter == "event_name"
    ensures FilterStatement.CompileFilter(f, SessionLevelParams, scope, host)
         == Ok(FilterStatement.SessionLevelSubquery(f, scope, host))
  {
  }

  /** The UTM mappings are well-formed, and a statement that mentions none of
      the `url_parameters['utm_…']` expressions is left as compiled. */
  lemma SessionMappingsHarmless(text: string)
    requires forall i :: 0 <= i < |SessionFieldMappings| ==> !Includes(text, SessionFieldMappings[i].0)
    ensures FilterStatement.NonEmptyKeys(SessionFieldMappings)
    ensures FilterStatement.MapFields(text, SessionFieldMappings) == text
  {
    FilterStatement.MapFieldsAbsent(text, SessionFieldMappings);
  }

  /** `LIMIT limit OFFSET offset` on an ordered result. */
  function PageRows<T>(rows: seq<T>, limit: nat, offset: nat): (r: seq<T>)
    ensures |r| <= limit
    ensures offset <= |rows| ==> offset + |r| <= |rows| && r == rows[offset..offset + |r|]
    ensures offset >= |rows| ==> r == []
  {
    if offset >= |rows| then []
    else if offset + limit <= |rows| then rows[offset..offset + limit]
    else rows[offset..]
  }

  /** Consecutive pages of the same size follow on from each other: together
      they are the rows of one page twice as large. */
  lemma {:induction false} PagesFollowOn<T>(rows: seq<T>, page: nat, limit: nat)
    requires page >= 1
    ensures Offset(page, limit) >= 0 && Offset(page + 1, limit) == Offset(page, limit) + limit
    ensures PageRows(rows, limit, Offset(page, limit)) + PageRows(rows, limit, Offset(page + 1, limit))
         == PageRows(rows, 2 * limit, Offset(page, limit))
  {
    var o := Offset(page, limit);
    assert o == (page - 1) * limit;
    assert Offset(page + 1, limit) == o + limit by {
      assert (page + 1 - 1) * limit == (page - 1) * limit + limit;
    }
    if o + 2 * limit <= |rows| {
      assert rows[o..o + limit] + rows[o + limit..o + 2 * limit] == rows[o..o + 2 * limit];
    } else if o + limit <= |rows| {
      assert rows[o..o + limit] + rows[o + limit..] == rows[o..];
    }
  }

  // ---------------------------------------------------------------------------
  // Which events are aggregated

  /** The WHERE clause of `AggregatedSessions`: the site, the optional user
      (either identifier), and the time range, given as a predicate. */
  predicate InScope(e: Event, siteId: int, userId: Option<string>, inTime: Event -> bool)
  {
    && e.siteId == siteId
    && (userId.None? || userId.value == "" || e.userId == userId.value || e.identifiedUserId == userId.value)
    && inTime(e)
  }

  /** A non-empty user_id parameter keeps exactly the events whose device id
      or identified id equals it. */
  lemma UserIdMatchesEitherId(evs: seq<Event>, siteId: int, u: string, inTime: Event -> bool, e: Event)
    requires u != ""
    ensures e in Filter(evs, x => InScope(x, siteId, Some(u), inTime))
        <==> e in evs && e.siteId == siteId && inTime(e) && (e.userId == u || e.identifiedUserId == u)
  {
  }

  // ---------------------------------------------------------------------------
  // Aggregation of one group of events

  /** Index of an event satisfying p with the smallest timestamp among those
      with index below n (`argMinIf`). */
  function EarliestWhere(evs: seq<Event>, p: Event -> bool, n: nat): (r: Option<nat>)
    requires n <= |evs|
    ensures r.None? <==> forall i :: 0 <= i < n ==> !p(evs[i])
    ensures r.Some? ==> r.value < n && p(evs[r.value])
    ensures r.Some? ==> forall i :: 0 <= i < n && p(evs[i]) ==> evs[r.value].timestamp <= evs[i].timestamp
    decreases n
  {
    if n == 0 then None
    else
      var prev := EarliestWhere(evs, p, n - 1);
      if !p(evs[n - 1]) then prev
      else if prev.Some? && evs[prev.value].timestamp <= evs[n - 1].timestamp then prev
      else Some(n - 1)
  }

  /** Index of an event satisfying p with the largest timestamp among those
      with index below n (`argMaxIf`). */
  function LatestWhere(evs: seq<Event>, p: Event -> bool, n: nat): (r: Option<nat>)
    requires n <= |evs|
    ensures r.None? <==> forall i :: 0 <= i < n ==> !p(evs[i])
    ensures r.Some? ==> r.value < n && p(evs[r.value])
    ensures r.Some? ==> forall i :: 0 <= i < n && p(evs[i]) ==> evs[i].timestamp <= evs[r.value].timestamp
    decreases n
  {
    if n == 0 then None
    else
      var prev := LatestWhere(evs, p, n - 1);
      if !p(evs[n - 1]) then prev
      else if prev.Some? && evs[n - 1].timestamp <= evs[prev.value].timestamp then prev
      else Some(n - 1)
  }

  function IsAny(e: Event): bool { true }

  function IsPageview(e: Event): bool { e.kind == PageviewType }

  /** `countIf(type = kind)` */
  function CountKind(evs: seq<Event>, kind: string): (n: nat)
    ensures n <= |evs|
    ensures n == 0 <==> forall i :: 0 <= i < |evs| ==> evs[i].kind != kind
    decreases |evs|
  {
    if |evs| == 0 then 0
    else
      var rest := CountKind(evs[1..], kind);
      assert forall i :: 1 <= i < |evs| ==> evs[i] == evs[1..][i - 1];
      (if evs[0].kind == kind then 1 else 0) + rest
  }

  /** One row of the sessions list: the columns its `AggregatedSessions`
      selects, with `has_replay`. */
  datatype SessionRow = SessionRow(
    sessionId: string,
    userId: string,
    identifiedUserId: string,
    country: string,
    region: string,
    city: string,
    language: string,
    deviceType: string,
    browser: string,
    browserVersion: string,
    operatingSystem: string,
    operatingSystemVersion: string,
    screenWidth: int,
    screenHeight: int,
    referrer: string,
    channel: string,
    hostname: string,
    utmSource: string,
    utmMedium: string,
    utmCampaign: string,
    utmTerm: string,
    utmContent: string,
    sessionEnd: int,
    sessionStart: int,
    sessionDuration: int,
    entryPage: string,
    exitPage: string,
    pageviews: nat,
    events: nat,
    errors: nat,
    outbound: nat,
    ip: string,
    lat: real,
    lon: real,
    hasReplay: int)

  /** The aggregate columns of one non-empty group of a session's events. */
  function AggregateSession(sessionId: string, evs: seq<Event>): (r: SessionRow)
    requires |evs| > 0
    ensures r.sessionId == sessionId && r.hasReplay == 0
  {
    assert IsAny(evs[0]);
    var first := evs[EarliestWhere(evs, IsAny, |evs|).value];
    var last := evs[LatestWhere(evs, IsAny, |evs|).value];
    var entry := EarliestWhere(evs, IsPageview, |evs|);
    var exit := LatestWhere(evs, IsPageview, |evs|);
    SessionRow(
      sessionId, last.userId, last.identifiedUserId,
      last.country, last.region, last.city, last.language, last.deviceType,
      last.browser, last.browserVersion, last.operatingSystem, last.operatingSystemVersion,
      last.screenWidth, last.screenHeight,
      first.referrer, first.channel, first.hostname,
      MapGet(first.urlParameters, "utm_source"), MapGet(first.urlParameters, "utm_medium"),
      MapGet(first.urlParameters, "utm_campaign"), MapGet(first.urlParameters, "utm_term"),
      MapGet(first.urlParameters, "utm_content"),
      last.timestamp, first.timestamp, last.timestamp - first.timestamp,
      if entry.Some? then evs[entry.value].pathname else "",
      if exit.Some? then evs[exit.value].pathname else "",
      CountKind(evs, PageviewType), CountKind(evs, CustomEventType),
      CountKind(evs, ErrorType), CountKind(evs, OutboundType),
      last.ip, last.lat, last.lon,
      0)
  }

  /** session_start and session_end are the smallest and largest timestamps
      of the group, both attained, so the duration is never negative. */
  lemma SessionBounds(sessionId: string, evs: seq<Event>)
    requires |evs| > 0
    ensures var r := AggregateSession(sessionId, evs);
            && (forall i :: 0 <= i < |evs| ==> r.sessionStart <= evs[i].timestamp <= r.sessionEnd)
            && (exists i :: 0 <= i < |evs| && evs[i].timestamp == r.sessionStart)
            && (exists i :: 0 <= i < |evs| && evs[i].timestamp == r.sessionEnd)
            && r.sessionDuration == r.sessionEnd - r.sessionStart >= 0
  {
    assert IsAny(evs[0]);
    assert forall i :: 0 <= i < |evs| ==> IsAny(evs[i]);
  }

  /** Last-touch columns all come from one event with the latest timestamp. */
  lemma LastTouchColumns(sessionId: string, evs: seq<Event>)
    requires |evs| > 0
    ensures var r := AggregateSession(sessionId, evs);
            exists i :: 0 <= i < |evs|
              && (forall j :: 0 <= j < |evs| ==> evs[j].timestamp <= evs[i].timestamp)
              && r.userId == evs[i].userId && r.identifiedUserId == evs[i].identifiedUserId
              && r.country == evs[i].country && r.region == evs[i].region && r.city == evs[i].city
              && r.language == evs[i].language && r.deviceType == evs[i].deviceType
              && r.browser == evs[i].browser && r.browserVersion == evs[i].browserVersion
              && r.operatingSystem == evs[i].operatingSystem
              && r.operatingSystemVersion == evs[i].operatingSystemVersion
              && r.screenWidth == evs[i].screenWidth && r.screenHeight == evs[i].screenHeight
              && r.ip == evs[i].ip && r.lat == evs[i].lat && r.lon == evs[i].lon
  {
    assert IsAny(evs[0]);
    assert forall i :: 0 <= i < |evs| ==> IsAny(evs[i]);
    var i := LatestWhere(evs, IsAny, |evs|).value;
    assert forall j :: 0 <= j < |evs| ==> evs[j].timestamp <= evs[i].timestamp;
  }

  /** First-touch columns all come from one event with the earliest
      timestamp; a UTM parameter the event lacks reads as "". */
  lemma FirstTouchColumns(sessionId: string, evs: seq<Event>)
    requires |evs| > 0
    ensures var r := AggregateSession(sessionId, evs);
            exists i :: 0 <= i < |evs|
              && (forall j :: 0 <= j < |evs| ==> evs[i].timestamp <= evs[j].timestamp)
              && r.referrer == evs[i].referrer && r.channel == evs[i].channel
              && r.hostname == evs[i].hostname
              && r.utmSource == MapGet(evs[i].urlParameters, "utm_source")
              && r.utmMedium == MapGet(evs[i].urlParameters, "utm_medium")
              && r.utmCampaign == MapGet(evs[i].urlParameters, "utm_campaign")
              && r.utmTerm == MapGet(evs[i].urlParameters, "utm_term")
              && r.utmContent == MapGet(evs[i].urlParameters, "utm_content")
  {
    assert IsAny(evs[0]);
    assert forall i :: 0 <= i < |evs| ==> IsAny(evs[i]);
    var i := EarliestWhere(evs, IsAny, |evs|).value;
    assert forall j :: 0 <= j < |evs| ==> evs[i].timestamp <= evs[j].timestamp;
  }

  /** entry_page and exit_page look at pageviews only: the pathnames of the
      earliest and the latest pageview, or "" when the group has none. */
  lemma EntryExitPages(sessionId: string, evs: seq<Event>)
    requires |evs| > 0
    ensures var r := AggregateSession(sessionId, evs);
            && ((forall i :: 0 <= i < |evs| ==> evs[i].kind != PageviewType) ==> r.entryPage == "" && r.exitPage == "")
            && ((exists i :: 0 <= i < |evs| && evs[i].kind == PageviewType) ==>
                  && (exists i :: 0 <= i < |evs| && evs[i].kind == PageviewType && r.entryPage == evs[i].pathname
                       && forall j :: 0 <= j < |evs| && evs[j].kind == PageviewType ==> evs[i].timestamp <= evs[j].timestamp)
                  && (exists i :: 0 <= i < |evs| && evs[i].kind == PageviewType && r.exitPage == evs[i].pathname
                       && forall j :: 0 <= j < |evs| && evs[j].kind == PageviewType ==> evs[j].timestamp <= evs[i].timestamp))
  {
    var r := AggregateSession(sessionId, evs);
    assert forall i :: 0 <= i < |evs| ==> (IsPageview(evs[i]) <==> evs[i].kind == PageviewType);
    if exists i :: 0 <= i < |evs| && evs[i].kind == PageviewType {
      var a := EarliestWhere(evs, IsPageview, |evs|).value;
      var b := LatestWhere(evs, IsPageview, |evs|).value;
      assert r.entryPage == evs[a].pathname && r.exitPage == evs[b].pathname;
    }
  }

  /** An event has one type, so the four per-type counts of a sequence of
      events add up to at most its length. */
  lemma {:induction false} FourCountsBounded(evs: seq<Event>)
    ensures CountKind(evs, PageviewType) + CountKind(evs, CustomEventType)
          + CountKind(evs, ErrorType) + CountKind(evs, OutboundType) <= |evs|
    decreases |evs|
  {
    if |evs| > 0 {
      FourCountsBounded(evs[1..]);
    }
  }

  /** pageviews, events, errors and outbound count disjoint sets of events,
      so together they never exceed the group's size. */
  lemma TypeCountsBounded(sessionId: string, evs: seq<Event>)
    requires |evs| > 0
    ensures var r := AggregateSession(sessionId, evs);
            r.pageviews + r.events + r.errors + r.outbound <= |evs|
  {
    FourCountsBounded(evs);
  }

  // ---------------------------------------------------------------------------
  // Grouping

  /** The distinct group keys of the events, in order of first appearance. */
  function DistinctKeys<K(==,!new)>(evs: seq<Event>, key: Event -> K): (ks: seq<K>)
    ensures forall i, j :: 0 <= i < j < |ks| ==> ks[i] != ks[j]
    ensures forall k :: k in ks <==> exists i :: 0 <= i < |evs| && key(evs[i]) == k
    decreases |evs|
  {
    if |evs| == 0 then []
    else
      var prev := DistinctKeys(evs[..|evs| - 1], key);
      assert forall i :: 0 <= i < |evs| - 1 ==> evs[..|evs| - 1][i] == evs[i];
      var k := key(evs[|evs| - 1]);
      if k in prev then prev else prev + [k]
  }

  /** The test for membership of the group with key k. */
  function HasKey<K(==,!new)>(key: Event -> K, k: K): Event -> bool
  {
    e => key(e) == k
  }

  /** The events of one group, in their original order. */
  function GroupOf<K(==,!new)>(evs: seq<Event>, key: Event -> K, k: K): (g: seq<Event>)
    ensures forall e :: e in g <==> e in evs && key(e) == k
    ensures IsSubsequence(g, evs)
  {
    FilterIsSubsequence(evs, HasKey(key, k));
    Filter(evs, HasKey(key, k))
  }

  /** `GROUP BY key`: each distinct key, in order of first appearance, with its
      non-empty group of events. */
  function Groups<K(==,!new)>(evs: seq<Event>, key: Event -> K): (gs: seq<(K, seq<Event>)>)
    ensures forall i, j :: 0 <= i < j < |gs| ==> gs[i].0 != gs[j].0
    ensures forall j :: 0 <= j < |gs| ==> |gs[j].1| > 0 && gs[j].1 == GroupOf(evs, key, gs[j].0)
    ensures forall i :: 0 <= i < |evs| ==> exists j :: 0 <= j < |gs| && gs[j].0 == key(evs[i])
  {
    var ks := DistinctKeys(evs, key);
    var gs := seq(|ks|, j requires 0 <= j < |ks| => (ks[j], GroupOf(evs, key, ks[j])));
    forall j | 0 <= j < |gs|
      ensures |gs[j].1| > 0
    {
      assert ks[j] in ks;
      var i :| 0 <= i < |evs| && key(evs[i]) == ks[j];
      assert evs[i] in gs[j].1;
    }
    forall i | 0 <= i < |evs|
      ensures exists j :: 0 <= j < |gs| && gs[j].0 == key(evs[i])
    {
      assert key(evs[i]) in ks;
      var j :| 0 <= j < |ks| && ks[j] == key(evs[i]);
      assert gs[j].0 == key(evs[i]);
    }
    gs
  }

  function SessionKey(e: Event): string { e.sessionId }

  /** `GROUP BY session_id`: the aggregate of each session's events. */
  function AggregatedSessions(evs: seq<Event>): (rows: seq<SessionRow>)
    ensures var gs := Groups(evs, SessionKey);
            && |rows| == |gs|
            && (forall j :: 0 <= j < |rows| ==> rows[j].sessionId == gs[j].0)
  {
    var gs := Groups(evs, SessionKey);
    seq(|gs|, j requires 0 <= j < |gs| => AggregateSession(gs[j].0, gs[j].1))
  }

  /** There is exactly one row per session id occurring in the events:
      rows have distinct sessions, and every event's session has a row. */
  lemma OneRowPerSession(evs: seq<Event>)
    ensures var rows := AggregatedSessions(evs);
            && (forall i, j :: 0 <= i < j < |rows| ==> rows[i].sessionId != rows[j].sessionId)
            && (forall i :: 0 <= i < |evs| ==> exists j :: 0 <= j < |rows| && rows[j].sessionId == evs[i].sessionId)
  {
    var rows := AggregatedSessions(evs);
    var gs := Groups(evs, SessionKey);
    forall i | 0 <= i < |evs|
      ensures exists j :: 0 <= j < |rows| && rows[j].sessionId == evs[i].sessionId
    {
      var j :| 0 <= j < |gs| && gs[j].0 == SessionKey(evs[i]);
      assert rows[j].sessionId == evs[i].sessionId;
    }
  }

  /** Every row is the session of some event. */
  lemma RowsComeFromEvents(evs: seq<Event>)
    ensures var rows := AggregatedSessions(evs);
            forall j :: 0 <= j < |rows| ==> exists i :: 0 <= i < |evs| && rows[j].sessionId == evs[i].sessionId
  {
    var rows := AggregatedSessions(evs);
    var gs := Groups(evs, SessionKey);
    forall j | 0 <= j < |rows|
      ensures exists i :: 0 <= i < |evs| && rows[j].sessionId == evs[i].sessionId
    {
      var e := gs[j].1[0];
      assert e in gs[j].1;
      var i :| 0 <= i < |evs| && evs[i] == e;
      assert rows[j].sessionId == evs[i].sessionId;
    }
  }

  /** Each row aggregates exactly the events of its session, in their order. */
  lemma RowAggregatesItsSession(evs: seq<Event>, j: nat)
    requires j < |AggregatedSessions(evs)|
    ensures var row := AggregatedSessions(evs)[j];
            var g := GroupOf(evs, SessionKey, row.sessionId);
            |g| > 0 && row == AggregateSession(row.sessionId, g)
  {
  }

  // ---------------------------------------------------------------------------
  // Replays and the final selection

  datatype ReplayMetadata = ReplayMetadata(siteId: int, sessionId: string, eventCount: int)

  /** `ReplaySessions`: the sessions of the site with a replay of at least two events. */
  function ReplaySessions(metas: seq<ReplayMetadata>, siteId: int): set<string>
  {
    set m | m in metas && m.siteId == siteId && m.eventCount >= 2 :: m.sessionId
  }

  /** The LEFT JOIN yields the matched session id, or "" when there is no
      match; has_replay tests that column against "". */
  function HasReplay(sessionId: string, replays: set<string>): int
  {
    var joined := if sessionId in replays then sessionId else "";
    if joined != "" then 1 else 0
  }

  /** has_replay is 1 exactly for a non-empty session id with replay
      metadata of the same site holding at least two events. */
  lemma HasReplayMeaning(sessionId: string, metas: seq<ReplayMetadata>, siteId: int)
    ensures HasReplay(sessionId, ReplaySessions(metas, siteId)) == 1
        <==> sessionId != "" && exists m :: m in metas && m.siteId == siteId && m.sessionId == sessionId && m.eventCount >= 2
    ensures HasReplay(sessionId, ReplaySessions(metas, siteId)) in {0, 1}
  {
  }

  function EndDescending(r: SessionRow): int { -r.sessionEnd }

  /** Rows ordered by session_end, latest first, with pairwise distinct sessions. */
  predicate LatestFirstDistinct(rows: seq<SessionRow>)
  {
    forall i, j :: 0 <= i < j < |rows| ==>
      rows[i].sessionEnd >= rows[j].sessionEnd && rows[i].sessionId != rows[j].sessionId
  }

  /** The LEFT JOIN with `ReplaySessions`: each row gains its has_replay column. */
  function WithReplay(rows: seq<SessionRow>, replays: set<string>): (r: seq<SessionRow>)
    ensures |r| == |rows| && (LatestFirstDistinct(rows) ==> LatestFirstDistinct(r))
    ensures forall i :: 0 <= i < |r| ==> r[i] == rows[i].(hasReplay := HasReplay(rows[i].sessionId, replays))
  {
    seq(|rows|, i requires 0 <= i < |rows| => rows[i].(hasReplay := HasReplay(rows[i].sessionId, replays)))
  }

  /** The outer WHERE: the compiled filter statement, then identified_only. */
  function Selected(rows: seq<SessionRow>, keep: SessionRow -> bool, filterIdentified: bool): (r: seq<SessionRow>)
    ensures LatestFirstDistinct(rows) ==> LatestFirstDistinct(r)
    ensures forall x :: x in r <==> x in rows && keep(x) && (!filterIdentified || x.identifiedUserId != "")
  {
    var p := (x: SessionRow) => keep(x) && (!filterIdentified || x.identifiedUserId != "");
    if LatestFirstDistinct(rows) then
      SelectionKeepsOrder(rows, p);
      Filter(rows, p)
    else Filter(rows, p)
  }

  lemma SelectionKeepsOrder(rows: seq<SessionRow>, p: SessionRow -> bool)
    requires LatestFirstDistinct(rows)
    ensures LatestFirstDistinct(Filter(rows, p))
  {
    var rel := (a: SessionRow, b: SessionRow) => a.sessionEnd >= b.sessionEnd && a.sessionId != b.sessionId;
    assert forall i, j :: 0 <= i < j < |rows| ==> rel(rows[i], rows[j]);
    PairwiseFilter(rows, p, rel);
    var r := Filter(rows, p);
    forall i, j | 0 <= i < j < |r|
      ensures r[i].sessionEnd >= r[j].sessionEnd && r[i].sessionId != r[j].sessionId
    {
      assert rel(r[i], r[j]);
    }
  }

  /** The query after aggregation, over the aggregated rows: order, join,
      select and page. A negative LIMIT or OFFSET has no result in this model. */
  function ListRows(plan: SessionsPlan, rows: seq<SessionRow>, replays: set<string>,
                    keep: SessionRow -> bool): Option<seq<SessionRow>>
  {
    PageOfSorted(plan, Sorting.SortBy(rows, EndDescending), replays, keep)
  }

  /** Join, select and page rows already ordered. */
  function PageOfSorted(plan: SessionsPlan, ordered: seq<SessionRow>, replays: set<string>,
                        keep: SessionRow -> bool): Option<seq<SessionRow>>
  {
    var selected := Selected(WithReplay(ordered, replays), keep, plan.filterIdentified);
    if plan.limit < 0 || plan.offset < 0 then None
    else Some(PageRows(selected, plan.limit, plan.offset))
  }

  /** A paged row is one of the joined rows. */
  lemma PageRowJoined(plan: SessionsPlan, ordered: seq<SessionRow>, replays: set<string>,
                      keep: SessionRow -> bool, i: nat)
    requires PageOfSorted(plan, ordered, replays, keep).Some?
    requires i < |PageOfSorted(plan, ordered, replays, keep).value|
    ensures PageOfSorted(plan, ordered, replays, keep).value[i] in WithReplay(ordered, replays)
  {
    var selected := Selected(WithReplay(ordered, replays), keep, plan.filterIdentified);
    PageRowIn(selected, plan.limit, plan.offset, i);
  }

  lemma PageRowIn<T>(rows: seq<T>, limit: nat, offset: nat, i: nat)
    requires i < |PageRows(rows, limit, offset)|
    ensures PageRows(rows, limit, offset)[i] in rows
  {
    assert PageRows(rows, limit, offset)[i] == rows[offset + i];
  }

  /** Events of the site, the user and the time range. */
  function Scoped(events: seq<Event>, siteId: int, userId: Option<string>, inTime: Event -> bool): seq<Event>
  {
    Filter(events, e => InScope(e, siteId, userId, inTime))
  }

  /** The sessions list for a plan, over the stored events and replay
      metadata. `keep` is the value of the compiled filter statement on a row. */
  function SessionsList(plan: SessionsPlan, events: seq<Event>, siteId: int, inTime: Event -> bool,
                        metas: seq<ReplayMetadata>, keep: SessionRow -> bool): Option<seq<SessionRow>>
  {
    ListRows(plan, AggregatedSessions(Scoped(events, siteId, plan.userId, inTime)), ReplaySessions(metas, siteId), keep)
  }

  /** Over rows with distinct sessions, the listed rows are ordered by
      session_end, latest first; at most `limit` are listed; and each is kept
      by the filter statement and, with identified_only, identified. */
  lemma ListRowsProperties(plan: SessionsPlan, rows: seq<SessionRow>, replays: set<string>, keep: SessionRow -> bool)
    requires plan.limit >= 0 && plan.offset >= 0
    requires forall i, j :: 0 <= i < j < |rows| ==> rows[i].sessionId != rows[j].sessionId
    ensures var r := ListRows(plan, rows, replays, keep);
            && r.Some?
            && |r.value| <= plan.limit
            && LatestFirstDistinct(r.value)
            && (forall i :: 0 <= i < |r.value| ==> keep(r.value[i]))
            && (plan.filterIdentified ==> forall i :: 0 <= i < |r.value| ==> r.value[i].identifiedUserId != "")
  {
    var ordered := Sorting.SortBy(rows, EndDescending);
    SortedLatestFirst(rows);
    assert ListRows(plan, rows, replays, keep) == PageOfSorted(plan, ordered, replays, keep);
    var selected := Selected(WithReplay(ordered, replays), keep, plan.filterIdentified);
    var page := PageRows(selected, plan.limit, plan.offset);
    if plan.offset <= |selected| {
      PairwiseSlice(selected, plan.offset, plan.offset + |page|);
    }
    forall i | 0 <= i < |page|
      ensures keep(page[i]) && (plan.filterIdentified ==> page[i].identifiedUserId != "")
    {
      PageRowIn(selected, plan.limit, plan.offset, i);
    }
  }

  /** Each listed row is one of the input rows with its has_replay column. */
  lemma ListRowsFromInput(plan: SessionsPlan, rows: seq<SessionRow>, replays: set<string>,
                          keep: SessionRow -> bool, i: nat)
    requires ListRows(plan, rows, replays, keep).Some? && i < |ListRows(plan, rows, replays, keep).value|
    ensures exists k :: 0 <= k < |rows| &&
              ListRows(plan, rows, replays, keep).value[i] == rows[k].(hasReplay := HasReplay(rows[k].sessionId, replays))
  {
    var ordered := Sorting.SortBy(rows, EndDescending);
    PageRowJoined(plan, ordered, replays, keep, i);
    RowOrigin(rows, ordered, WithReplay(ordered, replays), replays, ListRows(plan, rows, replays, keep).value[i]);
  }

  /** A row of the joined, sorted rows comes from an input row. */
  lemma RowOrigin(rows: seq<SessionRow>, ordered: seq<SessionRow>, joined: seq<SessionRow>,
                  replays: set<string>, x: SessionRow)
    requires multiset(ordered) == multiset(rows)
    requires joined == WithReplay(ordered, replays)
    requires x in joined
    ensures exists k :: 0 <= k < |rows| && x == rows[k].(hasReplay := HasReplay(rows[k].sessionId, replays))
  {
    var m :| 0 <= m < |joined| && joined[m] == x;
    assert ordered[m] in multiset(rows);
    var k :| 0 <= k < |rows| && rows[k] == ordered[m];
  }

  /** Sorting rows of distinct sessions by descending session_end. */
  lemma SortedLatestFirst(rows: seq<SessionRow>)
    requires forall i, j :: 0 <= i < j < |rows| ==> rows[i].sessionId != rows[j].sessionId
    ensures var ordered := Sorting.SortBy(rows, EndDescending);
            && LatestFirstDistinct(ordered)
            && forall m :: 0 <= m < |ordered| ==> exists k :: 0 <= k < |rows| && rows[k] == ordered[m]
  {
    var ordered := Sorting.SortBy(rows, EndDescending);
    OrderedDistinctRows(ordered, rows);
    forall i, j | 0 <= i < j < |ordered|
      ensures ordered[i].sessionEnd >= ordered[j].sessionEnd
    {
      assert EndDescending(ordered[i]) <= EndDescending(ordered[j]);
    }
    forall m | 0 <= m < |ordered|
      ensures exists k :: 0 <= k < |rows| && rows[k] == ordered[m]
    {
      assert ordered[m] in multiset(rows);
    }
  }

  /** The sessions list: ordered latest first, at most `limit` rows, each kept
      by the filter and (with identified_only) identified, and each the
      aggregate of the in-scope events of one distinct session. */
  lemma SessionsListProperties(plan: SessionsPlan, events: seq<Event>, siteId: int, inTime: Event -> bool,
                               metas: seq<ReplayMetadata>, keep: SessionRow -> bool)
    requires plan.limit >= 0 && plan.offset >= 0
    ensures var r := SessionsList(plan, events, siteId, inTime, metas, keep);
            var scoped := Scoped(events, siteId, plan.userId, inTime);
            && r.Some?
            && |r.value| <= plan.limit
            && LatestFirstDistinct(r.value)
            && (forall i :: 0 <= i < |r.value| ==> keep(r.value[i]))
            && (plan.filterIdentified ==> forall i :: 0 <= i < |r.value| ==> r.value[i].identifiedUserId != "")
            && (forall i :: 0 <= i < |r.value| ==>
                  var g := GroupOf(scoped, SessionKey, r.value[i].sessionId);
                  && |g| > 0
                  && r.value[i] == AggregateSession(r.value[i].sessionId, g)
                                     .(hasReplay := HasReplay(r.value[i].sessionId, ReplaySessions(metas, siteId))))
  {
    var scoped := Scoped(events, siteId, plan.userId, inTime);
    var rows := AggregatedSessions(scoped);
    OneRowPerSession(scoped);
    ListRowsProperties(plan, rows, ReplaySessions(metas, siteId), keep);
    var r := ListRows(plan, rows, ReplaySessions(metas, siteId), keep).value;
    forall i | 0 <= i < |r|
      ensures var g := GroupOf(scoped, SessionKey, r[i].sessionId);
              && |g| > 0
              && r[i] == AggregateSession(r[i].sessionId, g)
                           .(hasReplay := HasReplay(r[i].sessionId, ReplaySessions(metas, siteId)))
    {
      ListRowsFromInput(plan, rows, ReplaySessions(metas, siteId), keep, i);
      var k :| 0 <= k < |rows| && r[i] == rows[k].(hasReplay := HasReplay(rows[k].sessionId, ReplaySessions(metas, siteId)));
      RowAggregatesItsSession(scoped, k);
    }
  }

  /** A slice of ordered, distinct rows is ordered and distinct. */
  lemma PairwiseSlice(rows: seq<SessionRow>, lo: nat, hi: nat)
    requires lo <= hi <= |rows| && LatestFirstDistinct(rows)
    ensures LatestFirstDistinct(rows[lo..hi])
  {
    assert forall i :: 0 <= i < hi - lo ==> rows[lo..hi][i] == rows[lo + i];
  }

  /** A permutation of rows with distinct session ids has distinct session ids. */
  lemma OrderedDistinctRows(ordered: seq<SessionRow>, rows: seq<SessionRow>)
    requires multiset(ordered) == multiset(rows)
    requires forall i, j :: 0 <= i < j < |rows| ==> rows[i].sessionId != rows[j].sessionId
    ensures forall i, j :: 0 <= i < j < |ordered| ==> ordered[i].sessionId != ordered[j].sessionId
  {
    forall i, j | 0 <= i < j < |ordered|
      ensures ordered[i].sessionId != ordered[j].sessionId
    {
      if ordered[i].sessionId == ordered[j].sessionId {
        assert ordered[i] in multiset(rows) && ordered[j] in multiset(rows);
        var a :| 0 <= a < |rows| && rows[a] == ordered[i];
        var b :| 0 <= b < |rows| && rows[b] == ordered[j];
        DistinctRowsOnce(rows, a);
        TwiceInSeq(ordered, i, j);
        assert false;
      }
    }
  }

  lemma DistinctRowsOnce(rows: seq<SessionRow>, a: nat)
    requires a < |rows|
    requires forall i, j :: 0 <= i < j < |rows| ==> rows[i].sessionId != rows[j].sessionId
    ensures forall x: SessionRow :: x.sessionId == rows[a].sessionId ==> multiset(rows)[x] <= 1
    decreases |rows|
  {
    var last := |rows| - 1;
    assert rows == rows[..last] + [rows[last]];
    if a == last {
      forall x: SessionRow | x.sessionId == rows[a].sessionId
        ensures multiset(rows[..last])[x] == 0
      {
        assert x !in rows[..last];
      }
    } else {
      DistinctRowsOnce(rows[..last], a);
      assert rows[last].sessionId != rows[a].sessionId;
    }
  }

  lemma TwiceInSeq(s: seq<SessionRow>, i: nat, j: nat)
    requires i < j < |s| && s[i].sessionId == s[j].sessionId
    ensures s[i] != s[j] || multiset(s)[s[i]] >= 2
  {
    if s[i] == s[j] {
      assert s == s[..j] + [s[j]] + s[j + 1..];
      assert s[..j] == s[..i] + [s[i]] + s[i + 1..j];
    }
  }
}
