/** One row of the `events` table as the analytics queries read it. Rows are
    written by ingestion, never changed, and only queried here. */
module Events {

  datatype Event = Event(
    siteId: int,
    sessionId: string,
    userId: string,
    identifiedUserId: string,
    timestamp: int,           // seconds
    kind: string,             // the `type` column: "pageview", "custom_event", "error", "outbound", …
    pathname: string,
    eventName: string,
    pageTitle: string,
    querystring: string,
    hostname: string,
    referrer: string,
    channel: string,
    props: map<string, string>,          // JSONExtractString(toString(props), key) per key
    urlParameters: map<string, string>,
    country: string,
    region: string,
    city: string,
    language: string,
    deviceType: string,
    browser: string,
    browserVersion: string,
    operatingSystem: string,
    operatingSystemVersion: string,
    screenWidth: int,
    screenHeight: int,
    ip: string,
    lat: real,
    lon: real)

  const PageviewType := "pageview"
  const CustomEventType := "custom_event"
  const ErrorType := "error"
  const OutboundType := "outbound"

  /** Reading a missing key of a map column yields the type's default, "". */
  function MapGet(m: map<string, string>, key: string): string
  {
    if key in m then m[key] else ""
  }
}
