/** The CSV parse worker of the import pipeline: the platform's header
    mapping, the date-range filter, and the loop that filters rows, asks the
    quota tracker, and sends accepted rows on in chunks of 5000 followed by
    one final "all chunks sent" message. The stream is a sequence of rows and
    `jobQueue.send` appends to a log of messages. */
module CsvParse {
  import opened Util

  // ---------------------------------------------------------------------------
  // Platforms and dates

  /** The header mapping a platform's export is read with. The column names
      of the Umami mapping are not part of this model. */
  datatype Headers = UmamiHeaders

  /** `getImportDataHeaders`: only Umami exports are supported. */
  function GetImportDataHeaders(platform: string): (r: Result<Headers, string>)
    ensures r.Ok? <==> platform == "umami"
    ensures r.Err? ==> r.error == "Unsupported platform: " + platform
  {
    if platform == "umami" then Ok(UmamiHeaders) else Err("Unsupported platform: " + platform)
  }

  const MsPerDay := 24 * 60 * 60 * 1000

  /** Luxon's parsing in UTC: `day` reads "yyyy-MM-dd" as a day number since
      the epoch, `dateTime` reads "yyyy-MM-dd HH:mm:ss" as milliseconds since
      the epoch; None is an invalid DateTime. */
  datatype DateParser = DateParser(day: string -> Option<int>, dateTime: string -> Option<int>)

  /** Inclusive bounds in milliseconds; None is no bound. */
  datatype DateRange = DateRange(start: Option<int>, end: Option<int>)

  /** A bound is given only by a non-empty string. */
  predicate Given(s: Option<string>)
  {
    s.Some? && s.value != ""
  }

  /** `createDateRangeFilter`: the start of the start day and the last
      millisecond of the end day, or the error it throws. */
  function CreateDateRangeFilter(startDate: Option<string>, endDate: Option<string>, parser: DateParser)
    : Result<DateRange, string>
  {
    var start := if Given(startDate) then Some(parser.day(startDate.value)) else None;
    var end := if Given(endDate) then Some(parser.day(endDate.value)) else None;
    if start.Some? && start.value.None? then Err("Invalid start date: " + startDate.value)
    else if end.Some? && end.value.None? then Err("Invalid end date: " + endDate.value)
    else
      Ok(DateRange(
           if start.Some? then Some(start.value.value * MsPerDay) else None,
           if end.Some? then Some(end.value.value * MsPerDay + MsPerDay - 1) else None))
  }

  /** The predicate the filter returns. */
  predicate IsDateInRange(range: DateRange, dateStr: string, parser: DateParser)
  {
    var createdAt := parser.dateTime(dateStr);
    if createdAt.None? then false
    else if range.start.Some? && createdAt.value < range.start.value then false
    else if range.end.Some? && createdAt.value > range.end.value then false
    else true
  }

  /** The filter fails exactly on a given bound that does not parse, the start
      bound being checked first. */
  lemma DateRangeErrors(startDate: Option<string>, endDate: Option<string>, parser: DateParser)
    ensures var r := CreateDateRangeFilter(startDate, endDate, parser);
            && (r == Err("Invalid start date: " + startDate.value) <== Given(startDate) && parser.day(startDate.value).None?)
            && (r.Err? <==> (Given(startDate) && parser.day(startDate.value).None?)
                            || (Given(endDate) && parser.day(endDate.value).None?))
            && (r.Ok? ==> (r.value.start.Some? <==> Given(startDate)) && (r.value.end.Some? <==> Given(endDate)))
  {
  }

  /** Whole days: a row is in range exactly when its time parses and its UTC
      day lies between the start day and the end day, both included; a
      missing or empty bound imposes nothing. */
  lemma DateRangeByDay(startDate: Option<string>, endDate: Option<string>, parser: DateParser, dateStr: string)
    requires CreateDateRangeFilter(startDate, endDate, parser).Ok?
    ensures var range := CreateDateRangeFilter(startDate, endDate, parser).value;
            var t := parser.dateTime(dateStr);
            IsDateInRange(range, dateStr, parser)
            <==> && t.Some?
                 && (Given(startDate) ==> parser.day(startDate.value).value <= t.value / MsPerDay)
                 && (Given(endDate) ==> t.value / MsPerDay <= parser.day(endDate.value).value)
  {
    var t := parser.dateTime(dateStr);
    if t.Some? {
      var d := t.value / MsPerDay;
      assert d * MsPerDay <= t.value < d * MsPerDay + MsPerDay;
      if Given(startDate) {
        var s := parser.day(startDate.value).value;
        assert s <= d <==> s * MsPerDay <= t.value by {
          if s <= d {
            assert s * MsPerDay <= d * MsPerDay;
          } else {
            assert (d + 1) * MsPerDay <= s * MsPerDay;
          }
        }
      }
      if Given(endDate) {
        var e := parser.day(endDate.value).value;
        assert d <= e <==> t.value <= e * MsPerDay + MsPerDay - 1 by {
          if d <= e {
            assert d * MsPerDay <= e * MsPerDay;
          } else {
            assert (e + 1) * MsPerDay <= d * MsPerDay;
          }
        }
      }
    }
  }

  // ---------------------------------------------------------------------------
  // Rows, the quota tracker and messages

  /** A parsed CSV row: its `created_at` ("" when missing) and its other
      columns. */
  datatype Row = Row(createdAt: string, columns: map<string, string>)

  /** The quota tracker's decision for an event date, given the dates of the
      events it has let through so far. */
  type Quota = (seq<string>, string) -> bool

  /** `getSummary()` after the loop. */
  datatype QuotaSummary = QuotaSummary(monthsAtCapacity: nat, totalMonthsInWindow: nat)

  /** A `DataInsertJob` sent to the insert queue; site, import id and
      platform are the job's own and are not repeated here. */
  datatype Message = Message(chunk: seq<Row>, allChunksSent: bool)

  /** The test for a data message, as opposed to the final "all chunks sent"
      signal. */
  function IsData(): Message -> bool
  {
    (m: Message) => !m.allChunksSent
  }

  /** Why an import failed: events skipped for quota, or an exception. */
  datatype Failure = QuotaExceeded(skipped: nat, summary: QuotaSummary) | Unexpected

  /** A call of `updateImportStatus`: "processing", or "failed" with the
      message of `FailureMessage`. */
  datatype StatusUpdate = Processing | Failed(reason: Failure)

  /** What the worker leaves behind: the messages sent, the status updates
      made, and its two counters. */
  datatype Outcome = Outcome(sent: seq<Message>, updates: seq<StatusUpdate>, skippedQuota: nat, processed: nat)

  const ChunkSize := 5000
  const UnexpectedError := "An unexpected error occurred during import processing"

  /** The error message stored with a failed import. */
  function FailureMessage(f: Failure): string
  {
    match f
    case Unexpected => UnexpectedError
    case QuotaExceeded(skipped, summary) =>
    NatToString(skipped) + " events exceeded monthly quotas or fell outside the "
    + NatToString(summary.totalMonthsInWindow) + "-month historical window. "
    + NatToString(summary.monthsAtCapacity) + " of " + NatToString(summary.totalMonthsInWindow)
    + " months are at full capacity. "
    + "Try importing newer data or upgrade your plan for higher monthly quotas."
  }

  // ---------------------------------------------------------------------------
  // Specification of the loop

  /** Present and in range: the rows that reach the quota check. */
  predicate Eligible(row: Row, range: DateRange, parser: DateParser)
  {
    row.createdAt != "" && IsDateInRange(range, row.createdAt, parser)
  }

  function Dates(rows: seq<Row>): (ds: seq<string>)
    ensures |ds| == |rows|
  {
    seq(|rows|, i requires 0 <= i < |rows| => rows[i].createdAt)
  }

  /** The rows accepted from a stream, in order. */
  function Accepted(rows: seq<Row>, range: DateRange, parser: DateParser, quota: Quota): seq<Row>
    decreases |rows|
  {
    if |rows| == 0 then []
    else
      var prev := Accepted(rows[..|rows| - 1], range, parser, quota);
      var row := rows[|rows| - 1];
      if Eligible(row, range, parser) && quota(Dates(prev), row.createdAt) then prev + [row] else prev
  }

  /** The eligible rows the quota tracker refused. */
  function SkippedQuota(rows: seq<Row>, range: DateRange, parser: DateParser, quota: Quota): nat
    decreases |rows|
  {
    if |rows| == 0 then 0
    else
      var prev := Accepted(rows[..|rows| - 1], range, parser, quota);
      var row := rows[|rows| - 1];
      SkippedQuota(rows[..|rows| - 1], range, parser, quota)
      + (if Eligible(row, range, parser) && !quota(Dates(prev), row.createdAt) then 1 else 0)
  }

  /** The rows dropped before the quota check: no date, or out of range. */
  function Ineligible(rows: seq<Row>, range: DateRange, parser: DateParser): nat
  {
    |Filter(rows, r => !Eligible(r, range, parser))|
  }

  /** The accepted rows are eligible rows of the stream in stream order, and
      every row is either accepted, skipped for quota, or dropped before the
      quota check. */
  lemma {:induction false} AcceptedAccounting(rows: seq<Row>, range: DateRange, parser: DateParser, quota: Quota)
    ensures IsSubsequence(Accepted(rows, range, parser, quota), rows)
    ensures forall r :: r in Accepted(rows, range, parser, quota) ==> Eligible(r, range, parser)
    ensures |Accepted(rows, range, parser, quota)| + SkippedQuota(rows, range, parser, quota)
            + Ineligible(rows, range, parser) == |rows|
    decreases |rows|
  {
    if |rows| > 0 {
      var init := rows[..|rows| - 1];
      var row := rows[|rows| - 1];
      AcceptedAccounting(init, range, parser, quota);
      assert rows == init + [row];
      FilterSnoc(init, row, r => !Eligible(r, range, parser));
      var prev := Accepted(init, range, parser, quota);
      SubsequenceSnoc(prev, init, row);
    }
  }

  /** Concatenation of chunks. */
  function Flatten(chunks: seq<seq<Row>>): seq<Row>
    decreases |chunks|
  {
    if |chunks| == 0 then [] else chunks[0] + Flatten(chunks[1..])
  }

  lemma {:induction false} FlattenSnoc(chunks: seq<seq<Row>>, c: seq<Row>)
    ensures Flatten(chunks + [c]) == Flatten(chunks) + c
    decreases |chunks|
  {
    if |chunks| == 0 {
      assert [c][1..] == [];
    } else {
      assert (chunks + [c])[1..] == chunks[1..] + [c];
      FlattenSnoc(chunks[1..], c);
    }
  }

  /** The accepted rows cut into pieces of 5000 from the front; the last
      piece holds what is left. */
  function Chunks(rows: seq<Row>): seq<seq<Row>>
    decreases |rows|
  {
    if |rows| == 0 then []
    else if |rows| <= ChunkSize then [rows]
    else [rows[..ChunkSize]] + Chunks(rows[ChunkSize..])
  }

  /** Every chunk holds between 1 and 5000 rows, and together they are the
      rows in order. */
  lemma {:induction false} ChunksPartition(rows: seq<Row>)
    ensures forall i :: 0 <= i < |Chunks(rows)| ==> 0 < |Chunks(rows)[i]| <= ChunkSize
    ensures Flatten(Chunks(rows)) == rows
    decreases |rows|
  {
    if |rows| > ChunkSize {
      ChunksPartition(rows[ChunkSize..]);
      assert rows == rows[..ChunkSize] + rows[ChunkSize..];
    } else if |rows| > 0 {
      assert Flatten([rows]) == rows + Flatten([]);
    }
  }

  /** Full chunks of 5000 followed by a shorter rest are the chunking of
      their concatenation. */
  lemma {:induction false} ChunksOfFull(full: seq<seq<Row>>, rest: seq<Row>)
    requires forall j :: 0 <= j < |full| ==> |full[j]| == ChunkSize
    requires |rest| < ChunkSize
    ensures Chunks(Flatten(full) + rest) == full + (if |rest| > 0 then [rest] else [])
    decreases |full|
  {
    if |full| > 0 {
      ChunksOfFull(full[1..], rest);
      var tail := Flatten(full[1..]) + rest;
      var all := Flatten(full) + rest;
      assert all == full[0] + tail;
      assert all[..ChunkSize] == full[0];
      assert all[ChunkSize..] == tail;
      if |tail| == 0 {
        assert full[1..] == [];
        assert all == full[0];
        assert full == [full[0]];
      } else {
        assert |all| > ChunkSize;
        assert Chunks(all) == [full[0]] + Chunks(tail);
        assert full == [full[0]] + full[1..];
      }
    } else {
      assert Flatten(full) + rest == rest;
    }
  }

  function DataMessages(chunks: seq<seq<Row>>): (ms: seq<Message>)
    ensures |ms| == |chunks|
  {
    seq(|chunks|, i requires 0 <= i < |chunks| => Message(chunks[i], false))
  }

  /** The loop and what follows it, for a stream read with a valid range. */
  function ParseOutcome(rows: seq<Row>, range: DateRange, parser: DateParser, quota: Quota, summary: QuotaSummary)
    : Outcome
  {
    var accepted := Accepted(rows, range, parser, quota);
    var skipped := SkippedQuota(rows, range, parser, quota);
    var data := DataMessages(Chunks(accepted));
    if skipped > 0 then Outcome(data, [Processing, Failed(QuotaExceeded(skipped, summary))], skipped, |accepted|)
    else Outcome(data + [Message([], true)], [Processing], 0, |accepted|)
  }

  /** The whole job: headers, then the date filter, then the loop. */
  function JobOutcome(platform: string, startDate: Option<string>, endDate: Option<string>, rows: seq<Row>,
                      parser: DateParser, quota: Quota, summary: QuotaSummary): Outcome
  {
    if GetImportDataHeaders(platform).Err? then Outcome([], [Failed(Unexpected)], 0, 0)
    else
      match CreateDateRangeFilter(startDate, endDate, parser)
      case Err(_) => Outcome([], [Processing, Failed(Unexpected)], 0, 0)
      case Ok(range) => ParseOutcome(rows, range, parser, quota, summary)
  }

  // ---------------------------------------------------------------------------
  // The worker

  /** The specification functions over one more row of the stream. */
  lemma AcceptStep(rows: seq<Row>, i: nat, range: DateRange, parser: DateParser, quota: Quota)
    requires i < |rows|
    ensures var prev := Accepted(rows[..i], range, parser, quota);
            var row := rows[i];
            var admit := Eligible(row, range, parser) && quota(Dates(prev), row.createdAt);
            && Accepted(rows[..i + 1], range, parser, quota) == (if admit then prev + [row] else prev)
            && SkippedQuota(rows[..i + 1], range, parser, quota)
               == SkippedQuota(rows[..i], range, parser, quota)
                  + (if Eligible(row, range, parser) && !admit then 1 else 0)
  {
    assert rows[..i + 1][..i] == rows[..i];
  }

  lemma DatesSnoc(rows: seq<Row>, row: Row)
    ensures Dates(rows + [row]) == Dates(rows) + [row.createdAt]
  {
  }

  /** `chunk.push(data)`, then the send and reset once the chunk is full. */
  method PushRow(ghost full: seq<seq<Row>>, chunk: seq<Row>, sent: seq<Message>, data: Row)
    returns (ghost full': seq<seq<Row>>, chunk': seq<Row>, sent': seq<Message>)
    requires forall j :: 0 <= j < |full| ==> |full[j]| == ChunkSize
    requires |chunk| < ChunkSize && sent == DataMessages(full)
    ensures forall j :: 0 <= j < |full'| ==> |full'[j]| == ChunkSize
    ensures |chunk'| < ChunkSize && sent' == DataMessages(full')
    ensures Flatten(full') + chunk' == Flatten(full) + chunk + [data]
  {
    full', chunk', sent' := full, chunk + [data], sent;
    if |chunk'| >= ChunkSize {
      FlattenSnoc(full, chunk');
      assert DataMessages(full + [chunk']) == DataMessages(full) + [Message(chunk', false)];
      sent' := sent + [Message(chunk', false)];
      full' := full + [chunk'];
      chunk' := [];
    }
  }

  /** The `for await` loop and the finalisation after it. */
  method ParseRows(rows: seq<Row>, range: DateRange, parser: DateParser, quota: Quota, summary: QuotaSummary)
    returns (out: Outcome)
    ensures out == ParseOutcome(rows, range, parser, quota, summary)
  {
    var sent: seq<Message> := [];
    var chunk: seq<Row> := [];
    var totalSkippedQuota := 0;
    var totalProcessed := 0;
    var admittedDates: seq<string> := [];   // the quota tracker's own record
    ghost var full: seq<seq<Row>> := [];
    var i := 0;
    while i < |rows|
      invariant 0 <= i <= |rows|
      invariant totalSkippedQuota == SkippedQuota(rows[..i], range, parser, quota)
      invariant totalProcessed == |Accepted(rows[..i], range, parser, quota)|
      invariant admittedDates == Dates(Accepted(rows[..i], range, parser, quota))
      invariant Flatten(full) + chunk == Accepted(rows[..i], range, parser, quota)
      invariant forall j :: 0 <= j < |full| ==> |full[j]| == ChunkSize
      invariant |chunk| < ChunkSize
      invariant sent == DataMessages(full)
    {
      var data := rows[i];
      AcceptStep(rows, i, range, parser, quota);
      ghost var prev := Accepted(rows[..i], range, parser, quota);
      if data.createdAt == "" {
        // skipped: no date
      } else if !IsDateInRange(range, data.createdAt, parser) {
        // skipped: out of range
      } else if !quota(admittedDates, data.createdAt) {
        totalSkippedQuota := totalSkippedQuota + 1;
      } else {
        DatesSnoc(prev, data);
        full, chunk, sent := PushRow(full, chunk, sent, data);
        admittedDates := admittedDates + [data.createdAt];
        totalProcessed := totalProcessed + 1;
      }
      i := i + 1;
    }
    assert rows[..i] == rows;
    ChunksOfFull(full, chunk);
    if |chunk| > 0 {
      assert DataMessages(full + [chunk]) == DataMessages(full) + [Message(chunk, false)];
      sent := sent + [Message(chunk, false)];
    } else {
      assert full + [] == full;
    }
    if totalSkippedQuota > 0 {
      return Outcome(sent, [Processing, Failed(QuotaExceeded(totalSkippedQuota, summary))], totalSkippedQuota, totalProcessed);
    }
    sent := sent + [Message([], true)];
    out := Outcome(sent, [Processing], totalSkippedQuota, totalProcessed);
  }

  /** The worker body for one job; an exception ends in the generic failure. */
  method RunCsvParseJob(platform: string, startDate: Option<string>, endDate: Option<string>, rows: seq<Row>,
                        parser: DateParser, quota: Quota, summary: QuotaSummary)
    returns (out: Outcome)
    ensures out == JobOutcome(platform, startDate, endDate, rows, parser, quota, summary)
  {
    var headers := GetImportDataHeaders(platform);
    if headers.Err? {
      return Outcome([], [Failed(Unexpected)], 0, 0);
    }
    var isDateInRange := CreateDateRangeFilter(startDate, endDate, parser);
    if isDateInRange.Err? {
      return Outcome([], [Processing, Failed(Unexpected)], 0, 0);
    }
    out := ParseRows(rows, isDateInRange.value, parser, quota, summary);
  }

  // ---------------------------------------------------------------------------
  // Properties of the job

  /** An unsupported platform or an unparseable bound fails the import with
      the generic message and sends nothing. */
  lemma SetupErrorsSendNothing(platform: string, startDate: Option<string>, endDate: Option<string>, rows: seq<Row>,
                               parser: DateParser, quota: Quota, summary: QuotaSummary)
    requires platform != "umami" || CreateDateRangeFilter(startDate, endDate, parser).Err?
    ensures var out := JobOutcome(platform, startDate, endDate, rows, parser, quota, summary);
            out.sent == [] && out.updates[|out.updates| - 1] == Failed(Unexpected)
  {
  }

  /** Every data message holds 1..5000 accepted rows, and the data messages,
      in order, carry exactly the accepted rows in stream order;
      `totalProcessed` is their number. */
  lemma DataMessagesCarryAcceptedRows(rows: seq<Row>, range: DateRange, parser: DateParser, quota: Quota,
                                      summary: QuotaSummary)
    ensures var out := ParseOutcome(rows, range, parser, quota, summary);
            var data := Filter(out.sent, IsData());
            && (forall i :: 0 <= i < |data| ==> 0 < |data[i].chunk| <= ChunkSize)
            && Flatten(seq(|data|, i requires 0 <= i < |data| => data[i].chunk)) == Accepted(rows, range, parser, quota)
            && out.processed == |Accepted(rows, range, parser, quota)|
  {
    var chunks := Chunks(Accepted(rows, range, parser, quota));
    ChunksPartition(Accepted(rows, range, parser, quota));
    var out := ParseOutcome(rows, range, parser, quota, summary);
    var data := Filter(out.sent, IsData());
    DataOfOutcome(rows, range, parser, quota, summary);
    assert seq(|data|, i requires 0 <= i < |data| => data[i].chunk) == chunks;
  }

  /** The data messages sent are the chunk messages, whether or not the
      final signal follows them. */
  lemma DataOfOutcome(rows: seq<Row>, range: DateRange, parser: DateParser, quota: Quota, summary: QuotaSummary)
    ensures Filter(ParseOutcome(rows, range, parser, quota, summary).sent, IsData())
            == DataMessages(Chunks(Accepted(rows, range, parser, quota)))
  {
    var dm := DataMessages(Chunks(Accepted(rows, range, parser, quota)));
    NoFinalInData(Chunks(Accepted(rows, range, parser, quota)));
    if SkippedQuota(rows, range, parser, quota) == 0 {
      FilterSnoc(dm, Message([], true), IsData());
    }
  }

  lemma {:induction false} NoFinalInData(chunks: seq<seq<Row>>)
    ensures Filter(DataMessages(chunks), IsData()) == DataMessages(chunks)
    decreases |chunks|
  {
    if |chunks| > 0 {
      NoFinalInData(chunks[1..]);
      assert DataMessages(chunks)[1..] == DataMessages(chunks[1..]);
    }
  }

  /** The "all chunks sent" signal goes out exactly when no event was skipped
      for quota; it is then sent once, last, with an empty chunk. Otherwise
      the import is marked failed with the quota message. */
  lemma FinalSignalIffNoQuotaSkips(rows: seq<Row>, range: DateRange, parser: DateParser, quota: Quota,
                                   summary: QuotaSummary)
    ensures var out := ParseOutcome(rows, range, parser, quota, summary);
            && ((exists i :: 0 <= i < |out.sent| && out.sent[i].allChunksSent) <==> out.skippedQuota == 0)
            && (out.skippedQuota == 0 ==>
                  out.sent[|out.sent| - 1] == Message([], true)
                  && forall i :: 0 <= i < |out.sent| - 1 ==> !out.sent[i].allChunksSent)
            && (out.skippedQuota > 0 ==> out.updates == [Processing, Failed(QuotaExceeded(out.skippedQuota, summary))])
            && out.skippedQuota == SkippedQuota(rows, range, parser, quota)
  {
  }
}
