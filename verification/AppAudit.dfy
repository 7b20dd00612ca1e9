/**
 The App audit list: one read of the audit pipe per page, checked for order, and a cursor that
 names the last item. The pipe filters, sorts by descending time and id, and limits.

 Texts compare character by character, as the Worker compares them. JSON enters as a pair of
 functions that undo each other.
 */
module AppAudit {
  import opened Wrappers
  import opened Base64Url

  const LIST_READ_LIMIT: nat := 200

  datatype AuditEvent = AuditEvent(
    eventId: string, timestamp: string, appId: string, action: string, resourceType: string, resourceId: string,
    environmentId: string, approvalRequestId: string, runId: string)

  /** A time bound as the caller wrote it, with its offset, and the same moment in UTC. */
  datatype Bound = Bound(text: string, utc: string)

  datatype Filters = Filters(
    environmentId: Option<string>, action: Option<string>, resourceType: Option<string>, resourceId: Option<string>,
    approvalRequestId: Option<string>, runId: Option<string>, from: Option<Bound>, to: Option<Bound>)

  datatype Position = Position(timestamp: string, eventId: string)

  datatype Query = Query(filters: Filters, limit: nat, cursor: Option<string>)

  // ---------- order ----------

  /** `a < b` on texts. */
  predicate Less(a: string, b: string) {
    if b == "" then false
    else if a == "" then true
    else a[0] < b[0] || (a[0] == b[0] && Less(a[1..], b[1..]))
  }

  lemma {:induction false} LessIsStrict(a: string, b: string)
    ensures !(Less(a, b) && Less(b, a)) && !Less(a, a)
    ensures Less(a, b) || Less(b, a) || a == b
    decreases |a|
  {
    if a != "" {
      LessIsStrict(a[1..], a[1..]);
      if b != "" {
        LessIsStrict(a[1..], b[1..]);
        assert a == [a[0]] + a[1..] && b == [b[0]] + b[1..];
      }
    }
  }

  lemma {:induction false} LessIsTransitive(a: string, b: string, c: string)
    requires Less(a, b) && Less(b, c)
    ensures Less(a, c)
    decreases |a|
  {
    if a != "" && a[0] == b[0] == c[0] {
      LessIsTransitive(a[1..], b[1..], c[1..]);
    }
  }

  predicate IsBefore(event: Position, previous: Position) {
    Less(event.timestamp, previous.timestamp)
    || (event.timestamp == previous.timestamp && Less(event.eventId, previous.eventId))
  }

  lemma BeforeIsStrictOrder(a: Position, b: Position, c: Position)
    ensures !IsBefore(a, a)
    ensures IsBefore(a, b) || IsBefore(b, a) || a == b
    ensures IsBefore(a, b) && IsBefore(b, c) ==> IsBefore(a, c)
  {
    LessIsStrict(a.timestamp, b.timestamp);
    LessIsStrict(a.eventId, b.eventId);
    LessIsStrict(a.timestamp, a.timestamp);
    LessIsStrict(a.eventId, a.eventId);
    if IsBefore(a, b) && IsBefore(b, c) {
      if Less(a.timestamp, b.timestamp) && Less(b.timestamp, c.timestamp) {
        LessIsTransitive(a.timestamp, b.timestamp, c.timestamp);
      }
      if Less(a.eventId, b.eventId) && Less(b.eventId, c.eventId) {
        LessIsTransitive(a.eventId, b.eventId, c.eventId);
      }
    }
  }

  function At(e: AuditEvent): Position {
    Position(e.timestamp, e.eventId)
  }

  /** Strictly descending, hence without repeats. */
  ghost predicate Descending(events: seq<AuditEvent>) {
    forall i, j :: 0 <= i < j < |events| ==> IsBefore(At(events[j]), At(events[i]))
  }

  ghost predicate AllBefore(events: seq<AuditEvent>, position: Option<Position>) {
    position.Some? ==> forall e :: e in events ==> IsBefore(At(e), position.value)
  }

  /** Compares each event with the one before it only, and accepts exactly the ordered lists below the cursor. */
  method AssertEventOrder(events: seq<AuditEvent>, position: Option<Position>) returns (ok: bool)
    ensures ok <==> Descending(events) && AllBefore(events, position)
  {
    var previous := position;
    for i := 0 to |events|
      invariant Descending(events[..i]) && AllBefore(events[..i], position)
      invariant previous == if i == 0 then position else Some(At(events[i - 1]))
    {
      if previous.Some? && !IsBefore(At(events[i]), previous.value) {
        if i == 0 {
          assert events[0] in events;
        } else {
          assert !IsBefore(At(events[i]), At(events[i - 1]));
        }
        return false;
      }
      OneMoreInOrder(events, i, position);
      previous := Some(At(events[i]));
    }
    assert events[..|events|] == events;
    return true;
  }

  lemma OneMoreInOrder(events: seq<AuditEvent>, i: nat, position: Option<Position>)
    requires i < |events| && Descending(events[..i]) && AllBefore(events[..i], position)
    requires i == 0 ==> position.None? || IsBefore(At(events[0]), position.value)
    requires i > 0 ==> IsBefore(At(events[i]), At(events[i - 1]))
    ensures Descending(events[..i + 1]) && AllBefore(events[..i + 1], position)
  {
    var head, more := events[..i], events[..i + 1];
    assert more == head + [events[i]];
    forall j | 0 <= j < i ensures IsBefore(At(events[i]), At(events[j])) {
      if j < i - 1 {
        assert IsBefore(At(head[i - 1]), At(head[j]));
        BeforeIsStrictOrder(At(events[i]), At(events[i - 1]), At(events[j]));
      }
    }
    if position.Some? && i > 0 {
      assert head[0] in head;
      BeforeIsStrictOrder(At(events[i]), At(events[0]), position.value);
    }
  }

  // ---------- the pipe ----------

  predicate Equals(filter: Option<string>, value: string) {
    filter.Some? ==> filter.value == value
  }

  predicate Selected(e: AuditEvent, appId: string, f: Filters, after: Option<Position>) {
    && e.appId == appId
    && Equals(f.environmentId, e.environmentId) && Equals(f.action, e.action)
    && Equals(f.resourceType, e.resourceType) && Equals(f.resourceId, e.resourceId)
    && Equals(f.approvalRequestId, e.approvalRequestId) && Equals(f.runId, e.runId)
    && (f.from.Some? ==> !Less(e.timestamp, f.from.value.utc))
    && (f.to.Some? ==> !Less(f.to.value.utc, e.timestamp))
    && (after.Some? ==> IsBefore(At(e), after.value))
  }

  /** The events the pipe selects from a store kept in its order. */
  function Select(store: seq<AuditEvent>, appId: string, f: Filters, after: Option<Position>): seq<AuditEvent> {
    if store == [] then []
    else (if Selected(store[0], appId, f, after) then [store[0]] else []) + Select(store[1..], appId, f, after)
  }

  function Take(events: seq<AuditEvent>, limit: nat): seq<AuditEvent> {
    if |events| <= limit then events else events[..limit]
  }

  function Pipe(store: seq<AuditEvent>, appId: string, f: Filters, after: Option<Position>, limit: nat): seq<AuditEvent> {
    Take(Select(store, appId, f, after), limit)
  }

  lemma {:induction false} SelectIs(store: seq<AuditEvent>, appId: string, f: Filters, after: Option<Position>)
    ensures forall e :: e in Select(store, appId, f, after) <==> e in store && Selected(e, appId, f, after)
    ensures Descending(store) ==> Descending(Select(store, appId, f, after))
  {
    if store != [] {
      SelectIs(store[1..], appId, f, after);
      var rest := Select(store[1..], appId, f, after);
      assert forall e :: e in store <==> e == store[0] || e in store[1..];
      if Descending(store) && Selected(store[0], appId, f, after) {
        forall j | 0 <= j < |rest| ensures IsBefore(At(rest[j]), At(store[0])) {
          assert rest[j] in rest;
        }
      }
    }
  }

  // ---------- the cursor ----------

  datatype CursorBody = CursorBody(appId: string, filters: Filters, position: Position)

  /** JSON text of a cursor's fields, as bytes, and which texts the platform reads as dates. */
  datatype CursorJson = CursorJson(
    write: CursorBody -> seq<Byte>,
    read: seq<Byte> -> Option<CursorBody>,
    isDate: string -> bool)

  ghost predicate Lossless(json: CursorJson) {
    forall c :: json.read(json.write(c)) == Some(c) && json.write(c) != []
  }

  predicate Digits(text: string) {
    forall i :: 0 <= i < |text| ==> '0' <= text[i] <= '9'
  }

  /** `YYYY-MM-DDTHH:MM:SS.mmmZ` in shape. */
  predicate TimestampShaped(t: string) {
    && |t| == 24
    && Digits(t[..4]) && t[4] == '-' && Digits(t[5..7]) && t[7] == '-' && Digits(t[8..10]) && t[10] == 'T'
    && Digits(t[11..13]) && t[13] == ':' && Digits(t[14..16]) && t[16] == ':' && Digits(t[17..19]) && t[19] == '.'
    && Digits(t[20..23]) && t[23] == 'Z'
  }

  predicate PositionValid(json: CursorJson, p: Position) {
    TimestampShaped(p.timestamp) && json.isDate(p.timestamp) && p.eventId != ""
  }

  function EncodeCursor(json: CursorJson, appId: string, f: Filters, p: Position): string {
    Encode(json.write(CursorBody(appId, f, p)))
  }

  datatype CursorReading = NoCursor | Resume(position: Position) | InvalidCursor

  function DecodeCursor(json: CursorJson, appId: string, f: Filters, cursor: Option<string>): CursorReading {
    if cursor.None? || cursor.value == "" then NoCursor
    else match DecodeUnpadded(cursor.value)
      case None => InvalidCursor
      case Some(bytes) =>
        match json.read(bytes)
        case None => InvalidCursor
        case Some(c) =>
          if c.appId != appId || c.filters != f || !PositionValid(json, c.position) then InvalidCursor
          else Resume(c.position)
  }

  /** A cursor resumes for its own App and filters, whatever the limit, and is refused for any others. */
  lemma CursorIsForItsQuery(json: CursorJson, appId: string, f: Filters, p: Position, otherApp: string, other: Filters)
    requires Lossless(json) && PositionValid(json, p)
    ensures DecodeCursor(json, otherApp, other, Some(EncodeCursor(json, appId, f, p)))
         == if otherApp == appId && other == f then Resume(p) else InvalidCursor
  {
    var bytes := json.write(CursorBody(appId, f, p));
    DecodeInvertsEncode(bytes);
    EncodedTextIsPlain(bytes);
  }

  // ---------- one page ----------

  datatype Page =
    | Page(items: seq<AuditEvent>, readLimit: nat, readTruncated: bool, cursor: Option<string>)
    | InvalidPagination
    | Internal

  function ReadLimit(q: Query): nat {
    if q.limit < LIST_READ_LIMIT then q.limit else LIST_READ_LIMIT
  }

  function PositionOf(reading: CursorReading): Option<Position> {
    if reading.Resume? then Some(reading.position) else None
  }

  /** The reply to a query, given the rows the pipe returned. */
  ghost function Reply(json: CursorJson, appId: string, q: Query, rows: seq<AuditEvent>): Page {
    var reading := DecodeCursor(json, appId, q.filters, q.cursor);
    var readLimit := ReadLimit(q);
    if reading.InvalidCursor? then InvalidPagination
    else if |rows| > readLimit + 1 then Internal
    else if exists e :: e in rows && e.appId != appId then Internal
    else if !Descending(rows) || !AllBefore(rows, PositionOf(reading)) then Internal
    else
      var items := Take(rows, readLimit);
      var truncated := |rows| > readLimit;
      Page(items, readLimit, truncated,
           if truncated && items != [] then Some(EncodeCursor(json, appId, q.filters, At(items[|items| - 1]))) else None)
  }

  /** The invalid cursor is the caller's fault; rows that are too many, foreign or out of order are the server's; anything else is a page of those rows. */
  lemma ReplyIs(json: CursorJson, appId: string, q: Query, rows: seq<AuditEvent>)
    ensures var page := Reply(json, appId, q, rows);
      var reading := DecodeCursor(json, appId, q.filters, q.cursor);
      var limit := if q.limit < 200 then q.limit else 200;
      var sound := |rows| <= limit + 1 && (forall e :: e in rows ==> e.appId == appId)
                   && Descending(rows) && AllBefore(rows, PositionOf(reading));
      && (page.InvalidPagination? <==> reading.InvalidCursor?)
      && (page.Internal? <==> !reading.InvalidCursor? && !sound)
      && (page.Page? ==>
           && page.items <= rows && |page.items| == (if |rows| < limit then |rows| else limit)
           && page.readLimit == limit && (page.readTruncated <==> |rows| > limit)
           && (page.cursor.Some? <==> |rows| > limit > 0))
  {}

  /** A cursor is taken as none only when it is absent or empty, and resumes only at a valid position of its own query. */
  lemma CursorReads(json: CursorJson, appId: string, f: Filters, cursor: Option<string>)
    ensures var reading := DecodeCursor(json, appId, f, cursor);
      && (reading.NoCursor? <==> cursor.None? || cursor.value == "")
      && (reading.Resume? ==>
           && PositionValid(json, reading.position) && cursor.Some?
           && exists bytes :: DecodeUnpadded(cursor.value) == Some(bytes) && json.read(bytes) == Some(CursorBody(appId, f, reading.position)))
  {}

  method ReadAppAudit(json: CursorJson, appId: string, q: Query, rows: seq<AuditEvent>) returns (page: Page)
    ensures page == Reply(json, appId, q, rows)
  {
    var reading := DecodeCursor(json, appId, q.filters, q.cursor);
    if reading.InvalidCursor? {
      return InvalidPagination;
    }
    var readLimit := ReadLimit(q);
    if |rows| > readLimit + 1 {
      return Internal;
    }
    for i := 0 to |rows|
      invariant forall j :: 0 <= j < i ==> rows[j].appId == appId
    {
      if rows[i].appId != appId {
        assert rows[i] in rows;
        return Internal;
      }
    }
    var ordered := AssertEventOrder(rows, PositionOf(reading));
    if !ordered {
      return Internal;
    }
    var readTruncated := |rows| > readLimit;
    var items := if |rows| <= readLimit then rows else rows[..readLimit];
    var cursor := None;
    if readTruncated && items != [] {
      cursor := Some(EncodeCursor(json, appId, q.filters, At(items[|items| - 1])));
    }
    return Page(items, readLimit, readTruncated, cursor);
  }
}
