/**
 Following cursors from page to page until there is none. The store may grow between two pages:
 everything that matched at the start still comes back exactly once and in order. When it does not
 grow, the pages together are the whole list, and they end.
 */
module AuditPaging {
  import opened Wrappers
  import opened Base64Url
  import opened AppAudit

  /** One page request: the store as the pipe finds it, and the limit asked for. */
  datatype Visit = Visit(store: seq<AuditEvent>, limit: nat)

  ghost predicate ValidStore(json: CursorJson, store: seq<AuditEvent>) {
    Descending(store) && forall e :: e in store ==> PositionValid(json, At(e))
  }

  ghost predicate ValidVisits(json: CursorJson, visits: seq<Visit>) {
    forall v :: v in visits ==> ValidStore(json, v.store) && v.limit > 0
  }

  /** No event of an earlier store is missing from a later one. */
  ghost predicate Growing(visits: seq<Visit>) {
    forall i, j, e :: 0 <= i < j < |visits| && e in visits[i].store ==> e in visits[j].store
  }

  ghost function PageAt(json: CursorJson, appId: string, f: Filters, v: Visit, cursor: Option<string>): Page {
    var q := Query(f, v.limit, cursor);
    var reading := DecodeCursor(json, appId, f, cursor);
    Reply(json, appId, q, Pipe(v.store, appId, f, PositionOf(reading), ReadLimit(q) + 1))
  }

  /** What came back, and whether a page without a cursor ended it. */
  datatype Walk = Walk(items: seq<AuditEvent>, done: bool, failed: bool)

  ghost function Follow(json: CursorJson, appId: string, f: Filters, visits: seq<Visit>, cursor: Option<string>): Walk {
    if visits == [] then Walk([], false, false)
    else
      var page := PageAt(json, appId, f, visits[0], cursor);
      if !page.Page? then Walk([], false, true)
      else if page.cursor.None? then Walk(page.items, true, false)
      else
        var rest := Follow(json, appId, f, visits[1..], page.cursor);
        Walk(page.items + rest.items, rest.done, rest.failed)
  }

  // ---------- one page ----------

  /** The cursor that resumes after `after`; none at the start. */
  predicate CursorFor(json: CursorJson, appId: string, f: Filters, after: Option<Position>, cursor: Option<string>) {
    match after
    case None => cursor.None?
    case Some(p) => PositionValid(json, p) && cursor == Some(EncodeCursor(json, appId, f, p))
  }

  lemma TakeDescends(events: seq<AuditEvent>, limit: nat)
    requires Descending(events)
    ensures Descending(Take(events, limit))
    ensures forall e :: e in Take(events, limit) ==> e in events
  {
    forall e | e in Take(events, limit) ensures e in events {
      var i :| 0 <= i < |Take(events, limit)| && Take(events, limit)[i] == e;
      assert events[i] == e;
    }
  }

  /** Rows in order, of this App and within the limit, are answered with a page. */
  lemma OrderedRowsMakeAPage(json: CursorJson, appId: string, q: Query, rows: seq<AuditEvent>)
    requires !DecodeCursor(json, appId, q.filters, q.cursor).InvalidCursor?
    requires 0 < q.limit && |rows| <= ReadLimit(q) + 1
    requires forall e :: e in rows ==> e.appId == appId
    requires Descending(rows) && AllBefore(rows, PositionOf(DecodeCursor(json, appId, q.filters, q.cursor)))
    ensures var page := Reply(json, appId, q, rows);
      && page.Page? && page.items == Take(rows, ReadLimit(q))
      && page.readLimit == ReadLimit(q) && (page.readTruncated <==> |rows| > ReadLimit(q))
      && (|rows| <= ReadLimit(q) ==> page.cursor.None?)
      && (|rows| > ReadLimit(q) ==>
           page.cursor == Some(EncodeCursor(json, appId, q.filters, At(rows[ReadLimit(q) - 1]))))
  {
    var items := Take(rows, ReadLimit(q));
    if |rows| > ReadLimit(q) {
      assert items != [] && items[|items| - 1] == rows[ReadLimit(q) - 1];
    }
  }

  lemma SelectedRows(store: seq<AuditEvent>, appId: string, f: Filters, after: Option<Position>, limit: nat)
    requires Descending(store)
    ensures var selected, rows := Select(store, appId, f, after), Pipe(store, appId, f, after, limit + 1);
      && Descending(rows) && AllBefore(rows, after)
      && (forall e :: e in rows ==> e.appId == appId && e in store)
      && |rows| <= limit + 1
      && Take(rows, limit) == Take(selected, limit)
      && (|rows| > limit <==> |selected| > limit)
  {
    SelectIs(store, appId, f, after);
    TakeDescends(Select(store, appId, f, after), limit + 1);
  }

  /** A page of a valid store is the first items selected after the cursor, and says whether there are more. */
  lemma PageIs(json: CursorJson, appId: string, f: Filters, v: Visit, after: Option<Position>, cursor: Option<string>)
    requires Lossless(json) && ValidStore(json, v.store) && v.limit > 0
    requires CursorFor(json, appId, f, after, cursor)
    ensures var page := PageAt(json, appId, f, v, cursor);
      var selected := Select(v.store, appId, f, after);
      var limit := ReadLimit(Query(f, v.limit, cursor));
      && limit == (if v.limit < 200 then v.limit else 200)
      && limit > 0 && page.Page? && page.items == Take(selected, limit)
      && page.readLimit == limit && (page.readTruncated <==> |selected| > limit)
      && (|selected| <= limit ==> page.cursor.None?)
      && (|selected| > limit ==>
           && PositionValid(json, At(selected[limit - 1]))
           && page.cursor == Some(EncodeCursor(json, appId, f, At(selected[limit - 1]))))
  {
    if after.Some? {
      CursorIsForItsQuery(json, appId, f, after.value, appId, f);
    }
    var q := Query(f, v.limit, cursor);
    var limit := ReadLimit(q);
    assert PositionOf(DecodeCursor(json, appId, f, cursor)) == after;
    SelectedRows(v.store, appId, f, after, limit);
    OrderedRowsMakeAPage(json, appId, q, Pipe(v.store, appId, f, after, limit + 1));
    var selected := Select(v.store, appId, f, after);
    if |selected| > limit {
      SelectIs(v.store, appId, f, after);
      assert selected[limit - 1] in selected;
      assert Pipe(v.store, appId, f, after, limit + 1)[limit - 1] == selected[limit - 1];
    }
  }

  // ---------- across a page boundary ----------

  /** Selected events are either on the page or before its last item, whatever else has arrived since. */
  lemma BeyondThePage(store: seq<AuditEvent>, later: seq<AuditEvent>, appId: string, f: Filters, after: Option<Position>, limit: nat)
    requires Descending(store) && Descending(later) && 0 < limit < |Select(store, appId, f, after)|
    requires forall e :: e in store ==> e in later
    ensures var selected := Select(store, appId, f, after);
      var last := At(selected[limit - 1]);
      && (forall e :: e in selected && e !in selected[..limit] ==> e in Select(later, appId, f, Some(last)))
      && (forall e :: e in Select(later, appId, f, Some(last)) ==> Selected(e, appId, f, after))
  {
    var selected := Select(store, appId, f, after);
    var last := At(selected[limit - 1]);
    SelectIs(store, appId, f, after);
    SelectIs(later, appId, f, Some(last));
    assert selected[limit - 1] in selected;
    forall e | e in selected && e !in selected[..limit] ensures e in Select(later, appId, f, Some(last)) {
      assert forall k :: 0 <= k < limit ==> selected[k] in selected[..limit];
      var i :| 0 <= i < |selected| && selected[i] == e;
      assert IsBefore(At(selected[i]), At(selected[limit - 1]));
    }
    forall e | e in Select(later, appId, f, Some(last)) ensures Selected(e, appId, f, after) {
      if after.Some? {
        BeforeIsStrictOrder(At(e), last, after.value);
      }
    }
  }

  lemma AppendDescends(page: seq<AuditEvent>, rest: seq<AuditEvent>)
    requires Descending(page) && Descending(rest) && page != []
    requires forall e :: e in rest ==> IsBefore(At(e), At(page[|page| - 1]))
    ensures Descending(page + rest)
  {
    var all := page + rest;
    forall i, j | 0 <= i < j < |all| ensures IsBefore(At(all[j]), At(all[i])) {
      if i < |page| <= j {
        assert rest[j - |page|] in rest;
        if i < |page| - 1 {
          BeforeIsStrictOrder(At(all[j]), At(page[|page| - 1]), At(all[i]));
        }
      }
    }
  }

  // ---------- whole walks ----------

  /** What a walk after `after` returns: ordered, selected, and everything that was there from the start. */
  ghost predicate WalkCovers(visits: seq<Visit>, appId: string, f: Filters, after: Option<Position>, w: Walk)
    requires visits != []
  {
    && !w.failed
    && Descending(w.items)
    && (forall e :: e in w.items ==> Selected(e, appId, f, after) && exists v :: v in visits && e in v.store)
    && (w.done ==> forall e :: e in visits[0].store && Selected(e, appId, f, after) ==> e in w.items)
  }

  lemma {:induction false} FollowCovers(json: CursorJson, appId: string, f: Filters, visits: seq<Visit>,
                                        after: Option<Position>, cursor: Option<string>)
    requires Lossless(json) && visits != [] && ValidVisits(json, visits) && Growing(visits)
    requires CursorFor(json, appId, f, after, cursor)
    ensures WalkCovers(visits, appId, f, after, Follow(json, appId, f, visits, cursor))
    decreases |visits|
  {
    var v := visits[0];
    assert v in visits;
    PageIs(json, appId, f, v, after, cursor);
    var page := PageAt(json, appId, f, v, cursor);
    var selected := Select(v.store, appId, f, after);
    var limit := ReadLimit(Query(f, v.limit, cursor));
    SelectIs(v.store, appId, f, after);
    TakeDescends(selected, limit);
    if page.cursor.Some? {
      assert page.items == selected[..limit];
      if |visits| > 1 {
        var last := At(selected[limit - 1]);
        assert forall u :: u in visits[1..] ==> u in visits;
        assert visits[1..][0] == visits[1] && visits[1] in visits;
        FollowCovers(json, appId, f, visits[1..], Some(last), page.cursor);
        StepCovers(visits, appId, f, after, limit, Follow(json, appId, f, visits[1..], page.cursor));
      }
    }
  }

  lemma StepCovers(visits: seq<Visit>, appId: string, f: Filters, after: Option<Position>, limit: nat, rest: Walk)
    requires |visits| > 1 && Growing(visits) && Descending(visits[0].store) && Descending(visits[1].store)
    requires 0 < limit < |Select(visits[0].store, appId, f, after)|
    requires WalkCovers(visits[1..], appId, f, Some(At(Select(visits[0].store, appId, f, after)[limit - 1])), rest)
    ensures WalkCovers(visits, appId, f, after,
                       Walk(Select(visits[0].store, appId, f, after)[..limit] + rest.items, rest.done, rest.failed))
  {
    var store := visits[0].store;
    var selected := Select(store, appId, f, after);
    var page, last := selected[..limit], At(selected[limit - 1]);
    SelectIs(store, appId, f, after);
    assert page == Take(selected, limit);
    TakeDescends(selected, limit);
    assert forall e :: e in store ==> e in visits[1].store;
    BeyondThePage(store, visits[1].store, appId, f, after, limit);
    assert selected[limit - 1] in selected;
    AppendDescends(page, rest.items);
    forall e | e in page + rest.items
      ensures Selected(e, appId, f, after) && exists v :: v in visits && e in v.store
    {
      if e in page {
        assert visits[0] in visits && e in visits[0].store;
      } else {
        var v :| v in visits[1..] && e in v.store;
        assert v in visits;
        if after.Some? {
          BeforeIsStrictOrder(At(e), last, after.value);
        }
      }
    }
    if rest.done {
      SelectIs(visits[1].store, appId, f, Some(last));
      forall e | e in store && Selected(e, appId, f, after) ensures e in page + rest.items {
        if e !in page {
          assert e in Select(visits[1].store, appId, f, Some(last));
        }
      }
    }
  }

  /**
   Paging over a store that only grows: no page fails, no event comes back twice or out of order,
   none that does not match, and once a page has no cursor every event that matched at the start
   has come back.
   */
  lemma PagingMissesNothing(json: CursorJson, appId: string, f: Filters, visits: seq<Visit>)
    requires Lossless(json) && visits != [] && ValidVisits(json, visits) && Growing(visits)
    ensures var w := Follow(json, appId, f, visits, None);
      && !w.failed && Descending(w.items)
      && (forall e :: e in w.items ==> Selected(e, appId, f, None) && exists v :: v in visits && e in v.store)
      && (w.done ==> forall e :: e in visits[0].store && Selected(e, appId, f, None) ==> e in w.items)
  {
    FollowCovers(json, appId, f, visits, None, None);
  }

  // ---------- a store that stays ----------

  /** Selecting after an item of a selection gives the rest of the selection. */
  lemma {:induction false} SelectRest(store: seq<AuditEvent>, appId: string, f: Filters, after: Option<Position>, i: nat)
    requires Descending(store) && i < |Select(store, appId, f, after)|
    ensures Select(store, appId, f, Some(At(Select(store, appId, f, after)[i]))) == Select(store, appId, f, after)[i + 1..]
  {
    var selected, rest := Select(store, appId, f, after), Select(store[1..], appId, f, after);
    if !Selected(store[0], appId, f, after) {
      assert selected == rest;
      SelectRest(store[1..], appId, f, after, i);
      SkippedStaysSkipped(store, appId, f, after, selected[i]);
    } else if i == 0 {
      assert selected[1..] == rest;
      FirstIsNotAfter(store, store[0]);
      SelectAll(store[1..], appId, f, after, Some(At(store[0])));
    } else {
      assert selected[1..] == rest && selected[i] == rest[i - 1];
      SelectRest(store[1..], appId, f, after, i - 1);
      SelectIs(store, appId, f, after);
      assert selected[i] in selected;
      FirstIsNotAfter(store, selected[i]);
    }
  }

  lemma SkippedStaysSkipped(store: seq<AuditEvent>, appId: string, f: Filters, after: Option<Position>, e: AuditEvent)
    requires store != [] && !Selected(store[0], appId, f, after)
    requires e in Select(store, appId, f, after)
    ensures !Selected(store[0], appId, f, Some(At(e)))
  {
    SelectIs(store, appId, f, after);
    if after.Some? {
      BeforeIsStrictOrder(At(store[0]), At(e), after.value);
    }
  }

  lemma FirstIsNotAfter(store: seq<AuditEvent>, e: AuditEvent)
    requires Descending(store) && store != [] && e in store
    ensures !IsBefore(At(store[0]), At(e))
  {
    var i :| 0 <= i < |store| && store[i] == e;
    BeforeIsStrictOrder(At(store[0]), At(e), At(store[0]));
    BeforeIsStrictOrder(At(store[0]), At(store[0]), At(store[0]));
  }

  /** Below a position every store item is before, selecting after it is selecting after an earlier one. */
  lemma {:induction false} SelectAll(store: seq<AuditEvent>, appId: string, f: Filters, after: Option<Position>, p: Option<Position>)
    requires p.Some? && AllBefore(store, p)
    requires after.Some? ==> IsBefore(p.value, after.value)
    ensures Select(store, appId, f, p) == Select(store, appId, f, after)
  {
    if store != [] {
      assert store[0] in store;
      assert forall e :: e in store[1..] ==> e in store;
      SelectAll(store[1..], appId, f, after, p);
      if after.Some? {
        BeforeIsStrictOrder(At(store[0]), p.value, after.value);
      }
    }
  }

  lemma FollowStep(json: CursorJson, appId: string, f: Filters, visits: seq<Visit>, cursor: Option<string>, page: Page)
    requires visits != [] && page == PageAt(json, appId, f, visits[0], cursor) && page.Page?
    ensures page.cursor.None? ==> Follow(json, appId, f, visits, cursor) == Walk(page.items, true, false)
    ensures page.cursor.Some? ==>
      var rest := Follow(json, appId, f, visits[1..], page.cursor);
      Follow(json, appId, f, visits, cursor) == Walk(page.items + rest.items, rest.done, rest.failed)
  {}

  lemma SplitSelection(store: seq<AuditEvent>, appId: string, f: Filters, after: Option<Position>, limit: nat)
    requires Descending(store) && 0 < limit < |Select(store, appId, f, after)|
    ensures var selected := Select(store, appId, f, after);
      var page := Take(selected, limit);
      page != [] && page + Select(store, appId, f, Some(At(selected[limit - 1]))) == selected
  {
    SelectRest(store, appId, f, after, limit - 1);
  }

  /** A page either ends the walk with all that is selected, or hands on a cursor for exactly the rest. */
  lemma StaticPage(json: CursorJson, appId: string, f: Filters, v: Visit, after: Option<Position>, cursor: Option<string>)
    returns (page: Page, last: Option<Position>)
    requires Lossless(json) && ValidStore(json, v.store) && v.limit > 0 && CursorFor(json, appId, f, after, cursor)
    ensures page == PageAt(json, appId, f, v, cursor) && page.Page?
    ensures page.cursor.None? ==> page.items == Select(v.store, appId, f, after)
    ensures page.cursor.Some? ==>
      && CursorFor(json, appId, f, last, page.cursor)
      && page.items + Select(v.store, appId, f, last) == Select(v.store, appId, f, after)
      && page.items != []
  {
    PageIs(json, appId, f, v, after, cursor);
    page, last := PageAt(json, appId, f, v, cursor), None;
    var selected := Select(v.store, appId, f, after);
    var limit := ReadLimit(Query(f, v.limit, cursor));
    if |selected| > limit {
      last := Some(At(selected[limit - 1]));
      SplitSelection(v.store, appId, f, after, limit);
    }
  }

  lemma {:induction false} FollowStatic(json: CursorJson, appId: string, f: Filters, store: seq<AuditEvent>, visits: seq<Visit>,
                                        after: Option<Position>, cursor: Option<string>)
    requires Lossless(json) && ValidStore(json, store)
    requires forall v :: v in visits ==> v.store == store && v.limit > 0
    requires |visits| > |Select(store, appId, f, after)|
    requires CursorFor(json, appId, f, after, cursor)
    ensures Follow(json, appId, f, visits, cursor) == Walk(Select(store, appId, f, after), true, false)
    decreases |visits|
  {
    assert visits[0] in visits;
    var page, last := StaticPage(json, appId, f, visits[0], after, cursor);
    FollowStep(json, appId, f, visits, cursor, page);
    if page.cursor.Some? {
      var rest := Select(store, appId, f, last);
      assert |page.items + rest| == |Select(store, appId, f, after)|;
      assert forall v :: v in visits[1..] ==> v in visits;
      FollowStatic(json, appId, f, store, visits[1..], last, page.cursor);
    }
  }

  /**
   Paging over a store that stays: whatever positive limit each page has, one visit more than there
   are matching events is enough to end, and the pages together are exactly the matching events.
   */
  lemma PagingIsTheWholeList(json: CursorJson, appId: string, f: Filters, store: seq<AuditEvent>, visits: seq<Visit>)
    requires Lossless(json) && ValidStore(json, store)
    requires forall v :: v in visits ==> v.store == store && v.limit > 0
    requires |visits| > |Select(store, appId, f, None)|
    ensures Follow(json, appId, f, visits, None) == Walk(Select(store, appId, f, None), true, false)
  {
    FollowStatic(json, appId, f, store, visits, None, None);
  }
}
