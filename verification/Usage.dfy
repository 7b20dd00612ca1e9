/**
 Usage of one Organization: evaluations added up once in total and once along each of seven
 dimensions. Counts are kept in insertion order, as a JavaScript map keeps them, and sorted by key.
 */
module Usage {
  import opened Wrappers

  datatype UsageRow = UsageRow(
    appId: string, environmentId: string, flagKey: string, sdkRuntime: string,
    mode: string, source: string, exposure: string, evaluations: nat)

  datatype Dimension = ByApp | ByEnvironment | ByFlag | BySdkRuntime | ByBatch | BySource | ByExposure

  function Key(r: UsageRow, d: Dimension): string {
    match d
    case ByApp => r.appId
    case ByEnvironment => r.environmentId
    case ByFlag => r.flagKey
    case BySdkRuntime => r.sdkRuntime
    case ByBatch => r.mode
    case BySource => r.source
    case ByExposure => r.exposure
  }

  datatype Count = Count(key: string, evaluations: nat)

  type Counts = seq<Count>

  // ---------- counting ----------

  function AddCount(counts: Counts, key: string, value: nat): Counts {
    if counts == [] then [Count(key, value)]
    else if counts[0].key == key then [Count(key, counts[0].evaluations + value)] + counts[1..]
    else [counts[0]] + AddCount(counts[1..], key, value)
  }

  function Tally(rows: seq<UsageRow>, d: Dimension): Counts {
    if rows == [] then []
    else
      var last := rows[|rows| - 1];
      AddCount(Tally(rows[..|rows| - 1], d), Key(last, d), last.evaluations)
  }

  function Total(rows: seq<UsageRow>): nat {
    if rows == [] then 0 else Total(rows[..|rows| - 1]) + rows[|rows| - 1].evaluations
  }

  function Sum(counts: Counts): nat {
    if counts == [] then 0 else counts[0].evaluations + Sum(counts[1..])
  }

  // ---------- sorting by key ----------

  /** `left.localeCompare(right) <= 0`; which texts come first is the platform's. */
  datatype Order = Order(le: (string, string) -> bool)

  ghost predicate TotalOrder(o: Order) {
    && (forall a, b :: o.le(a, b) || o.le(b, a))
    && (forall a, b, c :: o.le(a, b) && o.le(b, c) ==> o.le(a, c))
    && (forall a, b :: o.le(a, b) && o.le(b, a) ==> a == b)
  }

  function Insert(o: Order, c: Count, sorted: Counts): Counts {
    if sorted == [] then [c]
    else if o.le(c.key, sorted[0].key) then [c] + sorted
    else [sorted[0]] + Insert(o, c, sorted[1..])
  }

  /** A stable sort of the entries. */
  function SortCounts(o: Order, counts: Counts): Counts {
    if counts == [] then [] else Insert(o, counts[0], SortCounts(o, counts[1..]))
  }

  // ---------- the response ----------

  datatype Breakdown = Breakdown(
    byApp: Counts, byEnvironment: Counts, byFlag: Counts, bySdkRuntime: Counts,
    byBatch: Counts, bySource: Counts, byExposure: Counts)

  function Along(b: Breakdown, d: Dimension): Counts {
    match d
    case ByApp => b.byApp
    case ByEnvironment => b.byEnvironment
    case ByFlag => b.byFlag
    case BySdkRuntime => b.bySdkRuntime
    case ByBatch => b.byBatch
    case BySource => b.bySource
    case ByExposure => b.byExposure
  }

  datatype Response = Populated(evaluations: nat, breakdown: Breakdown) | Zero(breakdown: Breakdown) | Isolation | Invalid

  /** A row as it arrives: of another Organization, malformed, or a usage row. */
  datatype Raw = Foreign | Malformed | Row(row: UsageRow)

  function Tallies(rows: seq<UsageRow>): Breakdown {
    Breakdown(Tally(rows, ByApp), Tally(rows, ByEnvironment), Tally(rows, ByFlag), Tally(rows, BySdkRuntime),
              Tally(rows, ByBatch), Tally(rows, BySource), Tally(rows, ByExposure))
  }

  function SortAll(o: Order, b: Breakdown): Breakdown {
    Breakdown(SortCounts(o, b.byApp), SortCounts(o, b.byEnvironment), SortCounts(o, b.byFlag),
              SortCounts(o, b.bySdkRuntime), SortCounts(o, b.byBatch), SortCounts(o, b.bySource),
              SortCounts(o, b.byExposure))
  }

  function Usage(o: Order, rows: seq<UsageRow>): Response {
    var b := SortAll(o, Tallies(rows));
    if rows == [] then Zero(b) else Populated(Total(rows), b)
  }

  lemma TallyNext(seen: seq<UsageRow>, r: UsageRow, d: Dimension)
    ensures Tally(seen + [r], d) == AddCount(Tally(seen, d), Key(r, d), r.evaluations)
    ensures Total(seen + [r]) == Total(seen) + r.evaluations
  {
    assert (seen + [r])[..|seen + [r]| - 1] == seen;
  }

  lemma TalliesNext(seen: seq<UsageRow>, r: UsageRow)
    ensures Total(seen + [r]) == Total(seen) + r.evaluations
    ensures Tallies(seen + [r]) == Breakdown(
      AddCount(Tally(seen, ByApp), r.appId, r.evaluations),
      AddCount(Tally(seen, ByEnvironment), r.environmentId, r.evaluations),
      AddCount(Tally(seen, ByFlag), r.flagKey, r.evaluations),
      AddCount(Tally(seen, BySdkRuntime), r.sdkRuntime, r.evaluations),
      AddCount(Tally(seen, ByBatch), r.mode, r.evaluations),
      AddCount(Tally(seen, BySource), r.source, r.evaluations),
      AddCount(Tally(seen, ByExposure), r.exposure, r.evaluations))
  {
    TallyNext(seen, r, ByApp);
    TallyNext(seen, r, ByEnvironment);
    TallyNext(seen, r, ByFlag);
    TallyNext(seen, r, BySdkRuntime);
    TallyNext(seen, r, ByBatch);
    TallyNext(seen, r, BySource);
    TallyNext(seen, r, ByExposure);
  }

  /** The running aggregate, updated row by row. */
  class Aggregate {
    var evaluations: nat
    var rows: nat
    var byApp: Counts
    var byEnvironment: Counts
    var byFlag: Counts
    var bySdkRuntime: Counts
    var byBatch: Counts
    var bySource: Counts
    var byExposure: Counts

    constructor ()
      ensures Holds([])
    {
      evaluations, rows := 0, 0;
      byApp, byEnvironment, byFlag, bySdkRuntime := [], [], [], [];
      byBatch, bySource, byExposure := [], [], [];
    }

    predicate Holds(seen: seq<UsageRow>)
      reads this
    {
      && evaluations == Total(seen) && rows == |seen|
      && Breakdown(byApp, byEnvironment, byFlag, bySdkRuntime, byBatch, bySource, byExposure) == Tallies(seen)
    }

    method Add(r: UsageRow, ghost seen: seq<UsageRow>)
      requires Holds(seen)
      modifies this
      ensures Holds(seen + [r])
    {
      TalliesNext(seen, r);
      evaluations := evaluations + r.evaluations;
      byApp := AddCount(byApp, r.appId, r.evaluations);
      byEnvironment := AddCount(byEnvironment, r.environmentId, r.evaluations);
      byFlag := AddCount(byFlag, r.flagKey, r.evaluations);
      bySdkRuntime := AddCount(bySdkRuntime, r.sdkRuntime, r.evaluations);
      byBatch := AddCount(byBatch, r.mode, r.evaluations);
      bySource := AddCount(bySource, r.source, r.evaluations);
      byExposure := AddCount(byExposure, r.exposure, r.evaluations);
      rows := rows + 1;
    }
  }

  function RowsOf(raws: seq<Raw>): seq<UsageRow>
    requires forall r :: r in raws ==> r.Row?
  {
    seq(|raws|, i requires 0 <= i < |raws| => (assert raws[i] in raws; raws[i].row))
  }

  /** The first row that is not a usage row ends the read; otherwise the rows are added up. */
  method ReadUsageFromTinybird(o: Order, raws: seq<Raw>) returns (r: Response)
    ensures (forall x :: x in raws ==> x.Row?) ==> r == Usage(o, RowsOf(raws))
    ensures (exists x :: x in raws && !x.Row?) ==>
      exists i :: 0 <= i < |raws| && !raws[i].Row? && (forall j :: 0 <= j < i ==> raws[j].Row?)
                  && r == (if raws[i].Foreign? then Isolation else Invalid)
  {
    var aggregate := new Aggregate();
    ghost var seen := [];
    for i := 0 to |raws|
      invariant forall j :: 0 <= j < i ==> raws[j].Row?
      invariant |seen| == i && forall j :: 0 <= j < i ==> seen[j] == raws[j].row
      invariant fresh(aggregate) && aggregate.Holds(seen)
    {
      if !raws[i].Row? {
        assert raws[i] in raws;
        return if raws[i].Foreign? then Isolation else Invalid;
      }
      aggregate.Add(raws[i].row, seen);
      seen := seen + [raws[i].row];
    }
    assert forall x :: x in raws ==> x.Row?;
    assert seen == RowsOf(raws);
    var b := Breakdown(
      SortCounts(o, aggregate.byApp), SortCounts(o, aggregate.byEnvironment), SortCounts(o, aggregate.byFlag),
      SortCounts(o, aggregate.bySdkRuntime), SortCounts(o, aggregate.byBatch), SortCounts(o, aggregate.bySource),
      SortCounts(o, aggregate.byExposure));
    return if aggregate.rows == 0 then Zero(b) else Populated(aggregate.evaluations, b);
  }

  // ---------- what a tally holds ----------

  predicate Distinct(counts: Counts) {
    forall i, j :: 0 <= i < j < |counts| ==> counts[i].key != counts[j].key
  }

  /** The evaluations of the rows with this key. */
  function KeyTotal(rows: seq<UsageRow>, d: Dimension, key: string): nat {
    if rows == [] then 0
    else KeyTotal(rows[..|rows| - 1], d, key)
         + if Key(rows[|rows| - 1], d) == key then rows[|rows| - 1].evaluations else 0
  }

  predicate Has(counts: Counts, key: string) {
    counts != [] && (counts[0].key == key || Has(counts[1..], key))
  }

  function Held(counts: Counts, key: string): nat {
    if counts == [] then 0
    else if counts[0].key == key then counts[0].evaluations
    else Held(counts[1..], key)
  }

  lemma {:induction false} AddCountHolds(counts: Counts, key: string, value: nat, other: string)
    ensures var after := AddCount(counts, key, value);
      && (Has(after, other) <==> other == key || Has(counts, other))
      && Held(after, other) == Held(counts, other) + (if other == key then value else 0)
      && Sum(after) == Sum(counts) + value
  {
    if counts == [] {
      assert AddCount(counts, key, value)[1..] == [];
    } else if counts[0].key == key {
      assert AddCount(counts, key, value)[1..] == counts[1..];
    } else {
      AddCountHolds(counts[1..], key, value, other);
      assert AddCount(counts, key, value)[1..] == AddCount(counts[1..], key, value);
    }
  }

  lemma {:induction false} HasIs(counts: Counts, key: string)
    ensures Has(counts, key) <==> exists c :: c in counts && c.key == key
  {
    if counts != [] {
      HasIs(counts[1..], key);
      assert counts[0] in counts;
      assert forall c :: c in counts <==> c == counts[0] || c in counts[1..];
    }
  }

  /** With distinct keys, the entries are exactly the keys held with what is held under them. */
  lemma {:induction false} EntriesAreHeld(counts: Counts, c: Count)
    requires Distinct(counts)
    ensures c in counts <==> Has(counts, c.key) && c.evaluations == Held(counts, c.key)
  {
    if counts != [] {
      assert c in counts <==> c == counts[0] || c in counts[1..];
      EntriesAreHeld(counts[1..], c);
      HasIs(counts[1..], counts[0].key);
      assert forall i :: 0 <= i < |counts[1..]| ==> counts[1..][i] == counts[i + 1];
      if counts[0].key == c.key && c != counts[0] && c in counts[1..] {
        assert false;
      }
    }
  }

  lemma {:induction false} AddCountDistinct(counts: Counts, key: string, value: nat)
    requires Distinct(counts)
    ensures Distinct(AddCount(counts, key, value))
  {
    if counts != [] && counts[0].key != key {
      AddCountDistinct(counts[1..], key, value);
      var tail := AddCount(counts[1..], key, value);
      forall j | 0 <= j < |tail| ensures tail[j].key != counts[0].key {
        assert tail[j] in tail;
        HasIs(tail, tail[j].key);
        AddCountHolds(counts[1..], key, value, tail[j].key);
        HasIs(counts[1..], tail[j].key);
        assert forall i :: 0 <= i < |counts[1..]| ==> counts[1..][i] == counts[i + 1];
      }
    }
  }

  lemma {:induction false} TallyHolds(rows: seq<UsageRow>, d: Dimension, key: string)
    ensures var counts := Tally(rows, d);
      && Distinct(counts) && Sum(counts) == Total(rows)
      && (Has(counts, key) <==> exists r :: r in rows && Key(r, d) == key)
      && Held(counts, key) == KeyTotal(rows, d, key)
    decreases |rows|
  {
    if rows != [] {
      var init, last := rows[..|rows| - 1], rows[|rows| - 1];
      TallyHolds(init, d, key);
      AddCountHolds(Tally(init, d), Key(last, d), last.evaluations, key);
      AddCountDistinct(Tally(init, d), Key(last, d), last.evaluations);
      assert forall r :: r in rows <==> r in init || r == last;
    }
  }

  /** Each key once, with exactly the evaluations of its rows, and the sum of all rows overall. */
  lemma TallyIs(rows: seq<UsageRow>, d: Dimension)
    ensures var counts := Tally(rows, d);
      && Distinct(counts) && Sum(counts) == Total(rows)
      && (forall c :: c in counts <==>
            (exists r :: r in rows && Key(r, d) == c.key) && c.evaluations == KeyTotal(rows, d, c.key))
  {
    TallyHolds(rows, d, "");
    forall c ensures c in Tally(rows, d) <==>
      (exists r :: r in rows && Key(r, d) == c.key) && c.evaluations == KeyTotal(rows, d, c.key)
    {
      TallyHolds(rows, d, c.key);
      EntriesAreHeld(Tally(rows, d), c);
    }
  }

  // ---------- what sorting keeps ----------

  lemma {:induction false} InsertIs(o: Order, c: Count, sorted: Counts)
    requires forall b :: b in sorted ==> b.key != c.key
    requires Distinct(sorted)
    ensures var after := Insert(o, c, sorted);
      && (forall b :: b in after <==> b == c || b in sorted)
      && Distinct(after) && Sum(after) == Sum(sorted) + c.evaluations && |after| == |sorted| + 1
  {
    if sorted != [] {
      assert forall b :: b in sorted <==> b == sorted[0] || b in sorted[1..];
      InsertIs(o, c, sorted[1..]);
      var after := Insert(o, c, sorted);
      if o.le(c.key, sorted[0].key) {
        assert after[1..] == sorted;
      } else {
        var tail := Insert(o, c, sorted[1..]);
        assert after[1..] == tail;
        forall j | 0 <= j < |tail| ensures tail[j].key != sorted[0].key {
          assert tail[j] in tail;
          if tail[j] != c {
            var i :| 0 <= i < |sorted[1..]| && sorted[1..][i] == tail[j];
            assert sorted[i + 1] == tail[j];
          }
        }
      }
    } else {
      assert Insert(o, c, sorted)[1..] == [];
    }
  }

  lemma {:induction false} SortKeeps(o: Order, counts: Counts)
    requires Distinct(counts)
    ensures var s := SortCounts(o, counts);
      && (forall b :: b in s <==> b in counts)
      && Distinct(s) && Sum(s) == Sum(counts) && |s| == |counts|
  {
    if counts != [] {
      assert Distinct(counts[1..]);
      SortKeeps(o, counts[1..]);
      assert forall b :: b in counts <==> b == counts[0] || b in counts[1..];
      forall b | b in SortCounts(o, counts[1..]) ensures b.key != counts[0].key {
        var i :| 0 <= i < |counts[1..]| && counts[1..][i] == b;
        assert counts[i + 1] == b;
      }
      InsertIs(o, counts[0], SortCounts(o, counts[1..]));
    }
  }

  ghost predicate Ascending(o: Order, counts: Counts) {
    forall i, j :: 0 <= i < j < |counts| ==> o.le(counts[i].key, counts[j].key)
  }

  lemma {:induction false} InsertAscends(o: Order, c: Count, sorted: Counts)
    requires TotalOrder(o) && Ascending(o, sorted)
    ensures Ascending(o, Insert(o, c, sorted))
    ensures forall b :: b in Insert(o, c, sorted) <==> b == c || b in sorted
  {
    if sorted != [] {
      InsertAscends(o, c, sorted[1..]);
      assert forall b :: b in sorted <==> b == sorted[0] || b in sorted[1..];
      var tail := Insert(o, c, sorted[1..]);
      if o.le(c.key, sorted[0].key) {
        forall j | 0 <= j < |sorted| ensures o.le(c.key, sorted[j].key) {
          assert j == 0 || o.le(sorted[0].key, sorted[j].key);
        }
      } else {
        forall j | 0 <= j < |tail| ensures o.le(sorted[0].key, tail[j].key) {
          assert tail[j] in tail;
          if tail[j] != c {
            var i :| 0 <= i < |sorted[1..]| && sorted[1..][i] == tail[j];
            assert sorted[i + 1] == tail[j];
          }
        }
      }
    }
  }

  lemma {:induction false} SortAscends(o: Order, counts: Counts)
    requires TotalOrder(o)
    ensures Ascending(o, SortCounts(o, counts))
  {
    if counts != [] {
      SortAscends(o, counts[1..]);
      InsertAscends(o, counts[0], SortCounts(o, counts[1..]));
    }
  }

  lemma TailMembers(counts: Counts, c: Count)
    requires counts != [] && Distinct(counts)
    ensures c in counts[1..] <==> c in counts && c != counts[0]
  {
    assert counts == [counts[0]] + counts[1..];
    assert forall k :: 0 <= k < |counts[1..]| ==> counts[1..][k] == counts[k + 1];
  }

  /** A list with distinct keys in a total order is fixed by its members. */
  lemma {:induction false} AscendingIsUnique(o: Order, a: Counts, b: Counts)
    requires TotalOrder(o) && Ascending(o, a) && Ascending(o, b) && Distinct(a) && Distinct(b)
    requires forall c :: c in a <==> c in b
    ensures a == b
    decreases |a|
  {
    if a == [] {
      assert forall k :: 0 <= k < |b| ==> b[k] in b;
    } else {
      assert a[0] in a && a[0] in b;
      assert b[0] in b && b[0] in a;
      var i :| 0 <= i < |b| && b[i] == a[0];
      var j :| 0 <= j < |a| && a[j] == b[0];
      assert o.le(b[0].key, a[0].key) && o.le(a[0].key, b[0].key);
      assert a[0] == b[0];
      forall c ensures c in a[1..] <==> c in b[1..] {
        TailMembers(a, c);
        TailMembers(b, c);
      }
      AscendingIsUnique(o, a[1..], b[1..]);
      assert a == [a[0]] + a[1..] && b == [b[0]] + b[1..];
    }
  }

  // ---------- main results ----------

  /**
   Conservation: each of the seven breakdowns holds each key once, with exactly the evaluations of
   that key's rows, and adds up to the total.
   */
  lemma UsageIsConserved(o: Order, rows: seq<UsageRow>, d: Dimension)
    ensures var counts := Along(Usage(o, rows).breakdown, d);
      && Distinct(counts) && Sum(counts) == Total(rows)
      && (forall c :: c in counts <==>
            (exists r :: r in rows && Key(r, d) == c.key) && c.evaluations == KeyTotal(rows, d, c.key))
  {
    TallyIs(rows, d);
    SortKeeps(o, Tally(rows, d));
    assert Along(Usage(o, rows).breakdown, d) == SortCounts(o, Tally(rows, d));
  }

  /** The response's own count is what each of its seven breakdowns adds up to; without rows it is zero. */
  lemma ResponseAddsUp(o: Order, rows: seq<UsageRow>, d: Dimension)
    ensures rows == [] ==> Usage(o, rows).Zero? && Along(Usage(o, rows).breakdown, d) == []
    ensures rows != [] ==> Usage(o, rows).Populated? && Usage(o, rows).evaluations == Sum(Along(Usage(o, rows).breakdown, d))
  {
    UsageIsConserved(o, rows, d);
  }

  /** Under a total order every breakdown ascends by key. */
  lemma BreakdownsAscend(o: Order, rows: seq<UsageRow>, d: Dimension)
    requires TotalOrder(o)
    ensures Ascending(o, Along(Usage(o, rows).breakdown, d))
  {
    SortAscends(o, Tally(rows, d));
  }

  lemma {:induction false} KeyTotalSplit(a: seq<UsageRow>, b: seq<UsageRow>, d: Dimension, key: string)
    ensures KeyTotal(a + b, d, key) == KeyTotal(a, d, key) + KeyTotal(b, d, key)
    ensures Total(a + b) == Total(a) + Total(b)
    decreases |b|
  {
    if b == [] {
      assert a + b == a;
    } else {
      assert (a + b)[..|a + b| - 1] == a + b[..|b| - 1];
      KeyTotalSplit(a, b[..|b| - 1], d, key);
    }
  }

  /** Taking one row out takes exactly its evaluations out. */
  lemma TakeOut(rows: seq<UsageRow>, r: UsageRow, d: Dimension, key: string) returns (rest: seq<UsageRow>)
    requires r in rows
    ensures multiset(rows) == multiset(rest) + multiset{r}
    ensures KeyTotal(rows, d, key) == KeyTotal(rest, d, key) + (if Key(r, d) == key then r.evaluations else 0)
    ensures Total(rows) == Total(rest) + r.evaluations
  {
    var i :| 0 <= i < |rows| && rows[i] == r;
    var left, right := rows[..i], rows[i + 1..];
    rest := left + right;
    assert rows == left + [r] + right;
    KeyTotalSplit(left, right, d, key);
    KeyTotalSplit(left + [r], right, d, key);
    KeyTotalSplit(left, [r], d, key);
    assert [r][..0] == [];
  }

  lemma {:induction false} TotalsOfMultiset(a: seq<UsageRow>, b: seq<UsageRow>, d: Dimension, key: string)
    requires multiset(a) == multiset(b)
    ensures KeyTotal(a, d, key) == KeyTotal(b, d, key) && Total(a) == Total(b)
    decreases |a|
  {
    if a == [] {
      assert |multiset(b)| == 0;
      assert |b| == 0;
    } else {
      var init, last := a[..|a| - 1], a[|a| - 1];
      assert a == init + [last];
      assert last in multiset(b);
      var rest := TakeOut(b, last, d, key);
      assert multiset(init) == multiset(a) - multiset{last};
      assert multiset(rest) == multiset(b) - multiset{last};
      TotalsOfMultiset(init, rest, d, key);
    }
  }

  lemma OneDimensionIsOrderFree(o: Order, a: seq<UsageRow>, b: seq<UsageRow>, d: Dimension)
    requires TotalOrder(o) && multiset(a) == multiset(b)
    ensures SortCounts(o, Tally(a, d)) == SortCounts(o, Tally(b, d))
  {
    TallyIs(a, d);
    TallyIs(b, d);
    SortKeeps(o, Tally(a, d));
    SortKeeps(o, Tally(b, d));
    SortAscends(o, Tally(a, d));
    SortAscends(o, Tally(b, d));
    assert forall r :: r in a <==> r in multiset(a);
    assert forall r :: r in b <==> r in multiset(b);
    forall c ensures c in Tally(a, d) <==> c in Tally(b, d) {
      TotalsOfMultiset(a, b, d, c.key);
    }
    AscendingIsUnique(o, SortCounts(o, Tally(a, d)), SortCounts(o, Tally(b, d)));
  }

  /** The response does not depend on the order the rows arrived in. */
  lemma UsageIsOrderFree(o: Order, a: seq<UsageRow>, b: seq<UsageRow>)
    requires TotalOrder(o) && multiset(a) == multiset(b)
    ensures Usage(o, a) == Usage(o, b)
  {
    TotalsOfMultiset(a, b, ByApp, "");
    assert |a| == |multiset(a)| && |b| == |multiset(b)|;
    OneDimensionIsOrderFree(o, a, b, ByApp);
    OneDimensionIsOrderFree(o, a, b, ByEnvironment);
    OneDimensionIsOrderFree(o, a, b, ByFlag);
    OneDimensionIsOrderFree(o, a, b, BySdkRuntime);
    OneDimensionIsOrderFree(o, a, b, ByBatch);
    OneDimensionIsOrderFree(o, a, b, BySource);
    OneDimensionIsOrderFree(o, a, b, ByExposure);
  }
}
