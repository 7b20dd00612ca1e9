/**
 A refusal is always earned: in every run, a call refused for the global ceiling finds that many
 admissions in the hour before it, and one refused for its address finds that many of its own. So a
 call with room on both counts is admitted.
 */
module LimitRefusals {
  import opened Wrappers
  import opened RateLimit
  import opened DurableLimit
  import opened LimitRefinement
  import opened LimitBound

  /** The table after a run. */
  function TableAfter(t: Table, config: Config, events: seq<Event>): Table
    decreases |events|
  {
    if events == [] then t
    else match events[0]
      case Call(ip, atMs) => TableAfter(Admission(t, config, ip, atMs).0, config, events[1..])
      case CleanupAlarm(atMs) => TableAfter(Purged(t, atMs), config, events[1..])
  }

  function LastMs(events: seq<Event>, fromMs: int): int {
    if events == [] then fromMs else LastMs(events[1..], events[0].atMs)
  }

  /** Every count of a live window is an admission since the window started. */
  ghost predicate Backed(past: seq<int>, w: Option<Window>, nowMs: int) {
    && (forall i :: 0 <= i < |past| ==> past[i] <= nowMs)
    && (LiveAt(w, nowMs).Some? ==> w.value.startMs <= nowMs && CountFrom(past, w.value.startMs) >= w.value.count)
  }

  lemma BackedAges(past: seq<int>, w: Option<Window>, nowMs: int, laterMs: int)
    requires Backed(past, w, nowMs) && nowMs <= laterMs
    ensures Backed(past, w, laterMs)
  {}

  lemma CountedIsBacked(past: seq<int>, w: Option<Window>, nowMs: int)
    requires Backed(past, w, nowMs)
    ensures Backed(past + [nowMs], Some(Counted(LiveAt(w, nowMs), nowMs)), nowMs)
  {
    CountAppend(past, nowMs, StartOf(LiveAt(w, nowMs), nowMs));
  }

  lemma {:induction false} RunIsBacked(t: Table, config: Config, events: seq<Event>, fromMs: int, who: Option<Ip>, past: seq<int>)
    requires NonDecreasing(events, fromMs) && Backed(past, Read(t, KeyOf(who)), fromMs)
    ensures Backed(past + DurableAdmissions(t, config, events, who), Read(TableAfter(t, config, events), KeyOf(who)), LastMs(events, fromMs))
    decreases |events|
  {
    if events == [] {
      assert past + [] == past;
    } else {
      var key, atMs := KeyOf(who), events[0].atMs;
      BackedAges(past, Read(t, key), fromMs, atMs);
      match events[0]
      case CleanupAlarm(_) =>
        assert LiveAt(Read(Purged(t, atMs), key), atMs) == LiveAt(Read(t, key), atMs);
        RunIsBacked(Purged(t, atMs), config, events[1..], atMs, who, past);
      case Call(ip, _) =>
        CallIsBacked(t, config, ip, atMs, who, past);
        var (next, d) := Admission(t, config, ip, atMs);
        var more := if d == Admitted && (who.None? || who.value == ip) then [atMs] else [];
        RunIsBacked(next, config, events[1..], atMs, who, past + more);
        assert past + DurableAdmissions(t, config, events, who) == (past + more) + DurableAdmissions(next, config, events[1..], who);
    }
  }

  lemma CallIsBacked(t: Table, config: Config, ip: Ip, atMs: int, who: Option<Ip>, past: seq<int>)
    requires Backed(past, Read(t, KeyOf(who)), atMs)
    ensures var (next, d) := Admission(t, config, ip, atMs);
      Backed(past + (if d == Admitted && (who.None? || who.value == ip) then [atMs] else []), Read(next, KeyOf(who)), atMs)
  {
    DurableFollowsPolicy(t, config, ip, atMs);
    var (next, d) := Admission(t, config, ip, atMs);
    if d == Admitted && (who.None? || who.value == ip) {
      CountedIsBacked(past, Read(t, KeyOf(who)), atMs);
      assert LiveAt(Read(next, KeyOf(who)), atMs) == Some(Counted(LiveAt(Read(t, KeyOf(who)), atMs), atMs));
    } else {
      assert past + [] == past;
      assert LiveAt(Read(next, KeyOf(who)), atMs) == LiveAt(Read(t, KeyOf(who)), atMs);
    }
  }

  lemma {:induction false} FewerFromLater(past: seq<int>, a: int, b: int)
    requires a <= b
    ensures CountFrom(past, a) >= CountFrom(past, b)
  {
    if past != [] {
      FewerFromLater(past[1..], a, b);
    }
  }

  lemma {:induction false} NothingLater(past: seq<int>, nowMs: int, a: int)
    requires (forall i :: 0 <= i < |past| ==> past[i] <= nowMs) && nowMs < a + HOUR_MS
    ensures InHour(past, a) == CountFrom(past, a)
  {
    if past != [] {
      NothingLater(past[1..], nowMs, a);
    }
  }

  /** A live window's count is no more than the admissions of the last hour. */
  lemma LiveCountIsRecent(past: seq<int>, w: Option<Window>, nowMs: int)
    requires Backed(past, w, nowMs)
    ensures CountOf(LiveAt(w, nowMs)) <= InHour(past, nowMs - HOUR_MS + 1)
  {
    NothingLater(past, nowMs, nowMs - HOUR_MS + 1);
    if LiveAt(w, nowMs).Some? {
      FewerFromLater(past, nowMs - HOUR_MS + 1, w.value.startMs);
    }
  }

  /** The admissions of a run in the hour that ends with `atMs`: everybody's, or one address's. */
  function Recent(config: Config, events: seq<Event>, who: Option<Ip>, atMs: int): nat {
    InHour(DurableAdmissions(map[], config, events, who), atMs - HOUR_MS + 1)
  }

  /**
   After any run, a call is refused for the global ceiling only when that many calls were admitted in
   the hour up to it, and for its address only when that many of its own were. With room on both
   counts it is admitted.
   */
  lemma RefusalsAreEarned(config: Config, events: seq<Event>, fromMs: int, ip: Ip, atMs: int)
    requires NonDecreasing(events, fromMs) && LastMs(events, fromMs) <= atMs
    ensures var d := Admission(TableAfter(map[], config, events), config, ip, atMs).1;
      && (d == GlobalCeiling ==> Recent(config, events, None, atMs) >= config.globalPerHour)
      && (d == PerIpCeiling ==> Recent(config, events, Some(ip), atMs) >= config.perIpPerHour)
      && (Recent(config, events, None, atMs) < config.globalPerHour && Recent(config, events, Some(ip), atMs) < config.perIpPerHour
          ==> d == Admitted)
  {
    DurableFollowsPolicy(TableAfter(map[], config, events), config, ip, atMs);
    WindowIsRecent(config, events, fromMs, None, atMs);
    WindowIsRecent(config, events, fromMs, Some(ip), atMs);
  }

  lemma WindowIsRecent(config: Config, events: seq<Event>, fromMs: int, who: Option<Ip>, atMs: int)
    requires NonDecreasing(events, fromMs) && LastMs(events, fromMs) <= atMs
    ensures CountOf(LiveAt(Read(TableAfter(map[], config, events), KeyOf(who)), atMs)) <= Recent(config, events, who, atMs)
  {
    var times := DurableAdmissions(map[], config, events, who);
    var w := Read(TableAfter(map[], config, events), KeyOf(who));
    RunIsBacked(map[], config, events, fromMs, who, []);
    assert [] + times == times;
    BackedAges(times, w, LastMs(events, fromMs), atMs);
    LiveCountIsRecent(times, w, atMs);
  }
}
