/**
 How much a fixed-window limiter really lets through: in any half-open hour, wherever it starts,
 at most 2L - 1 admissions for a ceiling L, and a run that reaches that many.
 */
module LimitBound {
  import opened Wrappers
  import opened RateLimit
  import opened DurableLimit
  import opened LimitRefinement

  /** How many of the times lie in [from, to). */
  function Count(times: seq<int>, from: int, to: int): nat {
    if times == [] then 0
    else (if from <= times[0] < to then 1 else 0) + Count(times[1..], from, to)
  }

  /** When calls were admitted by the durable limiter: every call's, or one address's. */
  function DurableAdmissions(t: Table, config: Config, events: seq<Event>, who: Option<Ip>): seq<int>
    decreases |events|
  {
    if events == [] then []
    else match events[0]
      case Call(ip, atMs) =>
        var (next, d) := Admission(t, config, ip, atMs);
        (if d == Admitted && (who.None? || who.value == ip) then [atMs] else [])
          + DurableAdmissions(next, config, events[1..], who)
      case CleanupAlarm(atMs) => DurableAdmissions(Purged(t, atMs), config, events[1..], who)
  }

  function MemoryAdmissions(m: Memory, config: Config, events: seq<Event>): seq<int>
    decreases |events|
  {
    if events == [] then []
    else match events[0]
      case Call(ip, atMs) =>
        var (next, d) := MemoryStep(m, config, ip, atMs);
        (if d == Admitted then [atMs] else []) + MemoryAdmissions(next, config, events[1..])
      case CleanupAlarm(_) => MemoryAdmissions(m, config, events[1..])
  }

  function Ceiling(config: Config, who: Option<Ip>): int {
    if who.None? then config.globalPerHour else config.perIpPerHour
  }

  function KeyOf(who: Option<Ip>): string {
    if who.None? then GLOBAL_KEY else IpKey(who.value)
  }

  // ---------- what a stored window says about the admissions behind it ----------

  /** How many of the times lie in the hour that starts at `from`. */
  function InHour(times: seq<int>, from: int): nat {
    Count(times, from, from + HOUR_MS)
  }

  function CountFrom(times: seq<int>, from: int): nat {
    if times == [] then 0
    else (if from <= times[0] then 1 else 0) + CountFrom(times[1..], from)
  }

  ghost predicate HoursBounded(past: seq<int>, ceiling: int) {
    forall a :: InHour(past, a) <= 2 * ceiling - 1
  }

  ghost predicate AtMostAfter(past: seq<int>, after: int, most: int) {
    forall a :: after < a ==> CountFrom(past, a) <= most
  }

  ghost predicate WindowExplains(past: seq<int>, ceiling: int, w: Window, nowMs: int) {
    && w.startMs <= nowMs && w.count <= ceiling
    && AtMostAfter(past, w.startMs, w.count - 1)
    && AtMostAfter(past, w.startMs - HOUR_MS, ceiling - 1 + w.count)
  }

  ghost predicate Explains(past: seq<int>, ceiling: int, w: Option<Window>, nowMs: int) {
    && (forall i :: 0 <= i < |past| ==> past[i] <= nowMs)
    && HoursBounded(past, ceiling)
    && (LiveAt(w, nowMs).None? ==> AtMostAfter(past, nowMs - HOUR_MS, ceiling - 1))
    && (LiveAt(w, nowMs).Some? ==> WindowExplains(past, ceiling, w.value, nowMs))
  }

  lemma {:induction false} CountAppend(past: seq<int>, x: int, a: int)
    ensures InHour(past + [x], a) == InHour(past, a) + if a <= x < a + HOUR_MS then 1 else 0
    ensures CountFrom(past + [x], a) == CountFrom(past, a) + if a <= x then 1 else 0
    decreases |past|
  {
    if past == [] {
      assert [x][1..] == [];
    } else {
      assert (past + [x])[1..] == past[1..] + [x];
      CountAppend(past[1..], x, a);
    }
  }

  lemma {:induction false} HourWithinRest(past: seq<int>, a: int)
    ensures InHour(past, a) <= CountFrom(past, a)
  {
    if past != [] {
      HourWithinRest(past[1..], a);
    }
  }

  lemma {:induction false} NoneAfter(past: seq<int>, nowMs: int, a: int)
    requires forall i :: 0 <= i < |past| ==> past[i] <= nowMs
    requires nowMs < a
    ensures CountFrom(past, a) == 0
  {
    if past != [] {
      NoneAfter(past[1..], nowMs, a);
    }
  }

  lemma ExplainsAges(past: seq<int>, ceiling: int, w: Option<Window>, nowMs: int, laterMs: int)
    requires Explains(past, ceiling, w, nowMs) && nowMs <= laterMs
    ensures Explains(past, ceiling, w, laterMs)
  {}

  lemma AtMostGrows(past: seq<int>, after: int, nowMs: int, most: int)
    requires AtMostAfter(past, after, most)
    ensures AtMostAfter(past + [nowMs], after, most + 1)
  {
    forall a | after < a ensures CountFrom(past + [nowMs], a) <= most + 1 {
      CountAppend(past, nowMs, a);
    }
  }

  lemma CountedExplains(past: seq<int>, ceiling: int, w: Option<Window>, nowMs: int)
    requires Explains(past, ceiling, w, nowMs)
    requires CountOf(LiveAt(w, nowMs)) + 1 <= ceiling
    ensures WindowExplains(past + [nowMs], ceiling, Counted(LiveAt(w, nowMs), nowMs), nowMs)
  {
    if LiveAt(w, nowMs).None? {
      AtMostGrows(past, nowMs - HOUR_MS, nowMs, ceiling - 1);
      forall a | nowMs < a ensures CountFrom(past + [nowMs], a) <= 0 {
        NoneAfter(past + [nowMs], nowMs, a);
      }
    } else {
      var start: int, count: int := w.value.startMs, w.value.count;
      AtMostGrows(past, start, nowMs, count - 1);
      AtMostGrows(past, start - HOUR_MS, nowMs, ceiling - 1 + count);
    }
  }

  lemma ExplainsAdmission(past: seq<int>, ceiling: int, w: Option<Window>, nowMs: int)
    requires Explains(past, ceiling, w, nowMs)
    requires CountOf(LiveAt(w, nowMs)) + 1 <= ceiling
    ensures Explains(past + [nowMs], ceiling, Some(Counted(LiveAt(w, nowMs), nowMs)), nowMs)
  {
    CountedExplains(past, ceiling, w, nowMs);
    var next := Counted(LiveAt(w, nowMs), nowMs);
    forall a ensures InHour(past + [nowMs], a) <= 2 * ceiling - 1 {
      CountAppend(past, nowMs, a);
      HourWithinRest(past + [nowMs], a);
      assert InHour(past, a) <= 2 * ceiling - 1;
      if a <= nowMs < a + HOUR_MS {
        assert next.startMs - HOUR_MS < a;
        assert CountFrom(past + [nowMs], a) <= ceiling - 1 + next.count;
      }
    }
  }

  lemma NothingYet(ceiling: int, nowMs: int)
    requires ceiling >= 1
    ensures Explains([], ceiling, None, nowMs)
  {
    forall a ensures InHour([], a) <= 2 * ceiling - 1 && CountFrom([], a) <= ceiling - 1 {}
  }

  // ---------- the bound over runs ----------

  lemma {:induction false} DurableRunBounded(t: Table, config: Config, events: seq<Event>, fromMs: int,
                                             who: Option<Ip>, past: seq<int>)
    requires NonDecreasing(events, fromMs)
    requires Explains(past, Ceiling(config, who), Read(t, KeyOf(who)), fromMs)
    ensures HoursBounded(past + DurableAdmissions(t, config, events, who), Ceiling(config, who))
    decreases |events|
  {
    if events == [] {
      assert past + [] == past;
    } else {
      var ceiling, key, atMs := Ceiling(config, who), KeyOf(who), events[0].atMs;
      ExplainsAges(past, ceiling, Read(t, key), fromMs, atMs);
      match events[0]
      case CleanupAlarm(_) =>
        assert LiveAt(Read(Purged(t, atMs), key), atMs) == LiveAt(Read(t, key), atMs);
        DurableRunBounded(Purged(t, atMs), config, events[1..], atMs, who, past);
      case Call(ip, _) =>
        DurableFollowsPolicy(t, config, ip, atMs);
        var (next, d) := Admission(t, config, ip, atMs);
        if d == Admitted && (who.None? || who.value == ip) {
          ExplainsAdmission(past, ceiling, Read(t, key), atMs);
          DurableRunBounded(next, config, events[1..], atMs, who, past + [atMs]);
          assert past + DurableAdmissions(t, config, events, who)
              == (past + [atMs]) + DurableAdmissions(next, config, events[1..], who);
        } else {
          DurableRunBounded(next, config, events[1..], atMs, who, past);
          assert [] + DurableAdmissions(next, config, events[1..], who)
              == DurableAdmissions(next, config, events[1..], who);
        }
    }
  }

  /** The durable limiter, globally (no `who`) and for each address: at most 2L - 1 in any hour. */
  lemma DurableSlidingBound(config: Config, events: seq<Event>, fromMs: int, who: Option<Ip>, a: int)
    requires NonDecreasing(events, fromMs)
    ensures var times := DurableAdmissions(map[], config, events, who);
      InHour(times, a) <= if Ceiling(config, who) >= 1 then 2 * Ceiling(config, who) - 1 else 0
  {
    if Ceiling(config, who) >= 1 {
      NothingYet(Ceiling(config, who), fromMs);
      DurableRunBounded(map[], config, events, fromMs, who, []);
      assert [] + DurableAdmissions(map[], config, events, who) == DurableAdmissions(map[], config, events, who);
    } else {
      NoCeilingNoAdmission(map[], config, events, who);
    }
  }

  lemma {:induction false} NoCeilingNoAdmission(t: Table, config: Config, events: seq<Event>, who: Option<Ip>)
    requires Ceiling(config, who) < 1
    ensures DurableAdmissions(t, config, events, who) == []
    decreases |events|
  {
    if events != [] {
      match events[0]
      case CleanupAlarm(atMs) => NoCeilingNoAdmission(Purged(t, atMs), config, events[1..], who);
      case Call(ip, atMs) => NoCeilingNoAdmission(Admission(t, config, ip, atMs).0, config, events[1..], who);
    }
  }

  lemma MemoryGlobalStep(m: Memory, config: Config, ip: Ip, nowMs: int)
    ensures var (n, d) := MemoryStep(m, config, ip, nowMs);
      var g := LiveAt(m.global, nowMs);
      && (d == Admitted ==> CountOf(g) + 1 <= config.globalPerHour && n.global == Some(Counted(g, nowMs)))
      && (d != Admitted ==> n.global == m.global)
  {}

  lemma {:induction false} MemoryRunBounded(m: Memory, config: Config, events: seq<Event>, fromMs: int, past: seq<int>)
    requires NonDecreasing(events, fromMs)
    requires Explains(past, config.globalPerHour, m.global, fromMs)
    ensures HoursBounded(past + MemoryAdmissions(m, config, events), config.globalPerHour)
    decreases |events|
  {
    if events == [] {
      assert past + [] == past;
    } else {
      var ceiling, atMs := config.globalPerHour, events[0].atMs;
      ExplainsAges(past, ceiling, m.global, fromMs, atMs);
      match events[0]
      case CleanupAlarm(_) =>
        MemoryRunBounded(m, config, events[1..], atMs, past);
      case Call(ip, _) =>
        MemoryGlobalStep(m, config, ip, atMs);
        var (next, d) := MemoryStep(m, config, ip, atMs);
        if d == Admitted {
          ExplainsAdmission(past, ceiling, m.global, atMs);
          MemoryRunBounded(next, config, events[1..], atMs, past + [atMs]);
          assert past + MemoryAdmissions(m, config, events)
              == (past + [atMs]) + MemoryAdmissions(next, config, events[1..]);
        } else {
          MemoryRunBounded(next, config, events[1..], atMs, past);
          assert [] + MemoryAdmissions(next, config, events[1..]) == MemoryAdmissions(next, config, events[1..]);
        }
    }
  }

  /** The in-memory limiter keeps the global bound for any number of addresses, evicted or not. */
  lemma MemorySlidingBound(config: Config, events: seq<Event>, fromMs: int, a: int)
    requires NonDecreasing(events, fromMs) && config.globalPerHour >= 1
    ensures InHour(MemoryAdmissions(FRESH, config, events), a) <= 2 * config.globalPerHour - 1
  {
    NothingYet(config.globalPerHour, fromMs);
    MemoryRunBounded(FRESH, config, events, fromMs, []);
    assert [] + MemoryAdmissions(FRESH, config, events) == MemoryAdmissions(FRESH, config, events);
  }

  // ---------- the bound is reached ----------

  function Calls(ip: Ip, atMs: int, n: nat): seq<Event> {
    if n == 0 then [] else [Call(ip, atMs)] + Calls(ip, atMs, n - 1)
  }

  function Times(atMs: int, n: nat): seq<int> {
    if n == 0 then [] else [atMs] + Times(atMs, n - 1)
  }

  /** One early call, the rest of its window at the last moment, and a full window right after. */
  function Burst(ip: Ip, ceiling: nat): seq<Event>
    requires ceiling >= 1
  {
    [Call(ip, 0)] + (Calls(ip, HOUR_MS - 1, ceiling - 1) + Calls(ip, HOUR_MS, ceiling))
  }

  function Both(ip: Ip, w: Window): Table {
    map[GLOBAL_KEY := w, IpKey(ip) := w]
  }

  lemma OneMore(config: Config, ip: Ip, w: Window, atMs: int)
    requires config.perIpPerHour <= config.globalPerHour && w.count + 1 <= config.perIpPerHour
    requires !Expired(w, atMs)
    ensures Admission(Both(ip, w), config, ip, atMs) == (Both(ip, Window(w.startMs, w.count + 1)), Admitted)
  {
    var t, next := Both(ip, w), Window(w.startMs, w.count + 1);
    KeysApart(ip, ip);
    assert Purged(t, atMs) == t;
    assert t[GLOBAL_KEY := next][IpKey(ip) := next] == Both(ip, next);
  }

  lemma Unfold(t: Table, next: Table, config: Config, ip: Ip, atMs: int, rest: seq<Event>)
    requires Admission(t, config, ip, atMs) == (next, Admitted)
    ensures DurableAdmissions(t, config, [Call(ip, atMs)] + rest, Some(ip))
         == [atMs] + DurableAdmissions(next, config, rest, Some(ip))
  {
    assert ([Call(ip, atMs)] + rest)[1..] == rest;
  }

  lemma BurstCalls(ip: Ip, atMs: int, n: nat, rest: seq<Event>)
    ensures Calls(ip, atMs, 0) + rest == rest
    ensures n > 0 ==> Calls(ip, atMs, n) + rest == [Call(ip, atMs)] + (Calls(ip, atMs, n - 1) + rest)
  {
    if n > 0 {
      assert Calls(ip, atMs, n) == [Call(ip, atMs)] + Calls(ip, atMs, n - 1);
    }
  }

  lemma BurstTimes(atMs: int, n: nat, rest: seq<int>)
    ensures Times(atMs, 0) + rest == rest
    ensures n > 0 ==> Times(atMs, n) + rest == [atMs] + (Times(atMs, n - 1) + rest)
  {
    if n > 0 {
      assert Times(atMs, n) == [atMs] + Times(atMs, n - 1);
    }
  }

  /** The admissions of one address whose window and the global one are both `w`. */
  function Alone(config: Config, ip: Ip, w: Window, events: seq<Event>): seq<int> {
    DurableAdmissions(Both(ip, w), config, events, Some(ip))
  }

  lemma OneMoreAlone(config: Config, ip: Ip, w: Window, atMs: int, rest: seq<Event>)
    requires config.perIpPerHour <= config.globalPerHour && w.count + 1 <= config.perIpPerHour
    requires !Expired(w, atMs)
    ensures Alone(config, ip, w, [Call(ip, atMs)] + rest)
         == [atMs] + Alone(config, ip, Window(w.startMs, w.count + 1), rest)
  {
    OneMore(config, ip, w, atMs);
    Unfold(Both(ip, w), Both(ip, Window(w.startMs, w.count + 1)), config, ip, atMs, rest);
  }

  lemma {:induction false} BurstAdmitted(config: Config, ip: Ip, w: Window, atMs: int, n: nat, rest: seq<Event>)
    requires config.perIpPerHour <= config.globalPerHour && w.count + n <= config.perIpPerHour
    requires !Expired(w, atMs)
    ensures Alone(config, ip, w, Calls(ip, atMs, n) + rest)
         == Times(atMs, n) + Alone(config, ip, Window(w.startMs, w.count + n), rest)
    decreases n
  {
    BurstCalls(ip, atMs, n, rest);
    BurstTimes(atMs, n, Alone(config, ip, Window(w.startMs, w.count + n), rest));
    if n > 0 {
      OneMoreAlone(config, ip, w, atMs, Calls(ip, atMs, n - 1) + rest);
      BurstAdmitted(config, ip, Window(w.startMs, w.count + 1), atMs, n - 1, rest);
    }
  }

  lemma FirstCall(t: Table, config: Config, ip: Ip, atMs: int, rest: seq<Event>)
    requires 1 <= config.perIpPerHour <= config.globalPerHour
    requires forall key :: key in t ==> Expired(t[key], atMs)
    ensures DurableAdmissions(t, config, [Call(ip, atMs)] + rest, Some(ip))
         == [atMs] + Alone(config, ip, Window(atMs, 1), rest)
  {
    KeysApart(ip, ip);
    assert Purged(t, atMs) == map[];
    assert Admission(t, config, ip, atMs) == (Both(ip, Window(atMs, 1)), Admitted);
    Unfold(t, Both(ip, Window(atMs, 1)), config, ip, atMs, rest);
  }

  lemma {:induction false} CountTimes(atMs: int, n: nat, rest: seq<int>, from: int, to: int)
    requires from <= atMs < to
    ensures Count(Times(atMs, n) + rest, from, to) == n + Count(rest, from, to)
  {
    if n == 0 {
      assert [] + rest == rest;
    } else {
      CountTimes(atMs, n - 1, rest, from, to);
      assert (Times(atMs, n) + rest)[1..] == Times(atMs, n - 1) + rest;
    }
  }

  lemma {:induction false} CallsInOrder(ip: Ip, atMs: int, n: nat, rest: seq<Event>, fromMs: int)
    requires fromMs <= atMs && NonDecreasing(rest, atMs)
    ensures NonDecreasing(Calls(ip, atMs, n) + rest, fromMs)
    decreases n
  {
    if n == 0 {
      assert [] + rest == rest;
    } else {
      CallsInOrder(ip, atMs, n - 1, rest, atMs);
      assert (Calls(ip, atMs, n) + rest)[1..] == Calls(ip, atMs, n - 1) + rest;
    }
  }

  /** When the calls of the burst were admitted. */
  function BurstAdmissions(l: nat): seq<int>
    requires l >= 1
  {
    [0] + (Times(HOUR_MS - 1, l - 1) + ([HOUR_MS] + Times(HOUR_MS, l - 1)))
  }

  lemma BurstIsAdmitted(config: Config, ip: Ip)
    requires 1 <= config.perIpPerHour <= config.globalPerHour
    ensures DurableAdmissions(map[], config, Burst(ip, config.perIpPerHour), Some(ip)) == BurstAdmissions(config.perIpPerHour)
  {
    var l := config.perIpPerHour;
    var late, full, more := Calls(ip, HOUR_MS - 1, l - 1), Calls(ip, HOUR_MS, l), Calls(ip, HOUR_MS, l - 1);
    FirstCall(map[], config, ip, 0, late + full);
    BurstAdmitted(config, ip, Window(0, 1), HOUR_MS - 1, l - 1, full);
    assert full == [Call(ip, HOUR_MS)] + more;
    FirstCall(Both(ip, Window(0, l)), config, ip, HOUR_MS, more);
    assert more + [] == more;
    BurstAdmitted(config, ip, Window(HOUR_MS, 1), HOUR_MS, l - 1, []);
    assert Times(HOUR_MS, l - 1) + [] == Times(HOUR_MS, l - 1);
  }

  lemma BurstFillsTheHour(l: nat)
    requires l >= 1
    ensures InHour(BurstAdmissions(l), HOUR_MS - 1) == 2 * l - 1
  {
    var late, more := Times(HOUR_MS - 1, l - 1), Times(HOUR_MS, l - 1);
    var tail := [HOUR_MS] + more;
    assert BurstAdmissions(l)[1..] == late + tail;
    assert tail[1..] == more && more + [] == more;
    CountTimes(HOUR_MS - 1, l - 1, tail, HOUR_MS - 1, 2 * HOUR_MS - 1);
    CountTimes(HOUR_MS, l - 1, [], HOUR_MS - 1, 2 * HOUR_MS - 1);
  }

  /** For every ceiling there is a run in order of time that has exactly 2L - 1 admissions in one hour. */
  lemma BoundIsReached(config: Config, ip: Ip)
    requires 1 <= config.perIpPerHour <= config.globalPerHour
    ensures NonDecreasing(Burst(ip, config.perIpPerHour), 0)
    ensures InHour(DurableAdmissions(map[], config, Burst(ip, config.perIpPerHour), Some(ip)), HOUR_MS - 1)
         == 2 * config.perIpPerHour - 1
  {
    var l := config.perIpPerHour;
    var late, full := Calls(ip, HOUR_MS - 1, l - 1), Calls(ip, HOUR_MS, l);
    assert full + [] == full;
    CallsInOrder(ip, HOUR_MS, l, [], HOUR_MS - 1);
    CallsInOrder(ip, HOUR_MS - 1, l - 1, full, 0);
    assert Burst(ip, l)[1..] == late + full;
    BurstIsAdmitted(config, ip);
    BurstFillsTheHour(l);
  }
}
