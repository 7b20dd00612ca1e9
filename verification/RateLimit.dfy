/**
 The in-memory fixed-window limiter: one global window, and per-IP windows in an
 insertion-ordered map that is swept lazily and bounded by evicting its oldest entry.

 `Memory` is the limiter's state as a value and `MemoryStep` one call on it; the class
 `MemoryLimiter` runs that step in place.
 */
module RateLimit {
  import opened Wrappers

  const HOUR_MS := 60 * 60 * 1000
  const MAX_TRACKED_IP_WINDOWS := 10_000

  type Ip = string

  datatype Config = Config(perIpPerHour: int, globalPerHour: int)

  datatype Window = Window(startMs: int, count: nat)

  datatype Decision = Admitted | GlobalCeiling | PerIpCeiling

  /** One entry of the map, whose iteration order is insertion order. */
  datatype Entry = Entry(ip: Ip, window: Window)

  predicate Expired(window: Window, nowMs: int) {
    nowMs - window.startMs >= HOUR_MS
  }

  /** The window that counts one more attempt. */
  function Tick(window: Option<Window>, nowMs: int): Window {
    if window.None? || Expired(window.value, nowMs) then Window(nowMs, 1)
    else Window(window.value.startMs, window.value.count + 1)
  }

  // ---------- the insertion-ordered map ----------

  function Find(entries: seq<Entry>, ip: Ip): Option<Window> {
    if entries == [] then None
    else if entries[0].ip == ip then Some(entries[0].window)
    else Find(entries[1..], ip)
  }

  function Without(entries: seq<Entry>, ip: Ip): seq<Entry> {
    if entries == [] then []
    else if entries[0].ip == ip then Without(entries[1..], ip)
    else [entries[0]] + Without(entries[1..], ip)
  }

  function Live(entries: seq<Entry>, nowMs: int): seq<Entry> {
    if entries == [] then []
    else if Expired(entries[0].window, nowMs) then Live(entries[1..], nowMs)
    else [entries[0]] + Live(entries[1..], nowMs)
  }

  /** `delete` then `set`: the entry moves to the end. */
  function Touched(entries: seq<Entry>, ip: Ip, window: Window): seq<Entry> {
    Without(entries, ip) + [Entry(ip, window)]
  }

  function Bounded(entries: seq<Entry>): seq<Entry> {
    if |entries| <= MAX_TRACKED_IP_WINDOWS then entries else entries[1..]
  }

  // ---------- the limiter's state and one call on it ----------

  datatype Memory = Memory(global: Option<Window>, lastSweepMs: Option<int>, perIp: seq<Entry>)

  const FRESH := Memory(None, None, [])

  function Swept(m: Memory, nowMs: int): Memory {
    if m.lastSweepMs.Some? && nowMs - m.lastSweepMs.value < HOUR_MS then m
    else m.(lastSweepMs := Some(nowMs), perIp := Live(m.perIp, nowMs))
  }

  function MemoryStep(m: Memory, config: Config, ip: Ip, nowMs: int): (Memory, Decision) {
    var s := Swept(m, nowMs);
    var nextGlobal := Tick(s.global, nowMs);
    var currentIp := Find(s.perIp, ip);
    var nextIp := Tick(currentIp, nowMs);
    if nextGlobal.count > config.globalPerHour then (s, GlobalCeiling)
    else if nextIp.count > config.perIpPerHour then
      (if currentIp.Some? then s.(perIp := Touched(s.perIp, ip, currentIp.value)) else s, PerIpCeiling)
    else (s.(global := Some(nextGlobal), perIp := Bounded(Touched(s.perIp, ip, nextIp))), Admitted)
  }

  // ---------- the class ----------

  predicate Distinct(entries: seq<Entry>) {
    forall i, j :: 0 <= i < j < |entries| ==> entries[i].ip != entries[j].ip
  }

  lemma {:induction false} LiveAppend(a: seq<Entry>, b: seq<Entry>, nowMs: int)
    ensures Live(a + b, nowMs) == Live(a, nowMs) + Live(b, nowMs)
    decreases |a|
  {
    if a == [] {
      assert a + b == b;
    } else {
      assert (a + b)[1..] == a[1..] + b;
      LiveAppend(a[1..], b, nowMs);
    }
  }

  lemma LiveNext(entries: seq<Entry>, i: nat, nowMs: int)
    requires i < |entries|
    ensures Live(entries[..i + 1], nowMs)
         == Live(entries[..i], nowMs) + if Expired(entries[i].window, nowMs) then [] else [entries[i]]
  {
    assert entries[..i + 1] == entries[..i] + [entries[i]];
    LiveAppend(entries[..i], [entries[i]], nowMs);
  }

  class MemoryLimiter {
    const config: Config
    var global: Option<Window>
    var lastSweepMs: Option<int>
    var perIp: seq<Entry>

    constructor (config: Config)
      ensures this.config == config && Valid() && State() == FRESH
    {
      this.config := config;
      global, lastSweepMs, perIp := None, None, [];
    }

    /** A map holds each key once. */
    predicate Valid()
      reads this
    {
      Distinct(perIp)
    }

    /** The limiter as a value. */
    function State(): Memory
      reads this
    {
      Memory(global, lastSweepMs, perIp)
    }

    method DropExpired(nowMs: int)
      modifies this`perIp
      ensures perIp == Live(old(perIp), nowMs)
    {
      ghost var before, kept, seen := perIp, [], 0;
      var i := 0;
      while i < |perIp|
        invariant 0 <= seen <= |before| && i == |kept|
        invariant kept == Live(before[..seen], nowMs)
        invariant perIp == kept + before[seen..]
        decreases |before| - seen
      {
        LiveNext(before, seen, nowMs);
        assert perIp[i] == before[seen];
        if nowMs - perIp[i].window.startMs >= HOUR_MS {
          assert perIp[..i] == kept && perIp[i + 1..] == before[seen + 1..];
          perIp := perIp[..i] + perIp[i + 1..];
        } else {
          assert perIp == (kept + [before[seen]]) + before[seen + 1..];
          kept := kept + [before[seen]];
          i := i + 1;
        }
        seen := seen + 1;
      }
      assert before[..seen] == before;
    }

    method SweepExpired(nowMs: int)
      requires Valid()
      modifies this
      ensures Valid() && State() == Swept(old(State()), nowMs)
    {
      if lastSweepMs.Some? && nowMs - lastSweepMs.value < HOUR_MS {
        return;
      }
      LiveFind(perIp, nowMs, "");
      DropExpired(nowMs);
      lastSweepMs := Some(nowMs);
    }

    method Touch(ip: Ip, window: Window)
      requires Valid()
      modifies this`perIp
      ensures Valid() && perIp == Touched(old(perIp), ip, window)
    {
      TouchedIs(perIp, ip, window);
      Delete(ip);
      perIp := perIp + [Entry(ip, window)];
    }

    method Delete(ip: Ip)
      modifies this`perIp
      ensures perIp == Without(old(perIp), ip)
    {
      perIp := Without(perIp, ip);
    }

    method SetBounded(ip: Ip, window: Window)
      requires Valid()
      modifies this`perIp
      ensures Valid() && perIp == Bounded(Touched(old(perIp), ip, window))
    {
      Touch(ip, window);
      if |perIp| <= MAX_TRACKED_IP_WINDOWS {
        return;
      }
      var leastRecentlyUsedIp := perIp[0].ip;
      WithoutFirst(perIp);
      Delete(leastRecentlyUsedIp);
    }

    /** Count one attempt, or refuse it without recording it. */
    method AssertUnderCeiling(ip: Ip, nowMs: int) returns (d: Decision)
      requires Valid()
      modifies this
      ensures Valid() && (State(), d) == MemoryStep(old(State()), config, ip, nowMs)
    {
      SweepExpired(nowMs);
      var nextGlobal := Tick(global, nowMs);
      if nextGlobal.count > config.globalPerHour {
        return GlobalCeiling;
      }
      var currentIp := Find(perIp, ip);
      var nextIp := Tick(currentIp, nowMs);
      if nextIp.count > config.perIpPerHour {
        if currentIp.Some? {
          Touch(ip, currentIp.value);
        }
        return PerIpCeiling;
      }
      global := Some(nextGlobal);
      SetBounded(ip, nextIp);
      return Admitted;
    }
  }

  // ---------- facts about the map ----------

  lemma {:induction false} WithoutFind(entries: seq<Entry>, ip: Ip, other: Ip)
    ensures Find(Without(entries, ip), other) == if other == ip then None else Find(entries, other)
  {
    if entries != [] {
      WithoutFind(entries[1..], ip, other);
    }
  }

  lemma {:induction false} AppendFind(a: seq<Entry>, e: Entry, ip: Ip)
    ensures Find(a + [e], ip) == if Find(a, ip).Some? then Find(a, ip) else if e.ip == ip then Some(e.window) else None
  {
    if a != [] {
      assert (a + [e])[1..] == a[1..] + [e];
      AppendFind(a[1..], e, ip);
    }
  }

  /** A touched map finds the touched window under `ip` and everything else where it was. */
  lemma TouchedFind(entries: seq<Entry>, ip: Ip, window: Window, other: Ip)
    ensures Find(Touched(entries, ip, window), other) == if other == ip then Some(window) else Find(entries, other)
  {
    AppendFind(Without(entries, ip), Entry(ip, window), other);
    WithoutFind(entries, ip, other);
  }

  lemma {:induction false} FindIn(entries: seq<Entry>, ip: Ip)
    ensures Find(entries, ip).Some? <==> exists i :: 0 <= i < |entries| && entries[i].ip == ip
  {
    if entries != [] {
      FindIn(entries[1..], ip);
      if i :| 0 <= i < |entries| && entries[i].ip == ip && i > 0 {
        assert entries[1..][i - 1].ip == ip;
      }
      if i :| 0 <= i < |entries[1..]| && entries[1..][i].ip == ip {
        assert entries[i + 1].ip == ip;
      }
    }
  }

  lemma {:induction false} FindAt(entries: seq<Entry>, i: nat)
    requires Distinct(entries) && i < |entries|
    ensures Find(entries, entries[i].ip) == Some(entries[i].window)
  {
    if i > 0 {
      assert entries[1..][i - 1] == entries[i];
      FindAt(entries[1..], i - 1);
    }
  }

  /** Filtering keeps distinctness, keeps order, and drops exactly the expired or deleted entries. */
  lemma {:induction false} LiveFind(entries: seq<Entry>, nowMs: int, ip: Ip)
    requires Distinct(entries)
    ensures Distinct(Live(entries, nowMs))
    ensures forall e :: e in Live(entries, nowMs) <==> e in entries && !Expired(e.window, nowMs)
    ensures Find(Live(entries, nowMs), ip) ==
      if Find(entries, ip).Some? && !Expired(Find(entries, ip).value, nowMs) then Find(entries, ip) else None
  {
    if entries != [] {
      LiveFind(entries[1..], nowMs, ip);
      if entries[0].ip == ip {
        FindIn(entries[1..], ip);
        assert forall i :: 0 <= i < |entries[1..]| ==> entries[1..][i] == entries[i + 1];
      }
    }
  }

  lemma {:induction false} WithoutIs(entries: seq<Entry>, ip: Ip)
    requires Distinct(entries)
    ensures Distinct(Without(entries, ip)) && |Without(entries, ip)| <= |entries|
    ensures forall e :: e in Without(entries, ip) <==> e in entries && e.ip != ip
    ensures Find(entries, ip).Some? ==> |Without(entries, ip)| < |entries|
  {
    if entries != [] {
      WithoutIs(entries[1..], ip);
    }
  }

  lemma {:induction false} WithoutAbsent(entries: seq<Entry>, ip: Ip)
    requires forall i :: 0 <= i < |entries| ==> entries[i].ip != ip
    ensures Without(entries, ip) == entries
  {
    if entries != [] {
      WithoutAbsent(entries[1..], ip);
    }
  }

  /** Deleting the first key of a map drops its first entry and nothing else. */
  lemma WithoutFirst(entries: seq<Entry>)
    requires Distinct(entries) && entries != []
    ensures Without(entries, entries[0].ip) == entries[1..]
  {
    WithoutAbsent(entries[1..], entries[0].ip);
  }

  lemma TouchedIs(entries: seq<Entry>, ip: Ip, window: Window)
    requires Distinct(entries)
    ensures Distinct(Touched(entries, ip, window))
    ensures |Touched(entries, ip, window)| <= |entries| + 1
    ensures Find(entries, ip).Some? ==> |Touched(entries, ip, window)| <= |entries|
  {
    WithoutIs(entries, ip);
    var w := Without(entries, ip);
    forall i, j | 0 <= i < j < |Touched(entries, ip, window)|
      ensures Touched(entries, ip, window)[i].ip != Touched(entries, ip, window)[j].ip
    {
      assert w[i] in w;
    }
  }
}
