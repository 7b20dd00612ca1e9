/**
 The durable fixed-window limiter: one table of windows, purged of every expired row before
 each admission, and a cleanup alarm that empties the table once callers stop coming.

 `Admission` is one request on the table as a value; the class `DurableLimiter` runs it in place.
 */
module DurableLimit {
  import opened Wrappers
  import opened RateLimit

  type Table = map<string, Window>

  const GLOBAL_KEY := "global"

  function IpKey(digest: string): string {
    "ip:" + digest
  }

  function Purged(t: Table, nowMs: int): Table {
    map key | key in t && !Expired(t[key], nowMs) :: t[key]
  }

  function Read(t: Table, key: string): Option<Window> {
    if key in t then Some(t[key]) else None
  }

  function StartOf(row: Option<Window>, nowMs: int): int {
    if row.Some? then row.value.startMs else nowMs
  }

  function CountOf(row: Option<Window>): nat {
    if row.Some? then row.value.count else 0
  }

  /** One admission request: the table afterwards and the decision. */
  function Admission(t: Table, config: Config, digest: string, nowMs: int): (Table, Decision) {
    var p := Purged(t, nowMs);
    var global := Read(p, GLOBAL_KEY);
    var perIp := Read(p, IpKey(digest));
    if CountOf(global) + 1 > config.globalPerHour then (p, GlobalCeiling)
    else if CountOf(perIp) + 1 > config.perIpPerHour then (p, PerIpCeiling)
    else
      (p[GLOBAL_KEY := Window(StartOf(global, nowMs), CountOf(global) + 1)]
        [IpKey(digest) := Window(StartOf(perIp, nowMs), CountOf(perIp) + 1)],
       Admitted)
  }

  /** The global row and a per-IP row never share a key, and two digests never share a row. */
  lemma KeysApart(a: string, b: string)
    ensures IpKey(a) != GLOBAL_KEY
    ensures IpKey(a) == IpKey(b) <==> a == b
  {
    assert IpKey(a)[0] != GLOBAL_KEY[0];
    assert IpKey(a)[3..] == a && IpKey(b)[3..] == b;
  }

  // ---------- the cleanup alarm ----------

  predicate Oldest(t: Table, key: string) {
    key in t && forall other :: other in t ==> t[key].startMs <= t[other].startMs
  }

  function Max(a: int, b: int): int {
    if a < b then b else a
  }

  /** The alarm that belongs to a table: none when it is empty, else when its oldest row expires. */
  ghost predicate AlarmFor(t: Table, clockMs: int, alarmAt: Option<int>) {
    if t == map[] then alarmAt.None?
    else exists key :: Oldest(t, key) && alarmAt == Some(Max(t[key].startMs + HOUR_MS, clockMs))
  }

  lemma {:induction false} OldestExists(t: Table) returns (key: string)
    requires t != map[]
    ensures Oldest(t, key)
    decreases |t|
  {
    var k :| k in t;
    var rest := t - {k};
    if rest == map[] {
      key := k;
      forall other | other in t ensures other == k {
        assert other == k || other in rest;
      }
    } else {
      assert t.Keys == rest.Keys + {k};
      assert |rest| < |t|;
      var r := OldestExists(rest);
      key := if t[k].startMs <= rest[r].startMs then k else r;
      forall other | other in t ensures t[key].startMs <= t[other].startMs {
        if other != k {
          assert other in rest;
        }
      }
    }
  }

  method OldestKey(t: Table) returns (key: string)
    requires t != map[]
    ensures Oldest(t, key)
  {
    ghost var oldest := OldestExists(t);
    key :| key in t && Oldest(t, key);
  }

  class DurableLimiter {
    var windows: Table
    var alarmAt: Option<int>

    constructor ()
      ensures windows == map[] && alarmAt == None
    {
      windows, alarmAt := map[], None;
    }

    method DeleteExpired(nowMs: int)
      modifies this`windows
      ensures windows == Purged(old(windows), nowMs)
    {
      windows := map key | key in windows && !(nowMs - windows[key].startMs >= HOUR_MS) :: windows[key];
    }

    method Admit(config: Config, digest: string, nowMs: int) returns (d: Decision)
      modifies this`windows
      ensures (windows, d) == Admission(old(windows), config, digest, nowMs)
    {
      DeleteExpired(nowMs);
      var ipKey := IpKey(digest);
      var global := Read(windows, GLOBAL_KEY);
      var perIp := Read(windows, ipKey);
      var globalCount := CountOf(global) + 1;
      var perIpCount := CountOf(perIp) + 1;
      if globalCount > config.globalPerHour {
        return GlobalCeiling;
      }
      if perIpCount > config.perIpPerHour {
        return PerIpCeiling;
      }
      windows := windows[GLOBAL_KEY := Window(StartOf(global, nowMs), globalCount)];
      windows := windows[ipKey := Window(StartOf(perIp, nowMs), perIpCount)];
      return Admitted;
    }

    method ScheduleCleanup(clockMs: int)
      modifies this`alarmAt
      ensures AlarmFor(windows, clockMs, alarmAt)
    {
      if windows == map[] {
        alarmAt := None;
        return;
      }
      var key := OldestKey(windows);
      alarmAt := Some(Max(windows[key].startMs + HOUR_MS, clockMs));
    }

    /** One admission request: decide, then set the alarm by the object's own clock. */
    method Fetch(config: Config, digest: string, nowMs: int, clockMs: int) returns (d: Decision)
      modifies this
      ensures (windows, d) == Admission(old(windows), config, digest, nowMs)
      ensures AlarmFor(windows, clockMs, alarmAt)
    {
      d := Admit(config, digest, nowMs);
      ScheduleCleanup(clockMs);
    }

    method Alarm(clockMs: int)
      modifies this
      ensures windows == Purged(old(windows), clockMs)
      ensures AlarmFor(windows, clockMs, alarmAt)
    {
      DeleteExpired(clockMs);
      ScheduleCleanup(clockMs);
    }
  }

  /** An alarm is due neither before the oldest row expires nor, unless the clock is past that, after. */
  lemma AlarmIsPrompt(t: Table, clockMs: int, alarmAt: Option<int>, firedMs: int)
    requires AlarmFor(t, clockMs, alarmAt)
    ensures alarmAt.None? <==> t == map[]
    ensures alarmAt.Some? ==> alarmAt.value >= clockMs && Purged(t, alarmAt.value) != t
    ensures alarmAt.Some? && clockMs <= firedMs < alarmAt.value ==> Purged(t, firedMs) == t
  {
    if alarmAt.Some? {
      AlarmDeletesARow(t, clockMs, alarmAt, alarmAt.value);
    }
  }

  /** An alarm that fires on time always deletes a row. */
  lemma AlarmDeletesARow(t: Table, clockMs: int, alarmAt: Option<int>, firedMs: int)
    requires AlarmFor(t, clockMs, alarmAt) && alarmAt.Some?
    requires firedMs >= alarmAt.value
    ensures |Purged(t, firedMs)| < |t|
    ensures Purged(t, firedMs).Keys < t.Keys
  {
    var key :| Oldest(t, key) && alarmAt == Some(Max(t[key].startMs + HOUR_MS, clockMs));
    var p := Purged(t, firedMs);
    assert key !in p && key in t.Keys;
    assert p.Keys <= t.Keys - {key};
    SubsetSize(p.Keys, t.Keys - {key});
    assert |p| == |p.Keys| && |t| == |t.Keys|;
  }

  /** The table after alarms at these times, with no admission in between. */
  function AfterAlarms(t: Table, firedMs: seq<int>): Table {
    if firedMs == [] then t else AfterAlarms(Purged(t, firedMs[0]), firedMs[1..])
  }

  /** Each alarm was set for the table it found, and fires when it is due or later. */
  ghost predicate OnTime(t: Table, clockMs: int, firedMs: seq<int>) {
    firedMs == []
    || (exists alarmAt :: AlarmFor(t, clockMs, alarmAt) && alarmAt.Some? && firedMs[0] >= alarmAt.value
                          && OnTime(Purged(t, firedMs[0]), firedMs[0], firedMs[1..]))
  }

  /** Every alarm takes a row at least, so a table nobody calls is empty after as many alarms as it had rows. */
  lemma {:induction false} AlarmsEmptyTheTable(t: Table, clockMs: int, firedMs: seq<int>)
    requires OnTime(t, clockMs, firedMs)
    ensures |AfterAlarms(t, firedMs)| + |firedMs| <= |t|
    ensures |firedMs| == |t| ==> AfterAlarms(t, firedMs) == map[]
    decreases |firedMs|
  {
    if firedMs != [] {
      var alarmAt :| AlarmFor(t, clockMs, alarmAt) && alarmAt.Some? && firedMs[0] >= alarmAt.value
                     && OnTime(Purged(t, firedMs[0]), firedMs[0], firedMs[1..]);
      AlarmDeletesARow(t, clockMs, alarmAt, firedMs[0]);
      AlarmsEmptyTheTable(Purged(t, firedMs[0]), firedMs[0], firedMs[1..]);
    }
  }
}
