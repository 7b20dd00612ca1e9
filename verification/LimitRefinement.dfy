/**
 The two limiters run one policy: over the same calls they decide alike, wherever the durable
 one's cleanup alarms fall, as long as time does not run backwards and the in-memory map is not
 asked to remember more addresses than it keeps.
 */
module LimitRefinement {
  import opened Wrappers
  import opened RateLimit
  import opened DurableLimit

  datatype Event = Call(ip: Ip, atMs: int) | CleanupAlarm(atMs: int)

  predicate NonDecreasing(events: seq<Event>, fromMs: int) {
    events == [] || (fromMs <= events[0].atMs && NonDecreasing(events[1..], events[0].atMs))
  }

  function Ips(events: seq<Event>): set<Ip> {
    if events == [] then {}
    else (if events[0].Call? then {events[0].ip} else {}) + Ips(events[1..])
  }

  /** The decision at every call, in order, of the in-memory limiter. */
  function MemoryDecisions(m: Memory, config: Config, events: seq<Event>): seq<Decision>
    decreases |events|
  {
    if events == [] then []
    else match events[0]
      case Call(ip, atMs) =>
        var (next, d) := MemoryStep(m, config, ip, atMs);
        [d] + MemoryDecisions(next, config, events[1..])
      case CleanupAlarm(_) => MemoryDecisions(m, config, events[1..])
  }

  /** The decision at every call, in order, of the durable limiter. */
  function DurableDecisions(t: Table, config: Config, events: seq<Event>): seq<Decision>
    decreases |events|
  {
    if events == [] then []
    else match events[0]
      case Call(ip, atMs) =>
        var (next, d) := Admission(t, config, ip, atMs);
        [d] + DurableDecisions(next, config, events[1..])
      case CleanupAlarm(atMs) => DurableDecisions(Purged(t, atMs), config, events[1..])
  }

  // ---------- the live part of a window ----------

  function LiveAt(w: Option<Window>, nowMs: int): Option<Window> {
    if w.Some? && !Expired(w.value, nowMs) then w else None
  }

  function Counted(w: Option<Window>, nowMs: int): Window {
    Window(StartOf(w, nowMs), CountOf(w) + 1)
  }

  /** The policy both implement, on live windows alone. */
  function Policy(global: Option<Window>, perIp: Option<Window>, config: Config): Decision {
    if CountOf(global) + 1 > config.globalPerHour then GlobalCeiling
    else if CountOf(perIp) + 1 > config.perIpPerHour then PerIpCeiling
    else Admitted
  }

  ghost predicate SameLive(m: Memory, t: Table, nowMs: int) {
    && LiveAt(m.global, nowMs) == LiveAt(Read(t, GLOBAL_KEY), nowMs)
    && forall ip :: LiveAt(Find(m.perIp, ip), nowMs) == LiveAt(Read(t, IpKey(ip)), nowMs)
  }

  predicate Tracks(entries: seq<Entry>, known: set<Ip>) {
    Distinct(entries) && forall e :: e in entries ==> e.ip in known
  }

  lemma {:induction false} TracksAtMost(entries: seq<Entry>, known: set<Ip>)
    requires Tracks(entries, known)
    ensures |entries| <= |known|
    decreases |entries|
  {
    if entries != [] {
      var last := entries[|entries| - 1];
      assert last in entries;
      forall e | e in entries[..|entries| - 1] ensures e.ip in known - {last.ip} {
        assert e in entries;
      }
      TracksAtMost(entries[..|entries| - 1], known - {last.ip});
    }
  }

  lemma SweptView(m: Memory, nowMs: int, known: set<Ip>)
    requires Tracks(m.perIp, known)
    ensures Tracks(Swept(m, nowMs).perIp, known)
    ensures Swept(m, nowMs).global == m.global
    ensures forall ip :: LiveAt(Find(Swept(m, nowMs).perIp, ip), nowMs) == LiveAt(Find(m.perIp, ip), nowMs)
  {
    forall ip ensures LiveAt(Find(Swept(m, nowMs).perIp, ip), nowMs) == LiveAt(Find(m.perIp, ip), nowMs) {
      LiveFind(m.perIp, nowMs, ip);
    }
    LiveFind(m.perIp, nowMs, "");
  }

  lemma TouchedTracks(entries: seq<Entry>, ip: Ip, window: Window, known: set<Ip>)
    requires Tracks(entries, known) && ip in known
    ensures Tracks(Touched(entries, ip, window), known)
  {
    TouchedIs(entries, ip, window);
    WithoutIs(entries, ip);
  }

  /** One in-memory call follows the policy on its live windows, and stores exactly the counted ones. */
  lemma MemoryFollowsPolicy(m: Memory, config: Config, ip: Ip, nowMs: int, known: set<Ip>)
    requires Tracks(m.perIp, known) && ip in known && |known| <= MAX_TRACKED_IP_WINDOWS
    ensures var (n, d) := MemoryStep(m, config, ip, nowMs);
      var g, p := LiveAt(m.global, nowMs), LiveAt(Find(m.perIp, ip), nowMs);
      && Tracks(n.perIp, known)
      && d == Policy(g, p, config)
      && LiveAt(n.global, nowMs) == (if d == Admitted then Some(Counted(g, nowMs)) else g)
      && forall other :: LiveAt(Find(n.perIp, other), nowMs) ==
           if d == Admitted && other == ip then Some(Counted(p, nowMs)) else LiveAt(Find(m.perIp, other), nowMs)
  {
    SweptView(m, nowMs, known);
    var s := Swept(m, nowMs);
    var (n, d) := MemoryStep(m, config, ip, nowMs);
    var current := Find(s.perIp, ip);
    assert LiveAt(current, nowMs) == LiveAt(Find(m.perIp, ip), nowMs);
    assert Tick(current, nowMs) == Counted(LiveAt(current, nowMs), nowMs);
    assert Tick(s.global, nowMs) == Counted(LiveAt(s.global, nowMs), nowMs);
    if d == Admitted || (d == PerIpCeiling && current.Some?) {
      var w := if d == Admitted then Tick(current, nowMs) else current.value;
      TouchedTracks(s.perIp, ip, w, known);
      TracksAtMost(Touched(s.perIp, ip, w), known);
      assert n.perIp == Touched(s.perIp, ip, w);
      forall other
        ensures Find(n.perIp, other) == if other == ip then Some(w) else Find(s.perIp, other)
      {
        TouchedFind(s.perIp, ip, w, other);
      }
    }
  }

  /** One durable request follows the same policy, and stores exactly the same windows. */
  lemma DurableFollowsPolicy(t: Table, config: Config, ip: Ip, nowMs: int)
    ensures var (n, d) := Admission(t, config, ip, nowMs);
      var g, p := LiveAt(Read(t, GLOBAL_KEY), nowMs), LiveAt(Read(t, IpKey(ip)), nowMs);
      && d == Policy(g, p, config)
      && LiveAt(Read(n, GLOBAL_KEY), nowMs) == (if d == Admitted then Some(Counted(g, nowMs)) else g)
      && forall other :: LiveAt(Read(n, IpKey(other)), nowMs) ==
           if d == Admitted && other == ip then Some(Counted(p, nowMs)) else LiveAt(Read(t, IpKey(other)), nowMs)
  {
    var purged := Purged(t, nowMs);
    var (n, d) := Admission(t, config, ip, nowMs);
    forall key ensures Read(purged, key) == LiveAt(Read(t, key), nowMs) {}
    KeysApart(ip, ip);
    forall other
      ensures LiveAt(Read(n, IpKey(other)), nowMs) ==
        if d == Admitted && other == ip then Some(Counted(LiveAt(Read(t, IpKey(ip)), nowMs), nowMs))
        else LiveAt(Read(t, IpKey(other)), nowMs)
    {
      KeysApart(other, ip);
      assert Read(purged, IpKey(other)) == LiveAt(Read(t, IpKey(other)), nowMs);
    }
  }

  lemma TimePasses(m: Memory, t: Table, nowMs: int, laterMs: int)
    requires SameLive(m, t, nowMs) && nowMs <= laterMs
    ensures SameLive(m, t, laterMs)
  {
    forall ip ensures LiveAt(Find(m.perIp, ip), laterMs) == LiveAt(Read(t, IpKey(ip)), laterMs) {
      assert LiveAt(Find(m.perIp, ip), nowMs) == LiveAt(Read(t, IpKey(ip)), nowMs);
    }
  }

  lemma PurgeIsInvisible(m: Memory, t: Table, nowMs: int)
    requires SameLive(m, t, nowMs)
    ensures SameLive(m, Purged(t, nowMs), nowMs)
  {
    forall key ensures LiveAt(Read(Purged(t, nowMs), key), nowMs) == LiveAt(Read(t, key), nowMs) {}
    forall ip ensures LiveAt(Find(m.perIp, ip), nowMs) == LiveAt(Read(Purged(t, nowMs), IpKey(ip)), nowMs) {
      assert LiveAt(Find(m.perIp, ip), nowMs) == LiveAt(Read(t, IpKey(ip)), nowMs);
    }
  }

  lemma {:induction false} DecisionsAgree(m: Memory, t: Table, config: Config, events: seq<Event>,
                                          nowMs: int, known: set<Ip>)
    requires SameLive(m, t, nowMs) && NonDecreasing(events, nowMs)
    requires Tracks(m.perIp, known) && Ips(events) <= known && |known| <= MAX_TRACKED_IP_WINDOWS
    ensures MemoryDecisions(m, config, events) == DurableDecisions(t, config, events)
    decreases |events|
  {
    if events != [] {
      var atMs := events[0].atMs;
      TimePasses(m, t, nowMs, atMs);
      match events[0]
      case CleanupAlarm(_) =>
        PurgeIsInvisible(m, t, atMs);
        DecisionsAgree(m, Purged(t, atMs), config, events[1..], atMs, known);
      case Call(ip, _) =>
        assert ip in Ips(events);
        MemoryFollowsPolicy(m, config, ip, atMs, known);
        DurableFollowsPolicy(t, config, ip, atMs);
        assert LiveAt(Find(m.perIp, ip), atMs) == LiveAt(Read(t, IpKey(ip)), atMs);
        var (m', d) := MemoryStep(m, config, ip, atMs);
        var (t', e) := Admission(t, config, ip, atMs);
        assert d == e;
        assert SameLive(m', t', atMs) by {
          forall other ensures LiveAt(Find(m'.perIp, other), atMs) == LiveAt(Read(t', IpKey(other)), atMs) {
            assert LiveAt(Find(m.perIp, other), atMs) == LiveAt(Read(t, IpKey(other)), atMs);
          }
        }
        DecisionsAgree(m', t', config, events[1..], atMs, known);
    }
  }

  /** The two limiters, started fresh, give the same decision at every call. */
  lemma LimitersAgree(config: Config, events: seq<Event>, fromMs: int)
    requires NonDecreasing(events, fromMs)
    requires |Ips(events)| <= MAX_TRACKED_IP_WINDOWS
    ensures MemoryDecisions(FRESH, config, events) == DurableDecisions(map[], config, events)
  {
    DecisionsAgree(FRESH, map[], config, events, fromMs, Ips(events));
  }

  // ---------- alarms make no difference ----------

  function CallsOf(events: seq<Event>): seq<Event> {
    if events == [] then []
    else if events[0].Call? then [events[0]] + CallsOf(events[1..])
    else CallsOf(events[1..])
  }

  ghost predicate SameRows(t: Table, u: Table, nowMs: int) {
    && LiveAt(Read(t, GLOBAL_KEY), nowMs) == LiveAt(Read(u, GLOBAL_KEY), nowMs)
    && forall ip :: LiveAt(Read(t, IpKey(ip)), nowMs) == LiveAt(Read(u, IpKey(ip)), nowMs)
  }

  lemma RowsAge(t: Table, u: Table, nowMs: int, laterMs: int)
    requires SameRows(t, u, nowMs) && nowMs <= laterMs
    ensures SameRows(t, u, laterMs) && SameRows(Purged(t, laterMs), u, laterMs)
  {
    forall key ensures LiveAt(Read(Purged(t, laterMs), key), laterMs) == LiveAt(Read(t, key), laterMs) {}
    forall ip ensures LiveAt(Read(t, IpKey(ip)), laterMs) == LiveAt(Read(u, IpKey(ip)), laterMs) {
      assert LiveAt(Read(t, IpKey(ip)), nowMs) == LiveAt(Read(u, IpKey(ip)), nowMs);
    }
  }

  lemma {:induction false} AlarmsDropOut(t: Table, u: Table, config: Config, events: seq<Event>, fromMs: int)
    requires SameRows(t, u, fromMs) && NonDecreasing(events, fromMs)
    ensures DurableDecisions(t, config, events) == DurableDecisions(u, config, CallsOf(events))
    decreases |events|
  {
    if events != [] {
      RowsAge(t, u, fromMs, events[0].atMs);
      match events[0]
      case CleanupAlarm(atMs) =>
        AlarmsDropOut(Purged(t, atMs), u, config, events[1..], atMs);
      case Call(ip, atMs) =>
        DurableFollowsPolicy(t, config, ip, atMs);
        DurableFollowsPolicy(u, config, ip, atMs);
        assert LiveAt(Read(t, IpKey(ip)), atMs) == LiveAt(Read(u, IpKey(ip)), atMs);
        var (t', d) := Admission(t, config, ip, atMs);
        var (u', e) := Admission(u, config, ip, atMs);
        assert SameRows(t', u', atMs) by {
          forall other ensures LiveAt(Read(t', IpKey(other)), atMs) == LiveAt(Read(u', IpKey(other)), atMs) {
            assert LiveAt(Read(t, IpKey(other)), atMs) == LiveAt(Read(u, IpKey(other)), atMs);
          }
        }
        AlarmsDropOut(t', u', config, events[1..], atMs);
        assert CallsOf(events)[1..] == CallsOf(events[1..]);
    }
  }

  /** Cleanup alarms change no decision of the durable limiter, however many addresses call. */
  lemma AlarmsAreInvisible(config: Config, events: seq<Event>, fromMs: int)
    requires NonDecreasing(events, fromMs)
    ensures DurableDecisions(map[], config, events) == DurableDecisions(map[], config, CallsOf(events))
  {
    AlarmsDropOut(map[], map[], config, events, fromMs);
  }
}
