/**
 What the bounded map forgets. Beside the real map runs a ledger that never forgets: the window
 each address was last given and the order of touches. The map keeps last-touch order and its
 bound, and forgets a live window only under pressure from that many other addresses.
 */
module LimitLru {
  import opened Wrappers
  import opened RateLimit
  import opened LimitRefinement

  /** The limiter, each address's window at its last touch, and the addresses touched, oldest first. */
  datatype Ledger = Ledger(memory: Memory, windows: map<Ip, Window>, touches: seq<Ip>)

  const EMPTY := Ledger(FRESH, map[], [])

  /** A call touches its address when it is admitted, or blocked per IP while its window is held. */
  function Apply(l: Ledger, config: Config, ip: Ip, nowMs: int): Ledger {
    var held := Find(Swept(l.memory, nowMs).perIp, ip);
    var (next, d) := MemoryStep(l.memory, config, ip, nowMs);
    if d == Admitted then Ledger(next, l.windows[ip := Tick(held, nowMs)], l.touches + [ip])
    else if d == PerIpCeiling && held.Some? then Ledger(next, l.windows[ip := held.value], l.touches + [ip])
    else l.(memory := next)
  }

  function Run(l: Ledger, config: Config, events: seq<Event>): Ledger
    decreases |events|
  {
    if events == [] then l
    else match events[0]
      case Call(ip, atMs) => Run(Apply(l, config, ip, atMs), config, events[1..])
      case CleanupAlarm(_) => Run(l, config, events[1..])
  }

  predicate NonDecreasingTo(events: seq<Event>, fromMs: int, toMs: int) {
    if events == [] then fromMs <= toMs
    else fromMs <= events[0].atMs && NonDecreasingTo(events[1..], events[0].atMs, toMs)
  }

  // ---------- last touches ----------

  /** One past the position of the last touch of `ip`, 0 when it was never touched. */
  function LastTouch(touches: seq<Ip>, ip: Ip): nat {
    if touches == [] then 0
    else if touches[|touches| - 1] == ip then |touches|
    else LastTouch(touches[..|touches| - 1], ip)
  }

  /** The other addresses touched since `ip` last was. */
  function Since(touches: seq<Ip>, ip: Ip): set<Ip> {
    if touches == [] || touches[|touches| - 1] == ip then {}
    else Since(touches[..|touches| - 1], ip) + {touches[|touches| - 1]}
  }

  lemma {:induction false} LastTouchAfter(touches: seq<Ip>, x: Ip, ip: Ip)
    ensures LastTouch(touches + [x], ip) == if ip == x then |touches| + 1 else LastTouch(touches, ip)
    ensures LastTouch(touches, ip) <= |touches|
    ensures Since(touches + [x], ip) == if ip == x then {} else Since(touches, ip) + {x}
    decreases |touches|
  {
    assert (touches + [x])[..|touches|] == touches;
    if touches != [] {
      var init, last := touches[..|touches| - 1], touches[|touches| - 1];
      assert touches == init + [last];
      LastTouchAfter(init, last, ip);
    }
  }

  /** An address was touched since `ip` exactly when its last touch is the later one. */
  lemma {:induction false} SinceIs(touches: seq<Ip>, ip: Ip, other: Ip)
    requires other != ip
    ensures other in Since(touches, ip) <==> LastTouch(touches, other) > LastTouch(touches, ip)
    decreases |touches|
  {
    if touches != [] {
      var init, last := touches[..|touches| - 1], touches[|touches| - 1];
      assert touches == init + [last];
      LastTouchAfter(init, last, ip);
      LastTouchAfter(init, last, other);
      SinceIs(init, ip, other);
    }
  }

  // ---------- what every run keeps ----------

  /** Iteration order is the order of last touches. */
  predicate TouchOrdered(entries: seq<Entry>, touches: seq<Ip>) {
    && (forall i, j :: 0 <= i < j < |entries| ==>
          LastTouch(touches, entries[i].ip) < LastTouch(touches, entries[j].ip))
    && (forall e :: e in entries ==> LastTouch(touches, e.ip) > 0)
  }

  predicate HoldsLedger(entries: seq<Entry>, windows: map<Ip, Window>) {
    forall e :: e in entries ==> e.ip in windows && windows[e.ip] == e.window
  }

  predicate MapInv(l: Ledger) {
    && Distinct(l.memory.perIp)
    && |l.memory.perIp| <= MAX_TRACKED_IP_WINDOWS
    && TouchOrdered(l.memory.perIp, l.touches)
    && HoldsLedger(l.memory.perIp, l.windows)
  }

  predicate LossExplained(l: Ledger, nowMs: int, ip: Ip) {
    (ip in l.windows && !Expired(l.windows[ip], nowMs) && Find(l.memory.perIp, ip).None?) ==>
      |Since(l.touches, ip)| >= MAX_TRACKED_IP_WINDOWS
  }

  ghost predicate LossInv(l: Ledger, nowMs: int) {
    forall ip :: LossExplained(l, nowMs, ip)
  }

  lemma {:induction false} LiveSub(entries: seq<Entry>, nowMs: int, touches: seq<Ip>)
    requires TouchOrdered(entries, touches)
    ensures TouchOrdered(Live(entries, nowMs), touches)
    ensures |Live(entries, nowMs)| <= |entries|
    ensures forall e :: e in Live(entries, nowMs) ==> e in entries
  {
    if entries != [] {
      assert forall e :: e in entries[1..] ==> e in entries;
      LiveSub(entries[1..], nowMs, touches);
      var rest := Live(entries[1..], nowMs);
      if !Expired(entries[0].window, nowMs) {
        forall i, j | 0 <= i < j < |[entries[0]] + rest|
          ensures LastTouch(touches, ([entries[0]] + rest)[i].ip) < LastTouch(touches, ([entries[0]] + rest)[j].ip)
        {
          if i == 0 {
            assert rest[j - 1] in entries[1..];
          }
        }
      }
    }
  }

  lemma {:induction false} WithoutSub(entries: seq<Entry>, ip: Ip, touches: seq<Ip>)
    requires TouchOrdered(entries, touches)
    ensures TouchOrdered(Without(entries, ip), touches)
    ensures |Without(entries, ip)| <= |entries|
    ensures forall e :: e in Without(entries, ip) <==> e in entries && e.ip != ip
  {
    if entries != [] {
      assert forall e :: e in entries[1..] ==> e in entries;
      WithoutSub(entries[1..], ip, touches);
      var rest := Without(entries[1..], ip);
      if entries[0].ip != ip {
        forall i, j | 0 <= i < j < |[entries[0]] + rest|
          ensures LastTouch(touches, ([entries[0]] + rest)[i].ip) < LastTouch(touches, ([entries[0]] + rest)[j].ip)
        {
          if i == 0 {
            assert rest[j - 1] in entries[1..];
          }
        }
      }
    }
  }

  /** A touched entry goes last, which is where its new last touch belongs. */
  lemma TouchedOrdered(entries: seq<Entry>, ip: Ip, window: Window, touches: seq<Ip>)
    requires TouchOrdered(entries, touches)
    ensures TouchOrdered(Touched(entries, ip, window), touches + [ip])
  {
    WithoutSub(entries, ip, touches);
    var kept, after := Without(entries, ip), Touched(entries, ip, window);
    forall e | e in after
      ensures e.ip == ip ==> LastTouch(touches + [ip], e.ip) == |touches| + 1
      ensures e.ip != ip ==> 0 < LastTouch(touches, e.ip) == LastTouch(touches + [ip], e.ip) <= |touches|
    {
      LastTouchAfter(touches, ip, e.ip);
    }
    forall i, j | 0 <= i < j < |after|
      ensures LastTouch(touches + [ip], after[i].ip) < LastTouch(touches + [ip], after[j].ip)
    {
      assert after[i] == kept[i] && kept[i] in kept && after[i] in after && after[j] in after;
      if j < |kept| {
        assert after[j] == kept[j] && kept[j] in kept;
      }
    }
  }

  lemma TouchKeepsMap(l: Ledger, ip: Ip, window: Window)
    requires MapInv(l)
    ensures var t := Touched(l.memory.perIp, ip, window);
      var windows, touches := l.windows[ip := window], l.touches + [ip];
      && Distinct(t) && |t| <= MAX_TRACKED_IP_WINDOWS + 1
      && TouchOrdered(t, touches) && HoldsLedger(t, windows)
  {
    TouchedIs(l.memory.perIp, ip, window);
    WithoutSub(l.memory.perIp, ip, l.touches);
    TouchedOrdered(l.memory.perIp, ip, window, l.touches);
  }

  lemma BoundedKeeps(t: seq<Entry>, windows: map<Ip, Window>, touches: seq<Ip>)
    requires Distinct(t) && |t| <= MAX_TRACKED_IP_WINDOWS + 1
    requires TouchOrdered(t, touches) && HoldsLedger(t, windows)
    ensures Distinct(Bounded(t)) && |Bounded(t)| <= MAX_TRACKED_IP_WINDOWS
    ensures TouchOrdered(Bounded(t), touches) && HoldsLedger(Bounded(t), windows)
  {
    assert forall e :: e in Bounded(t) ==> e in t;
  }

  lemma SweepKeepsMap(l: Ledger, nowMs: int)
    requires MapInv(l)
    ensures MapInv(l.(memory := Swept(l.memory, nowMs)))
  {
    LiveSub(l.memory.perIp, nowMs, l.touches);
    LiveFind(l.memory.perIp, nowMs, "");
  }

  lemma ApplyKeepsMap(l: Ledger, config: Config, ip: Ip, nowMs: int)
    requires MapInv(l)
    ensures MapInv(Apply(l, config, ip, nowMs))
  {
    SweepKeepsMap(l, nowMs);
    var s := l.(memory := Swept(l.memory, nowMs));
    var held := Find(s.memory.perIp, ip);
    var (_, d) := MemoryStep(l.memory, config, ip, nowMs);
    if d == Admitted {
      TouchKeepsMap(s, ip, Tick(held, nowMs));
      BoundedKeeps(Touched(s.memory.perIp, ip, Tick(held, nowMs)), s.windows[ip := Tick(held, nowMs)], s.touches + [ip]);
    } else if d == PerIpCeiling && held.Some? {
      TouchKeepsMap(s, ip, held.value);
      HeldFits(s.memory.perIp, ip, held.value);
    }
  }

  lemma HeldFits(entries: seq<Entry>, ip: Ip, window: Window)
    requires Distinct(entries) && Find(entries, ip).Some?
    ensures |Touched(entries, ip, window)| <= |entries|
  {
    TouchedIs(entries, ip, window);
  }

  // ---------- why a live window can be missing ----------

  function IpsOf(entries: seq<Entry>): set<Ip> {
    if entries == [] then {} else {entries[0].ip} + IpsOf(entries[1..])
  }

  lemma {:induction false} IpsOfIs(entries: seq<Entry>)
    requires Distinct(entries)
    ensures |IpsOf(entries)| == |entries|
    ensures forall ip :: ip in IpsOf(entries) <==> exists i :: 0 <= i < |entries| && entries[i].ip == ip
  {
    if entries != [] {
      IpsOfIs(entries[1..]);
      forall ip
        ensures ip in IpsOf(entries) <==> exists i :: 0 <= i < |entries| && entries[i].ip == ip
      {
        if i :| 0 <= i < |entries| && entries[i].ip == ip && i > 0 {
          assert entries[1..][i - 1].ip == ip;
        }
        if i :| 0 <= i < |entries[1..]| && entries[1..][i].ip == ip {
          assert entries[i + 1].ip == ip;
        }
      }
    }
  }

  /** Everyone behind the front entry was touched after it. */
  lemma FrontIsOldest(t: seq<Entry>, touches: seq<Ip>)
    requires Distinct(t) && TouchOrdered(t, touches) && t != []
    ensures IpsOf(t[1..]) <= Since(touches, t[0].ip)
    ensures |Since(touches, t[0].ip)| >= |t| - 1
  {
    IpsOfIs(t[1..]);
    forall ip | ip in IpsOf(t[1..]) ensures ip in Since(touches, t[0].ip) {
      var i :| 0 <= i < |t[1..]| && t[1..][i].ip == ip;
      assert t[i + 1].ip == ip;
      SinceIs(touches, t[0].ip, ip);
    }
    SubsetSize(IpsOf(t[1..]), Since(touches, t[0].ip));
  }

  lemma SweepLoses(l: Ledger, nowMs: int, laterMs: int, ip: Ip)
    requires MapInv(l) && LossExplained(l, nowMs, ip) && nowMs <= laterMs
    ensures LossExplained(l.(memory := Swept(l.memory, laterMs)), laterMs, ip)
  {
    LiveFind(l.memory.perIp, laterMs, ip);
    HeldIsLedger(l.memory.perIp, l.windows, ip);
  }

  lemma {:induction false} HeldIsLedger(entries: seq<Entry>, windows: map<Ip, Window>, ip: Ip)
    requires HoldsLedger(entries, windows)
    ensures Find(entries, ip).Some? ==> ip in windows && windows[ip] == Find(entries, ip).value
  {
    if entries != [] {
      assert entries[0] in entries;
      assert forall e :: e in entries[1..] ==> e in entries;
      HeldIsLedger(entries[1..], windows, ip);
    }
  }

  lemma TouchLoses(l: Ledger, ip: Ip, window: Window, nowMs: int, other: Ip)
    requires MapInv(l) && LossExplained(l, nowMs, other)
    ensures var t := Touched(l.memory.perIp, ip, window);
      var after := Ledger(l.memory.(perIp := t), l.windows[ip := window], l.touches + [ip]);
      LossExplained(after, nowMs, other)
  {
    TouchedFind(l.memory.perIp, ip, window, other);
    LastTouchAfter(l.touches, ip, other);
    SubsetSize(Since(l.touches, other), Since(l.touches, other) + {ip});
  }

  lemma BoundedLoses(l: Ledger, nowMs: int, other: Ip)
    requires Distinct(l.memory.perIp) && |l.memory.perIp| <= MAX_TRACKED_IP_WINDOWS + 1
    requires TouchOrdered(l.memory.perIp, l.touches)
    requires LossExplained(l, nowMs, other)
    ensures LossExplained(l.(memory := l.memory.(perIp := Bounded(l.memory.perIp))), nowMs, other)
  {
    var t := l.memory.perIp;
    if |t| > MAX_TRACKED_IP_WINDOWS && Find(t, other).Some? && t[0].ip == other {
      FrontIsOldest(t, l.touches);
    }
  }

  lemma ApplyLoses(l: Ledger, config: Config, ip: Ip, nowMs: int, laterMs: int)
    requires MapInv(l) && LossInv(l, nowMs) && nowMs <= laterMs
    ensures LossInv(Apply(l, config, ip, laterMs), laterMs)
  {
    SweepKeepsMap(l, laterMs);
    var s := l.(memory := Swept(l.memory, laterMs));
    var held := Find(s.memory.perIp, ip);
    var (next, d) := MemoryStep(l.memory, config, ip, laterMs);
    var after := Apply(l, config, ip, laterMs);
    forall other ensures LossExplained(after, laterMs, other) {
      assert LossExplained(l, nowMs, other);
      SweepLoses(l, nowMs, laterMs, other);
      if d == Admitted {
        var w := Tick(held, laterMs);
        TouchKeepsMap(s, ip, w);
        TouchLoses(s, ip, w, laterMs, other);
        var t := Touched(s.memory.perIp, ip, w);
        BoundedLoses(Ledger(s.memory.(perIp := t), s.windows[ip := w], s.touches + [ip]), laterMs, other);
      } else if d == PerIpCeiling && held.Some? {
        TouchLoses(s, ip, held.value, laterMs, other);
      }
    }
  }

  // ---------- over whole runs ----------

  lemma {:induction false} RunKeepsMap(l: Ledger, config: Config, events: seq<Event>)
    requires MapInv(l)
    ensures MapInv(Run(l, config, events))
    decreases |events|
  {
    if events != [] {
      match events[0]
      case CleanupAlarm(_) => RunKeepsMap(l, config, events[1..]);
      case Call(ip, atMs) =>
        ApplyKeepsMap(l, config, ip, atMs);
        RunKeepsMap(Apply(l, config, ip, atMs), config, events[1..]);
    }
  }

  lemma {:induction false} RunKeepsLosses(l: Ledger, config: Config, events: seq<Event>, fromMs: int, toMs: int)
    requires MapInv(l) && LossInv(l, fromMs) && NonDecreasingTo(events, fromMs, toMs)
    ensures LossInv(Run(l, config, events), toMs)
    decreases |events|
  {
    if events == [] {
      forall ip ensures LossExplained(l, toMs, ip) {
        assert LossExplained(l, fromMs, ip);
      }
    } else {
      match events[0]
      case CleanupAlarm(atMs) =>
        forall ip ensures LossExplained(l, atMs, ip) {
          assert LossExplained(l, fromMs, ip);
        }
        RunKeepsLosses(l, config, events[1..], atMs, toMs);
      case Call(ip, atMs) =>
        ApplyKeepsMap(l, config, ip, atMs);
        ApplyLoses(l, config, ip, fromMs, atMs);
        RunKeepsLosses(Apply(l, config, ip, atMs), config, events[1..], atMs, toMs);
    }
  }

  /**
   In every run, whatever its times: addresses are distinct, the bound holds, iteration order is
   the order of last touches, and a held window is the one given at the last touch.
   */
  lemma MapIsLru(config: Config, events: seq<Event>)
    ensures var l := Run(EMPTY, config, events);
      var entries := l.memory.perIp;
      && |entries| <= MAX_TRACKED_IP_WINDOWS
      && (forall i, j :: 0 <= i < j < |entries| ==>
            entries[i].ip != entries[j].ip
            && LastTouch(l.touches, entries[i].ip) < LastTouch(l.touches, entries[j].ip))
      && (forall e :: e in entries ==> e.ip in l.windows && l.windows[e.ip] == e.window)
  {
    RunKeepsMap(EMPTY, config, events);
  }

  /**
   With time moving forward, a window that has not expired and is no longer held was lost to at
   least `MAX_TRACKED_IP_WINDOWS` other addresses, all touched since its own last touch.
   */
  lemma LiveWindowsAreLostToPressure(config: Config, events: seq<Event>, fromMs: int, toMs: int, ip: Ip)
    requires NonDecreasingTo(events, fromMs, toMs)
    ensures var l := Run(EMPTY, config, events);
      (ip in l.windows && !Expired(l.windows[ip], toMs) && Find(l.memory.perIp, ip).None?) ==>
        |Since(l.touches, ip)| >= MAX_TRACKED_IP_WINDOWS
  {
    RunKeepsLosses(EMPTY, config, events, fromMs, toMs);
    assert LossExplained(Run(EMPTY, config, events), toMs, ip);
  }
}
