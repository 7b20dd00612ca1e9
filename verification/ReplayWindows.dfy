/**
 One-time assertions and events over a store whose entries expire: read the key, and when it is
 absent write it with a time to live. Claims are judged by a clock read in whole seconds before the
 store is reached: at the very start for an assertion, after the signature check for an event. What
 is let through twice depends on the delay between the two alone.
 */
module ReplayWindows {
  import opened Wrappers

  const SECOND: int := 1000
  const DAY: int := 24 * 60 * 60 * 1000

  // ---------- the store ----------

  /** Keys with the moment each entry expires, in milliseconds. */
  type Entries = map<string, int>

  predicate Present(e: Entries, key: string, atMs: int) {
    key in e && atMs < e[key]
  }

  class TtlStore {
    var entries: Entries

    constructor ()
      ensures entries == map[]
    {
      entries := map[];
    }

    method Get(key: string, atMs: int) returns (found: bool)
      ensures found == Present(entries, key, atMs)
    {
      found := key in entries && atMs < entries[key];
    }

    method Put(key: string, atMs: int, ttlMs: int)
      modifies this
      ensures entries == old(entries)[key := atMs + ttlMs]
    {
      entries := entries[key := atMs + ttlMs];
    }
  }

  // ---------- one visit ----------

  /** A claim check that passed or not, then a read and, when the key is absent, a write. */
  datatype Visit = Visit(key: string, passes: bool, startMs: int, getMs: int, putMs: int, ttlMs: int)

  predicate Admits(e: Entries, v: Visit) {
    v.passes && !Present(e, v.key, v.getMs)
  }

  function After(e: Entries, v: Visit): Entries {
    if Admits(e, v) then e[v.key := v.putMs + v.ttlMs] else e
  }

  /** The entries before visit `i`. */
  function Before(visits: seq<Visit>, i: nat): Entries
    requires i <= |visits|
  {
    if i == 0 then map[] else After(Before(visits, i - 1), visits[i - 1])
  }

  predicate Admitted(visits: seq<Visit>, i: nat)
    requires i < |visits|
  {
    Admits(Before(visits, i), visits[i])
  }

  /** Each visit reads after it starts and writes after it reads, and no two overlap. */
  predicate InTurn(visits: seq<Visit>) {
    && (forall i :: 0 <= i < |visits| ==>
          visits[i].startMs <= visits[i].getMs <= visits[i].putMs && visits[i].ttlMs >= 0)
    && (forall i :: 0 < i < |visits| ==> visits[i - 1].putMs <= visits[i].startMs)
  }

  /** Once written, a key stays until its entry has expired. */
  lemma {:induction false} EntryOutlives(visits: seq<Visit>, i: nat, j: nat)
    requires InTurn(visits) && i < j <= |visits| && Admitted(visits, i)
    ensures visits[i].key in Before(visits, j)
    ensures Before(visits, j)[visits[i].key] >= visits[i].putMs + visits[i].ttlMs
    decreases j - i
  {
    if j > i + 1 {
      EntryOutlives(visits, i, j - 1);
    }
  }

  /** A key is admitted again only by a visit that reads it after the earlier entry expired. */
  lemma SecondAdmissionReadsLate(visits: seq<Visit>, i: nat, j: nat)
    requires InTurn(visits) && i < j < |visits| && visits[i].key == visits[j].key
    requires Admitted(visits, i) && Admitted(visits, j)
    ensures visits[j].getMs >= visits[i].putMs + visits[i].ttlMs
  {
    EntryOutlives(visits, i, j);
  }

  /** An entry was written by an earlier visit that was admitted under its key. */
  lemma {:induction false} EntryHasAWriter(visits: seq<Visit>, j: nat, key: string) returns (i: nat)
    requires j <= |visits| && key in Before(visits, j)
    ensures i < j && visits[i].key == key && Admitted(visits, i)
    ensures Before(visits, j)[key] == visits[i].putMs + visits[i].ttlMs
    decreases j
  {
    var last := visits[j - 1];
    if last.key == key && Admits(Before(visits, j - 1), last) {
      i := j - 1;
    } else {
      i := EntryHasAWriter(visits, j - 1, key);
    }
  }

  /** A visit is admitted exactly when its claims pass and every earlier admission of its key has expired by its read. */
  lemma AdmittedExactlyWhen(visits: seq<Visit>, j: nat)
    requires InTurn(visits) && j < |visits|
    ensures Admitted(visits, j) <==>
      visits[j].passes
      && forall i :: 0 <= i < j && visits[i].key == visits[j].key && Admitted(visits, i) ==>
           visits[j].getMs >= visits[i].putMs + visits[i].ttlMs
  {
    if Admitted(visits, j) {
      forall i | 0 <= i < j && visits[i].key == visits[j].key && Admitted(visits, i)
        ensures visits[j].getMs >= visits[i].putMs + visits[i].ttlMs
      {
        SecondAdmissionReadsLate(visits, i, j);
      }
    } else if visits[j].passes {
      var i := EntryHasAWriter(visits, j, visits[j].key);
    }
  }

  // ---------- ID-JAG assertions ----------

  const MIN_TTL: int := 60 * 1000
  const AUTH_TIME_FRESHNESS: int := 300 * 1000
  const AUTH_TIME_SKEW: int := 60 * 1000

  /** The claims of one assertion that the replay window depends on; times may be fractions of a second. */
  datatype IdJag = IdJag(jti: string, expMs: int, authTimeMs: int, emailVerified: bool, trusted: bool)

  function WholeSeconds(ms: int): int {
    ms / SECOND * SECOND
  }

  /** Issuer, signature and audience are trusted, and the claims are fresh at `nowMs`. */
  predicate Fresh(t: IdJag, nowMs: int) {
    && t.trusted && t.jti != ""
    && t.expMs > nowMs
    && nowMs - t.authTimeMs <= AUTH_TIME_FRESHNESS
    && t.authTimeMs - nowMs <= AUTH_TIME_SKEW
    && t.emailVerified
  }

  function JtiTtl(t: IdJag, nowMs: int): int {
    if t.expMs - nowMs > MIN_TTL then t.expMs - nowMs else MIN_TTL
  }

  /** A presentation: the clock at the start, then the cache read, then its write. */
  datatype Presentation<T> = Presentation(token: T, startMs: int, getMs: int, putMs: int)

  function JagVisit(p: Presentation<IdJag>): Visit {
    var now := WholeSeconds(p.startMs);
    Visit("jti:" + p.token.jti, Fresh(p.token, now), p.startMs, p.getMs, p.putMs, JtiTtl(p.token, now))
  }

  function JagVisits(ps: seq<Presentation<IdJag>>): seq<Visit> {
    seq(|ps|, i requires 0 <= i < |ps| => JagVisit(ps[i]))
  }

  datatype JagResult = JagAccepted | NotFresh | Replayed

  method VerifyIdJag(kv: TtlStore, p: Presentation<IdJag>) returns (r: JagResult)
    modifies kv
    ensures r.JagAccepted? <==> Admits(old(kv.entries), JagVisit(p))
    ensures r.NotFresh? <==> !JagVisit(p).passes
    ensures kv.entries == After(old(kv.entries), JagVisit(p))
  {
    var now := WholeSeconds(p.startMs);
    if !Fresh(p.token, now) {
      return NotFresh;
    }
    var seen := kv.Get("jti:" + p.token.jti, p.getMs);
    if seen {
      return Replayed;
    }
    kv.Put("jti:" + p.token.jti, p.putMs, JtiTtl(p.token, now));
    return JagAccepted;
  }

  /**
   In every history of presentations that do not overlap, an assertion is accepted again only by a
   presentation that took its clock before the assertion expired and read the cache after.
   */
  lemma JagIsAcceptedAgainOnlyAcrossItsExpiry(ps: seq<Presentation<IdJag>>, i: nat, j: nat)
    requires InTurn(JagVisits(ps)) && i < j < |ps| && ps[i].token == ps[j].token
    requires Admitted(JagVisits(ps), i) && Admitted(JagVisits(ps), j)
    ensures WholeSeconds(ps[j].startMs) < ps[j].token.expMs <= ps[j].getMs
  {
    SecondAdmissionReadsLate(JagVisits(ps), i, j);
    assert JagVisits(ps)[i] == JagVisit(ps[i]) && JagVisits(ps)[j] == JagVisit(ps[j]);
  }

  /** Presentations that read the cache before the assertion expires accept it at most once ever. */
  lemma PromptJagIsAcceptedOnce(ps: seq<Presentation<IdJag>>, t: IdJag, i: nat, j: nat)
    requires InTurn(JagVisits(ps)) && i < |ps| && j < |ps|
    requires forall k :: 0 <= k < |ps| && ps[k].token == t && WholeSeconds(ps[k].startMs) < t.expMs ==> ps[k].getMs < t.expMs
    requires ps[i].token == t && ps[j].token == t
    requires Admitted(JagVisits(ps), i) && Admitted(JagVisits(ps), j)
    ensures i == j
  {
    if i < j {
      JagIsAcceptedAgainOnlyAcrossItsExpiry(ps, i, j);
    } else if j < i {
      JagIsAcceptedAgainOnlyAcrossItsExpiry(ps, j, i);
    }
  }

  lemma KeysFollowJtis(a: string, b: string)
    ensures "jti:" + a == "jti:" + b <==> a == b
  {
    assert ("jti:" + a)[4..] == a && ("jti:" + b)[4..] == b;
  }

  /**
   In every history, exactly which presentations are accepted: those of a trusted assertion with a
   verified email, unexpired and of a recent sign-in by their own clock in whole seconds, that read the
   cache after the entry of every earlier acceptance of the same jti has expired.
   */
  lemma JagIsAcceptedExactlyWhen(ps: seq<Presentation<IdJag>>, j: nat)
    requires InTurn(JagVisits(ps)) && j < |ps|
    ensures Admitted(JagVisits(ps), j) <==>
      var t, now := ps[j].token, ps[j].startMs / 1000 * 1000;
      && t.trusted && t.emailVerified && t.jti != ""
      && now < t.expMs && t.authTimeMs - 60_000 <= now <= t.authTimeMs + 300_000
      && forall i :: 0 <= i < j && ps[i].token.jti == t.jti && Admitted(JagVisits(ps), i) ==>
           var left := ps[i].token.expMs - ps[i].startMs / 1000 * 1000;
           ps[j].getMs >= ps[i].putMs + if left > 60_000 then left else 60_000
  {
    var v := JagVisits(ps);
    AdmittedExactlyWhen(v, j);
    forall i | 0 <= i <= j ensures v[i] == JagVisit(ps[i]) && (v[i].key == v[j].key <==> ps[i].token.jti == ps[j].token.jti) {
      KeysFollowJtis(ps[i].token.jti, ps[j].token.jti);
    }
  }

  /** A replay that gets through: started half a second before the expiry, at the cache a second later. */
  lemma SlowReplayIsAccepted()
    ensures var t := IdJag("j", 100_000, 0, true, true);
      var ps := [Presentation(t, 0, 0, 0), Presentation(t, 99_500, 100_500, 100_500)];
      InTurn(JagVisits(ps)) && Admitted(JagVisits(ps), 0) && Admitted(JagVisits(ps), 1)
  {
    var t := IdJag("j", 100_000, 0, true, true);
    var a, b := Presentation(t, 0, 0, 0), Presentation(t, 99_500, 100_500, 100_500);
    assert JagVisits([a, b])[0] == JagVisit(a) && JagVisits([a, b])[1] == JagVisit(b);
    assert Before(JagVisits([a, b]), 0) == map[];
    assert Before(JagVisits([a, b]), 1) == After(map[], JagVisit(a));
  }

  // ---------- security event tokens ----------

  const MAX_EVENT_AGE: int := 7 * DAY
  const MAX_FORWARD_SKEW: int := 60 * 1000
  const RECEIPT_TTL: int := 8 * DAY

  datatype SecurityEvent = SecurityEvent(issuer: string, jti: string, issuedAtMs: int, expMs: Option<int>, verified: bool)

  /** Signature, audience and shape are verified, and the event is neither too old, too new nor expired. */
  predicate Current(t: SecurityEvent, nowMs: int) {
    && t.verified && t.issuer != "" && t.jti != ""
    && nowMs - MAX_EVENT_AGE <= t.issuedAtMs <= nowMs + MAX_FORWARD_SKEW
    && (t.expMs.Some? ==> t.expMs.value > nowMs)
  }

  function ReceiptVisit(p: Presentation<SecurityEvent>): Visit {
    Visit("security-event:" + p.token.issuer + "\0" + p.token.jti, Current(p.token, WholeSeconds(p.startMs)),
          p.startMs, p.getMs, p.putMs, RECEIPT_TTL)
  }

  function ReceiptVisits(ps: seq<Presentation<SecurityEvent>>): seq<Visit> {
    seq(|ps|, i requires 0 <= i < |ps| => ReceiptVisit(ps[i]))
  }

  datatype EventResult = Processed | Duplicate | Invalid

  method ProcessSecurityEventToken(kv: TtlStore, p: Presentation<SecurityEvent>) returns (r: EventResult)
    modifies kv
    ensures r.Processed? <==> Admits(old(kv.entries), ReceiptVisit(p))
    ensures r.Invalid? <==> !ReceiptVisit(p).passes
    ensures kv.entries == After(old(kv.entries), ReceiptVisit(p))
  {
    if !Current(p.token, WholeSeconds(p.startMs)) {
      return Invalid;
    }
    var key := "security-event:" + p.token.issuer + "\0" + p.token.jti;
    var seen := kv.Get(key, p.getMs);
    if seen {
      return Duplicate;
    }
    kv.Put(key, p.putMs, RECEIPT_TTL);
    return Processed;
  }

  /**
   In every history, exactly which events are processed as new: those with a verified signature, at most
   a week old and a minute ahead and not expired by their own clock, that read the receipts after the
   8-day receipt of every earlier processing under the same key has expired.
   */
  lemma EventIsProcessedExactlyWhen(ps: seq<Presentation<SecurityEvent>>, j: nat)
    requires InTurn(ReceiptVisits(ps)) && j < |ps|
    ensures Admitted(ReceiptVisits(ps), j) <==>
      var t, now := ps[j].token, ps[j].startMs / 1000 * 1000;
      && t.verified && t.issuer != "" && t.jti != ""
      && now - 7 * 24 * 60 * 60 * 1000 <= t.issuedAtMs <= now + 60 * 1000 && (t.expMs.Some? ==> now < t.expMs.value)
      && forall i :: 0 <= i < j && ReceiptVisit(ps[i]).key == ReceiptVisit(ps[j]).key && Admitted(ReceiptVisits(ps), i) ==>
           ps[j].getMs >= ps[i].putMs + 8 * 24 * 60 * 60 * 1000
  {
    var v := ReceiptVisits(ps);
    AdmittedExactlyWhen(v, j);
    forall i | 0 <= i <= j ensures v[i] == ReceiptVisit(ps[i]) {}
  }

  /** Two events share a receipt key when issuer and jti are the same, and only then if neither holds a NUL. */
  lemma ReceiptKeys(p: Presentation<SecurityEvent>, q: Presentation<SecurityEvent>)
    requires '\0' !in p.token.issuer && '\0' !in q.token.issuer
    ensures ReceiptVisit(p).key == ReceiptVisit(q).key <==> p.token.issuer == q.token.issuer && p.token.jti == q.token.jti
  {
    var a, b := p.token, q.token;
    var x, y := "security-event:" + a.issuer + "\0" + a.jti, "security-event:" + b.issuer + "\0" + b.jti;
    if x == y {
      var m, n := 15 + |a.issuer|, 15 + |b.issuer|;
      assert x[m] == '\0' && y[n] == '\0';
      assert forall k :: 15 <= k < m ==> x[k] == a.issuer[k - 15];
      assert forall k :: 15 <= k < n ==> y[k] == b.issuer[k - 15];
      assert m == n;
      assert x[15..m] == a.issuer && y[15..n] == b.issuer;
      assert x[m + 1..] == a.jti && y[n + 1..] == b.jti;
    }
  }

  /** The slack an 8-day receipt leaves over seven days of age and a minute of skew. */
  const RECEIPT_SLACK: int := RECEIPT_TTL - MAX_EVENT_AGE - MAX_FORWARD_SKEW

  /**
   An event is processed as new at most once, in every history of presentations that do not overlap
   and reach the receipts within the slack of their clock reading: a day less a minute.
   */
  lemma EventIsProcessedOnce(ps: seq<Presentation<SecurityEvent>>, i: nat, j: nat)
    requires InTurn(ReceiptVisits(ps)) && i < |ps| && j < |ps| && ps[i].token == ps[j].token
    requires forall k :: 0 <= k < |ps| ==> ps[k].getMs - WholeSeconds(ps[k].startMs) < RECEIPT_SLACK
    requires Admitted(ReceiptVisits(ps), i) && Admitted(ReceiptVisits(ps), j)
    ensures i == j
  {
    if i < j {
      LateEventReading(ps, i, j);
    } else if j < i {
      LateEventReading(ps, j, i);
    }
  }

  /** A second processing means the presentation dawdled for the whole slack. */
  lemma LateEventReading(ps: seq<Presentation<SecurityEvent>>, i: nat, j: nat)
    requires InTurn(ReceiptVisits(ps)) && i < j < |ps| && ps[i].token == ps[j].token
    requires Admitted(ReceiptVisits(ps), i) && Admitted(ReceiptVisits(ps), j)
    ensures ps[j].getMs - WholeSeconds(ps[j].startMs) >= RECEIPT_SLACK
  {
    SecondAdmissionReadsLate(ReceiptVisits(ps), i, j);
    assert ReceiptVisits(ps)[i] == ReceiptVisit(ps[i]) && ReceiptVisits(ps)[j] == ReceiptVisit(ps[j]);
    assert WholeSeconds(ps[i].startMs) <= ps[i].startMs;
  }

  /** The slack is exact: a presentation that takes all of it processes the event a second time. */
  lemma SlackIsExact()
    ensures var t := SecurityEvent("i", "j", MAX_FORWARD_SKEW, None, true);
      var late := MAX_FORWARD_SKEW + MAX_EVENT_AGE;
      var ps := [Presentation(t, 0, 0, 0), Presentation(t, late, late + RECEIPT_SLACK, late + RECEIPT_SLACK)];
      InTurn(ReceiptVisits(ps)) && Admitted(ReceiptVisits(ps), 0) && Admitted(ReceiptVisits(ps), 1)
  {
    var t := SecurityEvent("i", "j", MAX_FORWARD_SKEW, None, true);
    var late := MAX_FORWARD_SKEW + MAX_EVENT_AGE;
    var a, b := Presentation(t, 0, 0, 0), Presentation(t, late, late + RECEIPT_SLACK, late + RECEIPT_SLACK);
    var v := ReceiptVisits([a, b]);
    assert v[0] == ReceiptVisit(a) && v[1] == ReceiptVisit(b);
    assert Before(v, 0) == map[];
    assert Before(v, 1) == After(Before(v, 0), v[0]);
  }
}
