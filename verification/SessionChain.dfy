/**
 Every chain of rotations from one login keeps the login's user and selected App, and acquires
 the provider Organization at most once. Runs interleave logins, refreshes with any outcome,
 revocations and tokens dying at the provider.
 */
module SessionChain {
  import opened Wrappers
  import opened Scopes
  import opened MembershipLookup
  import opened SessionStore
  import opened DeviceRefresh
  import DeviceLogin

  /**
   What happened so far: every token the provider ever issued, the identity each login stored,
   which login each token descends from, and the Organization each login's chain has acquired.
   */
  datatype History = History(
    issued: set<string>,
    logins: seq<Session>,
    lineage: map<string, nat>,
    pins: seq<Option<string>>)

  datatype Run = Run(world: World, history: History)

  datatype Event =
    | LogIn(code: DeviceLogin.CodeRequest, grant: DeviceLogin.Grant, approved: Option<ProviderToken>, directory: Directory, serial: nat)
    | Refresh(request: Request, surroundings: Surroundings)
    | Revoke(token: string)
    | Die(token: string)

  const START := Run(World(map[], {}), History({}, [], map[], []))

  /** The provider never issues a token twice, except that a refresh may hand the presented one back. */
  predicate Fresh(issued: set<string>, presented: Option<string>, t: ProviderToken) {
    Truthy(t.refreshToken) ==> t.refreshToken.value !in issued || t.refreshToken == presented
  }

  predicate Allowed(r: Run, e: Event) {
    match e
    case LogIn(_, _, t, _, _) => t.Some? ==> Fresh(r.history.issued, None, t.value)
    case Refresh(q, s) => s.answer.Answered? ==> Fresh(r.history.issued, Some(q.refreshToken), s.answer.token)
    case _ => true
  }

  function Apply(a: Audiences, r: Run, e: Event): Run {
    match e
    case LogIn(q, g, t, d, n) => ApplyLogin(a, r, q, g, t, d, n)
    case Refresh(q, s) => ApplyRefresh(a, r, q, s)
    case Revoke(token) => r.(world := World(r.world.rows - {token}, r.world.live - {token}))
    case Die(token) => r.(world := World(r.world.rows, r.world.live - {token}))
  }

  function ApplyLogin(a: Audiences, r: Run, q: DeviceLogin.CodeRequest, g: DeviceLogin.Grant,
                      t: Option<ProviderToken>, d: Directory, n: nat): Run {
    var (rows, reply) := DeviceLogin.Login(a, r.world.rows, q, g, t, d, n);
    var h := r.history;
    if reply.LoggedIn? && reply.refreshToken in rows then
      Run(World(rows, r.world.live + {reply.refreshToken}), Begun(h, reply.refreshToken, Decode(rows[reply.refreshToken])))
    else
      r.(history := h.(issued := h.issued + AsSet(if t.Some? && Truthy(t.value.refreshToken) then t.value.refreshToken else None)))
  }

  function NextOf(answer: ProviderAnswer): Option<string> {
    if answer.Answered? && Truthy(answer.token.refreshToken) then answer.token.refreshToken else None
  }

  function AsSet(token: Option<string>): set<string> {
    if token.Some? then {token.value} else {}
  }

  function ApplyRefresh(a: Audiences, r: Run, q: Request, s: Surroundings): Run {
    Record(r, q.refreshToken, NextOf(s.answer), Exchange(a, r.world, q, s).0)
  }

  /** When a row was written, the next token joins the presented one's chain. */
  function Record(r: Run, p: string, next: Option<string>, world: World): Run {
    var h := r.history.(issued := r.history.issued + AsSet(next));
    Run(world, if world.rows != r.world.rows && next.Some? then Joined(h, p, next.value, world.rows) else h)
  }

  function Joined(h: History, p: string, next: string, rows: Rows): History {
    if p in h.lineage && h.lineage[p] < |h.pins| && next in rows then
      var l := h.lineage[p];
      h.(lineage := h.lineage[next := l], pins := PinsAfter(h, l, Decode(rows[next])))
    else h
  }

  /** The Organization the chain has acquired once the next row is written. */
  function PinsAfter(h: History, l: nat, row: Session): seq<Option<string>>
    requires l < |h.pins|
  {
    h.pins[l := if row.providerOrganizationId.Some? then row.providerOrganizationId else h.pins[l]]
  }

  predicate AllAllowed(a: Audiences, r: Run, events: seq<Event>)
    decreases |events|
  {
    events == [] || (Allowed(r, events[0]) && AllAllowed(a, Apply(a, r, events[0]), events[1..]))
  }

  function RunAll(a: Audiences, r: Run, events: seq<Event>): Run
    decreases |events|
  {
    if events == [] then r else RunAll(a, Apply(a, r, events[0]), events[1..])
  }

  // ---------- what every run keeps ----------

  /** A stored row against the login it descends from. */
  predicate RowKeeps(row: Session, login: Session, pin: Option<string>) {
    && row.userId == login.userId
    && row.selectedAppSelector == login.selectedAppSelector
    && (row.providerOrganizationId.Some? ==> row.providerOrganizationId == pin)
  }

  ghost predicate WellKnown(w: World, h: History) {
    && |h.pins| == |h.logins|
    && w.rows.Keys <= h.lineage.Keys <= h.issued && w.live <= h.issued
    && forall t :: t in h.lineage ==> h.lineage[t] < |h.logins|
  }

  ghost predicate RowsKeep(w: World, h: History)
    requires WellKnown(w, h)
  {
    forall t :: t in w.rows ==> RowKeeps(Decode(w.rows[t]), h.logins[h.lineage[t]], h.pins[h.lineage[t]])
  }

  ghost predicate PinsAgree(w: World, h: History)
    requires WellKnown(w, h)
  {
    forall t :: Usable(w, t) ==> Decode(w.rows[t]).providerOrganizationId == h.pins[h.lineage[t]]
  }

  ghost predicate OneUsable(w: World, h: History)
    requires WellKnown(w, h)
  {
    forall t, u :: Usable(w, t) && Usable(w, u) && h.lineage[t] == h.lineage[u] ==> t == u
  }

  ghost predicate Inv(r: Run) {
    && WellKnown(r.world, r.history)
    && RowsKeep(r.world, r.history)
    && PinsAgree(r.world, r.history)
    && OneUsable(r.world, r.history)
  }

  /** Later history: logins and lineage stay, and an acquired Organization stays. */
  ghost predicate Continues(before: History, after: History) {
    && before.logins <= after.logins
    && |before.pins| <= |after.pins|
    && (forall t :: t in before.lineage ==> t in after.lineage && after.lineage[t] == before.lineage[t])
    && (forall l :: 0 <= l < |before.pins| && before.pins[l].Some? ==> after.pins[l] == before.pins[l])
  }

  // ---------- one refresh ----------

  /** The request rotated the row of a live token to `next`. */
  ghost predicate RotatedRow(w: World, after: World, p: string, next: string, t: ProviderToken) {
    && Usable(w, p) && t.refreshToken == Some(next) && Truthy(t.providerSessionId)
    && var stored := Decode(w.rows[p]);
       var session := NextSession(stored, t);
       && AuthorityUnchanged(stored, t)
       && after.live == w.live - {p} + {next}
       && (after.rows == Rotated(w.rows, p, next, session)
           || (next != p && after.rows == Remembered(w.rows, next, session)))
  }

  lemma ExchangeLive(a: Audiences, w: World, q: Request, s: Surroundings)
    ensures var after := Exchange(a, w, q, s).0;
      && after.live <= w.live + AsSet(NextOf(s.answer))
      && (q.refreshToken in after.live ==> q.refreshToken in w.live)
  {}

  lemma ExchangeRows(a: Audiences, w: World, q: Request, s: Surroundings)
    ensures var after := Exchange(a, w, q, s).0;
      after.rows == w.rows
      || (NextOf(s.answer).Some? && RotatedRow(w, after, q.refreshToken, NextOf(s.answer).value, s.answer.token))
  {}

  /** The row written for the next token keeps the user and App, and keeps or acquires the Organization. */
  lemma NextRowKeeps(stored: Session, t: ProviderToken)
    requires Truthy(t.providerSessionId) && AuthorityUnchanged(stored, t)
    requires exists row :: stored == Decode(row)
    ensures var next := Decode(Encode(NextSession(stored, t)));
      && next.userId == stored.userId
      && next.selectedAppSelector == stored.selectedAppSelector
      && (stored.providerOrganizationId.Some? ==> next.providerOrganizationId == stored.providerOrganizationId)
  {
    var row :| stored == Decode(row);
    SelectorShrinks(row.selectedAppScope);
  }

  /** The next row carries the presented row's identity, and nothing else was written. */
  ghost predicate Carries(w: World, after: World, p: string, next: string) {
    && Usable(w, p) && next in after.rows
    && after.live == w.live - {p} + {next}
    && (forall u :: u in after.rows && u != next ==> u in w.rows && after.rows[u] == w.rows[u])
    && var before, now := Decode(w.rows[p]), Decode(after.rows[next]);
       && now.userId == before.userId && now.selectedAppSelector == before.selectedAppSelector
       && (before.providerOrganizationId.Some? || next == p ==> now.providerOrganizationId == before.providerOrganizationId)
  }

  lemma RotationCarries(w: World, after: World, p: string, next: string, t: ProviderToken)
    requires RotatedRow(w, after, p, next, t)
    requires next !in w.rows || next == p
    ensures Carries(w, after, p, next)
  {
    var stored := Decode(w.rows[p]);
    NextRowKeeps(stored, t);
    RotationIs(w.rows, p, next, NextSession(stored, t));
  }

  lemma CarriedRowKeeps(r: Run, after: World, p: string, next: string)
    requires Inv(r) && Carries(r.world, after, p, next)
    ensures var h := r.history;
      var l := h.lineage[p];
      var row := Decode(after.rows[next]);
      var pins := PinsAfter(h, l, row);
      && (h.pins[l].Some? || next == p ==> pins == h.pins)
      && row.providerOrganizationId == pins[l]
      && RowKeeps(row, h.logins[l], pins[l])
  {
    assert Decode(r.world.rows[p]).providerOrganizationId == r.history.pins[r.history.lineage[p]];
  }

  lemma CarriedKeeps(r: Run, after: World, p: string, next: string)
    requires Inv(r) && Carries(r.world, after, p, next)
    requires next !in r.history.issued || next == p
    ensures var h := r.history;
      var l := h.lineage[p];
      Inv(Run(after, History(h.issued + {next}, h.logins, h.lineage[next := l], PinsAfter(h, l, Decode(after.rows[next])))))
  {
    var w, h := r.world, r.history;
    var l := h.lineage[p];
    CarriedRowKeeps(r, after, p, next);
    var pins := PinsAfter(h, l, Decode(after.rows[next]));
    var g := History(h.issued + {next}, h.logins, h.lineage[next := l], pins);
    assert WellKnown(after, g);
    assert RowsKeep(after, g) by {
      forall u | u in after.rows && u != next
        ensures RowKeeps(Decode(after.rows[u]), g.logins[g.lineage[u]], g.pins[g.lineage[u]])
      {
        assert RowKeeps(Decode(w.rows[u]), h.logins[h.lineage[u]], h.pins[h.lineage[u]]);
      }
    }
    forall u | Usable(after, u) && u != next
      ensures g.lineage[u] == h.lineage[u] != l && Usable(w, u)
    {
      assert Usable(w, u) && u != p;
    }
  }

  lemma NoRotationKeeps(r: Run, after: World, p: string, next: Option<string>)
    requires Inv(r) && after.rows == r.world.rows
    requires after.live <= r.world.live + AsSet(next)
    requires p in after.live ==> p in r.world.live
    requires next.Some? ==> next.value !in r.history.issued || next.value == p
    ensures Inv(Run(after, r.history.(issued := r.history.issued + AsSet(next))))
  {
    forall t | Usable(after, t) ensures Usable(r.world, t) {
      assert t in r.history.issued;
    }
  }

  lemma RecordKeeps(r: Run, p: string, answer: ProviderAnswer, after: World)
    requires Inv(r)
    requires var next := NextOf(answer);
      && (next.Some? ==> next.value !in r.history.issued || next.value == p)
      && after.live <= r.world.live + AsSet(next)
      && (p in after.live ==> p in r.world.live)
      && (after.rows == r.world.rows || (next.Some? && RotatedRow(r.world, after, p, next.value, answer.token)))
    ensures Inv(Record(r, p, NextOf(answer), after)) && Continues(r.history, Record(r, p, NextOf(answer), after).history)
    ensures after.rows != r.world.rows ==>
      && p in r.history.lineage && NextOf(answer).Some?
      && Record(r, p, NextOf(answer), after).history.lineage == r.history.lineage[NextOf(answer).value := r.history.lineage[p]]
  {
    var h, n := r.history, NextOf(answer);
    if after.rows == r.world.rows {
      NoRotationKeeps(r, after, p, n);
    } else {
      var next := n.value;
      RotationCarries(r.world, after, p, next, answer.token);
      CarriedRowKeeps(r, after, p, next);
      CarriedKeeps(r, after, p, next);
      RecordIsJoin(r, p, next, after);
    }
  }

  lemma RecordIsJoin(r: Run, p: string, next: string, after: World)
    requires after.rows != r.world.rows && next in after.rows
    requires p in r.history.lineage && r.history.lineage[p] < |r.history.pins|
    requires next !in r.history.lineage || next == p
    requires var l := r.history.lineage[p];
      r.history.pins[l].Some? ==> PinsAfter(r.history, l, Decode(after.rows[next])) == r.history.pins
    ensures var h := r.history;
      var l := h.lineage[p];
      Record(r, p, Some(next), after)
        == Run(after, History(h.issued + {next}, h.logins, h.lineage[next := l], PinsAfter(h, l, Decode(after.rows[next]))))
    ensures Continues(r.history, Record(r, p, Some(next), after).history)
  {}

  lemma RefreshKeeps(a: Audiences, r: Run, q: Request, s: Surroundings)
    requires Inv(r) && Allowed(r, Refresh(q, s))
    ensures Inv(ApplyRefresh(a, r, q, s)) && Continues(r.history, ApplyRefresh(a, r, q, s).history)
  {
    ExchangeLive(a, r.world, q, s);
    ExchangeRows(a, r.world, q, s);
    RecordKeeps(r, q.refreshToken, s.answer, Exchange(a, r.world, q, s).0);
  }

  /** The history after a login stored `s` under the new token `next`. */
  function Begun(h: History, next: string, s: Session): History {
    History(h.issued + {next}, h.logins + [s], h.lineage[next := |h.logins|], h.pins + [s.providerOrganizationId])
  }

  lemma BegunIsKnown(w: World, h: History, rows: Rows, next: string)
    requires WellKnown(w, h) && next !in h.issued && next in rows
    requires rows == w.rows[next := rows[next]]
    ensures WellKnown(World(rows, w.live + {next}), Begun(h, next, Decode(rows[next])))
    ensures Continues(h, Begun(h, next, Decode(rows[next])))
    ensures forall u :: u in rows && u != next ==>
      var g := Begun(h, next, Decode(rows[next]));
      && u in w.rows && rows[u] == w.rows[u]
      && g.lineage[u] == h.lineage[u] < |h.logins|
      && g.pins[g.lineage[u]] == h.pins[h.lineage[u]] && g.logins[g.lineage[u]] == h.logins[h.lineage[u]]
  {
    assert next !in h.lineage.Keys && next !in w.rows.Keys;
  }

  lemma LoginAdds(r: Run, rows: Rows, next: string)
    requires Inv(r) && next !in r.history.issued && next in rows
    requires rows == r.world.rows[next := rows[next]]
    ensures var h := Begun(r.history, next, Decode(rows[next]));
      Inv(Run(World(rows, r.world.live + {next}), h)) && Continues(r.history, h)
  {
    var w, h := r.world, r.history;
    var after, g := World(rows, w.live + {next}), Begun(h, next, Decode(rows[next]));
    BegunIsKnown(w, h, rows, next);
    assert RowsKeep(after, g) by {
      forall u | u in rows && u != next ensures RowKeeps(Decode(rows[u]), g.logins[g.lineage[u]], g.pins[g.lineage[u]]) {
        assert RowKeeps(Decode(w.rows[u]), h.logins[h.lineage[u]], h.pins[h.lineage[u]]);
      }
    }
    assert forall u :: Usable(after, u) && u != next ==> Usable(w, u);
    assert PinsAgree(after, g);
    assert OneUsable(after, g);
  }

  lemma LoginStores(a: Audiences, rows: Rows, q: DeviceLogin.CodeRequest, g: DeviceLogin.Grant, t: Option<ProviderToken>, d: Directory, n: nat)
    ensures var (after, reply) := DeviceLogin.Login(a, rows, q, g, t, d, n);
      && (!reply.LoggedIn? ==> after == rows)
      && (reply.LoggedIn? ==>
           && t.Some? && Truthy(t.value.refreshToken) && reply.refreshToken == t.value.refreshToken.value
           && reply.refreshToken in after && after == rows[reply.refreshToken := after[reply.refreshToken]])
  {}

  lemma LoginKeeps(a: Audiences, r: Run, q: DeviceLogin.CodeRequest, g: DeviceLogin.Grant, t: Option<ProviderToken>, d: Directory, n: nat)
    requires Inv(r) && Allowed(r, LogIn(q, g, t, d, n))
    ensures Inv(ApplyLogin(a, r, q, g, t, d, n)) && Continues(r.history, ApplyLogin(a, r, q, g, t, d, n).history)
  {
    var (rows, reply) := DeviceLogin.Login(a, r.world.rows, q, g, t, d, n);
    LoginStores(a, r.world.rows, q, g, t, d, n);
    if reply.LoggedIn? {
      LoginAdds(r, rows, reply.refreshToken);
    } else {
      IssuedGrows(r, if t.Some? && Truthy(t.value.refreshToken) then t.value.refreshToken else None);
    }
  }

  lemma IssuedGrows(r: Run, next: Option<string>)
    requires Inv(r)
    ensures Inv(r.(history := r.history.(issued := r.history.issued + AsSet(next))))
  {}

  lemma ApplyKeeps(a: Audiences, r: Run, e: Event)
    requires Inv(r) && Allowed(r, e)
    ensures Inv(Apply(a, r, e)) && Continues(r.history, Apply(a, r, e).history)
  {
    match e
    case LogIn(q, g, t, d, n) => LoginKeeps(a, r, q, g, t, d, n);
    case Refresh(q, s) => RefreshKeeps(a, r, q, s);
    case Revoke(token) =>
      forall t | Usable(Apply(a, r, e).world, t) ensures Usable(r.world, t) {}
    case Die(token) =>
      forall t | Usable(Apply(a, r, e).world, t) ensures Usable(r.world, t) {}
  }

  lemma {:induction false} RunKeeps(a: Audiences, r: Run, events: seq<Event>)
    requires Inv(r) && AllAllowed(a, r, events)
    ensures Inv(RunAll(a, r, events)) && Continues(r.history, RunAll(a, r, events).history)
    decreases |events|
  {
    if events != [] {
      ApplyKeeps(a, r, events[0]);
      RunKeeps(a, Apply(a, r, events[0]), events[1..]);
    }
  }

  // ---------- main results ----------

  /**
   Wherever a run stands and however it goes on: every row keeps the user and selected App of the
   login its token descends from, its Organization is the chain's, at most one token of a chain
   still works, and what a chain acquired it keeps.
   */
  lemma ChainsKeepTheirIdentity(a: Audiences, first: seq<Event>, more: seq<Event>)
    requires AllAllowed(a, START, first) && AllAllowed(a, RunAll(a, START, first), more)
    ensures var r, z := RunAll(a, START, first), RunAll(a, RunAll(a, START, first), more);
      && Continues(r.history, z.history)
      && (forall t :: t in z.world.rows ==>
           && t in z.history.lineage && z.history.lineage[t] < |z.history.logins| == |z.history.pins|
           && RowKeeps(Decode(z.world.rows[t]), z.history.logins[z.history.lineage[t]], z.history.pins[z.history.lineage[t]]))
      && (forall t, u :: Usable(z.world, t) && Usable(z.world, u) && z.history.lineage[t] == z.history.lineage[u] ==> t == u)
  {
    RunKeeps(a, START, first);
    RunKeeps(a, RunAll(a, START, first), more);
  }

  lemma ReplyJoins(a: Audiences, r: Run, q: Request, s: Surroundings)
    requires Inv(r) && Allowed(r, Refresh(q, s)) && !Exchange(a, r.world, q, s).1.Failed?
    ensures var z := Apply(a, r, Refresh(q, s));
      var next := Held(q, Exchange(a, r.world, q, s).1);
      && q.refreshToken in r.history.lineage && next in z.history.lineage
      && z.history.lineage[next] == r.history.lineage[q.refreshToken]
      && Usable(z.world, next)
  {
    var after := Exchange(a, r.world, q, s).0;
    RepliedTokenIsUsable(a, r.world, q, s);
    HeldIsNext(a, r.world, q, s);
    ExchangeLive(a, r.world, q, s);
    ExchangeRows(a, r.world, q, s);
    RecordKeeps(r, q.refreshToken, s.answer, after);
  }

  /** A replied token works and belongs to the chain of the presented one. */
  lemma RepliedTokenJoinsTheChain(a: Audiences, events: seq<Event>, q: Request, s: Surroundings)
    requires AllAllowed(a, START, events)
    requires Allowed(RunAll(a, START, events), Refresh(q, s))
    requires !Exchange(a, RunAll(a, START, events).world, q, s).1.Failed?
    ensures var r := RunAll(a, START, events);
      var z := Apply(a, r, Refresh(q, s));
      var next := Held(q, Exchange(a, r.world, q, s).1);
      && q.refreshToken in r.history.lineage && next in z.history.lineage
      && z.history.lineage[next] == r.history.lineage[q.refreshToken]
      && Usable(z.world, next)
  {
    RunKeeps(a, START, events);
    ReplyJoins(a, RunAll(a, START, events), q, s);
  }

  lemma HeldIsNext(a: Audiences, w: World, q: Request, s: Surroundings)
    requires !Exchange(a, w, q, s).1.Failed?
    ensures NextOf(s.answer) == Some(Held(q, Exchange(a, w, q, s).1))
    ensures Exchange(a, w, q, s).0.rows == w.rows ==> NextOf(s.answer) == Some(q.refreshToken)
  {
    RepliedTokenIsUsable(a, w, q, s);
  }

  /** The Organization is acquired by the row of a new token only: a token handed back keeps its row. */
  lemma PinIsAcquiredByANewTokenOnly(rows: Rows, token: string, s: Session)
    requires token in rows
    ensures Decode(Rotated(rows, token, token, s)[token]).providerOrganizationId == Decode(rows[token]).providerOrganizationId
  {}
}
