/**
 The CLI and the server together. A run interleaves logins and refreshes at the server, and, in any
 number of CLI processes on one credential file, every write of that file. A process may load any
 file ever written; a wire carries what the server sent for the request, a refusal, or nothing.
 */
module CliServerRuns {
  import opened Wrappers
  import opened Scopes
  import opened MembershipLookup
  import opened SessionStore
  import opened DeviceRefresh
  import DeviceLogin
  import SessionChain
  import opened CliCredentials
  import opened CliAuth
  import opened BindingLabels

  /**
   The server with its chains, its signatures in order, the refresh tokens handed back with
   `email_unverified` beside the ones presented, and every file ever written.
   */
  datatype System = System(server: SessionChain.Run, log: seq<Entry>, handed: set<(string, string)>, files: set<File>)

  const START := System(SessionChain.START, [], {}, {})

  /** A server step, or a write by some process: of a login, a mint, a handed-back token, a marker, or all of a command. */
  datatype Event =
    | Serve(event: SessionChain.Event)
    | SaveLogin(signature: nat, loginMs: int)
    | SaveMint(stored: File, mintBinding: Option<Authorization>, mint: nat, mintMs: int)
    | SaveHandedBack(refused: File, token: string)
    | SaveMark(missed: File)
    | RunCommand(disk: Disk, binding: Option<Authorization>, conditions: Conditions)

  function OwnerOf(h: SessionChain.History): map<string, string> {
    map t | t in h.lineage && h.lineage[t] < |h.logins| :: h.logins[h.lineage[t]].userId
  }

  function LedgerOf(s: System): Ledger {
    Ledger(s.log, OwnerOf(s.server.history))
  }

  // ---------- what may happen ----------

  predicate Known(s: System, f: File) {
    f in s.files || exists g :: g in s.files && f == Normalized(g)
  }

  predicate KnownDisk(s: System, disk: Disk) {
    disk.Some? ==> disk.value in s.files
  }

  ghost predicate FromServer(s: System, wire: Wire, q: Request) {
    && (wire.Ok? ==> exists k :: 0 <= k < |s.log| && s.log[k].request == Some(q) && s.log[k].body == wire.body)
    && (wire.Refused? && Truthy(wire.fault.refreshToken) ==> (q.refreshToken, wire.fault.refreshToken.value) in s.handed)
  }

  ghost predicate KnownWeather(s: System, disk: Disk, stored: File, binding: Option<Authorization>, w: Weather) {
    && FromServer(s, w.first, RequestFor(stored, binding))
    && (w.meanwhile.Some? ==> KnownDisk(s, w.meanwhile.value))
    && var rotated := RotatedBy(Meanwhile(disk, w.meanwhile), stored);
       rotated.Some? ==> FromServer(s, w.second, RequestFor(rotated.value, binding))
  }

  ghost predicate KnownBackfill(s: System, disk: Disk, b: BackfillWeather) {
    && (Load(disk).Some? ==> KnownWeather(s, disk, Load(disk).value, None, b.refresh))
    && (b.meanwhile.Some? ==> KnownDisk(s, b.meanwhile.value))
  }

  /** Every load of the command is of a file somebody wrote, and every wire is the server's. */
  ghost predicate KnownConditions(s: System, disk: Disk, binding: Option<Authorization>, c: Conditions) {
    && KnownBackfill(s, disk, c.backfill)
    && (c.reload.Some? ==> KnownDisk(s, c.reload.value))
    && var (ready, session) := EnsurePrincipalEmail(disk, c.backfill);
       session.Got? ==>
         && KnownWeather(s, ready, session.file, binding, c.refresh)
         && var (held, _) := CurrentCredential(ready, session.file, binding, c);
            var reloaded := Meanwhile(held, c.reload);
            Load(reloaded).Some? ==> KnownWeather(s, reloaded, Load(reloaded).value, binding, c.retry)
  }

  /** Signatures take serials in order, and ids in the directories are not empty. */
  predicate InOrder(s: System, e: SessionChain.Event) {
    match e
    case LogIn(_, _, _, d, n) => n == |s.log| && Named(d)
    case Refresh(_, x) => x.serial == |s.log| && Named(x.directory)
    case _ => true
  }

  ghost predicate Allowed(s: System, e: Event) {
    match e
    case Serve(x) => SessionChain.Allowed(s.server, x) && InOrder(s, x)
    case SaveLogin(k, nowMs) =>
      && k < |s.log| && s.log[k].request.None? && !s.log[k].body.accessToken.wide
      && LoginFile(s.log[k].body, Some(s.log[k].user), nowMs).Some?
    case SaveMint(stored, binding, k, _) =>
      Known(s, stored) && k < |s.log| && s.log[k].request == Some(RequestFor(stored, binding))
    case SaveHandedBack(stored, token) => Known(s, stored) && (stored.credential.refreshToken, token) in s.handed
    case SaveMark(f) => Known(s, f)
    case RunCommand(disk, binding, c) => KnownDisk(s, disk) && KnownConditions(s, disk, binding, c)
  }

  // ---------- what happens ----------

  /** The server's step, with what it signed or handed back put on record. */
  function Served(a: Audiences, s: System, e: SessionChain.Event): System {
    var server := SessionChain.Apply(a, s.server, e);
    match e
    case LogIn(q, g, t, d, n) =>
      var reply := DeviceLogin.Login(a, s.server.world.rows, q, g, t, d, n).1;
      if reply.LoggedIn? then s.(server := server, log := s.log + [Entry(reply.userId, d, None, LoginBody(reply))])
      else s.(server := server)
    case Refresh(q, x) =>
      var reply := Exchange(a, s.server.world, q, x).1;
      (match reply
       case Minted(_, _, user, _, _) => s.(server := server, log := s.log + [Entry(user, x.directory, Some(q), BodyOf(reply))])
       case EmailUnverified(next) => s.(server := server, handed := s.handed + {(q.refreshToken, next)})
       case Failed(_) => s.(server := server))
    case _ => s.(server := server)
  }

  function Write(s: System, f: File): System {
    s.(files := s.files + {Normalized(f)})
  }

  ghost function Apply(a: Audiences, s: System, e: Event): System {
    match e
    case Serve(x) => Served(a, s, x)
    case SaveLogin(k, nowMs) =>
      if k < |s.log| && LoginFile(s.log[k].body, Some(s.log[k].user), nowMs).Some?
      then Write(s, LoginFile(s.log[k].body, Some(s.log[k].user), nowMs).value) else s
    case SaveMint(stored, binding, k, nowMs) =>
      if k < |s.log| then Write(s, MintedCredential(stored, s.log[k].body, binding, nowMs)) else s
    case SaveHandedBack(stored, token) => Write(s, stored.(credential := stored.credential.(refreshToken := token)))
    case SaveMark(f) => Write(s, WithMiss(f))
    case RunCommand(disk, binding, c) =>
      var left := WithAuthorizationRetry(disk, binding, c).disk;
      if left.Some? then s.(files := s.files + {left.value}) else s
  }

  ghost predicate AllAllowed(a: Audiences, s: System, events: seq<Event>)
    decreases |events|
  {
    events == [] || (Allowed(s, events[0]) && AllAllowed(a, Apply(a, s, events[0]), events[1..]))
  }

  ghost function RunAll(a: Audiences, s: System, events: seq<Event>): System
    decreases |events|
  {
    if events == [] then s else RunAll(a, Apply(a, s, events[0]), events[1..])
  }

  // ---------- what every run keeps ----------

  ghost predicate HandedTrue(s: System) {
    var l := LedgerOf(s);
    forall p, n :: (p, n) in s.handed ==> p in l.owner && Owns(l, l.owner[p], n)
  }

  ghost predicate FilesSound(s: System) {
    forall f :: f in s.files ==> Sound(LedgerOf(s), f)
  }

  ghost predicate Inv(s: System) {
    SessionChain.Inv(s.server) && LedgerTrue(LedgerOf(s)) && HandedTrue(s) && FilesSound(s)
  }

  /** More signatures and more owned tokens; what was recorded stays. */
  ghost predicate Grows(l: Ledger, m: Ledger) {
    && |l.log| <= |m.log| && (forall k :: 0 <= k < |l.log| ==> m.log[k] == l.log[k])
    && forall t :: t in l.owner ==> t in m.owner && m.owner[t] == l.owner[t]
  }

  lemma SoundGrows(l: Ledger, m: Ledger, f: File)
    requires Grows(l, m) && Sound(l, f)
    ensures Sound(m, f)
  {}

  lemma EntryGrows(l: Ledger, m: Ledger, k: nat)
    requires Grows(l, m) && k < |l.log| && EntryTrue(l, k)
    ensures EntryTrue(m, k)
  {}

  lemma OwnerGrows(h: SessionChain.History, g: SessionChain.History)
    requires SessionChain.Continues(h, g)
    requires forall t :: t in h.lineage ==> h.lineage[t] < |h.logins|
    ensures forall t :: t in OwnerOf(h) ==> t in OwnerOf(g) && OwnerOf(g)[t] == OwnerOf(h)[t]
  {}

  /** A server that grew, with at most one new true entry and at most one new handed pair, keeps everything. */
  lemma GrownKeeps(s: System, z: System)
    requires Inv(s) && SessionChain.Inv(z.server) && Grows(LedgerOf(s), LedgerOf(z)) && z.files == s.files
    requires forall k :: |s.log| <= k < |z.log| ==> EntryTrue(LedgerOf(z), k)
    requires forall p, n :: (p, n) in z.handed && (p, n) !in s.handed ==> p in LedgerOf(z).owner && Owns(LedgerOf(z), LedgerOf(z).owner[p], n)
    ensures Inv(z)
  {
    var l, m := LedgerOf(s), LedgerOf(z);
    forall k | 0 <= k < |m.log| ensures EntryTrue(m, k) {
      if k < |l.log| {
        EntryGrows(l, m, k);
      }
    }
    forall f | f in z.files ensures Sound(m, f) {
      SoundGrows(l, m, f);
    }
  }

  // ---------- the server's steps ----------

  lemma RowOwner(r: SessionChain.Run, token: string)
    requires SessionChain.Inv(r) && token in r.world.rows
    ensures token in OwnerOf(r.history) && OwnerOf(r.history)[token] == Decode(r.world.rows[token]).userId
  {
    assert SessionChain.RowKeeps(Decode(r.world.rows[token]), r.history.logins[r.history.lineage[token]], r.history.pins[r.history.lineage[token]]);
  }

  ghost predicate OwnersGrow(h: SessionChain.History, g: SessionChain.History) {
    forall t :: t in OwnerOf(h) ==> t in OwnerOf(g) && OwnerOf(g)[t] == OwnerOf(h)[t]
  }

  predicate OwnedBy(h: SessionChain.History, user: string, token: string) {
    token in OwnerOf(h) && OwnerOf(h)[token] == user
  }

  lemma ServerGrows(a: Audiences, r: SessionChain.Run, e: SessionChain.Event)
    requires SessionChain.Inv(r) && SessionChain.Allowed(r, e)
    ensures SessionChain.Inv(SessionChain.Apply(a, r, e)) && OwnersGrow(r.history, SessionChain.Apply(a, r, e).history)
  {
    SessionChain.ApplyKeeps(a, r, e);
    OwnerGrows(r.history, SessionChain.Apply(a, r, e).history);
  }

  /** A server that only moved on. */
  lemma QuietServeKeeps(s: System, server: SessionChain.Run)
    requires Inv(s) && SessionChain.Inv(server) && OwnersGrow(s.server.history, server.history)
    ensures Inv(s.(server := server))
  {
    GrownKeeps(s, s.(server := server));
  }

  lemma SignedServeKeeps(s: System, server: SessionChain.Run, entry: Entry)
    requires Inv(s) && SessionChain.Inv(server) && OwnersGrow(s.server.history, server.history)
    requires EntryTrue(Ledger(s.log + [entry], OwnerOf(server.history)), |s.log|)
    ensures Inv(s.(server := server, log := s.log + [entry]))
  {
    GrownKeeps(s, s.(server := server, log := s.log + [entry]));
  }

  lemma HandedServeKeeps(s: System, server: SessionChain.Run, user: string, p: string, n: string)
    requires Inv(s) && SessionChain.Inv(server) && OwnersGrow(s.server.history, server.history)
    requires OwnedBy(server.history, user, p) && OwnedBy(server.history, user, n)
    ensures Inv(s.(server := server, handed := s.handed + {(p, n)}))
  {
    GrownKeeps(s, s.(server := server, handed := s.handed + {(p, n)}));
  }

  lemma MintMatches(a: Audiences, w: World, q: Request, x: Surroundings)
    requires Exchange(a, w, q, x).1.Minted?
    ensures var m := Exchange(a, w, q, x).1;
      && m.access.serial == x.serial && m.access.sub == m.userId && MintFor(q, m, m.userId, x.directory)
      && q.refreshToken in w.rows && Decode(w.rows[q.refreshToken]).userId == m.userId
  {
    MintIsAnswer(a, w, q, x);
    assert MintAnswers(q, Decode(w.rows[q.refreshToken]), x.directory, Exchange(a, w, q, x).1);
  }

  lemma ReplyIsOwned(a: Audiences, r: SessionChain.Run, q: Request, x: Surroundings)
    requires SessionChain.Inv(r) && SessionChain.Allowed(r, SessionChain.Refresh(q, x))
    requires !Exchange(a, r.world, q, x).1.Failed?
    ensures var g := SessionChain.Apply(a, r, SessionChain.Refresh(q, x)).history;
      q.refreshToken in OwnerOf(r.history) && OwnedBy(g, OwnerOf(r.history)[q.refreshToken], Held(q, Exchange(a, r.world, q, x).1))
  {
    SessionChain.ReplyJoins(a, r, q, x);
    SessionChain.ApplyKeeps(a, r, SessionChain.Refresh(q, x));
  }

  /** A signed mint, recorded at its serial, is true. */
  lemma MintEntryTrue(l: Ledger, k: nat, q: Request, m: Reply, d: Directory)
    requires k < |l.log| && m.Minted? && l.log[k] == Entry(m.userId, d, Some(q), BodyOf(m))
    requires m.access.serial == k && m.access.sub == m.userId && Named(d) && MintFor(q, m, m.userId, d)
    requires Owns(l, m.userId, m.refreshToken) && Owns(l, m.userId, q.refreshToken)
    ensures EntryTrue(l, k)
  {}

  lemma MintKeeps(a: Audiences, s: System, q: Request, x: Surroundings, server: SessionChain.Run, m: Reply)
    requires Inv(s) && x.serial == |s.log| && Named(x.directory)
    requires SessionChain.Allowed(s.server, SessionChain.Refresh(q, x))
    requires server == SessionChain.Apply(a, s.server, SessionChain.Refresh(q, x))
    requires m == Exchange(a, s.server.world, q, x).1 && m.Minted?
    ensures Inv(s.(server := server, log := s.log + [Entry(m.userId, x.directory, Some(q), BodyOf(m))]))
  {
    ServerGrows(a, s.server, SessionChain.Refresh(q, x));
    MintMatches(a, s.server.world, q, x);
    ReplyIsOwned(a, s.server, q, x);
    RowOwner(s.server, q.refreshToken);
    var entry := Entry(m.userId, x.directory, Some(q), BodyOf(m));
    MintEntryTrue(Ledger(s.log + [entry], OwnerOf(server.history)), |s.log|, q, m, x.directory);
    SignedServeKeeps(s, server, entry);
  }

  lemma HandedKeeps(a: Audiences, s: System, q: Request, x: Surroundings, server: SessionChain.Run, m: Reply)
    requires Inv(s) && SessionChain.Allowed(s.server, SessionChain.Refresh(q, x))
    requires server == SessionChain.Apply(a, s.server, SessionChain.Refresh(q, x))
    requires m == Exchange(a, s.server.world, q, x).1 && m.EmailUnverified?
    ensures Inv(s.(server := server, handed := s.handed + {(q.refreshToken, m.refreshToken)}))
  {
    ServerGrows(a, s.server, SessionChain.Refresh(q, x));
    ReplyIsOwned(a, s.server, q, x);
    HandedServeKeeps(s, server, OwnerOf(s.server.history)[q.refreshToken], q.refreshToken, m.refreshToken);
  }

  lemma LoginKeeps(a: Audiences, s: System, e: SessionChain.Event, server: SessionChain.Run, reply: DeviceLogin.LoginReply)
    requires Inv(s) && e.LogIn? && e.serial == |s.log| && Named(e.directory) && SessionChain.Allowed(s.server, e)
    requires server == SessionChain.Apply(a, s.server, e)
    requires reply == DeviceLogin.Login(a, s.server.world.rows, e.code, e.grant, e.approved, e.directory, e.serial).1 && reply.LoggedIn?
    ensures Inv(s.(server := server, log := s.log + [Entry(reply.userId, e.directory, None, LoginBody(reply))]))
  {
    ServerGrows(a, s.server, e);
    SessionChain.LoginStores(a, s.server.world.rows, e.code, e.grant, e.approved, e.directory, e.serial);
    DeviceLogin.LoginIsSound(a, s.server.world.rows, e.code, e.grant, e.approved, e.directory, e.serial);
    LoginIsLabelledTruly(a, s.server.world.rows, e.code, e.grant, e.approved, e.directory, e.serial);
    RowOwner(server, reply.refreshToken);
    SignedServeKeeps(s, server, Entry(reply.userId, e.directory, None, LoginBody(reply)));
  }

  lemma RefreshServeKeeps(a: Audiences, s: System, q: Request, x: Surroundings)
    requires Inv(s) && Allowed(s, Serve(SessionChain.Refresh(q, x)))
    ensures Inv(Served(a, s, SessionChain.Refresh(q, x)))
  {
    var e := SessionChain.Refresh(q, x);
    var server := SessionChain.Apply(a, s.server, e);
    var reply := Exchange(a, s.server.world, q, x).1;
    match reply
    case Minted(_, _, _, _, _) => MintKeeps(a, s, q, x, server, reply);
    case EmailUnverified(_) => HandedKeeps(a, s, q, x, server, reply);
    case Failed(_) =>
      ServerGrows(a, s.server, e);
      QuietServeKeeps(s, server);
  }

  lemma ServeKeeps(a: Audiences, s: System, e: SessionChain.Event)
    requires Inv(s) && Allowed(s, Serve(e))
    ensures Inv(Served(a, s, e))
  {
    var server := SessionChain.Apply(a, s.server, e);
    if e.Refresh? {
      RefreshServeKeeps(a, s, e.request, e.surroundings);
    } else if e.LogIn? && DeviceLogin.Login(a, s.server.world.rows, e.code, e.grant, e.approved, e.directory, e.serial).1.LoggedIn? {
      LoginKeeps(a, s, e, server, DeviceLogin.Login(a, s.server.world.rows, e.code, e.grant, e.approved, e.directory, e.serial).1);
    } else {
      ServerGrows(a, s.server, e);
      QuietServeKeeps(s, server);
    }
  }

  // ---------- the CLI's writes ----------

  lemma KnownIsSound(s: System, f: File)
    requires Inv(s) && Known(s, f)
    ensures Sound(LedgerOf(s), f)
  {
    if f !in s.files {
      var g :| g in s.files && f == Normalized(g);
      SameLabel(LedgerOf(s), g, f);
    }
  }

  lemma WriteKeeps(s: System, f: File)
    requires Inv(s) && Sound(LedgerOf(s), f)
    ensures Inv(Write(s, f))
  {
    SameLabel(LedgerOf(s), f, Normalized(f));
    assert LedgerOf(Write(s, f)) == LedgerOf(s);
  }

  lemma LoginFileIsSound(s: System, k: nat, nowMs: int)
    requires Inv(s) && Allowed(s, SaveLogin(k, nowMs))
    ensures Sound(LedgerOf(s), LoginFile(s.log[k].body, Some(s.log[k].user), nowMs).value)
  {
    assert EntryTrue(LedgerOf(s), k);
  }

  lemma KnownWireIsHonest(s: System, wire: Wire, q: Request)
    requires Inv(s) && FromServer(s, wire, q)
    ensures Honest(LedgerOf(s), wire, q)
  {}

  lemma KnownWeatherIsHonest(s: System, disk: Disk, stored: File, binding: Option<Authorization>, w: Weather)
    requires Inv(s) && KnownWeather(s, disk, stored, binding, w)
    ensures HonestWeather(LedgerOf(s), disk, stored, binding, w)
  {
    KnownWireIsHonest(s, w.first, RequestFor(stored, binding));
    var rotated := RotatedBy(Meanwhile(disk, w.meanwhile), stored);
    if rotated.Some? {
      KnownWireIsHonest(s, w.second, RequestFor(rotated.value, binding));
    }
  }

  lemma KnownConditionsAreHonest(s: System, disk: Disk, binding: Option<Authorization>, c: Conditions)
    requires Inv(s) && KnownConditions(s, disk, binding, c)
    ensures HonestConditions(LedgerOf(s), disk, binding, c)
  {
    if Load(disk).Some? {
      KnownWeatherIsHonest(s, disk, Load(disk).value, None, c.backfill.refresh);
    }
    var (ready, session) := EnsurePrincipalEmail(disk, c.backfill);
    if session.Got? {
      KnownWeatherIsHonest(s, ready, session.file, binding, c.refresh);
      var (held, _) := CurrentCredential(ready, session.file, binding, c);
      var reloaded := Meanwhile(held, c.reload);
      if Load(reloaded).Some? {
        KnownWeatherIsHonest(s, reloaded, Load(reloaded).value, binding, c.retry);
      }
    }
  }

  lemma CommandIsSound(s: System, disk: Disk, binding: Option<Authorization>, c: Conditions)
    requires Inv(s) && Allowed(s, RunCommand(disk, binding, c))
    ensures var o := WithAuthorizationRetry(disk, binding, c);
      SoundDisk(LedgerOf(s), o.disk) && forall t :: t in o.used ==> Serves(LedgerOf(s), t, binding)
  {
    KnownConditionsAreHonest(s, disk, binding, c);
    CommandRunsWithItsBinding(LedgerOf(s), disk, binding, c);
  }

  lemma MintSaveKeeps(s: System, stored: File, binding: Option<Authorization>, k: nat, nowMs: int)
    requires Inv(s) && Known(s, stored) && k < |s.log| && s.log[k].request == Some(RequestFor(stored, binding))
    ensures Inv(Write(s, MintedCredential(stored, s.log[k].body, binding, nowMs)))
  {
    KnownIsSound(s, stored);
    MintedFileIsSound(LedgerOf(s), stored, binding, k, nowMs);
    WriteKeeps(s, MintedCredential(stored, s.log[k].body, binding, nowMs));
  }

  lemma HandedBackKeeps(s: System, stored: File, token: string)
    requires Inv(s) && Known(s, stored) && (stored.credential.refreshToken, token) in s.handed
    ensures Inv(Write(s, stored.(credential := stored.credential.(refreshToken := token))))
  {
    KnownIsSound(s, stored);
    var f := stored.(credential := stored.credential.(refreshToken := token));
    SameLabel(LedgerOf(s), stored, f);
    WriteKeeps(s, f);
  }

  lemma MarkKeeps(s: System, f: File)
    requires Inv(s) && Known(s, f)
    ensures Inv(Write(s, WithMiss(f)))
  {
    KnownIsSound(s, f);
    SameLabel(LedgerOf(s), f, WithMiss(f));
    WriteKeeps(s, WithMiss(f));
  }

  lemma CommandKeeps(a: Audiences, s: System, disk: Disk, binding: Option<Authorization>, c: Conditions)
    requires Inv(s) && Allowed(s, RunCommand(disk, binding, c))
    ensures Inv(Apply(a, s, RunCommand(disk, binding, c)))
  {
    CommandIsSound(s, disk, binding, c);
    var z := Apply(a, s, RunCommand(disk, binding, c));
    assert LedgerOf(z) == LedgerOf(s) && z.handed == s.handed;
  }

  lemma ApplyKeeps(a: Audiences, s: System, e: Event)
    requires Inv(s) && Allowed(s, e)
    ensures Inv(Apply(a, s, e))
  {
    match e
    case Serve(x) => ServeKeeps(a, s, x);
    case SaveLogin(k, nowMs) =>
      LoginFileIsSound(s, k, nowMs);
      WriteKeeps(s, LoginFile(s.log[k].body, Some(s.log[k].user), nowMs).value);
    case SaveMint(stored, binding, k, nowMs) => MintSaveKeeps(s, stored, binding, k, nowMs);
    case SaveHandedBack(stored, token) => HandedBackKeeps(s, stored, token);
    case SaveMark(f) => MarkKeeps(s, f);
    case RunCommand(disk, binding, c) => CommandKeeps(a, s, disk, binding, c);
  }

  lemma {:induction false} RunKeeps(a: Audiences, s: System, events: seq<Event>)
    requires Inv(s) && AllAllowed(a, s, events)
    ensures Inv(RunAll(a, s, events))
    decreases |events|
  {
    if events != [] {
      ApplyKeeps(a, s, events[0]);
      RunKeeps(a, Apply(a, s, events[0]), events[1..]);
    }
  }

  lemma StartHolds()
    ensures Inv(START)
  {}

  // ---------- main results ----------

  /**
   In every run, every credential file: the token beside the label was signed for the file's own user;
   `app:X` means its one scope is on App X, `org:S` that it is on the Org S resolved to when it was
   signed, the wide label wide authority and no scopes, and `""` nothing at all.
   */
  lemma EveryFileIsLabelledTruly(a: Audiences, events: seq<Event>, f: File)
    requires AllAllowed(a, START, events) && f in RunAll(a, START, events).files
    ensures var log := RunAll(a, START, events).log;
      var t := f.credential.accessToken;
      && t.serial < |log| && log[t.serial].body.accessToken == t && log[t.serial].user == t.sub == f.userId
      && (StoredBinding(f) == "" ==> !t.wide && t.scopes == [])
      && (forall b :: StoredBinding(f) == BindingKey(b) ==> TokenFor(t, b, log[t.serial].directory))
      && (StoredBinding(f) == "" || exists b :: StoredBinding(f) == BindingKey(b))
  {
    StartHolds();
    RunKeeps(a, START, events);
    assert Sound(LedgerOf(RunAll(a, START, events)), f);
    forall b | StoredBinding(f) == BindingKey(b)
      ensures TokenFor(f.credential.accessToken, b, RunAll(a, START, events).log[f.credential.accessToken.serial].directory)
    {
      LabelsAreDistinct(b, b);
      var c :| StoredBinding(f) == BindingKey(c)
        && TokenFor(f.credential.accessToken, c, RunAll(a, START, events).log[f.credential.accessToken.serial].directory);
      LabelsAreDistinct(b, c);
    }
  }

  /**
   In every run, every token a command's call is made with was signed by the server for the authority
   the command asked for: what its selector resolved to, for the token's user, when it was signed.
   */
  lemma EveryCommandRunsWithItsBinding(a: Audiences, events: seq<Event>, disk: Disk, binding: Option<Authorization>, c: Conditions)
    requires AllAllowed(a, START, events) && Allowed(RunAll(a, START, events), RunCommand(disk, binding, c))
    ensures var log := RunAll(a, START, events).log;
      forall t :: t in WithAuthorizationRetry(disk, binding, c).used ==>
        && t.serial < |log| && log[t.serial].body.accessToken == t && log[t.serial].user == t.sub
        && (binding.Some? ==> TokenFor(t, binding.value, log[t.serial].directory))
        && (binding.None? ==> !t.wide)
  {
    StartHolds();
    RunKeeps(a, START, events);
    CommandIsSound(RunAll(a, START, events), disk, binding, c);
  }
}
