/**
 The label in a credential file tells the truth about the token beside it, across the CLI and the
 server: a token reused for a selector is bound to what the server's lookup chose for it.

 What the server signed is kept in a log, each token at its serial, with the user and the directory
 it was signed for. Labels, wires and tokens are judged against that record and nothing else.
 */
module BindingLabels {
  import opened Wrappers
  import opened Scopes
  import opened MembershipLookup
  import opened SessionStore
  import opened DeviceRefresh
  import DeviceLogin
  import opened CliCredentials
  import opened CliAuth

  // ---------- what the server did ----------

  /** One signature: for whom, by which memberships, for which refresh request (none for a login), and the reply's body. */
  datatype Entry = Entry(user: string, directory: Directory, request: Option<Request>, body: Body)

  /** All signatures in order, and the user each refresh token belongs to. */
  datatype Ledger = Ledger(log: seq<Entry>, owner: map<string, string>)

  predicate Owns(l: Ledger, user: string, token: string) {
    token in l.owner && l.owner[token] == user
  }

  /** The entry of a token: the token is the one signed there, for its own subject. */
  predicate Recorded(l: Ledger, t: AccessToken) {
    t.serial < |l.log| && l.log[t.serial].body.accessToken == t && l.log[t.serial].user == t.sub
  }

  // ---------- what a label means ----------

  function Resolve(d: Directory, kind: Kind, selector: string): Lookup<Binding> {
    if kind == App then ResolveApp(d, selector) else ResolveOrg(d, selector)
  }

  /** The token carries exactly the authority `a` names when looked up in `d`. */
  predicate TokenFor(t: AccessToken, a: Authorization, d: Directory) {
    match a
    case WideRead => t.wide && t.scopes == []
    case Bind(kind, selector) =>
      !t.wide && Resolve(d, kind, selector).Found? && t.scopes == [Resolve(d, kind, selector).value.scope]
  }

  predicate HasId(d: Directory, id: string) {
    exists app :: app in Reachable(d, d.memberships) && app.id == id
  }

  /** Ids are never empty. */
  predicate Named(d: Directory) {
    forall app :: app in Reachable(d, d.memberships) ==> app.id != ""
  }

  /** `""` labels a token bound to nothing; any other label names the token's authority, an App by its id. */
  ghost predicate LabelTrue(text: string, t: AccessToken, d: Directory) {
    if text == "" then !t.wide && t.scopes == []
    else exists a :: text == BindingKey(a) && TokenFor(t, a, d) && (a.Bind? && a.kind == App ==> HasId(d, a.selector))
  }

  /**
   A file holds a token the server signed for the file's own user, labelled truly by the memberships
   it was signed under, and a refresh token of that user.
   */
  ghost predicate Sound(l: Ledger, f: File) {
    var t := f.credential.accessToken;
    && Recorded(l, t) && t.sub == f.userId && LabelTrue(StoredBinding(f), t, l.log[t.serial].directory)
    && Owns(l, f.userId, f.credential.refreshToken)
  }

  ghost predicate SoundDisk(l: Ledger, disk: Disk) {
    disk.Some? ==> Sound(l, disk.value)
  }

  // ---------- what the server sends ----------

  function BodyOf(m: Reply): Body
    requires m.Minted?
  {
    Body(m.access, Some(m.refreshToken), Some(3600), Some(m.email), m.appId)
  }

  function LoginBody(m: DeviceLogin.LoginReply): Body
    requires m.LoggedIn?
  {
    Body(m.access, Some(m.refreshToken), Some(3600), Some(m.email), m.appId)
  }

  /** `m` is a mint the refresh grant may send for this request of `user`, by these memberships. */
  ghost predicate MintFor(q: Request, m: Reply, user: string, d: Directory) {
    m.Minted? && exists session: Session :: session.userId == user && MintAnswers(q, session, d, m)
  }

  function LoginLabel(body: Body): string {
    if Truthy(body.appId) then "app:" + body.appId.value else ""
  }

  /** The k-th signature is recorded at its serial, for its subject, and is what its request asked for. */
  ghost predicate EntryTrue(l: Ledger, k: nat)
    requires k < |l.log|
  {
    var e := l.log[k];
    && e.body.accessToken.serial == k && e.body.accessToken.sub == e.user && Named(e.directory)
    && e.body.refreshToken.Some? && Owns(l, e.user, e.body.refreshToken.value)
    && (match e.request
        case Some(q) =>
          Owns(l, e.user, q.refreshToken) && exists m: Reply :: MintFor(q, m, e.user, e.directory) && e.body == BodyOf(m)
        case None => !e.body.accessToken.wide ==> LabelTrue(LoginLabel(e.body), e.body.accessToken, e.directory))
  }

  ghost predicate LedgerTrue(l: Ledger) {
    forall k :: 0 <= k < |l.log| ==> EntryTrue(l, k)
  }

  /**
   What arrives for a request is what the server sent for it: a mint is a logged one, and a refresh
   token handed back with a refusal belongs to the presented token's user.
   */
  ghost predicate Honest(l: Ledger, wire: Wire, q: Request) {
    && (wire.Ok? ==> exists k :: 0 <= k < |l.log| && l.log[k].request == Some(q) && l.log[k].body == wire.body)
    && (wire.Refused? && Truthy(wire.fault.refreshToken) && q.refreshToken in l.owner ==>
         Owns(l, l.owner[q.refreshToken], wire.fault.refreshToken.value))
  }

  // ---------- a mint is labelled truly ----------

  lemma {:induction false} FirstWithId(apps: seq<AppRow>, id: string)
    requires exists app :: app in apps && app.id == id
    ensures SelectReachableApp(apps, id).Found? && SelectReachableApp(apps, id).value.id == id
  {
    ByIdIs(apps, id);
  }

  /** Looking an App up by the id another selector resolved to gives the same binding. */
  lemma CanonicalIdResolvesAlike(d: Directory, selector: string)
    requires ResolveApp(d, selector).Found?
    ensures var b := ResolveApp(d, selector).value;
      b.appId.Some? && HasId(d, b.appId.value) && ResolveApp(d, b.appId.value) == Found(b)
  {
    AppBindingIs(d, selector);
    var id := ResolveApp(d, selector).value.appId.value;
    FirstWithId(Reachable(d, d.memberships), id);
  }

  lemma AppMintLabelledTruly(d: Directory, selector: string, m: Reply)
    requires m.Minted? && Named(d) && !m.access.wide && BoundTo(m, ResolveApp(d, selector))
    ensures Truthy(m.appId) && LabelTrue("app:" + m.appId.value, m.access, d)
  {
    CanonicalIdResolvesAlike(d, selector);
    var id := ResolveApp(d, selector).value.appId.value;
    assert "app:" + id == BindingKey(Bind(App, id));
    assert TokenFor(m.access, Bind(App, id), d);
  }

  lemma MintIsLabelledTruly(stored: File, binding: Option<Authorization>, m: Reply, user: string, d: Directory, nowMs: int)
    requires Named(d) && MintFor(RequestFor(stored, binding), m, user, d)
    ensures var f := MintedCredential(stored, BodyOf(m), binding, nowMs);
      && LabelTrue(StoredBinding(f), m.access, d)
      && (binding.Some? ==> TokenFor(m.access, binding.value, d))
      && (binding.None? ==> !m.access.wide)
  {
    var q := RequestFor(stored, binding);
    var session: Session :| session.userId == user && MintAnswers(q, session, d, m);
    match binding {
      case None =>
        if Truthy(session.selectedAppSelector) {
          AppMintLabelledTruly(d, session.selectedAppSelector.value, m);
        }
      case Some(WideRead) =>
        assert BindingKey(WideRead) == WIDE_LABEL;
      case Some(Bind(App, selector)) =>
        AppMintLabelledTruly(d, selector, m);
      case Some(Bind(Org, selector)) =>
        OrgBindingIs(d, selector);
        LabelsAreDistinct(binding.value, WideRead);
    }
  }

  /** A login that asks for no wide authority is labelled truly. */
  lemma LoginIsLabelledTruly(a: Audiences, rows: Rows, r: DeviceLogin.CodeRequest, g: DeviceLogin.Grant,
                             t: Option<ProviderToken>, d: Directory, serial: nat)
    requires Named(d)
    requires DeviceLogin.Login(a, rows, r, g, t, d, serial).1.LoggedIn?
    ensures var reply := DeviceLogin.Login(a, rows, r, g, t, d, serial).1;
      !reply.access.wide ==> LabelTrue(LoginLabel(LoginBody(reply)), reply.access, d)
  {
    var reply := DeviceLogin.Login(a, rows, r, g, t, d, serial).1;
    DeviceLogin.LoginIsSound(a, rows, r, g, t, d, serial);
    if Truthy(g.selector) {
      var m := Minted(reply.access, reply.refreshToken, reply.userId, reply.email, reply.appId);
      AppMintLabelledTruly(d, g.selector.value, m);
    }
  }

  // ---------- every command keeps the label true ----------

  ghost predicate HonestWeather(l: Ledger, disk: Disk, stored: File, binding: Option<Authorization>, w: Weather) {
    && Honest(l, w.first, RequestFor(stored, binding))
    && (w.meanwhile.Some? ==> SoundDisk(l, w.meanwhile.value))
    && var rotated := RotatedBy(Meanwhile(disk, w.meanwhile), stored);
       rotated.Some? ==> Honest(l, w.second, RequestFor(rotated.value, binding))
  }

  /**
   The token has the authority asked for: what the selector resolved to for the token's own user, in
   the memberships it was signed under.
   */
  predicate Serves(l: Ledger, t: AccessToken, binding: Option<Authorization>) {
    && Recorded(l, t)
    && match binding
       case None => !t.wide
       case Some(a) => TokenFor(t, a, l.log[t.serial].directory)
  }

  /** Only the label and the tokens count: an email or a marker changes nothing. */
  lemma SameLabel(l: Ledger, f: File, g: File)
    requires Sound(l, f) && g.userId == f.userId
    requires g.credential.accessToken == f.credential.accessToken && StoredBinding(g) == StoredBinding(f)
    requires Owns(l, f.userId, g.credential.refreshToken)
    ensures Sound(l, g)
  {}

  /** A logged mint saved for the request it answers makes a sound file, good for the binding asked for. */
  lemma MintedFileIsSound(l: Ledger, stored: File, binding: Option<Authorization>, k: nat, nowMs: int)
    requires LedgerTrue(l) && Sound(l, stored)
    requires k < |l.log| && l.log[k].request == Some(RequestFor(stored, binding))
    ensures var f := MintedCredential(stored, l.log[k].body, binding, nowMs);
      Sound(l, f) && Serves(l, f.credential.accessToken, binding)
  {
    var e := l.log[k];
    assert EntryTrue(l, k);
    var m: Reply :| MintFor(RequestFor(stored, binding), m, e.user, e.directory) && e.body == BodyOf(m);
    MintIsLabelledTruly(stored, binding, m, e.user, e.directory, nowMs);
  }

  lemma ConcludeKeepsLabels(l: Ledger, disk: Disk, stored: File, binding: Option<Authorization>, wire: Wire, nowMs: int)
    requires LedgerTrue(l) && SoundDisk(l, disk) && Sound(l, stored) && Honest(l, wire, RequestFor(stored, binding))
    ensures var (after, r) := Conclude(disk, stored, binding, wire, nowMs);
      SoundDisk(l, after) && (r.Got? ==> Sound(l, r.file) && Serves(l, r.file.credential.accessToken, binding))
  {
    var (after, r) := Conclude(disk, stored, binding, wire, nowMs);
    match wire
    case Unreachable =>
    case Refused(_) =>
      if after != disk {
        SameLabel(l, stored, after.value);
      }
    case Ok(body) =>
      var k :| 0 <= k < |l.log| && l.log[k].request == Some(RequestFor(stored, binding)) && l.log[k].body == body;
      MintedFileIsSound(l, stored, binding, k, nowMs);
      SameLabel(l, r.file, after.value);
  }

  lemma RefreshKeepsLabels(l: Ledger, disk: Disk, stored: File, binding: Option<Authorization>, w: Weather)
    requires LedgerTrue(l) && SoundDisk(l, disk) && Sound(l, stored) && HonestWeather(l, disk, stored, binding, w)
    ensures var (after, r) := RefreshAccessToken(disk, stored, binding, w);
      SoundDisk(l, after) && (r.Got? ==> Sound(l, r.file) && Serves(l, r.file.credential.accessToken, binding))
  {
    if w.first.Refused? && w.first.fault.kind == InvalidGrant {
      var now := Meanwhile(disk, w.meanwhile);
      var rotated := RotatedBy(now, stored);
      if rotated.Some? {
        SameLabel(l, now.value, rotated.value);
        ConcludeKeepsLabels(l, now, rotated.value, binding, w.second, w.nowMs);
      }
    } else {
      ConcludeKeepsLabels(l, disk, stored, binding, w.first, w.nowMs);
    }
  }

  ghost predicate HonestBackfill(l: Ledger, disk: Disk, b: BackfillWeather) {
    && (Load(disk).Some? ==> HonestWeather(l, disk, Load(disk).value, None, b.refresh))
    && (b.meanwhile.Some? ==> SoundDisk(l, b.meanwhile.value))
  }

  lemma BackfillKeepsLabels(l: Ledger, disk: Disk, b: BackfillWeather)
    requires LedgerTrue(l) && SoundDisk(l, disk) && HonestBackfill(l, disk, b)
    ensures var (after, r) := EnsurePrincipalEmail(disk, b);
      SoundDisk(l, after) && (r.Got? ==> Sound(l, r.file))
  {
    if disk.Some? {
      var stored := Load(disk).value;
      SameLabel(l, disk.value, stored);
      if NeedsEmailBackfill(stored, b.startMs) {
        RefreshKeepsLabels(l, disk, stored, None, b.refresh);
        var (after, r) := RefreshAccessToken(disk, stored, None, b.refresh);
        if r.Got? {
          SameLabel(l, r.file, WithMiss(r.file));
          SameLabel(l, r.file, Normalized(WithMiss(r.file)));
        } else {
          RememberKeepsLabels(l, Meanwhile(after, b.meanwhile), stored, r.error);
        }
      }
    }
  }

  lemma RememberKeepsLabels(l: Ledger, disk: Disk, attempted: File, e: CliError)
    requires SoundDisk(l, disk)
    ensures var (after, r) := RememberMiss(disk, attempted, e);
      SoundDisk(l, after) && (r.Got? ==> Sound(l, r.file))
  {
    if disk.Some? {
      var current := Load(disk).value;
      SameLabel(l, disk.value, current);
      SameLabel(l, current, WithMiss(current));
      SameLabel(l, current, Normalized(WithMiss(current)));
    }
  }

  /** Everything a command meets is honest: the server's replies and what other processes write. */
  ghost predicate HonestConditions(l: Ledger, disk: Disk, binding: Option<Authorization>, c: Conditions) {
    && HonestBackfill(l, disk, c.backfill)
    && (c.reload.Some? ==> SoundDisk(l, c.reload.value))
    && var (ready, session) := EnsurePrincipalEmail(disk, c.backfill);
       session.Got? ==>
         && HonestWeather(l, ready, session.file, binding, c.refresh)
         && var (held, _) := CurrentCredential(ready, session.file, binding, c);
            var reloaded := Meanwhile(held, c.reload);
            Load(reloaded).Some? ==> HonestWeather(l, reloaded, Load(reloaded).value, binding, c.retry)
  }

  /** A cached token passes for a selector only when its label names that very selector. */
  lemma CachedServes(l: Ledger, f: File, binding: Option<Authorization>)
    requires Sound(l, f) && CachedAuthorizationUsable(binding, StoredBinding(f))
    ensures Serves(l, f.credential.accessToken, binding)
  {
    var t := f.credential.accessToken;
    var d := l.log[t.serial].directory;
    if binding.Some? {
      LabelsAreDistinct(binding.value, binding.value);
      var a :| StoredBinding(f) == BindingKey(a) && TokenFor(t, a, d);
      LabelsAreDistinct(a, binding.value);
    } else if StoredBinding(f) != "" {
      var a :| StoredBinding(f) == BindingKey(a) && TokenFor(t, a, d);
      assert BindingKey(WideRead) == WIDE_LABEL;
    }
  }

  lemma CurrentServes(l: Ledger, ready: Disk, stored: File, binding: Option<Authorization>, c: Conditions)
    requires LedgerTrue(l) && SoundDisk(l, ready) && Sound(l, stored) && HonestWeather(l, ready, stored, binding, c.refresh)
    ensures var (held, current) := CurrentCredential(ready, stored, binding, c);
      SoundDisk(l, held) && (current.Got? ==> Serves(l, current.file.credential.accessToken, binding))
  {
    if CachedAuthorizationUsable(binding, StoredBinding(stored)) && !AccessTokenExpired(stored.credential.expiresAt, c.checkMs) {
      CachedServes(l, stored, binding);
    } else {
      RefreshKeepsLabels(l, ready, stored, binding, c.refresh);
    }
  }

  lemma RetryServes(l: Ledger, disk: Disk, used: seq<AccessToken>, binding: Option<Authorization>, w: Weather)
    requires LedgerTrue(l) && SoundDisk(l, disk) && (forall t :: t in used ==> Serves(l, t, binding))
    requires Load(disk).Some? ==> HonestWeather(l, disk, Load(disk).value, binding, w)
    ensures var o := RetryAfter401(disk, used, binding, w);
      SoundDisk(l, o.disk) && forall t :: t in o.used ==> Serves(l, t, binding)
  {
    if disk.Some? {
      SameLabel(l, disk.value, Load(disk).value);
      RefreshKeepsLabels(l, disk, Load(disk).value, binding, w);
    }
  }

  /**
   Every token a command's call is made with has the authority the command asked for, whether it
   was cached, minted or minted after a 401; and the file it leaves is sound again.
   */
  lemma CommandRunsWithItsBinding(l: Ledger, disk: Disk, binding: Option<Authorization>, c: Conditions)
    requires LedgerTrue(l) && SoundDisk(l, disk) && HonestConditions(l, disk, binding, c)
    ensures var o := WithAuthorizationRetry(disk, binding, c);
      SoundDisk(l, o.disk) && forall t :: t in o.used ==> Serves(l, t, binding)
  {
    BackfillKeepsLabels(l, disk, c.backfill);
    var (ready, session) := EnsurePrincipalEmail(disk, c.backfill);
    if session.Got? {
      var (held, current) := CurrentCredential(ready, session.file, binding, c);
      CurrentServes(l, ready, session.file, binding, c);
      if current.Got? && c.rejected {
        RetryServes(l, Meanwhile(held, c.reload), [current.file.credential.accessToken], binding, c.retry);
      }
    }
  }

  // ---------- reuse against a fresh lookup ----------

  /** The scope of a true `app:X` token is on App X alone. */
  lemma AppLabelMeansOneApp(t: AccessToken, id: string, d: Directory)
    requires LabelTrue("app:" + id, t, d) && PrintableId(id)
    ensures !t.wide && exists role :: t.scopes == [Print(Scope(App, id, role))] && Parse(t.scopes[0]) == Some(Scope(App, id, role))
  {
    assert "app:" + id == BindingKey(Bind(App, id));
    var a :| "app:" + id == BindingKey(a) && TokenFor(t, a, d) && (a.Bind? && a.kind == App ==> HasId(d, a.selector));
    LabelsAreDistinct(a, Bind(App, id));
    FirstWithId(Reachable(d, d.memberships), id);
    AppBindingIs(d, id);
    var role := ParseRole(d.appRoles[id]).value;
    ParsePrint(Scope(App, id, role));
    assert t.scopes == [Print(Scope(App, id, role))];
  }

  /** While the same Apps and Orgs are reachable, listed in any order, reuse is what a fresh mint would bind. */
  lemma ReuseAgreesWithLookup(f: File, a: Authorization, d: Directory, e: Directory)
    requires LabelTrue(StoredBinding(f), f.credential.accessToken, d)
    requires CachedAuthorizationUsable(Some(a), StoredBinding(f))
    requires Keyed(d) && Keyed(e) && SameUpToOrder(d, e)
    ensures TokenFor(f.credential.accessToken, a, e)
  {
    var t := f.credential.accessToken;
    LabelsAreDistinct(a, a);
    var b :| StoredBinding(f) == BindingKey(b) && TokenFor(t, b, d);
    LabelsAreDistinct(a, b);
    if a.Bind? {
      ResolutionIsOrderFree(d, e, a.selector);
    }
  }

  /**
   Once membership has changed, a token reused for an App is still the App a fresh lookup would
   choose exactly when that App is still reachable under its id.
   */
  lemma ReuseAfterChange(f: File, id: string, d: Directory, later: Directory)
    requires LabelTrue(StoredBinding(f), f.credential.accessToken, d)
    requires CachedAuthorizationUsable(Some(Bind(App, id)), StoredBinding(f))
    requires ResolveApp(later, id).Found?
    ensures exists role :: f.credential.accessToken.scopes == [Print(Scope(App, id, role))]
    ensures ResolveApp(later, id).value.appId == Some(id) <==> HasId(later, id)
  {
    var t := f.credential.accessToken;
    LabelsAreDistinct(Bind(App, id), WideRead);
    var a :| StoredBinding(f) == BindingKey(a) && TokenFor(t, a, d) && (a.Bind? && a.kind == App ==> HasId(d, a.selector));
    LabelsAreDistinct(a, Bind(App, id));
    FirstWithId(Reachable(d, d.memberships), id);
    AppBindingIs(d, id);
    assert t.scopes == [Print(Scope(App, id, ParseRole(d.appRoles[id]).value))];
    AppBindingIs(later, id);
    if HasId(later, id) {
      FirstWithId(Reachable(later, later.memberships), id);
    }
  }

  predicate HasOrg(d: Directory, id: string) {
    exists m :: m in d.memberships && m.orgId == id
  }

  /** The Org a selector stands for: its own id, or the slug when nobody's id is the selector. */
  predicate StandsForOrg(d: Directory, selector: string, org: string) {
    HasOrg(d, org) && (selector == org || (!HasOrg(d, selector) && HasSlug(d, org, selector)))
  }

  lemma OrgLookupIs(d: Directory, selector: string, org: string)
    requires Keyed(d) && ResolveOrg(d, selector).Found?
    ensures SelectOrg(d, selector).Some?
    ensures SelectOrg(d, selector).value.orgId == org <==> StandsForOrg(d, selector, org)
  {
    OrgSelectionIs(d, selector);
    var m := SelectOrg(d, selector).value;
    assert SelectOrg(d, selector) == Some(m);
    if StandsForOrg(d, selector, org) {
      var n :| n in d.memberships && n.orgId == org;
      assert SelectOrg(d, selector) == Some(n);
    }
  }

  /**
   A token reused for an Org selector, after any change of membership: its one scope is on the Org the
   selector resolved to when it was signed, and that is what a fresh lookup would bind exactly when
   the user is still in that Org and the selector is its id, or is still its slug and is no id.
   */
  lemma OrgReuseAfterChange(f: File, selector: string, d: Directory, later: Directory)
    requires LabelTrue(StoredBinding(f), f.credential.accessToken, d)
    requires CachedAuthorizationUsable(Some(Bind(Org, selector)), StoredBinding(f))
    requires Keyed(later) && ResolveOrg(later, selector).Found?
    ensures ResolveOrg(d, selector).Found? && SelectOrg(d, selector).Some?
    ensures var org := SelectOrg(d, selector).value.orgId;
      && (exists role :: f.credential.accessToken.scopes == [Print(Scope(Org, org, role))])
      && (SelectOrg(later, selector).Some? && SelectOrg(later, selector).value.orgId == org <==> StandsForOrg(later, selector, org))
  {
    var t := f.credential.accessToken;
    LabelsAreDistinct(Bind(Org, selector), WideRead);
    var a :| StoredBinding(f) == BindingKey(a) && TokenFor(t, a, d);
    LabelsAreDistinct(a, Bind(Org, selector));
    OrgBindingIs(d, selector);
    OrgLookupIs(later, selector, SelectOrg(d, selector).value.orgId);
  }

  /** Two such changes: the slug moves to another Org, and another Org's id is the selector. */
  lemma SlugMovesToAnotherOrg()
    ensures var signed := Directory([OrgMembership("o1", "owner")], map[], map[], map["o1" := "acme"]);
      var moved := Directory([OrgMembership("o1", "owner"), OrgMembership("o2", "member")], map[], map[], map["o1" := "old", "o2" := "acme"]);
      var taken := Directory([OrgMembership("o1", "owner"), OrgMembership("acme", "member")], map[], map[], map["o1" := "acme"]);
      && ResolveOrg(signed, "acme").Found? && SelectOrg(signed, "acme") == Some(OrgMembership("o1", "owner"))
      && ResolveOrg(moved, "acme").Found? && SelectOrg(moved, "acme") == Some(OrgMembership("o2", "member"))
      && ResolveOrg(taken, "acme").Found? && SelectOrg(taken, "acme") == Some(OrgMembership("acme", "member"))
  {
    var a, b, c := OrgMembership("o1", "owner"), OrgMembership("o2", "member"), OrgMembership("acme", "member");
    var none: seq<OrgMembership> := [];
    assert [a][1..] == none && [a, b][1..] == [b] && [b][1..] == none && [a, c][1..] == [c];
    assert |"o1"| != |"acme"| && |"o2"| != |"acme"|;
    assert OrgById(none, "acme") == None;
    assert OrgById([b], "acme") == None && OrgById([c], "acme") == Some(c);
    assert OrgById([a, b], "acme") == None && OrgById([a, c], "acme") == Some(c);
  }

  /** Such a change: the App is gone and another App is keyed by its id, so a fresh lookup binds that one. */
  lemma KeyTakesOverAGoneId()
    ensures var later := Directory([OrgMembership("o2", "owner")], map["o2" := [AppRow("a2", "a1")]], map["a2" := "owner"], map[]);
      ResolveApp(later, "a1").Found? && ResolveApp(later, "a1").value.appId == Some("a2") && !HasId(later, "a1")
  {
    var later := Directory([OrgMembership("o2", "owner")], map["o2" := [AppRow("a2", "a1")]], map["a2" := "owner"], map[]);
    assert later.memberships[1..] == [];
    assert Reachable(later, later.memberships) == [AppRow("a2", "a1")];
    assert [AppRow("a2", "a1")][1..] == [];
    assert ByKey([AppRow("a2", "a1")], "a1") == [AppRow("a2", "a1")];
  }
}
