/**
 Resolving an App or Organization selector against one user's live memberships: canonical id
 first, then a per-Org App key or an Org slug, then the live role on what was selected.
 */
module MembershipLookup {
  import opened Wrappers
  import opened Scopes

  datatype OrgMembership = OrgMembership(orgId: string, role: string)

  datatype AppRow = AppRow(id: string, key: string)

  /** What the repository answers about one user at one moment. */
  datatype Directory = Directory(
    memberships: seq<OrgMembership>,
    appsOf: map<string, seq<AppRow>>,
    appRoles: map<string, string>,
    slugs: map<string, string>)

  datatype Refusal = AppUnreachable | AppAmbiguous | AppUnauthorized | OrgUnreachable | UnsupportedRole

  datatype Lookup<T> = Found(value: T) | Refused(why: Refusal)

  /** The resource a minted token is bound to. */
  datatype Binding = Binding(scope: string, appId: Option<string>)

  // ---------- Apps ----------

  function AppsOf(d: Directory, orgId: string): seq<AppRow> {
    if orgId in d.appsOf then d.appsOf[orgId] else []
  }

  function Reachable(d: Directory, memberships: seq<OrgMembership>): seq<AppRow> {
    if memberships == [] then []
    else AppsOf(d, memberships[0].orgId) + Reachable(d, memberships[1..])
  }

  function ById(apps: seq<AppRow>, selector: string): Option<AppRow> {
    if apps == [] then None
    else if apps[0].id == selector then Some(apps[0])
    else ById(apps[1..], selector)
  }

  function ByKey(apps: seq<AppRow>, selector: string): seq<AppRow> {
    if apps == [] then []
    else (if apps[0].key == selector then [apps[0]] else []) + ByKey(apps[1..], selector)
  }

  function SelectReachableApp(apps: seq<AppRow>, selector: string): Lookup<AppRow> {
    var byId := ById(apps, selector);
    var byKey := ByKey(apps, selector);
    if byId.Some? then Found(byId.value)
    else if byKey == [] then Refused(AppUnreachable)
    else if |byKey| > 1 then Refused(AppAmbiguous)
    else Found(byKey[0])
  }

  function ScopeFor(kind: Kind, id: string, role: string): Lookup<string> {
    match ParseRole(role)
    case None => Refused(UnsupportedRole)
    case Some(r) => Found(Print(Scope(kind, id, r)))
  }

  function BindApp(d: Directory, app: AppRow): Lookup<Binding> {
    if app.id !in d.appRoles then Refused(AppUnauthorized)
    else match ScopeFor(App, app.id, d.appRoles[app.id])
      case Refused(why) => Refused(why)
      case Found(scope) => Found(Binding(scope, Some(app.id)))
  }

  function ResolveApp(d: Directory, selector: string): Lookup<Binding> {
    match SelectReachableApp(Reachable(d, d.memberships), selector)
    case Refused(why) => Refused(why)
    case Found(app) => BindApp(d, app)
  }

  lemma {:induction false} ReachableNext(d: Directory, ms: seq<OrgMembership>, i: nat)
    requires i < |ms|
    ensures Reachable(d, ms[..i + 1]) == Reachable(d, ms[..i]) + AppsOf(d, ms[i].orgId)
    decreases i
  {
    if i == 0 {
      assert ms[..1] == [ms[0]] && ms[..1][1..] == [] && ms[..0] == [];
    } else {
      ReachableNext(d, ms[1..], i - 1);
      assert ms[..i + 1][1..] == ms[1..][..i];
      assert ms[..i][1..] == ms[1..][..i - 1];
    }
  }

  /** The lookup as the source runs it, one Org's Apps at a time. */
  method ResolveAppSelectionForUser(d: Directory, selector: string) returns (r: Lookup<Binding>)
    ensures r == ResolveApp(d, selector)
  {
    var reachable: seq<AppRow> := [];
    for i := 0 to |d.memberships|
      invariant reachable == Reachable(d, d.memberships[..i])
    {
      ReachableNext(d, d.memberships, i);
      reachable := reachable + AppsOf(d, d.memberships[i].orgId);
    }
    assert d.memberships[..|d.memberships|] == d.memberships;
    var selected := SelectReachableApp(reachable, selector);
    match selected
    case Refused(why) => r := Refused(why);
    case Found(app) => r := BindApp(d, app);
  }

  // ---------- Organizations ----------

  function OrgById(ms: seq<OrgMembership>, selector: string): Option<OrgMembership> {
    if ms == [] then None
    else if ms[0].orgId == selector then Some(ms[0])
    else OrgById(ms[1..], selector)
  }

  predicate HasSlug(d: Directory, orgId: string, selector: string) {
    orgId in d.slugs && d.slugs[orgId] == selector
  }

  function OrgBySlug(d: Directory, ms: seq<OrgMembership>, selector: string): Option<OrgMembership> {
    if ms == [] then None
    else if HasSlug(d, ms[0].orgId, selector) then Some(ms[0])
    else OrgBySlug(d, ms[1..], selector)
  }

  function SelectOrg(d: Directory, selector: string): Option<OrgMembership> {
    var byId := OrgById(d.memberships, selector);
    if byId.Some? then byId else OrgBySlug(d, d.memberships, selector)
  }

  function ResolveOrg(d: Directory, selector: string): Lookup<Binding> {
    match SelectOrg(d, selector)
    case None => Refused(OrgUnreachable)
    case Some(m) =>
      match ScopeFor(Org, m.orgId, m.role)
      case Refused(why) => Refused(why)
      case Found(scope) => Found(Binding(scope, None))
  }

  lemma {:induction false} SlugSkips(d: Directory, ms: seq<OrgMembership>, i: nat, selector: string)
    requires i <= |ms|
    requires forall j :: 0 <= j < i ==> !HasSlug(d, ms[j].orgId, selector)
    ensures OrgBySlug(d, ms, selector) == OrgBySlug(d, ms[i..], selector)
    decreases i
  {
    if i > 0 {
      SlugSkips(d, ms[1..], i - 1, selector);
      assert ms[1..][i - 1..] == ms[i..];
    }
  }

  method ResolveOrgSelectionForUser(d: Directory, selector: string) returns (r: Lookup<Binding>)
    ensures r == ResolveOrg(d, selector)
  {
    var selected := OrgById(d.memberships, selector);
    if selected.None? {
      for i := 0 to |d.memberships|
        invariant selected.None?
        invariant forall j :: 0 <= j < i ==> !HasSlug(d, d.memberships[j].orgId, selector)
      {
        if HasSlug(d, d.memberships[i].orgId, selector) {
          SlugSkips(d, d.memberships, i, selector);
          selected := Some(d.memberships[i]);
          break;
        }
      }
      if selected.None? {
        SlugSkips(d, d.memberships, |d.memberships|, selector);
        return Refused(OrgUnreachable);
      }
    }
    var scope := ScopeFor(Org, selected.value.orgId, selected.value.role);
    match scope
    case Refused(why) => r := Refused(why);
    case Found(s) => r := Found(Binding(s, None));
  }

  // ---------- what a selection means ----------

  predicate DistinctIds(apps: seq<AppRow>) {
    forall i, j :: 0 <= i < j < |apps| ==> apps[i].id != apps[j].id
  }

  lemma {:induction false} ByIdIs(apps: seq<AppRow>, selector: string)
    ensures ById(apps, selector).Some? ==> ById(apps, selector).value in apps && ById(apps, selector).value.id == selector
    ensures ById(apps, selector).None? <==> forall a :: a in apps ==> a.id != selector
  {
    if apps != [] {
      ByIdIs(apps[1..], selector);
      assert apps[0] in apps;
      assert forall a :: a in apps <==> a == apps[0] || a in apps[1..];
    }
  }

  lemma {:induction false} ByKeyIs(apps: seq<AppRow>, selector: string)
    ensures forall a :: a in ByKey(apps, selector) <==> a in apps && a.key == selector
    ensures DistinctIds(apps) ==> DistinctIds(ByKey(apps, selector))
  {
    if apps != [] {
      ByKeyIs(apps[1..], selector);
      assert forall a :: a in apps <==> a == apps[0] || a in apps[1..];
      var rest := ByKey(apps[1..], selector);
      if DistinctIds(apps) && apps[0].key == selector {
        forall j | 0 <= j < |rest| ensures rest[j].id != apps[0].id {
          assert rest[j] in rest;
          assert rest[j] in apps[1..];
        }
      }
    }
  }

  /** The one App a selector stands for: the App with that id, else the only App with that key. */
  ghost predicate StandsFor(apps: seq<AppRow>, selector: string, app: AppRow) {
    && app in apps
    && (app.id == selector
        || ((forall a :: a in apps ==> a.id != selector)
            && app.key == selector
            && forall a :: a in apps && a.key == selector ==> a == app))
  }

  /** Selection finds exactly the App the selector stands for, and refuses when there is none. */
  lemma SelectionIs(apps: seq<AppRow>, selector: string)
    requires DistinctIds(apps)
    ensures forall app :: SelectReachableApp(apps, selector) == Found(app) <==> StandsFor(apps, selector, app)
    ensures SelectReachableApp(apps, selector) == Refused(AppAmbiguous) <==>
      (forall a :: a in apps ==> a.id != selector)
      && exists a, b :: a in apps && b in apps && a != b && a.key == selector && b.key == selector
    ensures SelectReachableApp(apps, selector) == Refused(AppUnreachable) <==>
      forall a :: a in apps ==> a.id != selector && a.key != selector
  {
    ByIdIs(apps, selector);
    ByKeyIs(apps, selector);
    var byKey := ByKey(apps, selector);
    forall app ensures SelectReachableApp(apps, selector) == Found(app) <==> StandsFor(apps, selector, app) {
      if ById(apps, selector).Some? {
        if app in apps && app.id == selector {
          SameId(apps, app, ById(apps, selector).value);
        }
      } else if |byKey| > 1 {
        assert byKey[0] in byKey && byKey[1] in byKey && byKey[0].id != byKey[1].id;
      } else if |byKey| == 1 {
        assert byKey[0] in byKey;
        assert forall a :: a in byKey ==> a == byKey[0];
      }
    }
    if ById(apps, selector).None? {
      if |byKey| > 1 {
        assert byKey[0] in byKey && byKey[1] in byKey && byKey[0].id != byKey[1].id;
      } else {
        forall a, b | a in apps && b in apps && a.key == selector && b.key == selector ensures a == b {
          assert a in byKey && b in byKey;
        }
      }
    }
  }

  lemma SameId(apps: seq<AppRow>, a: AppRow, b: AppRow)
    requires DistinctIds(apps) && a in apps && b in apps && a.id == b.id
    ensures a == b
  {
    var i :| 0 <= i < |apps| && apps[i] == a;
    var j :| 0 <= j < |apps| && apps[j] == b;
  }

  /** Listing the same Apps in another order selects the same App, or refuses alike. */
  lemma SelectionIsOrderFree(a: seq<AppRow>, b: seq<AppRow>, selector: string)
    requires DistinctIds(a) && DistinctIds(b)
    requires forall app :: app in a <==> app in b
    ensures SelectReachableApp(a, selector) == SelectReachableApp(b, selector)
  {
    SelectionIs(a, selector);
    SelectionIs(b, selector);
    forall app ensures StandsFor(a, selector, app) <==> StandsFor(b, selector, app) {}
    var ra, rb := SelectReachableApp(a, selector), SelectReachableApp(b, selector);
    if ra.Found? {
      assert StandsFor(b, selector, ra.value);
    }
  }

  /** Apps of other Orgs, wherever they are listed and whatever their keys, cannot take a canonical id away. */
  lemma IdCannotBeCaptured(before: seq<AppRow>, own: seq<AppRow>, after: seq<AppRow>, app: AppRow)
    requires DistinctIds(before + own + after) && app in own
    ensures SelectReachableApp(before + own + after, app.id) == Found(app)
  {
    var all := before + own + after;
    assert app in all;
    assert StandsFor(all, app.id, app);
    SelectionIs(all, app.id);
  }

  predicate DistinctOrgs(ms: seq<OrgMembership>) {
    forall i, j :: 0 <= i < j < |ms| ==> ms[i].orgId != ms[j].orgId
  }

  predicate DistinctSlugs(d: Directory) {
    forall a, b :: a in d.slugs && b in d.slugs && d.slugs[a] == d.slugs[b] ==> a == b
  }

  lemma {:induction false} OrgByIdIs(ms: seq<OrgMembership>, selector: string)
    ensures OrgById(ms, selector).Some? ==> OrgById(ms, selector).value in ms && OrgById(ms, selector).value.orgId == selector
    ensures OrgById(ms, selector).None? <==> forall m :: m in ms ==> m.orgId != selector
  {
    if ms != [] {
      OrgByIdIs(ms[1..], selector);
      assert ms[0] in ms;
      assert forall m :: m in ms <==> m == ms[0] || m in ms[1..];
    }
  }

  lemma {:induction false} OrgBySlugIs(d: Directory, ms: seq<OrgMembership>, selector: string)
    ensures OrgBySlug(d, ms, selector).Some? ==>
      OrgBySlug(d, ms, selector).value in ms && HasSlug(d, OrgBySlug(d, ms, selector).value.orgId, selector)
    ensures OrgBySlug(d, ms, selector).None? <==> forall m :: m in ms ==> !HasSlug(d, m.orgId, selector)
  {
    if ms != [] {
      OrgBySlugIs(d, ms[1..], selector);
      assert ms[0] in ms;
      assert forall m :: m in ms <==> m == ms[0] || m in ms[1..];
    }
  }

  lemma SameOrg(ms: seq<OrgMembership>, a: OrgMembership, b: OrgMembership)
    requires DistinctOrgs(ms) && a in ms && b in ms && a.orgId == b.orgId
    ensures a == b
  {
    var i :| 0 <= i < |ms| && ms[i] == a;
    var j :| 0 <= j < |ms| && ms[j] == b;
  }

  /** An Org selector finds the membership with that id, else the one whose Org has that slug. */
  lemma OrgSelectionIs(d: Directory, selector: string)
    requires DistinctOrgs(d.memberships) && DistinctSlugs(d)
    ensures forall m :: SelectOrg(d, selector) == Some(m) <==>
      && m in d.memberships
      && (m.orgId == selector
          || ((forall o :: o in d.memberships ==> o.orgId != selector) && HasSlug(d, m.orgId, selector)))
  {
    var ms := d.memberships;
    OrgByIdIs(ms, selector);
    OrgBySlugIs(d, ms, selector);
    forall m | m in ms
      ensures OrgById(ms, selector).Some? && m.orgId == selector ==> m == OrgById(ms, selector).value
      ensures OrgBySlug(d, ms, selector).Some? && HasSlug(d, m.orgId, selector) ==> m == OrgBySlug(d, ms, selector).value
    {
      if OrgById(ms, selector).Some? && m.orgId == selector {
        SameOrg(ms, m, OrgById(ms, selector).value);
      }
      if OrgBySlug(d, ms, selector).Some? && HasSlug(d, m.orgId, selector) {
        SameOrg(ms, m, OrgBySlug(d, ms, selector).value);
      }
    }
  }

  // ---------- the same authority listed in another order ----------

  /** Two answers of the repository that differ only in the order of their lists. */
  ghost predicate SameUpToOrder(d: Directory, e: Directory) {
    && (forall m :: m in d.memberships <==> m in e.memberships)
    && (forall app :: app in Reachable(d, d.memberships) <==> app in Reachable(e, e.memberships))
    && d.appRoles == e.appRoles && d.slugs == e.slugs
  }

  /** The keys the database enforces: Org and App ids are primary keys and slugs are unique. */
  predicate Keyed(d: Directory) {
    && DistinctOrgs(d.memberships) && DistinctSlugs(d)
    && DistinctIds(Reachable(d, d.memberships))
  }

  /** Listing order never decides what a selector binds. */
  lemma ResolutionIsOrderFree(d: Directory, e: Directory, selector: string)
    requires Keyed(d) && Keyed(e) && SameUpToOrder(d, e)
    ensures ResolveApp(d, selector) == ResolveApp(e, selector)
    ensures ResolveOrg(d, selector) == ResolveOrg(e, selector)
  {
    SelectionIsOrderFree(Reachable(d, d.memberships), Reachable(e, e.memberships), selector);
    OrgSelectionIs(d, selector);
    OrgSelectionIs(e, selector);
    var md, me := SelectOrg(d, selector), SelectOrg(e, selector);
    if md.Some? {
      assert SelectOrg(e, selector) == Some(md.value);
    }
  }

  // ---------- what a bound scope says ----------

  /** A resolved App binding carries one App scope: the App the selector stands for, at its live role. */
  lemma AppBindingIs(d: Directory, selector: string)
    requires ResolveApp(d, selector).Found?
    ensures var b := ResolveApp(d, selector).value;
      && b.appId.Some?
      && (exists app :: app in Reachable(d, d.memberships) && app.id == b.appId.value
                        && SelectReachableApp(Reachable(d, d.memberships), selector) == Found(app))
      && b.appId.value in d.appRoles && ParseRole(d.appRoles[b.appId.value]).Some?
      && b.scope == Print(Scope(App, b.appId.value, ParseRole(d.appRoles[b.appId.value]).value))
  {
    var apps := Reachable(d, d.memberships);
    ByIdIs(apps, selector);
    ByKeyIs(apps, selector);
    var app := SelectReachableApp(apps, selector).value;
    assert app in apps by {
      if ById(apps, selector).None? {
        assert ByKey(apps, selector)[0] in ByKey(apps, selector);
      }
    }
  }

  lemma OrgBindingIs(d: Directory, selector: string)
    requires ResolveOrg(d, selector).Found?
    ensures var b := ResolveOrg(d, selector).value;
      && b.appId.None?
      && exists m, role :: SelectOrg(d, selector) == Some(m) && m in d.memberships && ParseRole(m.role) == Some(role)
                           && b.scope == Print(Scope(Org, m.orgId, role))
  {
    OrgByIdIs(d.memberships, selector);
    OrgBySlugIs(d, d.memberships, selector);
    var m := SelectOrg(d, selector).value;
    assert ParseRole(m.role) == Some(ParseRole(m.role).value);
  }
}
