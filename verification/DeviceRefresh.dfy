/**
 The refresh grant. The provider's refresh tokens are single-use, so the order of the steps
 decides which token the client is left with when one of them fails.

 `Exchange` is one request on the rows and on the provider's live tokens; the class `RefreshDoor`
 runs its steps one after another.
 */
module DeviceRefresh {
  import opened Wrappers
  import opened Scopes
  import opened MembershipLookup
  import opened SessionStore

  const CLI_CLIENT := "splitch-cli"

  datatype Request = Request(
    refreshToken: string,
    clientId: Option<string>,
    resource: Option<string>,
    app: Option<string>,
    org: Option<string>,
    wide: bool)

  /** What the request schema lets through: no empty text, and at most one of app, org and wide. */
  predicate Parses(r: Request) {
    && r.refreshToken != ""
    && r.clientId != Some("") && r.app != Some("") && r.org != Some("")
    && !(r.app.Some? && r.org.Some?) && !(r.app.Some? && r.wide) && !(r.org.Some? && r.wide)
  }

  datatype ProviderToken = ProviderToken(
    userId: string,
    email: Option<string>,
    organizationId: Option<string>,
    refreshToken: Option<string>,
    providerSessionId: Option<string>)

  /** `Lost`: the provider rotated but its answer never arrived. */
  datatype ProviderAnswer = Answered(token: ProviderToken) | Declined | Lost

  /** The later step that fails in this request, if one does. */
  datatype Outage = NoOutage | ProfileWrite | Signing | Remembering | Forgetting

  /** What the request meets: the user's live memberships, the provider's answer, an outage, and the serial of the next signature. */
  datatype Surroundings = Surroundings(directory: Directory, answer: ProviderAnswer, outage: Outage, serial: nat)

  /** An access token. `serial` tells two signatures with equal claims apart, as their texts do. */
  datatype AccessToken = AccessToken(sub: string, scopes: seq<string>, wide: bool, audience: string, serial: nat)

  datatype Error = InvalidRequest | InvalidClient | UnknownSession | BindingRefused(why: Refusal)
                 | ProviderRefused | AuthorityChanged | ServerError

  datatype Reply =
    | Minted(access: AccessToken, refreshToken: string, userId: string, email: string, appId: Option<string>)
    | EmailUnverified(refreshToken: string)
    | Failed(error: Error)

  /** Which audiences may be asked for; `None` asks for the control plane. */
  datatype Audiences = Audiences(controlPlane: string, allowed: set<string>)

  datatype World = World(rows: Rows, live: set<string>)

  /** JavaScript's test of an optional string: absent and empty are both false. */
  predicate Truthy(value: Option<string>) {
    value.Some? && value.value != ""
  }

  // ---------- before the provider is called ----------

  datatype Gate =
    | Closed(error: Error)
    | Open(stored: Session, binding: Option<Binding>, audience: string)

  function ResolveBinding(stored: Session, r: Request, d: Directory): Lookup<Option<Binding>> {
    if r.wide then Found(None)
    else if Truthy(r.app) then Bound(ResolveApp(d, r.app.value))
    else if Truthy(r.org) then Bound(ResolveOrg(d, r.org.value))
    else if Truthy(stored.selectedAppSelector) then Bound(ResolveApp(d, stored.selectedAppSelector.value))
    else Found(None)
  }

  function Bound(b: Lookup<Binding>): Lookup<Option<Binding>> {
    match b
    case Found(binding) => Found(Some(binding))
    case Refused(why) => Refused(why)
  }

  function ResolveAccess(a: Audiences, r: Request): Option<string> {
    var audience := if Truthy(r.resource) then r.resource.value else a.controlPlane;
    if Truthy(r.resource) && audience !in a.allowed then None
    else if r.wide && audience != a.controlPlane then None
    else Some(audience)
  }

  function RefusalError(why: Refusal): Error {
    if why == UnsupportedRole then ServerError else BindingRefused(why)
  }

  function Admit(a: Audiences, rows: Rows, r: Request, d: Directory): Gate {
    if !Parses(r) then Closed(InvalidRequest)
    else if r.clientId != Some(CLI_CLIENT) then Closed(InvalidClient)
    else match Stored(rows, r.refreshToken)
      case None => Closed(UnknownSession)
      case Some(stored) =>
        if stored.userId == "" || stored.providerSessionId == "" then Closed(UnknownSession)
        else match ResolveBinding(stored, r, d)
          case Refused(why) => Closed(RefusalError(why))
          case Found(binding) =>
            match ResolveAccess(a, r)
            case None => Closed(InvalidRequest)
            case Some(audience) => Open(stored, binding, audience)
  }

  // ---------- after the provider answered ----------

  predicate AuthorityUnchanged(stored: Session, t: ProviderToken) {
    && t.userId == stored.userId
    && (Truthy(stored.providerOrganizationId) ==> t.organizationId == stored.providerOrganizationId)
  }

  function NextSession(stored: Session, t: ProviderToken): Session
    requires Truthy(t.providerSessionId)
  {
    Session(t.providerSessionId.value, t.userId,
            if stored.providerOrganizationId.Some? then stored.providerOrganizationId else t.organizationId,
            stored.selectedAppSelector)
  }

  /** The provider's live tokens after its answer: the presented one is spent. */
  function LiveAfter(live: set<string>, presented: string, answer: ProviderAnswer): set<string> {
    match answer
    case Declined => live
    case Lost => live - {presented}
    case Answered(t) => live - {presented} + if Truthy(t.refreshToken) then {t.refreshToken.value} else {}
  }

  /** A spent or unknown token is always declined. */
  function Answer(live: set<string>, presented: string, answer: ProviderAnswer): ProviderAnswer {
    if presented in live then answer else Declined
  }

  function BoundScopes(r: Request, binding: Option<Binding>): seq<string> {
    if r.wide || binding.None? then [] else [binding.value.scope]
  }

  function AppIdOf(binding: Option<Binding>): Option<string> {
    if binding.Some? && Truthy(binding.value.appId) then binding.value.appId else None
  }

  /** From the provider's token to the reply: check, gate on the email, save, sign, rotate. */
  function Settle(rows: Rows, r: Request, g: Gate, t: ProviderToken, outage: Outage, serial: nat): (Rows, Reply)
    requires g.Open?
  {
    if !AuthorityUnchanged(g.stored, t) then (rows, Failed(AuthorityChanged))
    else if !Truthy(t.refreshToken) || !Truthy(t.providerSessionId) then (rows, Failed(ServerError))
    else
      var next := t.refreshToken.value;
      var session := NextSession(g.stored, t);
      if !Truthy(t.email) then Rotate(rows, r.refreshToken, next, session, outage, EmailUnverified(next))
      else if outage == ProfileWrite || outage == Signing then (rows, Failed(ServerError))
      else
        var access := AccessToken(t.userId, BoundScopes(r, g.binding), r.wide, g.audience, serial);
        Rotate(rows, r.refreshToken, next, session, outage,
               Minted(access, next, t.userId, t.email.value, AppIdOf(g.binding)))
  }

  /** Rotation is two writes, and either can fail. */
  function Rotate(rows: Rows, previous: string, next: string, s: Session, outage: Outage, reply: Reply): (Rows, Reply) {
    if outage == Remembering then (rows, Failed(ServerError))
    else if outage == Forgetting && previous != next then (Remembered(rows, next, s), Failed(ServerError))
    else (Rotated(rows, previous, next, s), reply)
  }

  function Exchange(a: Audiences, w: World, r: Request, s: Surroundings): (World, Reply) {
    var g := Admit(a, w.rows, r, s.directory);
    if g.Closed? then (w, Failed(g.error))
    else
      var answer := Answer(w.live, r.refreshToken, s.answer);
      var live := LiveAfter(w.live, r.refreshToken, answer);
      match answer
      case Declined => (w, Failed(ProviderRefused))
      case Lost => (World(w.rows, live), Failed(ServerError))
      case Answered(t) =>
        var (rows, reply) := Settle(w.rows, r, g, t, s.outage, s.serial);
        (World(rows, live), reply)
  }

  // ---------- the door ----------

  class RefreshDoor {
    const audiences: Audiences
    const sessions: DeviceRefreshSessions
    var live: set<string>

    constructor (audiences: Audiences, sessions: DeviceRefreshSessions, live: set<string>)
      ensures this.audiences == audiences && this.sessions == sessions && this.live == live
    {
      this.audiences, this.sessions, this.live := audiences, sessions, live;
    }

    function State(): World
      reads this, sessions
    {
      World(sessions.rows, live)
    }

    /** The provider spends the presented token, if it is live, and answers. */
    method RefreshProviderToken(presented: string, chosen: ProviderAnswer) returns (answer: ProviderAnswer)
      modifies this`live
      ensures answer == Answer(old(live), presented, chosen)
      ensures live == LiveAfter(old(live), presented, answer)
    {
      answer := if presented in live then chosen else Declined;
      live := LiveAfter(live, presented, answer);
    }

    method RotateSession(previous: string, next: string, s: Session, outage: Outage) returns (ok: bool)
      modifies sessions
      ensures var (rows, reply) := Rotate(old(sessions.rows), previous, next, s, outage, EmailUnverified(next));
        sessions.rows == rows && ok == reply.EmailUnverified?
    {
      if outage == Remembering {
        return false;
      }
      sessions.Remember(next, s);
      if previous != next {
        if outage == Forgetting {
          return false;
        }
        sessions.Forget(previous);
      }
      return true;
    }

    /** The verified-email gate, which rotates before it refuses. */
    method RequireDeviceEmail(presented: string, t: ProviderToken, s: Session, outage: Outage)
      returns (email: Option<string>, refusal: Reply)
      requires Truthy(t.refreshToken)
      modifies sessions
      ensures Truthy(t.email) ==> email == t.email && sessions.rows == old(sessions.rows)
      ensures !Truthy(t.email) ==> email == None
      ensures !Truthy(t.email) ==>
        (sessions.rows, refusal)
          == Rotate(old(sessions.rows), presented, t.refreshToken.value, s, outage, EmailUnverified(t.refreshToken.value))
    {
      if t.email.Some? && t.email.value != "" {
        return t.email, Failed(ServerError);
      }
      var next := t.refreshToken.value;
      var ok := RotateSession(presented, next, s, outage);
      return None, if ok then EmailUnverified(next) else Failed(ServerError);
    }

    method ExchangeRefreshToken(r: Request, s: Surroundings) returns (reply: Reply)
      modifies this`live, sessions
      ensures (State(), reply) == Exchange(audiences, old(State()), r, s)
    {
      var gate := Admit(audiences, sessions.rows, r, s.directory);
      if gate.Closed? {
        return Failed(gate.error);
      }
      var answer := RefreshProviderToken(r.refreshToken, s.answer);
      if answer.Declined? {
        return Failed(ProviderRefused);
      }
      if answer.Lost? {
        return Failed(ServerError);
      }
      var t := answer.token;
      if !AuthorityUnchanged(gate.stored, t) {
        return Failed(AuthorityChanged);
      }
      if !Truthy(t.refreshToken) || !Truthy(t.providerSessionId) {
        return Failed(ServerError);
      }
      var session := NextSession(gate.stored, t);
      var email, refusal := RequireDeviceEmail(r.refreshToken, t, session, s.outage);
      if email.None? {
        return refusal;
      }
      if s.outage == ProfileWrite || s.outage == Signing {
        return Failed(ServerError);
      }
      var access := AccessToken(t.userId, BoundScopes(r, gate.binding), r.wide, gate.audience, s.serial);
      var ok := RotateSession(r.refreshToken, t.refreshToken.value, session, s.outage);
      if !ok {
        return Failed(ServerError);
      }
      return Minted(access, t.refreshToken.value, t.userId, email.value, AppIdOf(gate.binding));
    }
  }

  // ---------- what a request must be ----------

  /** The requested resource, and without one the control plane. */
  predicate AudienceAsked(a: Audiences, r: Request, audience: string) {
    if r.resource.Some? && r.resource.value != "" then audience == r.resource.value else audience == a.controlPlane
  }

  /** The resource is one the server serves, and wide authority is for the control plane alone. */
  predicate ResourceServed(a: Audiences, r: Request) {
    && (Truthy(r.resource) ==> r.resource.value in a.allowed)
    && (r.wide && Truthy(r.resource) ==> r.resource.value == a.controlPlane)
  }

  /** The selector named, or the session's own App, resolves in the user's memberships. */
  ghost predicate SelectorResolves(r: Request, stored: Session, d: Directory) {
    || r.wide
    || (r.app.Some? && ResolveApp(d, r.app.value).Found?)
    || (r.app.None? && r.org.Some? && ResolveOrg(d, r.org.value).Found?)
    || (r.app.None? && r.org.None? && (Truthy(stored.selectedAppSelector) ==> ResolveApp(d, stored.selectedAppSelector.value).Found?))
  }

  /** The request reaches the provider: well formed, from the CLI, for a known session, with its selector and resource in order. */
  ghost predicate ReachesProvider(a: Audiences, rows: Rows, r: Request, d: Directory) {
    && Parses(r) && r.clientId == Some(CLI_CLIENT)
    && r.refreshToken in rows
    && var stored := Decode(rows[r.refreshToken]);
       && stored.userId != "" && stored.providerSessionId != ""
       && SelectorResolves(r, stored, d) && ResourceServed(a, r)
  }

  lemma AdmitIs(a: Audiences, rows: Rows, r: Request, d: Directory)
    ensures Admit(a, rows, r, d).Open? <==> ReachesProvider(a, rows, r, d)
    ensures Admit(a, rows, r, d).Open? ==> Admit(a, rows, r, d).stored == Decode(rows[r.refreshToken])
  {}

  // ---------- what the client is left with ----------

  /** The token works: the store knows it and the provider will honour it. */
  predicate Usable(w: World, token: string) {
    token in w.rows && token in w.live
  }

  /** The token the client holds after the reply. */
  function Held(r: Request, reply: Reply): string {
    match reply
    case Minted(_, next, _, _, _) => next
    case EmailUnverified(next) => next
    case Failed(_) => r.refreshToken
  }

  /** The provider was reached and rotated to another token. */
  predicate Spent(a: Audiences, w: World, r: Request, s: Surroundings) {
    && Admit(a, w.rows, r, s.directory).Open?
    && r.refreshToken in w.live
    && (s.answer.Lost? || (s.answer.Answered? && s.answer.token.refreshToken != Some(r.refreshToken)))
  }

  /**
   After a 200 and after `email_unverified`, store and provider both hold the replied token, and
   the presented one is gone from both unless the provider handed it back.
   */
  lemma RepliedTokenIsUsable(a: Audiences, w: World, r: Request, s: Surroundings)
    requires !Exchange(a, w, r, s).1.Failed?
    ensures var (after, reply) := Exchange(a, w, r, s);
      var next := Held(r, reply);
      && Usable(after, next) && r.refreshToken in w.rows && r.refreshToken in w.live
      && (next != r.refreshToken ==> r.refreshToken !in after.rows && r.refreshToken !in after.live)
  {
    var g := Admit(a, w.rows, r, s.directory);
    var t := s.answer.token;
    RotationIs(w.rows, r.refreshToken, t.refreshToken.value, NextSession(g.stored, t));
  }

  /** A failing request leaves the store alone, but for a next row when only the forgetting failed. */
  lemma FailureKeepsTheStore(a: Audiences, w: World, r: Request, s: Surroundings)
    requires Exchange(a, w, r, s).1.Failed?
    ensures var (after, _) := Exchange(a, w, r, s);
      && (r.refreshToken in after.rows <==> r.refreshToken in w.rows)
      && (s.outage != Forgetting ==> after.rows == w.rows)
      && (r.refreshToken in after.live <==> r.refreshToken in w.live && !Spent(a, w, r, s))
  {}

  /** The provider's token passes every check after it and no outage stops the rotation: the next token is replied. */
  predicate Delivered(stored: Session, presented: string, t: ProviderToken, outage: Outage) {
    && AuthorityUnchanged(stored, t) && Truthy(t.refreshToken) && Truthy(t.providerSessionId)
    && outage != Remembering
    && (outage == Forgetting ==> t.refreshToken.value == presented)
    && (Truthy(t.email) ==> outage != ProfileWrite && outage != Signing)
  }

  /** The request costs the client nothing: refused before the provider, declined by it, handed back, or delivered. */
  ghost predicate Harmless(a: Audiences, w: World, r: Request, s: Surroundings)
    requires r.refreshToken in w.rows
  {
    || !ReachesProvider(a, w.rows, r, s.directory)
    || s.answer.Declined?
    || (s.answer.Answered?
        && (s.answer.token.refreshToken == Some(r.refreshToken)
            || Delivered(Decode(w.rows[r.refreshToken]), r.refreshToken, s.answer.token, s.outage)))
  }

  /**
   Exactly which requests leave the client with a working token, told from the request and what it
   meets: the presented token worked, and the request was refused before the provider or declined by
   it, or the provider handed the same token back, or its answer passed every check and no outage
   came between it and the reply.
   */
  lemma ClientKeepsAUsableToken(a: Audiences, w: World, r: Request, s: Surroundings)
    ensures var (after, reply) := Exchange(a, w, r, s);
      Usable(after, Held(r, reply)) <==> Usable(w, r.refreshToken) && Harmless(a, w, r, s)
  {
    AdmitIs(a, w.rows, r, s.directory);
    var g := Admit(a, w.rows, r, s.directory);
    if g.Open? && r.refreshToken in w.live && s.answer.Answered? {
      assert g.stored == Decode(w.rows[r.refreshToken]);
      DeliveredIsReplied(w.rows, r, g, s.answer.token, s.outage, s.serial);
    }
    if Exchange(a, w, r, s).1.Failed? {
      FailureKeepsTheStore(a, w, r, s);
    } else {
      RepliedTokenIsUsable(a, w, r, s);
    }
  }

  lemma DeliveredIsReplied(rows: Rows, r: Request, g: Gate, t: ProviderToken, outage: Outage, serial: nat)
    requires g.Open?
    ensures Settle(rows, r, g, t, outage, serial).1.Failed? <==> !Delivered(g.stored, r.refreshToken, t, outage)
  {}

  /**
   A signing fault: nothing durable was written, as the source says, and yet the presented token is
   dead, because the provider has already rotated it.
   */
  lemma SigningFaultStrandsTheClient()
    ensures var w := World(map["r1" := Row("ps", "u", "", "")], {"r1"});
      var r := Request("r1", Some(CLI_CLIENT), None, None, None, false);
      var t := ProviderToken("u", Some("me@example.com"), None, Some("r2"), Some("ps"));
      var s := Surroundings(Directory([], map[], map[], map[]), Answered(t), Signing, 0);
      var (after, reply) := Exchange(Audiences("cp", {"cp"}), w, r, s);
      && Usable(w, "r1") && reply == Failed(ServerError) && after.rows == w.rows
      && !Usable(after, Held(r, reply))
  {
    var w := World(map["r1" := Row("ps", "u", "", "")], {"r1"});
    var r := Request("r1", Some(CLI_CLIENT), None, None, None, false);
    var t := ProviderToken("u", Some("me@example.com"), None, Some("r2"), Some("ps"));
    var s := Surroundings(Directory([], map[], map[], map[]), Answered(t), Signing, 0);
    ClientKeepsAUsableToken(Audiences("cp", {"cp"}), w, r, s);
    assert "r1" != "r2";
    assert Admit(Audiences("cp", {"cp"}), w.rows, r, s.directory).Open?;
  }

  /** A selector that does not resolve fails the one request and costs the session nothing. */
  lemma UnresolvedSelectorSpendsNothing(a: Audiences, w: World, r: Request, s: Surroundings)
    requires r.refreshToken in w.rows
    requires ResolveBinding(Decode(w.rows[r.refreshToken]), r, s.directory).Refused?
    ensures Exchange(a, w, r, s).0 == w && Exchange(a, w, r, s).1.Failed?
  {}

  /** What a failure says of the request and of what it met. */
  lemma FailureNamesItsCause(a: Audiences, w: World, r: Request, s: Surroundings)
    requires Exchange(a, w, r, s).1.Failed?
    ensures match Exchange(a, w, r, s).1.error
      case InvalidRequest => !Parses(r) || !ResourceServed(a, r)
      case InvalidClient => r.clientId != Some(CLI_CLIENT)
      case UnknownSession =>
        r.refreshToken in w.rows ==> Decode(w.rows[r.refreshToken]).userId == "" || Decode(w.rows[r.refreshToken]).providerSessionId == ""
      case BindingRefused(why) =>
        && r.refreshToken in w.rows && why != UnsupportedRole
        && !SelectorResolves(r, Decode(w.rows[r.refreshToken]), s.directory)
      case ProviderRefused => r.refreshToken !in w.live || s.answer.Declined?
      case AuthorityChanged =>
        && r.refreshToken in w.rows && s.answer.Answered?
        && (s.answer.token.userId != Decode(w.rows[r.refreshToken]).userId
            || s.answer.token.organizationId != Decode(w.rows[r.refreshToken]).providerOrganizationId)
      case ServerError => true
  {}

  // ---------- what a reply says ----------

  /**
   A mint carries the stored user and exactly the authority asked for: wide with no scopes, or one
   scope on the App or Organization the selector resolves to (the session's own App when none was
   named), or nothing.
   */
  ghost predicate MintAnswers(r: Request, stored: Session, d: Directory, m: Reply)
    requires m.Minted?
  {
    && m.access.sub == stored.userId && m.userId == stored.userId
    && m.access.wide == r.wide
    && (r.wide ==> m.access.scopes == [] && m.appId == None)
    && (!r.wide && r.app.Some? ==> BoundTo(m, ResolveApp(d, r.app.value)))
    && (!r.wide && r.app.None? && r.org.Some? ==> BoundTo(m, ResolveOrg(d, r.org.value)))
    && (!r.wide && r.app.None? && r.org.None? ==>
         if Truthy(stored.selectedAppSelector) then BoundTo(m, ResolveApp(d, stored.selectedAppSelector.value))
         else m.access.scopes == [] && m.appId == None)
  }

  predicate BoundTo(m: Reply, b: Lookup<Binding>)
    requires m.Minted?
  {
    b.Found? && m.access.scopes == [b.value.scope] && m.appId == AppIdOf(Some(b.value))
  }

  lemma MintIsAnswer(a: Audiences, w: World, r: Request, s: Surroundings)
    requires Exchange(a, w, r, s).1.Minted?
    ensures r.refreshToken in w.rows
    ensures MintAnswers(r, Decode(w.rows[r.refreshToken]), s.directory, Exchange(a, w, r, s).1)
  {}

  // ---------- audiences, and when a mint is made ----------

  /**
   A mint is for the resource that was asked for, which is a served one, or for the control plane; a wide
   token is for the control plane alone; and it carries the provider's next token and email.
   */
  lemma MintIsForItsResource(a: Audiences, w: World, r: Request, s: Surroundings)
    requires Exchange(a, w, r, s).1.Minted?
    ensures var m := Exchange(a, w, r, s).1;
      && AudienceAsked(a, r, m.access.audience) && ResourceServed(a, r)
      && (Truthy(r.resource) ==> m.access.audience in a.allowed)
      && (m.access.wide ==> m.access.audience == a.controlPlane)
      && s.answer.Answered? && m.access.serial == s.serial
      && s.answer.token.refreshToken == Some(m.refreshToken) && s.answer.token.email == Some(m.email) && m.email != ""
  {}

  /** A mint is made for a well-formed request, of one selector at most, whose user and Organization the provider still confirms. */
  lemma MintIsForItsSession(a: Audiences, w: World, r: Request, s: Surroundings)
    requires Exchange(a, w, r, s).1.Minted?
    ensures r.refreshToken != "" && !(r.app.Some? && r.org.Some?) && !(r.wide && (r.app.Some? || r.org.Some?))
    ensures r.refreshToken in w.rows && s.answer.Answered?
    ensures var stored, t := Decode(w.rows[r.refreshToken]), s.answer.token;
      t.userId == stored.userId && (Truthy(stored.providerOrganizationId) ==> t.organizationId == stored.providerOrganizationId)
  {}

  /** A resource the server does not serve is refused before anything is spent. */
  lemma UnservedResourceIsRefused(a: Audiences, w: World, r: Request, s: Surroundings)
    requires !ResourceServed(a, r)
    ensures Exchange(a, w, r, s).0 == w && Exchange(a, w, r, s).1.Failed?
  {}

  /**
   Every answer of the grant. It reaches the provider exactly when the request is in order; it mints
   exactly when the provider then answers for an unchanged authority with a verified email and no
   outage; it asks for a verified email exactly when only the email is missing; it fails otherwise,
   and a request that did not reach the provider changes nothing.
   */
  lemma GrantAnswers(a: Audiences, w: World, r: Request, s: Surroundings)
    ensures var (after, reply) := Exchange(a, w, r, s);
      var reaches := ReachesProvider(a, w.rows, r, s.directory);
      && (!reaches ==> after == w && reply.Failed?)
      && (reaches && (r.refreshToken !in w.live || s.answer.Declined?) ==> after == w && reply == Failed(ProviderRefused))
      && (reaches && r.refreshToken in w.live && s.answer.Lost? ==> reply == Failed(ServerError))
      && (reaches && r.refreshToken in w.live && s.answer.Answered? ==>
           var t := s.answer.token;
           var delivered := Delivered(Decode(w.rows[r.refreshToken]), r.refreshToken, t, s.outage);
           && (reply.Minted? <==> delivered && Truthy(t.email))
           && (reply.EmailUnverified? <==> delivered && !Truthy(t.email)))
  {
    AdmitIs(a, w.rows, r, s.directory);
  }
}
