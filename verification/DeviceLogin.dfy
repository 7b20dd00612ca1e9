/**
 The device grant: an approved device code becomes a refresh session and a first access token.
 Nothing is stored for a login without a verified email, nor for a step-up approval.
 */
module DeviceLogin {
  import opened Wrappers
  import opened Scopes
  import opened MembershipLookup
  import opened SessionStore
  import opened DeviceRefresh

  datatype Authorization = NoAuthorization | Wide | PatManagement

  /** A sealed device grant once opened. */
  datatype Grant = Grant(selector: Option<string>, authorization: Authorization)

  datatype CodeRequest = CodeRequest(
    clientId: Option<string>,
    scope: Option<string>,
    resource: Option<string>,
    authorization: Authorization)

  datatype LoginReply =
    | LoggedIn(access: AccessToken, refreshToken: string, userId: string, email: string, appId: Option<string>)
    | SteppedUp(access: AccessToken, userId: string, email: string)
    | LoginFailed(why: LoginError)

  datatype LoginError = BadClient | BadResource | ChangedSelection | Incompatible | ChangedAuthorization
                      | Unapproved | Unverified | Unresolved(refusal: Refusal) | MissingSession

  /** The words of a text from `i` on, the first of them continuing `word`: trim, then split at white space. */
  function Words(text: string, i: nat, word: string): seq<string>
    requires i <= |text|
    decreases |text| - i
  {
    if i == |text| then (if word == "" then [] else [word])
    else if JsSpace(text[i]) then (if word == "" then [] else [word]) + Words(text, i + 1, "")
    else Words(text, i + 1, word + [text[i]])
  }

  /** The App a legacy scope request names: one canonical App scope, whose role is ignored. */
  function ParseSelectedAppRequest(scope: string): Option<string> {
    var requested := Words(scope, 0, "");
    if |requested| == 1 && Parse(requested[0]).Some? && Parse(requested[0]).value.kind == App
    then Some(Parse(requested[0]).value.id) else None
  }

  function AccessAudience(a: Audiences, r: CodeRequest): Option<string> {
    var audience := if Truthy(r.resource) then r.resource.value else a.controlPlane;
    if Truthy(r.resource) && audience !in a.allowed then None
    else if r.authorization != NoAuthorization && audience != a.controlPlane then None
    else Some(audience)
  }

  /** The checks made on the request and the grant before the provider is asked. */
  function Check(a: Audiences, r: CodeRequest, g: Grant): Option<LoginError> {
    if r.clientId != Some(CLI_CLIENT) then Some(BadClient)
    else if AccessAudience(a, r).None? then Some(BadResource)
    else if Truthy(r.scope) && (ParseSelectedAppRequest(r.scope.value).None? || ParseSelectedAppRequest(r.scope.value) != g.selector)
      then Some(ChangedSelection)
    else if r.authorization != NoAuthorization && Truthy(g.selector) then Some(Incompatible)
    else if (r.authorization == PatManagement || g.authorization == PatManagement) && r.authorization != g.authorization
      then Some(ChangedAuthorization)
    else None
  }

  function DeviceBinding(d: Directory, g: Grant): Lookup<Option<Binding>> {
    if Truthy(g.selector) then Bound(ResolveApp(d, g.selector.value)) else Found(None)
  }

  function LoginSession(t: ProviderToken, b: Option<Binding>): Session
    requires Truthy(t.providerSessionId)
  {
    Session(t.providerSessionId.value, t.userId, t.organizationId, if b.Some? then b.value.appId else None)
  }

  /** One exchange: `t` is the provider's token when the code was approved. */
  function Login(a: Audiences, rows: Rows, r: CodeRequest, g: Grant, t: Option<ProviderToken>, d: Directory, serial: nat): (Rows, LoginReply) {
    var error := Check(a, r, g);
    if error.Some? then (rows, LoginFailed(error.value))
    else if t.None? then (rows, LoginFailed(Unapproved))
    else if !Truthy(t.value.email) then (rows, LoginFailed(Unverified))
    else
      var audience := AccessAudience(a, r).value;
      var user, email := t.value.userId, t.value.email.value;
      if r.authorization == PatManagement then
        (rows, SteppedUp(AccessToken(user, [], false, audience, serial), user, email))
      else match DeviceBinding(d, g)
        case Refused(why) => (rows, LoginFailed(Unresolved(why)))
        case Found(b) =>
          if !Truthy(t.value.refreshToken) || !Truthy(t.value.providerSessionId) then (rows, LoginFailed(MissingSession))
          else
            var scopes := if r.authorization == Wide || b.None? then [] else [b.value.scope];
            (Remembered(rows, t.value.refreshToken.value, LoginSession(t.value, b)),
             LoggedIn(AccessToken(user, scopes, r.authorization == Wide, audience, serial), t.value.refreshToken.value,
                      user, email, AppIdOf(b)))
  }

  /** A login replies with the token it stored, bound to the one App it selected, if any. */
  lemma LoginIsSound(a: Audiences, rows: Rows, r: CodeRequest, g: Grant, t: Option<ProviderToken>, d: Directory, serial: nat)
    ensures var (after, reply) := Login(a, rows, r, g, t, d, serial);
      && (!reply.LoggedIn? ==> after == rows)
      && (reply.LoggedIn? ==>
           && reply.refreshToken in after
           && reply.access.sub == reply.userId && reply.access.serial == serial
           && reply.access.wide == (r.authorization == Wide)
           && (Truthy(g.selector) ==>
                && reply.access.wide == false
                && ResolveApp(d, g.selector.value).Found?
                && reply.access.scopes == [ResolveApp(d, g.selector.value).value.scope]
                && reply.appId == AppIdOf(Some(ResolveApp(d, g.selector.value).value)))
           && (!Truthy(g.selector) ==> reply.access.scopes == [] && reply.appId == None)
           && (reply.refreshToken !in rows ==> Decode(after[reply.refreshToken]).userId == reply.userId))
  {}

  /** The grant and the request agree, and the request is one the server takes. */
  ghost predicate InOrder(a: Audiences, r: CodeRequest, g: Grant) {
    && r.clientId == Some(CLI_CLIENT)
    && (Truthy(r.resource) ==> r.resource.value in a.allowed)
    && (r.authorization != NoAuthorization && Truthy(r.resource) ==> r.resource.value == a.controlPlane)
    && (Truthy(r.scope) ==> g.selector.Some? && ParseSelectedAppRequest(r.scope.value) == g.selector)
    && (r.authorization != NoAuthorization ==> !Truthy(g.selector))
    && (r.authorization == PatManagement <==> g.authorization == PatManagement)
  }

  /**
   Every answer of the device grant: a login exactly when request, grant, approval, email, App and the
   provider's session are in order; a step-up, which stores nothing, exactly for an approved
   management grant; a failure otherwise. Whatever is signed is for the resource asked for.
   */
  lemma LoginAnswers(a: Audiences, rows: Rows, r: CodeRequest, g: Grant, t: Option<ProviderToken>, d: Directory, serial: nat)
    ensures var (after, reply) := Login(a, rows, r, g, t, d, serial);
      var approved := InOrder(a, r, g) && t.Some? && Truthy(t.value.email);
      && (reply.SteppedUp? <==> approved && r.authorization == PatManagement)
      && (reply.LoggedIn? <==>
           && approved && r.authorization != PatManagement
           && (Truthy(g.selector) ==> ResolveApp(d, g.selector.value).Found?)
           && Truthy(t.value.refreshToken) && Truthy(t.value.providerSessionId))
      && (!reply.LoginFailed? ==>
           && reply.userId == t.value.userId && reply.access.sub == t.value.userId && Some(reply.email) == t.value.email
           && reply.access.audience == if r.resource.Some? && r.resource.value != "" then r.resource.value else a.controlPlane)
      && (reply.LoggedIn? ==>
           && t.value.refreshToken == Some(reply.refreshToken)
           && (reply.refreshToken !in rows ==>
                && Decode(after[reply.refreshToken]).providerSessionId == t.value.providerSessionId.value
                && after[reply.refreshToken].selectedAppScope == (if reply.appId.Some? then reply.appId.value else "")
                && (Truthy(t.value.organizationId) ==> Decode(after[reply.refreshToken]).providerOrganizationId == t.value.organizationId)))
      && (reply.SteppedUp? ==> reply.access.scopes == [] && !reply.access.wide)
  {
    CheckIs(a, r, g);
  }

  lemma CheckIs(a: Audiences, r: CodeRequest, g: Grant)
    ensures Check(a, r, g).None? <==> InOrder(a, r, g)
    ensures Check(a, r, g).None? ==> AccessAudience(a, r) == Some(if r.resource.Some? && r.resource.value != "" then r.resource.value else a.controlPlane)
  {}
}
