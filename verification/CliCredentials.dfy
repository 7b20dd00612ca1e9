/**
 The CLI's credential file: what a mint writes into it, the label that says what its access token
 is bound to, and the marker that stops repeated email backfills.
 */
module CliCredentials {
  import opened Wrappers
  import opened Scopes
  import opened DeviceRefresh

  // ---------- selectors and labels ----------

  datatype Authorization = Bind(kind: Kind, selector: string) | WideRead

  const WIDE_LABEL := "membership-wide-read"

  function BindingKey(a: Authorization): string {
    match a
    case WideRead => WIDE_LABEL
    case Bind(kind, selector) => KindName(kind) + ":" + selector
  }

  /** Distinct selectors never share a label, and none has the label of a token bound to nothing. */
  lemma LabelsAreDistinct(a: Authorization, b: Authorization)
    ensures BindingKey(a) == BindingKey(b) <==> a == b
    ensures BindingKey(a) != ""
  {
    match (a, b) {
      case (Bind(k, s), Bind(l, t)) =>
        assert BindingKey(a)[0] == KindName(k)[0] && BindingKey(b)[0] == KindName(l)[0];
        assert BindingKey(a)[4..] == s && BindingKey(b)[4..] == t;
      case (Bind(k, s), WideRead) =>
        assert BindingKey(a)[0] == KindName(k)[0] && BindingKey(b)[0] == 'm';
      case (WideRead, Bind(l, t)) =>
        assert BindingKey(b)[0] == KindName(l)[0] && BindingKey(a)[0] == 'm';
      case (WideRead, WideRead) =>
    }
  }

  // ---------- the file ----------

  /** An expiry as stored: a time, or a text no date parser reads. */
  datatype Expiry = At(ms: int) | Unreadable(text: string)

  datatype Credential = Credential(
    refreshToken: string,
    accessToken: AccessToken,
    expiresAt: Expiry,
    binding: Option<string>,
    selectedAppId: Option<string>,
    missUntil: Option<Expiry>,
    legacyMiss: bool)

  datatype File = File(userId: string, email: Option<string>, credential: Credential)

  const EXPIRY_SKEW_MS := 30_000

  predicate AccessTokenExpired(expiresAt: Expiry, nowMs: int) {
    expiresAt.Unreadable? || nowMs >= expiresAt.ms - EXPIRY_SKEW_MS
  }

  /** An address that is neither empty nor the forbidden placeholder. */
  function RealEmail(email: Option<string>): Option<string> {
    if email == None || email == Some("") || email == Some("unknown") then None else email
  }

  /** Every load and save passes through this. */
  function Normalized(f: File): File {
    f.(email := RealEmail(f.email))
  }

  /** Files from before labels existed hold the login-selected App's token. */
  function StoredBinding(f: File): string {
    match f.credential.binding
    case Some(text) => text
    case None => if Truthy(f.credential.selectedAppId) then "app:" + f.credential.selectedAppId.value else ""
  }

  predicate CachedAuthorizationUsable(binding: Option<Authorization>, cached: string) {
    match binding
    case None => cached != WIDE_LABEL
    case Some(a) => cached == BindingKey(a)
  }

  // ---------- the backfill marker ----------

  function MissUntil(c: Credential): Option<Expiry> {
    if c.missUntil.Some? then c.missUntil else if c.legacyMiss then Some(c.expiresAt) else None
  }

  predicate EmailBackfillBlocked(f: File, nowMs: int) {
    !AccessTokenExpired(f.credential.expiresAt, nowMs) && MissUntil(f.credential) == Some(f.credential.expiresAt)
  }

  predicate NeedsEmailBackfill(f: File, nowMs: int) {
    RealEmail(f.email).None? && !EmailBackfillBlocked(f, nowMs)
  }

  function WithMiss(f: File): File {
    f.(credential := f.credential.(missUntil := Some(f.credential.expiresAt), legacyMiss := false))
  }

  // ---------- minting ----------

  datatype Body = Body(
    accessToken: AccessToken,
    refreshToken: Option<string>,
    expiresInSeconds: Option<int>,
    email: Option<string>,
    appId: Option<string>)

  datatype FaultKind = UnverifiedEmail | InvalidGrant | OtherFault

  datatype Fault = Fault(kind: FaultKind, bindingRefusal: bool, refreshToken: Option<string>)

  /** What comes back over the wire from one token request. */
  datatype Wire = Ok(body: Body) | Refused(fault: Fault) | Unreachable

  function ExpiryOf(body: Body, nowMs: int): Expiry {
    At(nowMs + (if body.expiresInSeconds.Some? then body.expiresInSeconds.value else 3600) * 1000)
  }

  /** The label says what the server bound, not what was asked for. */
  function MintedLabel(body: Body, binding: Option<Authorization>): string {
    if Truthy(body.appId) then "app:" + body.appId.value
    else if binding.Some? then BindingKey(binding.value)
    else ""
  }

  function MintedCredential(stored: File, body: Body, binding: Option<Authorization>, nowMs: int): File {
    File(
      stored.userId,
      if RealEmail(body.email).Some? then RealEmail(body.email) else RealEmail(stored.email),
      Credential(
        if body.refreshToken.Some? then body.refreshToken.value else stored.credential.refreshToken,
        body.accessToken,
        ExpiryOf(body, nowMs),
        Some(MintedLabel(body, binding)),
        if binding.None? && Truthy(body.appId) then body.appId else stored.credential.selectedAppId,
        None,
        false))
  }

  /** The request a mint sends: the selector, when one was named, under its own parameter. */
  function RequestFor(stored: File, binding: Option<Authorization>): Request {
    Request(stored.credential.refreshToken, Some(CLI_CLIENT), None,
            if binding.Some? && binding.value.Bind? && binding.value.kind == App then Some(binding.value.selector) else None,
            if binding.Some? && binding.value.Bind? && binding.value.kind == Org then Some(binding.value.selector) else None,
            binding == Some(WideRead))
  }

  /** What a device login saves; an incomplete reply saves nothing. */
  function LoginFile(body: Body, userId: Option<string>, nowMs: int): Option<File> {
    if !Truthy(userId) || RealEmail(body.email).None? || !Truthy(body.refreshToken) then None
    else Some(File(userId.value, body.email, Credential(
      body.refreshToken.value, body.accessToken, ExpiryOf(body, nowMs),
      Some(if Truthy(body.appId) then "app:" + body.appId.value else ""),
      if Truthy(body.appId) then body.appId else None, None, false)))
  }
}
