/**
 What a command comes to: which tokens its call is made with, how it ends and what is left in the
 credential file, told from the file and from what the command meets. The last part joins the file
 to the server: after a refresh whose reply arrives, the file holds the token the server left working.
 */
module CliOutcomes {
  import opened Wrappers
  import opened SessionStore
  import opened DeviceRefresh
  import opened CliCredentials
  import opened CliAuth
  import opened BindingLabels

  // ---------- what a refresh leaves ----------

  /** The file holds what was minted: the new token and its expiry, the next refresh token, and no old marker. */
  predicate HoldsMint(disk: Disk, stored: File, body: Body, nowMs: int) {
    && disk.Some?
    && var c := disk.value.credential;
       && disk.value.userId == stored.userId
       && c.accessToken == body.accessToken
       && c.refreshToken == (if body.refreshToken.Some? then body.refreshToken.value else stored.credential.refreshToken)
       && c.expiresAt == At(nowMs + 1000 * (if body.expiresInSeconds.Some? then body.expiresInSeconds.value else 3600))
       && c.missUntil.None? && !c.legacyMiss
       && (body.email.Some? && body.email.value != "" && body.email.value != "unknown" ==> disk.value.email == body.email)
       && (RealEmail(body.email).None? ==> disk.value.email == RealEmail(stored.email))
  }

  /** Only the refresh token changed, to the one handed back. */
  predicate HoldsHandedBack(disk: Disk, stored: File, token: string) {
    disk == Some(Normalized(stored.(credential := stored.credential.(refreshToken := token))))
  }

  /** What one exchange does with its reply. */
  predicate Concluded(before: Disk, stored: File, wire: Wire, nowMs: int, after: Disk, r: Result) {
    match wire
    case Ok(body) => HoldsMint(after, stored, body, nowMs) && r.Got? && HoldsMint(Some(r.file), stored, body, nowMs)
    case Unreachable => after == before && r == Threw(NetworkFailure)
    case Refused(fault) =>
      match fault.kind
      case UnverifiedEmail =>
        && r == Threw(EmailIsUnverified)
        && (if Truthy(fault.refreshToken) && fault.refreshToken.value != stored.credential.refreshToken
            then HoldsHandedBack(after, stored, fault.refreshToken.value) else after == before)
      case InvalidGrant =>
        after == before && r == Threw(if fault.bindingRefusal then BindingWasRefused else SessionExpired(Some(fault)))
      case OtherFault => after == before && r == Threw(SessionExpired(Some(fault)))
  }

  /** The file another process left is the same user's with another refresh token. */
  predicate RotatedAway(found: Disk, stored: File) {
    found.Some? && found.value.userId == stored.userId && found.value.credential.refreshToken != stored.credential.refreshToken
  }

  /**
   A refresh saves what is minted and what is handed back, and throws for everything else. Only an
   `invalid_grant` is tried again, once, and only with a newer token of the same user in the file.
   */
  lemma RefreshConcludes(disk: Disk, stored: File, binding: Option<Authorization>, w: Weather)
    ensures var (after, r) := RefreshAccessToken(disk, stored, binding, w);
      var found := if w.meanwhile.Some? then w.meanwhile.value else disk;
      if !(w.first.Refused? && w.first.fault.kind == InvalidGrant) then Concluded(disk, stored, w.first, w.nowMs, after, r)
      else if RotatedAway(found, stored) then Concluded(found, Normalized(found.value), w.second, w.nowMs, after, r)
      else after == found && Concluded(found, stored, w.first, w.nowMs, after, r)
  {}

  // ---------- the command ----------

  /** The stored token may be used: its label is the one asked for and more than half a minute of it is left. */
  predicate CacheServes(stored: File, binding: Option<Authorization>, nowMs: int) {
    && (if binding.Some? then StoredBinding(stored) == BindingKey(binding.value) else StoredBinding(stored) != WIDE_LABEL)
    && stored.credential.expiresAt.At? && nowMs + 30_000 < stored.credential.expiresAt.ms
  }

  /** A file with an email is used as it is; without one a command is not even begun unless its backfill lets it. */
  lemma SessionIsReady(disk: Disk, b: BackfillWeather)
    ensures var (ready, session) := EnsurePrincipalEmail(disk, b);
      && (disk.None? ==> ready == disk && session == Threw(NotAuthenticated))
      && (disk.Some? && RealEmail(disk.value.email).Some? ==> ready == disk && session == Got(Normalized(disk.value)))
      && (session.Got? ==> ready.Some?)
  {}

  /** A missing email ends the command only when there is no file, when it is refused for good, or when the file is gone by then. */
  lemma BackfillEnds(disk: Disk, b: BackfillWeather)
    requires disk.Some? && RealEmail(disk.value.email).None?
    ensures var stored := Normalized(disk.value);
      var live := stored.credential.expiresAt.At? && b.startMs + 30_000 < stored.credential.expiresAt.ms;
      var blocked := live && MissUntil(stored.credential) == Some(stored.credential.expiresAt);
      var (ready, session) := EnsurePrincipalEmail(disk, b);
      if blocked then ready == disk && session == Got(stored)
      else
        var (after, r) := RefreshAccessToken(disk, stored, None, b.refresh);
        if r.Got? then session.Got? && session.file.credential.accessToken == r.file.credential.accessToken
        else
          var found := if b.meanwhile.Some? then b.meanwhile.value else after;
          var faultLive := stored.credential.expiresAt.At? && b.faultMs + 30_000 < stored.credential.expiresAt.ms;
          var final := r.error == EmailIsUnverified || !faultLive
                       || (r.error.SessionExpired? && r.error.fault.Some? && r.error.fault.value.kind == InvalidGrant);
          if final then (ready, session) == (after, r)
          else if found.None? || found.value.userId != stored.userId then (ready, session) == (found, r)
          else session.Got? && session.file.credential.accessToken == found.value.credential.accessToken
  {}

  /** The first token is the stored one exactly when it serves and is live, and else the mint of a refresh. */
  lemma FirstToken(ready: Disk, stored: File, binding: Option<Authorization>, c: Conditions)
    ensures var (held, current) := CurrentCredential(ready, stored, binding, c);
      if CacheServes(stored, binding, c.checkMs) then held == ready && current == Got(stored)
      else (held, current) == RefreshAccessToken(ready, stored, binding, c.refresh)
  {}

  /** After a 401 the call is made again with a fresh mint, once, unless there is no file or the refresh throws. */
  ghost predicate Retried(found: Disk, used: seq<AccessToken>, binding: Option<Authorization>, w: Weather, o: Outcome) {
    if found.None? then o == Outcome(found, used, Some(SessionExpired(None)))
    else
      var (after, r) := RefreshAccessToken(found, Normalized(found.value), binding, w);
      && o.disk == after
      && if r.Got? then o.used == used + [r.file.credential.accessToken] && o.error.None? else o.used == used && o.error == Some(r.error)
  }

  /**
   Every way a command ends. A session or a refresh that throws ends it with no call made; a call that is
   not rejected is made once; a rejected one is made again with the mint of a new refresh of the file as
   it then is, and not a third time.
   */
  lemma CommandEnds(disk: Disk, binding: Option<Authorization>, c: Conditions)
    ensures var o := WithAuthorizationRetry(disk, binding, c);
      var (ready, session) := EnsurePrincipalEmail(disk, c.backfill);
      match session
      case Threw(e) => o == Outcome(ready, [], Some(e))
      case Got(stored) =>
        var (held, current) := CurrentCredential(ready, stored, binding, c);
        match current
        case Threw(e) => o == Outcome(held, [], Some(e))
        case Got(f) =>
          var first := f.credential.accessToken;
          if !c.rejected then o == Outcome(held, [first], None)
          else Retried(if c.reload.Some? then c.reload.value else held, [first], binding, c.retry, o)
  {}

  /**
   So a live cached token that meets a 401 is followed by a second try: two tokens, the cached one and
   the one just minted, no error, and the mint in the file.
   */
  lemma RejectedCacheIsMintedAgain(f: File, binding: Option<Authorization>, c: Conditions, body: Body)
    requires RealEmail(f.email).Some? && CacheServes(f, binding, c.checkMs)
    requires c.rejected && c.reload.None? && c.retry.first == Ok(body)
    ensures var o := WithAuthorizationRetry(Some(f), binding, c);
      && o.used == [f.credential.accessToken, body.accessToken] && o.error.None?
      && HoldsMint(o.disk, f, body, c.retry.nowMs)
  {
    SessionIsReady(Some(f), c.backfill);
    FirstToken(Some(f), Normalized(f), binding, c);
    CommandEnds(Some(f), binding, c);
    RefreshConcludes(Some(f), Normalized(f), binding, c.retry);
  }

  /** However the command ends, its call is made at most twice; it is made at all exactly when it did not throw before, and an error after a call means a rejected one. */
  lemma AtMostTwoTries(disk: Disk, binding: Option<Authorization>, c: Conditions)
    ensures var o := WithAuthorizationRetry(disk, binding, c);
      && |o.used| <= 2
      && (o.used == [] ==> o.error.Some?)
      && (|o.used| == 1 ==> (o.error.None? <==> !c.rejected))
      && (|o.used| == 2 ==> c.rejected && o.error.None?)
  {}

  // ---------- login ----------

  /** A login is saved exactly when user, email and refresh token came, and then as they came. */
  lemma LoginSaves(body: Body, userId: Option<string>, nowMs: int)
    ensures var f := LoginFile(body, userId, nowMs);
      && (f.Some? <==> Truthy(userId) && RealEmail(body.email).Some? && Truthy(body.refreshToken))
      && (f.Some? ==>
           && f.value.userId == userId.value && f.value.email == body.email
           && f.value.credential.refreshToken == body.refreshToken.value && f.value.credential.accessToken == body.accessToken
           && f.value.credential.expiresAt == At(nowMs + 1000 * (if body.expiresInSeconds.Some? then body.expiresInSeconds.value else 3600))
           && f.value.credential.selectedAppId == (if Truthy(body.appId) then body.appId else None))
  {}

  // ---------- the file and the server ----------

  /** The reply of the grant as it arrives: a mint, the next token beside `email_unverified`, or another fault. */
  predicate Carries(wire: Wire, reply: Reply) {
    match reply
    case Minted(_, _, _, _, _) => wire == Ok(BodyOf(reply))
    case EmailUnverified(next) => wire.Refused? && wire.fault.kind == UnverifiedEmail && wire.fault.refreshToken == Some(next)
    case Failed(_) => wire.Refused? && wire.fault.kind != UnverifiedEmail
  }

  /** The refresh token in the file after one exchange is the one the client was left with. */
  lemma FileHoldsTheNextToken(disk: Disk, stored: File, binding: Option<Authorization>, w: Weather, reply: Reply)
    requires disk.Some? && disk.value.credential.refreshToken == stored.credential.refreshToken
    requires Carries(w.first, reply) && (reply.EmailUnverified? ==> reply.refreshToken != "") && w.meanwhile.None?
    ensures var after := RefreshAccessToken(disk, stored, binding, w).0;
      after.Some? && after.value.credential.refreshToken == Held(RequestFor(stored, binding), reply)
  {}

  /**
   CLI and server together: a refresh whose reply arrives, while no other process writes, leaves a
   working refresh token in the file exactly when the stored one worked and the request was harmless.
   */
  lemma RefreshedFileWorks(a: Audiences, world: World, disk: Disk, stored: File, binding: Option<Authorization>,
                           x: Surroundings, w: Weather)
    requires disk.Some? && disk.value.credential.refreshToken == stored.credential.refreshToken
    requires Carries(w.first, Exchange(a, world, RequestFor(stored, binding), x).1) && w.meanwhile.None?
    ensures var q := RequestFor(stored, binding);
      var after := RefreshAccessToken(disk, stored, binding, w).0;
      after.Some? && (Usable(Exchange(a, world, q, x).0, after.value.credential.refreshToken)
                      <==> Usable(world, stored.credential.refreshToken) && Harmless(a, world, q, x))
  {
    var q := RequestFor(stored, binding);
    var reply := Exchange(a, world, q, x).1;
    NextTokenIsReal(a, world, q, x);
    FileHoldsTheNextToken(disk, stored, binding, w, reply);
    ClientKeepsAUsableToken(a, world, q, x);
  }

  lemma NextTokenIsReal(a: Audiences, world: World, q: Request, x: Surroundings)
    ensures Exchange(a, world, q, x).1.EmailUnverified? ==> Exchange(a, world, q, x).1.refreshToken != ""
  {}
}
