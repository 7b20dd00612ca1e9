/**
 A backfill that lets its command go on without an email is not tried again while the access token
 it left in the file is live and stays: over every sequence of commands that nothing else
 interrupts, a new attempt means a token was minted in between or the stored one expired.
 */
module BackfillSticks {
  import opened Wrappers
  import opened DeviceRefresh
  import opened CliCredentials
  import opened CliAuth

  /** One command with what it meets. */
  datatype Command = Command(binding: Option<Authorization>, conditions: Conditions)

  /** No other process writes the file while the command runs. */
  predicate Uninterrupted(c: Conditions) {
    && c.backfill.meanwhile.None? && c.backfill.refresh.meanwhile.None?
    && c.refresh.meanwhile.None? && c.reload.None? && c.retry.meanwhile.None?
  }

  /** No token is minted after the backfill step of the command. */
  predicate MintsNothingAfterBackfill(c: Conditions) {
    && !c.refresh.first.Ok? && !c.refresh.second.Ok?
    && !c.retry.first.Ok? && !c.retry.second.Ok?
  }

  /** No token request of the command is answered with a token. */
  predicate MintsNothing(c: Conditions) {
    !c.backfill.refresh.first.Ok? && !c.backfill.refresh.second.Ok? && MintsNothingAfterBackfill(c)
  }

  /** The command tries a backfill. */
  predicate Attempts(disk: Disk, c: Conditions) {
    Load(disk).Some? && NeedsEmailBackfill(Load(disk).value, c.backfill.startMs)
  }

  predicate Expired(disk: Disk, nowMs: int) {
    disk.Some? && AccessTokenExpired(disk.value.credential.expiresAt, nowMs)
  }

  /** The file has no email and a miss recorded against the token it holds. */
  predicate Marked(disk: Disk) {
    disk.Some? && RealEmail(disk.value.email).None? && MissUntil(disk.value.credential) == Some(disk.value.credential.expiresAt)
  }

  /** A marked file is tried again exactly when its token has expired. */
  lemma MarkedIsTriedOnExpiry(disk: Disk, c: Conditions)
    requires Marked(disk)
    ensures Attempts(disk, c) <==> Expired(disk, c.backfill.startMs)
  {}

  /**
   A backfill that lets the command go on without an email leaves the file marked, unless another
   process had rotated the file by then: exactly then the file is handed on as it was found.
   */
  lemma BackfillMarks(disk: Disk, b: BackfillWeather)
    requires Load(disk).Some? && NeedsEmailBackfill(Load(disk).value, b.startMs)
    requires EnsurePrincipalEmail(disk, b).1.Got? && EnsurePrincipalEmail(disk, b).1.file.email.None?
    ensures var (after, r) := EnsurePrincipalEmail(disk, b);
      var (refreshed, tried) := RefreshAccessToken(disk, Load(disk).value, None, b.refresh);
      var found := Meanwhile(refreshed, b.meanwhile);
      var rotated := tried.Threw? && Load(found).Some?
        && Load(found).value.credential.refreshToken != Load(disk).value.credential.refreshToken;
      && (!rotated ==> Marked(after) && MissUntil(r.file.credential) == Some(r.file.credential.expiresAt))
      && (rotated ==> after == found && r.file == Load(found).value)
  {}

  /** Uninterrupted, no refresh that throws leaves another refresh token, so the marker is always written. */
  lemma UninterruptedBackfillMarks(disk: Disk, b: BackfillWeather)
    requires b.meanwhile.None? && b.refresh.meanwhile.None?
    requires Load(disk).Some? && NeedsEmailBackfill(Load(disk).value, b.startMs)
    requires EnsurePrincipalEmail(disk, b).1.Got? && EnsurePrincipalEmail(disk, b).1.file.email.None?
    ensures Marked(EnsurePrincipalEmail(disk, b).0)
  {
    BackfillMarks(disk, b);
  }

  // ---------- later commands ----------

  /** The same token under the same expiry, still marked. */
  ghost predicate SameToken(a: Disk, b: Disk) {
    && Marked(a) && Marked(b)
    && a.value.credential.accessToken == b.value.credential.accessToken
    && a.value.credential.expiresAt == b.value.credential.expiresAt
  }

  lemma RefreshWithoutMint(disk: Disk, stored: File, binding: Option<Authorization>, w: Weather)
    requires w.meanwhile.None? && !w.first.Ok? && !w.second.Ok?
    requires Marked(disk) && SameToken(disk, Some(stored))
    ensures SameToken(disk, RefreshAccessToken(disk, stored, binding, w).0)
    ensures RefreshAccessToken(disk, stored, binding, w).1.Threw?
  {}

  lemma EnsureWithoutMint(disk: Disk, b: BackfillWeather)
    requires b.meanwhile.None? && b.refresh.meanwhile.None?
    requires !b.refresh.first.Ok? && !b.refresh.second.Ok?
    requires Marked(disk)
    ensures var (after, r) := EnsurePrincipalEmail(disk, b);
      SameToken(disk, after) && (r.Got? ==> SameToken(disk, Some(r.file)))
  {
    var stored := Load(disk).value;
    RefreshWithoutMint(disk, stored, None, b.refresh);
  }

  /** An uninterrupted command that mints nothing leaves a marked file marked, on the same token. */
  lemma CommandWithoutMint(disk: Disk, k: Command)
    requires Marked(disk) && Uninterrupted(k.conditions) && MintsNothing(k.conditions)
    ensures SameToken(disk, WithAuthorizationRetry(disk, k.binding, k.conditions).disk)
  {
    var c := k.conditions;
    EnsureWithoutMint(disk, c.backfill);
    var (ready, session) := EnsurePrincipalEmail(disk, c.backfill);
    if session.Got? {
      var (held, current) := CurrentCredential(ready, session.file, k.binding, c);
      if current.Threw? || held != ready {
        RefreshWithoutMint(ready, session.file, k.binding, c.refresh);
      } else if c.rejected {
        assert Load(held).Some?;
        RefreshWithoutMint(held, Load(held).value, k.binding, c.retry);
      }
    }
  }

  /** The file after a sequence of commands. */
  function After(disk: Disk, commands: seq<Command>): Disk
    decreases |commands|
  {
    if commands == [] then disk
    else After(WithAuthorizationRetry(disk, commands[0].binding, commands[0].conditions).disk, commands[1..])
  }

  lemma {:induction false} MarkStays(disk: Disk, commands: seq<Command>)
    requires Marked(disk)
    requires forall k :: k in commands ==> Uninterrupted(k.conditions) && MintsNothing(k.conditions)
    ensures SameToken(disk, After(disk, commands))
    decreases |commands|
  {
    if commands != [] {
      var next := WithAuthorizationRetry(disk, commands[0].binding, commands[0].conditions).disk;
      assert commands[0] in commands;
      CommandWithoutMint(disk, commands[0]);
      assert forall k :: k in commands[1..] ==> k in commands;
      MarkStays(next, commands[1..]);
    }
  }

  lemma RestWithoutMint(ready: Disk, stored: File, k: Command)
    requires Uninterrupted(k.conditions) && MintsNothingAfterBackfill(k.conditions)
    requires SameToken(ready, Some(stored))
    ensures var c := k.conditions;
      var (held, current) := CurrentCredential(ready, stored, k.binding, c);
      && SameToken(ready, held)
      && (current.Got? ==> SameToken(ready, RetryAfter401(Meanwhile(held, c.reload), [], k.binding, c.retry).disk))
  {
    var c := k.conditions;
    var (held, current) := CurrentCredential(ready, stored, k.binding, c);
    if current.Threw? || held != ready {
      RefreshWithoutMint(ready, stored, k.binding, c.refresh);
    } else {
      RefreshWithoutMint(held, Load(held).value, k.binding, c.retry);
    }
  }

  /**
   Stickiness. A command tries a backfill and goes on without an email; commands follow one after
   another and mint nothing. The next command tries again exactly when the stored token has expired.
   */
  lemma BackfillSticksUntilExpiry(disk: Disk, first: Command, between: seq<Command>, next: Conditions)
    requires Attempts(disk, first.conditions)
    requires Uninterrupted(first.conditions) && MintsNothingAfterBackfill(first.conditions)
    requires var r := EnsurePrincipalEmail(disk, first.conditions.backfill).1; r.Got? && r.file.email.None?
    requires forall k :: k in between ==> Uninterrupted(k.conditions) && MintsNothing(k.conditions)
    ensures var left := EnsurePrincipalEmail(disk, first.conditions.backfill).0;
      var later := After(WithAuthorizationRetry(disk, first.binding, first.conditions).disk, between);
      && SameToken(left, later)
      && (Attempts(later, next) <==> Expired(left, next.backfill.startMs))
  {
    var c := first.conditions;
    UninterruptedBackfillMarks(disk, c.backfill);
    var (ready, session) := EnsurePrincipalEmail(disk, c.backfill);
    assert SameToken(ready, Some(session.file));
    RestWithoutMint(ready, session.file, first);
    var after := WithAuthorizationRetry(disk, first.binding, c).disk;
    UsedIsIrrelevant(ready, session.file, first);
    MarkStays(after, between);
    MarkedIsTriedOnExpiry(After(after, between), next);
  }

  lemma UsedIsIrrelevant(ready: Disk, stored: File, k: Command)
    ensures forall used :: RetryAfter401(ready, used, k.binding, k.conditions.retry).disk
                        == RetryAfter401(ready, [], k.binding, k.conditions.retry).disk
  {}
}
