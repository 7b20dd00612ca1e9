/**
 How a CLI command gets its access token: reuse the stored one or mint another, retry once when a
 concurrent process rotated the refresh token away, backfill a missing email first.

 The class `Cli` runs these on one credential file. What arrives over the wire, and what other
 processes leave in the file between two awaits, is chosen by the caller.
 */
module CliAuth {
  import opened Wrappers
  import opened Scopes
  import opened DeviceRefresh
  import opened CliCredentials

  datatype CliError =
    | NotAuthenticated
    | EmailIsUnverified
    | BindingWasRefused
    | SessionExpired(fault: Option<Fault>)
    | NetworkFailure

  datatype Result = Got(file: File) | Threw(error: CliError)

  type Disk = Option<File>

  /** What one refresh meets: two replies at most, and what others put in the file before the reload. */
  datatype Weather = Weather(first: Wire, meanwhile: Option<Disk>, second: Wire, nowMs: int)

  function Load(disk: Disk): Disk {
    if disk.Some? then Some(Normalized(disk.value)) else None
  }

  function Meanwhile(disk: Disk, others: Option<Disk>): Disk {
    if others.Some? then others.value else disk
  }

  function MintFailure(fault: Fault): CliError {
    if fault.kind == InvalidGrant && fault.bindingRefusal then BindingWasRefused else SessionExpired(Some(fault))
  }

  /** A newer token of the same user, if another process left one. */
  function RotatedBy(disk: Disk, stored: File): Disk {
    var latest := Load(disk);
    if latest.None? || latest.value.credential.refreshToken == stored.credential.refreshToken
       || latest.value.userId != stored.userId
    then None else latest
  }

  /** One exchange with the server, saving what it mints or the token a 403 hands back. */
  function Conclude(disk: Disk, stored: File, binding: Option<Authorization>, wire: Wire, nowMs: int): (Disk, Result) {
    match wire
    case Ok(body) =>
      var next := MintedCredential(stored, body, binding, nowMs);
      (Some(Normalized(next)), Got(next))
    case Unreachable => (disk, Threw(NetworkFailure))
    case Refused(fault) =>
      if fault.kind == UnverifiedEmail then
        (if fault.refreshToken.Some? && fault.refreshToken.value != "" && fault.refreshToken.value != stored.credential.refreshToken
         then Some(Normalized(stored.(credential := stored.credential.(refreshToken := fault.refreshToken.value))))
         else disk,
         Threw(EmailIsUnverified))
      else (disk, Threw(MintFailure(fault)))
  }

  function RefreshAccessToken(disk: Disk, stored: File, binding: Option<Authorization>, w: Weather): (Disk, Result) {
    if w.first.Refused? && w.first.fault.kind == InvalidGrant then
      var now := Meanwhile(disk, w.meanwhile);
      match RotatedBy(now, stored)
      case None => (now, Threw(MintFailure(w.first.fault)))
      case Some(rotated) => Conclude(now, rotated, binding, w.second, w.nowMs)
    else Conclude(disk, stored, binding, w.first, w.nowMs)
  }

  // ---------- email backfill ----------

  /** A refusal that proves the session is gone. */
  predicate SessionRefusal(e: CliError) {
    e.SessionExpired? && e.fault.Some? && e.fault.value.kind == InvalidGrant
  }

  /** Mark the miss on the file as it now is, unless another process has rotated it. */
  function RememberMiss(disk: Disk, attempted: File, e: CliError): (Disk, Result) {
    var current := Load(disk);
    if current.None? || current.value.userId != attempted.userId then (disk, Threw(e))
    else if current.value.credential.refreshToken != attempted.credential.refreshToken then (disk, Got(current.value))
    else (Some(Normalized(WithMiss(current.value))), Got(WithMiss(current.value)))
  }

  /** What the backfill meets: its refresh, others' writes before the miss is marked, and two clock reads. */
  datatype BackfillWeather = BackfillWeather(refresh: Weather, meanwhile: Option<Disk>, startMs: int, faultMs: int)

  function EnsurePrincipalEmail(disk: Disk, b: BackfillWeather): (Disk, Result) {
    match Load(disk)
    case None => (disk, Threw(NotAuthenticated))
    case Some(stored) =>
      if !NeedsEmailBackfill(stored, b.startMs) then (disk, Got(stored))
      else
        var (after, r) := RefreshAccessToken(disk, stored, None, b.refresh);
        match r
        case Got(next) =>
          if next.email.Some? then (after, Got(next))
          else (Some(Normalized(WithMiss(next))), Got(WithMiss(next)))
        case Threw(e) =>
          if e == EmailIsUnverified || AccessTokenExpired(stored.credential.expiresAt, b.faultMs) || SessionRefusal(e)
          then (after, Threw(e))
          else RememberMiss(Meanwhile(after, b.meanwhile), stored, e)
  }

  // ---------- one command ----------

  /** The run of a command: whether each of its two tries meets a 401, and all it meets in between. */
  datatype Conditions = Conditions(
    backfill: BackfillWeather,
    checkMs: int,
    refresh: Weather,
    rejected: bool,
    reload: Option<Disk>,
    retry: Weather)

  /** The tokens the command's call was made with, and how it ended. */
  datatype Outcome = Outcome(disk: Disk, used: seq<AccessToken>, error: Option<CliError>)

  function CurrentCredential(disk: Disk, stored: File, binding: Option<Authorization>, c: Conditions): (Disk, Result) {
    if CachedAuthorizationUsable(binding, StoredBinding(stored)) && !AccessTokenExpired(stored.credential.expiresAt, c.checkMs)
    then (disk, Got(stored))
    else RefreshAccessToken(disk, stored, binding, c.refresh)
  }

  function RetryAfter401(disk: Disk, used: seq<AccessToken>, binding: Option<Authorization>, w: Weather): Outcome {
    match Load(disk)
    case None => Outcome(disk, used, Some(SessionExpired(None)))
    case Some(latest) =>
      var (after, r) := RefreshAccessToken(disk, latest, binding, w);
      match r
      case Threw(e) => Outcome(after, used, Some(e))
      case Got(f) => Outcome(after, used + [f.credential.accessToken], None)
  }

  function WithAuthorizationRetry(disk: Disk, binding: Option<Authorization>, c: Conditions): Outcome {
    var (ready, session) := EnsurePrincipalEmail(disk, c.backfill);
    match session
    case Threw(e) => Outcome(ready, [], Some(e))
    case Got(stored) =>
      var (held, current) := CurrentCredential(ready, stored, binding, c);
      match current
      case Threw(e) => Outcome(held, [], Some(e))
      case Got(f) =>
        var used := [f.credential.accessToken];
        if !c.rejected then Outcome(held, used, None)
        else RetryAfter401(Meanwhile(held, c.reload), used, binding, c.retry)
  }

  // ---------- the commands in place ----------

  class Cli {
    var disk: Disk

    constructor (disk: Disk)
      ensures this.disk == disk
    {
      this.disk := disk;
    }

    method Save(f: File)
      modifies this
      ensures disk == Some(Normalized(f))
    {
      disk := Some(Normalized(f));
    }

    method Fault(stored: File, fault: Fault) returns (r: Result)
      modifies this
      ensures (disk, r) == Conclude(old(disk), stored, None, Refused(fault), 0)
    {
      if fault.kind == UnverifiedEmail {
        if fault.refreshToken.Some? && fault.refreshToken.value != ""
           && fault.refreshToken.value != stored.credential.refreshToken {
          Save(stored.(credential := stored.credential.(refreshToken := fault.refreshToken.value)));
        }
        return Threw(EmailIsUnverified);
      }
      return Threw(MintFailure(fault));
    }

    method RefreshAccessTokenInPlace(stored: File, binding: Option<Authorization>, w: Weather) returns (r: Result)
      modifies this
      ensures (disk, r) == RefreshAccessToken(old(disk), stored, binding, w)
    {
      var wire, from := w.first, stored;
      if wire.Refused? && wire.fault.kind == InvalidGrant {
        disk := Meanwhile(disk, w.meanwhile);
        var rotated := RotatedBy(disk, stored);
        if rotated.None? {
          return Threw(MintFailure(wire.fault));
        }
        wire, from := w.second, rotated.value;
      }
      match wire
      case Unreachable => return Threw(NetworkFailure);
      case Refused(fault) => r := Fault(from, fault);
      case Ok(body) =>
        var next := MintedCredential(from, body, binding, w.nowMs);
        Save(next);
        return Got(next);
    }

    method EnsurePrincipalEmailInPlace(b: BackfillWeather) returns (r: Result)
      modifies this
      ensures (disk, r) == EnsurePrincipalEmail(old(disk), b)
    {
      var stored := Load(disk);
      if stored.None? {
        return Threw(NotAuthenticated);
      }
      if !NeedsEmailBackfill(stored.value, b.startMs) {
        return Got(stored.value);
      }
      r := RefreshAccessTokenInPlace(stored.value, None, b.refresh);
      if r.Got? {
        if r.file.email.None? {
          r := Got(WithMiss(r.file));
          Save(r.file);
        }
        return;
      }
      if r.error == EmailIsUnverified || AccessTokenExpired(stored.value.credential.expiresAt, b.faultMs)
         || SessionRefusal(r.error) {
        return;
      }
      disk := Meanwhile(disk, b.meanwhile);
      var current := Load(disk);
      if current.None? || current.value.userId != stored.value.userId {
        return;
      }
      if current.value.credential.refreshToken != stored.value.credential.refreshToken {
        return Got(current.value);
      }
      r := Got(WithMiss(current.value));
      Save(r.file);
    }

    /** A command: each token in `used` is one the command's call was made with. */
    method WithAuthorizationRetryInPlace(binding: Option<Authorization>, c: Conditions)
      returns (used: seq<AccessToken>, error: Option<CliError>)
      modifies this
      ensures Outcome(disk, used, error) == WithAuthorizationRetry(old(disk), binding, c)
    {
      var session := EnsurePrincipalEmailInPlace(c.backfill);
      if session.Threw? {
        return [], Some(session.error);
      }
      var current := session;
      if !CachedAuthorizationUsable(binding, StoredBinding(session.file))
         || AccessTokenExpired(session.file.credential.expiresAt, c.checkMs) {
        current := RefreshAccessTokenInPlace(session.file, binding, c.refresh);
        if current.Threw? {
          return [], Some(current.error);
        }
      }
      used := [current.file.credential.accessToken];
      if !c.rejected {
        return used, None;
      }
      disk := Meanwhile(disk, c.reload);
      var latest := Load(disk);
      if latest.None? {
        return used, Some(SessionExpired(None));
      }
      var refreshed := RefreshAccessTokenInPlace(latest.value, binding, c.retry);
      if refreshed.Threw? {
        return used, Some(refreshed.error);
      }
      return used + [refreshed.file.credential.accessToken], None;
    }
  }
}
