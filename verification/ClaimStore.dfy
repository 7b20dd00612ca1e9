/**
 The D1 tables behind the claim ceremony and the statements run against them.

 One function here is one SQL statement (or one atomic batch) of the claim
 repository. Hashes are injective, so rows carry the identifiers themselves.
 Times are epoch milliseconds: the ISO strings the tables store sort the same way.
 */
module ClaimStore {
  import opened Wrappers

  type UserId = string
  type OrgId = string
  type AppId = string
  type Email = string
  type Resource = string
  type VerificationId = string
  type ConsentId = string
  type IdempotencyKey = string
  /** One `verifyClaim` call. It doubles as that call's random acquisition token. */
  type CallId = nat

  datatype Verification = Verification(
    user: UserId, email: Email, resource: Option<Resource>, expiresAt: int,
    attempts: nat, verifiedAt: Option<int>, consumedAt: Option<int>, createdAt: int)

  datatype Consent = Consent(
    verification: VerificationId, existingUser: UserId, expiresAt: int,
    approvedAt: Option<int>, consumedAt: Option<int>, createdAt: int)

  /** The primary key of `claim_idempotency`. */
  datatype ReservationKey = ReservationKey(
    key: IdempotencyKey, user: UserId, email: Email, org: OrgId, app: AppId, verifiedUser: UserId)

  datatype Reservation = Reservation(
    verification: VerificationId, resource: Option<Resource>,
    completedAt: Option<int>, startedAt: Option<int>, expiresAt: int)

  datatype Organization = Organization(provisional: bool, acquisition: Option<CallId>)

  datatype Store = Store(
    verifications: map<VerificationId, Verification>,
    consents: map<ConsentId, Consent>,
    reservations: map<ReservationKey, Reservation>,
    organizations: map<OrgId, Organization>,
    appOrg: map<AppId, OrgId>,
    orgMembers: set<(OrgId, UserId)>,
    appMembers: set<(AppId, UserId)>)

  const EMPTY_STORE := Store(map[], map[], map[], map[], map[], {}, {})

  /** The guard shared by every verification update: the right subject, unconsumed, unexpired. */
  predicate LiveVerification(s: Store, v: VerificationId, user: UserId, email: Email, now: int) {
    && v in s.verifications
    && s.verifications[v].user == user
    && s.verifications[v].email == email
    && s.verifications[v].consumedAt.None?
    && s.verifications[v].expiresAt > now
  }

  /** An approved, unconsumed, unexpired consent on verification `v`. */
  predicate LiveConsent(s: Store, c: ConsentId, v: VerificationId, now: int) {
    && c in s.consents
    && s.consents[c].verification == v
    && s.consents[c].approvedAt.Some?
    && s.consents[c].consumedAt.None?
    && s.consents[c].expiresAt > now
  }

  /** `c` is a row `getApprovedConsent` may return: the newest live consent of `existing`. */
  predicate IsApprovedConsent(s: Store, c: ConsentId, v: VerificationId, existing: UserId, now: int) {
    && LiveConsent(s, c, v, now)
    && s.consents[c].existingUser == existing
    && forall d | d in s.consents ::
         LiveConsent(s, d, v, now) && s.consents[d].existingUser == existing
         ==> s.consents[d].createdAt <= s.consents[c].createdAt
  }

  /** `v` is a row `getLatestVerification` may return for this subject. */
  predicate IsLatestVerification(s: Store, v: VerificationId, user: UserId, email: Email) {
    && v in s.verifications
    && s.verifications[v].user == user
    && s.verifications[v].email == email
    && forall u | u in s.verifications ::
         s.verifications[u].user == user && s.verifications[u].email == email
         ==> s.verifications[u].createdAt <= s.verifications[v].createdAt
  }

  predicate CanCountAttempt(s: Store, v: VerificationId, user: UserId, email: Email, now: int, maxAttempts: nat) {
    LiveVerification(s, v, user, email, now) && s.verifications[v].attempts < maxAttempts
  }

  function CountAttempt(s: Store, v: VerificationId): Store
    requires v in s.verifications
  {
    var row := s.verifications[v];
    s.(verifications := s.verifications[v := row.(attempts := row.attempts + 1)])
  }

  /** `SET verified_at = COALESCE(verified_at, now)`. */
  function MarkVerified(s: Store, v: VerificationId, now: int): Store
    requires v in s.verifications
  {
    var row := s.verifications[v];
    s.(verifications := s.verifications[v := row.(verifiedAt := if row.verifiedAt.Some? then row.verifiedAt else Some(now))])
  }

  predicate CanMarkFromConsent(s: Store, v: VerificationId, user: UserId, email: Email, c: ConsentId, now: int) {
    && LiveVerification(s, v, user, email, now)
    && s.verifications[v].verifiedAt.None?
    && LiveConsent(s, c, v, now)
  }

  /** An unapproved, unconsumed, unexpired consent addressed to `user`: it may be approved or refused. */
  predicate OpenConsent(s: Store, c: ConsentId, user: UserId, now: int) {
    && c in s.consents
    && s.consents[c].existingUser == user
    && s.consents[c].approvedAt.None?
    && s.consents[c].consumedAt.None?
    && s.consents[c].expiresAt > now
  }

  function ApproveConsent(s: Store, c: ConsentId, now: int): Store
    requires c in s.consents
  {
    s.(consents := s.consents[c := s.consents[c].(approvedAt := Some(now))])
  }

  function RefuseConsent(s: Store, c: ConsentId, now: int): Store
    requires c in s.consents
  {
    s.(consents := s.consents[c := s.consents[c].(consumedAt := Some(now))])
  }

  /** `DELETE … WHERE key AND completed_at IS NULL`. */
  function Release(s: Store, k: ReservationKey): Store {
    if k in s.reservations && s.reservations[k].completedAt.None?
    then s.(reservations := s.reservations - {k})
    else s
  }

  predicate CanMarkStarted(s: Store, k: ReservationKey) {
    && k in s.reservations
    && s.reservations[k].completedAt.None?
    && s.reservations[k].startedAt.None?
  }

  function MarkStarted(s: Store, k: ReservationKey, now: int): Store
    requires k in s.reservations
  {
    s.(reservations := s.reservations[k := s.reservations[k].(startedAt := Some(now))])
  }

  /** A completed reservation inside its replay window. */
  predicate CompletedLive(s: Store, k: ReservationKey, now: int) {
    && k in s.reservations
    && s.reservations[k].completedAt.Some?
    && s.reservations[k].expiresAt > now
  }

  /** The arguments of `completeClaim` beyond the reservation key. */
  datatype Transfer = Transfer(
    key: ReservationKey, verification: VerificationId, consent: Option<ConsentId>,
    token: CallId, now: int, replayExpiresAt: int)

  /** The claimant holds the pre-claim Org and App memberships, and the App is the Org's. */
  predicate ClaimantIsMember(s: Store, org: OrgId, app: AppId, user: UserId) {
    && (org, user) in s.orgMembers
    && (app, user) in s.appMembers
    && app in s.appOrg
    && s.appOrg[app] == org
  }

  /** The WHERE clause of the batch's first statement. */
  predicate CanAcquire(s: Store, t: Transfer) {
    && t.key.org in s.organizations
    && s.organizations[t.key.org].provisional
    && s.organizations[t.key.org].acquisition.None?
    && LiveVerification(s, t.verification, t.key.user, t.key.email, t.now)
    && s.verifications[t.verification].verifiedAt.Some?
    && (t.consent.Some? ==> LiveConsent(s, t.consent.value, t.verification, t.now))
    && ClaimantIsMember(s, t.key.org, t.key.app, t.key.user)
  }

  /** The guard every later statement of the batch repeats: this call's token holds the Org. */
  predicate Acquired(s: Store, t: Transfer) {
    && t.key.org in s.organizations
    && !s.organizations[t.key.org].provisional
    && s.organizations[t.key.org].acquisition == Some(t.token)
    && t.verification in s.verifications
    && s.verifications[t.verification].user == t.key.user
    && s.verifications[t.verification].email == t.key.email
    && s.verifications[t.verification].verifiedAt.Some?
    && s.verifications[t.verification].expiresAt > t.now
    && (t.consent.Some? ==>
          && t.consent.value in s.consents
          && s.consents[t.consent.value].verification == t.verification
          && s.consents[t.consent.value].approvedAt.Some?)
  }

  function Acquire(s: Store, t: Transfer): Store {
    s.(organizations := s.organizations[t.key.org := Organization(false, Some(t.token))])
  }

  /** Drop the claimant's row where the recipient already has one, then rename what is left. */
  function MoveOrgMembership(members: set<(OrgId, UserId)>, org: OrgId, from: UserId, to: UserId): set<(OrgId, UserId)> {
    var kept := if (org, to) in members then members - {(org, from)} else members;
    if (org, from) in kept then kept - {(org, from)} + {(org, to)} else kept
  }

  /** The same two statements over every App of the Org. */
  function MoveAppMemberships(members: set<(AppId, UserId)>, apps: map<AppId, OrgId>, org: OrgId, from: UserId, to: UserId): set<(AppId, UserId)> {
    var kept := set m | m in members && !(m.1 == from && m.0 in apps && apps[m.0] == org && (m.0, to) in members);
    set m | m in kept :: if m.1 == from && m.0 in apps && apps[m.0] == org then (m.0, to) else m
  }

  function ConsumeVerification(s: Store, t: Transfer): Store
    requires t.verification in s.verifications
  {
    var row := s.verifications[t.verification];
    if row.consumedAt.None?
    then s.(verifications := s.verifications[t.verification := row.(consumedAt := Some(t.now))])
    else s
  }

  function ConsumeConsent(s: Store, t: Transfer): Store
    requires t.consent.Some? ==> t.consent.value in s.consents
  {
    if t.consent.Some? && s.consents[t.consent.value].consumedAt.None?
    then s.(consents := s.consents[t.consent.value := s.consents[t.consent.value].(consumedAt := Some(t.now))])
    else s
  }

  function CompleteReservation(s: Store, t: Transfer): Store {
    if t.key in s.reservations
       && s.reservations[t.key].verification == t.verification
       && s.reservations[t.key].completedAt.None?
    then s.(reservations := s.reservations[t.key :=
              s.reservations[t.key].(completedAt := Some(t.now), expiresAt := t.replayExpiresAt)])
    else s
  }

  /** The `completeClaim` batch: acquire the Org, then move everything under the acquired guard. */
  function CompleteClaim(s: Store, t: Transfer): Store {
    var s1 := if CanAcquire(s, t) then Acquire(s, t) else s;
    if Acquired(s1, t) then
      var s2 := s1.(orgMembers := MoveOrgMembership(s1.orgMembers, t.key.org, t.key.user, t.key.verifiedUser),
                    appMembers := MoveAppMemberships(s1.appMembers, s1.appOrg, t.key.org, t.key.user, t.key.verifiedUser));
      CompleteReservation(ConsumeConsent(ConsumeVerification(s2, t), t), t)
    else s1
  }

  /** Retention: an expired reservation may go; an expired verification goes once nothing references it. */
  function PurgeReservation(s: Store, k: ReservationKey): Store {
    s.(reservations := s.reservations - {k})
  }

  predicate CanPurgeVerification(s: Store, v: VerificationId, now: int) {
    && v in s.verifications
    && s.verifications[v].expiresAt <= now
    && forall k | k in s.reservations :: s.reservations[k].verification != v
  }

  function PurgeVerification(s: Store, v: VerificationId): Store {
    s.(verifications := s.verifications - {v},
       consents := map c | c in s.consents && s.consents[c].verification != v :: s.consents[c])
  }
}
