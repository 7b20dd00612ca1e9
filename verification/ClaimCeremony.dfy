/**
 The claim ceremony as a transition system: any number of `verifyClaim` calls run
 at once, one awaited call per step, beside initiation, consent, retention, other
 owners of the same email, lost replies, faults and crashes.

 `History` never influences a step. It remembers what happened so that safety can
 be stated about whole runs, even after retention has deleted the rows.
 */
module ClaimCeremony {
  import opened Wrappers
  import opened ClaimStore

  const IN_FLIGHT_LEASE_MS := 5 * 60 * 1000
  const COMPLETED_REPLAY_TTL_MS := 24 * 60 * 60 * 1000
  const CEREMONY_TTL_MS := 15 * 60 * 1000
  const MAX_OTP_ATTEMPTS := 5

  datatype Claimant = Claimant(user: UserId, org: OrgId, app: AppId, email: Email)

  datatype Input = Input(
    claimant: Claimant, key: IdempotencyKey, otp: Option<string>,
    verificationId: Option<VerificationId>, resource: Option<Resource>)

  datatype OAuthCode = InvalidRequest | InvalidGrant | ServerError | TooManyRequests | InteractionRequired | Faulted

  datatype Outcome = Minted | Failed(code: OAuthCode)

  /** The awaited call a `verifyClaim` is about to make. */
  datatype Pc =
    | FindExisting | ReadReservation | ReleaseExpired
    | AskProvider | ReadReserved | MarkReconciled | CompleteReconciled | ReadReconciled
    | CheckMembers | ReadVerification | ReadConsent | AdmitConsent | CreateConsent
    | Reserve | ReadWinner | Admit | MarkFromConsent | CountAttempt | MarkStarted
    | Confirm | AskAfterReject | MarkConfirmed | Complete | ReadCompleted
    | ReleaseTerminal | ReleaseAfterFault | ReadReplay | Mint
    | Finished(outcome: Outcome)

  /** One call: its program counter, its arguments and its local variables. */
  datatype Call = Call(
    pc: Pc, input: Input, now: int,
    existing: Option<UserId>,
    verification: VerificationId, resource: Resource, verified: bool,
    consent: Option<ConsentId>,
    reserved: bool, started: bool, rejected: bool,
    seenExpiry: int, pending: OAuthCode)
  {
    function VerifiedUser(): UserId {
      if existing.Some? && existing.value != input.claimant.user then existing.value else input.claimant.user
    }

    predicate Collision() {
      existing.Some? && existing.value != input.claimant.user
    }

    function Key(): ReservationKey {
      ReservationKey(input.key, input.claimant.user, input.claimant.email,
                     input.claimant.org, input.claimant.app, VerifiedUser())
    }

    function TransferBy(id: CallId, c: Option<ConsentId>): Transfer {
      Transfer(Key(), verification, c, id, now, now + COMPLETED_REPLAY_TTL_MS)
    }

    /** The catch block: release unless the provider may have consumed the code. */
    function Fail(code: OAuthCode): Call {
      if reserved && (!started || rejected)
      then this.(pc := ReleaseAfterFault, pending := code)
      else this.(pc := Finished(Failed(code)))
    }

    /** An awaited call threw. Only `confirmEmailVerification` has its own catch, and a throw in the catch block ends the call. */
    function Throw(): Call {
      if pc.Confirm? then this.(pc := AskAfterReject)
      else if pc.ReleaseAfterFault? then this.(pc := Finished(Failed(Faulted)))
      else Fail(Faulted)
    }

    /** `assertSameResource`, then continue with the selected resource. */
    function WithResource(requested: Option<Resource>, selected: Option<Resource>, next: Pc): Call {
      if selected.None? then Fail(InvalidGrant)
      else if requested.Some? && requested.value != selected.value then Fail(InvalidRequest)
      else this.(resource := selected.value, pc := next)
    }
  }

  datatype Initiation = Initiation(user: UserId, email: Email, resource: Option<Resource>)
  datatype Approval = Approval(verification: VerificationId, existingUser: UserId, expiresAt: int)

  /** A reservation row marked started: who asked, which verification that call had counted on, and which one the row names. */
  datatype StartedRow = StartedRow(call: CallId, on: VerificationId, row: VerificationId)

  /** The statement that set `verified_at`: after a confirmation, by reconciling a started row, or from a consent. */
  datatype Mark =
    | Confirmed(caller: CallId)
    | Reconciled(caller: CallId, start: StartedRow)
    | FromConsent(caller: CallId, consent: ConsentId)

  /** A transfer, the call that made it, and that call's own mark: none when it found `verified_at` set. */
  datatype Completion = Completion(
    key: ReservationKey, verification: VerificationId, consent: Option<ConsentId>, at: int,
    caller: CallId, own: Option<Mark>)

  datatype Token = Token(user: UserId, org: OrgId, app: AppId, audience: Resource, key: ReservationKey, at: int, readExpiry: int)

  datatype History = History(
    initiated: map<VerificationId, Initiation>,
    approvals: map<ConsentId, Approval>,
    refused: set<ConsentId>,
    counted: map<VerificationId, set<CallId>>,
    confirmed: map<VerificationId, set<CallId>>,
    vouched: set<(UserId, Email)>,
    starts: map<(ReservationKey, VerificationId), StartedRow>,
    marks: map<VerificationId, Mark>,
    completions: map<OrgId, Completion>,
    tokens: set<Token>)

  /** `owner` is the provider's index of verified emails. */
  datatype World = World(store: Store, owner: map<Email, UserId>, clock: int, calls: map<CallId, Call>, hist: History)

  const START := World(EMPTY_STORE, map[], 0, map[], History(map[], map[], {}, map[], map[], {}, map[], map[], map[], {}))

  function CallsOn(m: map<VerificationId, set<CallId>>, v: VerificationId): set<CallId> {
    if v in m then m[v] else {}
  }

  /** What a step may find outside the tables: a row a query picks, a verdict, a fresh id. */
  datatype Choice = Choice(verification: VerificationId, consent: ConsentId, admitted: bool, accepted: bool)

  predicate IsVerifiedFor(w: World, p: Call) {
    p.input.claimant.email in w.owner && w.owner[p.input.claimant.email] == p.input.claimant.user
  }

  function Vouch(w: World, p: Call): World {
    w.(hist := w.hist.(vouched := w.hist.vouched + {(p.input.claimant.user, p.input.claimant.email)}))
  }

  predicate LiveFor(w: World, p: Call) {
    LiveVerification(w.store, p.verification, p.input.claimant.user, p.input.claimant.email, p.now)
  }

  function RunFindExisting(w: World, p: Call): Call {
    var email := p.input.claimant.email;
    p.(existing := if email in w.owner then Some(w.owner[email]) else None, pc := ReadReservation)
  }

  function RunReadReservation(w: World, p: Call): Call {
    var k := p.Key();
    if k !in w.store.reservations then p.(pc := CheckMembers)
    else
      var r := w.store.reservations[k];
      if r.completedAt.Some? then p.(pc := if r.expiresAt > p.now then ReadReplay else CheckMembers)
      else if r.expiresAt <= p.now then p.(pc := ReleaseExpired)
      else RunReadInFlight(p, r)
  }

  /** A live in-flight reservation: reconcile it once the provider may have confirmed, else refuse. */
  function RunReadInFlight(p: Call, r: Reservation): Call {
    var q := p.(verification := r.verification).WithResource(p.input.resource, r.resource, AskProvider);
    if q.pc.AskProvider? && r.startedAt.None? then p.Fail(InvalidRequest) else q
  }

  function RunAskProvider(w: World, p: Call): (World, Call) {
    if IsVerifiedFor(w, p) then (Vouch(w, p), p.(pc := ReadReserved)) else (w, p.Fail(InvalidRequest))
  }

  function RunReadReserved(w: World, p: Call): Call {
    if !LiveFor(w, p) then p.Fail(InvalidRequest)
    else p.WithResource(Some(p.resource), w.store.verifications[p.verification].resource, MarkReconciled)
  }

  /** How this call marks the verification, or marked it; none when it found it marked. */
  function MarkBy(w: World, id: CallId, p: Call): Option<Mark> {
    if p.pc.MarkReconciled? || p.pc.CompleteReconciled? then
      if (p.Key(), p.verification) in w.hist.starts then Some(Reconciled(id, w.hist.starts[(p.Key(), p.verification)])) else None
    else if p.verified then None
    else if p.consent.Some? then Some(FromConsent(id, p.consent.value))
    else Some(Confirmed(id))
  }

  /** `verified_at` keeps its first value, and `marks` remembers what set it. */
  function WithVerified(w: World, v: VerificationId, now: int, m: Option<Mark>): World
    requires v in w.store.verifications
  {
    w.(store := MarkVerified(w.store, v, now),
       hist := w.hist.(marks := if m.Some? && v !in w.hist.marks then w.hist.marks[v := m.value] else w.hist.marks))
  }

  function RunMark(w: World, id: CallId, p: Call, next: Pc, refusal: OAuthCode): (World, Call) {
    if LiveFor(w, p)
    then (WithVerified(w, p.verification, p.now, MarkBy(w, id, p)), p.(pc := next))
    else (w, p.Fail(refusal))
  }

  /** `completeClaim`, then the read of the row it completed or `otherwise`. */
  function RunComplete(w: World, id: CallId, p: Call, c: Option<ConsentId>, otherwise: Pc): (World, Call) {
    var t := p.TransferBy(id, c);
    var store := CompleteClaim(w.store, t);
    if CanAcquire(w.store, t) then
      (w.(store := store, hist := w.hist.(completions := w.hist.completions[t.key.org :=
         Completion(t.key, t.verification, c, p.now, id, MarkBy(w, id, p))])),
       p.(pc := ReadReplay))
    else (w.(store := store), p.(pc := otherwise))
  }

  function RunCheckMembers(w: World, p: Call): Call {
    if (p.input.claimant.org, p.input.claimant.user) in w.store.orgMembers
       && (p.input.claimant.app, p.input.claimant.user) in w.store.appMembers
    then p.(pc := ReadVerification)
    else p.Fail(InvalidGrant)
  }

  function Accept(w: World, p: Call, v: VerificationId): Call {
    var q := p.(verification := v);
    if !LiveFor(w, q) then q.Fail(InvalidGrant)
    else
      var row := w.store.verifications[v];
      q.(verified := row.verifiedAt.Some?).WithResource(
        p.input.resource, row.resource, if p.Collision() then ReadConsent else Reserve)
  }

  function RunReadVerification(w: World, p: Call, ch: Choice): Call {
    if p.input.verificationId.Some? then Accept(w, p, p.input.verificationId.value)
    else if IsLatestVerification(w.store, ch.verification, p.input.claimant.user, p.input.claimant.email)
    then Accept(w, p, ch.verification)
    else if forall v | v in w.store.verifications ::
              !(w.store.verifications[v].user == p.input.claimant.user && w.store.verifications[v].email == p.input.claimant.email)
    then p.Fail(InvalidGrant)
    else p
  }

  function RunReadConsent(w: World, p: Call, ch: Choice): Call {
    if p.existing.None? then p
    else if IsApprovedConsent(w.store, ch.consent, p.verification, p.existing.value, p.now)
    then p.(consent := Some(ch.consent), pc := Reserve)
    else if forall c | c in w.store.consents ::
              !(LiveConsent(w.store, c, p.verification, p.now) && w.store.consents[c].existingUser == p.existing.value)
    then p.(pc := AdmitConsent)
    else p
  }

  function OfferConsent(w: World, c: ConsentId, v: VerificationId, existing: UserId, now: int): World {
    w.(store := w.store.(consents := w.store.consents[c := Consent(v, existing, now + CEREMONY_TTL_MS, None, None, now)]))
  }

  predicate FreshConsent(w: World, c: ConsentId) {
    c !in w.store.consents && c !in w.hist.approvals && c !in w.hist.refused
  }

  function RunCreateConsent(w: World, p: Call, ch: Choice): (World, Call) {
    if p.existing.None? || !FreshConsent(w, ch.consent) then (w, p)
    else if p.verification !in w.store.verifications then (w, p.Fail(Faulted))
    else (OfferConsent(w, ch.consent, p.verification, p.existing.value, p.now), p.Fail(InteractionRequired))
  }

  function RunReserve(w: World, p: Call): (World, Call) {
    var k := p.Key();
    if k in w.store.reservations then (w, p.(pc := ReadWinner))
    else if p.verification !in w.store.verifications then (w, p.Fail(Faulted))
    else
      var r := Reservation(p.verification, Some(p.resource), None, None, p.now + IN_FLIGHT_LEASE_MS);
      (w.(store := w.store.(reservations := w.store.reservations[k := r])), p.(reserved := true, pc := Admit))
  }

  function RunReadWinner(w: World, p: Call): Call {
    var k := p.Key();
    if k !in w.store.reservations then p.Fail(InvalidRequest)
    else
      var r := w.store.reservations[k];
      var q := p.(seenExpiry := r.expiresAt).WithResource(p.input.resource, r.resource, Mint);
      if q.pc.Mint? && !(r.completedAt.Some? && r.expiresAt > p.now) then p.Fail(InvalidRequest) else q
  }

  function RunAdmit(p: Call, ch: Choice): Call {
    if !ch.admitted then p.Fail(TooManyRequests)
    else if p.verified then p.(pc := Complete)
    else if p.Collision() then p.(pc := MarkFromConsent)
    else if p.input.otp.None? || p.input.otp.value == "" then p.Fail(InvalidGrant)
    else p.(pc := CountAttempt)
  }

  function RunMarkFromConsent(w: World, id: CallId, p: Call): (World, Call) {
    if p.consent.Some?
       && CanMarkFromConsent(w.store, p.verification, p.input.claimant.user, p.input.claimant.email, p.consent.value, p.now)
    then (WithVerified(w, p.verification, p.now, MarkBy(w, id, p)), p.(pc := Complete))
    else (w, p.Fail(ServerError))
  }

  function RunCountAttempt(w: World, id: CallId, p: Call): (World, Call) {
    var v := p.verification;
    if CanCountAttempt(w.store, v, p.input.claimant.user, p.input.claimant.email, p.now, MAX_OTP_ATTEMPTS)
    then (w.(store := ClaimStore.CountAttempt(w.store, v),
             hist := w.hist.(counted := w.hist.counted[v := CallsOn(w.hist.counted, v) + {id}])),
          p.(pc := MarkStarted))
    else (w, p.Fail(InvalidGrant))
  }

  /** The row is found by its key alone, whatever verification it names by now. */
  function WithStarted(w: World, id: CallId, k: ReservationKey, on: VerificationId, now: int): World
    requires k in w.store.reservations
  {
    var row := w.store.reservations[k].verification;
    w.(store := ClaimStore.MarkStarted(w.store, k, now),
       hist := w.hist.(starts := w.hist.starts[(k, row) := StartedRow(id, on, row)]))
  }

  function RunMarkStarted(w: World, id: CallId, p: Call): (World, Call) {
    if CanMarkStarted(w.store, p.Key())
    then (WithStarted(w, id, p.Key(), p.verification, p.now), p.(started := true, pc := Confirm))
    else (w, p.Fail(ServerError))
  }

  /** The provider consumes the one-use code; an accepted code binds an unowned email to the user. */
  function RunConfirm(w: World, id: CallId, p: Call, ch: Choice): (World, Call) {
    var v := p.verification;
    var email := p.input.claimant.email;
    var asked := w.(hist := w.hist.(confirmed := w.hist.confirmed[v := CallsOn(w.hist.confirmed, v) + {id}]));
    if ch.accepted
    then (Vouch(asked.(owner := if email in w.owner then w.owner else w.owner[email := p.input.claimant.user]), p),
          p.(pc := MarkConfirmed))
    else (asked, p.(pc := AskAfterReject))
  }

  function RunAskAfterReject(w: World, p: Call): (World, Call) {
    if IsVerifiedFor(w, p) then (Vouch(w, p), p.(pc := MarkConfirmed))
    else (w, p.(rejected := true).Fail(InvalidGrant))
  }

  function RunRelease(w: World, p: Call, next: Call): (World, Call) {
    (w.(store := Release(w.store, p.Key())), next)
  }

  function RunReadReplay(w: World, p: Call): Call {
    var k := p.Key();
    if !CompletedLive(w.store, k, p.now) then p.Fail(InvalidGrant)
    else
      var r := w.store.reservations[k];
      p.(seenExpiry := r.expiresAt).WithResource(p.input.resource, r.resource, Mint)
  }

  function RunMint(w: World, p: Call): (World, Call) {
    var c := p.input.claimant;
    var token := Token(p.VerifiedUser(), c.org, c.app, p.resource, p.Key(), p.now, p.seenExpiry);
    (w.(hist := w.hist.(tokens := w.hist.tokens + {token})), p.(pc := Finished(Minted)))
  }

  /** The awaited calls that read the tables or ask the rate limiter. */
  predicate Observes(pc: Pc) {
    pc.FindExisting? || pc.ReadReservation? || pc.ReadReserved? || pc.ReadReconciled? || pc.CheckMembers?
    || pc.ReadVerification? || pc.ReadConsent? || pc.AdmitConsent? || pc.ReadWinner? || pc.Admit?
    || pc.ReadCompleted? || pc.ReadReplay?
  }

  function Observe(w: World, p: Call, ch: Choice): Call
    requires Observes(p.pc)
  {
    match p.pc
    case FindExisting => RunFindExisting(w, p)
    case ReadReservation => RunReadReservation(w, p)
    case ReadReserved => RunReadReserved(w, p)
    case ReadReconciled =>
      if CompletedLive(w.store, p.Key(), p.now) then p.(pc := ReadReplay) else p.Fail(InvalidRequest)
    case CheckMembers => RunCheckMembers(w, p)
    case ReadVerification => RunReadVerification(w, p, ch)
    case ReadConsent => RunReadConsent(w, p, ch)
    case AdmitConsent => if ch.admitted then p.(pc := CreateConsent) else p.Fail(TooManyRequests)
    case ReadWinner => RunReadWinner(w, p)
    case Admit => RunAdmit(p, ch)
    case ReadCompleted =>
      if CompletedLive(w.store, p.Key(), p.now) then p.(pc := ReadReplay) else p.(pc := ReleaseTerminal)
    case ReadReplay => RunReadReplay(w, p)
  }

  function Act(w: World, id: CallId, p: Call, ch: Choice): (World, Call)
    requires !Observes(p.pc)
  {
    match p.pc
    case ReleaseExpired => RunRelease(w, p, p.(pc := CheckMembers))
    case AskProvider => RunAskProvider(w, p)
    case MarkReconciled => RunMark(w, id, p, CompleteReconciled, InvalidRequest)
    case CompleteReconciled => RunComplete(w, id, p, None, ReadReconciled)
    case CreateConsent => RunCreateConsent(w, p, ch)
    case Reserve => RunReserve(w, p)
    case MarkFromConsent => RunMarkFromConsent(w, id, p)
    case CountAttempt => RunCountAttempt(w, id, p)
    case MarkStarted => RunMarkStarted(w, id, p)
    case Confirm => RunConfirm(w, id, p, ch)
    case AskAfterReject => RunAskAfterReject(w, p)
    case MarkConfirmed => RunMark(w, id, p, Complete, ServerError)
    case Complete => RunComplete(w, id, p, p.consent, ReadCompleted)
    case ReleaseTerminal => RunRelease(w, p, p.Fail(InvalidGrant))
    case ReleaseAfterFault => RunRelease(w, p, p.(pc := Finished(Failed(p.pending))))
    case Mint => RunMint(w, p)
    case Finished(_) => (w, p)
  }

  /** One awaited call of `verifyClaim`: its effect, and the call just after it. */
  function Exec(w: World, id: CallId, p: Call, ch: Choice): (World, Call) {
    if Observes(p.pc) then (w, Observe(w, p, ch)) else Act(w, id, p, ch)
  }

  function Begin(input: Input, now: int): Call {
    Call(FindExisting, input, now, None, "", "", false, None, false, false, false, 0, Faulted)
  }

  datatype Step =
    | Start(id: CallId, input: Input)
    | Run(id: CallId, choice: Choice)
    | LoseReply(id: CallId, choice: Choice)
    | Throw(id: CallId)
    | Crash(id: CallId)
    | Initiate(v: VerificationId, user: UserId, email: Email, resource: Option<Resource>, now: int)
    | Offer(c: ConsentId, v: VerificationId, existing: UserId, now: int)
    | Approve(c: ConsentId, user: UserId, now: int)
    | Refuse(c: ConsentId, user: UserId, now: int)
    | OwnEmail(email: Email, user: UserId)
    | SetMembers(orgMembers: set<(OrgId, UserId)>, appMembers: set<(AppId, UserId)>)
    | AddOrganization(org: OrgId)
    | DropOrganization(org: OrgId)
    | AddApp(app: AppId, org: OrgId)
    | PurgeReserved(k: ReservationKey)
    | PurgeVerified(v: VerificationId, now: int)
    | Tick(ms: nat)

  function Put(w: World, id: CallId, p: Call): World {
    w.(calls := w.calls[id := p])
  }

  predicate Running(w: World, id: CallId) {
    id in w.calls && !w.calls[id].pc.Finished?
  }

  /** `initiateClaim` stores the verification with its resource and 15-minute expiry. */
  function WithVerification(w: World, v: VerificationId, user: UserId, email: Email, resource: Option<Resource>, now: int): World {
    w.(store := w.store.(verifications := w.store.verifications[v :=
         Verification(user, email, resource, now + CEREMONY_TTL_MS, 0, None, None, now)]),
       hist := w.hist.(initiated := w.hist.initiated[v := Initiation(user, email, resource)]))
  }

  function WithApproval(w: World, c: ConsentId, now: int): World
    requires c in w.store.consents
  {
    var row := w.store.consents[c];
    w.(store := ApproveConsent(w.store, c, now),
       hist := w.hist.(approvals := w.hist.approvals[c := Approval(row.verification, row.existingUser, row.expiresAt)]))
  }

  function WithRefusal(w: World, c: ConsentId, now: int): World
    requires c in w.store.consents
  {
    w.(store := RefuseConsent(w.store, c, now), hist := w.hist.(refused := w.hist.refused + {c}))
  }

  function ApplyEnvironment(w: World, s: Step): World {
    match s
    case Initiate(v, user, email, resource, now) =>
      if v in w.store.verifications || v in w.hist.initiated then w
      else WithVerification(w, v, user, email, resource, now)
    case Offer(c, v, existing, now) =>
      if v in w.store.verifications && FreshConsent(w, c) then OfferConsent(w, c, v, existing, now) else w
    case Approve(c, user, now) =>
      if OpenConsent(w.store, c, user, now) then WithApproval(w, c, now) else w
    case Refuse(c, user, now) =>
      if OpenConsent(w.store, c, user, now) then WithRefusal(w, c, now) else w
    case OwnEmail(email, user) => if email in w.owner then w else w.(owner := w.owner[email := user])
    case SetMembers(orgMembers, appMembers) => w.(store := w.store.(orgMembers := orgMembers, appMembers := appMembers))
    case AddOrganization(org) =>
      if org in w.store.organizations || org in w.hist.completions then w
      else w.(store := w.store.(organizations := w.store.organizations[org := Organization(true, None)]))
    case DropOrganization(org) => w.(store := w.store.(organizations := w.store.organizations - {org}))
    case AddApp(app, org) =>
      if app in w.store.appOrg then w else w.(store := w.store.(appOrg := w.store.appOrg[app := org]))
    case PurgeReserved(k) => w.(store := PurgeReservation(w.store, k))
    case PurgeVerified(v, now) =>
      if CanPurgeVerification(w.store, v, now) then w.(store := PurgeVerification(w.store, v)) else w
    case Tick(ms) => w.(clock := w.clock + ms)
    case _ => w
  }

  /** One step of the whole system. A step that is not enabled changes nothing. */
  function Apply(w: World, s: Step): World {
    match s
    case Start(id, input) => if id in w.calls then w else Put(w, id, Begin(input, w.clock))
    case Run(id, ch) =>
      if !Running(w, id) then w else var (w', p') := Exec(w, id, w.calls[id], ch); Put(w', id, p')
    case LoseReply(id, ch) =>
      if !Running(w, id) then w else var (w', _) := Exec(w, id, w.calls[id], ch); Put(w', id, w.calls[id].Throw())
    case Throw(id) => if Running(w, id) then Put(w, id, w.calls[id].Throw()) else w
    case Crash(id) => if Running(w, id) then Put(w, id, w.calls[id].(pc := Finished(Failed(Faulted)))) else w
    case _ => ApplyEnvironment(w, s)
  }

  /** A run: any finite sequence of steps, in any interleaving. */
  function RunAll(w: World, steps: seq<Step>): World
    decreases |steps|
  {
    if steps == [] then w else RunAll(Apply(w, steps[0]), steps[1..])
  }
}
