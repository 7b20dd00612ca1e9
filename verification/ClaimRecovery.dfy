/**
 Crash recovery: what one `verifyClaim` call does when it runs alone.

 `OnTrack` follows the call from its first read to its answer and foretells that answer. Steps
 that lose a reply, throw or crash leave the track, but never the tables it keeps, so a retry
 after a stop at any awaited call starts on a track of its own.
 */
module ClaimRecovery {
  import opened Wrappers
  import opened ClaimStore
  import opened ClaimCeremony
  import opened ClaimInvariant
  import opened ClaimSteps
  import opened ClaimTransfer

  // ---------- what a call needs of the tables ----------

  /** The provider reports the email verified for the claimant. */
  ghost predicate Owned(w: World, c: Claimant) {
    c.email in w.owner && w.owner[c.email] == c.user
  }

  /** The claim is still open: nobody else's email, live verification, provisional Org, memberships in place. */
  ghost predicate Open(w: World, id: CallId, c: Claimant, v: VerificationId, audience: Resource, now: int) {
    && (c.email in w.owner ==> w.owner[c.email] == c.user)
    && LiveVerification(w.store, v, c.user, c.email, now)
    && w.store.verifications[v].resource == Some(audience)
    && c.org in w.store.organizations
    && w.store.organizations[c.org] == Organization(true, None)
    && ClaimantIsMember(w.store, c.org, c.app, c.user)
    && FreshToken(w.store, id)
  }

  /** The key's in-flight reservation of this verification. */
  ghost predicate Held(w: World, k: ReservationKey, v: VerificationId, audience: Resource) {
    && k in w.store.reservations
    && w.store.reservations[k].verification == v
    && w.store.reservations[k].resource == Some(audience)
    && w.store.reservations[k].completedAt.None?
  }

  /** The key's completed reservation, still replayable. */
  ghost predicate Replayable(w: World, k: ReservationKey, audience: Resource, now: int) {
    CompletedLive(w.store, k, now) && w.store.reservations[k].resource == Some(audience)
  }

  /** The confirmation of the key's reservation was started. */
  ghost predicate Begun(w: World, k: ReservationKey) {
    k in w.store.reservations && w.store.reservations[k].startedAt.Some?
  }

  ghost predicate HasOtp(p: Call) {
    p.input.otp.Some? && p.input.otp.value != ""
  }

  ghost predicate IsVerified(w: World, v: VerificationId) {
    v in w.store.verifications && w.store.verifications[v].verifiedAt.Some?
  }

  ghost predicate AttemptsLeft(w: World, v: VerificationId) {
    v in w.store.verifications && w.store.verifications[v].attempts < MAX_OTP_ATTEMPTS
  }

  /** How a call that runs alone can end: a token, `invalid_request` on a busy key, or `invalid_grant`. */
  datatype Answer = Granted | Busy | Rejected

  /** What the call is about, whether the provider accepts a code, and how the call will end. */
  datatype Plan = Plan(v: VerificationId, audience: Resource, accepts: bool, answer: Answer)

  ghost predicate Accepted(w: World, p: Call, accepts: bool) {
    Owned(w, p.input.claimant) || accepts
  }

  /** A fresh ceremony on `v` ends with a token: `v` is marked, or one more attempt counts and is accepted. */
  ghost predicate CanFinish(w: World, p: Call, v: VerificationId, accepts: bool) {
    IsVerified(w, v) || (HasOtp(p) && AttemptsLeft(w, v) && Accepted(w, p, accepts))
  }

  ghost predicate InLease(w: World, k: ReservationKey, now: int) {
    k in w.store.reservations && w.store.reservations[k].expiresAt > now
  }

  /** The key's reservation, if any, is not completed, and is this verification's while its lease holds. */
  ghost predicate Reservable(w: World, k: ReservationKey, v: VerificationId, audience: Resource, now: int) {
    k in w.store.reservations ==>
      w.store.reservations[k].completedAt.None? && (InLease(w, k, now) ==> Held(w, k, v, audience))
  }

  /** The answer to a call that finds the claim open. */
  ghost function Foretold(w: World, p: Call, v: VerificationId, accepts: bool): Answer {
    if InLease(w, p.Key(), p.now) then if Begun(w, p.Key()) && Owned(w, p.input.claimant) then Granted else Busy
    else if CanFinish(w, p, v, accepts) then Granted else Rejected
  }

  ghost function Finishes(w: World, p: Call, plan: Plan): Answer {
    if CanFinish(w, p, plan.v, plan.accepts) then Granted else Rejected
  }

  ghost predicate OwnRequest(p: Call, audience: Resource) {
    && !p.Collision()
    && (p.input.resource.None? || p.input.resource.value == audience)
    && p.consent.None?
  }

  ghost predicate Chosen(p: Call, plan: Plan) {
    p.verification == plan.v && p.resource == plan.audience
  }

  // ---------- the course of a call that runs alone ----------

  predicate Choosing(pc: Pc) { pc.CheckMembers? || pc.ReadVerification? }

  predicate Asking(pc: Pc) { pc.Confirm? || pc.AskAfterReject? || pc.MarkConfirmed? }

  predicate Answering(pc: Pc) { pc.ReadReplay? || pc.Mint? || pc.Finished? }

  ghost predicate Picks(w: World, p: Call, v: VerificationId) {
    if p.input.verificationId.Some? then p.input.verificationId.value == v
    else IsLatestVerification(w.store, v, p.input.claimant.user, p.input.claimant.email)
  }

  ghost predicate Unreserved(p: Call) {
    !p.reserved && !p.started
  }

  /** Before the outcome is settled: what still holds, and how the call will end. */
  ghost predicate Working(w: World, id: CallId, p: Call, plan: Plan) {
    var k := p.Key();
    && Open(w, id, p.input.claimant, plan.v, plan.audience, p.now)
    && (p.pc.FindExisting? || p.pc.ReadReservation? ==>
          Reservable(w, k, plan.v, plan.audience, p.now) && (InLease(w, k, p.now) || Picks(w, p, plan.v)) && Unreserved(p)
          && plan.answer == Foretold(w, p, plan.v, plan.accepts))
    && (p.pc.ReleaseExpired? ==>
          Reservable(w, k, plan.v, plan.audience, p.now) && !InLease(w, k, p.now) && Picks(w, p, plan.v) && Unreserved(p)
          && plan.answer == Finishes(w, p, plan))
    && (Choosing(p.pc) ==>
          k !in w.store.reservations && Picks(w, p, plan.v) && Unreserved(p) && plan.answer == Finishes(w, p, plan))
    && (Reconciling(p.pc) ==>
          Held(w, k, plan.v, plan.audience) && InLease(w, k, p.now) && Chosen(p, plan) && Unreserved(p)
          && (if p.pc.AskProvider? then plan.answer == (if Owned(w, p.input.claimant) then Granted else Busy)
              else Owned(w, p.input.claimant) && plan.answer == Granted)
          && (p.pc.CompleteReconciled? ==> IsVerified(w, plan.v)))
    && (p.pc.Reserve? ==>
          k !in w.store.reservations && Chosen(p, plan) && !p.started && p.verified == IsVerified(w, plan.v)
          && plan.answer == Finishes(w, p, plan))
    && (p.pc.Admit? ==>
          Held(w, k, plan.v, plan.audience) && !Begun(w, k) && Chosen(p, plan) && p.reserved && !p.started
          && p.verified == IsVerified(w, plan.v) && plan.answer == Finishes(w, p, plan))
    && (p.pc.CountAttempt? ==>
          Held(w, k, plan.v, plan.audience) && !Begun(w, k) && Chosen(p, plan) && p.reserved && !p.started
          && plan.answer == (if AttemptsLeft(w, plan.v) && Accepted(w, p, plan.accepts) then Granted else Rejected))
    && (p.pc.MarkStarted? ==>
          Held(w, k, plan.v, plan.audience) && !Begun(w, k) && Chosen(p, plan) && p.reserved)
    && (Asking(p.pc) ==>
          Held(w, k, plan.v, plan.audience) && Begun(w, k) && Chosen(p, plan) && p.reserved && p.started)
    && (p.pc.MarkStarted? || p.pc.Confirm? ==> plan.answer == if Accepted(w, p, plan.accepts) then Granted else Rejected)
    && (p.pc.AskAfterReject? ==> plan.answer == if Owned(w, p.input.claimant) then Granted else Rejected)
    && (p.pc.MarkConfirmed? ==> Owned(w, p.input.claimant) && plan.answer == Granted)
    && (p.pc.Complete? ==>
          Held(w, k, plan.v, plan.audience) && Chosen(p, plan) && IsVerified(w, plan.v) && plan.answer == Granted)
  }

  /** The transfer is done: the answer is a token. */
  ghost predicate Settling(w: World, p: Call, audience: Resource) {
    && (p.input.claimant.email in w.owner ==> w.owner[p.input.claimant.email] == p.input.claimant.user)
    && Replayable(w, p.Key(), audience, p.now)
    && (p.pc.Mint? ==> p.resource == audience)
    && (p.pc.Finished? ==> p.pc == Finished(Minted) && Answered(w, p, audience))
  }

  /** A token for this call's claim, verified user, key and audience was minted. */
  ghost predicate Answered(w: World, p: Call, audience: Resource) {
    exists t :: t in w.hist.tokens && TokenFor(t, p, audience)
  }

  ghost predicate TokenFor(t: Token, p: Call, audience: Resource) {
    && t.user == p.VerifiedUser() && t.org == p.input.claimant.org && t.app == p.input.claimant.app
    && t.audience == audience && t.key == p.Key()
  }

  /** Refused for good: the key is being released, or free again. */
  ghost predicate Rejecting(w: World, p: Call, plan: Plan) {
    || (p.pc.ReleaseAfterFault? && p.pending == InvalidGrant && Held(w, p.Key(), plan.v, plan.audience))
    || (p.pc == Finished(Failed(InvalidGrant)) && p.Key() !in w.store.reservations)
  }

  /** Refused for now: the key's reservation is as it was. */
  ghost predicate Waiting(w: World, p: Call, plan: Plan) {
    p.pc == Finished(Failed(InvalidRequest)) && Held(w, p.Key(), plan.v, plan.audience) && InLease(w, p.Key(), p.now)
  }

  predicate Follows(pc: Pc) {
    pc.FindExisting? || pc.ReadReservation? || pc.ReleaseExpired? || Choosing(pc) || Reconciling(pc) || pc.Reserve?
    || pc.Admit? || pc.CountAttempt? || pc.MarkStarted? || Asking(pc) || pc.Complete?
  }

  ghost predicate OnTrack(w: World, id: CallId, p: Call, plan: Plan) {
    && OwnRequest(p, plan.audience)
    && if Follows(p.pc) then Working(w, id, p, plan)
       else match plan.answer
         case Granted => Answering(p.pc) && Settling(w, p, plan.audience)
         case Busy => Open(w, id, p.input.claimant, plan.v, plan.audience, p.now) && Waiting(w, p, plan)
         case Rejected => Open(w, id, p.input.claimant, plan.v, plan.audience, p.now) && Rejecting(w, p, plan)
  }

  /** An upper bound on the awaited calls left. */
  function Left(pc: Pc): nat {
    match pc
    case FindExisting => 16
    case ReadReservation => 15
    case ReleaseExpired => 14
    case CheckMembers => 13
    case ReadVerification => 12
    case Reserve => 11
    case Admit => 10
    case CountAttempt => 9
    case MarkStarted => 8
    case Confirm => 7
    case AskProvider => 7
    case AskAfterReject => 6
    case ReadReserved => 6
    case MarkConfirmed => 5
    case MarkReconciled => 5
    case Complete => 4
    case CompleteReconciled => 4
    case ReadReplay => 3
    case Mint => 2
    case ReleaseAfterFault => 2
    case Finished(_) => 0
    case _ => 20
  }

  /** The rate limiter admits, and a latest-verification read returns `v`; the provider's verdict is free. */
  predicate Fair(ch: Choice, v: VerificationId) {
    ch.admitted && ch.verification == v
  }

  ghost predicate Advances(w: World, id: CallId, p: Call, plan: Plan, next: (World, Call)) {
    OnTrack(next.0, id, next.1, plan) && Left(next.1.pc) < Left(p.pc)
    && next.1.input == p.input && next.1.now == p.now
  }

  // ---------- one awaited call at a time ----------

  lemma FindAdvances(w: World, id: CallId, p: Call, plan: Plan)
    requires OnTrack(w, id, p, plan) && p.pc.FindExisting?
    ensures Advances(w, id, p, plan, (w, RunFindExisting(w, p)))
  {
    assert RunFindExisting(w, p).Key() == p.Key();
  }

  lemma ReadAdvances(w: World, id: CallId, p: Call, plan: Plan)
    requires OnTrack(w, id, p, plan) && p.pc.ReadReservation?
    ensures Advances(w, id, p, plan, (w, RunReadReservation(w, p)))
  {
    if InLease(w, p.Key(), p.now) {
      InFlightAdvances(w, id, p, plan);
    } else {
      var next := if p.Key() in w.store.reservations then ReleaseExpired else CheckMembers;
      assert RunReadReservation(w, p) == p.(pc := next);
      assert p.(pc := next).Key() == p.Key();
    }
  }

  /** A started row is reconciled; any other keeps the key busy. */
  lemma InFlightAdvances(w: World, id: CallId, p: Call, plan: Plan)
    requires OnTrack(w, id, p, plan) && p.pc.ReadReservation? && InLease(w, p.Key(), p.now)
    ensures Advances(w, id, p, plan, (w, RunReadReservation(w, p)))
  {
    if Begun(w, p.Key()) {
      var q := p.(verification := plan.v, resource := plan.audience, pc := AskProvider);
      assert RunReadReservation(w, p) == q;
      assert q.Key() == p.Key();
    } else {
      var q := p.(pc := Finished(Failed(InvalidRequest)));
      assert RunReadReservation(w, p) == q;
      assert q.Key() == p.Key();
    }
  }

  lemma ReleaseAdvances(w: World, id: CallId, p: Call, plan: Plan)
    requires OnTrack(w, id, p, plan) && p.pc.ReleaseExpired?
    ensures Advances(w, id, p, plan, RunRelease(w, p, p.(pc := CheckMembers)))
  {
    var (w', q) := RunRelease(w, p, p.(pc := CheckMembers));
    assert q.Key() == p.Key();
  }

  lemma MembersAdvance(w: World, id: CallId, p: Call, plan: Plan)
    requires OnTrack(w, id, p, plan) && p.pc.CheckMembers?
    ensures Advances(w, id, p, plan, (w, RunCheckMembers(w, p)))
  {
    assert RunCheckMembers(w, p) == p.(pc := ReadVerification);
    assert RunCheckMembers(w, p).Key() == p.Key();
  }

  lemma ChooseAdvances(w: World, id: CallId, p: Call, plan: Plan, ch: Choice)
    requires OnTrack(w, id, p, plan) && p.pc.ReadVerification? && Fair(ch, plan.v)
    ensures Advances(w, id, p, plan, (w, RunReadVerification(w, p, ch)))
  {
    var q := RunReadVerification(w, p, ch);
    assert q == p.(verification := plan.v, verified := IsVerified(w, plan.v), resource := plan.audience, pc := Reserve);
    assert q.Key() == p.Key();
  }

  lemma ReserveAdvances(w: World, id: CallId, p: Call, plan: Plan)
    requires OnTrack(w, id, p, plan) && p.pc.Reserve?
    ensures Advances(w, id, p, plan, RunReserve(w, p))
  {
    var (w', q) := RunReserve(w, p);
    assert q.Key() == p.Key();
  }

  lemma AdmitAdvances(w: World, id: CallId, p: Call, plan: Plan, ch: Choice)
    requires OnTrack(w, id, p, plan) && p.pc.Admit? && Fair(ch, plan.v)
    ensures Advances(w, id, p, plan, (w, RunAdmit(p, ch)))
  {
    var q := RunAdmit(p, ch);
    assert q.Key() == p.Key();
  }

  lemma CountAdvances(w: World, id: CallId, p: Call, plan: Plan)
    requires OnTrack(w, id, p, plan) && p.pc.CountAttempt?
    ensures Advances(w, id, p, plan, RunCountAttempt(w, id, p))
  {
    if AttemptsLeft(w, plan.v) {
      CountedAdvances(w, id, p, plan, RunCountAttempt(w, id, p));
    } else {
      RejectedTracks(w, id, p, plan);
    }
  }

  lemma CountedAdvances(w: World, id: CallId, p: Call, plan: Plan, next: (World, Call))
    requires OnTrack(w, id, p, plan) && p.pc.CountAttempt? && AttemptsLeft(w, plan.v)
    requires next == RunCountAttempt(w, id, p)
    ensures Advances(w, id, p, plan, next)
  {
    assert next.1 == p.(pc := MarkStarted);
    assert next.1.Key() == p.Key();
    assert next.0.store.reservations == w.store.reservations && next.0.owner == w.owner;
  }

  /** `invalid_grant` with the key reserved and the provider not asked, or refusing. */
  lemma RejectedTracks(w: World, id: CallId, p: Call, plan: Plan)
    requires OwnRequest(p, plan.audience) && Open(w, id, p.input.claimant, plan.v, plan.audience, p.now)
    requires Held(w, p.Key(), plan.v, plan.audience) && p.reserved && (!p.started || p.rejected) && plan.answer == Rejected
    ensures OnTrack(w, id, p.Fail(InvalidGrant), plan)
  {
    assert p.Fail(InvalidGrant).Key() == p.Key();
  }

  lemma StartAdvances(w: World, id: CallId, p: Call, plan: Plan)
    requires OnTrack(w, id, p, plan) && p.pc.MarkStarted?
    ensures Advances(w, id, p, plan, RunMarkStarted(w, id, p))
  {
    var (w', q) := RunMarkStarted(w, id, p);
    assert q.Key() == p.Key();
  }

  /** The claimant's email kept its owner or went to the claimant. */
  ghost predicate OwnerSettles(w: World, w': World, c: Claimant) {
    if c.email in w.owner then c.email in w'.owner && w'.owner[c.email] == w.owner[c.email]
    else c.email in w'.owner ==> w'.owner[c.email] == c.user
  }

  /** Once the provider has been asked, only its verdict counts. */
  lemma AskedAdvances(w: World, w': World, id: CallId, p: Call, q: Call, plan: Plan, answer: Answer)
    requires OnTrack(w, id, p, plan) && p.pc.Confirm?
    requires w'.store == w.store && OwnerSettles(w, w', p.input.claimant)
    requires q == p.(pc := q.pc)
    requires if Owned(w', p.input.claimant) then q.pc.AskAfterReject? || q.pc.MarkConfirmed? else q.pc.AskAfterReject?
    requires answer == if Owned(w', p.input.claimant) then Granted else Rejected
    ensures OnTrack(w', id, q, plan.(answer := answer))
  {
    assert q.Key() == p.Key();
  }

  lemma ConfirmAdvances(w: World, id: CallId, p: Call, plan: Plan, ch: Choice)
    requires OnTrack(w, id, p, plan) && p.pc.Confirm? && (Owned(w, p.input.claimant) || ch.accepted == plan.accepts)
    ensures Advances(w, id, p, plan, RunConfirm(w, id, p, ch))
  {
    var (w', q) := RunConfirm(w, id, p, ch);
    assert w'.store == w.store && OwnerSettles(w, w', p.input.claimant);
    assert Owned(w', p.input.claimant) <==> Owned(w, p.input.claimant) || ch.accepted;
    AskedAdvances(w, w', id, p, q, plan, plan.answer);
  }

  lemma AskAdvances(w: World, id: CallId, p: Call, plan: Plan)
    requires OnTrack(w, id, p, plan) && p.pc.AskAfterReject?
    ensures Advances(w, id, p, plan, RunAskAfterReject(w, p))
  {
    if Owned(w, p.input.claimant) {
      assert p.(pc := MarkConfirmed).Key() == p.Key();
      assert OnTrack(Vouch(w, p), id, p.(pc := MarkConfirmed), plan);
    } else {
      RejectedTracks(w, id, p.(rejected := true), plan);
    }
  }

  lemma ReconcileAdvances(w: World, id: CallId, p: Call, plan: Plan)
    requires OnTrack(w, id, p, plan) && p.pc.AskProvider?
    ensures Advances(w, id, p, plan, RunAskProvider(w, p))
  {
    if Owned(w, p.input.claimant) {
      ToldTracks(w, Vouch(w, p), id, p, plan);
    } else {
      assert p.(pc := Finished(Failed(InvalidRequest))).Key() == p.Key();
    }
  }

  lemma ToldTracks(w: World, w': World, id: CallId, p: Call, plan: Plan)
    requires OnTrack(w, id, p, plan) && p.pc.AskProvider? && Owned(w, p.input.claimant)
    requires w'.store == w.store && w'.owner == w.owner
    ensures OnTrack(w', id, p.(pc := ReadReserved), plan)
  {
    assert p.(pc := ReadReserved).Key() == p.Key();
  }

  lemma ReadReservedAdvances(w: World, id: CallId, p: Call, plan: Plan)
    requires OnTrack(w, id, p, plan) && p.pc.ReadReserved?
    ensures Advances(w, id, p, plan, (w, RunReadReserved(w, p)))
  {
    var q := RunReadReserved(w, p);
    assert q == p.(resource := plan.audience, pc := MarkReconciled);
    assert q.Key() == p.Key();
  }

  lemma MarkAdvances(w: World, id: CallId, p: Call, plan: Plan)
    requires OnTrack(w, id, p, plan) && (p.pc.MarkConfirmed? || p.pc.MarkReconciled?)
    ensures Advances(w, id, p, plan,
      if p.pc.MarkConfirmed? then RunMark(w, id, p, Complete, ServerError) else RunMark(w, id, p, CompleteReconciled, InvalidRequest))
  {
    var q := p.(pc := if p.pc.MarkConfirmed? then Complete else CompleteReconciled);
    assert LiveFor(w, p);
    assert q.Key() == p.Key();
    assert OnTrack(WithVerified(w, p.verification, p.now, MarkBy(w, id, p)), id, q, plan);
  }

  lemma CompleteAdvances(w: World, id: CallId, p: Call, plan: Plan, otherwise: Pc)
    requires OnTrack(w, id, p, plan) && (p.pc.Complete? || p.pc.CompleteReconciled?)
    ensures Advances(w, id, p, plan, RunComplete(w, id, p, None, otherwise))
  {
    var t := p.TransferBy(id, None);
    assert CanAcquire(w.store, t);
    CompleteClaimShape(w.store, t);
    var (w', q) := RunComplete(w, id, p, None, otherwise);
    assert q.Key() == p.Key();
    assert w'.store.reservations[p.Key()] ==
      w.store.reservations[p.Key()].(completedAt := Some(p.now), expiresAt := p.now + COMPLETED_REPLAY_TTL_MS);
    assert w'.owner == w.owner && Replayable(w', q.Key(), plan.audience, q.now);
    SettledTracks(w', id, q, plan);
  }

  lemma ReplayAdvances(w: World, id: CallId, p: Call, plan: Plan)
    requires OnTrack(w, id, p, plan) && p.pc.ReadReplay?
    ensures Advances(w, id, p, plan, (w, RunReadReplay(w, p)))
  {
    AnswerSettles(w, id, p, plan);
    var q := p.(seenExpiry := w.store.reservations[p.Key()].expiresAt, resource := plan.audience, pc := Mint);
    assert RunReadReplay(w, p) == q && q.Key() == p.Key();
    SettledTracks(w, id, q, plan);
  }

  lemma AnswerSettles(w: World, id: CallId, p: Call, plan: Plan)
    requires OnTrack(w, id, p, plan) && (p.pc.ReadReplay? || p.pc.Mint?)
    ensures OwnRequest(p, plan.audience) && plan.answer == Granted && Settling(w, p, plan.audience)
  {}

  lemma SettledTracks(w: World, id: CallId, p: Call, plan: Plan)
    requires OwnRequest(p, plan.audience) && plan.answer == Granted && Answering(p.pc) && Settling(w, p, plan.audience)
    ensures OnTrack(w, id, p, plan)
  {}

  lemma MintAdvances(w: World, id: CallId, p: Call, plan: Plan)
    requires OnTrack(w, id, p, plan) && p.pc.Mint?
    ensures Advances(w, id, p, plan, RunMint(w, p))
  {
    AnswerSettles(w, id, p, plan);
    MintAnswers(w, p, plan.audience);
    assert RunMint(w, p).1.Key() == p.Key();
    SettledTracks(RunMint(w, p).0, id, RunMint(w, p).1, plan);
  }

  lemma MintAnswers(w: World, p: Call, audience: Resource)
    requires p.resource == audience
    ensures Answered(RunMint(w, p).0, RunMint(w, p).1, audience)
  {
    var (w', q) := RunMint(w, p);
    var c := p.input.claimant;
    var token := Token(p.VerifiedUser(), c.org, c.app, p.resource, p.Key(), p.now, p.seenExpiry);
    assert q.Key() == p.Key();
    assert token in w'.hist.tokens && TokenFor(token, q, audience);
  }

  lemma RefusalAdvances(w: World, id: CallId, p: Call, plan: Plan)
    requires OnTrack(w, id, p, plan) && p.pc.ReleaseAfterFault?
    ensures Advances(w, id, p, plan, RunRelease(w, p, p.(pc := Finished(Failed(p.pending)))))
  {
    var w' := w.(store := Release(w.store, p.Key()));
    var q := p.(pc := Finished(Failed(InvalidGrant)));
    RefusalHolds(w, id, p, plan);
    assert q.Key() == p.Key();
    FreedTracks(w', id, q, plan);
  }

  lemma RefusalHolds(w: World, id: CallId, p: Call, plan: Plan)
    requires OnTrack(w, id, p, plan) && p.pc.ReleaseAfterFault?
    ensures plan.answer == Rejected && p.pending == InvalidGrant && Held(w, p.Key(), plan.v, plan.audience)
    ensures Open(w, id, p.input.claimant, plan.v, plan.audience, p.now) && OwnRequest(p, plan.audience)
  {}

  lemma FreedTracks(w: World, id: CallId, p: Call, plan: Plan)
    requires OwnRequest(p, plan.audience) && Open(w, id, p.input.claimant, plan.v, plan.audience, p.now)
    requires p.pc == Finished(Failed(InvalidGrant)) && p.Key() !in w.store.reservations && plan.answer == Rejected
    ensures OnTrack(w, id, p, plan)
  {}

  lemma ObserveAdvances(w: World, id: CallId, p: Call, plan: Plan, ch: Choice)
    requires OnTrack(w, id, p, plan) && Fair(ch, plan.v) && Observes(p.pc)
    ensures Advances(w, id, p, plan, (w, Observe(w, p, ch)))
  {
    match p.pc
    case FindExisting => FindAdvances(w, id, p, plan);
    case ReadReservation => ReadAdvances(w, id, p, plan);
    case CheckMembers => MembersAdvance(w, id, p, plan);
    case ReadVerification => ChooseAdvances(w, id, p, plan, ch);
    case Admit => AdmitAdvances(w, id, p, plan, ch);
    case ReadReserved => ReadReservedAdvances(w, id, p, plan);
    case ReadReplay => ReplayAdvances(w, id, p, plan);
  }

  lemma WriteAdvances(w: World, id: CallId, p: Call, plan: Plan, ch: Choice)
    requires OnTrack(w, id, p, plan)
    requires p.pc.ReleaseExpired? || p.pc.Reserve? || p.pc.CountAttempt? || p.pc.MarkStarted? || p.pc.ReleaseAfterFault?
    ensures Advances(w, id, p, plan, Act(w, id, p, ch))
  {
    match p.pc
    case ReleaseExpired => ReleaseAdvances(w, id, p, plan);
    case Reserve => ReserveAdvances(w, id, p, plan);
    case CountAttempt => CountAdvances(w, id, p, plan);
    case MarkStarted => StartAdvances(w, id, p, plan);
    case ReleaseAfterFault => RefusalAdvances(w, id, p, plan);
  }

  lemma FinishAdvances(w: World, id: CallId, p: Call, plan: Plan, ch: Choice)
    requires OnTrack(w, id, p, plan)
    requires p.pc.Confirm? ==> Owned(w, p.input.claimant) || ch.accepted == plan.accepts
    requires Asking(p.pc) || p.pc.AskProvider? || p.pc.MarkReconciled? || p.pc.CompleteReconciled? || p.pc.Complete? || p.pc.Mint?
    ensures Advances(w, id, p, plan, Act(w, id, p, ch))
  {
    match p.pc
    case Confirm => ConfirmAdvances(w, id, p, plan, ch);
    case AskAfterReject => AskAdvances(w, id, p, plan);
    case AskProvider => ReconcileAdvances(w, id, p, plan);
    case MarkConfirmed => MarkAdvances(w, id, p, plan);
    case MarkReconciled => MarkAdvances(w, id, p, plan);
    case Complete => CompleteAdvances(w, id, p, plan, ReadCompleted);
    case CompleteReconciled => CompleteAdvances(w, id, p, plan, ReadReconciled);
    case Mint => MintAdvances(w, id, p, plan);
  }

  lemma StepAdvances(w: World, id: CallId, p: Call, plan: Plan, ch: Choice)
    requires OnTrack(w, id, p, plan) && Fair(ch, plan.v) && !p.pc.Finished?
    requires p.pc.Confirm? ==> Owned(w, p.input.claimant) || ch.accepted == plan.accepts
    ensures Advances(w, id, p, plan, Exec(w, id, p, ch))
  {
    if Observes(p.pc) {
      ObserveAdvances(w, id, p, plan, ch);
    } else if p.pc.ReleaseExpired? || p.pc.Reserve? || p.pc.CountAttempt? || p.pc.MarkStarted? || p.pc.ReleaseAfterFault? {
      WriteAdvances(w, id, p, plan, ch);
    } else {
      FinishAdvances(w, id, p, plan, ch);
    }
  }

  // ---------- running alone to the answer ----------

  /** Call `id` takes one step per choice, and nothing else happens. */
  function Alone(w: World, id: CallId, choices: seq<Choice>): World
    decreases |choices|
  {
    if choices == [] then w else Alone(Apply(w, Run(id, choices[0])), id, choices[1..])
  }

  ghost predicate TrackedBy(w: World, id: CallId, plan: Plan) {
    id in w.calls && OnTrack(w, id, w.calls[id], plan)
  }

  lemma PutTracks(w: World, id: CallId, p: Call, plan: Plan)
    requires OnTrack(w, id, p, plan)
    ensures TrackedBy(Put(w, id, p), id, plan) && Put(w, id, p).calls[id] == p
  {
    SameTablesTrack(w, Put(w, id, p), id, p, plan);
  }

  lemma SameTablesTrack(w: World, w': World, id: CallId, p: Call, plan: Plan)
    requires OnTrack(w, id, p, plan) && w'.store == w.store && w'.owner == w.owner && w'.hist == w.hist
    ensures OnTrack(w', id, p, plan)
  {
    if Follows(p.pc) {
      SameTablesWork(w, w', id, p, plan);
    }
  }

  lemma SameTablesWork(w: World, w': World, id: CallId, p: Call, plan: Plan)
    requires Working(w, id, p, plan) && w'.store == w.store && w'.owner == w.owner
    ensures Working(w', id, p, plan)
  {}

  lemma ExecKeepsOwner(w: World, id: CallId, p: Call, ch: Choice, c: Claimant)
    requires Owned(w, c)
    ensures Owned(Exec(w, id, p, ch).0, c)
  {
    if !Observes(p.pc) {
      assert forall e | e in w.owner :: e in Act(w, id, p, ch).0.owner && Act(w, id, p, ch).0.owner[e] == w.owner[e];
    }
  }

  /** What the provider says to a code, unless it has the claimant's email verified already. */
  ghost predicate Verdict(w: World, c: Claimant, choices: seq<Choice>, accepts: bool) {
    Owned(w, c) || forall i | 0 <= i < |choices| :: choices[i].accepted == accepts
  }

  lemma RunTracks(w: World, id: CallId, ch: Choice, plan: Plan)
    requires TrackedBy(w, id, plan) && Running(w, id) && Fair(ch, plan.v)
    requires Owned(w, w.calls[id].input.claimant) || ch.accepted == plan.accepts
    ensures var w1 := Apply(w, Run(id, ch));
      && TrackedBy(w1, id, plan) && Left(w1.calls[id].pc) < Left(w.calls[id].pc)
      && w1.calls[id].input == w.calls[id].input && w1.calls[id].now == w.calls[id].now
      && w1.calls[id] == Exec(w, id, w.calls[id], ch).1 && w1 == Put(Exec(w, id, w.calls[id], ch).0, id, w1.calls[id])
  {
    StepAdvances(w, id, w.calls[id], plan, ch);
    PutTracks(Exec(w, id, w.calls[id], ch).0, id, Exec(w, id, w.calls[id], ch).1, plan);
  }

  lemma VerdictStays(w: World, id: CallId, p: Call, choices: seq<Choice>, q: Call, accepts: bool)
    requires choices != [] && Verdict(w, p.input.claimant, choices, accepts) && q.input == p.input
    ensures Verdict(Put(Exec(w, id, p, choices[0]).0, id, q), q.input.claimant, choices[1..], accepts)
  {
    if Owned(w, p.input.claimant) {
      ExecKeepsOwner(w, id, p, choices[0], p.input.claimant);
    }
  }

  /** Any number of steps keeps the call on track and its arguments fixed. */
  lemma {:induction false} AloneTracks(w: World, id: CallId, choices: seq<Choice>, plan: Plan)
    requires TrackedBy(w, id, plan)
    requires forall i | 0 <= i < |choices| :: Fair(choices[i], plan.v)
    requires Verdict(w, w.calls[id].input.claimant, choices, plan.accepts)
    ensures var w' := Alone(w, id, choices);
      && TrackedBy(w', id, plan)
      && w'.calls[id].input == w.calls[id].input && w'.calls[id].now == w.calls[id].now
      && (Left(w.calls[id].pc) <= |choices| ==> w'.calls[id].pc.Finished?)
    decreases |choices|
  {
    if choices != [] {
      if Running(w, id) {
        RunTracks(w, id, choices[0], plan);
        VerdictStays(w, id, w.calls[id], choices, Exec(w, id, w.calls[id], choices[0]).1, plan.accepts);
        AloneTracks(Apply(w, Run(id, choices[0])), id, choices[1..], plan);
      } else {
        AloneTracks(w, id, choices[1..], plan);
      }
    }
  }

  // ---------- the answers ----------

  /** The call's answer is a token for its claim, verified user, key and audience; nothing else counts as success. */
  ghost predicate AnswersToken(w: World, id: CallId, audience: Resource) {
    id in w.calls && w.calls[id].pc == Finished(Minted) && Answered(w, w.calls[id], audience)
  }

  /** How the call ended. A refusal for good has freed the key; a busy key is still held. */
  ghost predicate Answers(w: World, id: CallId, audience: Resource, answer: Answer) {
    match answer
    case Granted => AnswersToken(w, id, audience)
    case Busy =>
      && id in w.calls && w.calls[id].pc == Finished(Failed(InvalidRequest))
      && InLease(w, w.calls[id].Key(), w.calls[id].now)
    case Rejected =>
      && id in w.calls && w.calls[id].pc == Finished(Failed(InvalidGrant))
      && w.calls[id].Key() !in w.store.reservations
  }

  /**
   Every answer to a call that finds the claim open. While a reservation of its key is in its
   lease: a token if the confirmation was started and the provider has the email verified, else
   `invalid_request`. Otherwise: a token if the verification is marked, or the call has an OTP, an
   attempt is left and the provider accepts; else `invalid_grant`, and the key is free again.
   */
  lemma OpenClaimAnswers(w: World, id: CallId, input: Input, v: VerificationId, audience: Resource, accepts: bool, choices: seq<Choice>)
    requires id !in w.calls
    requires FindsOpen(w, id, Begin(input, w.clock), v, audience)
    requires |choices| >= 16 && (forall i | 0 <= i < |choices| :: Fair(choices[i], v))
    requires Verdict(w, input.claimant, choices, accepts)
    ensures var w' := Alone(Apply(w, Start(id, input)), id, choices);
      var answer := Foretold(w, Begin(input, w.clock), v, accepts);
      Answers(w', id, audience, answer) && (AnswersToken(w', id, audience) <==> answer == Granted)
  {
    var p := Begin(input, w.clock);
    var plan := Plan(v, audience, accepts, Foretold(w, p, v, accepts));
    PutTracks(w, id, p, plan);
    AloneTracks(Put(w, id, p), id, choices, plan);
    FinishedAnswer(Alone(Put(w, id, p), id, choices), id, plan);
  }

  /** The claim is open to this call, which names or finds `v`, or finds its key's reservation of `v`. */
  ghost predicate FindsOpen(w: World, id: CallId, p: Call, v: VerificationId, audience: Resource) {
    && Open(w, id, p.input.claimant, v, audience, p.now)
    && Reservable(w, p.Key(), v, audience, p.now)
    && (InLease(w, p.Key(), p.now) || Picks(w, p, v))
    && OwnRequest(p, audience)
  }

  lemma FinishedAnswer(w: World, id: CallId, plan: Plan)
    requires TrackedBy(w, id, plan) && w.calls[id].pc.Finished?
    ensures Answers(w, id, plan.audience, plan.answer)
    ensures AnswersToken(w, id, plan.audience) <==> plan.answer == Granted
  {
  }

  // ---------- replay ----------

  lemma StartIsPut(w: World, id: CallId, input: Input)
    requires id !in w.calls
    ensures Apply(w, Start(id, input)) == Put(w, id, Begin(input, w.clock))
  {
  }

  lemma AloneStep(w: World, id: CallId, p: Call, choices: seq<Choice>, next: (World, Call))
    requires choices != [] && !p.pc.Finished? && next == Exec(Put(w, id, p), id, p, choices[0])
    ensures Alone(Put(w, id, p), id, choices) == Alone(Put(next.0, id, next.1), id, choices[1..])
  {
    assert Apply(Put(w, id, p), Run(id, choices[0])) == Put(next.0, id, next.1);
  }

  lemma ExecIs(w: World, id: CallId, p: Call, ch: Choice)
    ensures p.pc.FindExisting? ==> Exec(w, id, p, ch) == (w, RunFindExisting(w, p))
    ensures p.pc.ReadReservation? ==> Exec(w, id, p, ch) == (w, RunReadReservation(w, p))
    ensures p.pc.ReadReplay? ==> Exec(w, id, p, ch) == (w, RunReadReplay(w, p))
    ensures p.pc.Mint? ==> Exec(w, id, p, ch) == RunMint(w, p)
  {
  }

  lemma {:induction false} FinishedStays(w: World, id: CallId, choices: seq<Choice>)
    requires id in w.calls && w.calls[id].pc.Finished?
    ensures Alone(w, id, choices) == w
    decreases |choices|
  {
    if choices != [] {
      FinishedStays(w, id, choices[1..]);
    }
  }

  /**
   A completed reservation answers every same-key call with the same token until its window closes,
   whether the claim went to the claimant or to the user who owns the email, with no new verdict.
   */
  lemma CompletedClaimReplays(w: World, id: CallId, input: Input, audience: Resource, choices: seq<Choice>)
    requires id !in w.calls
    requires Replayable(w, RunFindExisting(w, Begin(input, w.clock)).Key(), audience, w.clock)
    requires input.resource.None? || input.resource.value == audience
    requires |choices| >= 4
    ensures AnswersToken(Alone(Apply(w, Start(id, input)), id, choices), id, audience)
  {
    var p := Begin(input, w.clock);
    StartIsPut(w, id, input);
    var w1 := Put(w, id, p);
    var p1 := RunFindExisting(w, p);
    ExecIs(w1, id, p, choices[0]);
    AloneStep(w, id, p, choices, (w1, p1));
    FoundClaimReplays(w1, id, p1, audience, choices[1..]);
  }

  lemma FoundClaimReplays(w: World, id: CallId, p: Call, audience: Resource, choices: seq<Choice>)
    requires p.pc.ReadReservation? && Replayable(w, p.Key(), audience, p.now)
    requires p.input.resource.None? || p.input.resource.value == audience
    requires |choices| >= 3
    ensures AnswersToken(Alone(Put(w, id, p), id, choices), id, audience)
    ensures var w2 := Alone(Put(w, id, p), id, choices); w2.store == w.store && id in w2.calls && w2.calls[id].VerifiedUser() == p.VerifiedUser()
  {
    var w1 := Put(w, id, p);
    var q := p.(pc := ReadReplay);
    assert RunReadReservation(w1, p) == q && q.Key() == p.Key();
    ExecIs(w1, id, p, choices[0]);
    AloneStep(w, id, p, choices, (w1, q));
    ReadClaimReplays(w1, id, q, audience, choices[1..]);
  }

  lemma ReadClaimReplays(w: World, id: CallId, p: Call, audience: Resource, choices: seq<Choice>)
    requires p.pc.ReadReplay? && Replayable(w, p.Key(), audience, p.now)
    requires p.input.resource.None? || p.input.resource.value == audience
    requires |choices| >= 2
    ensures AnswersToken(Alone(Put(w, id, p), id, choices), id, audience)
    ensures var w2 := Alone(Put(w, id, p), id, choices); w2.store == w.store && id in w2.calls && w2.calls[id].VerifiedUser() == p.VerifiedUser()
  {
    var w1 := Put(w, id, p);
    var q := p.(seenExpiry := w.store.reservations[p.Key()].expiresAt, resource := audience, pc := Mint);
    assert RunReadReplay(w1, p) == q;
    ExecIs(w1, id, p, choices[0]);
    AloneStep(w, id, p, choices, (w1, q));
    ReplayedMints(w1, id, q, audience, choices[1..]);
  }

  lemma ReplayedMints(w: World, id: CallId, p: Call, audience: Resource, choices: seq<Choice>)
    requires p.pc.Mint? && p.resource == audience && choices != []
    ensures AnswersToken(Alone(Put(w, id, p), id, choices), id, audience)
    ensures var w2 := Alone(Put(w, id, p), id, choices); w2.store == w.store && id in w2.calls && w2.calls[id].VerifiedUser() == p.VerifiedUser()
  {
    var next := RunMint(Put(w, id, p), p);
    ExecIs(Put(w, id, p), id, p, choices[0]);
    AloneStep(w, id, p, choices, next);
    MintAnswers(Put(w, id, p), p, audience);
    MintedStays(next.0, id, next.1, audience, choices[1..]);
  }

  lemma MintedStays(w: World, id: CallId, p: Call, audience: Resource, choices: seq<Choice>)
    requires p.pc == Finished(Minted) && Answered(w, p, audience)
    ensures AnswersToken(Alone(Put(w, id, p), id, choices), id, audience)
    ensures Alone(Put(w, id, p), id, choices) == Put(w, id, p)
  {
    FinishedStays(Put(w, id, p), id, choices);
    assert Put(w, id, p).hist == w.hist;
  }

  // ---------- stopping anywhere ----------

  /** The key of a claim that goes to its claimant. */
  function OwnKey(input: Input): ReservationKey {
    var c := input.claimant;
    ReservationKey(input.key, c.user, c.email, c.org, c.app, c.user)
  }

  /** What a stopped call can leave: a completed claim, or an open one. */
  ghost predicate Leaves(w: World, id: CallId, input: Input, v: VerificationId, audience: Resource, now: int) {
    && (input.claimant.email in w.owner ==> w.owner[input.claimant.email] == input.claimant.user)
    && (Replayable(w, OwnKey(input), audience, now) ||
      (Open(w, id, input.claimant, v, audience, now) && Reservable(w, OwnKey(input), v, audience, now)))
  }

  lemma TrackLeaves(w: World, id: CallId, p: Call, plan: Plan)
    requires OnTrack(w, id, p, plan)
    ensures p.Key() == OwnKey(p.input) && Leaves(w, id, p.input, plan.v, plan.audience, p.now)
  {
  }

  /** A step of call `id` alone: an awaited call that returns, loses its reply or throws, or the end of the isolate. */
  predicate OwnStep(s: Step, id: CallId, v: VerificationId) {
    match s
    case Run(i, ch) => i == id && Fair(ch, v)
    case LoseReply(i, ch) => i == id && Fair(ch, v)
    case Throw(i) => i == id
    case Crash(i) => i == id
    case _ => false
  }

  predicate AllOwn(steps: seq<Step>, id: CallId, v: VerificationId) {
    forall s :: s in steps ==> OwnStep(s, id, v)
  }

  /** On some track, or past a fault with only a release left. */
  ghost predicate Trails(w: World, id: CallId, input: Input, v: VerificationId, audience: Resource, now: int) {
    && id in w.calls && w.clock == now
    && var p := w.calls[id];
       && p.input == input && p.now == now
       && ((exists plan: Plan :: plan.v == v && plan.audience == audience && OnTrack(w, id, p, plan))
           || Over(w, id, p, v, audience))
  }

  ghost predicate Over(w: World, id: CallId, p: Call, v: VerificationId, audience: Resource) {
    && (p.pc.Finished? || p.pc.ReleaseAfterFault?) && p.Key() == OwnKey(p.input)
    && Leaves(w, id, p.input, v, audience, p.now)
  }

  lemma TrailLeaves(w: World, id: CallId, input: Input, v: VerificationId, audience: Resource, now: int)
    requires Trails(w, id, input, v, audience, now)
    ensures Leaves(w, id, input, v, audience, now)
  {
    var p := w.calls[id];
    if !Over(w, id, p, v, audience) {
      var plan: Plan :| plan.v == v && plan.audience == audience && OnTrack(w, id, p, plan);
      TrackLeaves(w, id, p, plan);
    }
  }

  lemma PutOver(w: World, id: CallId, p: Call, input: Input, v: VerificationId, audience: Resource)
    requires Over(w, id, p, v, audience) && p.input == input && p.now == w.clock
    ensures Trails(Put(w, id, p), id, input, v, audience, w.clock)
  {
    assert Put(w, id, p).store == w.store && Put(w, id, p).owner == w.owner;
  }

  lemma PutTrails(w: World, id: CallId, p: Call, plan: Plan)
    requires OnTrack(w, id, p, plan) && p.now == w.clock
    ensures Trails(Put(w, id, p), id, p.input, plan.v, plan.audience, w.clock)
  {
    PutTracks(w, id, p, plan);
  }

  /** At `Confirm` the plan may still take whatever the provider is about to say. */
  function Heard(w: World, p: Call, plan: Plan, ch: Choice): Plan {
    if p.pc.Confirm? then plan.(accepts := ch.accepted, answer := if IsVerifiedFor(w, p) || ch.accepted then Granted else Rejected)
    else plan
  }

  lemma HeardTracks(w: World, id: CallId, p: Call, plan: Plan, ch: Choice)
    requires OnTrack(w, id, p, plan) && Fair(ch, plan.v) && !p.pc.Finished?
    ensures Advances(w, id, p, Heard(w, p, plan, ch), Exec(w, id, p, ch))
  {
    assert OnTrack(w, id, p, Heard(w, p, plan, ch));
    StepAdvances(w, id, p, Heard(w, p, plan, ch), ch);
  }

  lemma ExecKeepsClock(w: World, id: CallId, p: Call, ch: Choice)
    ensures Exec(w, id, p, ch).0.clock == w.clock && Exec(w, id, p, ch).0.calls == w.calls
  {
  }

  lemma RunTrails(w: World, id: CallId, plan: Plan, ch: Choice)
    requires id in w.calls && OnTrack(w, id, w.calls[id], plan) && w.calls[id].now == w.clock && Running(w, id) && Fair(ch, plan.v)
    ensures Trails(Apply(w, Run(id, ch)), id, w.calls[id].input, plan.v, plan.audience, w.clock)
  {
    var p := w.calls[id];
    HeardTracks(w, id, p, plan, ch);
    ExecKeepsClock(w, id, p, ch);
    PutTrails(Exec(w, id, p, ch).0, id, Exec(w, id, p, ch).1, Heard(w, p, plan, ch));
  }

  /** A fault at any awaited call but `Confirm` ends the call, or leaves it a release. */
  lemma ThrownIsOver(w: World, w': World, id: CallId, p: Call, v: VerificationId, audience: Resource)
    requires !p.pc.Confirm? && p.Key() == OwnKey(p.input) && Leaves(w', id, p.input, v, audience, p.now)
    ensures Over(w', id, p.Throw(), v, audience) && p.Throw().input == p.input && p.Throw().now == p.now
  {
    assert p.Throw().Key() == p.Key();
  }

  /** A fault at `Confirm`, whatever the provider did before it, is followed by asking who owns the email. */
  lemma ThrownConfirmTracks(w: World, w': World, id: CallId, p: Call, plan: Plan)
    requires OnTrack(w, id, p, plan) && p.pc.Confirm?
    requires w'.store == w.store && OwnerSettles(w, w', p.input.claimant)
    ensures OnTrack(w', id, p.Throw(), plan.(answer := if IsVerifiedFor(w', p) then Granted else Rejected))
  {
    AskedAdvances(w, w', id, p, p.Throw(), plan, if IsVerifiedFor(w', p) then Granted else Rejected);
  }

  lemma LoseTrails(w: World, id: CallId, plan: Plan, ch: Choice)
    requires id in w.calls && OnTrack(w, id, w.calls[id], plan) && w.calls[id].now == w.clock && Running(w, id) && Fair(ch, plan.v)
    ensures Trails(Apply(w, LoseReply(id, ch)), id, w.calls[id].input, plan.v, plan.audience, w.clock)
  {
    var p := w.calls[id];
    var (w1, p1) := Exec(w, id, p, ch);
    ExecKeepsClock(w, id, p, ch);
    if p.pc.Confirm? {
      ThrownConfirmTracks(w, w1, id, p, plan);
      PutTrails(w1, id, p.Throw(), plan.(answer := if IsVerifiedFor(w1, p) then Granted else Rejected));
    } else {
      HeardTracks(w, id, p, plan, ch);
      TrackLeaves(w1, id, p1, Heard(w, p, plan, ch));
      TrackLeaves(w, id, p, plan);
      ThrownIsOver(w, w1, id, p, plan.v, plan.audience);
      PutOver(w1, id, p.Throw(), p.input, plan.v, plan.audience);
    }
  }

  lemma FaultTrails(w: World, id: CallId, plan: Plan, s: Step)
    requires id in w.calls && OnTrack(w, id, w.calls[id], plan) && w.calls[id].now == w.clock && Running(w, id)
    requires s == Throw(id) || s == Crash(id)
    ensures Trails(Apply(w, s), id, w.calls[id].input, plan.v, plan.audience, w.clock)
  {
    var p := w.calls[id];
    TrackLeaves(w, id, p, plan);
    if s.Crash? {
      var q := p.(pc := Finished(Failed(Faulted)));
      assert q.Key() == p.Key();
      PutOver(w, id, q, p.input, plan.v, plan.audience);
    } else if p.pc.Confirm? {
      ThrownConfirmTracks(w, w, id, p, plan);
      PutTrails(w, id, p.Throw(), plan.(answer := if IsVerifiedFor(w, p) then Granted else Rejected));
    } else {
      ThrownIsOver(w, w, id, p, plan.v, plan.audience);
      PutOver(w, id, p.Throw(), p.input, plan.v, plan.audience);
    }
  }

  lemma ReleaseLeaves(w: World, id: CallId, input: Input, v: VerificationId, audience: Resource, now: int)
    requires Leaves(w, id, input, v, audience, now)
    ensures Leaves(w.(store := Release(w.store, OwnKey(input))), id, input, v, audience, now)
  {
  }

  lemma EndedIsOver(w: World, id: CallId, p: Call, v: VerificationId, audience: Resource, code: OAuthCode)
    requires p.Key() == OwnKey(p.input) && Leaves(w, id, p.input, v, audience, p.now)
    ensures Over(w, id, p.(pc := Finished(Failed(code))), v, audience)
  {
    assert p.(pc := Finished(Failed(code))).Key() == p.Key();
  }

  /** The release after a fault drops an open reservation and leaves a completed one. */
  lemma OverTrails(w: World, id: CallId, v: VerificationId, audience: Resource, s: Step)
    requires Running(w, id) && Over(w, id, w.calls[id], v, audience) && w.calls[id].now == w.clock && OwnStep(s, id, v)
    ensures Trails(Apply(w, s), id, w.calls[id].input, v, audience, w.clock)
  {
    var p := w.calls[id];
    var after := if s.Run? || s.LoseReply? then w.(store := Release(w.store, p.Key())) else w;
    var code := if s.Run? then p.pending else Faulted;
    ReleaseLeaves(w, id, p.input, v, audience, p.now);
    EndedIsOver(after, id, p, v, audience, code);
    PutOver(after, id, p.(pc := Finished(Failed(code))), p.input, v, audience);
    ReleaseEnds(w, id, s);
  }

  lemma ReleaseEnds(w: World, id: CallId, s: Step)
    requires Running(w, id) && w.calls[id].pc.ReleaseAfterFault?
    requires (s.Run? || s.LoseReply? || s.Throw? || s.Crash?) && s.id == id
    ensures var p := w.calls[id];
      Apply(w, s) == Put(if s.Run? || s.LoseReply? then w.(store := Release(w.store, p.Key())) else w, id,
                         p.(pc := Finished(Failed(if s.Run? then p.pending else Faulted))))
  {}

  lemma StepTrails(w: World, id: CallId, input: Input, v: VerificationId, audience: Resource, now: int, s: Step)
    requires Trails(w, id, input, v, audience, now) && OwnStep(s, id, v)
    ensures Trails(Apply(w, s), id, input, v, audience, now)
  {
    var p := w.calls[id];
    if !Running(w, id) {
      assert Apply(w, s) == w;
    } else if Over(w, id, p, v, audience) {
      OverTrails(w, id, v, audience, s);
    } else {
      var plan: Plan :| plan.v == v && plan.audience == audience && OnTrack(w, id, p, plan);
      if s.Run? {
        RunTrails(w, id, plan, s.choice);
      } else if s.LoseReply? {
        LoseTrails(w, id, plan, s.choice);
      } else {
        FaultTrails(w, id, plan, s);
      }
    }
  }

  lemma {:induction false} OwnStepsTrail(w: World, id: CallId, input: Input, v: VerificationId, audience: Resource, now: int, steps: seq<Step>)
    requires Trails(w, id, input, v, audience, now) && AllOwn(steps, id, v)
    ensures Trails(RunAll(w, steps), id, input, v, audience, now)
    decreases |steps|
  {
    if steps != [] {
      StepTrails(w, id, input, v, audience, now, steps[0]);
      OwnStepsTrail(Apply(w, steps[0]), id, input, v, audience, now, steps[1..]);
    }
  }

  /** The world after the first call's own steps and a wait. */
  function Stopped(w: World, first: CallId, input: Input, steps: seq<Step>, ms: nat): World {
    Apply(RunAll(Apply(w, Start(first, input)), steps), Tick(ms))
  }

  ghost predicate Completed(w: World, k: ReservationKey) {
    k in w.store.reservations && w.store.reservations[k].completedAt.Some?
  }

  lemma StopLeaves(w: World, first: CallId, input: Input, v: VerificationId, audience: Resource, steps: seq<Step>, ms: nat)
    requires first !in w.calls && FindsOpen(w, first, Begin(input, w.clock), v, audience)
    requires AllOwn(steps, first, v)
    ensures var w2 := Stopped(w, first, input, steps, ms);
      Leaves(w2, first, input, v, audience, w.clock) && w2.clock == w.clock + ms
  {
    var p := Begin(input, w.clock);
    var plan := Plan(v, audience, true, Foretold(w, p, v, true));
    StartIsPut(w, first, input);
    PutTrails(w, first, p, plan);
    OwnStepsTrail(Put(w, first, p), first, input, v, audience, w.clock, steps);
    TrailLeaves(RunAll(Put(w, first, p), steps), first, input, v, audience, w.clock);
  }

  /**
   Crash recovery. A call starts on an open claim, makes any number of its awaited calls, each of
   which may return, lose its reply or throw, and stops anywhere. A retry with the same key answers
   with a token if the claim completed, and otherwise exactly as for an open claim: so inside the
   first lease a code the provider accepted, even if its reply was lost, still ends in a token,
   whatever the provider says to a second code.
   */
  lemma CrashRecovery(w: World, first: CallId, begun: Input, steps: seq<Step>, ms: nat,
                      retry: CallId, input: Input, v: VerificationId, audience: Resource, accepts: bool, choices: seq<Choice>)
    requires first !in w.calls && FindsOpen(w, first, Begin(begun, w.clock), v, audience)
    requires AllOwn(steps, first, v)
    requires input.claimant == begun.claimant && input.key == begun.key
    requires input.resource.None? || input.resource.value == audience
    requires var w2 := Stopped(w, first, begun, steps, ms);
      && retry !in w2.calls && FreshToken(w2.store, retry)
      && (if Completed(w2, OwnKey(input)) then w2.clock < w2.store.reservations[OwnKey(input)].expiresAt
          else v in w2.store.verifications && w2.clock < w2.store.verifications[v].expiresAt)
      && (InLease(w2, OwnKey(input), w2.clock) || Picks(w2, Begin(input, w2.clock), v))
      && Verdict(w2, input.claimant, choices, accepts)
    requires |choices| >= 16 && (forall i | 0 <= i < |choices| :: Fair(choices[i], v))
    ensures var w2 := Stopped(w, first, begun, steps, ms);
      var answer := if Completed(w2, OwnKey(input)) then Granted else Foretold(w2, Begin(input, w2.clock), v, accepts);
      var w3 := Alone(Apply(w2, Start(retry, input)), retry, choices);
      Answers(w3, retry, audience, answer) && (AnswersToken(w3, retry, audience) <==> answer == Granted)
  {
    StopLeaves(w, first, begun, v, audience, steps, ms);
    var w2 := Stopped(w, first, begun, steps, ms);
    var q := Begin(input, w2.clock);
    assert q.Key() == OwnKey(input) == OwnKey(begun);
    if Completed(w2, OwnKey(input)) {
      assert RunFindExisting(w2, q).Key() == OwnKey(input);
      CompletedClaimReplays(w2, retry, input, audience, choices);
    } else {
      assert FindsOpen(w2, retry, q, v, audience);
      OpenClaimAnswers(w2, retry, input, v, audience, accepts, choices);
    }
  }
}
