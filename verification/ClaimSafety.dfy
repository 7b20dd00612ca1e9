/** Every reachable state of the claim ceremony satisfies the invariant, and what that says about whole runs. */
module ClaimSafety {
  import opened Wrappers
  import opened ClaimStore
  import opened ClaimCeremony
  import opened ClaimInvariant
  import opened ClaimSteps

  // ---------- where each awaited call leaves its caller ----------

  /** A call here has nothing left to establish. */
  predicate Settled(pc: Pc) {
    pc.ReadCompleted? || pc.ReadReconciled? || pc.ReadReplay? || pc.ReadWinner? || pc.AdmitConsent? || pc.CreateConsent?
    || pc.ReleaseTerminal? || pc.ReleaseAfterFault? || pc.Finished?
  }

  lemma SettledOk(w: World, id: CallId, p: Call)
    requires ExistingInv(w, p) && Settled(p.pc)
    ensures CallInv(w, id, p)
  {
  }

  /** `CallInv` reads only the history, the owners and the Orgs. */
  lemma SameFactsOk(w: World, w': World, id: CallId, p: Call)
    requires w'.hist == w.hist && w'.owner == w.owner && w'.store.organizations == w.store.organizations
    requires CallInv(w, id, p)
    ensures CallInv(w', id, p)
  {
  }

  lemma FailOk(w: World, id: CallId, p: Call, code: OAuthCode)
    requires ExistingInv(w, p)
    ensures CallInv(w, id, p.Fail(code))
  {
  }

  lemma WithResourceOk(w: World, id: CallId, p: Call, requested: Option<Resource>, selected: Option<Resource>, next: Pc)
    requires ExistingInv(w, p)
    requires selected.Some? ==> CallInv(w, id, p.(resource := selected.value, pc := next))
    ensures CallInv(w, id, p.WithResource(requested, selected, next))
  {
    FailOk(w, id, p, InvalidGrant);
    FailOk(w, id, p, InvalidRequest);
  }

  lemma ReadReservationOk(w: World, id: CallId, p: Call)
    requires ReservationInv(w) && CallInv(w, id, p) && p.pc.ReadReservation?
    ensures CallInv(w, id, RunReadReservation(w, p))
  {
    var k := p.Key();
    if k in w.store.reservations {
      InFlightOk(w, id, p, w.store.reservations[k]);
    }
    EarlyOk(w, id, p);
  }

  lemma EarlyOk(w: World, id: CallId, p: Call)
    requires CallInv(w, id, p) && p.pc.ReadReservation?
    ensures CallInv(w, id, p.(pc := ReadReplay)) && CallInv(w, id, p.(pc := CheckMembers)) && CallInv(w, id, p.(pc := ReleaseExpired))
  {
  }

  lemma InFlightOk(w: World, id: CallId, p: Call, r: Reservation)
    requires CallInv(w, id, p) && p.pc.ReadReservation?
    requires ReservationOk(w, p.Key(), r)
    ensures CallInv(w, id, RunReadInFlight(p, r))
  {
    var q := p.(verification := r.verification);
    FailOk(w, id, p, InvalidRequest);
    if r.startedAt.Some? {
      AskingOk(w, id, p, r, q.(resource := r.resource.value, pc := AskProvider));
      WithResourceOk(w, id, q, p.input.resource, r.resource, AskProvider);
    } else {
      FailOk(w, id, q, InvalidRequest);
    }
  }

  lemma AskingOk(w: World, id: CallId, p: Call, r: Reservation, asking: Call)
    requires ReservationOk(w, p.Key(), r) && r.startedAt.Some?
    requires CallInv(w, id, p) && p.pc.ReadReservation?
    requires asking == p.(verification := r.verification, resource := r.resource.value, pc := AskProvider)
    ensures CallInv(w, id, asking)
  {
    assert p.Key().user == p.input.claimant.user && p.Key().email == p.input.claimant.email;
    assert asking.VerifiedUser() == p.Key().verifiedUser;
  }

  lemma ReadReservedOk(w: World, id: CallId, p: Call)
    requires RowsInv(w) && CallInv(w, id, p) && p.pc.ReadReserved?
    ensures CallInv(w, id, RunReadReserved(w, p))
  {
    FailOk(w, id, p, InvalidRequest);
    if LiveFor(w, p) {
      assert RowInitiated(w, p.verification);
      WithResourceOk(w, id, p, Some(p.resource), w.store.verifications[p.verification].resource, MarkReconciled);
    }
  }

  lemma ReadVerificationOk(w: World, id: CallId, p: Call, ch: Choice)
    requires RowsInv(w) && CallInv(w, id, p) && p.pc.ReadVerification?
    ensures CallInv(w, id, RunReadVerification(w, p, ch))
  {
    FailOk(w, id, p, InvalidGrant);
    AcceptOk(w, id, p, ch.verification);
    if p.input.verificationId.Some? {
      AcceptOk(w, id, p, p.input.verificationId.value);
    }
  }

  lemma AcceptOk(w: World, id: CallId, p: Call, v: VerificationId)
    requires RowsInv(w) && CallInv(w, id, p) && p.pc.ReadVerification?
    ensures CallInv(w, id, Accept(w, p, v))
  {
    var q := p.(verification := v);
    FailOk(w, id, q, InvalidGrant);
    if LiveFor(w, q) {
      assert RowInitiated(w, v);
      var row := w.store.verifications[v];
      var next := if p.Collision() then ReadConsent else Reserve;
      if row.resource.Some? {
        ChosenOk(w, id, p, q.(verified := row.verifiedAt.Some?, resource := row.resource.value, pc := next));
      }
      WithResourceOk(w, id, q.(verified := row.verifiedAt.Some?), p.input.resource, row.resource, next);
    }
  }

  lemma ChosenOk(w: World, id: CallId, p: Call, q: Call)
    requires CallInv(w, id, p) && p.pc.ReadVerification?
    requires q == p.(verification := q.verification, verified := q.verified, resource := q.resource, pc := q.pc)
    requires q.pc == if p.Collision() then ReadConsent else Reserve
    requires OwnVerification(w, q)
    ensures CallInv(w, id, q)
  {
  }

  lemma ReadConsentOk(w: World, id: CallId, p: Call, ch: Choice)
    requires RowsInv(w) && CallInv(w, id, p) && p.pc.ReadConsent?
    ensures CallInv(w, id, RunReadConsent(w, p, ch))
  {
    SettledOk(w, id, p.(pc := AdmitConsent));
    if IsApprovedConsent(w.store, ch.consent, p.verification, p.existing.value, p.now) {
      assert RowApproved(w, ch.consent);
      ConsentChosenOk(w, id, p, ch.consent);
    }
  }

  lemma ConsentChosenOk(w: World, id: CallId, p: Call, c: ConsentId)
    requires CallInv(w, id, p) && p.pc.ReadConsent?
    requires c in w.hist.approvals && w.hist.approvals[c].verification == p.verification
    requires w.hist.approvals[c].existingUser == p.existing.value && p.now < w.hist.approvals[c].expiresAt
    ensures CallInv(w, id, p.(consent := Some(c), pc := Reserve))
  {
  }

  lemma ReadReplayOk(w: World, id: CallId, p: Call)
    requires ReservationInv(w) && CallInv(w, id, p) && (p.pc.ReadReplay? || p.pc.ReadWinner?)
    ensures CallInv(w, id, RunReadReplay(w, p)) && CallInv(w, id, RunReadWinner(w, p))
  {
    var k := p.Key();
    FailOk(w, id, p, InvalidGrant);
    FailOk(w, id, p, InvalidRequest);
    if k in w.store.reservations {
      var r := w.store.reservations[k];
      assert ReservationOk(w, k, r);
      var q := p.(seenExpiry := r.expiresAt);
      FailOk(w, id, q, InvalidGrant);
      FailOk(w, id, q, InvalidRequest);
      if CompletedLive(w.store, k, p.now) {
        WithResourceOk(w, id, q, p.input.resource, r.resource, Mint);
      }
    }
  }

  // ---------- one call's own step ----------

  /** The step keeps the world and leaves the call in a state its invariant describes. */
  ghost predicate StepOk(w: World, id: CallId, next: (World, Call)) {
    KeptBy(w, next.0, Some(id)) && CallInv(next.0, id, next.1)
  }

  lemma Both(w: World, id: CallId, next: (World, Call))
    requires KeptBy(w, next.0, Some(id)) && CallInv(next.0, id, next.1)
    ensures StepOk(w, id, next)
  {}

  lemma CheckedNextOk(w: World, id: CallId, p: Call)
    requires CallInv(w, id, p) && p.pc.ReleaseExpired?
    ensures CallInv(w, id, p.(pc := CheckMembers))
  {}

  lemma ReleaseOk(w: World, id: CallId, p: Call, next: Call)
    requires WorldInv(w) && CallInv(w, id, next)
    ensures StepOk(w, id, RunRelease(w, p, next))
  {
    ReleaseKeeps(w, p.Key(), Some(id));
    SameFactsOk(w, RunRelease(w, p, next).0, id, next);
  }

  lemma AskProviderWorld(w: World, id: CallId, p: Call)
    requires WorldInv(w)
    ensures KeptBy(w, RunAskProvider(w, p).0, Some(id))
  {
    NothingKeeps(w, Some(id));
    VouchKeeps(w, p, Some(id));
  }

  lemma AskProviderOk(w: World, id: CallId, p: Call)
    requires CallInv(w, id, p) && p.pc.AskProvider?
    ensures var (w', p') := RunAskProvider(w, p); CallInv(w', id, p')
  {
    FailOk(w, id, p, InvalidRequest);
    assert p.(pc := ReadReserved).Key() == p.Key();
  }

  lemma AskAfterRejectWorld(w: World, id: CallId, p: Call)
    requires WorldInv(w)
    ensures KeptBy(w, RunAskAfterReject(w, p).0, Some(id))
  {
    NothingKeeps(w, Some(id));
    VouchKeeps(w, p, Some(id));
  }

  lemma AskAfterRejectOk(w: World, id: CallId, p: Call)
    requires CallInv(w, id, p) && p.pc.AskAfterReject?
    ensures var (w', p') := RunAskAfterReject(w, p); CallInv(w', id, p')
  {
    FailOk(w, id, p.(rejected := true), InvalidGrant);
  }

  lemma MarkReconciledOk(w: World, id: CallId, p: Call)
    requires WorldInv(w) && CallInv(w, id, p) && id in w.calls && p.pc.MarkReconciled?
    ensures KeptBy(w, RunMark(w, id, p, CompleteReconciled, InvalidRequest).0, Some(id))
  {
    NothingKeeps(w, Some(id));
    if LiveFor(w, p) {
      MarkVerifiedKeeps(w, p.verification, p.now, MarkBy(w, id, p).value);
    }
  }

  /** `CallInv` past a mark of its own. */
  lemma MarkedCallOk(w: World, w': World, id: CallId, p: Call)
    requires CallInv(w, id, p) && (p.pc.Complete? || p.pc.CompleteReconciled?)
    requires w'.owner == w.owner && w'.store.organizations == w.store.organizations
    requires w'.hist == w.hist.(marks := w'.hist.marks)
    ensures CallInv(w', id, p)
  {
  }

  lemma ReconciledNextOk(w: World, id: CallId, p: Call)
    requires CallInv(w, id, p) && p.pc.MarkReconciled?
    ensures var (w', p') := RunMark(w, id, p, CompleteReconciled, InvalidRequest); CallInv(w', id, p')
  {
    FailOk(w, id, p, InvalidRequest);
    assert p.(pc := CompleteReconciled).Key() == p.Key();
    assert CallInv(w, id, p.(pc := CompleteReconciled));
    MarkedCallOk(w, RunMark(w, id, p, CompleteReconciled, InvalidRequest).0, id, p.(pc := CompleteReconciled));
  }

  lemma MarkConfirmedOk(w: World, id: CallId, p: Call)
    requires WorldInv(w) && CallInv(w, id, p) && id in w.calls && p.pc.MarkConfirmed?
    ensures KeptBy(w, RunMark(w, id, p, Complete, ServerError).0, Some(id))
  {
    NothingKeeps(w, Some(id));
    if LiveFor(w, p) {
      assert MarkOk(w, p.verification, Confirmed(id));
      MarkVerifiedKeeps(w, p.verification, p.now, Confirmed(id));
    }
  }

  lemma ConfirmedNextOk(w: World, id: CallId, p: Call)
    requires CallInv(w, id, p) && p.pc.MarkConfirmed?
    ensures var (w', p') := RunMark(w, id, p, Complete, ServerError); CallInv(w', id, p')
  {
    FailOk(w, id, p, ServerError);
    assert CallInv(w, id, p.(pc := Complete));
    MarkedCallOk(w, RunMark(w, id, p, Complete, ServerError).0, id, p.(pc := Complete));
  }

  lemma MarkFromConsentWorld(w: World, id: CallId, p: Call)
    requires WorldInv(w) && CallInv(w, id, p) && id in w.calls && p.pc.MarkFromConsent?
    ensures KeptBy(w, RunMarkFromConsent(w, id, p).0, Some(id))
  {
    NothingKeeps(w, Some(id));
    if LiveFor(w, p) {
      assert ConsentBy(w, p.consent.value, p.verification, p.input.claimant.user, p.input.claimant.email);
      MarkVerifiedKeeps(w, p.verification, p.now, FromConsent(id, p.consent.value));
    }
  }

  lemma MarkFromConsentOk(w: World, id: CallId, p: Call)
    requires CallInv(w, id, p) && p.pc.MarkFromConsent?
    ensures var (w', p') := RunMarkFromConsent(w, id, p); CallInv(w', id, p')
  {
    FailOk(w, id, p, ServerError);
    assert CallInv(w, id, p.(pc := Complete));
    if RunMarkFromConsent(w, id, p).1.pc.Complete? {
      MarkedCallOk(w, RunMarkFromConsent(w, id, p).0, id, p.(pc := Complete));
    }
  }

  lemma CreateConsentWorld(w: World, id: CallId, p: Call, ch: Choice)
    requires WorldInv(w)
    ensures KeptBy(w, RunCreateConsent(w, p, ch).0, Some(id))
  {
    NothingKeeps(w, Some(id));
    if p.existing.Some? && FreshConsent(w, ch.consent) {
      OfferConsentKeeps(w, ch.consent, p.verification, p.existing.value, p.now, Some(id));
    }
  }

  lemma CreateConsentOk(w: World, id: CallId, p: Call, ch: Choice)
    requires CallInv(w, id, p) && p.pc.CreateConsent?
    ensures var (w', p') := RunCreateConsent(w, p, ch); CallInv(w', id, p')
  {
    FailOk(w, id, p, Faulted);
    FailOk(w, id, p, InteractionRequired);
    if p.existing.Some? && FreshConsent(w, ch.consent) && p.verification in w.store.verifications {
      SameFactsOk(w, OfferConsent(w, ch.consent, p.verification, p.existing.value, p.now), id, p.Fail(InteractionRequired));
    }
  }

  lemma ReserveWorld(w: World, id: CallId, p: Call)
    requires WorldInv(w) && CallInv(w, id, p) && p.pc.Reserve?
    ensures KeptBy(w, RunReserve(w, p).0, Some(id))
  {
    if p.Key() in w.store.reservations || p.verification !in w.store.verifications {
      NothingKeeps(w, Some(id));
    } else {
      var r := Reservation(p.verification, Some(p.resource), None, None, p.now + IN_FLIGHT_LEASE_MS);
      NewReservationOk(w, id, p, r);
      ReserveKeeps(w, p.Key(), r, Some(id));
      assert RunReserve(w, p).0 == WithReservation(w, p.Key(), r);
    }
  }

  lemma NewReservationOk(w: World, id: CallId, p: Call, r: Reservation)
    requires CallInv(w, id, p) && p.pc.Reserve?
    requires r == Reservation(p.verification, Some(p.resource), None, None, p.now + IN_FLIGHT_LEASE_MS)
    ensures ReservationOk(w, p.Key(), r)
  {
  }

  lemma ReserveOk(w: World, id: CallId, p: Call)
    requires CallInv(w, id, p) && p.pc.Reserve?
    ensures var (w', p') := RunReserve(w, p); CallInv(w', id, p')
  {
    var (w', p') := RunReserve(w, p);
    FailOk(w, id, p, Faulted);
    AdmittedOk(w, id, p);
    SettledOk(w, id, p.(pc := ReadWinner));
    SameFactsOk(w, w', id, p');
  }

  lemma AdmittedOk(w: World, id: CallId, p: Call)
    requires CallInv(w, id, p) && p.pc.Reserve?
    ensures CallInv(w, id, p.(reserved := true, pc := Admit))
  {
  }

  lemma CountAttemptWorld(w: World, id: CallId, p: Call)
    requires WorldInv(w) && CallInv(w, id, p) && p.pc.CountAttempt? && id in w.calls
    ensures KeptBy(w, RunCountAttempt(w, id, p).0, Some(id))
  {
    NothingKeeps(w, Some(id));
    if CanCountAttempt(w.store, p.verification, p.input.claimant.user, p.input.claimant.email, p.now, MAX_OTP_ATTEMPTS) {
      CountAttemptKeeps(w, id, p.verification);
    }
  }

  lemma CountAttemptOk(w: World, id: CallId, p: Call)
    requires CallInv(w, id, p) && p.pc.CountAttempt?
    ensures var (w', p') := RunCountAttempt(w, id, p); CallInv(w', id, p')
  {
    FailOk(w, id, p, InvalidGrant);
  }

  lemma MarkStartedOk(w: World, id: CallId, p: Call)
    requires WorldInv(w) && CallInv(w, id, p) && p.pc.MarkStarted?
    ensures StepOk(w, id, RunMarkStarted(w, id, p))
  {
    NothingKeeps(w, Some(id));
    FailOk(w, id, p, ServerError);
    if CanMarkStarted(w.store, p.Key()) {
      StartKeeps(w, id, p.Key(), p.verification, p.now);
      StartedCallOk(w, WithStarted(w, id, p.Key(), p.verification, p.now), id, p);
    }
  }

  lemma StartedCallOk(w: World, w': World, id: CallId, p: Call)
    requires CallInv(w, id, p) && p.pc.MarkStarted?
    requires w'.owner == w.owner && w'.store.organizations == w.store.organizations
    requires w'.hist == w.hist.(starts := w'.hist.starts)
    ensures CallInv(w', id, p.(started := true, pc := Confirm))
  {
  }

  lemma CountedCallKept(w: World, w': World, id: CallId, p: Call)
    requires Evolves(w, w', Some(id)) && w'.store.organizations == w.store.organizations
    requires CountedCall(w, id, p)
    ensures CountedCall(w', id, p)
  {
  }

  lemma ConfirmOk(w: World, id: CallId, p: Call, ch: Choice)
    requires TablesInv(w) && CallInv(w, id, p) && p.pc.Confirm?
    ensures var (w', p') := RunConfirm(w, id, p, ch); CallInv(w', id, p')
  {
    var (w', p') := RunConfirm(w, id, p, ch);
    ConfirmEvolves(w, id, p, ch);
    CountedCallKept(w, w', id, p);
    AnsweredOk(w', id, p, p');
  }

  lemma AnsweredOk(w: World, id: CallId, p: Call, p': Call)
    requires ExistingInv(w, p) && CountedCall(w, id, p)
    requires p' == p.(pc := p'.pc)
    requires p'.pc.AskAfterReject? || (p'.pc.MarkConfirmed? && Vouched(w, p))
    ensures CallInv(w, id, p')
  {
  }

  lemma CompleteWorld(w: World, id: CallId, p: Call)
    requires WorldInv(w) && CallInv(w, id, p) && id in w.calls && p.pc.Complete?
    ensures KeptBy(w, RunComplete(w, id, p, p.consent, ReadCompleted).0, Some(id))
  {
    CompleteEvidence(w, id, p);
    CompleteKeeps(w, id, p, p.consent, ReadCompleted);
  }

  lemma CompleteEvidence(w: World, id: CallId, p: Call)
    requires CallInv(w, id, p) && p.pc.Complete?
    ensures OwnMark(w, id, p, p.consent)
  {
    assert p.consent.None? ==> OwnVerification(w, p);
  }

  lemma ReconciledEvidence(w: World, id: CallId, p: Call)
    requires StartsInv(w) && CallInv(w, id, p) && p.pc.CompleteReconciled?
    ensures OwnMark(w, id, p, None)
  {
    assert StandsForAttempt(w.hist, w.hist.starts[(p.Key(), p.verification)], p.verification, p.input.claimant.user, p.input.claimant.email);
  }

  lemma CompleteReconciledWorld(w: World, id: CallId, p: Call)
    requires WorldInv(w) && CallInv(w, id, p) && id in w.calls && p.pc.CompleteReconciled?
    ensures KeptBy(w, RunComplete(w, id, p, None, ReadReconciled).0, Some(id))
  {
    ReconciledEvidence(w, id, p);
    CompleteKeeps(w, id, p, None, ReadReconciled);
  }

  lemma CompletedOk(w: World, id: CallId, p: Call, c: Option<ConsentId>, otherwise: Pc)
    requires ExistingInv(w, p) && (otherwise.ReadCompleted? || otherwise.ReadReconciled?)
    ensures var (w', p') := RunComplete(w, id, p, c, otherwise); CallInv(w', id, p')
  {
    var (w', p') := RunComplete(w, id, p, c, otherwise);
    assert w'.owner == w.owner && p'.existing == p.existing && p'.input == p.input;
    SettledOk(w', id, p');
  }

  lemma MintOk(w: World, id: CallId, p: Call)
    requires ExistingInv(w, p)
    ensures var (w', p') := RunMint(w, p); CallInv(w', id, p')
  {
    var (w', p') := RunMint(w, p);
    SettledOk(w', id, p');
  }

  lemma MintWorld(w: World, id: CallId, p: Call)
    requires WorldInv(w) && CallInv(w, id, p) && p.pc.Mint?
    ensures KeptBy(w, RunMint(w, p).0, Some(id))
  {
    assert ReplayOk(w, p.Key(), p.resource, p.now, p.seenExpiry);
    MintKeeps(w, id, p);
  }

  lemma FindExistingOk(w: World, id: CallId, p: Call)
    requires CallInv(w, id, p) && p.pc.FindExisting?
    ensures CallInv(w, id, RunFindExisting(w, p))
  {
  }

  lemma CheckMembersOk(w: World, id: CallId, p: Call)
    requires CallInv(w, id, p) && p.pc.CheckMembers?
    ensures CallInv(w, id, RunCheckMembers(w, p))
  {
    FailOk(w, id, p, InvalidGrant);
  }

  lemma AdmitOk(w: World, id: CallId, p: Call, ch: Choice)
    requires CallInv(w, id, p) && p.pc.Admit?
    ensures CallInv(w, id, RunAdmit(p, ch))
  {
    FailOk(w, id, p, TooManyRequests);
    FailOk(w, id, p, InvalidGrant);
    AdmittedNextOk(w, id, p);
  }

  lemma AdmittedNextOk(w: World, id: CallId, p: Call)
    requires CallInv(w, id, p) && p.pc.Admit?
    ensures p.verified ==> CallInv(w, id, p.(pc := Complete))
    ensures !p.verified && p.Collision() ==> CallInv(w, id, p.(pc := MarkFromConsent))
    ensures !p.verified && !p.Collision() ==> CallInv(w, id, p.(pc := CountAttempt))
  {
  }

  lemma ReadsOk(w: World, id: CallId, p: Call, ch: Choice)
    requires ReservationInv(w) && RowsInv(w) && CallInv(w, id, p)
    requires p.pc.ReadReservation? || p.pc.ReadReserved? || p.pc.ReadVerification? || p.pc.ReadConsent?
             || p.pc.ReadReplay? || p.pc.ReadWinner?
    ensures CallInv(w, id, Observe(w, p, ch))
  {
    match p.pc
    case ReadReservation => ReadReservationOk(w, id, p);
    case ReadReserved => ReadReservedOk(w, id, p);
    case ReadVerification => ReadVerificationOk(w, id, p, ch);
    case ReadConsent => ReadConsentOk(w, id, p, ch);
    case ReadReplay => ReadReplayOk(w, id, p);
    case ReadWinner => ReadReplayOk(w, id, p);
  }

  lemma ChecksOk(w: World, id: CallId, p: Call, ch: Choice)
    requires CallInv(w, id, p)
    requires p.pc.FindExisting? || p.pc.CheckMembers? || p.pc.Admit?
    ensures CallInv(w, id, Observe(w, p, ch))
  {
    match p.pc
    case FindExisting => FindExistingOk(w, id, p);
    case CheckMembers => CheckMembersOk(w, id, p);
    case Admit => AdmitOk(w, id, p, ch);
  }

  lemma AnswersOk(w: World, id: CallId, p: Call, ch: Choice)
    requires ExistingInv(w, p)
    requires p.pc.AdmitConsent? || p.pc.ReadReconciled? || p.pc.ReadCompleted?
    ensures CallInv(w, id, Observe(w, p, ch))
  {
    var p' := Observe(w, p, ch);
    assert Settled(p'.pc) && ExistingInv(w, p');
    SettledOk(w, id, p');
  }

  lemma ObserveOk(w: World, id: CallId, p: Call, ch: Choice)
    requires ReservationInv(w) && RowsInv(w) && CallInv(w, id, p) && Observes(p.pc)
    ensures CallInv(w, id, Observe(w, p, ch))
  {
    if p.pc.FindExisting? || p.pc.CheckMembers? || p.pc.Admit? {
      ChecksOk(w, id, p, ch);
    } else if p.pc.AdmitConsent? || p.pc.ReadReconciled? || p.pc.ReadCompleted? {
      AnswersOk(w, id, p, ch);
    } else {
      ReadsOk(w, id, p, ch);
    }
  }

  lemma ReleasesOk(w: World, id: CallId, p: Call, ch: Choice)
    requires WorldInv(w) && CallInv(w, id, p)
    requires p.pc.ReleaseExpired? || p.pc.ReleaseTerminal? || p.pc.ReleaseAfterFault?
    ensures StepOk(w, id, Act(w, id, p, ch))
  {
    if p.pc.ReleaseExpired? {
      CheckedNextOk(w, id, p);
      ReleaseOk(w, id, p, p.(pc := CheckMembers));
    } else if p.pc.ReleaseTerminal? {
      FailOk(w, id, p, InvalidGrant);
      ReleaseOk(w, id, p, p.Fail(InvalidGrant));
    } else {
      SettledOk(w, id, p.(pc := Finished(Failed(p.pending))));
      ReleaseOk(w, id, p, p.(pc := Finished(Failed(p.pending))));
    }
  }

  lemma AsksOk(w: World, id: CallId, p: Call, ch: Choice)
    requires WorldInv(w) && CallInv(w, id, p)
    requires p.pc.AskProvider? || p.pc.AskAfterReject?
    ensures StepOk(w, id, Act(w, id, p, ch))
  {
    if p.pc.AskProvider? {
      AskProviderWorld(w, id, p);
      AskProviderOk(w, id, p);
    } else {
      AskAfterRejectWorld(w, id, p);
      AskAfterRejectOk(w, id, p);
    }
  }

  lemma MarksOk(w: World, id: CallId, p: Call, ch: Choice)
    requires WorldInv(w) && CallInv(w, id, p) && id in w.calls
    requires p.pc.MarkReconciled? || p.pc.MarkConfirmed?
    ensures StepOk(w, id, Act(w, id, p, ch))
  {
    if p.pc.MarkReconciled? {
      MarkReconciledOk(w, id, p);
      ReconciledNextOk(w, id, p);
    } else {
      MarkConfirmedOk(w, id, p);
      ConfirmedNextOk(w, id, p);
    }
  }

  lemma StartsOk(w: World, id: CallId, p: Call, ch: Choice)
    requires WorldInv(w) && CallInv(w, id, p) && p.pc.MarkStarted?
    ensures StepOk(w, id, Act(w, id, p, ch))
  {
    MarkStartedOk(w, id, p);
  }

  lemma MintsOk(w: World, id: CallId, p: Call, ch: Choice)
    requires WorldInv(w) && CallInv(w, id, p) && p.pc.Mint?
    ensures StepOk(w, id, Act(w, id, p, ch))
  {
    var next := RunMint(w, p);
    assert Act(w, id, p, ch) == next;
    MintWorld(w, id, p);
    MintOk(w, id, p);
    Both(w, id, next);
  }

  lemma ConsentMarksOk(w: World, id: CallId, p: Call, ch: Choice)
    requires WorldInv(w) && CallInv(w, id, p) && id in w.calls && p.pc.MarkFromConsent?
    ensures StepOk(w, id, Act(w, id, p, ch))
  {
    MarkFromConsentWorld(w, id, p);
    MarkFromConsentOk(w, id, p);
  }

  lemma ConsentsOk(w: World, id: CallId, p: Call, ch: Choice)
    requires WorldInv(w) && CallInv(w, id, p) && p.pc.CreateConsent?
    ensures StepOk(w, id, Act(w, id, p, ch))
  {
    CreateConsentWorld(w, id, p, ch);
    CreateConsentOk(w, id, p, ch);
  }

  lemma ReservesOk(w: World, id: CallId, p: Call, ch: Choice)
    requires WorldInv(w) && CallInv(w, id, p)
    requires p.pc.Reserve?
    ensures StepOk(w, id, Act(w, id, p, ch))
  {
    ReserveWorld(w, id, p);
    ReserveOk(w, id, p);
  }

  lemma CountsOk(w: World, id: CallId, p: Call, ch: Choice)
    requires WorldInv(w) && CallInv(w, id, p) && id in w.calls && p.pc.CountAttempt?
    ensures StepOk(w, id, Act(w, id, p, ch))
  {
    CountAttemptWorld(w, id, p);
    CountAttemptOk(w, id, p);
  }

  lemma ConfirmsOk(w: World, id: CallId, p: Call, ch: Choice)
    requires WorldInv(w) && CallInv(w, id, p) && p.pc.Confirm?
    ensures StepOk(w, id, Act(w, id, p, ch))
  {
    ConfirmKeeps(w, id, p, ch);
    ConfirmOk(w, id, p, ch);
  }

  lemma TransfersOk(w: World, id: CallId, p: Call, ch: Choice)
    requires WorldInv(w) && CallInv(w, id, p) && id in w.calls && p.pc.Complete?
    ensures StepOk(w, id, Act(w, id, p, ch))
  {
    CompleteWorld(w, id, p);
    CompletedOk(w, id, p, p.consent, ReadCompleted);
  }

  lemma ReconciliationsOk(w: World, id: CallId, p: Call, ch: Choice)
    requires WorldInv(w) && CallInv(w, id, p) && id in w.calls && p.pc.CompleteReconciled?
    ensures StepOk(w, id, Act(w, id, p, ch))
  {
    CompleteReconciledWorld(w, id, p);
    CompletedOk(w, id, p, None, ReadReconciled);
  }

  lemma ActOk(w: World, id: CallId, p: Call, ch: Choice)
    requires WorldInv(w) && CallInv(w, id, p) && id in w.calls && !Observes(p.pc) && !p.pc.Finished?
    ensures StepOk(w, id, Act(w, id, p, ch))
  {
    if p.pc.ReleaseExpired? || p.pc.ReleaseTerminal? || p.pc.ReleaseAfterFault? {
      ReleasesOk(w, id, p, ch);
    } else if p.pc.AskProvider? || p.pc.AskAfterReject? {
      AsksOk(w, id, p, ch);
    } else if p.pc.MarkReconciled? || p.pc.MarkConfirmed? {
      MarksOk(w, id, p, ch);
    } else if p.pc.MarkStarted? {
      StartsOk(w, id, p, ch);
    } else if p.pc.Mint? {
      MintsOk(w, id, p, ch);
    } else if p.pc.MarkFromConsent? {
      ConsentMarksOk(w, id, p, ch);
    } else if p.pc.CreateConsent? {
      ConsentsOk(w, id, p, ch);
    } else if p.pc.Reserve? {
      ReservesOk(w, id, p, ch);
    } else if p.pc.CountAttempt? {
      CountsOk(w, id, p, ch);
    } else if p.pc.Confirm? {
      ConfirmsOk(w, id, p, ch);
    } else if p.pc.Complete? {
      TransfersOk(w, id, p, ch);
    } else {
      ReconciliationsOk(w, id, p, ch);
    }
  }

  lemma ExecOk(w: World, id: CallId, p: Call, ch: Choice)
    requires WorldInv(w) && CallInv(w, id, p) && id in w.calls && !p.pc.Finished?
    ensures StepOk(w, id, Exec(w, id, p, ch))
  {
    if Observes(p.pc) {
      NothingKeeps(w, Some(id));
      ObserveOk(w, id, p, ch);
    } else {
      ActOk(w, id, p, ch);
    }
  }

  /** A throw needs nothing beyond what already held; only `Confirm` goes on. */
  lemma ThrowOk(w: World, id: CallId, p: Call)
    requires ExistingInv(w, p) && (p.pc.Confirm? ==> CountedCall(w, id, p))
    ensures CallInv(w, id, p.Throw())
  {
    if p.pc.Confirm? {
      AnsweredOk(w, id, p, p.Throw());
    } else if p.pc.ReleaseAfterFault? {
      SettledOk(w, id, p.Throw());
    } else {
      FailOk(w, id, p, Faulted);
    }
  }

  lemma LostReplyOk(w: World, id: CallId, p: Call, ch: Choice)
    requires TablesInv(w) && CallInv(w, id, p) && Evolves(w, Exec(w, id, p, ch).0, Some(id))
    ensures CallInv(Exec(w, id, p, ch).0, id, p.Throw())
  {
    var w' := Exec(w, id, p, ch).0;
    if p.pc.Confirm? {
      CountedCallKept(w, w', id, p);
    }
    ThrowOk(w', id, p);
  }

  // ---------- every step, every run ----------

  lemma PutOk(w: World, w': World, actor: Option<CallId>, id: CallId, p: Call)
    requires Inv(w) && KeptBy(w, w', actor) && (actor == None || actor == Some(id))
    requires w'.calls == w.calls
    requires CallInv(w', id, p)
    ensures Inv(Put(w', id, p))
  {
    var w'' := Put(w', id, p);
    PutWorldOk(w', id, p);
    forall j | j in w''.calls ensures CallInv(w'', j, w''.calls[j]) {
      if j != id {
        CallStable(w, w', actor, j, w.calls[j]);
      }
      SameFactsOk(w', w'', j, w''.calls[j]);
    }
  }

  lemma PutWorldOk(w: World, id: CallId, p: Call)
    requires WorldInv(w)
    ensures WorldInv(Put(w, id, p))
  {
    var w' := Put(w, id, p);
    assert TablesInv(w');
    QuietFacts(w, w');
  }

  lemma QuietFacts(w: World, w': World)
    requires FactsInv(w) && w' == w.(calls := w'.calls)
    ensures FactsInv(w')
  {
    assert Evolves(w, w', None);
    FactsGrow(w, w', None);
  }

  lemma ExecCalls(w: World, id: CallId, p: Call, ch: Choice)
    ensures Exec(w, id, p, ch).0.calls == w.calls
  {
  }

  lemma StartOk(w: World, id: CallId, input: Input)
    requires Inv(w) && id !in w.calls
    ensures Inv(Put(w, id, Begin(input, w.clock)))
  {
    NothingKeeps(w, None);
    assert Untouched(w, id);
    PutOk(w, w, None, id, Begin(input, w.clock));
  }

  lemma {:induction false} ApplyOk(w: World, s: Step)
    requires Inv(w)
    ensures Inv(Apply(w, s))
  {
    match s
    case Start(id, input) => if id !in w.calls { StartOk(w, id, input); }
    case Run(id, ch) => if Running(w, id) { RunOk(w, id, ch); }
    case LoseReply(id, ch) => if Running(w, id) { LoseReplyOk(w, id, ch); }
    case Throw(id) => if Running(w, id) { ThrowStepOk(w, id); }
    case Crash(id) => if Running(w, id) { CrashOk(w, id); }
    case _ => EnvironmentOk(w, s);
  }

  lemma RunOk(w: World, id: CallId, ch: Choice)
    requires Inv(w) && Running(w, id)
    ensures Inv(Put(Exec(w, id, w.calls[id], ch).0, id, Exec(w, id, w.calls[id], ch).1))
  {
    ExecOk(w, id, w.calls[id], ch);
    ExecCalls(w, id, w.calls[id], ch);
    PutOk(w, Exec(w, id, w.calls[id], ch).0, Some(id), id, Exec(w, id, w.calls[id], ch).1);
  }

  lemma LoseReplyOk(w: World, id: CallId, ch: Choice)
    requires Inv(w) && Running(w, id)
    ensures Inv(Put(Exec(w, id, w.calls[id], ch).0, id, w.calls[id].Throw()))
  {
    ExecOk(w, id, w.calls[id], ch);
    ExecCalls(w, id, w.calls[id], ch);
    LostReplyOk(w, id, w.calls[id], ch);
    PutOk(w, Exec(w, id, w.calls[id], ch).0, Some(id), id, w.calls[id].Throw());
  }

  lemma ThrowStepOk(w: World, id: CallId)
    requires Inv(w) && Running(w, id)
    ensures Inv(Put(w, id, w.calls[id].Throw()))
  {
    NothingKeeps(w, Some(id));
    ThrowOk(w, id, w.calls[id]);
    PutOk(w, w, Some(id), id, w.calls[id].Throw());
  }

  lemma CrashOk(w: World, id: CallId)
    requires Inv(w) && Running(w, id)
    ensures Inv(Put(w, id, w.calls[id].(pc := Finished(Failed(Faulted)))))
  {
    NothingKeeps(w, Some(id));
    var p := w.calls[id].(pc := Finished(Failed(Faulted)));
    SettledOk(w, id, p);
    PutOk(w, w, Some(id), id, p);
  }

  lemma CallsStay(w: World, w': World)
    requires Inv(w) && KeptBy(w, w', None) && w'.calls == w.calls
    ensures Inv(w')
  {
    forall j | j in w'.calls ensures CallInv(w', j, w'.calls[j]) {
      CallStable(w, w', None, j, w.calls[j]);
    }
  }

  lemma EnvironmentKeepsCalls(w: World, s: Step)
    ensures ApplyEnvironment(w, s).calls == w.calls
  {}

  lemma EnvironmentOk(w: World, s: Step)
    requires Inv(w)
    ensures Inv(ApplyEnvironment(w, s))
  {
    EnvironmentKeeps(w, s);
    EnvironmentKeepsCalls(w, s);
    CallsStay(w, ApplyEnvironment(w, s));
  }

  lemma {:induction false} RunKeepsInv(w: World, steps: seq<Step>)
    requires Inv(w)
    ensures Inv(RunAll(w, steps))
    decreases |steps|
  {
    if steps != [] {
      ApplyOk(w, steps[0]);
      RunKeepsInv(Apply(w, steps[0]), steps[1..]);
    }
  }

  lemma StartInv()
    ensures Inv(START)
  {
  }
}
