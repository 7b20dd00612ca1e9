/**
 What every step of the claim ceremony keeps.

 `WorldInv` is about the tables and the history, `CallInv` about one call's program
 counter and locals. `CallInv` mentions only facts that `Evolves` preserves, so a
 step of one call cannot disturb another.
 */
module ClaimInvariant {
  import opened Wrappers
  import opened ClaimStore
  import opened ClaimCeremony

  // ---------- facts about the history ----------

  ghost predicate IsSubject(h: History, v: VerificationId, user: UserId, email: Email) {
    v in h.initiated && h.initiated[v].user == user && h.initiated[v].email == email
  }

  /** The started row of `row` stands for an attempt counted for this subject, on some verification of theirs. */
  ghost predicate StandsForAttempt(h: History, s: StartedRow, row: VerificationId, user: UserId, email: Email) {
    s.row == row && s.call in CallsOn(h.counted, s.on) && IsSubject(h, s.on, user, email)
  }

  /** The email's owner, someone other than the claimant, approved a consent on `v`. */
  ghost predicate ConsentedOn(w: World, v: VerificationId, user: UserId, email: Email) {
    exists c :: ConsentBy(w, c, v, user, email)
  }

  ghost predicate ConsentBy(w: World, c: ConsentId, v: VerificationId, user: UserId, email: Email) {
    && c in w.hist.approvals
    && w.hist.approvals[c].verification == v
    && email in w.owner
    && w.owner[email] == w.hist.approvals[c].existingUser
    && w.owner[email] != user
  }

  /** What a mark of `v` rests on. */
  ghost predicate MarkOk(w: World, v: VerificationId, m: Mark) {
    && v in w.hist.initiated
    && var subject := w.hist.initiated[v];
       match m
       case Confirmed(i) => i in CallsOn(w.hist.counted, v) && (subject.user, subject.email) in w.hist.vouched
       case Reconciled(_, s) => StandsForAttempt(w.hist, s, v, subject.user, subject.email) && (subject.user, subject.email) in w.hist.vouched
       case FromConsent(_, c) => ConsentBy(w, c, v, subject.user, subject.email)
  }

  // ---------- the world ----------

  ghost predicate RowsInv(w: World) {
    && (forall v | v in w.store.verifications :: RowInitiated(w, v))
    && (forall c | c in w.store.consents && w.store.consents[c].approvedAt.Some? :: RowApproved(w, c))
    && (forall c | c in w.store.consents && c in w.hist.approvals :: w.store.consents[c].approvedAt.Some?)
    && (forall c | c in w.hist.refused :: StaysRefused(w, c))
  }

  /** A refused consent was never approved, and its row, while it is kept, is spent. */
  ghost predicate StaysRefused(w: World, c: ConsentId) {
    && c !in w.hist.approvals
    && (c in w.store.consents ==> w.store.consents[c].consumedAt.Some? && w.store.consents[c].approvedAt.None?)
  }

  ghost predicate RowInitiated(w: World, v: VerificationId)
    requires v in w.store.verifications
  {
    var row := w.store.verifications[v];
    v in w.hist.initiated && w.hist.initiated[v] == Initiation(row.user, row.email, row.resource)
  }

  ghost predicate RowApproved(w: World, c: ConsentId)
    requires c in w.store.consents
  {
    var row := w.store.consents[c];
    c in w.hist.approvals && w.hist.approvals[c] == Approval(row.verification, row.existingUser, row.expiresAt)
  }

  ghost predicate CountInv(w: World) {
    && (forall v | v in w.store.verifications :: |CallsOn(w.hist.counted, v)| == w.store.verifications[v].attempts)
    && (forall v :: |CallsOn(w.hist.counted, v)| <= MAX_OTP_ATTEMPTS)
    && (forall v :: CallsOn(w.hist.confirmed, v) <= CallsOn(w.hist.counted, v))
    && (forall v :: v !in w.hist.initiated ==> CallsOn(w.hist.counted, v) == {})
  }

  ghost predicate IdsInv(w: World) {
    && (forall v, i | i in CallsOn(w.hist.counted, v) :: i in w.calls)
    && (forall v | v in w.hist.marks :: w.hist.marks[v].caller in w.calls)
    && (forall o | o in w.hist.completions :: w.hist.completions[o].caller in w.calls)
    && (forall o | o in w.store.organizations && w.store.organizations[o].acquisition.Some? ::
          w.store.organizations[o].acquisition.value in w.calls)
  }

  ghost predicate MarksInv(w: World) {
    && (forall v | v in w.hist.marks :: MarkOk(w, v, w.hist.marks[v]))
    && (forall v | v in w.store.verifications :: w.store.verifications[v].verifiedAt.Some? <==> v in w.hist.marks)
  }

  ghost predicate StartsInv(w: World) {
    forall kv | kv in w.hist.starts :: StandsForAttempt(w.hist, w.hist.starts[kv], kv.1, kv.0.user, kv.0.email)
  }

  ghost predicate ReservationInv(w: World) {
    forall k | k in w.store.reservations :: ReservationOk(w, k, w.store.reservations[k])
  }

  ghost predicate ReservationOk(w: World, k: ReservationKey, r: Reservation) {
    && IsSubject(w.hist, r.verification, k.user, k.email)
    && r.resource.Some?
    && w.hist.initiated[r.verification].resource == r.resource
    && (r.startedAt.Some? ==> k.verifiedUser == k.user && (k, r.verification) in w.hist.starts)
    && (r.completedAt.Some? ==>
          && k.org in w.hist.completions
          && w.hist.completions[k.org].key == k
          && w.hist.completions[k.org].verification == r.verification
          && r.expiresAt == w.hist.completions[k.org].at + COMPLETED_REPLAY_TTL_MS)
  }

  ghost predicate OrgInv(w: World) {
    forall o | o in w.store.organizations ::
      && (w.store.organizations[o].provisional <==> w.store.organizations[o].acquisition.None?)
      && (o in w.hist.completions <==> w.store.organizations[o].acquisition.Some?)
  }

  ghost predicate CompletionInv(w: World) {
    forall o | o in w.hist.completions :: w.hist.completions[o].key.org == o && CompletionOk(w, w.hist.completions[o])
  }

  /** Who a completed transfer went to, and on whose authority. */
  ghost predicate CompletionOk(w: World, c: Completion) {
    && IsSubject(w.hist, c.verification, c.key.user, c.key.email)
    && (c.consent.None? ==>
          && c.key.verifiedUser == c.key.user && c.verification in w.hist.marks
          && (c.own.Some? ==> !c.own.value.FromConsent? && c.own.value.caller == c.caller && MarkOk(w, c.verification, c.own.value)))
    && (c.consent.Some? ==>
          && ConsentBy(w, c.consent.value, c.verification, c.key.user, c.key.email)
          && w.hist.approvals[c.consent.value].existingUser == c.key.verifiedUser
          && c.at < w.hist.approvals[c.consent.value].expiresAt)
  }

  ghost predicate TokenInv(w: World) {
    forall t | t in w.hist.tokens :: TokenOk(w, t)
  }

  ghost predicate TokenOk(w: World, t: Token) {
    && t.user == t.key.verifiedUser && t.org == t.key.org && t.app == t.key.app
    && ReplayOk(w, t.key, t.audience, t.at, t.readExpiry)
  }

  /** `key` completed its Org's one transfer, `audience` was fixed at initiation, and the read was in the window. */
  ghost predicate ReplayOk(w: World, key: ReservationKey, audience: Resource, at: int, readExpiry: int) {
    && key.org in w.hist.completions
    && w.hist.completions[key.org].key == key
    && w.hist.completions[key.org].verification in w.hist.initiated
    && w.hist.initiated[w.hist.completions[key.org].verification].resource == Some(audience)
    && readExpiry == w.hist.completions[key.org].at + COMPLETED_REPLAY_TTL_MS
    && at < readExpiry
  }

  /** Nobody counts twice, and who marks or transfers without a confirmation of their own never counted. */
  ghost predicate AttemptsInv(w: World) {
    && (forall i, u, v :: i in CallsOn(w.hist.counted, u) && i in CallsOn(w.hist.counted, v) ==> u == v)
    && (forall v | v in w.hist.marks :: !w.hist.marks[v].Confirmed? ==> NotCounted(w, w.hist.marks[v].caller))
    && (forall o | o in w.hist.completions :: !ByOwnAttempt(w.hist.completions[o]) ==> NotCounted(w, w.hist.completions[o].caller))
  }

  predicate ByOwnAttempt(c: Completion) {
    c.own.Some? && c.own.value.Confirmed?
  }

  ghost predicate TablesInv(w: World) {
    RowsInv(w) && CountInv(w) && IdsInv(w) && OrgInv(w)
  }

  ghost predicate FactsInv(w: World) {
    MarksInv(w) && StartsInv(w) && ReservationInv(w) && CompletionInv(w) && TokenInv(w)
  }

  ghost predicate WorldInv(w: World) {
    TablesInv(w) && FactsInv(w) && AttemptsInv(w)
  }

  // ---------- one call ----------

  ghost predicate NotAcquired(w: World, id: CallId) {
    forall o | o in w.store.organizations :: w.store.organizations[o].acquisition != Some(id)
  }

  ghost predicate NotConfirmed(w: World, id: CallId) {
    forall v :: id !in CallsOn(w.hist.confirmed, v)
  }

  ghost predicate NotCounted(w: World, id: CallId) {
    forall v :: id !in CallsOn(w.hist.counted, v)
  }

  ghost predicate NotBehind(w: World, id: CallId) {
    && (forall v | v in w.hist.marks :: w.hist.marks[v].caller != id)
    && (forall o | o in w.hist.completions :: w.hist.completions[o].caller != id)
  }

  ghost predicate Untouched(w: World, id: CallId) {
    NotAcquired(w, id) && NotConfirmed(w, id) && NotCounted(w, id) && NotBehind(w, id)
  }

  ghost predicate OwnSubject(w: World, p: Call) {
    IsSubject(w.hist, p.verification, p.input.claimant.user, p.input.claimant.email)
  }

  /** The call's verification is the claimant's, and its resource is the initiated one. */
  ghost predicate OwnVerification(w: World, p: Call) {
    OwnSubject(w, p) && w.hist.initiated[p.verification].resource == Some(p.resource)
  }

  ghost predicate ExistingInv(w: World, p: Call) {
    p.existing.Some? ==> p.input.claimant.email in w.owner && w.owner[p.input.claimant.email] == p.existing.value
  }

  ghost predicate ConsentInv(w: World, p: Call) {
    if p.Collision() then
      && p.consent.Some?
      && ConsentBy(w, p.consent.value, p.verification, p.input.claimant.user, p.input.claimant.email)
      && w.hist.approvals[p.consent.value].existingUser == p.existing.value
      && p.now < w.hist.approvals[p.consent.value].expiresAt
    else p.consent.None?
  }

  ghost predicate CountedCall(w: World, id: CallId, p: Call) {
    && OwnVerification(w, p) && !p.Collision() && p.consent.None? && !p.verified
    && NotAcquired(w, id)
    && id in CallsOn(w.hist.counted, p.verification)
  }

  ghost predicate ReconcilingCall(w: World, id: CallId, p: Call) {
    && OwnVerification(w, p) && !p.Collision() && NotAcquired(w, id) && NotCounted(w, id)
    && (p.Key(), p.verification) in w.hist.starts
  }

  ghost predicate Vouched(w: World, p: Call) {
    (p.input.claimant.user, p.input.claimant.email) in w.hist.vouched
  }

  /** A call at its transfer confirmed the code itself, or never counted. */
  ghost predicate Evidence(w: World, id: CallId, p: Call) {
    if p.consent.None? && !p.verified then id in CallsOn(w.hist.counted, p.verification) && Vouched(w, p)
    else NotCounted(w, id)
  }

  /** Before the verification is chosen. */
  predicate Early(pc: Pc) {
    pc.FindExisting? || pc.ReadReservation? || pc.ReleaseExpired? || pc.CheckMembers? || pc.ReadVerification?
  }

  predicate Reconciling(pc: Pc) {
    pc.AskProvider? || pc.ReadReserved? || pc.MarkReconciled? || pc.CompleteReconciled?
  }

  /** The verification is chosen, and nothing has been counted yet. */
  predicate Reserving(pc: Pc) {
    pc.Reserve? || pc.Admit? || pc.MarkFromConsent? || pc.CountAttempt?
  }

  /** The attempt is counted, and the provider's answer is still open or just in. */
  predicate Confirming(pc: Pc) {
    pc.MarkStarted? || pc.Confirm? || pc.AskAfterReject? || pc.MarkConfirmed?
  }

  predicate AfterVouching(pc: Pc) {
    pc.ReadReserved? || pc.MarkReconciled? || pc.CompleteReconciled? || pc.MarkConfirmed?
  }

  ghost predicate CallInv(w: World, id: CallId, p: Call) {
    && ExistingInv(w, p)
    && (Early(p.pc) ==> Untouched(w, id) && p.consent.None?)
    && (Reconciling(p.pc) ==> ReconcilingCall(w, id, p))
    && (AfterVouching(p.pc) ==> Vouched(w, p))
    && (p.pc.ReadConsent? ==> Untouched(w, id) && OwnVerification(w, p) && p.Collision())
    && (Reserving(p.pc) ==> Untouched(w, id) && OwnVerification(w, p) && ConsentInv(w, p))
    && (p.pc.MarkFromConsent? ==> p.Collision() && !p.verified)
    && (p.pc.CountAttempt? ==> !p.Collision() && !p.verified)
    && (Confirming(p.pc) ==> CountedCall(w, id, p))
    && (p.pc.MarkStarted? || p.pc.Confirm? ==> NotConfirmed(w, id))
    && (p.pc.Complete? ==> NotAcquired(w, id) && OwnVerification(w, p) && ConsentInv(w, p) && Evidence(w, id, p))
    && (p.pc.Mint? ==> ReplayOk(w, p.Key(), p.resource, p.now, p.seenExpiry))
  }

  ghost predicate Inv(w: World) {
    WorldInv(w) && forall id | id in w.calls :: CallInv(w, id, w.calls[id])
  }

  // ---------- monotone change ----------

  ghost predicate HistoryGrows(h: History, h': History) {
    && (forall v | v in h.initiated :: v in h'.initiated && h'.initiated[v] == h.initiated[v])
    && (forall c | c in h.approvals :: c in h'.approvals && h'.approvals[c] == h.approvals[c])
    && (forall o | o in h.completions :: o in h'.completions && h'.completions[o] == h.completions[o])
    && (forall v :: CallsOn(h.counted, v) <= CallsOn(h'.counted, v))
    && h.vouched <= h'.vouched
    && h.refused <= h'.refused
    && h.starts.Keys <= h'.starts.Keys
    && (forall v | v in h.marks :: v in h'.marks && h'.marks[v] == h.marks[v])
    && h.tokens <= h'.tokens
  }

  /** Only `actor` may gain attempts, confirmations, a mark, a transfer or an acquisition. */
  ghost predicate OnlyActor(w: World, w': World, actor: Option<CallId>) {
    && (forall v, i | Some(i) != actor && i in CallsOn(w'.hist.counted, v) :: i in CallsOn(w.hist.counted, v))
    && (forall v, i | Some(i) != actor && i in CallsOn(w'.hist.confirmed, v) :: i in CallsOn(w.hist.confirmed, v))
    && (forall v | v in w'.hist.marks && Some(w'.hist.marks[v].caller) != actor :: v in w.hist.marks)
    && (forall o | o in w'.hist.completions && Some(w'.hist.completions[o].caller) != actor :: o in w.hist.completions)
    && (forall o | o in w'.store.organizations && w'.store.organizations[o].acquisition.Some?
                   && w'.store.organizations[o].acquisition != actor ::
          o in w.store.organizations && w.store.organizations[o].acquisition == w'.store.organizations[o].acquisition)
  }

  ghost predicate Evolves(w: World, w': World, actor: Option<CallId>) {
    && (forall e | e in w.owner :: e in w'.owner && w'.owner[e] == w.owner[e])
    && HistoryGrows(w.hist, w'.hist)
    && OnlyActor(w, w', actor)
  }

  lemma MarkGrows(w: World, w': World, actor: Option<CallId>, v: VerificationId, m: Mark)
    requires Evolves(w, w', actor) && MarkOk(w, v, m)
    ensures MarkOk(w', v, m)
  {
    var subject := w.hist.initiated[v];
    if m.FromConsent? {
      assert ConsentBy(w', m.consent, v, subject.user, subject.email);
    }
  }

  /** Another actor's step never breaks this call's facts. */
  lemma CallStable(w: World, w': World, actor: Option<CallId>, id: CallId, p: Call)
    requires Evolves(w, w', actor) && Some(id) != actor
    requires CallInv(w, id, p)
    ensures CallInv(w', id, p)
  {
    UntouchedStable(w, w', actor, id);
    assert ExistingInv(w', p);
    assert OwnVerification(w, p) ==> OwnVerification(w', p);
    assert ConsentInv(w, p) ==> ConsentInv(w', p);
  }

  lemma UntouchedStable(w: World, w': World, actor: Option<CallId>, id: CallId)
    requires Evolves(w, w', actor) && Some(id) != actor
    ensures NotAcquired(w, id) ==> NotAcquired(w', id)
    ensures NotConfirmed(w, id) ==> NotConfirmed(w', id)
    ensures NotCounted(w, id) ==> NotCounted(w', id)
    ensures NotBehind(w, id) ==> NotBehind(w', id)
  {
    if NotAcquired(w, id) {
      forall o | o in w'.store.organizations ensures w'.store.organizations[o].acquisition != Some(id) {}
    }
  }
}
