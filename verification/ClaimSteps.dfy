/** Every effect a step can have keeps `WorldInv` and only grows the history. */
module ClaimSteps {
  import opened Wrappers
  import opened ClaimStore
  import opened ClaimCeremony
  import opened ClaimInvariant

  /** The invariant holds after the change, and the history only grew. */
  ghost predicate KeptBy(w: World, w': World, actor: Option<CallId>) {
    WorldInv(w') && Evolves(w, w', actor)
  }

  // ---------- what growth alone keeps ----------

  lemma CompletionGrows(w: World, w': World, actor: Option<CallId>, c: Completion)
    requires Evolves(w, w', actor) && CompletionOk(w, c)
    ensures CompletionOk(w', c)
  {
    if c.consent.None? && c.own.Some? {
      MarkGrows(w, w', actor, c.verification, c.own.value);
    }
  }

  lemma ReservationGrows(w: World, w': World, actor: Option<CallId>, k: ReservationKey, r: Reservation)
    requires Evolves(w, w', actor) && ReservationOk(w, k, r)
    ensures ReservationOk(w', k, r)
  {}

  /** The history half of `WorldInv` survives any growth that adds no completion and no token. */
  lemma PastGrows(w: World, w': World, actor: Option<CallId>)
    requires Evolves(w, w', actor) && CompletionInv(w) && TokenInv(w)
    requires w'.hist.completions == w.hist.completions && w'.hist.tokens == w.hist.tokens
    ensures CompletionInv(w') && TokenInv(w')
  {
    forall o | o in w'.hist.completions
      ensures w'.hist.completions[o].key.org == o && CompletionOk(w', w'.hist.completions[o])
    {
      CompletionGrows(w, w', actor, w.hist.completions[o]);
    }
  }

  /** No row is marked or unmarked; a new row is neither. */
  ghost predicate MarksStay(w: World, w': World) {
    && w'.hist.marks == w.hist.marks
    && forall v | v in w'.store.verifications ::
         if v in w.store.verifications then w'.store.verifications[v].verifiedAt == w.store.verifications[v].verifiedAt
         else w'.store.verifications[v].verifiedAt.None? && v !in w.hist.initiated
  }

  lemma MarksKept(w: World, w': World, actor: Option<CallId>)
    requires Evolves(w, w', actor) && MarksInv(w) && MarksStay(w, w')
    ensures MarksInv(w')
  {
    forall v | v in w'.hist.marks ensures MarkOk(w', v, w'.hist.marks[v]) {
      MarkGrows(w, w', actor, v, w.hist.marks[v]);
    }
  }

  lemma StartsKept(w: World, w': World, actor: Option<CallId>)
    requires Evolves(w, w', actor) && StartsInv(w) && w'.hist.starts == w.hist.starts
    ensures StartsInv(w')
  {}

  lemma AttemptsKept(w: World, w': World)
    requires AttemptsInv(w)
    requires w'.hist.counted == w.hist.counted && w'.hist.marks == w.hist.marks && w'.hist.completions == w.hist.completions
    ensures AttemptsInv(w')
  {}

  lemma ReservationsKept(w: World, w': World, actor: Option<CallId>)
    requires Evolves(w, w', actor) && ReservationInv(w)
    requires forall k | k in w'.store.reservations :: k in w.store.reservations && w.store.reservations[k] == w'.store.reservations[k]
    ensures ReservationInv(w')
  {
    forall k | k in w'.store.reservations ensures ReservationOk(w', k, w'.store.reservations[k]) {
      ReservationGrows(w, w', actor, k, w.store.reservations[k]);
    }
  }

  /** `FactsInv` survives growth that adds no completion and no token, marks no row and keeps or drops reservations. */
  lemma FactsGrow(w: World, w': World, actor: Option<CallId>)
    requires Evolves(w, w', actor) && FactsInv(w)
    requires w'.hist.completions == w.hist.completions && w'.hist.tokens == w.hist.tokens
    requires w'.hist.starts == w.hist.starts && MarksStay(w, w')
    requires forall k | k in w'.store.reservations :: k in w.store.reservations && w.store.reservations[k] == w'.store.reservations[k]
    ensures FactsInv(w')
  {
    PastGrows(w, w', actor);
    MarksKept(w, w', actor);
    StartsKept(w, w', actor);
    ReservationsKept(w, w', actor);
  }

  // ---------- changes that leave the claim facts alone ----------

  /** Rows may go, consents may be consumed, owners and provisional Orgs may appear. */
  ghost predicate QuietChange(w: World, w': World) {
    && w'.hist == w.hist && w'.calls == w.calls
    && (forall v | v in w'.store.verifications :: v in w.store.verifications && w'.store.verifications[v] == w.store.verifications[v])
    && (forall k | k in w'.store.reservations :: k in w.store.reservations && w.store.reservations[k] == w'.store.reservations[k])
    && (forall c | c in w'.store.consents :: c in w.store.consents && SameConsent(w.store.consents[c], w'.store.consents[c]))
    && (forall e | e in w.owner :: e in w'.owner && w'.owner[e] == w.owner[e])
    && (forall o | o in w'.store.organizations ::
          if o in w.store.organizations then w'.store.organizations[o] == w.store.organizations[o]
          else w'.store.organizations[o] == Organization(true, None) && o !in w.hist.completions)
  }

  ghost predicate SameConsent(c: Consent, d: Consent) {
    d == c.(consumedAt := d.consumedAt) && (c.consumedAt.Some? ==> d.consumedAt.Some?)
  }

  lemma QuietEvolves(w: World, w': World, actor: Option<CallId>)
    requires QuietChange(w, w')
    ensures Evolves(w, w', actor)
  {
  }

  lemma QuietTables(w: World, w': World)
    requires TablesInv(w) && QuietChange(w, w')
    ensures TablesInv(w')
  {
    assert RowsInv(w');
  }

  lemma QuietKeeps(w: World, w': World, actor: Option<CallId>)
    requires WorldInv(w) && QuietChange(w, w')
    ensures KeptBy(w, w', actor)
  {
    QuietEvolves(w, w', actor);
    QuietTables(w, w');
    FactsGrow(w, w', actor);
    AttemptsKept(w, w');
  }

  lemma NothingKeeps(w: World, actor: Option<CallId>)
    requires WorldInv(w)
    ensures KeptBy(w, w, actor)
  {
    QuietEvolves(w, w, actor);
  }

  lemma ReleaseKeeps(w: World, k: ReservationKey, actor: Option<CallId>)
    requires WorldInv(w)
    ensures KeptBy(w, w.(store := Release(w.store, k)), actor)
  {
    QuietKeeps(w, w.(store := Release(w.store, k)), actor);
  }

  // ---------- the effects of one call ----------

  lemma VouchKeeps(w: World, p: Call, actor: Option<CallId>)
    requires WorldInv(w)
    ensures KeptBy(w, Vouch(w, p), actor)
  {
    assert Evolves(w, Vouch(w, p), actor);
    assert TablesInv(Vouch(w, p));
    FactsGrow(w, Vouch(w, p), actor);
    AttemptsKept(w, Vouch(w, p));
  }

  lemma MarkVerifiedTables(w: World, v: VerificationId, now: int, m: Option<Mark>, id: CallId)
    requires TablesInv(w) && v in w.store.verifications && id in w.calls && (m.Some? ==> m.value.caller == id)
    ensures TablesInv(WithVerified(w, v, now, m)) && Evolves(w, WithVerified(w, v, now, m), Some(id))
  {
  }

  lemma MarkVerifiedMarks(w: World, v: VerificationId, now: int, m: Mark)
    requires MarksInv(w) && v in w.store.verifications && MarkOk(w, v, m)
    requires Evolves(w, WithVerified(w, v, now, Some(m)), Some(m.caller))
    ensures MarksInv(WithVerified(w, v, now, Some(m)))
  {
    var w' := WithVerified(w, v, now, Some(m));
    forall u | u in w'.hist.marks ensures MarkOk(w', u, w'.hist.marks[u]) {
      MarkGrows(w, w', Some(m.caller), u, if u in w.hist.marks then w.hist.marks[u] else m);
    }
  }

  lemma MarkVerifiedKeeps(w: World, v: VerificationId, now: int, m: Mark)
    requires WorldInv(w) && v in w.store.verifications && MarkOk(w, v, m) && m.caller in w.calls
    requires !m.Confirmed? ==> NotCounted(w, m.caller)
    ensures KeptBy(w, WithVerified(w, v, now, Some(m)), Some(m.caller))
  {
    var w' := WithVerified(w, v, now, Some(m));
    MarkVerifiedTables(w, v, now, Some(m), m.caller);
    PastGrows(w, w', Some(m.caller));
    ReservationsKept(w, w', Some(m.caller));
    MarkVerifiedMarks(w, v, now, m);
    StartsKept(w, w', Some(m.caller));
    MarkedOnce(w, v, now, m);
  }

  lemma MarkedOnce(w: World, v: VerificationId, now: int, m: Mark)
    requires AttemptsInv(w) && v in w.store.verifications && (!m.Confirmed? ==> NotCounted(w, m.caller))
    ensures AttemptsInv(WithVerified(w, v, now, Some(m)))
  {
    assert WithVerified(w, v, now, Some(m)).hist.counted == w.hist.counted;
  }

  lemma OfferConsentTables(w: World, c: ConsentId, v: VerificationId, existing: UserId, now: int, actor: Option<CallId>)
    requires TablesInv(w) && FreshConsent(w, c)
    ensures TablesInv(OfferConsent(w, c, v, existing, now)) && Evolves(w, OfferConsent(w, c, v, existing, now), actor)
  {
    assert RowsInv(OfferConsent(w, c, v, existing, now));
  }

  lemma OfferConsentKeeps(w: World, c: ConsentId, v: VerificationId, existing: UserId, now: int, actor: Option<CallId>)
    requires WorldInv(w) && FreshConsent(w, c)
    ensures KeptBy(w, OfferConsent(w, c, v, existing, now), actor)
  {
    OfferConsentTables(w, c, v, existing, now, actor);
    FactsGrow(w, OfferConsent(w, c, v, existing, now), actor);
    AttemptsKept(w, OfferConsent(w, c, v, existing, now));
  }

  function WithReservation(w: World, k: ReservationKey, r: Reservation): World {
    w.(store := w.store.(reservations := w.store.reservations[k := r]))
  }

  lemma ReserveTables(w: World, k: ReservationKey, r: Reservation, actor: Option<CallId>)
    requires TablesInv(w)
    ensures TablesInv(WithReservation(w, k, r)) && Evolves(w, WithReservation(w, k, r), actor)
  {
  }

  lemma ReserveKeeps(w: World, k: ReservationKey, r: Reservation, actor: Option<CallId>)
    requires WorldInv(w) && ReservationOk(w, k, r)
    ensures KeptBy(w, WithReservation(w, k, r), actor)
  {
    var w' := WithReservation(w, k, r);
    ReserveTables(w, k, r, actor);
    PastGrows(w, w', actor);
    MarksKept(w, w', actor);
    StartsKept(w, w', actor);
    AttemptsKept(w, w');
    forall j | j in w'.store.reservations ensures ReservationOk(w', j, w'.store.reservations[j]) {
      ReservationGrows(w, w', actor, j, w'.store.reservations[j]);
    }
  }

  lemma StartTables(w: World, id: CallId, k: ReservationKey, on: VerificationId, now: int)
    requires TablesInv(w) && k in w.store.reservations
    ensures TablesInv(WithStarted(w, id, k, on, now)) && Evolves(w, WithStarted(w, id, k, on, now), Some(id))
  {
  }

  /** A row marked started stands for the attempt its caller counted, whichever verification the row names. */
  lemma StartKeeps(w: World, id: CallId, k: ReservationKey, on: VerificationId, now: int)
    requires WorldInv(w) && k in w.store.reservations && w.store.reservations[k].completedAt.None?
    requires k.verifiedUser == k.user && id in CallsOn(w.hist.counted, on) && IsSubject(w.hist, on, k.user, k.email)
    ensures KeptBy(w, WithStarted(w, id, k, on, now), Some(id))
  {
    var w' := WithStarted(w, id, k, on, now);
    StartTables(w, id, k, on, now);
    PastGrows(w, w', Some(id));
    MarksKept(w, w', Some(id));
    AttemptsKept(w, w');
    StartedRows(w, id, k, on, now);
  }

  lemma StartedRows(w: World, id: CallId, k: ReservationKey, on: VerificationId, now: int)
    requires ReservationInv(w) && StartsInv(w) && k in w.store.reservations && w.store.reservations[k].completedAt.None?
    requires k.verifiedUser == k.user && id in CallsOn(w.hist.counted, on) && IsSubject(w.hist, on, k.user, k.email)
    requires Evolves(w, WithStarted(w, id, k, on, now), Some(id))
    ensures ReservationInv(WithStarted(w, id, k, on, now)) && StartsInv(WithStarted(w, id, k, on, now))
  {
    var w' := WithStarted(w, id, k, on, now);
    forall j | j in w'.store.reservations ensures ReservationOk(w', j, w'.store.reservations[j]) {
      ReservationGrows(w, w', Some(id), j, w.store.reservations[j]);
    }
  }

  function WithAttempt(w: World, id: CallId, v: VerificationId): World
    requires v in w.store.verifications
  {
    w.(store := ClaimStore.CountAttempt(w.store, v),
       hist := w.hist.(counted := w.hist.counted[v := CallsOn(w.hist.counted, v) + {id}]))
  }

  lemma AttemptCounts(w: World, id: CallId, v: VerificationId)
    requires v in w.store.verifications && w.store.verifications[v].attempts < MAX_OTP_ATTEMPTS
    requires CountInv(w) && NotCounted(w, id) && v in w.hist.initiated
    ensures CountInv(WithAttempt(w, id, v))
  {
    var w' := WithAttempt(w, id, v);
    assert |CallsOn(w'.hist.counted, v)| == |CallsOn(w.hist.counted, v)| + 1;
    forall u
      ensures |CallsOn(w'.hist.counted, u)| <= MAX_OTP_ATTEMPTS
      ensures CallsOn(w'.hist.confirmed, u) <= CallsOn(w'.hist.counted, u)
      ensures u !in w'.hist.initiated ==> CallsOn(w'.hist.counted, u) == {}
      ensures u in w'.store.verifications ==> |CallsOn(w'.hist.counted, u)| == w'.store.verifications[u].attempts
    {
      assert u != v ==> CallsOn(w'.hist.counted, u) == CallsOn(w.hist.counted, u);
      assert CallsOn(w'.hist.confirmed, u) <= CallsOn(w.hist.counted, u);
    }
  }

  lemma AttemptEvolves(w: World, id: CallId, v: VerificationId)
    requires v in w.store.verifications
    ensures Evolves(w, WithAttempt(w, id, v), Some(id))
  {
    var w' := WithAttempt(w, id, v);
    forall u ensures CallsOn(w'.hist.counted, u) == if u == v then CallsOn(w.hist.counted, v) + {id} else CallsOn(w.hist.counted, u) {}
  }

  lemma AttemptRows(w: World, id: CallId, v: VerificationId)
    requires RowsInv(w) && IdsInv(w) && OrgInv(w)
    requires id in w.calls && v in w.store.verifications
    ensures var w' := WithAttempt(w, id, v); RowsInv(w') && IdsInv(w') && OrgInv(w')
  {
    var w' := WithAttempt(w, id, v);
    forall u ensures CallsOn(w'.hist.counted, u) <= CallsOn(w.hist.counted, u) + {id} {}
  }

  lemma AttemptOnce(w: World, id: CallId, v: VerificationId)
    requires AttemptsInv(w) && NotCounted(w, id) && NotBehind(w, id) && v in w.store.verifications
    ensures AttemptsInv(WithAttempt(w, id, v))
  {
    var w' := WithAttempt(w, id, v);
    forall u ensures CallsOn(w'.hist.counted, u) == if u == v then CallsOn(w.hist.counted, v) + {id} else CallsOn(w.hist.counted, u) {}
  }

  lemma AttemptFacts(w: World, id: CallId, v: VerificationId)
    requires FactsInv(w) && v in w.store.verifications && Evolves(w, WithAttempt(w, id, v), Some(id))
    ensures FactsInv(WithAttempt(w, id, v))
  {
    FactsGrow(w, WithAttempt(w, id, v), Some(id));
  }

  lemma CountAttemptKeeps(w: World, id: CallId, v: VerificationId)
    requires WorldInv(w) && id in w.calls && NotCounted(w, id) && NotBehind(w, id)
    requires v in w.store.verifications && w.store.verifications[v].attempts < MAX_OTP_ATTEMPTS
    ensures KeptBy(w, WithAttempt(w, id, v), Some(id))
  {
    AttemptCounts(w, id, v);
    AttemptEvolves(w, id, v);
    AttemptRows(w, id, v);
    AttemptOnce(w, id, v);
    AttemptFacts(w, id, v);
  }

  lemma ConfirmEvolves(w: World, id: CallId, p: Call, ch: Choice)
    ensures Evolves(w, RunConfirm(w, id, p, ch).0, Some(id)) && (ch.accepted ==> Vouched(RunConfirm(w, id, p, ch).0, p))
  {
    var v := p.verification;
    var w' := RunConfirm(w, id, p, ch).0;
    forall u ensures CallsOn(w'.hist.confirmed, u) == if u == v then CallsOn(w.hist.confirmed, v) + {id} else CallsOn(w.hist.confirmed, u) {}
  }

  lemma ConfirmTables(w: World, id: CallId, p: Call, ch: Choice)
    requires TablesInv(w) && id in CallsOn(w.hist.counted, p.verification)
    ensures TablesInv(RunConfirm(w, id, p, ch).0)
  {
    var v := p.verification;
    var w' := RunConfirm(w, id, p, ch).0;
    forall u ensures CallsOn(w'.hist.confirmed, u) == if u == v then CallsOn(w.hist.confirmed, v) + {id} else CallsOn(w.hist.confirmed, u) {}
  }

  lemma ConfirmKeeps(w: World, id: CallId, p: Call, ch: Choice)
    requires WorldInv(w) && id in CallsOn(w.hist.counted, p.verification)
    ensures KeptBy(w, RunConfirm(w, id, p, ch).0, Some(id))
    ensures ch.accepted ==> Vouched(RunConfirm(w, id, p, ch).0, p)
  {
    ConfirmTables(w, id, p, ch);
    ConfirmEvolves(w, id, p, ch);
    FactsGrow(w, RunConfirm(w, id, p, ch).0, Some(id));
    AttemptsKept(w, RunConfirm(w, id, p, ch).0);
  }

  lemma MintTables(w: World, id: CallId, p: Call)
    requires TablesInv(w)
    ensures TablesInv(RunMint(w, p).0) && Evolves(w, RunMint(w, p).0, Some(id))
  {
  }

  lemma MintTokens(w: World, id: CallId, p: Call)
    requires TokenInv(w) && CompletionInv(w) && ReplayOk(w, p.Key(), p.resource, p.now, p.seenExpiry)
    ensures TokenInv(RunMint(w, p).0) && CompletionInv(RunMint(w, p).0)
  {
    var w' := RunMint(w, p).0;
    assert Evolves(w, w', Some(id));
    forall o | o in w'.hist.completions
      ensures w'.hist.completions[o].key.org == o && CompletionOk(w', w'.hist.completions[o])
    {
      CompletionGrows(w, w', Some(id), w.hist.completions[o]);
    }
  }

  lemma MintKeeps(w: World, id: CallId, p: Call)
    requires WorldInv(w) && ReplayOk(w, p.Key(), p.resource, p.now, p.seenExpiry)
    ensures KeptBy(w, RunMint(w, p).0, Some(id))
  {
    MintTables(w, id, p);
    MintTokens(w, id, p);
    MarksKept(w, RunMint(w, p).0, Some(id));
    StartsKept(w, RunMint(w, p).0, Some(id));
    AttemptsKept(w, RunMint(w, p).0);
    ReservationsKept(w, RunMint(w, p).0, Some(id));
  }

  // ---------- the transfer ----------

  /** A call that has not acquired yet changes nothing unless it acquires now. */
  lemma CompleteClaimShape(s: Store, t: Transfer)
    requires forall o | o in s.organizations :: s.organizations[o].acquisition != Some(t.token)
    ensures !CanAcquire(s, t) ==> CompleteClaim(s, t) == s
    ensures CanAcquire(s, t) ==>
      var s' := CompleteClaim(s, t);
      && s'.organizations == s.organizations[t.key.org := Organization(false, Some(t.token))]
      && s'.appOrg == s.appOrg
      && s'.verifications == s.verifications[t.verification := s.verifications[t.verification].(consumedAt := Some(t.now))]
      && s'.reservations == CompleteReservation(s, t).reservations
      && s'.consents.Keys == s.consents.Keys
      && (forall c | c in s.consents :: s'.consents[c] == s.consents[c] || s'.consents[c] == s.consents[c].(consumedAt := Some(t.now)))
      && s'.orgMembers == MoveOrgMembership(s.orgMembers, t.key.org, t.key.user, t.key.verifiedUser)
      && s'.appMembers == MoveAppMemberships(s.appMembers, s.appOrg, t.key.org, t.key.user, t.key.verifiedUser)
  {
    if CanAcquire(s, t) {
      assert Acquired(Acquire(s, t), t);
    }
  }

  /** The world just after call `id` acquired the Org. */
  function AfterAcquire(w: World, t: Transfer, own: Option<Mark>): World {
    w.(store := CompleteClaim(w.store, t),
       hist := w.hist.(completions := w.hist.completions[t.key.org := CompletionBy(t, own)]))
  }

  function CompletionBy(t: Transfer, own: Option<Mark>): Completion {
    Completion(t.key, t.verification, t.consent, t.now, t.token, own)
  }

  lemma AcquireEvolves(w: World, t: Transfer, own: Option<Mark>)
    requires WorldInv(w) && CanAcquire(w.store, t) && NotAcquired(w, t.token)
    ensures Evolves(w, AfterAcquire(w, t, own), Some(t.token))
    ensures t.key.org !in w.hist.completions
  {
    CompleteClaimShape(w.store, t);
  }

  lemma AcquireRows(w: World, t: Transfer, own: Option<Mark>)
    requires WorldInv(w) && CanAcquire(w.store, t) && NotAcquired(w, t.token)
    ensures RowsInv(AfterAcquire(w, t, own))
  {
    CompleteClaimShape(w.store, t);
  }

  lemma AcquireOrgs(w: World, t: Transfer, own: Option<Mark>)
    requires OrgInv(w) && CanAcquire(w.store, t) && NotAcquired(w, t.token)
    ensures OrgInv(AfterAcquire(w, t, own))
  {
    CompleteClaimShape(w.store, t);
  }

  lemma AcquireCounts(w: World, t: Transfer, own: Option<Mark>)
    requires WorldInv(w) && CanAcquire(w.store, t) && NotAcquired(w, t.token) && t.token in w.calls
    ensures var w' := AfterAcquire(w, t, own); CountInv(w') && IdsInv(w')
  {
    CompleteClaimShape(w.store, t);
    assert CountInv(AfterAcquire(w, t, own));
  }

  lemma AcquirePast(w: World, t: Transfer, own: Option<Mark>)
    requires WorldInv(w) && CanAcquire(w.store, t) && NotAcquired(w, t.token)
    requires CompletionOk(w, CompletionBy(t, own))
    ensures var w' := AfterAcquire(w, t, own); CompletionInv(w') && TokenInv(w')
  {
    AcquireEvolves(w, t, own);
    var w' := AfterAcquire(w, t, own);
    var done := CompletionBy(t, own);
    forall o | o in w'.hist.completions
      ensures w'.hist.completions[o].key.org == o && CompletionOk(w', w'.hist.completions[o])
    {
      CompletionGrows(w, w', Some(t.token), if o == t.key.org then done else w.hist.completions[o]);
    }
  }

  lemma AcquireReservations(w: World, t: Transfer, own: Option<Mark>)
    requires WorldInv(w) && CanAcquire(w.store, t) && NotAcquired(w, t.token)
    requires t.replayExpiresAt == t.now + COMPLETED_REPLAY_TTL_MS
    ensures ReservationInv(AfterAcquire(w, t, own))
  {
    AcquireEvolves(w, t, own);
    CompleteClaimShape(w.store, t);
    var w' := AfterAcquire(w, t, own);
    forall k | k in w'.store.reservations ensures ReservationOk(w', k, w'.store.reservations[k]) {
      ReservationGrows(w, w', Some(t.token), k, w.store.reservations[k]);
    }
  }

  lemma AcquireMarks(w: World, t: Transfer, own: Option<Mark>)
    requires WorldInv(w) && CanAcquire(w.store, t) && NotAcquired(w, t.token)
    ensures MarksInv(AfterAcquire(w, t, own)) && StartsInv(AfterAcquire(w, t, own))
  {
    AcquireEvolves(w, t, own);
    CompleteClaimShape(w.store, t);
    MarksKept(w, AfterAcquire(w, t, own), Some(t.token));
    StartsKept(w, AfterAcquire(w, t, own), Some(t.token));
  }

  lemma AcquireAttempts(w: World, t: Transfer, own: Option<Mark>)
    requires AttemptsInv(w) && (!ByOwnAttempt(CompletionBy(t, own)) ==> NotCounted(w, t.token))
    ensures AttemptsInv(AfterAcquire(w, t, own))
  {
    assert AfterAcquire(w, t, own).hist.counted == w.hist.counted;
  }

  /** The call's own mark, when it has one, is no consent's on a claimant's transfer, and holds. */
  ghost predicate OwnMark(w: World, id: CallId, p: Call, c: Option<ConsentId>) {
    var own := MarkBy(w, id, p);
    && (c.None? && own.Some? ==> !own.value.FromConsent? && own.value.caller == id && MarkOk(w, p.verification, own.value))
    && (own.None? || !own.value.Confirmed? ==> NotCounted(w, id))
  }

  lemma AcquireTables(w: World, t: Transfer, own: Option<Mark>)
    requires WorldInv(w) && CanAcquire(w.store, t) && NotAcquired(w, t.token) && t.token in w.calls
    ensures TablesInv(AfterAcquire(w, t, own))
  {
    AcquireRows(w, t, own);
    AcquireOrgs(w, t, own);
    AcquireCounts(w, t, own);
  }

  lemma AcquireFacts(w: World, t: Transfer, own: Option<Mark>)
    requires WorldInv(w) && CanAcquire(w.store, t) && NotAcquired(w, t.token)
    requires t.replayExpiresAt == t.now + COMPLETED_REPLAY_TTL_MS && CompletionOk(w, CompletionBy(t, own))
    ensures FactsInv(AfterAcquire(w, t, own))
  {
    AcquirePast(w, t, own);
    AcquireReservations(w, t, own);
    AcquireMarks(w, t, own);
  }

  lemma AcquireKeeps(w: World, t: Transfer, own: Option<Mark>)
    requires WorldInv(w) && CanAcquire(w.store, t) && NotAcquired(w, t.token) && t.token in w.calls
    requires t.replayExpiresAt == t.now + COMPLETED_REPLAY_TTL_MS
    requires CompletionOk(w, CompletionBy(t, own)) && (!ByOwnAttempt(CompletionBy(t, own)) ==> NotCounted(w, t.token))
    ensures KeptBy(w, AfterAcquire(w, t, own), Some(t.token))
  {
    AcquireEvolves(w, t, own);
    AcquireTables(w, t, own);
    AcquireFacts(w, t, own);
    AcquireAttempts(w, t, own);
  }

  lemma TransferIsCompletion(w: World, id: CallId, p: Call, c: Option<ConsentId>)
    requires MarksInv(w) && OwnVerification(w, p) && OwnMark(w, id, p, c) && CanAcquire(w.store, p.TransferBy(id, c))
    requires if c.None? then !p.Collision() else ConsentHolds(w, p, c.value)
    ensures CompletionOk(w, CompletionBy(p.TransferBy(id, c), MarkBy(w, id, p)))
  {}

  ghost predicate ConsentHolds(w: World, p: Call, c: ConsentId) {
    && p.Collision()
    && ConsentBy(w, c, p.verification, p.input.claimant.user, p.input.claimant.email)
    && w.hist.approvals[c].existingUser == p.existing.value
    && p.now < w.hist.approvals[c].expiresAt
  }

  lemma CompleteKeeps(w: World, id: CallId, p: Call, c: Option<ConsentId>, otherwise: Pc)
    requires WorldInv(w) && id in w.calls && NotAcquired(w, id)
    requires OwnVerification(w, p) && OwnMark(w, id, p, c)
    requires if c.None? then !p.Collision() else ConsentHolds(w, p, c.value)
    ensures KeptBy(w, RunComplete(w, id, p, c, otherwise).0, Some(id))
  {
    var t := p.TransferBy(id, c);
    if CanAcquire(w.store, t) {
      assert RunComplete(w, id, p, c, otherwise).0 == AfterAcquire(w, t, MarkBy(w, id, p));
      TransferIsCompletion(w, id, p, c);
      AcquireKeeps(w, t, MarkBy(w, id, p));
    } else {
      CompleteClaimShape(w.store, t);
      NothingKeeps(w, Some(id));
      assert RunComplete(w, id, p, c, otherwise).0 == w;
    }
  }

  // ---------- the environment ----------

  lemma EnvironmentKeeps(w: World, s: Step)
    requires WorldInv(w)
    ensures KeptBy(w, ApplyEnvironment(w, s), None)
  {
    NothingKeeps(w, None);
    if s.Initiate? || s.Offer? || s.Approve? || s.Refuse? {
      CeremonyKeeps(w, s);
    } else if !(s.Start? || s.Run? || s.LoseReply? || s.Throw? || s.Crash?) {
      OtherEnvironmentQuiet(w, s);
      QuietKeeps(w, ApplyEnvironment(w, s), None);
    }
  }

  lemma CeremonyKeeps(w: World, s: Step)
    requires WorldInv(w) && (s.Initiate? || s.Offer? || s.Approve? || s.Refuse?)
    ensures KeptBy(w, ApplyEnvironment(w, s), None)
  {
    NothingKeeps(w, None);
    match s
    case Initiate(v, user, email, resource, now) =>
      if v !in w.store.verifications && v !in w.hist.initiated {
        InitiateKeeps(w, v, user, email, resource, now);
      }
    case Offer(c, v, existing, now) =>
      if FreshConsent(w, c) {
        OfferConsentKeeps(w, c, v, existing, now, None);
      }
    case Approve(c, user, now) =>
      if OpenConsent(w.store, c, user, now) {
        ApproveKeeps(w, c, user, now);
      }
    case Refuse(c, user, now) =>
      if OpenConsent(w.store, c, user, now) {
        RefuseKeeps(w, c, user, now);
      }
  }

  lemma InitiateTables(w: World, v: VerificationId, user: UserId, email: Email, resource: Option<Resource>, now: int)
    requires TablesInv(w) && v !in w.hist.initiated
    ensures var w' := WithVerification(w, v, user, email, resource, now);
            TablesInv(w') && Evolves(w, w', None)
  {
    assert CallsOn(w.hist.counted, v) == {};
  }

  lemma InitiateKeeps(w: World, v: VerificationId, user: UserId, email: Email, resource: Option<Resource>, now: int)
    requires WorldInv(w) && v !in w.hist.initiated
    ensures KeptBy(w, WithVerification(w, v, user, email, resource, now), None)
  {
    InitiateTables(w, v, user, email, resource, now);
    FactsGrow(w, WithVerification(w, v, user, email, resource, now), None);
    AttemptsKept(w, WithVerification(w, v, user, email, resource, now));
  }

  lemma ApproveTables(w: World, c: ConsentId, user: UserId, now: int)
    requires TablesInv(w) && OpenConsent(w.store, c, user, now)
    ensures TablesInv(WithApproval(w, c, now)) && Evolves(w, WithApproval(w, c, now), None)
  {
    assert c !in w.hist.approvals;
    assert RowsInv(WithApproval(w, c, now));
  }

  lemma ApproveKeeps(w: World, c: ConsentId, user: UserId, now: int)
    requires WorldInv(w) && OpenConsent(w.store, c, user, now)
    ensures KeptBy(w, WithApproval(w, c, now), None)
  {
    ApproveTables(w, c, user, now);
    FactsGrow(w, WithApproval(w, c, now), None);
    AttemptsKept(w, WithApproval(w, c, now));
  }

  lemma RefuseTables(w: World, c: ConsentId, user: UserId, now: int)
    requires TablesInv(w) && OpenConsent(w.store, c, user, now)
    ensures TablesInv(WithRefusal(w, c, now)) && Evolves(w, WithRefusal(w, c, now), None)
  {
    assert c !in w.hist.approvals;
    assert RowsInv(WithRefusal(w, c, now));
  }

  lemma RefuseKeeps(w: World, c: ConsentId, user: UserId, now: int)
    requires WorldInv(w) && OpenConsent(w.store, c, user, now)
    ensures KeptBy(w, WithRefusal(w, c, now), None)
  {
    RefuseTables(w, c, user, now);
    FactsGrow(w, WithRefusal(w, c, now), None);
    AttemptsKept(w, WithRefusal(w, c, now));
  }

  lemma OtherEnvironmentQuiet(w: World, s: Step)
    requires !(s.Initiate? || s.Offer? || s.Approve? || s.Refuse?)
    ensures QuietChange(w, ApplyEnvironment(w, s))
  {
  }
}
