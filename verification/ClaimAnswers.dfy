/**
 What a lone `verifyClaim` call answers when the email is another user's, and when a claim is not
 open to it: the counterpart of `OpenClaimAnswers`, from the tables before to the tables after.

 A proof walks the call one awaited call at a time; `Leads` says that running on from one point is
 running on from the next.
 */
module ClaimAnswers {
  import opened Wrappers
  import opened ClaimStore
  import opened ClaimCeremony
  import opened ClaimSteps
  import opened ClaimTransfer
  import opened ClaimRecovery

  // ---------- walking ----------

  ghost predicate Leads(w: World, id: CallId, p: Call, choices: seq<Choice>, w': World, q: Call, rest: seq<Choice>) {
    Alone(Put(w, id, p), id, choices) == Alone(Put(w', id, q), id, rest)
  }

  /** Nothing but the tables, and what the history remembers, moved since. */
  predicate Later(w: World, w': World) {
    w'.owner == w.owner && w'.clock == w.clock
  }

  /** Every step gets the same choices: the limiter's verdict, the verification and the consent a read returns. */
  predicate Given(choices: seq<Choice>, admitted: bool, v: VerificationId, c: ConsentId) {
    forall i :: 0 <= i < |choices| ==> choices[i].admitted == admitted && choices[i].verification == v && choices[i].consent == c
  }

  lemma GivenRest(choices: seq<Choice>, admitted: bool, v: VerificationId, c: ConsentId)
    requires choices != [] && Given(choices, admitted, v, c)
    ensures Given(choices[1..], admitted, v, c)
  {}

  /** One awaited call that only reads. */
  lemma Reads(w: World, id: CallId, p: Call, choices: seq<Choice>, q: Call)
    requires choices != [] && Observes(p.pc) && Observe(Put(w, id, p), p, choices[0]) == q
    ensures Leads(w, id, p, choices, Put(w, id, p), q, choices[1..])
  {
    AloneStep(w, id, p, choices, (Put(w, id, p), q));
  }

  /** One awaited call that writes. */
  lemma Writes(w: World, id: CallId, p: Call, choices: seq<Choice>, w': World, q: Call)
    requires choices != [] && !Observes(p.pc) && !p.pc.Finished? && Act(Put(w, id, p), id, p, choices[0]) == (w', q)
    ensures Leads(w, id, p, choices, w', q, choices[1..])
  {
    AloneStep(w, id, p, choices, (w', q));
  }

  /** A finished call stays as it is. */
  lemma Ends(w: World, id: CallId, p: Call, choices: seq<Choice>)
    requires p.pc.Finished?
    ensures Alone(Put(w, id, p), id, choices) == Put(w, id, p)
  {
    FinishedStays(Put(w, id, p), id, choices);
  }

  /** What names a claim does not depend on how far the call is. */
  lemma SameClaim(p: Call, q: Call)
    requires q.input == p.input && q.existing == p.existing
    ensures q.Key() == p.Key() && q.VerifiedUser() == p.VerifiedUser() && (q.Collision() <==> p.Collision())
  {}

  // ---------- on the way in ----------

  /** The call once it knows who owns the email. */
  function Found(w: World, input: Input): Call {
    RunFindExisting(w, Begin(input, w.clock)).(pc := CheckMembers)
  }

  /** No reservation of the key is in its lease or its replay window. */
  predicate Lapsed(s: Store, k: ReservationKey, now: int) {
    k in s.reservations ==> s.reservations[k].expiresAt <= now && s.reservations[k].completedAt.None?
  }

  /** A lapsed reservation is dropped on the way in. */
  function Cleared(s: Store, k: ReservationKey): Store {
    s.(reservations := s.reservations - {k})
  }

  lemma ClearedIs(s: Store, k: ReservationKey)
    ensures k !in s.reservations ==> Cleared(s, k) == s
  {
    if k !in s.reservations {
      assert s.reservations - {k} == s.reservations;
    }
  }

  lemma ToMembers(w: World, id: CallId, input: Input, choices: seq<Choice>, v: VerificationId, c: ConsentId, admitted: bool)
    returns (w1: World, rest: seq<Choice>)
    requires id !in w.calls && |choices| >= 3 && Given(choices, admitted, v, c)
    requires Lapsed(w.store, Found(w, input).Key(), w.clock)
    ensures Alone(Apply(w, Start(id, input)), id, choices) == Alone(Put(w1, id, Found(w, input)), id, rest)
    ensures |rest| >= |choices| - 3 && Given(rest, admitted, v, c)
    ensures Later(w, w1) && w1.hist == w.hist && w1.store == Cleared(w.store, Found(w, input).Key())
  {
    var p := Begin(input, w.clock);
    var p1 := RunFindExisting(w, p);
    StartIsPut(w, id, input);
    Reads(w, id, p, choices, p1);
    GivenRest(choices, admitted, v, c);
    w1, rest := PastReservation(Put(w, id, p), id, p1, choices[1..], v, c, admitted);
  }

  lemma PastReservation(w: World, id: CallId, p: Call, choices: seq<Choice>, v: VerificationId, c: ConsentId, admitted: bool)
    returns (w1: World, rest: seq<Choice>)
    requires p.pc.ReadReservation? && |choices| >= 2 && Given(choices, admitted, v, c)
    requires Lapsed(w.store, p.Key(), p.now)
    ensures Leads(w, id, p, choices, w1, p.(pc := CheckMembers), rest)
    ensures |rest| >= |choices| - 2 && Given(rest, admitted, v, c)
    ensures Later(w, w1) && w1.hist == w.hist && w1.store == Cleared(w.store, p.Key())
  {
    GivenRest(choices, admitted, v, c);
    if p.Key() in w.store.reservations {
      var q := p.(pc := ReleaseExpired);
      assert q.Key() == p.Key();
      Reads(w, id, p, choices, q);
      w1 := Put(w, id, p).(store := Release(w.store, p.Key()));
      Writes(Put(w, id, p), id, q, choices[1..], w1.(calls := Put(Put(w, id, p), id, q).calls), p.(pc := CheckMembers));
      w1 := w1.(calls := Put(Put(w, id, p), id, q).calls);
      rest := choices[1..][1..];
      GivenRest(choices[1..], admitted, v, c);
    } else {
      ClearedIs(w.store, p.Key());
      Reads(w, id, p, choices, p.(pc := CheckMembers));
      w1, rest := Put(w, id, p), choices[1..];
    }
  }

  // ---------- choosing the verification ----------

  predicate Member(s: Store, c: Claimant) {
    (c.org, c.user) in s.orgMembers && (c.app, c.user) in s.appMembers
  }

  /** The verification this call would use is live, and the claimant's. */
  predicate Usable(s: Store, p: Call, v: VerificationId) {
    LiveVerification(s, v, p.input.claimant.user, p.input.claimant.email, p.now)
  }

  predicate Matches(p: Call, s: Store, v: VerificationId, audience: Resource) {
    && v in s.verifications && s.verifications[v].resource == Some(audience)
    && (p.input.resource.None? || p.input.resource.value == audience)
  }

  /** The call with its verification chosen. */
  function Chose(w: World, p: Call, v: VerificationId, audience: Resource): Call
    requires v in w.store.verifications
  {
    p.(verification := v, resource := audience, verified := w.store.verifications[v].verifiedAt.Some?,
       pc := if p.Collision() then ReadConsent else Reserve)
  }

  lemma ToChosen(w: World, id: CallId, p: Call, choices: seq<Choice>, v: VerificationId, c: ConsentId, admitted: bool, audience: Resource)
    returns (w1: World, rest: seq<Choice>)
    requires p.pc.CheckMembers? && |choices| >= 2 && Given(choices, admitted, v, c)
    requires Member(w.store, p.input.claimant) && Picks(w, p, v) && Usable(w.store, p, v) && Matches(p, w.store, v, audience)
    ensures Leads(w, id, p, choices, w1, Chose(w, p, v, audience), rest)
    ensures |rest| == |choices| - 2 && Given(rest, admitted, v, c)
    ensures Later(w, w1) && w1.hist == w.hist && w1.store == w.store
  {
    var q := p.(pc := ReadVerification);
    Reads(w, id, p, choices, q);
    GivenRest(choices, admitted, v, c);
    assert Accept(Put(Put(w, id, p), id, q), q, v) == Chose(w, p, v, audience);
    Reads(Put(w, id, p), id, q, choices[1..], Chose(w, p, v, audience));
    GivenRest(choices[1..], admitted, v, c);
    w1, rest := Put(Put(w, id, p), id, q), choices[1..][1..];
  }

  // ---------- with a consent ----------

  /** The row a consented call reserves under its key. */
  function RowOf(p: Call): Reservation {
    Reservation(p.verification, Some(p.resource), None, None, p.now + IN_FLIGHT_LEASE_MS)
  }

  function WithRow(s: Store, p: Call): Store {
    s.(reservations := s.reservations[p.Key() := RowOf(p)])
  }

  lemma ToAdmit(w: World, id: CallId, p: Call, choices: seq<Choice>, v: VerificationId, c: ConsentId, admitted: bool)
    returns (w1: World, rest: seq<Choice>)
    requires p.pc.Reserve? && choices != [] && Given(choices, admitted, v, c)
    requires p.Key() !in w.store.reservations && p.verification in w.store.verifications
    ensures Leads(w, id, p, choices, w1, p.(reserved := true, pc := Admit), rest)
    ensures |rest| == |choices| - 1 && Given(rest, admitted, v, c)
    ensures Later(w, w1) && w1.hist == w.hist && w1.store == WithRow(w.store, p)
  {
    w1 := Put(w, id, p).(store := WithRow(w.store, p));
    rest := choices[1..];
    Writes(w, id, p, choices, w1, p.(reserved := true, pc := Admit));
    GivenRest(choices, admitted, v, c);
  }

  lemma ToReserve(w: World, id: CallId, p: Call, choices: seq<Choice>, v: VerificationId, c: ConsentId, admitted: bool)
    returns (w1: World, rest: seq<Choice>)
    requires p.pc.ReadConsent? && p.Collision() && choices != [] && Given(choices, admitted, v, c)
    requires IsApprovedConsent(w.store, c, p.verification, p.existing.value, p.now)
    ensures Leads(w, id, p, choices, w1, p.(consent := Some(c), pc := Reserve), rest)
    ensures |rest| == |choices| - 1 && Given(rest, admitted, v, c)
    ensures Later(w, w1) && w1.hist == w.hist && w1.store == w.store
  {
    w1, rest := Put(w, id, p), choices[1..];
    Reads(w, id, p, choices, p.(consent := Some(c), pc := Reserve));
    GivenRest(choices, admitted, v, c);
  }

  /** `verified_at` set, now if it was not set before. */
  function Marked(s: Store, v: VerificationId, now: int): Store
    requires v in s.verifications
  {
    MarkVerified(s, v, now)
  }

  lemma ToComplete(w: World, id: CallId, p: Call, choices: seq<Choice>, v: VerificationId, c: ConsentId)
    returns (w1: World, rest: seq<Choice>)
    requires p.pc.Admit? && p.Collision() && |choices| >= 2 && Given(choices, true, v, c)
    requires p.consent == Some(c) && LiveConsent(w.store, c, p.verification, p.now) && LiveFor(w, p)
    requires p.verified == w.store.verifications[p.verification].verifiedAt.Some?
    ensures Leads(w, id, p, choices, w1, p.(pc := Complete), rest)
    ensures |rest| >= |choices| - 2
    ensures Later(w, w1) && w1.store == Marked(w.store, p.verification, p.now)
  {
    GivenRest(choices, true, v, c);
    if p.verified {
      MarkedAlready(w.store, p.verification, p.now);
      Reads(w, id, p, choices, p.(pc := Complete));
      w1, rest := Put(w, id, p), choices[1..];
    } else {
      var q := p.(pc := MarkFromConsent);
      Reads(w, id, p, choices, q);
      w1 := ConsentMarks(Put(w, id, p), id, q, choices[1..], c);
      rest := choices[1..][1..];
    }
  }

  lemma MarkedAlready(s: Store, v: VerificationId, now: int)
    requires v in s.verifications && s.verifications[v].verifiedAt.Some?
    ensures Marked(s, v, now) == s
  {
    var row := s.verifications[v];
    assert row == row.(verifiedAt := row.verifiedAt);
    assert s.verifications[v := row] == s.verifications;
  }

  lemma ConsentMarks(w: World, id: CallId, p: Call, choices: seq<Choice>, c: ConsentId) returns (w1: World)
    requires p.pc.MarkFromConsent? && choices != []
    requires p.consent == Some(c) && LiveConsent(w.store, c, p.verification, p.now) && LiveFor(w, p)
    requires w.store.verifications[p.verification].verifiedAt.None?
    ensures Leads(w, id, p, choices, w1, p.(pc := Complete), choices[1..])
    ensures Later(w, w1) && w1.store == Marked(w.store, p.verification, p.now)
  {
    w1 := WithVerified(Put(w, id, p), p.verification, p.now, MarkBy(Put(w, id, p), id, p));
    Writes(w, id, p, choices, w1, p.(pc := Complete));
  }

  /** The batch completes the call's own row. */
  lemma BatchCompletesTheRow(s: Store, id: CallId, p: Call)
    requires CanAcquire(s, p.TransferBy(id, p.consent)) && FreshToken(s, id)
    requires p.Key() in s.reservations && s.reservations[p.Key()] == RowOf(p)
    ensures var s' := CompleteClaim(s, p.TransferBy(id, p.consent));
      && s'.reservations == s.reservations[p.Key() := DoneRow(p)]
      && CompletedLive(s', p.Key(), p.now)
  {
    CompleteClaimShape(s, p.TransferBy(id, p.consent));
  }

  function DoneRow(p: Call): Reservation {
    Reservation(p.verification, Some(p.resource), Some(p.now), None, p.now + COMPLETED_REPLAY_TTL_MS)
  }

  lemma BatchActs(w: World, id: CallId, p: Call, ch: Choice) returns (w1: World)
    requires p.pc.Complete? && CanAcquire(w.store, p.TransferBy(id, p.consent))
    ensures Act(Put(w, id, p), id, p, ch) == (w1, p.(pc := ReadReplay))
    ensures w1.store == CompleteClaim(w.store, p.TransferBy(id, p.consent))
  {
    w1 := RunComplete(Put(w, id, p), id, p, p.consent, ReadCompleted).0;
  }

  lemma ToToken(w: World, id: CallId, p: Call, choices: seq<Choice>)
    requires p.pc.Complete? && |choices| >= 3 && CanAcquire(w.store, p.TransferBy(id, p.consent)) && FreshToken(w.store, id)
    requires p.Key() in w.store.reservations && w.store.reservations[p.Key()] == RowOf(p)
    requires p.input.resource.None? || p.input.resource.value == p.resource
    ensures var w' := Alone(Put(w, id, p), id, choices);
      AnswersToken(w', id, p.resource) && w'.store == CompleteClaim(w.store, p.TransferBy(id, p.consent))
      && id in w'.calls && w'.calls[id].VerifiedUser() == p.VerifiedUser()
  {
    BatchCompletesTheRow(w.store, id, p);
    var w1 := BatchActs(w, id, p, choices[0]);
    var q := p.(pc := ReadReplay);
    Writes(w, id, p, choices, w1, q);
    assert q.Key() == p.Key() && q.VerifiedUser() == p.VerifiedUser();
    ReadClaimReplays(w1, id, q, p.resource, choices[1..]);
  }

  // ---------- refusals ----------

  /** The call ended with this code and left these tables. */
  ghost predicate Refuses(w: World, id: CallId, code: OAuthCode, s: Store) {
    id in w.calls && w.calls[id].pc == Finished(Failed(code)) && w.store == s
  }

  /** A read that fails before anything is reserved. */
  lemma ReadFails(w: World, id: CallId, p: Call, choices: seq<Choice>, q: Call, code: OAuthCode)
    requires choices != [] && Observes(p.pc) && Observe(Put(w, id, p), p, choices[0]) == q
    requires q.pc == Finished(Failed(code))
    ensures Refuses(Alone(Put(w, id, p), id, choices), id, code, w.store)
  {
    Reads(w, id, p, choices, q);
    Ends(Put(w, id, p), id, q, choices[1..]);
  }

  /** A failure while the call's own row is reserved frees the key. */
  lemma ReleaseFrees(w: World, id: CallId, p: Call, choices: seq<Choice>)
    requires p.pc.ReleaseAfterFault? && choices != []
    requires p.Key() in w.store.reservations && w.store.reservations[p.Key()].completedAt.None?
    ensures Refuses(Alone(Put(w, id, p), id, choices), id, p.pending, Cleared(w.store, p.Key()))
  {
    var w1 := Put(w, id, p).(store := Release(w.store, p.Key()));
    var q := p.(pc := Finished(Failed(p.pending)));
    Writes(w, id, p, choices, w1, q);
    Ends(w1, id, q, choices[1..]);
  }

  lemma ClearedTwice(s: Store, k: ReservationKey, r: Reservation)
    ensures Cleared(Cleared(s, k).(reservations := Cleared(s, k).reservations[k := r]), k) == Cleared(s, k)
  {
    assert (s.reservations - {k})[k := r] - {k} == s.reservations - {k};
  }

  // ---------- another user's email ----------

  /** The email belongs to `owner`, who is not the claimant. */
  predicate Collides(w: World, input: Input, owner: UserId) {
    && input.claimant.email in w.owner && w.owner[input.claimant.email] == owner
    && owner != input.claimant.user
  }

  /** The claim is open to a call for another user's email. */
  ghost predicate OpenToOwner(w: World, id: CallId, input: Input, v: VerificationId, audience: Resource, owner: UserId) {
    var p := Found(w, input);
    && Collides(w, input, owner)
    && Lapsed(w.store, p.Key(), w.clock) && Picks(w, p, v)
    && Usable(w.store, p, v) && Matches(p, w.store, v, audience)
    && input.claimant.org in w.store.organizations
    && w.store.organizations[input.claimant.org] == Organization(true, None)
    && ClaimantIsMember(w.store, input.claimant.org, input.claimant.app, input.claimant.user)
    && FreshToken(w.store, id)
  }

  function OwnerKey(input: Input, owner: UserId): ReservationKey {
    var c := input.claimant;
    ReservationKey(input.key, c.user, c.email, c.org, c.app, owner)
  }

  /** All the tables once the Org went to the owner. */
  ghost predicate WentToOwner(s: Store, s': Store, id: CallId, input: Input, v: VerificationId, c: ConsentId,
                              audience: Resource, owner: UserId, now: int)
    requires v in s.verifications && c in s.consents
  {
    var k, claimant := OwnerKey(input, owner), input.claimant;
    var row := s.verifications[v];
    && s'.organizations == s.organizations[claimant.org := Organization(false, Some(id))]
    && s'.reservations == (s.reservations - {k})[k := Reservation(v, Some(audience), Some(now), None, now + COMPLETED_REPLAY_TTL_MS)]
    && s'.verifications == s.verifications[v :=
         row.(verifiedAt := if row.verifiedAt.Some? then row.verifiedAt else Some(now), consumedAt := Some(now))]
    && s'.consents == s.consents[c := s.consents[c].(consumedAt := Some(now))]
    && s'.appOrg == s.appOrg
    && s'.orgMembers == s.orgMembers - {(claimant.org, claimant.user)} + {(claimant.org, owner)}
    && forall m :: m in s'.appMembers <==>
         if m.0 in s.appOrg && s.appOrg[m.0] == claimant.org then
           m.1 != claimant.user && (m in s.appMembers || (m.1 == owner && (m.0, claimant.user) in s.appMembers))
         else m in s.appMembers
  }

  lemma BatchGoesToOwner(s: Store, t: Transfer, c: ConsentId)
    requires CanAcquire(s, t) && FreshToken(s, t.token) && t.consent == Some(c) && t.key.verifiedUser != t.key.user
    ensures var s' := CompleteClaim(s, t);
      && s'.consents == s.consents[c := s.consents[c].(consumedAt := Some(t.now))]
      && s'.orgMembers == s.orgMembers - {(t.key.org, t.key.user)} + {(t.key.org, t.key.verifiedUser)}
  {
    CompleteClaimShape(s, t);
    assert Acquired(Acquire(s, t), t);
  }

  /** The verification and the consent that a call for another user's email works with. */
  function Consenting(w: World, input: Input, v: VerificationId, audience: Resource, c: ConsentId): Call
    requires v in w.store.verifications
  {
    Chose(w, Found(w, input), v, audience).(consent := Some(c), pc := Reserve)
  }

  /**
   With the owner's live approved consent a claim for another user's email ends in a token for that
   user, and the Org, its memberships, the consent and the verification are theirs, spent and done.
   */
  lemma ConsentedClaimGoesToOwner(w: World, id: CallId, input: Input, v: VerificationId, audience: Resource,
                                  owner: UserId, c: ConsentId, choices: seq<Choice>)
    requires id !in w.calls && OpenToOwner(w, id, input, v, audience, owner)
    requires IsApprovedConsent(w.store, c, v, owner, w.clock)
    requires |choices| >= 12 && Given(choices, true, v, c)
    ensures var w' := Alone(Apply(w, Start(id, input)), id, choices);
      && AnswersToken(w', id, audience) && w'.calls[id].VerifiedUser() == owner
      && WentToOwner(w.store, w'.store, id, input, v, c, audience, owner, w.clock)
  {
    var k := OwnerKey(input, owner);
    assert Found(w, input).Key() == k;
    var w1, r1 := ToMembers(w, id, input, choices, v, c, true);
    var w2, r2 := ToChosen(w1, id, Found(w, input), r1, v, c, true, audience);
    var p := Chose(w1, Found(w, input), v, audience);
    assert p == Chose(w, Found(w, input), v, audience);
    var w3, r3 := ToReserve(w2, id, p, r2, v, c, true);
    var q := Consenting(w, input, v, audience, c);
    SameClaim(Found(w, input), q);
    OwnersTables(w3.store, Marked(WithRow(w3.store, q), v, q.now), id, q, c);
    ReservedClaimTransfers(w3, id, q, r3, c);
    ClearedGoes(w.store, k, id, input, v, c, audience, owner, w.clock, Alone(Put(w3, id, q), id, r3).store);
  }

  /** Dropping the key's old row first makes no difference. */
  lemma ClearedGoes(s: Store, k: ReservationKey, id: CallId, input: Input, v: VerificationId, c: ConsentId,
                    audience: Resource, owner: UserId, now: int, s': Store)
    requires v in s.verifications && c in s.consents && k == OwnerKey(input, owner)
    requires WentToOwner(Cleared(s, k), s', id, input, v, c, audience, owner, now)
    ensures WentToOwner(s, s', id, input, v, c, audience, owner, now)
  {
    assert s.reservations - {k} - {k} == s.reservations - {k};
  }

  lemma ReservedClaimTransfers(w: World, id: CallId, p: Call, choices: seq<Choice>, c: ConsentId)
    requires p.pc.Reserve? && p.Collision() && p.Key() !in w.store.reservations
    requires |choices| >= 6 && Given(choices, true, p.verification, c)
    requires p.consent == Some(c) && LiveConsent(w.store, c, p.verification, p.now) && LiveFor(w, p)
    requires p.verified == w.store.verifications[p.verification].verifiedAt.Some?
    requires p.input.resource.None? || p.input.resource.value == p.resource
    requires var s := Marked(WithRow(w.store, p), p.verification, p.now);
      CanAcquire(s, p.TransferBy(id, Some(c))) && FreshToken(s, id)
    ensures var w' := Alone(Put(w, id, p), id, choices);
      && AnswersToken(w', id, p.resource) && w'.calls[id].VerifiedUser() == p.VerifiedUser()
      && w'.store == CompleteClaim(Marked(WithRow(w.store, p), p.verification, p.now), p.TransferBy(id, Some(c)))
  {
    var w1, r1 := ToAdmit(w, id, p, choices, p.verification, c, true);
    var q := p.(reserved := true, pc := Admit);
    SameClaim(p, q);
    assert q.TransferBy(id, Some(c)) == p.TransferBy(id, Some(c)) && RowOf(q) == RowOf(p);
    AdmittedClaimTransfers(w1, id, q, r1, c);
  }

  lemma AdmittedClaimTransfers(w: World, id: CallId, p: Call, choices: seq<Choice>, c: ConsentId)
    requires p.pc.Admit? && p.Collision() && |choices| >= 5 && Given(choices, true, p.verification, c)
    requires p.consent == Some(c) && LiveConsent(w.store, c, p.verification, p.now) && LiveFor(w, p)
    requires p.verified == w.store.verifications[p.verification].verifiedAt.Some?
    requires p.input.resource.None? || p.input.resource.value == p.resource
    requires p.Key() in w.store.reservations && w.store.reservations[p.Key()] == RowOf(p)
    requires var s := Marked(w.store, p.verification, p.now);
      CanAcquire(s, p.TransferBy(id, Some(c))) && FreshToken(s, id)
    ensures var w' := Alone(Put(w, id, p), id, choices);
      && AnswersToken(w', id, p.resource) && id in w'.calls && w'.calls[id].VerifiedUser() == p.VerifiedUser()
      && w'.store == CompleteClaim(Marked(w.store, p.verification, p.now), p.TransferBy(id, Some(c)))
  {
    var w1, r1 := ToComplete(w, id, p, choices, p.verification, c);
    var z := p.(pc := Complete);
    assert z.Key() == p.Key() && z.VerifiedUser() == p.VerifiedUser();
    assert z.TransferBy(id, z.consent) == p.TransferBy(id, Some(c));
    ToToken(w1, id, z, r1);
  }

  lemma OwnersTables(s: Store, s2: Store, id: CallId, p: Call, c: ConsentId)
    requires p.Collision() && p.Key() !in s.reservations && p.consent == Some(c)
    requires LiveConsent(s, c, p.verification, p.now)
    requires LiveVerification(s, p.verification, p.input.claimant.user, p.input.claimant.email, p.now)
    requires s2 == Marked(WithRow(s, p), p.verification, p.now)
    requires var g := p.input.claimant;
      && g.org in s.organizations && s.organizations[g.org] == Organization(true, None)
      && ClaimantIsMember(s, g.org, g.app, g.user) && FreshToken(s, id)
    ensures CanAcquire(s2, p.TransferBy(id, Some(c))) && FreshToken(s2, id)
    ensures WentToOwner(s, CompleteClaim(s2, p.TransferBy(id, Some(c))), id, p.input, p.verification, c, p.resource, p.VerifiedUser(), p.now)
  {
    var t := p.TransferBy(id, Some(c));
    assert CanAcquire(s2, t);
    CompleteClaimShape(s2, t);
    BatchGoesToOwner(s2, t, c);
    BatchCompletesTheRow(s2, id, p);
    var s' := CompleteClaim(s2, t);
    assert OwnerKey(p.input, p.VerifiedUser()) == p.Key() && s.reservations - {p.Key()} == s.reservations;
    forall m ensures m in s'.appMembers <==>
      if m.0 in s.appOrg && s.appOrg[m.0] == t.key.org then
        m.1 != t.key.user && (m in s.appMembers || (m.1 == t.key.verifiedUser && (m.0, t.key.user) in s.appMembers))
      else m in s.appMembers
    {
      MovedAppMembers(s2.appMembers, s2.appOrg, t.key.org, t.key.user, t.key.verifiedUser, m);
    }
  }

  // ---------- another user's email, without their consent ----------

  /** The owner has approved nothing that is still live. */
  predicate NoConsent(s: Store, v: VerificationId, owner: UserId, now: int) {
    forall d :: d in s.consents ==> !(LiveConsent(s, d, v, now) && s.consents[d].existingUser == owner)
  }

  lemma ToAskConsent(w: World, id: CallId, p: Call, choices: seq<Choice>, v: VerificationId, c: ConsentId, admitted: bool, owner: UserId)
    returns (w1: World, rest: seq<Choice>)
    requires p.pc.ReadConsent? && p.Collision() && p.existing == Some(owner) && choices != [] && Given(choices, admitted, v, c)
    requires NoConsent(w.store, p.verification, owner, p.now)
    ensures Leads(w, id, p, choices, w1, p.(pc := AdmitConsent), rest)
    ensures |rest| == |choices| - 1 && Given(rest, admitted, v, c)
    ensures Later(w, w1) && w1.hist == w.hist && w1.store == w.store
  {
    w1, rest := Put(w, id, p), choices[1..];
    assert !IsApprovedConsent(w1.store, choices[0].consent, p.verification, owner, p.now);
    Reads(w, id, p, choices, p.(pc := AdmitConsent));
    GivenRest(choices, admitted, v, c);
  }

  /** The new row that asks the owner. */
  function AskedOwner(s: Store, c: ConsentId, v: VerificationId, owner: UserId, now: int): Store {
    s.(consents := s.consents[c := Consent(v, owner, now + CEREMONY_TTL_MS, None, None, now)])
  }

  lemma AskingEnds(w: World, id: CallId, p: Call, choices: seq<Choice>, v: VerificationId, c: ConsentId, admitted: bool, owner: UserId)
    requires p.pc.AdmitConsent? && p.existing == Some(owner) && !p.reserved && |choices| >= 2 && Given(choices, admitted, v, c)
    requires p.verification in w.store.verifications && FreshConsent(w, c)
    ensures var w' := Alone(Put(w, id, p), id, choices);
      if admitted then Refuses(w', id, InteractionRequired, AskedOwner(w.store, c, p.verification, owner, p.now))
      else Refuses(w', id, TooManyRequests, w.store)
  {
    if admitted {
      var q := p.(pc := CreateConsent);
      Reads(w, id, p, choices, q);
      var mid := Put(w, id, p);
      var w1 := OfferConsent(Put(mid, id, q), c, p.verification, owner, p.now);
      var z := p.(pc := Finished(Failed(InteractionRequired)));
      assert choices[1..][0] == choices[1];
      Writes(mid, id, q, choices[1..], w1, z);
      Ends(w1, id, z, choices[1..][1..]);
    } else {
      ReadFails(w, id, p, choices, p.(pc := Finished(Failed(TooManyRequests))), TooManyRequests);
    }
  }

  /**
   Without a live approved consent of the owner's, a claim for their email moves nothing. The owner
   is asked by a new consent row of 15 minutes on the verification, unless the limiter refuses.
   */
  lemma UnconsentedClaimAsksTheOwner(w: World, id: CallId, input: Input, v: VerificationId, audience: Resource,
                                     owner: UserId, c: ConsentId, admitted: bool, choices: seq<Choice>)
    requires id !in w.calls && Collides(w, input, owner) && Lapsed(w.store, OwnerKey(input, owner), w.clock)
    requires var p := Found(w, input);
      Member(w.store, input.claimant) && Picks(w, p, v) && Usable(w.store, p, v) && Matches(p, w.store, v, audience)
    requires NoConsent(w.store, v, owner, w.clock) && FreshConsent(w, c)
    requires |choices| >= 8 && Given(choices, admitted, v, c)
    ensures var w' := Alone(Apply(w, Start(id, input)), id, choices);
      var s := Cleared(w.store, OwnerKey(input, owner));
      if admitted then Refuses(w', id, InteractionRequired, AskedOwner(s, c, v, owner, w.clock))
      else Refuses(w', id, TooManyRequests, s)
  {
    assert Found(w, input).Key() == OwnerKey(input, owner);
    var w1, r1 := ToMembers(w, id, input, choices, v, c, admitted);
    var w2, r2 := ToChosen(w1, id, Found(w, input), r1, v, c, admitted, audience);
    var p := Chose(w1, Found(w, input), v, audience);
    var w3, r3 := ToAskConsent(w2, id, p, r2, v, c, admitted, owner);
    AskingEnds(w3, id, p.(pc := AdmitConsent), r3, v, c, admitted, owner);
  }

  // ---------- claims not open to the call ----------

  /** Whoever is not a member of the Org and the App is refused, and nothing changes. */
  lemma OutsiderIsRefused(w: World, id: CallId, input: Input, v: VerificationId, c: ConsentId, admitted: bool, choices: seq<Choice>)
    requires id !in w.calls && |choices| >= 6 && Given(choices, admitted, v, c)
    requires Lapsed(w.store, Found(w, input).Key(), w.clock) && !Member(w.store, input.claimant)
    ensures Refuses(Alone(Apply(w, Start(id, input)), id, choices), id, InvalidGrant, Cleared(w.store, Found(w, input).Key()))
  {
    var p := Found(w, input);
    var w1, r1 := ToMembers(w, id, input, choices, v, c, admitted);
    ReadFails(w1, id, p, r1, p.Fail(InvalidGrant), InvalidGrant);
  }

  /** What a member's choice of verification `v` fails with, if it does. */
  function ChoiceError(s: Store, p: Call, v: VerificationId): Option<OAuthCode> {
    if !Usable(s, p, v) then Some(InvalidGrant)
    else if s.verifications[v].resource.None? then Some(InvalidGrant)
    else if p.input.resource.Some? && p.input.resource != s.verifications[v].resource then Some(InvalidRequest)
    else None
  }

  /**
   A verification that is missing, expired, consumed, another subject's or without a resource is
   refused with `invalid_grant`, another resource than its own with `invalid_request`; nothing changes.
   */
  lemma BadVerificationIsRefused(w: World, id: CallId, input: Input, v: VerificationId, c: ConsentId, admitted: bool, choices: seq<Choice>)
    requires id !in w.calls && |choices| >= 6 && Given(choices, admitted, v, c)
    requires Lapsed(w.store, Found(w, input).Key(), w.clock) && Member(w.store, input.claimant)
    requires Picks(w, Found(w, input), v) && ChoiceError(w.store, Found(w, input), v).Some?
    ensures Refuses(Alone(Apply(w, Start(id, input)), id, choices), id, ChoiceError(w.store, Found(w, input), v).value,
                    Cleared(w.store, Found(w, input).Key()))
  {
    var p := Found(w, input);
    var w1, r1 := ToMembers(w, id, input, choices, v, c, admitted);
    var q := p.(pc := ReadVerification);
    Reads(w1, id, p, r1, q);
    var mid := Put(w1, id, p);
    var z := q.(verification := v, verified := Accept(Put(mid, id, q), q, v).verified, pc := Finished(Failed(ChoiceError(w.store, p, v).value)));
    ChoiceFails(Put(mid, id, q), q, v);
    ReadFails(mid, id, q, r1[1..], z, ChoiceError(w.store, p, v).value);
  }

  lemma ChoiceFails(w: World, p: Call, v: VerificationId)
    requires !p.reserved && ChoiceError(w.store, p, v).Some?
    ensures Accept(w, p, v) == p.(verification := v, verified := Accept(w, p, v).verified,
                                  pc := Finished(Failed(ChoiceError(w.store, p, v).value)))
  {}

  /** A claimant without any verification is refused. */
  lemma NoVerificationIsRefused(w: World, id: CallId, input: Input, v: VerificationId, c: ConsentId, admitted: bool, choices: seq<Choice>)
    requires id !in w.calls && |choices| >= 6 && Given(choices, admitted, v, c)
    requires Lapsed(w.store, Found(w, input).Key(), w.clock) && Member(w.store, input.claimant)
    requires input.verificationId.None?
    requires forall u :: u in w.store.verifications ==>
      !(w.store.verifications[u].user == input.claimant.user && w.store.verifications[u].email == input.claimant.email)
    ensures Refuses(Alone(Apply(w, Start(id, input)), id, choices), id, InvalidGrant, Cleared(w.store, Found(w, input).Key()))
  {
    var p := Found(w, input);
    var w1, r1 := ToMembers(w, id, input, choices, v, c, admitted);
    var q := p.(pc := ReadVerification);
    Reads(w1, id, p, r1, q);
    ReadFails(Put(w1, id, p), id, q, r1[1..], q.Fail(InvalidGrant), InvalidGrant);
  }

  lemma BusyRead(w: World, p: Call)
    requires !p.reserved && p.Key() in w.store.reservations
    requires var r := w.store.reservations[p.Key()];
      r.completedAt.None? && r.expiresAt > p.now && r.startedAt.None? && r.resource.Some?
    ensures RunReadReservation(w, p).pc == Finished(Failed(InvalidRequest))
  {}

  /** A key whose reservation is in its lease and whose confirmation has not started stays busy, whoever owns the email. */
  lemma BusyKeyIsRefused(w: World, id: CallId, input: Input, choices: seq<Choice>)
    requires id !in w.calls && |choices| >= 3
    requires var k := Found(w, input).Key();
      && k in w.store.reservations && w.store.reservations[k].completedAt.None? && w.store.reservations[k].expiresAt > w.clock
      && w.store.reservations[k].startedAt.None? && w.store.reservations[k].resource.Some?
    ensures Refuses(Alone(Apply(w, Start(id, input)), id, choices), id, InvalidRequest, w.store)
  {
    var p := Begin(input, w.clock);
    var p1 := RunFindExisting(w, p);
    StartIsPut(w, id, input);
    Reads(w, id, p, choices, p1);
    SameClaim(p1, Found(w, input));
    var mid := Put(w, id, p);
    BusyRead(Put(mid, id, p1), p1);
    ReadFails(mid, id, p1, choices[1..], RunReadReservation(Put(mid, id, p1), p1), InvalidRequest);
  }

  /** A completed claim is replayed for its own resource only. */
  lemma ReplayForAnotherResourceIsRefused(w: World, id: CallId, input: Input, choices: seq<Choice>)
    requires id !in w.calls && |choices| >= 4
    requires var k := Found(w, input).Key();
      && CompletedLive(w.store, k, w.clock) && w.store.reservations[k].resource.Some?
      && input.resource.Some? && input.resource != w.store.reservations[k].resource
    ensures Refuses(Alone(Apply(w, Start(id, input)), id, choices), id, InvalidRequest, w.store)
  {
    var p := Begin(input, w.clock);
    var p1 := RunFindExisting(w, p);
    StartIsPut(w, id, input);
    Reads(w, id, p, choices, p1);
    assert p1.Key() == Found(w, input).Key();
    var mid, q := Put(w, id, p), p1.(pc := ReadReplay);
    assert q.Key() == p1.Key();
    Reads(mid, id, p1, choices[1..], q);
    var mid2 := Put(mid, id, p1);
    ReadFails(mid2, id, q, choices[1..][1..], RunReadReplay(Put(mid2, id, q), q), InvalidRequest);
  }

  /** A call that has its consent, if it needs one, is about to reserve. */
  lemma ToReservation(w: World, id: CallId, p: Call, choices: seq<Choice>, v: VerificationId, audience: Resource, c: ConsentId, admitted: bool)
    returns (w1: World, q: Call, rest: seq<Choice>)
    requires p.pc.CheckMembers? && |choices| >= 3 && Given(choices, admitted, v, c)
    requires Member(w.store, p.input.claimant) && Picks(w, p, v) && Usable(w.store, p, v) && Matches(p, w.store, v, audience)
    requires p.Collision() ==> IsApprovedConsent(w.store, c, v, p.existing.value, p.now)
    ensures Leads(w, id, p, choices, w1, q, rest) && |rest| >= |choices| - 3 && Given(rest, admitted, v, c)
    ensures w1.store == w.store && q.pc.Reserve? && q.Key() == p.Key() && q.verification == v && q.started == p.started
    ensures q.input == p.input && q.now == p.now && q.verified == w.store.verifications[v].verifiedAt.Some?
  {
    var w2, r2 := ToChosen(w, id, p, choices, v, c, admitted, audience);
    q := Chose(w, p, v, audience);
    SameClaim(p, q);
    w1, rest := w2, r2;
    if q.Collision() {
      w1, rest := ToReserve(w2, id, q, r2, v, c, admitted);
      SameClaim(q, q.(consent := Some(c), pc := Reserve));
      q := q.(consent := Some(c), pc := Reserve);
    }
  }

  /** A call the limiter refuses after it reserved its key frees the key and changes nothing. */
  lemma LimitedClaimIsRefused(w: World, id: CallId, input: Input, v: VerificationId, audience: Resource, c: ConsentId, choices: seq<Choice>)
    requires id !in w.calls && |choices| >= 9 && Given(choices, false, v, c)
    requires Lapsed(w.store, Found(w, input).Key(), w.clock) && Member(w.store, input.claimant)
    requires var p := Found(w, input);
      && Picks(w, p, v) && Usable(w.store, p, v) && Matches(p, w.store, v, audience)
      && (p.Collision() ==> IsApprovedConsent(w.store, c, v, p.existing.value, w.clock))
    ensures Refuses(Alone(Apply(w, Start(id, input)), id, choices), id, TooManyRequests, Cleared(w.store, Found(w, input).Key()))
  {
    var w1, r1 := ToMembers(w, id, input, choices, v, c, false);
    var w2, q, r2 := ToReservation(w1, id, Found(w, input), r1, v, audience, c, false);
    LimitedAtAdmit(w2, id, q, r2, v, c);
  }

  lemma RowComesAndGoes(s: Store, p: Call)
    requires p.Key() !in s.reservations
    ensures Cleared(WithRow(s, p), p.Key()) == s
  {
    assert s.reservations[p.Key() := RowOf(p)] - {p.Key()} == s.reservations;
  }

  lemma LimitedAtAdmit(w: World, id: CallId, p: Call, choices: seq<Choice>, v: VerificationId, c: ConsentId)
    requires p.pc.Reserve? && !p.started && |choices| >= 3 && Given(choices, false, v, c)
    requires p.Key() !in w.store.reservations && p.verification in w.store.verifications
    ensures Refuses(Alone(Put(w, id, p), id, choices), id, TooManyRequests, w.store)
  {
    var w1, r1 := ToAdmit(w, id, p, choices, v, c, false);
    var q := p.(reserved := true, pc := Admit);
    var z := q.(pc := ReleaseAfterFault, pending := TooManyRequests);
    SameClaim(p, z);
    Reads(w1, id, q, r1, z);
    RowComesAndGoes(w.store, p);
    ReleaseFrees(Put(w1, id, q), id, z, r1[1..]);
  }

  // ---------- an Org that cannot be acquired ----------

  lemma FailedBatchRefuses(w: World, id: CallId, p: Call, choices: seq<Choice>)
    requires p.pc.Complete? && p.reserved && !p.started && |choices| >= 4
    requires !CanAcquire(w.store, p.TransferBy(id, p.consent)) && FreshToken(w.store, id)
    requires p.Key() in w.store.reservations && w.store.reservations[p.Key()] == RowOf(p)
    ensures Refuses(Alone(Put(w, id, p), id, choices), id, InvalidGrant, Cleared(w.store, p.Key()))
  {
    FailedBatchChangesNothing(w.store, p.TransferBy(id, p.consent));
    var q := p.(pc := ReadCompleted);
    SameClaim(p, q);
    FailedBatchActs(w, id, p, choices[0]);
    Writes(w, id, p, choices, Put(w, id, p), q);
    var w2 := Put(w, id, p);
    var z := p.(pc := ReleaseTerminal);
    SameClaim(p, z);
    Reads(w2, id, q, choices[1..], z);
    TerminalRefuses(Put(w2, id, q), id, z, choices[1..][1..]);
  }

  lemma FailedBatchActs(w: World, id: CallId, p: Call, ch: Choice)
    requires p.pc.Complete? && !CanAcquire(w.store, p.TransferBy(id, p.consent))
    requires CompleteClaim(w.store, p.TransferBy(id, p.consent)) == w.store
    ensures Act(Put(w, id, p), id, p, ch) == (Put(w, id, p), p.(pc := ReadCompleted))
  {}

  lemma TerminalRefuses(w: World, id: CallId, p: Call, choices: seq<Choice>)
    requires p.pc.ReleaseTerminal? && p.reserved && !p.started && |choices| >= 2
    requires p.Key() in w.store.reservations && w.store.reservations[p.Key()].completedAt.None?
    ensures Refuses(Alone(Put(w, id, p), id, choices), id, InvalidGrant, Cleared(w.store, p.Key()))
  {
    var q := p.(pc := ReleaseAfterFault, pending := InvalidGrant);
    SameClaim(p, q);
    var w1 := Put(w, id, p).(store := Release(w.store, p.Key()));
    Writes(w, id, p, choices, w1, q);
    NothingToRelease(w1, id, q, choices[1..]);
  }

  lemma NothingToRelease(w: World, id: CallId, p: Call, choices: seq<Choice>)
    requires p.pc.ReleaseAfterFault? && p.Key() !in w.store.reservations && choices != []
    ensures Refuses(Alone(Put(w, id, p), id, choices), id, p.pending, w.store)
  {
    var q := p.(pc := Finished(Failed(p.pending)));
    Writes(w, id, p, choices, Put(w, id, p), q);
    Ends(Put(w, id, p), id, q, choices[1..]);
  }

  /** A claim whose verification is marked, for an Org that is not the claimant's provisional one any more, is refused and changes nothing. */
  lemma TakenOrgIsRefused(w: World, id: CallId, input: Input, v: VerificationId, audience: Resource, c: ConsentId, choices: seq<Choice>)
    requires id !in w.calls && |choices| >= 12 && Given(choices, true, v, c) && FreshToken(w.store, id)
    requires Lapsed(w.store, Found(w, input).Key(), w.clock) && Member(w.store, input.claimant)
    requires var p := Found(w, input);
      && Picks(w, p, v) && Usable(w.store, p, v) && Matches(p, w.store, v, audience)
      && (p.Collision() ==> IsApprovedConsent(w.store, c, v, p.existing.value, w.clock))
    requires w.store.verifications[v].verifiedAt.Some?
    requires var g := input.claimant;
      g.org !in w.store.organizations || w.store.organizations[g.org] != Organization(true, None)
      || !ClaimantIsMember(w.store, g.org, g.app, g.user)
    ensures Refuses(Alone(Apply(w, Start(id, input)), id, choices), id, InvalidGrant, Cleared(w.store, Found(w, input).Key()))
  {
    var p := Found(w, input);
    var w1, r1 := ToMembers(w, id, input, choices, v, c, true);
    var w2, q, r2 := ToReservation(w1, id, p, r1, v, audience, c, true);
    RefusedAtCompletion(w2, id, q, r2, v, c);
  }

  lemma RefusedAtCompletion(w: World, id: CallId, p: Call, choices: seq<Choice>, v: VerificationId, c: ConsentId)
    requires p.pc.Reserve? && p.verified && !p.started && |choices| >= 6 && Given(choices, true, v, c)
    requires p.Key() !in w.store.reservations && p.verification in w.store.verifications && FreshToken(w.store, id)
    requires var g := p.input.claimant;
      g.org !in w.store.organizations || w.store.organizations[g.org] != Organization(true, None)
      || !ClaimantIsMember(w.store, g.org, g.app, g.user)
    ensures Refuses(Alone(Put(w, id, p), id, choices), id, InvalidGrant, w.store)
  {
    var w1, r1 := ToAdmit(w, id, p, choices, v, c, true);
    VerifiedGoesOn(w1, id, p, r1);
    var z := p.(reserved := true, pc := Complete);
    SameClaim(p, z);
    RowComesAndGoes(w.store, p);
    FailedBatchRefuses(Put(w1, id, p.(reserved := true, pc := Admit)), id, z, r1[1..]);
  }

  lemma VerifiedGoesOn(w: World, id: CallId, p: Call, choices: seq<Choice>)
    requires p.pc.Reserve? && p.verified && choices != [] && choices[0].admitted
    ensures Leads(w, id, p.(reserved := true, pc := Admit), choices, Put(w, id, p.(reserved := true, pc := Admit)),
                  p.(reserved := true, pc := Complete), choices[1..])
  {
    Reads(w, id, p.(reserved := true, pc := Admit), choices, p.(reserved := true, pc := Complete));
  }
}
