/**
 A run in which the claimant receives the transfer without any counted attempt.

 A first call reads that nobody owns the email. Then the owner appears, approves a
 consent, and a second call marks the verification from that consent and crashes. The
 first call, still holding its old read, sees a verified verification, skips the OTP
 and completes for the claimant.
 */
module ClaimRace {
  import opened Wrappers
  import opened ClaimStore
  import opened ClaimCeremony
  import opened ClaimInvariant
  import opened ClaimTheorems

  const CLAIMANT := Claimant("anon", "org", "app", "e")
  const FIRST := Begin(Input(CLAIMANT, "k1", None, Some("v"), None), 0)
  const SECOND := Begin(Input(CLAIMANT, "k2", None, Some("v"), None), 0)
  const PICK := Choice("v", "c", true, false)
  const ROW := Verification("anon", "e", Some("api"), CEREMONY_TTL_MS, 0, None, None, 0)
  const VERIFIED_ROW := ROW.(verifiedAt := Some(0))

  /** The rows both calls rely on. */
  ghost predicate Tables(w: World, row: Verification) {
    && w.store.organizations == map["org" := Organization(true, None)]
    && w.store.appOrg == map["app" := "org"]
    && w.store.orgMembers == {("org", "anon")}
    && w.store.appMembers == {("app", "anon")}
    && w.store.verifications == map["v" := row]
    && w.hist.counted == map[]
    && FIRST.Key() !in w.store.reservations
    && 1 in w.calls && w.calls[1] == FIRST.(pc := ReadReservation)
  }

  /** The owner's live, approved consent, and where the second call stands. */
  ghost predicate Stage(w: World, row: Verification, second: Call) {
    && Tables(w, row)
    && w.owner == map["e" := "owner"]
    && w.store.consents == map["c" := Consent("v", "owner", CEREMONY_TTL_MS, Some(0), None, 0)]
    && 2 in w.calls && w.calls[2] == second
  }

  // A run is extended one step at a time.

  lemma Extend(steps: seq<Step>, s: Step) returns (longer: seq<Step>)
    ensures Reached(longer) == Apply(Reached(steps), s)
  {
    longer := steps + [s];
    RunAppend(START, steps, [s]);
    assert RunAll(Apply(Reached(steps), s), [s][1..]) == Apply(Reached(steps), s);
  }

  lemma OrgExists() returns (steps: seq<Step>)
    ensures var w := Reached(steps);
      && w.store == EMPTY_STORE.(organizations := map["org" := Organization(true, None)], appOrg := map["app" := "org"])
      && w == START.(store := w.store)
  {
    steps := Extend([], AddOrganization("org"));
    steps := Extend(steps, AddApp("app", "org"));
  }

  lemma ClaimInitiated() returns (steps: seq<Step>)
    ensures var w := Reached(steps);
      && w.store == EMPTY_STORE.(organizations := map["org" := Organization(true, None)], appOrg := map["app" := "org"],
                                 orgMembers := {("org", "anon")}, appMembers := {("app", "anon")}, verifications := map["v" := ROW])
      && w == START.(store := w.store, hist := w.hist)
      && w.hist == START.hist.(initiated := w.hist.initiated)
  {
    steps := OrgExists();
    steps := Extend(steps, SetMembers({("org", "anon")}, {("app", "anon")}));
    steps := Extend(steps, Initiate("v", "anon", "e", Some("api"), 0));
  }

  lemma FirstReads() returns (steps: seq<Step>)
    ensures var w := Reached(steps);
      Tables(w, ROW) && w.calls.Keys == {1} && w.clock == 0 && w.owner == map[]
      && w.store.reservations == map[] && w.store.consents == map[] && w.hist.approvals == map[] && w.hist.refused == {}
  {
    steps := ClaimInitiated();
    steps := Extend(steps, Start(1, FIRST.input));
    assert Reached(steps).calls == map[1 := FIRST];
    steps := Extend(steps, Run(1, PICK));
  }

  lemma OwnerAppears() returns (steps: seq<Step>)
    ensures var w := Reached(steps);
      Tables(w, ROW) && w.calls.Keys == {1} && w.clock == 0 && w.owner == map["e" := "owner"]
      && w.store.reservations == map[]
      && w.store.consents == map["c" := Consent("v", "owner", CEREMONY_TTL_MS, None, None, 0)]
  {
    steps := FirstReads();
    steps := Extend(steps, OwnEmail("e", "owner"));
    steps := Extend(steps, Offer("c", "v", "owner", 0));
  }

  lemma OwnerConsents() returns (steps: seq<Step>)
    ensures Stage(Reached(steps), ROW, SECOND) && Reached(steps).store.reservations == map[]
  {
    steps := OwnerAppears();
    steps := Extend(steps, Approve("c", "owner", 0));
    steps := Extend(steps, Start(2, SECOND.input));
  }

  lemma SecondFinds() returns (steps: seq<Step>)
    ensures Stage(Reached(steps), ROW, SECOND.(existing := Some("owner"), pc := ReadReservation))
    ensures Reached(steps).store.reservations == map[]
  {
    steps := OwnerConsents();
    steps := Extend(steps, Run(2, PICK));
  }

  lemma SecondReads() returns (steps: seq<Step>)
    ensures Stage(Reached(steps), ROW, SECOND.(existing := Some("owner"), pc := CheckMembers))
    ensures Reached(steps).store.reservations == map[]
  {
    steps := SecondFinds();
    steps := Extend(steps, Run(2, PICK));
  }

  lemma SecondIsMember() returns (steps: seq<Step>)
    ensures Stage(Reached(steps), ROW, SECOND.(existing := Some("owner"), pc := ReadVerification))
    ensures Reached(steps).store.reservations == map[]
  {
    steps := SecondReads();
    steps := Extend(steps, Run(2, PICK));
  }

  lemma SecondChooses() returns (steps: seq<Step>)
    ensures Stage(Reached(steps), ROW,
      SECOND.(existing := Some("owner"), verification := "v", resource := "api", pc := ReadConsent))
    ensures Reached(steps).store.reservations == map[]
  {
    steps := SecondIsMember();
    steps := Extend(steps, Run(2, PICK));
  }

  lemma SecondFindsConsent() returns (steps: seq<Step>)
    ensures Stage(Reached(steps), ROW,
      SECOND.(existing := Some("owner"), verification := "v", resource := "api", consent := Some("c"), pc := Reserve))
    ensures Reached(steps).store.reservations == map[]
  {
    steps := SecondChooses();
    steps := Extend(steps, Run(2, PICK));
  }

  lemma SecondReserves() returns (steps: seq<Step>)
    ensures Stage(Reached(steps), ROW,
      SECOND.(existing := Some("owner"), verification := "v", resource := "api", consent := Some("c"), reserved := true, pc := Admit))
  {
    steps := SecondFindsConsent();
    steps := Extend(steps, Run(2, PICK));
  }

  lemma SecondAdmitted() returns (steps: seq<Step>)
    ensures Stage(Reached(steps), ROW,
      SECOND.(existing := Some("owner"), verification := "v", resource := "api", consent := Some("c"), reserved := true, pc := MarkFromConsent))
  {
    steps := SecondReserves();
    steps := Extend(steps, Run(2, PICK));
  }

  lemma SecondMarks() returns (steps: seq<Step>)
    ensures Stage(Reached(steps), VERIFIED_ROW,
      SECOND.(existing := Some("owner"), verification := "v", resource := "api", consent := Some("c"), reserved := true, pc := Complete))
  {
    steps := SecondAdmitted();
    var before := Reached(steps);
    assert MarkVerified(before.store, "v", 0).verifications == map["v" := VERIFIED_ROW];
    steps := Extend(steps, Run(2, PICK));
    assert Reached(steps).store == MarkVerified(before.store, "v", 0);
  }

  lemma SecondCrashes() returns (steps: seq<Step>)
    ensures Tables(Reached(steps), VERIFIED_ROW)
  {
    steps := SecondMarks();
    steps := Extend(steps, Crash(2));
  }

  /** The tables once the first call moves again. */
  ghost predicate Resumed(w: World, first: Call) {
    && w.store.organizations == map["org" := Organization(true, None)] && w.store.appOrg == map["app" := "org"]
    && w.store.orgMembers == {("org", "anon")} && w.store.appMembers == {("app", "anon")}
    && w.store.verifications == map["v" := VERIFIED_ROW] && w.hist.counted == map[]
    && 1 in w.calls && w.calls[1] == first
  }

  lemma FirstResumes() returns (steps: seq<Step>)
    ensures Resumed(Reached(steps), FIRST.(pc := ReadVerification))
    ensures FIRST.Key() !in Reached(steps).store.reservations
  {
    steps := SecondCrashes();
    steps := Extend(steps, Run(1, PICK));
    steps := Extend(steps, Run(1, PICK));
  }

  lemma FirstChooses() returns (steps: seq<Step>)
    ensures Resumed(Reached(steps), FIRST.(verification := "v", resource := "api", verified := true, pc := Reserve))
    ensures FIRST.Key() !in Reached(steps).store.reservations
  {
    steps := FirstResumes();
    steps := Extend(steps, Run(1, PICK));
  }

  lemma FirstReserves() returns (steps: seq<Step>)
    ensures Resumed(Reached(steps), FIRST.(verification := "v", resource := "api", verified := true, reserved := true, pc := Admit))
  {
    steps := FirstChooses();
    steps := Extend(steps, Run(1, PICK));
  }

  lemma FirstSkipsOtp() returns (steps: seq<Step>)
    ensures Resumed(Reached(steps), FIRST.(verification := "v", resource := "api", verified := true, reserved := true, pc := Complete))
  {
    steps := FirstReserves();
    steps := Extend(steps, Run(1, PICK));
  }

  /** A completed transfer to the claimant with no counted attempt behind it is reachable. */
  lemma ClaimantWinsUncounted()
    ensures exists steps, org ::
      && org in Reached(steps).hist.completions
      && Reached(steps).hist.completions[org].key.verifiedUser == Reached(steps).hist.completions[org].key.user
      && Reached(steps).hist.counted == map[]
  {
    var steps := FirstSkipsOtp();
    var before := Reached(steps);
    assert CanAcquire(before.store, before.calls[1].TransferBy(1, None));
    steps := Extend(steps, Run(1, PICK));
    assert "org" in Reached(steps).hist.completions;
  }
}
