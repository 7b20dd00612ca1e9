/**
 A run in which the claimant receives the transfer on a verification nobody counted an attempt on.

 A first call counts an attempt on "v1" and pauses past its lease. A second call with the same key
 releases the expired row, reserves the key for "v2" and crashes. The first call marks the row
 started, finding it by its key alone, and the provider accepts its code for "v1". A third call
 finds a started row for "v2", reconciles it and completes on "v2".
 */
module ClaimStray {
  import opened Wrappers
  import opened ClaimStore
  import opened ClaimCeremony
  import opened ClaimInvariant
  import opened ClaimTheorems
  import opened ClaimRace

  const LEASE := IN_FLIGHT_LEASE_MS
  const ONE := Begin(Input(CLAIMANT, "k", Some("123456"), Some("v1"), None), 0)
  const TWO := Begin(Input(CLAIMANT, "k", None, Some("v2"), None), LEASE)
  const THREE := Begin(Input(CLAIMANT, "k", None, Some("v2"), None), LEASE)
  const K := ReservationKey("k", "anon", "e", "org", "app", "anon")
  const TAKE := Choice("v1", "c", true, true)

  const FRESH_ROWS := map["v1" := ROW, "v2" := ROW]
  const COUNTED_ROWS := map["v1" := ROW.(attempts := 1), "v2" := ROW]
  const MARKED_ROWS := map["v1" := ROW.(attempts := 1), "v2" := ROW.(verifiedAt := Some(LEASE))]

  const FIRST_RESERVED := map[K := Reservation("v1", Some("api"), None, None, LEASE)]
  const SECOND_RESERVED := map[K := Reservation("v2", Some("api"), None, None, LEASE + LEASE)]
  const SECOND_STARTED := map[K := Reservation("v2", Some("api"), None, Some(0), LEASE + LEASE)]

  const NONE_STARTED: map<(ReservationKey, VerificationId), StartedRow> := map[]
  const STARTED_BY_KEY := map[(K, "v2") := StartedRow(1, "v1", "v2")]

  /** The tables and the clock; no transfer has happened. */
  ghost predicate At(w: World, rows: map<VerificationId, Verification>, reserved: map<ReservationKey, Reservation>,
                     starts: map<(ReservationKey, VerificationId), StartedRow>, clock: int) {
    && w.hist.starts == starts
    && w.store == EMPTY_STORE.(organizations := map["org" := Organization(true, None)], appOrg := map["app" := "org"],
                               orgMembers := {("org", "anon")}, appMembers := {("app", "anon")},
                               verifications := rows, reservations := reserved)
    && w.clock == clock && w.hist.completions == map[]
  }

  /** The attempt on "v1" is the only one. */
  ghost predicate Counted(w: World, owner: map<Email, UserId>) {
    w.hist.counted == map["v1" := {1}] && w.owner == owner
  }

  // ---------- the first call, up to its counted attempt ----------

  lemma Initiated() returns (steps: seq<Step>)
    ensures var w := Reached(steps);
      At(w, FRESH_ROWS, map[], NONE_STARTED, 0) && w.calls == map[] && w.owner == map[] && w.hist.counted == map[]
  {
    steps := ClaimOpened();
    steps := Extend(steps, Initiate("v2", "anon", "e", Some("api"), 0));
  }

  lemma ClaimOpened() returns (steps: seq<Step>)
    ensures var w := Reached(steps);
      && At(w, map["v1" := ROW], map[], NONE_STARTED, 0) && w.calls == map[] && w.owner == map[] && w.hist.counted == map[]
      && "v2" !in w.hist.initiated
  {
    steps := OrgExists();
    steps := Extend(steps, SetMembers({("org", "anon")}, {("app", "anon")}));
    steps := Extend(steps, Initiate("v1", "anon", "e", Some("api"), 0));
  }

  ghost predicate OneAt(w: World, rows: map<VerificationId, Verification>, reserved: map<ReservationKey, Reservation>, one: Call) {
    At(w, rows, reserved, NONE_STARTED, 0) && w.calls == map[1 := one] && w.owner == map[]
  }

  lemma OneReads() returns (steps: seq<Step>)
    ensures OneAt(Reached(steps), FRESH_ROWS, map[], ONE.(pc := CheckMembers)) && Reached(steps).hist.counted == map[]
  {
    steps := Initiated();
    steps := Extend(steps, Start(1, ONE.input));
    assert OneAt(Reached(steps), FRESH_ROWS, map[], ONE);
    steps := Extend(steps, Run(1, TAKE));
    assert OneAt(Reached(steps), FRESH_ROWS, map[], ONE.(pc := ReadReservation));
    steps := Extend(steps, Run(1, TAKE));
  }

  lemma OneIsMember() returns (steps: seq<Step>)
    ensures OneAt(Reached(steps), FRESH_ROWS, map[], ONE.(pc := ReadVerification)) && Reached(steps).hist.counted == map[]
  {
    steps := OneReads();
    steps := Extend(steps, Run(1, TAKE));
  }

  lemma OneChooses() returns (steps: seq<Step>)
    ensures OneAt(Reached(steps), FRESH_ROWS, map[], ONE.(verification := "v1", resource := "api", pc := Reserve))
    ensures Reached(steps).hist.counted == map[]
  {
    steps := OneIsMember();
    steps := Extend(steps, Run(1, TAKE));
  }

  lemma OneReserves() returns (steps: seq<Step>)
    ensures OneAt(Reached(steps), FRESH_ROWS, FIRST_RESERVED,
      ONE.(verification := "v1", resource := "api", reserved := true, pc := Admit))
    ensures Reached(steps).hist.counted == map[]
  {
    steps := OneChooses();
    steps := Extend(steps, Run(1, TAKE));
  }

  lemma OneIsAdmitted() returns (steps: seq<Step>)
    ensures OneAt(Reached(steps), FRESH_ROWS, FIRST_RESERVED,
      ONE.(verification := "v1", resource := "api", reserved := true, pc := CountAttempt))
    ensures Reached(steps).hist.counted == map[]
  {
    steps := OneReserves();
    steps := Extend(steps, Run(1, TAKE));
  }

  const ONE_COUNTED := ONE.(verification := "v1", resource := "api", reserved := true, pc := MarkStarted)

  lemma OneCounts() returns (steps: seq<Step>)
    ensures OneAt(Reached(steps), COUNTED_ROWS, FIRST_RESERVED, ONE_COUNTED) && Counted(Reached(steps), map[])
  {
    steps := OneIsAdmitted();
    var before := Reached(steps);
    assert CallsOn(before.hist.counted, "v1") + {1} == {1};
    assert ClaimStore.CountAttempt(before.store, "v1").verifications == COUNTED_ROWS;
    steps := Extend(steps, Run(1, TAKE));
    assert Reached(steps).store == ClaimStore.CountAttempt(before.store, "v1");
  }

  // ---------- the second call takes over the key ----------

  ghost predicate TwoAt(w: World, reserved: map<ReservationKey, Reservation>, two: Call) {
    At(w, COUNTED_ROWS, reserved, NONE_STARTED, LEASE) && Counted(w, map[]) && w.calls == map[1 := ONE_COUNTED, 2 := two]
  }

  lemma TwoStarts() returns (steps: seq<Step>)
    ensures TwoAt(Reached(steps), FIRST_RESERVED, TWO)
  {
    steps := OneCounts();
    steps := Extend(steps, Tick(LEASE));
    steps := Extend(steps, Start(2, TWO.input));
  }

  lemma TwoReads() returns (steps: seq<Step>)
    ensures TwoAt(Reached(steps), FIRST_RESERVED, TWO.(pc := ReleaseExpired))
  {
    steps := TwoStarts();
    steps := Extend(steps, Run(2, TAKE));
    assert TwoAt(Reached(steps), FIRST_RESERVED, TWO.(pc := ReadReservation));
    steps := Extend(steps, Run(2, TAKE));
  }

  lemma TwoReleases() returns (steps: seq<Step>)
    ensures TwoAt(Reached(steps), map[], TWO.(pc := CheckMembers))
  {
    steps := TwoReads();
    steps := Extend(steps, Run(2, TAKE));
  }

  lemma TwoIsMember() returns (steps: seq<Step>)
    ensures TwoAt(Reached(steps), map[], TWO.(pc := ReadVerification))
  {
    steps := TwoReleases();
    steps := Extend(steps, Run(2, TAKE));
  }

  lemma TwoChooses() returns (steps: seq<Step>)
    ensures TwoAt(Reached(steps), map[], TWO.(verification := "v2", resource := "api", pc := Reserve))
  {
    steps := TwoIsMember();
    steps := Extend(steps, Run(2, TAKE));
  }

  lemma TwoReserves() returns (steps: seq<Step>)
    ensures TwoAt(Reached(steps), SECOND_RESERVED, TWO.(verification := "v2", resource := "api", reserved := true, pc := Admit))
  {
    steps := TwoChooses();
    steps := Extend(steps, Run(2, TAKE));
  }

  lemma TwoCrashes() returns (steps: seq<Step>)
    ensures var w := Reached(steps);
      At(w, COUNTED_ROWS, SECOND_RESERVED, NONE_STARTED, LEASE) && Counted(w, map[]) && w.calls.Keys == {1, 2} && w.calls[1] == ONE_COUNTED
  {
    steps := TwoReserves();
    steps := Extend(steps, Crash(2));
  }

  // ---------- the first call marks the other row ----------

  lemma OneMarksTheOtherRow() returns (steps: seq<Step>)
    ensures var w := Reached(steps);
      && At(w, COUNTED_ROWS, SECOND_STARTED, STARTED_BY_KEY, LEASE) && Counted(w, map[])
      && w.calls.Keys == {1, 2} && w.calls[1] == ONE_COUNTED.(started := true, pc := Confirm)
  {
    steps := TwoCrashes();
    var before := Reached(steps);
    assert before.calls[1].Key() == K;
    assert ClaimStore.MarkStarted(before.store, K, 0).reservations == SECOND_STARTED;
    steps := Extend(steps, Run(1, TAKE));
    assert Reached(steps).store == ClaimStore.MarkStarted(before.store, K, 0);
  }

  lemma OneConfirms() returns (steps: seq<Step>)
    ensures var w := Reached(steps);
      && At(w, COUNTED_ROWS, SECOND_STARTED, STARTED_BY_KEY, LEASE) && Counted(w, map["e" := "anon"]) && w.calls.Keys == {1, 2}
  {
    steps := OneMarksTheOtherRow();
    steps := Extend(steps, Run(1, TAKE));
  }

  // ---------- the third call reconciles the other row ----------

  ghost predicate ThreeAt(w: World, rows: map<VerificationId, Verification>, three: Call) {
    && At(w, rows, SECOND_STARTED, STARTED_BY_KEY, LEASE) && Counted(w, map["e" := "anon"])
    && 3 in w.calls && w.calls[3] == three
  }

  const THREE_ASKS := THREE.(existing := Some("anon"), verification := "v2", resource := "api", pc := AskProvider)

  lemma ThreeFinds() returns (steps: seq<Step>)
    ensures ThreeAt(Reached(steps), COUNTED_ROWS, THREE.(existing := Some("anon"), pc := ReadReservation))
  {
    steps := OneConfirms();
    steps := Extend(steps, Start(3, THREE.input));
    assert ThreeAt(Reached(steps), COUNTED_ROWS, THREE);
    steps := Extend(steps, Run(3, TAKE));
  }

  lemma ThreeAsks() returns (steps: seq<Step>)
    ensures ThreeAt(Reached(steps), COUNTED_ROWS, THREE_ASKS)
  {
    steps := ThreeFinds();
    steps := Extend(steps, Run(3, TAKE));
  }

  lemma ThreeIsTold() returns (steps: seq<Step>)
    ensures ThreeAt(Reached(steps), COUNTED_ROWS, THREE_ASKS.(pc := ReadReserved))
  {
    steps := ThreeAsks();
    steps := Extend(steps, Run(3, TAKE));
  }

  lemma ThreeReads() returns (steps: seq<Step>)
    ensures ThreeAt(Reached(steps), COUNTED_ROWS, THREE_ASKS.(pc := MarkReconciled))
  {
    steps := ThreeIsTold();
    steps := Extend(steps, Run(3, TAKE));
  }

  lemma ThreeMarks() returns (steps: seq<Step>)
    ensures ThreeAt(Reached(steps), MARKED_ROWS, THREE_ASKS.(pc := CompleteReconciled))
  {
    steps := ThreeReads();
    steps := Extend(steps, Run(3, TAKE));
  }

  /** The claimant receives the Org on "v2", by a reconciliation, and no attempt was ever counted on "v2". */
  lemma ClaimantWinsOnAnotherVerification()
    ensures exists steps ::
      && "org" in Reached(steps).hist.completions
      && var c := Reached(steps).hist.completions["org"];
         && c.verification == "v2" && c.key.verifiedUser == c.key.user && c.own == Some(Reconciled(3, StartedRow(1, "v1", "v2")))
         && CallsOn(Reached(steps).hist.counted, "v2") == {}
  {
    var steps := ThreeMarks();
    var before := Reached(steps);
    assert CanAcquire(before.store, before.calls[3].TransferBy(3, None));
    assert before.calls[3].Key() == K;
    steps := Extend(steps, Run(3, TAKE));
    assert "org" in Reached(steps).hist.completions;
  }
}
