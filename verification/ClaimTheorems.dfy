/** What the invariant says about every run of the claim ceremony, in any interleaving. */
module ClaimTheorems {
  import opened Wrappers
  import opened ClaimStore
  import opened ClaimCeremony
  import opened ClaimInvariant
  import opened ClaimSteps
  import opened ClaimSafety

  function Reached(steps: seq<Step>): World {
    RunAll(START, steps)
  }

  lemma {:induction false} ReachedInv(steps: seq<Step>)
    ensures Inv(Reached(steps))
  {
    StartInv();
    RunKeepsInv(START, steps);
  }

  // ---------- tokens ----------

  /** Every token replays its Org's one completed transfer, inside 24 hours, for the resource fixed at initiation. */
  lemma TokensAreSound(steps: seq<Step>, t: Token)
    requires t in Reached(steps).hist.tokens
    ensures var h := Reached(steps).hist;
      && t.org in h.completions
      && h.completions[t.org].key == t.key
      && t.user == t.key.verifiedUser && t.app == t.key.app && t.org == t.key.org
      && h.completions[t.org].verification in h.initiated
      && h.initiated[h.completions[t.org].verification] == Initiation(t.key.user, t.key.email, Some(t.audience))
      && t.at < t.readExpiry == h.completions[t.org].at + COMPLETED_REPLAY_TTL_MS
  {
    ReachedInv(steps);
    assert TokenOk(Reached(steps), t);
    assert CompletionOk(Reached(steps), Reached(steps).hist.completions[t.org]);
  }

  /** Any two tokens of one Org name the same user, App, audience and reservation, so all same-key calls agree. */
  lemma TokensAgree(steps: seq<Step>, t: Token, u: Token)
    requires t in Reached(steps).hist.tokens && u in Reached(steps).hist.tokens
    requires t.org == u.org
    ensures t.key == u.key && t.user == u.user && t.app == u.app && t.audience == u.audience
  {
    TokensAreSound(steps, t);
    TokensAreSound(steps, u);
  }

  // ---------- one transfer per Org ----------

  lemma CallStepGrows(w: World, id: CallId, ch: Choice)
    requires Inv(w) && Running(w, id)
    ensures HistoryGrows(w.hist, Exec(w, id, w.calls[id], ch).0.hist)
  {
    ExecOk(w, id, w.calls[id], ch);
  }

  lemma EnvironmentGrows(w: World, s: Step)
    requires WorldInv(w)
    ensures HistoryGrows(w.hist, ApplyEnvironment(w, s).hist)
  {
    EnvironmentKeeps(w, s);
  }

  lemma StepGrows(w: World, s: Step)
    requires Inv(w)
    ensures HistoryGrows(w.hist, Apply(w, s).hist)
  {
    if (s.Run? || s.LoseReply?) && Running(w, s.id) {
      CallStepGrows(w, s.id, s.choice);
      assert Apply(w, s).hist == Exec(w, s.id, w.calls[s.id], s.choice).0.hist;
    } else if s.Run? || s.LoseReply? || s.Start? || s.Throw? || s.Crash? {
      assert Apply(w, s).hist == w.hist;
    } else {
      EnvironmentGrows(w, s);
    }
  }

  lemma {:induction false} RunGrows(w: World, steps: seq<Step>)
    requires Inv(w)
    ensures HistoryGrows(w.hist, RunAll(w, steps).hist)
    decreases |steps|
  {
    if steps != [] {
      StepGrows(w, steps[0]);
      ApplyOk(w, steps[0]);
      RunGrows(Apply(w, steps[0]), steps[1..]);
    }
  }

  lemma {:induction false} RunAppend(w: World, steps: seq<Step>, more: seq<Step>)
    ensures RunAll(w, steps + more) == RunAll(RunAll(w, steps), more)
    decreases |steps|
  {
    if steps == [] {
      assert steps + more == more;
    } else {
      assert (steps + more)[1..] == steps[1..] + more;
      RunAppend(Apply(w, steps[0]), steps[1..], more);
    }
  }

  /** Once an Org's transfer completes, no later step ever redirects it. */
  lemma TransferIsFinal(steps: seq<Step>, more: seq<Step>, org: OrgId)
    requires org in Reached(steps).hist.completions
    ensures org in Reached(steps + more).hist.completions
    ensures Reached(steps + more).hist.completions[org] == Reached(steps).hist.completions[org]
  {
    ReachedInv(steps);
    RunAppend(START, steps, more);
    RunGrows(Reached(steps), more);
  }

  // ---------- authority ----------

  /**
   Who a completed transfer goes to. With a consent it goes to the user who approved that unexpired
   consent on that verification, and the email is theirs. Without one it goes to the claimant, on a
   verification marked after a confirmation, by a reconciliation or from a consent.
   */
  lemma TransfersAreAuthorised(steps: seq<Step>, org: OrgId)
    requires org in Reached(steps).hist.completions
    ensures var w := Reached(steps);
      var c := w.hist.completions[org];
      && c.key.org == org
      && IsSubject(w.hist, c.verification, c.key.user, c.key.email)
      && (c.consent.Some? ==>
            && c.consent.value in w.hist.approvals
            && w.hist.approvals[c.consent.value].verification == c.verification
            && w.hist.approvals[c.consent.value].existingUser == c.key.verifiedUser
            && c.at < w.hist.approvals[c.consent.value].expiresAt
            && c.key.email in w.owner && w.owner[c.key.email] == c.key.verifiedUser != c.key.user)
      && (c.consent.None? ==>
            c.key.verifiedUser == c.key.user && c.verification in w.hist.marks && MarkOk(w, c.verification, w.hist.marks[c.verification]))
  {
    ReachedInv(steps);
    assert CompletionOk(Reached(steps), Reached(steps).hist.completions[org]);
  }

  /** What the transfer rests on: the completing call's own mark, or else the one it found. */
  function Basis(h: History, c: Completion): Mark
    requires c.own.Some? || c.verification in h.marks
  {
    if c.own.Some? then c.own.value else h.marks[c.verification]
  }

  /** The call that completed the transfer, the one that marked, and the one whose attempt a reconciliation stands for. */
  function Behind(h: History, c: Completion): set<CallId>
    requires c.own.Some? || c.verification in h.marks
  {
    var m := Basis(h, c);
    {c.caller, m.caller} + if m.Reconciled? then {m.start.call} else {}
  }

  /** A call behind the transfer had an attempt counted on `v`. */
  ghost predicate AttemptedOn(h: History, c: Completion, v: VerificationId)
    requires c.own.Some? || c.verification in h.marks
  {
    exists i :: i in Behind(h, c) && i in CallsOn(h.counted, v)
  }

  /** The completing call read no other owner and found `verified_at` set, and a consent had set it. */
  predicate SkippedOnConsent(h: History, c: Completion)
    requires c.own.Some? || c.verification in h.marks
  {
    c.own.None? && h.marks[c.verification].FromConsent?
  }

  /**
   A transfer to the claimant has a counted attempt of the claimant's behind it, which the provider
   vouched for, exactly unless its call found `verified_at` set by a consent.
   */
  lemma ClaimantTransfersRestOnAttempts(steps: seq<Step>, org: OrgId)
    requires org in Reached(steps).hist.completions && Reached(steps).hist.completions[org].consent.None?
    ensures var w := Reached(steps); var c := w.hist.completions[org];
      && c.verification in w.hist.marks
      && ((exists u :: AttemptedOn(w.hist, c, u)) <==> !SkippedOnConsent(w.hist, c))
      && if SkippedOnConsent(w.hist, c) then ConsentedOn(w, c.verification, c.key.user, c.key.email)
         else
           && (c.key.user, c.key.email) in w.hist.vouched
           && exists u :: IsSubject(w.hist, u, c.key.user, c.key.email) && AttemptedOn(w.hist, c, u)
  {
    ReachedInv(steps);
    RestsOnAttempts(Reached(steps), Reached(steps).hist.completions[org]);
  }

  lemma BasisHolds(w: World, c: Completion)
    requires WorldInv(w) && c.key.org in w.hist.completions && w.hist.completions[c.key.org] == c && c.consent.None?
    ensures c.verification in w.hist.marks && MarkOk(w, c.verification, Basis(w.hist, c))
    ensures IsSubject(w.hist, c.verification, c.key.user, c.key.email)
    ensures c.own.Some? ==> !c.own.value.FromConsent? && c.own.value.caller == c.caller
    ensures !Basis(w.hist, c).Confirmed? ==> NotCounted(w, Basis(w.hist, c).caller) && NotCounted(w, c.caller)
    ensures c.own.None? ==> NotCounted(w, c.caller)
  {
    assert CompletionOk(w, c);
  }

  lemma RestsOnAttempts(w: World, c: Completion)
    requires WorldInv(w) && c.key.org in w.hist.completions && w.hist.completions[c.key.org] == c && c.consent.None?
    ensures c.verification in w.hist.marks
    ensures SkippedOnConsent(w.hist, c) ==>
      ConsentedOn(w, c.verification, c.key.user, c.key.email) && forall u :: !AttemptedOn(w.hist, c, u)
    ensures !SkippedOnConsent(w.hist, c) ==>
      && (c.key.user, c.key.email) in w.hist.vouched
      && exists u :: IsSubject(w.hist, u, c.key.user, c.key.email) && AttemptedOn(w.hist, c, u)
  {
    BasisHolds(w, c);
    var m := Basis(w.hist, c);
    match m
    case Confirmed(i) => assert AttemptedOn(w.hist, c, c.verification);
    case Reconciled(_, s) => assert s.call in Behind(w.hist, c) && AttemptedOn(w.hist, c, s.on);
    case FromConsent(_, _) =>
      forall u ensures !AttemptedOn(w.hist, c, u) {}
  }

  /**
   And the attempt is on the transfer's own verification exactly when the claimant's code was
   confirmed on it, or the row that was reconciled named, when it was marked started, the
   verification its caller had counted on.
   */
  lemma AttemptIsOnItsOwnVerification(steps: seq<Step>, org: OrgId)
    requires org in Reached(steps).hist.completions && Reached(steps).hist.completions[org].consent.None?
    ensures var w := Reached(steps); var c := w.hist.completions[org];
      && c.verification in w.hist.marks
      && var m := Basis(w.hist, c);
         AttemptedOn(w.hist, c, c.verification) <==> m.Confirmed? || (m.Reconciled? && m.start.on == m.start.row)
  {
    ReachedInv(steps);
    RestsOnItsOwn(Reached(steps), Reached(steps).hist.completions[org]);
  }

  lemma RestsOnItsOwn(w: World, c: Completion)
    requires WorldInv(w) && c.key.org in w.hist.completions && w.hist.completions[c.key.org] == c && c.consent.None?
    ensures c.verification in w.hist.marks
    ensures var m := Basis(w.hist, c);
      AttemptedOn(w.hist, c, c.verification) <==> m.Confirmed? || (m.Reconciled? && m.start.on == m.start.row)
  {
    BasisHolds(w, c);
    var m := Basis(w.hist, c);
    if m.Confirmed? {
      assert m.caller in Behind(w.hist, c);
    } else if m.Reconciled? {
      assert m.start.call in Behind(w.hist, c) && m.start.call in CallsOn(w.hist.counted, m.start.on);
    }
  }

  // ---------- rows marked started by their own calls ----------

  /** When a step marks a row started, the row names the verification its caller counted on. */
  predicate StartsItsOwn(w: World, s: Step) {
    (s.Run? || s.LoseReply?) && Running(w, s.id) && w.calls[s.id].pc.MarkStarted? ==>
      var p := w.calls[s.id];
      CanMarkStarted(w.store, p.Key()) ==> w.store.reservations[p.Key()].verification == p.verification
  }

  predicate AllStartTheirOwn(w: World, steps: seq<Step>)
    decreases |steps|
  {
    steps == [] || (StartsItsOwn(w, steps[0]) && AllStartTheirOwn(Apply(w, steps[0]), steps[1..]))
  }

  predicate OwnStart(m: Mark) {
    m.Reconciled? ==> m.start.on == m.start.row
  }

  ghost predicate OwnStarts(h: History) {
    && (forall kv | kv in h.starts :: h.starts[kv].on == h.starts[kv].row)
    && (forall v | v in h.marks :: OwnStart(h.marks[v]))
    && (forall o | o in h.completions && h.completions[o].own.Some? :: OwnStart(h.completions[o].own.value))
  }

  lemma ExecKeepsOwnStarts(w: World, id: CallId, ch: Choice)
    requires OwnStarts(w.hist) && Running(w, id) && StartsItsOwn(w, Run(id, ch))
    ensures OwnStarts(Exec(w, id, w.calls[id], ch).0.hist)
  {
    var p := w.calls[id];
    if !Observes(p.pc) {
      assert MarkBy(w, id, p).Some? ==> OwnStart(MarkBy(w, id, p).value);
    }
  }

  lemma StepKeepsOwnStarts(w: World, s: Step)
    requires OwnStarts(w.hist) && StartsItsOwn(w, s)
    ensures OwnStarts(Apply(w, s).hist)
  {
    match s
    case Run(id, ch) => if Running(w, id) { ExecKeepsOwnStarts(w, id, ch); }
    case LoseReply(id, ch) => if Running(w, id) { ExecKeepsOwnStarts(w, id, ch); }
    case Start(_, _) =>
    case Throw(_) =>
    case Crash(_) =>
    case _ => EnvironmentMarksNothing(w, s);
  }

  lemma EnvironmentMarksNothing(w: World, s: Step)
    ensures var h := ApplyEnvironment(w, s).hist;
      h.starts == w.hist.starts && h.marks == w.hist.marks && h.completions == w.hist.completions
  {}

  lemma {:induction false} RunKeepsOwnStarts(w: World, steps: seq<Step>)
    requires OwnStarts(w.hist) && AllStartTheirOwn(w, steps)
    ensures OwnStarts(RunAll(w, steps).hist)
    decreases |steps|
  {
    if steps != [] {
      StepKeepsOwnStarts(w, steps[0]);
      RunKeepsOwnStarts(Apply(w, steps[0]), steps[1..]);
    }
  }

  /** So in a run whose every such update hits its caller's own row, the attempt is always on the transfer's verification. */
  lemma GuardedStartsSuffice(steps: seq<Step>, org: OrgId)
    requires AllStartTheirOwn(START, steps)
    requires org in Reached(steps).hist.completions && Reached(steps).hist.completions[org].consent.None?
    ensures var w := Reached(steps); var c := w.hist.completions[org];
      c.verification in w.hist.marks && (AttemptedOn(w.hist, c, c.verification) <==> !SkippedOnConsent(w.hist, c))
  {
    RunKeepsOwnStarts(START, steps);
    AttemptIsOnItsOwnVerification(steps, org);
    ReachedInv(steps);
    BasisHolds(Reached(steps), Reached(steps).hist.completions[org]);
  }

  /** A refused consent is never approved, at any moment of any run, and no transfer ever rests on it. */
  lemma RefusalIsFinal(steps: seq<Step>, c: ConsentId, user: UserId, now: int, more: seq<Step>)
    requires OpenConsent(Reached(steps).store, c, user, now)
    ensures var h := Reached(steps + [Refuse(c, user, now)] + more).hist;
      c !in h.approvals && forall o :: o in h.completions ==> h.completions[o].consent != Some(c)
  {
    var refused := steps + [Refuse(c, user, now)];
    ReachedInv(refused);
    RunAppend(START, steps, [Refuse(c, user, now)]);
    assert RunAll(Reached(steps), [Refuse(c, user, now)]) == Apply(Reached(steps), Refuse(c, user, now)) by {
      assert [Refuse(c, user, now)][1..] == [];
    }
    assert c in Reached(refused).hist.refused;
    RunAppend(START, refused, more);
    RunGrows(Reached(refused), more);
    ReachedInv(refused + more);
    RefusedIsUnused(Reached(refused + more), c);
  }

  lemma RefusedIsUnused(w: World, c: ConsentId)
    requires WorldInv(w) && c in w.hist.refused
    ensures c !in w.hist.approvals && forall o :: o in w.hist.completions ==> w.hist.completions[o].consent != Some(c)
  {
    assert StaysRefused(w, c);
    forall o | o in w.hist.completions ensures w.hist.completions[o].consent != Some(c) {
      assert CompletionOk(w, w.hist.completions[o]);
    }
  }

  /** At most five provider confirmations per verification, across all concurrent calls. */
  lemma AtMostFiveConfirmations(steps: seq<Step>, v: VerificationId)
    ensures CallsOn(Reached(steps).hist.confirmed, v) <= CallsOn(Reached(steps).hist.counted, v)
    ensures |CallsOn(Reached(steps).hist.confirmed, v)| <= MAX_OTP_ATTEMPTS
  {
    ReachedInv(steps);
    var w := Reached(steps);
    assert CallsOn(w.hist.confirmed, v) <= CallsOn(w.hist.counted, v);
    SubsetSize(CallsOn(w.hist.confirmed, v), CallsOn(w.hist.counted, v));
  }

  /** A call asks the provider at most once: asking again would need the call to be unasked. */
  lemma OneConfirmationPerCall(steps: seq<Step>, id: CallId)
    requires id in Reached(steps).calls && Reached(steps).calls[id].pc.Confirm?
    ensures NotConfirmed(Reached(steps), id)
    ensures id in CallsOn(Reached(steps).hist.counted, Reached(steps).calls[id].verification)
  {
    ReachedInv(steps);
    assert CallInv(Reached(steps), id, Reached(steps).calls[id]);
  }
}
