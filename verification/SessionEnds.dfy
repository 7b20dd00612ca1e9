/**
 The end of a chain: once the working token of a login is revoked, or dies at the provider, no token
 that descends from that login ever works again, whatever is refreshed or logged in afterwards.
 */
module SessionEnds {
  import opened Wrappers
  import opened SessionStore
  import opened DeviceRefresh
  import DeviceLogin
  import opened SessionChain

  /** No token of login `l` works. */
  ghost predicate Ended(r: Run, l: nat) {
    && l < |r.history.logins|
    && forall t :: Usable(r.world, t) ==> t in r.history.lineage && r.history.lineage[t] != l
  }

  /** What works afterwards worked before, or descends from a token that did. */
  lemma RotatedStaysEnded(r: Run, after: World, p: string, next: string, l: nat)
    requires Inv(r) && Ended(r, l) && Carries(r.world, after, p, next)
    requires next !in r.history.issued || next == p
    ensures forall t :: Usable(after, t) ==> (if t == next then r.history.lineage[p] != l else Usable(r.world, t))
  {
    forall t | Usable(after, t) && t != next ensures Usable(r.world, t) {
      assert t in r.world.rows && t in r.world.live;
    }
  }

  lemma RefreshStaysEnded(a: Audiences, r: Run, q: Request, s: Surroundings, l: nat)
    requires Inv(r) && Ended(r, l) && Allowed(r, Refresh(q, s))
    ensures Ended(Apply(a, r, Refresh(q, s)), l)
  {
    var after := Exchange(a, r.world, q, s).0;
    var z := Apply(a, r, Refresh(q, s));
    ExchangeLive(a, r.world, q, s);
    ExchangeRows(a, r.world, q, s);
    RefreshKeeps(a, r, q, s);
    RecordKeeps(r, q.refreshToken, s.answer, after);
    if after.rows == r.world.rows {
      forall t | Usable(z.world, t) ensures Usable(r.world, t) {
        assert t in r.history.issued;
      }
    } else {
      var next := NextOf(s.answer).value;
      RotationCarries(r.world, after, q.refreshToken, next, s.answer.token);
      RotatedStaysEnded(r, after, q.refreshToken, next, l);
    }
  }

  lemma LoginStaysEnded(a: Audiences, r: Run, e: Event, l: nat)
    requires Inv(r) && Ended(r, l) && e.LogIn? && Allowed(r, e)
    ensures Ended(Apply(a, r, e), l)
  {
    var (rows, reply) := DeviceLogin.Login(a, r.world.rows, e.code, e.grant, e.approved, e.directory, e.serial);
    LoginStores(a, r.world.rows, e.code, e.grant, e.approved, e.directory, e.serial);
    if reply.LoggedIn? {
      BegunIsKnown(r.world, r.history, rows, reply.refreshToken);
      var z := Apply(a, r, e);
      forall t | Usable(z.world, t) ensures t in z.history.lineage && z.history.lineage[t] != l {
        if t != reply.refreshToken {
          assert Usable(r.world, t);
        }
      }
    }
  }

  lemma StaysEnded(a: Audiences, r: Run, e: Event, l: nat)
    requires Inv(r) && Ended(r, l) && Allowed(r, e)
    ensures Ended(Apply(a, r, e), l)
  {
    match e
    case LogIn(_, _, _, _, _) => LoginStaysEnded(a, r, e, l);
    case Refresh(q, s) => RefreshStaysEnded(a, r, q, s, l);
    case Revoke(token) => forall t | Usable(Apply(a, r, e).world, t) ensures Usable(r.world, t) {}
    case Die(token) => forall t | Usable(Apply(a, r, e).world, t) ensures Usable(r.world, t) {}
  }

  lemma {:induction false} RunStaysEnded(a: Audiences, r: Run, events: seq<Event>, l: nat)
    requires Inv(r) && Ended(r, l) && AllAllowed(a, r, events)
    ensures Ended(RunAll(a, r, events), l) && Continues(r.history, RunAll(a, r, events).history)
    decreases |events|
  {
    if events != [] {
      ApplyKeeps(a, r, events[0]);
      StaysEnded(a, r, events[0], l);
      RunStaysEnded(a, Apply(a, r, events[0]), events[1..], l);
    }
  }

  /** The working token is the chain's only one, so taking it away ends the chain. */
  lemma LastTokenGone(a: Audiences, r: Run, e: Event, token: string)
    requires Inv(r) && Usable(r.world, token) && (e == Revoke(token) || e == Die(token))
    ensures token in r.history.lineage && Ended(Apply(a, r, e), r.history.lineage[token])
  {
    forall t | Usable(Apply(a, r, e).world, t) ensures Usable(r.world, t) && r.history.lineage[t] != r.history.lineage[token] {
      assert t != token;
    }
  }

  /**
   Revocation is final: in every run, once a login's working token is revoked, or the provider ends it,
   no token of that login works at any later moment.
   */
  lemma RevocationIsFinal(a: Audiences, first: seq<Event>, token: string, ending: Event, more: seq<Event>)
    requires AllAllowed(a, START, first) && (ending == Revoke(token) || ending == Die(token))
    requires Usable(RunAll(a, START, first).world, token)
    requires AllAllowed(a, Apply(a, RunAll(a, START, first), ending), more)
    ensures var r := RunAll(a, START, first);
      var z := RunAll(a, Apply(a, r, ending), more);
      && token in r.history.lineage
      && forall t :: t in z.history.lineage && z.history.lineage[t] == r.history.lineage[token] ==> !Usable(z.world, t)
  {
    RunKeeps(a, START, first);
    var r := RunAll(a, START, first);
    LastTokenGone(a, r, ending, token);
    ApplyKeeps(a, r, ending);
    RunStaysEnded(a, Apply(a, r, ending), more, r.history.lineage[token]);
  }
}
