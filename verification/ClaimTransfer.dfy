/** What the `completeClaim` batch does to memberships. */
module ClaimTransfer {
  import opened Wrappers
  import opened ClaimStore
  import opened ClaimSteps

  /** A call's token is random, so no Org holds it before the call acquires one. */
  ghost predicate FreshToken(s: Store, token: CallId) {
    forall o | o in s.organizations :: s.organizations[o].acquisition != Some(token)
  }

  /**
   After an acquiring batch the recipient is a member of the Org and of the claimed App exactly
   when the recipient is not the claimant: the batch first deletes the claimant's rows wherever
   the recipient already has one, and a claimant who is the recipient always has one.
   */
  lemma RecipientIsMember(s: Store, t: Transfer)
    requires CanAcquire(s, t) && FreshToken(s, t.token)
    ensures (t.key.org, t.key.verifiedUser) in CompleteClaim(s, t).orgMembers <==> t.key.verifiedUser != t.key.user
    ensures (t.key.app, t.key.verifiedUser) in CompleteClaim(s, t).appMembers <==> t.key.verifiedUser != t.key.user
  {
    CompleteClaimShape(s, t);
    MovedAppMembers(s.appMembers, s.appOrg, t.key.org, t.key.user, t.key.verifiedUser, (t.key.app, t.key.verifiedUser));
  }

  /** Which App memberships the two statements leave behind. */
  lemma MovedAppMembers(members: set<(AppId, UserId)>, apps: map<AppId, OrgId>, org: OrgId, from: UserId, to: UserId, m: (AppId, UserId))
    ensures m in MoveAppMemberships(members, apps, org, from, to) <==>
      if m.0 in apps && apps[m.0] == org then
        m.1 != from && (m in members || (m.1 == to && (m.0, from) in members))
      else m in members
  {
    var kept := set n | n in members && !(n.1 == from && n.0 in apps && apps[n.0] == org && (n.0, to) in members);
    assert forall n | n in MoveAppMemberships(members, apps, org, from, to) ::
        exists k :: k in kept && n == if k.1 == from && k.0 in apps && apps[k.0] == org then (k.0, to) else k;
    if m in kept && !(m.1 == from && m.0 in apps && apps[m.0] == org) {
      assert m in MoveAppMemberships(members, apps, org, from, to);
    }
    if (m.0, from) in kept && m.0 in apps && apps[m.0] == org && m.1 == to {
      assert m in MoveAppMemberships(members, apps, org, from, to);
    }
  }

  /** Nobody but the claimant and the recipient gains or loses an Org or App membership. */
  lemma OthersKeepMemberships(s: Store, t: Transfer, user: UserId, org: OrgId, app: AppId)
    requires FreshToken(s, t.token) && user != t.key.user && user != t.key.verifiedUser
    ensures (org, user) in CompleteClaim(s, t).orgMembers <==> (org, user) in s.orgMembers
    ensures (app, user) in CompleteClaim(s, t).appMembers <==> (app, user) in s.appMembers
  {
    CompleteClaimShape(s, t);
    MovedAppMembers(s.appMembers, s.appOrg, t.key.org, t.key.user, t.key.verifiedUser, (app, user));
  }

  /** The claimant keeps no membership of the claimed Org's rows, whoever the recipient is. */
  lemma ClaimantIsMovedOut(s: Store, t: Transfer, app: AppId)
    requires CanAcquire(s, t) && FreshToken(s, t.token)
    requires app in s.appOrg && s.appOrg[app] == t.key.org
    ensures (t.key.org, t.key.user) !in CompleteClaim(s, t).orgMembers
    ensures (app, t.key.user) !in CompleteClaim(s, t).appMembers
  {
    CompleteClaimShape(s, t);
    MovedAppMembers(s.appMembers, s.appOrg, t.key.org, t.key.user, t.key.verifiedUser, (app, t.key.user));
  }

  /** All or nothing: a batch that does not acquire the Org leaves every table as it was. */
  lemma FailedBatchChangesNothing(s: Store, t: Transfer)
    requires FreshToken(s, t.token) && !CanAcquire(s, t)
    ensures CompleteClaim(s, t) == s
  {
    CompleteClaimShape(s, t);
  }

  /** A claimant who proves their own email ends the claim outside their own Org and App. */
  lemma SelfClaimLosesMembership()
    ensures exists s, t ::
      && CanAcquire(s, t) && FreshToken(s, t.token)
      && (t.key.org, t.key.verifiedUser) in s.orgMembers
      && (t.key.org, t.key.verifiedUser) !in CompleteClaim(s, t).orgMembers
  {
    var row := Verification("anon", "me@example.com", Some("api"), 900_000, 1, Some(5), None, 0);
    var s := EMPTY_STORE.(
      verifications := map["v" := row], organizations := map["org" := Organization(true, None)],
      appOrg := map["app" := "org"], orgMembers := {("org", "anon")}, appMembers := {("app", "anon")});
    var t := Transfer(ReservationKey("k", "anon", "me@example.com", "org", "app", "anon"), "v", None, 1, 10, 86_400_010);
    assert CanAcquire(s, t) && FreshToken(s, t.token);
    RecipientIsMember(s, t);
  }
}
