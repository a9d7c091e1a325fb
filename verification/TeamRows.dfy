// Team membership read row by row: what each call answers, which users and
// invitations it changes, and how somebody comes to be in a team.

module TeamRows {
  import opened Common
  import opened Team

  // ── What the calls answer ────────────────────────────────────────────────

  ghost predicate InTeam(s: State, tenant: Id, u: Id) {
    u in s.users && s.users[u].tenant == tenant && !s.users[u].deleted
  }

  // Somebody of the tenant, removed or not, has the email.
  ghost predicate EmailUsed(s: State, tenant: Id, email: Email) {
    exists u :: u in s.users && s.users[u].tenant == tenant && s.users[u].email == email
  }

  lemma RegisterAnswer(s: State, tenant: Id, email: Email)
    requires Inv(s)
    ensures var reply := Verdict(s, Register(tenant, email));
            && (reply == NotFound <==> tenant >= s.nextTenant)
            && (reply == Conflict <==> tenant < s.nextTenant && EmailUsed(s, tenant, email))
            && (reply == Done <==> tenant < s.nextTenant && !EmailUsed(s, tenant, email))
  {
  }

  ghost predicate AlreadyMember(s: State, tenant: Id, email: Email) {
    exists u :: InTeam(s, tenant, u) && s.users[u].email == email
  }

  ghost predicate AlreadyInvited(s: State, tenant: Id, email: Email, now: int) {
    exists t :: t in s.invitations && s.invitations[t].tenant == tenant && s.invitations[t].email == email
                && !s.invitations[t].accepted && now < s.invitations[t].expiresAt
  }

  // An invitation is refused to somebody in the team and to somebody with an open invitation.
  lemma InviteAnswer(s: State, tenant: Id, email: Email, role: InvitableRole, token: Token, now: int)
    ensures var reply := Verdict(s, Invite(tenant, email, role, token, now));
            var refused := AlreadyMember(s, tenant, email) || AlreadyInvited(s, tenant, email, now);
            && (reply == Conflict <==> refused)
            && (reply == ConstraintViolation <==> !refused && (token in s.invitations || tenant >= s.nextTenant))
            && (reply == Done <==> !refused && token !in s.invitations && tenant < s.nextTenant)
  {
    if AlreadyMember(s, tenant, email) {
      var u :| InTeam(s, tenant, u) && s.users[u].email == email;
      assert IsMember(s.users, tenant, u);
    }
    if t :| t in s.invitations && s.invitations[t].tenant == tenant && s.invitations[t].email == email
            && !s.invitations[t].accepted && now < s.invitations[t].expiresAt {
      assert t in InvitesFor(s.invitations, tenant, email) && IsOpen(s.invitations[t], now);
    }
  }

  // A resend and a revocation need an invitation of the tenant; a resend one not accepted yet.
  lemma ResendRevokeAnswer(s: State, tenant: Id, token: Token, newToken: Token, now: int)
    ensures var found := token in s.invitations && s.invitations[token].tenant == tenant;
            && (Verdict(s, Revoke(tenant, token)) == if found then Done else NotFound)
            && (Verdict(s, Resend(tenant, token, newToken, now)) ==
                  if !found || s.invitations[token].accepted then NotFound
                  else if newToken in s.invitations then ConstraintViolation else Done)
  {
  }

  lemma AcceptAnswer(s: State, token: Token, now: int)
    ensures var reply := Verdict(s, Accept(token, now));
            && (reply == NotFound <==> token !in s.invitations)
            && (reply == BadRequest <==>
                  token in s.invitations && (s.invitations[token].accepted || s.invitations[token].expiresAt < now))
            && (reply == Done <==>
                  token in s.invitations && !s.invitations[token].accepted && now <= s.invitations[token].expiresAt &&
                  !EmailUsed(s, s.invitations[token].tenant, s.invitations[token].email))
            && reply in {NotFound, BadRequest, ConstraintViolation, Done}
  {
  }

  // Somebody else in the team owns the tenant too.
  ghost predicate OtherOwner(s: State, tenant: Id, u: Id) {
    exists v :: v != u && InTeam(s, tenant, v) && s.users[v].role == TenantOwner
  }

  lemma SoleOwnerMeans(s: State, tenant: Id, u: Id)
    requires InTeam(s, tenant, u) && s.users[u].role == TenantOwner
    ensures |Owners(s.users, tenant)| >= 2 <==> OtherOwner(s, tenant, u)
  {
    var owners := Owners(s.users, tenant);
    assert u in owners;
    if v :| v != u && InTeam(s, tenant, v) && s.users[v].role == TenantOwner {
      assert v in owners;
      SubsetSize({u, v}, owners);
    } else {
      assert owners == {u};
    }
  }

  lemma RoleAnswer(s: State, tenant: Id, actor: Id, target: Id, role: InvitableRole)
    ensures var reply := Verdict(s, UpdateRole(tenant, actor, target, role));
            && (reply == NotFound <==> actor != target && !InTeam(s, tenant, target))
            && (reply == Done <==> actor != target && InTeam(s, tenant, target) &&
                                   (s.users[target].role == TenantOwner ==> OtherOwner(s, tenant, target)))
            && reply in {NotFound, BadRequest, Done}
  {
    if InTeam(s, tenant, target) && s.users[target].role == TenantOwner { SoleOwnerMeans(s, tenant, target); }
  }

  // A manager can be set for an agent only, and must be an active manager of the same team.
  lemma ManagerAnswer(s: State, tenant: Id, target: Id, managerId: Option<Id>)
    ensures var reply := Verdict(s, SetManager(tenant, target, managerId));
            && (reply == NotFound <==> !InTeam(s, tenant, target))
            && (reply == Done <==>
                  InTeam(s, tenant, target) && s.users[target].role == Agent &&
                  (managerId.Some? ==> InTeam(s, tenant, managerId.value) && s.users[managerId.value].role == Manager &&
                                       s.users[managerId.value].isActive))
            && reply in {NotFound, BadRequest, Done}
  {
  }

  lemma RemoveAnswer(s: State, tenant: Id, actor: Id, target: Id)
    ensures var reply := Verdict(s, Remove(tenant, actor, target));
            && (reply == BadRequest <==> actor == target)
            && (reply == NotFound <==> actor != target && !InTeam(s, tenant, target))
            && (reply == Forbidden <==> actor != target && InTeam(s, tenant, target) &&
                                        s.users[target].role == TenantOwner)
            && (reply == Done <==> actor != target && InTeam(s, tenant, target) && s.users[target].role != TenantOwner)
  {
  }

  // ── One user ─────────────────────────────────────────────────────────────

  // What a call leaves of a user. A role change keeps the manager link only for somebody who stays
  // what he is or becomes an agent; a removal deactivates and hides the user; both take their agents
  // away from somebody who stops being a manager.
  ghost predicate UserAfter(s: State, ev: Event, u: Id, after: User)
    requires u in s.users
  {
    var before := s.users[u];
    match ev
    case UpdateRole(_, _, target, role) =>
      if Verdict(s, ev) != Done then after == before
      else if u == target then
        after == before.(role := role,
                         managerId := if role == Agent || before.role == role then before.managerId else None)
      else after == if before.managerId == Some(target) && role != Manager then before.(managerId := None) else before
    case SetManager(_, target, managerId) =>
      after == if Verdict(s, ev) == Done && u == target then before.(managerId := managerId) else before
    case Remove(_, _, target) =>
      if Verdict(s, ev) != Done then after == before
      else if u == target then after == before.(isActive := false, deleted := true)
      else after == if before.managerId == Some(target) then before.(managerId := None) else before
    case _ => after == before
  }

  lemma UserMoves(s: State, ev: Event, u: Id)
    requires Inv(s) && u in s.users
    ensures u in Step(s, ev).users && UserAfter(s, ev, u, Step(s, ev).users[u])
  {
  }

  // A user is added by a signup, as the owner of a new tenant; by a registration, as an administrator;
  // and by accepting an invitation, with its role. Nobody starts with a manager.
  lemma UsersAdded(s: State, ev: Event, u: Id)
    requires Inv(s) && u !in s.users
    ensures u in Step(s, ev).users <==>
              u == s.nextUser && Verdict(s, ev) == Done && (ev.Signup? || ev.Register? || ev.Accept?)
    ensures u in Step(s, ev).users ==>
              Step(s, ev).users[u] ==
                if ev.Signup? then User(s.nextTenant, ev.email, TenantOwner, None, true, false)
                else if ev.Register? then User(ev.tenant, ev.email, TenantAdmin, None, true, false)
                else User(s.invitations[ev.token].tenant, s.invitations[ev.token].email, s.invitations[ev.token].role,
                          None, true, false)
  {
  }

  // ── One invitation ───────────────────────────────────────────────────────

  // The call issues this token.
  ghost predicate Issues(ev: Event, t: Token) {
    (ev.Invite? && ev.token == t) || (ev.Resend? && ev.newToken == t)
  }

  // The call withdraws this invitation: a new one to the same address, a resend, or a revocation.
  ghost predicate Withdraws(s: State, ev: Event, t: Token)
    requires t in s.invitations
  {
    || (ev.Invite? && s.invitations[t].tenant == ev.tenant && s.invitations[t].email == ev.email)
    || ((ev.Resend? || ev.Revoke?) && ev.token == t)
  }

  lemma InvitationMoves(s: State, ev: Event, t: Token)
    requires Inv(s)
    ensures t in Step(s, ev).invitations <==>
              (t in s.invitations && !(Verdict(s, ev) == Done && Withdraws(s, ev, t))) ||
              (Verdict(s, ev) == Done && Issues(ev, t))
    ensures t in Step(s, ev).invitations && Verdict(s, ev) == Done && Issues(ev, t) ==>
              Step(s, ev).invitations[t] ==
                if ev.Invite? then Invitation(ev.tenant, ev.email, ev.role, ev.now + 259200000, false)
                else s.invitations[ev.token].(expiresAt := ev.now + 259200000)
    ensures t in Step(s, ev).invitations && !(Verdict(s, ev) == Done && Issues(ev, t)) ==>
              Step(s, ev).invitations[t] ==
                if ev.Accept? && ev.token == t && Verdict(s, ev) == Done then s.invitations[t].(accepted := true)
                else s.invitations[t]
  {
    assert INVITE_TTL == 259200000;
  }

  // ── How somebody comes to be in a team ───────────────────────────────────

  // An earlier call issued the token, 72 hours before the invitation expires.
  ghost predicate IssuedInTime(evs: seq<Event>, t: Token, expiresAt: int) {
    exists i :: 0 <= i < |evs| && Issues(evs[i], t) && expiresAt == evs[i].now + 259200000
  }

  // An earlier call invited this email to this tenant, in this role.
  ghost predicate Invited(evs: seq<Event>, tenant: Id, email: Email, role: Role) {
    exists i :: 0 <= i < |evs| && evs[i].Invite? && evs[i].tenant == tenant && evs[i].email == email &&
      evs[i].role == role
  }

  lemma IssuedLater(evs: seq<Event>, ev: Event, t: Token, expiresAt: int)
    ensures IssuedInTime(evs + [ev], t, expiresAt) <==>
              IssuedInTime(evs, t, expiresAt) || (Issues(ev, t) && expiresAt == ev.now + 259200000)
  {
    if i :| 0 <= i < |evs| && Issues(evs[i], t) && expiresAt == evs[i].now + 259200000 {
      assert (evs + [ev])[i] == evs[i];
    }
    assert (evs + [ev])[|evs|] == ev;
  }

  lemma InvitedLater(evs: seq<Event>, ev: Event, tenant: Id, email: Email, role: Role)
    ensures Invited(evs + [ev], tenant, email, role) <==>
              Invited(evs, tenant, email, role) ||
                (ev.Invite? && ev.tenant == tenant && ev.email == email && ev.role == role)
  {
    if i :| 0 <= i < |evs| && evs[i].Invite? && evs[i].tenant == tenant && evs[i].email == email &&
            evs[i].role == role {
      assert (evs + [ev])[i] == evs[i];
    }
    assert (evs + [ev])[|evs|] == ev;
  }

  ghost predicate Traced(evs: seq<Event>, t: Token, invitation: Invitation) {
    IssuedInTime(evs, t, invitation.expiresAt) && Invited(evs, invitation.tenant, invitation.email, invitation.role)
  }

  lemma TracedLater(evs: seq<Event>, ev: Event, t: Token, invitation: Invitation)
    requires Traced(evs, t, invitation)
    ensures Traced(evs + [ev], t, invitation)
  {
    IssuedLater(evs, ev, t, invitation.expiresAt);
    InvitedLater(evs, ev, invitation.tenant, invitation.email, invitation.role);
  }

  lemma IssueTraced(evs: seq<Event>, s: State, ev: Event, t: Token)
    requires Inv(s) && Verdict(s, ev) == Done && Issues(ev, t)
    requires ev.Resend? ==> ev.token in s.invitations && Traced(evs, ev.token, s.invitations[ev.token])
    ensures t in Step(s, ev).invitations && Traced(evs + [ev], t, Step(s, ev).invitations[t])
  {
    InvitationMoves(s, ev, t);
    var invitation := Step(s, ev).invitations[t];
    IssuedLater(evs, ev, t, invitation.expiresAt);
    InvitedLater(evs, ev, invitation.tenant, invitation.email, invitation.role);
  }

  // Every invitation in the table goes back to an invite of that address in that role, and its token
  // was issued 72 hours before it expires, whatever was resent or withdrawn meanwhile.
  lemma {:induction false} InvitationsAreTraced(evs: seq<Event>, t: Token)
    requires t in Exec(EMPTY, evs).invitations
    ensures Traced(evs, t, Exec(EMPTY, evs).invitations[t])
  {
    var init, ev := evs[..|evs| - 1], evs[|evs| - 1];
    var s := Exec(EMPTY, init);
    RunKeepsInv(EMPTY, init);
    InvitationMoves(s, ev, t);
    assert evs == init + [ev];
    if Verdict(s, ev) == Done && Issues(ev, t) {
      if ev.Resend? { InvitationsAreTraced(init, ev.token); }
      IssueTraced(init, s, ev, t);
    } else {
      InvitationsAreTraced(init, t);
      TracedLater(init, ev, t, s.invitations[t]);
    }
  }

  // Whoever accepts an invitation was invited to that tenant, under that email and in the role he gets,
  // and has the token no longer than 72 hours.
  lemma JoinsAsInvited(evs: seq<Event>, token: Token, now: int)
    requires Verdict(Exec(EMPTY, evs), Accept(token, now)) == Done
    ensures var s := Exec(EMPTY, evs); var r := Step(s, Accept(token, now));
            && s.nextUser !in s.users && s.nextUser in r.users
            && Invited(evs, r.users[s.nextUser].tenant, r.users[s.nextUser].email, r.users[s.nextUser].role)
            && exists i :: 0 <= i < |evs| && Issues(evs[i], token) && now <= evs[i].now + 259200000
  {
    var s := Exec(EMPTY, evs);
    RunKeepsInv(EMPTY, evs);
    UsersAdded(s, Accept(token, now), s.nextUser);
    InvitationsAreTraced(evs, token);
    var i :| 0 <= i < |evs| && Issues(evs[i], token) && s.invitations[token].expiresAt == evs[i].now + 259200000;
    assert now <= evs[i].now + 259200000;
  }

  ghost predicate Brings(ev: Event, tenant: Id, email: Email) {
    || (ev.Signup? && ev.email == email)
    || ((ev.Register? || ev.Invite?) && ev.tenant == tenant && ev.email == email)
  }

  // The user's email was brought in by a signup, a registration or an invitation.
  ghost predicate Brought(evs: seq<Event>, tenant: Id, email: Email) {
    exists i :: 0 <= i < |evs| && Brings(evs[i], tenant, email)
  }

  lemma BroughtLater(evs: seq<Event>, ev: Event, tenant: Id, email: Email)
    requires Brought(evs, tenant, email) || Brings(ev, tenant, email)
    ensures Brought(evs + [ev], tenant, email)
  {
    if i :| 0 <= i < |evs| && Brings(evs[i], tenant, email) { assert (evs + [ev])[i] == evs[i]; }
    assert (evs + [ev])[|evs|] == ev;
  }

  // Nobody is in a tenant who did not sign up, register for it or was invited to it.
  lemma {:induction false} NobodyUninvited(evs: seq<Event>, u: Id)
    requires u in Exec(EMPTY, evs).users
    ensures Brought(evs, Exec(EMPTY, evs).users[u].tenant, Exec(EMPTY, evs).users[u].email)
  {
    var init, ev := evs[..|evs| - 1], evs[|evs| - 1];
    var s := Exec(EMPTY, init);
    RunKeepsInv(EMPTY, init);
    assert evs == init + [ev];
    var row := Exec(EMPTY, evs).users[u];
    if u in s.users {
      NobodyUninvited(init, u);
      UserMoves(s, ev, u);
    } else {
      UsersAdded(s, ev, u);
      if ev.Accept? {
        InvitationsAreTraced(init, ev.token);
        var i :| 0 <= i < |init| && init[i].Invite? && init[i].tenant == row.tenant && init[i].email == row.email;
        assert Brings(init[i], row.tenant, row.email);
      }
    }
    BroughtLater(init, ev, row.tenant, row.email);
  }
}
