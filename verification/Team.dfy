// Team membership: signup, registration, invitations, role changes, manager links and
// removal over one table of users and one of invitations. Removal is soft:
// the row stays, so its email stays taken.

module Team {
  import opened Common

  type Id = nat
  type Email = nat
  type Token = nat

  datatype Role = SuperAdmin | TenantOwner | TenantAdmin | Manager | Agent

  // The roles an invitation or a role change may carry.
  type InvitableRole = r: Role | r == TenantAdmin || r == Manager || r == Agent witness Agent

  datatype User = User(tenant: Id, email: Email, role: Role, managerId: Option<Id>, isActive: bool, deleted: bool)

  datatype Invitation = Invitation(tenant: Id, email: Email, role: InvitableRole, expiresAt: int, accepted: bool)

  // Invitations are keyed by their token, which a resend replaces.
  datatype State = State(users: map<Id, User>, invitations: map<Token, Invitation>, nextUser: Id, nextTenant: Id)

  const EMPTY := State(map[], map[], 0, 0)
  const INVITE_TTL := 72 * 3600000

  datatype Event =
    | Signup(email: Email)
    | Register(tenant: Id, email: Email)
    | Invite(tenant: Id, email: Email, role: InvitableRole, token: Token, now: int)
    | Resend(tenant: Id, token: Token, newToken: Token, now: int)
    | Revoke(tenant: Id, token: Token)
    | Accept(token: Token, now: int)
    | UpdateRole(tenant: Id, actor: Id, target: Id, role: InvitableRole)
    | SetManager(tenant: Id, target: Id, managerId: Option<Id>)
    | Remove(tenant: Id, actor: Id, target: Id)

  datatype Reply = Done | NotFound | BadRequest | Forbidden | Conflict | ConstraintViolation

  // ── Queries ──────────────────────────────────────────────────────────────

  predicate IsMember(users: map<Id, User>, tenant: Id, u: Id) {
    u in users && users[u].tenant == tenant && !users[u].deleted
  }

  function Owners(users: map<Id, User>, tenant: Id): set<Id> {
    set u | u in users && IsMember(users, tenant, u) && users[u].role == TenantOwner
  }

  function AgentsOf(users: map<Id, User>, tenant: Id, manager: Id): set<Id> {
    set u | u in users && users[u].tenant == tenant && users[u].managerId == Some(manager)
  }

  predicate EmailTaken(users: map<Id, User>, tenant: Id, email: Email) {
    exists u :: u in users && users[u].tenant == tenant && users[u].email == email
  }

  predicate IsOpen(invitation: Invitation, now: int) {
    !invitation.accepted && invitation.expiresAt > now
  }

  function InvitesFor(invitations: map<Token, Invitation>, tenant: Id, email: Email): set<Token> {
    set t | t in invitations && invitations[t].tenant == tenant && invitations[t].email == email
  }

  predicate IsEligibleManager(users: map<Id, User>, tenant: Id, m: Id) {
    IsMember(users, tenant, m) && users[m].role == Manager && users[m].isActive
  }

  // ── Effects ──────────────────────────────────────────────────────────────

  function Unassign(users: map<Id, User>, tenant: Id, manager: Id): map<Id, User> {
    map u | u in users ::
      if users[u].tenant == tenant && users[u].managerId == Some(manager) then users[u].(managerId := None)
      else users[u]
  }

  function WithRole(users: map<Id, User>, tenant: Id, target: Id, role: InvitableRole): map<Id, User>
    requires target in users
  {
    var before := users[target];
    var unlinked := if before.role != role && before.role == Manager then Unassign(users, tenant, target) else users;
    var row := unlinked[target].(role := role);
    var drop := before.role != role && role != Agent && before.managerId.Some?;
    unlinked[target := if drop then row.(managerId := None) else row]
  }

  function WithoutMember(users: map<Id, User>, tenant: Id, target: Id): map<Id, User>
    requires target in users
  {
    var unlinked := if users[target].role == Manager then Unassign(users, tenant, target) else users;
    unlinked[target := unlinked[target].(isActive := false, deleted := true)]
  }

  // ── What each call answers, and what it changes when it answers Done ─────

  function Verdict(s: State, ev: Event): Reply {
    match ev
    case Signup(_) => Done
    case Register(tenant, email) =>
      if tenant >= s.nextTenant then NotFound
      else if EmailTaken(s.users, tenant, email) then Conflict
      else Done
    case Invite(tenant, email, _, token, now) =>
      if exists u :: u in s.users && IsMember(s.users, tenant, u) && s.users[u].email == email then Conflict
      else if exists t :: t in InvitesFor(s.invitations, tenant, email) && IsOpen(s.invitations[t], now) then Conflict
      else if token in s.invitations || tenant >= s.nextTenant then ConstraintViolation
      else Done
    case Resend(tenant, token, newToken, _) =>
      if token !in s.invitations || s.invitations[token].tenant != tenant || s.invitations[token].accepted then NotFound
      else if newToken in s.invitations then ConstraintViolation
      else Done
    case Revoke(tenant, token) =>
      if token !in s.invitations || s.invitations[token].tenant != tenant then NotFound else Done
    case Accept(token, now) =>
      if token !in s.invitations then NotFound
      else if s.invitations[token].accepted || s.invitations[token].expiresAt < now then BadRequest
      else if EmailTaken(s.users, s.invitations[token].tenant, s.invitations[token].email) then ConstraintViolation
      else Done
    case UpdateRole(tenant, actor, target, _) =>
      if actor == target then BadRequest
      else if !IsMember(s.users, tenant, target) then NotFound
      else if s.users[target].role == TenantOwner && |Owners(s.users, tenant)| <= 1 then BadRequest
      else Done
    case SetManager(tenant, target, managerId) =>
      if !IsMember(s.users, tenant, target) then NotFound
      else if s.users[target].role != Agent then BadRequest
      else if managerId.Some? && !IsEligibleManager(s.users, tenant, managerId.value) then BadRequest
      else Done
    case Remove(tenant, actor, target) =>
      if actor == target then BadRequest
      else if !IsMember(s.users, tenant, target) then NotFound
      else if s.users[target].role == TenantOwner then Forbidden
      else Done
  }

  function Step(s: State, ev: Event): State {
    if Verdict(s, ev) != Done then s
    else match ev
      case Signup(email) =>
        s.(users := s.users[s.nextUser := User(s.nextTenant, email, TenantOwner, None, true, false)],
           nextUser := s.nextUser + 1, nextTenant := s.nextTenant + 1)
      case Register(tenant, email) =>
        s.(users := s.users[s.nextUser := User(tenant, email, TenantAdmin, None, true, false)],
           nextUser := s.nextUser + 1)
      case Invite(tenant, email, role, token, now) =>
        var rest := s.invitations - InvitesFor(s.invitations, tenant, email);
        s.(invitations := rest[token := Invitation(tenant, email, role, now + INVITE_TTL, false)])
      case Resend(_, token, newToken, now) =>
        var inv := s.invitations[token].(expiresAt := now + INVITE_TTL);
        s.(invitations := (s.invitations - {token})[newToken := inv])
      case Revoke(_, token) => s.(invitations := s.invitations - {token})
      case Accept(token, _) =>
        var inv := s.invitations[token];
        s.(users := s.users[s.nextUser := User(inv.tenant, inv.email, inv.role, None, true, false)],
           nextUser := s.nextUser + 1, invitations := s.invitations[token := inv.(accepted := true)])
      case UpdateRole(tenant, _, target, role) => s.(users := WithRole(s.users, tenant, target, role))
      case SetManager(_, target, managerId) => s.(users := s.users[target := s.users[target].(managerId := managerId)])
      case Remove(tenant, _, target) => s.(users := WithoutMember(s.users, tenant, target))
  }

  function Exec(s: State, evs: seq<Event>): State {
    if evs == [] then s else Step(Exec(s, evs[..|evs| - 1]), evs[|evs| - 1])
  }

  // ── The hierarchy invariant ──────────────────────────────────────────────

  // A manager link sits only on an agent and names a live, active manager of the same tenant.
  ghost predicate Hierarchy(users: map<Id, User>) {
    forall u :: u in users && users[u].managerId.Some? ==>
      users[u].role == Agent && IsEligibleManager(users, users[u].tenant, users[u].managerId.value)
  }

  ghost predicate ActiveUntilRemoved(users: map<Id, User>) {
    forall u :: u in users ==> users[u].isActive == !users[u].deleted
  }

  predicate SameMailbox(a: User, b: User) {
    a.tenant == b.tenant && a.email == b.email
  }

  ghost predicate UniqueEmails(users: map<Id, User>) {
    forall u, v :: u in users && v in users && SameMailbox(users[u], users[v]) ==> u == v
  }

  predicate SameAddress(a: Invitation, b: Invitation) {
    a.tenant == b.tenant && a.email == b.email
  }

  ghost predicate UniqueInvites(invitations: map<Token, Invitation>) {
    forall t, u :: t in invitations && u in invitations && SameAddress(invitations[t], invitations[u]) ==> t == u
  }

  ghost predicate IdsBelow(s: State) {
    && (forall u :: u in s.users ==> u < s.nextUser && s.users[u].tenant < s.nextTenant)
    && (forall t :: t in s.invitations ==> s.invitations[t].tenant < s.nextTenant)
  }

  ghost predicate Inv(s: State) {
    Hierarchy(s.users) && ActiveUntilRemoved(s.users) && UniqueEmails(s.users) && UniqueInvites(s.invitations) &&
      IdsBelow(s)
  }

  lemma WithRoleKeepsHierarchy(users: map<Id, User>, tenant: Id, target: Id, role: InvitableRole)
    requires Hierarchy(users) && IsMember(users, tenant, target)
    ensures Hierarchy(WithRole(users, tenant, target, role))
  {
  }

  lemma WithoutMemberKeepsHierarchy(users: map<Id, User>, tenant: Id, target: Id)
    requires Hierarchy(users) && IsMember(users, tenant, target)
    ensures Hierarchy(WithoutMember(users, tenant, target))
  {
  }

  lemma StepKeepsHierarchy(s: State, ev: Event)
    requires Hierarchy(s.users) && IdsBelow(s)
    ensures Hierarchy(Step(s, ev).users)
  {
    if Verdict(s, ev) == Done {
      match ev
      case UpdateRole(tenant, _, target, role) => WithRoleKeepsHierarchy(s.users, tenant, target, role);
      case Remove(tenant, _, target) => WithoutMemberKeepsHierarchy(s.users, tenant, target);
      case SetManager(_, _, _) =>
      case _ =>
    }
  }

  // Nobody joins or leaves the table, and nobody's tenant or email changes.
  ghost predicate SameIdentities(users: map<Id, User>, after: map<Id, User>) {
    after.Keys == users.Keys && forall u :: u in users ==> SameMailbox(after[u], users[u])
  }

  lemma EffectsKeepIdentities(users: map<Id, User>, tenant: Id, target: Id, role: InvitableRole)
    requires target in users
    ensures SameIdentities(users, WithRole(users, tenant, target, role))
    ensures SameIdentities(users, WithoutMember(users, tenant, target))
  {
  }

  lemma StepKeepsEmails(s: State, ev: Event)
    requires UniqueEmails(s.users) && IdsBelow(s)
    ensures UniqueEmails(Step(s, ev).users)
  {
    if Verdict(s, ev) == Done {
      match ev
      case UpdateRole(tenant, _, target, role) => EffectsKeepIdentities(s.users, tenant, target, role);
      case Remove(tenant, _, target) => EffectsKeepIdentities(s.users, tenant, target, Agent);
      case _ =>
    }
  }

  lemma StepKeepsActive(s: State, ev: Event)
    requires ActiveUntilRemoved(s.users)
    ensures ActiveUntilRemoved(Step(s, ev).users)
  {
  }

  lemma StepKeepsInvites(s: State, ev: Event)
    requires UniqueInvites(s.invitations)
    ensures UniqueInvites(Step(s, ev).invitations)
  {
  }

  lemma StepKeepsIds(s: State, ev: Event)
    requires IdsBelow(s)
    ensures IdsBelow(Step(s, ev)) && s.nextUser <= Step(s, ev).nextUser && s.nextTenant <= Step(s, ev).nextTenant
  {
  }

  lemma StepKeepsInv(s: State, ev: Event)
    requires Inv(s)
    ensures Inv(Step(s, ev))
  {
    StepKeepsHierarchy(s, ev);
    StepKeepsEmails(s, ev);
    StepKeepsActive(s, ev);
    StepKeepsInvites(s, ev);
    StepKeepsIds(s, ev);
  }

  lemma {:induction false} RunKeepsInv(s: State, evs: seq<Event>)
    requires Inv(s)
    ensures Inv(Exec(s, evs))
  {
    if evs != [] {
      RunKeepsInv(s, evs[..|evs| - 1]);
      StepKeepsInv(Exec(s, evs[..|evs| - 1]), evs[|evs| - 1]);
    }
  }

  // After any sequence of calls every manager link is sound, and no two users of a tenant share an email.
  lemma HierarchyInEveryRun(evs: seq<Event>, u: Id, v: Id)
    requires u in Exec(EMPTY, evs).users && v in Exec(EMPTY, evs).users
    ensures var users := Exec(EMPTY, evs).users;
            && (users[u].managerId.Some? ==>
                  users[u].role == Agent && users[u].managerId.value in users &&
                  var m := users[users[u].managerId.value];
                  m.role == Manager && m.isActive && !m.deleted && m.tenant == users[u].tenant)
            && (users[u].tenant == users[v].tenant && users[u].email == users[v].email ==> u == v)
  {
    RunKeepsInv(EMPTY, evs);
  }

  // ── Owners ───────────────────────────────────────────────────────────────

  lemma OwnersAfterRole(users: map<Id, User>, tenant: Id, target: Id, role: InvitableRole, t: Id)
    requires IsMember(users, tenant, target)
    ensures Owners(WithRole(users, tenant, target, role), t) ==
              if t == tenant then Owners(users, t) - {target} else Owners(users, t)
  {
  }

  lemma OwnersAfterRemoval(users: map<Id, User>, tenant: Id, target: Id, t: Id)
    requires IsMember(users, tenant, target) && users[target].role != TenantOwner
    ensures Owners(WithoutMember(users, tenant, target), t) == Owners(users, t)
  {
  }

  lemma OwnersAfterNewUser(users: map<Id, User>, u: Id, row: User, t: Id)
    requires u !in users && !row.deleted
    ensures Owners(users[u := row], t) ==
              if row.tenant == t && row.role == TenantOwner then Owners(users, t) + {u} else Owners(users, t)
  {
  }

  // What one call may do to a tenant's owners: demote one when at least two remain, nothing else.
  lemma OwnersAfterStep(s: State, ev: Event, t: Id)
    requires IdsBelow(s) && t < s.nextTenant
    ensures Owners(Step(s, ev).users, t) == Owners(s.users, t) ||
            (ev.UpdateRole? && |Owners(s.users, t)| >= 2 &&
             Owners(Step(s, ev).users, t) == Owners(s.users, t) - {ev.target})
  {
    if Verdict(s, ev) == Done {
      match ev
      case Signup(email) =>
        OwnersAfterNewUser(s.users, s.nextUser, User(s.nextTenant, email, TenantOwner, None, true, false), t);
      case Register(tenant, email) =>
        OwnersAfterNewUser(s.users, s.nextUser, User(tenant, email, TenantAdmin, None, true, false), t);
      case Accept(token, _) =>
        var inv := s.invitations[token];
        OwnersAfterNewUser(s.users, s.nextUser, User(inv.tenant, inv.email, inv.role, None, true, false), t);
      case UpdateRole(tenant, _, target, role) =>
        OwnersAfterRole(s.users, tenant, target, role, t);
        if target !in Owners(s.users, t) { assert Owners(s.users, t) - {target} == Owners(s.users, t); }
      case Remove(tenant, _, target) => OwnersAfterRemoval(s.users, tenant, target, t);
      case SetManager(_, target, m) =>
        assert Owners(s.users[target := s.users[target].(managerId := m)], t) == Owners(s.users, t);
      case _ =>
    }
  }

  // A tenant that has an owner keeps one, from any state at all, over any further calls.
  lemma {:induction false} OwnerKept(s: State, evs: seq<Event>, t: Id)
    requires IdsBelow(s) && t < s.nextTenant && Owners(s.users, t) != {}
    ensures IdsBelow(Exec(s, evs)) && t < Exec(s, evs).nextTenant && Owners(Exec(s, evs).users, t) != {}
  {
    if evs != [] {
      var u, ev := Exec(s, evs[..|evs| - 1]), evs[|evs| - 1];
      OwnerKept(s, evs[..|evs| - 1], t);
      StepKeepsIds(u, ev);
      OwnersAfterStep(u, ev, t);
      if Owners(Step(u, ev).users, t) == {} {
        assert Owners(u.users, t) <= {ev.target};
        SubsetSize(Owners(u.users, t), {ev.target});
      }
    }
  }

  ghost predicate SoleOwners(s: State) {
    forall t :: 0 <= t < s.nextTenant ==> |Owners(s.users, t)| == 1
  }

  lemma StepKeepsSoleOwners(s: State, ev: Event)
    requires IdsBelow(s) && SoleOwners(s)
    ensures SoleOwners(Step(s, ev))
    ensures forall t :: 0 <= t < s.nextTenant ==> Owners(Step(s, ev).users, t) == Owners(s.users, t)
  {
    forall t | 0 <= t < s.nextTenant ensures Owners(Step(s, ev).users, t) == Owners(s.users, t) {
      OwnersAfterStep(s, ev, t);
    }
    if ev.Signup? {
      var t := s.nextTenant;
      assert Owners(s.users, t) == {};
      OwnersAfterNewUser(s.users, s.nextUser, User(t, ev.email, TenantOwner, None, true, false), t);
      assert Owners(Step(s, ev).users, t) == {s.nextUser};
    }
  }

  lemma {:induction false} SoleOwnersInEveryRun(evs: seq<Event>)
    ensures SoleOwners(Exec(EMPTY, evs))
  {
    if evs != [] {
      SoleOwnersInEveryRun(evs[..|evs| - 1]);
      RunKeepsInv(EMPTY, evs[..|evs| - 1]);
      StepKeepsSoleOwners(Exec(EMPTY, evs[..|evs| - 1]), evs[|evs| - 1]);
    }
  }

  // The last-owner check always fires: no call ever makes a second owner, so the user who signed
  // the tenant up is its one owner in every later state.
  lemma {:induction false} OwnerNeverChanges(evs: seq<Event>, more: seq<Event>, t: Id)
    requires t < Exec(EMPTY, evs).nextTenant
    ensures |Owners(Exec(EMPTY, evs).users, t)| == 1
    ensures Owners(Exec(EMPTY, evs + more).users, t) == Owners(Exec(EMPTY, evs).users, t)
    ensures t < Exec(EMPTY, evs + more).nextTenant
  {
    SoleOwnersInEveryRun(evs);
    if more == [] {
      assert evs + more == evs;
    } else {
      var init := evs + more[..|more| - 1];
      OwnerNeverChanges(evs, more[..|more| - 1], t);
      assert (evs + more)[..|evs + more| - 1] == init;
      SoleOwnersInEveryRun(init);
      RunKeepsInv(EMPTY, init);
      StepKeepsSoleOwners(Exec(EMPTY, init), more[|more| - 1]);
      StepKeepsIds(Exec(EMPTY, init), more[|more| - 1]);
    }
  }

  // ── What a cascade changes ───────────────────────────────────────────────

  // A user whose role changes to anything but Manager leads nobody afterwards; the agents who were
  // led lose their link and nothing else, and no other row changes.
  lemma RoleChangeCascade(users: map<Id, User>, tenant: Id, target: Id, role: InvitableRole)
    requires Hierarchy(users) && IsMember(users, tenant, target)
    ensures var after := WithRole(users, tenant, target, role);
            after.Keys == users.Keys && after[target].role == role &&
            (role != Manager ==> AgentsOf(after, tenant, target) == {}) &&
            forall u :: u in users && u != target ==>
              after[u] == if role != Manager && u in AgentsOf(users, tenant, target)
                          then users[u].(managerId := None) else users[u]
  {
  }

  lemma RemovalCascade(users: map<Id, User>, tenant: Id, target: Id)
    requires Hierarchy(users) && IsMember(users, tenant, target)
    ensures var after := WithoutMember(users, tenant, target);
            after.Keys == users.Keys && !IsMember(after, tenant, target) && AgentsOf(after, tenant, target) == {} &&
            forall u :: u in users && u != target ==>
              after[u] == if u in AgentsOf(users, tenant, target) then users[u].(managerId := None) else users[u]
  {
  }

  // ── A removed member's email ─────────────────────────────────────────────

  lemma StepKeepsRow(s: State, ev: Event, u: Id)
    requires IdsBelow(s) && u in s.users
    ensures u in Step(s, ev).users && Step(s, ev).users[u].tenant == s.users[u].tenant &&
              Step(s, ev).users[u].email == s.users[u].email
    ensures s.users[u].deleted ==> Step(s, ev).users[u].deleted
  {
  }

  lemma {:induction false} RowKept(s: State, evs: seq<Event>, u: Id)
    requires IdsBelow(s) && u in s.users
    ensures var t := Exec(s, evs);
            IdsBelow(t) && u in t.users && t.users[u].tenant == s.users[u].tenant &&
              t.users[u].email == s.users[u].email
            && (s.users[u].deleted ==> t.users[u].deleted)
  {
    if evs != [] {
      RowKept(s, evs[..|evs| - 1], u);
      StepKeepsRow(Exec(s, evs[..|evs| - 1]), evs[|evs| - 1], u);
      StepKeepsIds(Exec(s, evs[..|evs| - 1]), evs[|evs| - 1]);
    }
  }

  // A pending invitation that has not expired can be accepted if and only if no user of the tenant,
  // removed or not, has its email; otherwise the unique index answers.
  lemma PendingAcceptIff(s: State, token: Token, now: int)
    requires token in s.invitations && !s.invitations[token].accepted && now <= s.invitations[token].expiresAt
    ensures Verdict(s, Accept(token, now)) == Done <==>
              !EmailTaken(s.users, s.invitations[token].tenant, s.invitations[token].email)
    ensures Verdict(s, Accept(token, now)) == Done || Verdict(s, Accept(token, now)) == ConstraintViolation
  {
  }

  // An email once used in a tenant can never be joined with again, even after the member was
  // removed and although a new invitation to it is issued.
  lemma RemovedCannotRejoin(s: State, evs: seq<Event>, u: Id, token: Token, now: int)
    requires IdsBelow(s) && u in s.users
    requires token in Exec(s, evs).invitations
    requires Exec(s, evs).invitations[token].tenant == s.users[u].tenant &&
               Exec(s, evs).invitations[token].email == s.users[u].email
    ensures var t := Exec(s, evs); var invitation := t.invitations[token];
            Verdict(t, Accept(token, now)) ==
              if invitation.accepted || invitation.expiresAt < now then BadRequest else ConstraintViolation
  {
    RowKept(s, evs, u);
    var t := Exec(s, evs);
    assert t.users[u].tenant == t.invitations[token].tenant && t.users[u].email == t.invitations[token].email;
  }

  lemma ExecSnoc(s: State, evs: seq<Event>, ev: Event)
    ensures Exec(s, evs + [ev]) == Step(Exec(s, evs), ev)
  {
    assert (evs + [ev])[..|evs|] == evs;
  }

  // A member joins and is removed.
  function JoinedThenRemoved(owner: Email, email: Email): seq<Event> {
    [] + [Signup(owner)] + [Invite(0, email, Agent, 0, 0)] + [Accept(0, 0)] + [Remove(0, 0, 1)]
  }

  lemma AfterRemoval(owner: Email, email: Email)
    requires owner != email
    ensures var s := Exec(EMPTY, JoinedThenRemoved(owner, email));
            && s.users == map[0 := User(0, owner, TenantOwner, None, true, false),
                              1 := User(0, email, Agent, None, false, true)]
            && s.invitations == map[0 := Invitation(0, email, Agent, INVITE_TTL, true)] && s.nextTenant == 1
  {
    var e0, e1, e2, e3 := Signup(owner), Invite(0, email, Agent, 0, 0), Accept(0, 0), Remove(0, 0, 1);
    var boss, member := User(0, owner, TenantOwner, None, true, false), User(0, email, Agent, None, true, false);
    var sent := Invitation(0, email, Agent, INVITE_TTL, false);
    assert Exec(EMPTY, []) == EMPTY;
    ExecSnoc(EMPTY, [], e0);
    ExecSnoc(EMPTY, [] + [e0], e1);
    ExecSnoc(EMPTY, [] + [e0] + [e1], e2);
    ExecSnoc(EMPTY, [] + [e0] + [e1] + [e2], e3);
    assert Exec(EMPTY, [] + [e0]) == State(map[0 := boss], map[], 1, 1);
    assert Exec(EMPTY, [] + [e0] + [e1]) == State(map[0 := boss], map[0 := sent], 1, 1);
    assert Exec(EMPTY, [] + [e0] + [e1] + [e2]) ==
      State(map[0 := boss, 1 := member], map[0 := sent.(accepted := true)], 2, 1);
  }

  // The member is invited again: the invitation is issued, and accepting it fails on the unique index.
  lemma InvitedAgainFails(owner: Email, email: Email)
    requires owner != email
    ensures var removed := Exec(EMPTY, JoinedThenRemoved(owner, email));
            var s := Exec(EMPTY, JoinedThenRemoved(owner, email) + [Invite(0, email, Agent, 1, 0)]);
            && 1 in removed.users && removed.users[1].deleted
            && Verdict(removed, Invite(0, email, Agent, 1, 0)) == Done
            && s == Step(removed, Invite(0, email, Agent, 1, 0))
            && Verdict(s, Accept(1, 0)) == ConstraintViolation
  {
    AfterRemoval(owner, email);
    ExecSnoc(EMPTY, JoinedThenRemoved(owner, email), Invite(0, email, Agent, 1, 0));
    var s := Exec(EMPTY, JoinedThenRemoved(owner, email) + [Invite(0, email, Agent, 1, 0)]);
    assert s.invitations[1] == Invitation(0, email, Agent, INVITE_TTL, false);
    assert s.users[1].email == email;
    PendingAcceptIff(s, 1, 0);
  }

  // ── TeamService ──────────────────────────────────────────────────────────

  class TeamService {
    var users: map<Id, User>
    var invitations: map<Token, Invitation>
    var nextUser: Id
    var nextTenant: Id

    ghost function View(): State
      reads this
    {
      State(users, invitations, nextUser, nextTenant)
    }

    constructor ()
      ensures View() == EMPTY
    {
      users, invitations, nextUser, nextTenant := map[], map[], 0, 0;
    }

    /** AuthService.signup: a new tenant with its owner. */
    method SignUp(email: Email) returns (owner: Id)
      modifies `users, `nextUser, `nextTenant
      ensures owner == old(nextUser) && View() == Step(old(View()), Signup(email))
    {
      owner := nextUser;
      users := users[owner := User(nextTenant, email, TenantOwner, None, true, false)];
      nextUser, nextTenant := nextUser + 1, nextTenant + 1;
    }

    /** AuthService.register: an administrator joins a tenant by its id. */
    method RegisterAdmin(tenant: Id, email: Email) returns (reply: Reply)
      modifies `users, `nextUser
      ensures reply == Verdict(old(View()), Register(tenant, email)) &&
                View() == Step(old(View()), Register(tenant, email))
    {
      if tenant >= nextTenant { return NotFound; }
      if EmailTaken(users, tenant, email) { return Conflict; }
      users := users[nextUser := User(tenant, email, TenantAdmin, None, true, false)];
      nextUser := nextUser + 1;
      reply := Done;
    }

    method InviteMember(tenant: Id, email: Email, role: InvitableRole, token: Token, now: int) returns (reply: Reply)
      modifies `invitations
      ensures reply == Verdict(old(View()), Invite(tenant, email, role, token, now))
      ensures View() == Step(old(View()), Invite(tenant, email, role, token, now))
    {
      if exists u :: u in users && IsMember(users, tenant, u) && users[u].email == email { return Conflict; }
      var existing := InvitesFor(invitations, tenant, email);
      if exists t :: t in existing && IsOpen(invitations[t], now) { return Conflict; }
      if token in invitations || tenant >= nextTenant { return ConstraintViolation; }
      invitations := invitations - existing;
      invitations := invitations[token := Invitation(tenant, email, role, now + INVITE_TTL, false)];
      reply := Done;
    }

    method ResendInvite(tenant: Id, token: Token, newToken: Token, now: int) returns (reply: Reply)
      modifies `invitations
      ensures reply == Verdict(old(View()), Resend(tenant, token, newToken, now))
      ensures View() == Step(old(View()), Resend(tenant, token, newToken, now))
    {
      if token !in invitations || invitations[token].tenant != tenant || invitations[token].accepted {
        return NotFound;
      }
      if newToken in invitations { return ConstraintViolation; }
      var invitation := invitations[token];
      invitations := invitations - {token};
      invitations := invitations[newToken := invitation.(expiresAt := now + INVITE_TTL)];
      reply := Done;
    }

    method RevokeInvite(tenant: Id, token: Token) returns (reply: Reply)
      modifies `invitations
      ensures reply == Verdict(old(View()), Revoke(tenant, token)) && View() == Step(old(View()), Revoke(tenant, token))
    {
      if token !in invitations || invitations[token].tenant != tenant { return NotFound; }
      invitations := invitations - {token};
      reply := Done;
    }

    method AcceptInvite(token: Token, now: int) returns (reply: Reply)
      modifies `users, `invitations, `nextUser
      ensures reply == Verdict(old(View()), Accept(token, now)) && View() == Step(old(View()), Accept(token, now))
    {
      if token !in invitations { return NotFound; }
      var invitation := invitations[token];
      if invitation.accepted { return BadRequest; }
      if invitation.expiresAt < now { return BadRequest; }
      // The insert and the acceptance are one transaction, which a taken email rolls back.
      if EmailTaken(users, invitation.tenant, invitation.email) { return ConstraintViolation; }
      users := users[nextUser := User(invitation.tenant, invitation.email, invitation.role, None, true, false)];
      nextUser := nextUser + 1;
      invitations := invitations[token := invitation.(accepted := true)];
      reply := Done;
    }

    /** Find the agents of a manager and, if there are any, clear their links in one update. */
    method UnassignAgents(tenant: Id, manager: Id)
      modifies `users
      ensures users == Unassign(old(users), tenant, manager)
    {
      var agents := AgentsOf(users, tenant, manager);
      if agents != {} {
        users := map u | u in users :: if u in agents then users[u].(managerId := None) else users[u];
      } else {
        assert forall u :: u in users && users[u].tenant == tenant && users[u].managerId == Some(manager) ==>
          u in agents;
        assert users == Unassign(users, tenant, manager);
      }
    }

    method UpdateMemberRole(tenant: Id, actor: Id, target: Id, role: InvitableRole) returns (reply: Reply)
      modifies `users
      ensures reply == Verdict(old(View()), UpdateRole(tenant, actor, target, role))
      ensures View() == Step(old(View()), UpdateRole(tenant, actor, target, role))
    {
      if actor == target { return BadRequest; }
      if !IsMember(users, tenant, target) { return NotFound; }
      var before := users[target];
      if before.role == TenantOwner {
        var ownerCount := |Owners(users, tenant)|;
        if ownerCount <= 1 { return BadRequest; }
      }
      var roleChangingAway := before.role != role;
      if roleChangingAway && before.role == Manager {
        UnassignAgents(tenant, target);
      }
      var row := users[target].(role := role);
      if roleChangingAway && role != Agent && before.managerId.Some? {
        row := row.(managerId := None);
      }
      users := users[target := row];
      reply := Done;
    }

    method SetMemberManager(tenant: Id, target: Id, managerId: Option<Id>) returns (reply: Reply)
      modifies `users
      ensures reply == Verdict(old(View()), SetManager(tenant, target, managerId))
      ensures View() == Step(old(View()), SetManager(tenant, target, managerId))
    {
      if !IsMember(users, tenant, target) { return NotFound; }
      if users[target].role != Agent { return BadRequest; }
      if managerId.Some? && !IsEligibleManager(users, tenant, managerId.value) { return BadRequest; }
      users := users[target := users[target].(managerId := managerId)];
      reply := Done;
    }

    method RemoveMember(tenant: Id, actor: Id, target: Id) returns (reply: Reply)
      modifies `users
      ensures reply == Verdict(old(View()), Remove(tenant, actor, target))
      ensures View() == Step(old(View()), Remove(tenant, actor, target))
    {
      if actor == target { return BadRequest; }
      if !IsMember(users, tenant, target) { return NotFound; }
      if users[target].role == TenantOwner { return Forbidden; }
      if users[target].role == Manager {
        UnassignAgents(tenant, target);
      }
      users := users[target := users[target].(isActive := false, deleted := true)];
      reply := Done;
    }
  }
}
