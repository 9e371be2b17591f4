/**
 * What every administrative call keeps, taken as one step each (auth/UserAdmin.ts, db/UserStore.ts).
 *
 * Nobody but the target of a call is touched, the rules of the schema hold on, a new role is one that its actor may
 * hand out, and nobody harms themselves. Calls that overlap are in `PeopleRaces`, and the exact outcome of each
 * call is in `PeopleOutcomes`.
 */
module PeopleRules {
  import opened Prelude
  import opened UserStore
  import opened UserAdmin

  datatype Call =
    | CallCreate(person: NewPerson)
    | CallSetStatus(id: UserId, status: Status)
    | CallAdd(id: UserId, request: Request, newId: MembershipId)
    | CallRemove(id: UserId, membership: MembershipId)
    | CallReinvite(id: UserId, invite: string)

  datatype Act = Act(actor: Principal, call: Call)

  ghost predicate Callable(call: Call) { call.CallCreate? ==> |call.person.newIds| == |call.person.requests| }

  function After(p: People, act: Act): People
    requires Callable(act.call)
  {
    match act.call
    case CallCreate(x) => Create(p, act.actor, x).people
    case CallSetStatus(id, status) => SetStatus(p, act.actor, id, status).people
    case CallAdd(id, r, newId) => AddMembership(p, act.actor, id, r, newId).people
    case CallRemove(id, m) => RemoveMembership(p, act.actor, id, m).people
    case CallReinvite(id, invite) => Reinvite(p, act.actor, id, invite).people
  }

  // ─── What each call changes at most ────────────────────────────────────────

  /** Nothing about the person: account, memberships, sessions and invites. */
  ghost predicate Untouched(p: People, p': People, id: UserId) {
    && id in p'.users && id in p.users && p'.users[id] == p.users[id]
    && (forall m :: m in p.memberships && p.memberships[m].userId == id ==> m in p'.memberships && p'.memberships[m] == p.memberships[m])
    && (forall m :: m in p'.memberships && p'.memberships[m].userId == id ==> m in p.memberships && p'.memberships[m] == p.memberships[m])
    && Belongs(p.sessions, id) == Belongs(p'.sessions, id)
    && Belongs(p.invites, id) == Belongs(p'.invites, id)
  }

  ghost predicate Targets(call: Call, id: UserId) {
    match call
    case CallCreate(x) => id == x.id
    case CallSetStatus(target, _) => id == target
    case CallAdd(target, _, _) => id == target
    case CallRemove(target, _) => id == target
    case CallReinvite(target, _) => id == target
  }

  lemma StatusUntouched(p: People, target: UserId, status: Status, id: UserId)
    requires id in p.users && id != target
    ensures Untouched(p, StatusChanged(p, target, status).people, id)
  {
  }

  lemma GrantUntouched(p: People, x: Membership, newId: MembershipId, id: UserId)
    requires id in p.users && id != x.userId
    ensures Untouched(p, Grant(p, x, newId).people, id)
  {
  }

  lemma RemovedUntouched(p: People, target: UserId, m: MembershipId, id: UserId)
    requires id in p.users && id != target
    ensures Untouched(p, Removed(p, target, m).people, id)
  {
  }

  lemma InvitedUntouched(p: People, invite: string, target: UserId, id: UserId)
    requires id in p.users && id != target
    ensures Untouched(p, Invited(p, invite, target).people, id)
  {
  }

  lemma {:induction false} GrantAllUntouched(p: People, target: UserId, requests: seq<Request>, newIds: seq<MembershipId>, id: UserId)
    requires |newIds| == |requests| && id in p.users && id != target
    ensures Untouched(p, GrantAll(p, target, requests, newIds).people, id)
  {
    if requests != [] {
      var n := |requests| - 1;
      GrantAllUntouched(p, target, requests[..n], newIds[..n], id);
      var before := GrantAll(p, target, requests[..n], newIds[..n]).people;
      GrantUntouched(before, Membership(target, requests[n].role, requests[n].tenantId), newIds[n], id);
    }
  }

  /** A creation that goes through is these steps and no others. */
  lemma CreateIs(p: People, actor: Principal, x: NewPerson)
    requires |x.newIds| == |x.requests|
    ensures var p' := Create(p, actor, x).people;
            p' == p ||
            var c := UserCreated(p, x.id, x.email, x.name);
            var g := GrantAll(c.people, x.id, x.requests, x.newIds);
            && ScopeOf(actor).Some? && CreateDenied(ScopeOf(actor).value, p, x).None?
            && c.result.Ok? && g.result.Ok? && p' == Invited(g.people, x.invite, x.id).people
  {
  }

  lemma CreateUntouched(p: People, actor: Principal, x: NewPerson, id: UserId)
    requires |x.newIds| == |x.requests| && id in p.users
    ensures Untouched(p, Create(p, actor, x).people, id)
  {
    CreateIs(p, actor, x);
    var c := UserCreated(p, x.id, x.email, x.name);
    if c.result.Ok? {
      assert Untouched(p, c.people, id);
      GrantAllUntouched(c.people, x.id, x.requests, x.newIds, id);
      var g := GrantAll(c.people, x.id, x.requests, x.newIds).people;
      InvitedUntouched(g, x.invite, x.id, id);
    }
  }

  /** Any other call is one store transaction on its target, or nothing; and it needs these permissions. */
  lemma CallIs(p: People, act: Act)
    requires !act.call.CallCreate? && After(p, act) != p
    ensures ScopeOf(act.actor).Some?
    ensures var scope := ScopeOf(act.actor).value;
            match act.call
            case CallSetStatus(id, status) =>
              && Reaches(scope, p, id) && !MayNotChange(scope, p, id) && !(status == Disabled && scope.actorId == Some(id))
              && After(p, act) == StatusChanged(p, id, status).people
            case CallAdd(id, r, newId) =>
              && Reaches(scope, p, id) && !MayNotChange(scope, p, id) && !MayNotGrantRole(scope, r)
              && (scope.operator || MayGrant(scope, r)) && !IsInvalid(p, r)
              && After(p, act) == Grant(p, Membership(id, r.role, r.tenantId), newId).people
            case CallRemove(id, m) =>
              && Reaches(scope, p, id) && !MayNotChange(scope, p, id) && m in Of(p, id)
              && !(scope.actorId == Some(id) && (p.memberships[m].role == Operator || |Of(p, id)| == 1))
              && After(p, act) == Removed(p, id, m).people
            case CallReinvite(id, invite) =>
              Reaches(scope, p, id) && !MayNotChange(scope, p, id) && After(p, act) == Invited(p, invite, id).people
  {
  }

  /** A call concerns one person. */
  lemma OthersUntouched(p: People, act: Act, id: UserId)
    requires Callable(act.call) && id in p.users && !Targets(act.call, id)
    ensures Untouched(p, After(p, act), id)
  {
    match act.call
    case CallCreate(x) => CreateUntouched(p, act.actor, x, id);
    case CallSetStatus(target, status) =>
      if After(p, act) != p { CallIs(p, act); StatusUntouched(p, target, status, id); }
    case CallAdd(target, r, newId) =>
      if After(p, act) != p { CallIs(p, act); GrantUntouched(p, Membership(target, r.role, r.tenantId), newId, id); }
    case CallRemove(target, m) =>
      if After(p, act) != p { CallIs(p, act); RemovedUntouched(p, target, m, id); }
    case CallReinvite(target, invite) =>
      if After(p, act) != p { CallIs(p, act); InvitedUntouched(p, invite, target, id); }
  }

  lemma {:induction false} GrantAllKeepsRules(p: People, id: UserId, requests: seq<Request>, newIds: seq<MembershipId>)
    requires |newIds| == |requests| && WellFormed(p)
    ensures WellFormed(GrantAll(p, id, requests, newIds).people)
  {
    if requests != [] {
      var n := |requests| - 1;
      GrantAllKeepsRules(p, id, requests[..n], newIds[..n]);
      var before := GrantAll(p, id, requests[..n], newIds[..n]).people;
      GrantKeepsRules(before, Membership(id, requests[n].role, requests[n].tenantId), newIds[n]);
    }
  }

  lemma AfterKeepsRules(p: People, act: Act)
    requires Callable(act.call) && WellFormed(p)
    ensures WellFormed(After(p, act))
  {
    match act.call
    case CallCreate(x) =>
      CreateIs(p, act.actor, x);
      var c := UserCreated(p, x.id, x.email, x.name).people;
      UserCreatedKeepsRules(p, x.id, x.email, x.name);
      GrantAllKeepsRules(c, x.id, x.requests, x.newIds);
      InvitedKeepsRules(GrantAll(c, x.id, x.requests, x.newIds).people, x.invite, x.id);
    case CallSetStatus(id, status) =>
      if After(p, act) != p { CallIs(p, act); StatusChangedKeepsRules(p, id, status); }
    case CallAdd(id, r, newId) =>
      if After(p, act) != p { CallIs(p, act); GrantKeepsRules(p, Membership(id, r.role, r.tenantId), newId); }
    case CallRemove(id, m) =>
      if After(p, act) != p { CallIs(p, act); RemovedKeepsRules(p, id, m); }
    case CallReinvite(id, invite) =>
      if After(p, act) != p { CallIs(p, act); InvitedKeepsRules(p, invite, id); }
  }

  // ─── One call ──────────────────────────────────────────────────────────────

  /** A role nobody in a scope may touch: system admins for everyone, operators for all but system admins. */
  ghost predicate OutOfHands(actor: Principal, role: Role) {
    role == SystemAdmin || (role == Operator && !IsSystemAdmin(actor))
  }

  lemma HolderNotWithin(p: People, id: UserId, role: Role, tenants: set<TenantId>)
    requires Holds(p, id, role) && Platform(role)
    ensures !Within(p, id, tenants)
  {
    var m :| m in p.memberships && p.memberships[m].userId == id && p.memberships[m].role == role;
    assert m in Of(p, id);
  }

  lemma {:induction false} GrantAllRoles(p: People, id: UserId, requests: seq<Request>, newIds: seq<MembershipId>, m: MembershipId)
    requires |newIds| == |requests|
    requires m in GrantAll(p, id, requests, newIds).people.memberships && m !in p.memberships
    ensures exists r :: r in requests && GrantAll(p, id, requests, newIds).people.memberships[m] == Membership(id, r.role, r.tenantId)
  {
    var n := |requests| - 1;
    var before := GrantAll(p, id, requests[..n], newIds[..n]).people;
    if m in before.memberships {
      GrantAllRoles(p, id, requests[..n], newIds[..n], m);
      var r :| r in requests[..n] && before.memberships[m] == Membership(id, r.role, r.tenantId);
      assert r in requests;
    } else {
      assert requests[n] in requests;
    }
  }

  /** A membership that appears was one the actor may hand out. */
  lemma NewMembership(p: People, act: Act, m: MembershipId)
    requires Callable(act.call) && m in After(p, act).memberships && m !in p.memberships
    ensures ScopeOf(act.actor).Some?
    ensures var x := After(p, act).memberships[m];
            && !MayNotGrantRole(ScopeOf(act.actor).value, Request(x.role, x.tenantId))
            && (ScopeOf(act.actor).value.operator || MayGrant(ScopeOf(act.actor).value, Request(x.role, x.tenantId)))
  {
    if act.call.CallCreate? {
      var x := act.call.person;
      CreateIs(p, act.actor, x);
      var c := UserCreated(p, x.id, x.email, x.name).people;
      GrantAllRoles(c, x.id, x.requests, x.newIds, m);
      var r :| r in x.requests && After(p, act).memberships[m] == Membership(x.id, r.role, r.tenantId);
      assert r == Request(r.role, r.tenantId);
    } else {
      CallIs(p, act);
    }
  }

  ghost predicate Unharmed(p: People, p': People, me: UserId) {
    && me in p.users && me in p'.users
    && (p.users[me].status == Active ==> p'.users[me].status == Active)
    && (Of(p, me) != {} ==> Of(p', me) != {})
    && (forall m :: m in Of(p, me) && p.memberships[m].role == Operator ==> m in Of(p', me))
  }

  lemma OwnMembershipsKept(p: People, p': People, me: UserId)
    requires me in p.users && me in p'.users && (p.users[me].status == Active ==> p'.users[me].status == Active)
    requires forall m :: m in p.memberships ==> m in p'.memberships && p'.memberships[m] == p.memberships[m]
    ensures Unharmed(p, p', me)
  {
    forall m | m in Of(p, me) ensures m in Of(p', me) {}
  }

  lemma UntouchedUnharmed(p: People, p': People, me: UserId)
    requires Untouched(p, p', me)
    ensures Unharmed(p, p', me)
  {
    forall m | m in Of(p, me) ensures m in Of(p', me) {}
  }

  /** Nobody disables themselves, gives up an operator role of their own or their last role. */
  lemma NoSelfHarm(p: People, act: Act)
    requires Callable(act.call) && act.actor.Person? && act.actor.id in p.users
    ensures Unharmed(p, After(p, act), act.actor.id)
  {
    var me, p' := act.actor.id, After(p, act);
    if act.call.CallCreate? {
      CreateUntouched(p, act.actor, act.call.person, me);
      UntouchedUnharmed(p, p', me);
    } else if !Targets(act.call, me) {
      OthersUntouched(p, act, me);
      UntouchedUnharmed(p, p', me);
    } else if p' != p {
      CallIs(p, act);
      if act.call.CallRemove? {
        RemovalUnharmed(p, me, act.call.membership);
      } else {
        OwnMembershipsKept(p, p', me);
      }
    }
  }

  lemma RemovalUnharmed(p: People, me: UserId, m: MembershipId)
    requires me in p.users && m in Of(p, me) && p.memberships[m].role != Operator && |Of(p, me)| != 1
    ensures Unharmed(p, Removed(p, me, m).people, me)
  {
    var p' := Removed(p, me, m).people;
    if p' != p {
      assert Of(p', me) == Of(p, me) - {m};
      assert |Of(p', me)| == |Of(p, me)| - 1;
    }
  }

  // ─── What stays, step by step ──────────────────────────────────────────────

  lemma UntouchedChain(p: People, q: People, r: People, id: UserId)
    requires Untouched(p, q, id) && Untouched(q, r, id)
    ensures Untouched(p, r, id)
  {
  }

  lemma UntouchedHolds(p: People, q: People, id: UserId, role: Role)
    requires Untouched(p, q, id)
    ensures Holds(p, id, role) <==> Holds(q, id, role)
  {
    if Holds(p, id, role) {
      var m :| m in p.memberships && p.memberships[m].userId == id && p.memberships[m].role == role;
      assert m in q.memberships;
    }
  }

  predicate ManagerIn(x: Membership, tenants: set<TenantId>) {
    x.role == TenantManager && x.tenantId.Some? && x.tenantId.value in tenants
  }

  /** Only manager roles in these tenants come or go. */
  ghost predicate RolesConfined(p: People, p': People, tenants: set<TenantId>) {
    && (forall m :: m in p.memberships && !ManagerIn(p.memberships[m], tenants) ==> m in p'.memberships && p'.memberships[m] == p.memberships[m])
    && (forall m :: m in p'.memberships && !ManagerIn(p'.memberships[m], tenants) ==> m in p.memberships && p.memberships[m] == p'.memberships[m])
  }

  lemma UntouchedWithin(p: People, q: People, id: UserId, tenants: set<TenantId>)
    requires Untouched(p, q, id)
    ensures Within(p, id, tenants) <==> Within(q, id, tenants)
  {
    assert Of(p, id) == Of(q, id);
  }
}
