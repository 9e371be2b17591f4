/**
 * Exactly when each administrative call succeeds, in terms of the ranks its documentation describes
 * (auth/UserAdmin.ts): system admin over operator over tenant manager.
 */
module PeopleOutcomes {
  import opened Prelude
  import opened UserStore
  import opened UserAdmin
  import opened PeopleRules

  /** An API key ranks lowest, an operator key like an operator, the admin key like a system admin. */
  datatype Rank = Nobody | Manager | OperatorRank | Top

  function RankOf(actor: Principal): Rank {
    match actor
    case ApiKey => Nobody
    case AdminKey => Top
    case OperatorKey => OperatorRank
    case Person(_, roles) =>
      if exists m :: m in roles && m.role == SystemAdmin then Top
      else if exists m :: m in roles && m.role == Operator then OperatorRank
      else if exists m :: m in roles && m.role == TenantManager && m.tenantId.Some? then Manager
      else Nobody
  }

  /** Whom an actor sees: everyone, or the people wholly within the tenants they manage. */
  ghost predicate Sees(p: People, actor: Principal, id: UserId) {
    match RankOf(actor)
    case Nobody => false
    case Manager => Within(p, id, ManagedTenants(actor))
    case _ => id in p.users
  }

  /** Whom an actor may change: those they see who rank below them. */
  ghost predicate MayAdminister(p: People, actor: Principal, id: UserId) {
    && Sees(p, actor, id)
    && match RankOf(actor)
       case Top => !Holds(p, id, SystemAdmin)
       case _ => !Holds(p, id, SystemAdmin) && !Holds(p, id, Operator)
  }

  /** Which roles an actor may hand out. */
  ghost predicate MayHandOut(actor: Principal, r: Request) {
    match r.role
    case SystemAdmin => false
    case Operator => RankOf(actor) == Top
    case TenantManager =>
      match RankOf(actor)
      case Nobody => false
      case Manager => r.tenantId.Some? && r.tenantId.value in ManagedTenants(actor)
      case _ => true
  }

  ghost predicate WellAimed(p: People, r: Request) {
    if r.role == TenantManager then r.tenantId.Some? && r.tenantId.value in p.tenants else r.tenantId == None
  }

  ghost predicate Myself(actor: Principal, id: UserId) { actor.Person? && actor.id == id }

  // ─── Ranks are what the rules amount to ────────────────────────────────────

  lemma ScopeIsRank(actor: Principal)
    ensures ScopeOf(actor).None? <==> RankOf(actor) == Nobody
    ensures ScopeOf(actor).Some? ==>
              var scope := ScopeOf(actor).value;
              && scope.managed == ManagedTenants(actor)
              && (scope.operator <==> RankOf(actor) == OperatorRank || RankOf(actor) == Top)
              && (scope.systemAdmin <==> RankOf(actor) == Top)
              && (scope.viaOperatorKey ==> RankOf(actor) == OperatorRank)
              && scope.actorId == (if actor.Person? then Some(actor.id) else None)
  {
    if actor.Person? {
      forall m | m in actor.roles && m.role == TenantManager && m.tenantId.Some? ensures m.tenantId.value in ManagedTenants(actor) {}
      if ManagedTenants(actor) != {} {
        var t :| t in ManagedTenants(actor);
      }
    }
  }

  lemma RulesAreRanks(p: People, actor: Principal, id: UserId)
    requires ScopeOf(actor).Some?
    ensures Reaches(ScopeOf(actor).value, p, id) <==> Sees(p, actor, id)
    ensures Reaches(ScopeOf(actor).value, p, id) && !MayNotChange(ScopeOf(actor).value, p, id) <==> MayAdminister(p, actor, id)
  {
    ScopeIsRank(actor);
    if Holds(p, id, SystemAdmin) { HolderNotWithin(p, id, SystemAdmin, ManagedTenants(actor)); }
    if Holds(p, id, Operator) { HolderNotWithin(p, id, Operator, ManagedTenants(actor)); }
  }

  lemma GrantsAreRanks(actor: Principal, r: Request)
    requires ScopeOf(actor).Some?
    ensures var scope := ScopeOf(actor).value;
            (scope.operator || MayGrant(scope, r)) && !MayNotGrantRole(scope, r) <==> MayHandOut(actor, r)
  {
    ScopeIsRank(actor);
  }

  // ─── Exact outcomes ────────────────────────────────────────────────────────

  /** Somebody out of sight and somebody who does not exist look the same. */
  lemma OutOfSightIsNotFound(p: People, actor: Principal, id: UserId, status: Status, r: Request, m: MembershipId, newId: string)
    requires RankOf(actor) != Nobody
    ensures SetStatus(p, actor, id, status).result == Err(NotFound) <==> !Sees(p, actor, id)
    ensures AddMembership(p, actor, id, r, newId).result == Err(NotFound) <==> !Sees(p, actor, id)
    ensures Reinvite(p, actor, id, newId).result == Err(NotFound) <==> !Sees(p, actor, id)
    ensures RemoveMembership(p, actor, id, m).result == Err(NotFound) <==> !Sees(p, actor, id) || m !in Of(p, id)
  {
    ScopeIsRank(actor);
    RulesAreRanks(p, actor, id);
  }

  /** A status changes exactly if the actor ranks above the person, does not disable themselves, and an administrator is left. */
  lemma StatusChangesExactly(p: People, actor: Principal, id: UserId, status: Status)
    requires WellFormed(p)
    ensures var disabled := p.(users := if id in p.users then p.users[id := p.users[id].(status := Disabled)] else p.users);
            SetStatus(p, actor, id, status).result.Ok? <==>
              && MayAdminister(p, actor, id)
              && (status == Disabled ==> !Myself(actor, id) && (ActiveAdmins(p) == {} || ActiveAdmins(disabled) != {}))
  {
    ScopeIsRank(actor);
    if ScopeOf(actor).Some? {
      RulesAreRanks(p, actor, id);
      DisableRefusedExactly(p, id);
    }
  }

  /** A role is granted exactly if the actor ranks above the person, may hand it out, and it fits; an operator not to themselves. */
  lemma RoleGrantedExactly(p: People, actor: Principal, id: UserId, r: Request, newId: MembershipId)
    requires newId !in p.memberships
    ensures AddMembership(p, actor, id, r, newId).result.Ok? <==>
              && MayAdminister(p, actor, id) && MayHandOut(actor, r) && WellAimed(p, r)
              && !(Myself(actor, id) && r.role == TenantManager && RankOf(actor) != Manager)
    ensures AddMembership(p, actor, id, r, newId).result.Ok? ==>
              Granted(AddMembership(p, actor, id, r, newId).people, Membership(id, r.role, r.tenantId))
  {
    ScopeIsRank(actor);
    if ScopeOf(actor).Some? {
      RulesAreRanks(p, actor, id);
      GrantsAreRanks(actor, r);
      var x := Membership(id, r.role, r.tenantId);
      if AddMembership(p, actor, id, r, newId).result.Ok? && !Granted(p, x) {
        assert AddMembership(p, actor, id, r, newId).people.memberships[newId] == x;
      }
    }
  }

  /** A role is taken away exactly if the actor ranks above the person, it is not their own last or operator role, and an administrator is left. */
  lemma RoleRemovedExactly(p: People, actor: Principal, id: UserId, m: MembershipId)
    requires WellFormed(p)
    ensures RemoveMembership(p, actor, id, m).result.Ok? <==>
              && MayAdminister(p, actor, id) && m in Of(p, id)
              && !(Myself(actor, id) && (p.memberships[m].role == Operator || Of(p, id) == {m}))
              && (ActiveAdmins(p) == {} || ActiveAdmins(p.(memberships := p.memberships - {m})) != {})
    ensures RemoveMembership(p, actor, id, m).result.Ok? ==> m !in RemoveMembership(p, actor, id, m).people.memberships
  {
    ScopeIsRank(actor);
    if ScopeOf(actor).Some? && m in Of(p, id) {
      RulesAreRanks(p, actor, id);
      RemovalRefusedExactly(p, id, m);
      OnlyOne(Of(p, id), m);
    }
  }

  lemma OnlyOne<T>(s: set<T>, x: T)
    requires x in s
    ensures |s| == 1 <==> s == {x}
  {
    SubsetCount({x}, s);
  }

  /** An invite is reissued exactly for active people the actor ranks above. */
  lemma ReinvitedExactly(p: People, actor: Principal, id: UserId, invite: string)
    requires invite !in p.invites
    ensures Reinvite(p, actor, id, invite).result.Ok? <==> MayAdminister(p, actor, id) && p.users[id].status == Active
    ensures Reinvite(p, actor, id, invite).result.Ok? ==> Belongs(Reinvite(p, actor, id, invite).people.invites, id) == {invite}
  {
    ScopeIsRank(actor);
    if ScopeOf(actor).Some? {
      RulesAreRanks(p, actor, id);
    }
  }

  // ─── Which refusal ─────────────────────────────────────────────────────────

  /** No administrator would be left if the person were disabled. */
  ghost predicate LastOne(p: People, id: UserId) {
    && ActiveAdmins(p) != {}
    && ActiveAdmins(p.(users := if id in p.users then p.users[id := p.users[id].(status := Disabled)] else p.users)) == {}
  }

  /** Forbidden to nobodies, not found for people out of sight, a conflict on oneself or the last administrator, forbidden upwards. */
  lemma StatusAnswers(p: People, actor: Principal, id: UserId, status: Status)
    requires WellFormed(p)
    ensures var c := SetStatus(p, actor, id, status);
            && c.result ==
                 (if RankOf(actor) == Nobody then Err(Forbidden)
                  else if !Sees(p, actor, id) then Err(NotFound)
                  else if status == Disabled && Myself(actor, id) then Err(Conflict)
                  else if !MayAdminister(p, actor, id) then Err(Forbidden)
                  else if status == Disabled && LastOne(p, id) then Err(Conflict)
                  else Ok(p.users[id].(status := status)))
            && (c.result.Err? ==> c.people == p)
            && (c.result.Ok? ==> c.people.users[id].status == status)
  {
    ScopeIsRank(actor);
    if ScopeOf(actor).Some? {
      RulesAreRanks(p, actor, id);
      DisableRefusedExactly(p, id);
    }
  }

  /** A role that may not be handed out is forbidden before it is looked at, one that does not fit is invalid. */
  lemma GrantAnswers(p: People, actor: Principal, id: UserId, r: Request, newId: MembershipId)
    requires newId !in p.memberships
    ensures var c := AddMembership(p, actor, id, r, newId);
            && c.result ==
                 (if RankOf(actor) == Nobody then Err(Forbidden)
                  else if !Sees(p, actor, id) then Err(NotFound)
                  else if !MayAdminister(p, actor, id) || !MayHandOut(actor, r) then Err(Forbidden)
                  else if Myself(actor, id) && r.role == TenantManager && RankOf(actor) != Manager then Err(Forbidden)
                  else if !WellAimed(p, r) then Err(Invalid)
                  else Ok(AsMembership(id, r)))
            && (c.result.Err? ==> c.people == p)
  {
    ScopeIsRank(actor);
    if ScopeOf(actor).Some? {
      RulesAreRanks(p, actor, id);
      GrantsAreRanks(actor, r);
    }
  }

  lemma RemovalAnswers(p: People, actor: Principal, id: UserId, m: MembershipId)
    requires WellFormed(p)
    ensures var c := RemoveMembership(p, actor, id, m);
            && c.result ==
                 (if RankOf(actor) == Nobody then Err(Forbidden)
                  else if !Sees(p, actor, id) || m !in Of(p, id) then Err(NotFound)
                  else if Myself(actor, id) && (p.memberships[m].role == Operator || Of(p, id) == {m}) then Err(Conflict)
                  else if !MayAdminister(p, actor, id) then Err(Forbidden)
                  else if ActiveAdmins(p) != {} && ActiveAdmins(p.(memberships := p.memberships - {m})) == {} then Err(Conflict)
                  else Ok(()))
            && (c.result.Err? ==> c.people == p)
  {
    ScopeIsRank(actor);
    if ScopeOf(actor).Some? && m in Of(p, id) {
      RulesAreRanks(p, actor, id);
      RemovalRefusedExactly(p, id, m);
      OnlyOne(Of(p, id), m);
    }
    if ScopeOf(actor).Some? { RulesAreRanks(p, actor, id); }
  }

  lemma InviteAnswers(p: People, actor: Principal, id: UserId, invite: string)
    requires invite !in p.invites
    ensures var c := Reinvite(p, actor, id, invite);
            && c.result ==
                 (if RankOf(actor) == Nobody then Err(Forbidden)
                  else if !Sees(p, actor, id) then Err(NotFound)
                  else if p.users[id].status == Disabled then Err(Conflict)
                  else if !MayAdminister(p, actor, id) then Err(Forbidden)
                  else Ok(()))
            && (c.result.Err? ==> c.people == p)
  {
    ScopeIsRank(actor);
    if ScopeOf(actor).Some? { RulesAreRanks(p, actor, id); }
  }

  // ─── A new person ──────────────────────────────────────────────────────────

  function AsMembership(id: UserId, r: Request): Membership { Membership(id, r.role, r.tenantId) }

  lemma {:induction false} GrantAllGrants(p: People, id: UserId, requests: seq<Request>, newIds: seq<MembershipId>)
    requires |newIds| == |requests| && id in p.users && Distinct(newIds)
    requires (forall i :: 0 <= i < |newIds| ==> newIds[i] !in p.memberships) && forall r :: r in requests ==> WellAimed(p, r)
    ensures GrantAll(p, id, requests, newIds).result.Ok?
    ensures forall r :: r in requests ==> Granted(GrantAll(p, id, requests, newIds).people, AsMembership(id, r))
    ensures forall m :: m in GrantAll(p, id, requests, newIds).people.memberships ==> m in p.memberships || m in newIds
  {
    if requests != [] {
      var n := |requests| - 1;
      GrantAllGrants(p, id, requests[..n], newIds[..n]);
      GrantAllOnlyGrants(p, id, requests[..n], newIds[..n]);
      var before := GrantAll(p, id, requests[..n], newIds[..n]).people;
      var x := AsMembership(id, requests[n]);
      assert newIds[n] !in newIds[..n] && newIds[n] !in before.memberships;
      assert requests[n] in requests && WellAimed(before, requests[n]);
      OneMoreGranted(before, x, newIds[n]);
      var after := GrantAll(p, id, requests, newIds).people;
      assert after == Grant(before, x, newIds[n]).people;
      forall r | r in requests ensures Granted(after, AsMembership(id, r)) {
        assert r in requests[..n] || r == requests[n];
      }
      forall m | m in after.memberships ensures m in p.memberships || m in newIds {
        assert m in newIds[..n] ==> m in newIds;
      }
    }
  }

  lemma OneMoreGranted(p: People, x: Membership, newId: MembershipId)
    requires newId !in p.memberships && x.userId in p.users && WellAimed(p, Request(x.role, x.tenantId))
    ensures Grant(p, x, newId).result.Ok? && Granted(Grant(p, x, newId).people, x)
    ensures forall y :: Granted(p, y) ==> Granted(Grant(p, x, newId).people, y)
    ensures forall m :: m in Grant(p, x, newId).people.memberships ==> m in p.memberships || m == newId
  {
    var p' := Grant(p, x, newId).people;
    if !Granted(p, x) { assert p'.memberships[newId] == x; }
    forall y | Granted(p, y) ensures Granted(p', y) {
      var m :| m in p.memberships && p.memberships[m] == y;
      assert p'.memberships[m] == y;
    }
  }

  ghost predicate Unused(p: People, x: NewPerson) {
    && x.id !in p.users && x.invite !in p.invites && !x.auditFails
    && |x.newIds| == |x.requests| && Distinct(x.newIds) && forall i :: 0 <= i < |x.newIds| ==> x.newIds[i] !in p.memberships
  }

  ghost predicate GoodDetails(p: People, x: NewPerson) {
    && x.email.Some? && x.name != "" && |x.name| <= MAX_NAME
    && forall u :: u in p.users ==> p.users[u].email != x.email.value
  }

  /**
   * With ids nobody uses, a person is created exactly if the actor may hand out every role asked for (a manager
   * at least one), the roles fit, and the details are good.
   */
  lemma PersonCreatedExactly(p: People, actor: Principal, x: NewPerson)
    requires Unused(p, x)
    ensures Create(p, actor, x).result.Ok? <==>
              && RankOf(actor) != Nobody && (RankOf(actor) == Manager ==> x.requests != [])
              && (forall r :: r in x.requests ==> MayHandOut(actor, r) && WellAimed(p, r))
              && GoodDetails(p, x)
  {
    ScopeIsRank(actor);
    if ScopeOf(actor).Some? {
      DeniedIsRank(p, actor, x);
      var c := UserCreated(p, x.id, x.email, x.name);
      if CreateDenied(ScopeOf(actor).value, p, x).None? && c.result.Ok? {
        assert forall r :: r in x.requests ==> WellAimed(c.people, r);
        GrantAllGrants(c.people, x.id, x.requests, x.newIds);
        GrantAllOnlyGrants(c.people, x.id, x.requests, x.newIds);
      }
    }
  }

  lemma DeniedIsRank(p: People, actor: Principal, x: NewPerson)
    requires ScopeOf(actor).Some?
    ensures CreateDenied(ScopeOf(actor).value, p, x).None? <==>
              && (RankOf(actor) == Manager ==> x.requests != [])
              && forall r :: r in x.requests ==> MayHandOut(actor, r) && WellAimed(p, r)
  {
    ScopeIsRank(actor);
    forall r | r in x.requests
      ensures (ScopeOf(actor).value.operator || MayGrant(ScopeOf(actor).value, r)) && !MayNotGrantRole(ScopeOf(actor).value, r)
              <==> MayHandOut(actor, r)
      ensures MayHandOut(actor, r) ==> (!IsInvalid(p, r) <==> WellAimed(p, r))
    {
      GrantsAreRanks(actor, r);
    }
  }

  /** After the grants: the roles asked for, and no others. */
  lemma NewRoles(c: People, x: NewPerson)
    requires |x.newIds| == |x.requests| && Distinct(x.newIds) && x.id in c.users && Of(c, x.id) == {}
    requires (forall i :: 0 <= i < |x.newIds| ==> x.newIds[i] !in c.memberships) && forall r :: r in x.requests ==> WellAimed(c, r)
    ensures var g := GrantAll(c, x.id, x.requests, x.newIds).people;
            && g == c.(memberships := g.memberships)
            && (forall r :: r in x.requests ==> Granted(g, AsMembership(x.id, r)))
            && (forall m :: m in Of(g, x.id) ==> Request(g.memberships[m].role, g.memberships[m].tenantId) in x.requests)
  {
    var g := GrantAll(c, x.id, x.requests, x.newIds).people;
    GrantAllGrants(c, x.id, x.requests, x.newIds);
    GrantAllOnlyGrants(c, x.id, x.requests, x.newIds);
    forall m | m in Of(g, x.id) ensures Request(g.memberships[m].role, g.memberships[m].tenantId) in x.requests {
      assert m !in Of(c, x.id);
      GrantAllRoles(c, x.id, x.requests, x.newIds, m);
      var r :| r in x.requests && g.memberships[m] == Membership(x.id, r.role, r.tenantId);
      assert r == Request(r.role, r.tenantId);
    }
  }

  /** A creation that is refused leaves nothing: forbidden by rank, invalid if a role or the details do not fit, a conflict if the email is taken. */
  lemma CreationAnswers(p: People, actor: Principal, x: NewPerson)
    requires WellFormed(p) && Unused(p, x)
    ensures var c := Create(p, actor, x);
            && c.result ==
                 (if RankOf(actor) == Nobody || (RankOf(actor) == Manager && x.requests == []) then Err(Forbidden)
                  else if exists r :: r in x.requests && !MayHandOut(actor, r) then Err(Forbidden)
                  else if exists r :: r in x.requests && !WellAimed(p, r) then Err(Invalid)
                  else if x.email.None? || x.name == "" || |x.name| > MAX_NAME then Err(Invalid)
                  else if exists u :: u in p.users && p.users[u].email == x.email.value then Err(Conflict)
                  else Ok(x.id))
            && (c.result.Err? ==> c.people == p)
  {
    ScopeIsRank(actor);
    PersonCreatedExactly(p, actor, x);
    if ScopeOf(actor).Some? {
      var scope := ScopeOf(actor).value;
      forall r | r in x.requests
        ensures (scope.operator || MayGrant(scope, r)) && !MayNotGrantRole(scope, r) <==> MayHandOut(actor, r)
        ensures MayHandOut(actor, r) ==> (IsInvalid(p, r) <==> !WellAimed(p, r))
      {
        GrantsAreRanks(actor, r);
      }
    }
  }

  /** Whatever goes wrong, an id in use or an entry that cannot be written included, a creation that fails leaves nothing. */
  lemma FailedCreationLeavesNothing(p: People, actor: Principal, x: NewPerson)
    requires |x.newIds| == |x.requests|
    ensures Create(p, actor, x).result.Err? ==> Create(p, actor, x).people == p
    ensures Create(p, actor, x).result.Ok? ==> !x.auditFails && x.id !in p.users && x.id in Create(p, actor, x).people.users
  {
    CreateIs(p, actor, x);
    if Create(p, actor, x).result.Ok? { GrantAllOnlyGrants(UserCreated(p, x.id, x.email, x.name).people, x.id, x.requests, x.newIds); }
  }

  /** The new person is active, has exactly the roles asked for and exactly this invite. */
  lemma CreatedPersonHas(p: People, actor: Principal, x: NewPerson)
    requires WellFormed(p) && Unused(p, x) && Create(p, actor, x).result.Ok?
    ensures var p' := Create(p, actor, x).people;
            && x.id in p'.users && p'.users[x.id].status == Active
            && (forall r :: r in x.requests ==> Granted(p', AsMembership(x.id, r)))
            && (forall m :: m in Of(p', x.id) ==> Request(p'.memberships[m].role, p'.memberships[m].tenantId) in x.requests)
            && Belongs(p'.invites, x.id) == {x.invite}
  {
    PersonCreatedExactly(p, actor, x);
    var c := UserCreated(p, x.id, x.email, x.name).people;
    assert c == p.(users := p.users[x.id := User(x.email.value, x.name, Active)]);
    assert Of(c, x.id) == {};
    NewRoles(c, x);
    InvitedIs(GrantAll(c, x.id, x.requests, x.newIds).people, x, Create(p, actor, x).people);
  }

  lemma InvitedIs(g: People, x: NewPerson, p': People)
    requires x.id in g.users && x.invite !in g.invites && p' == Invited(g, x.invite, x.id).people
    ensures p' == g.(invites := p'.invites) && Belongs(p'.invites, x.id) == {x.invite}
    ensures Of(p', x.id) == Of(g, x.id) && forall y :: Granted(g, y) <==> Granted(p', y)
  {
  }
}
