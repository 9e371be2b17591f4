/** The rules by which people are administered, and the calls (auth/UserAdmin.ts, auth/principal.ts). */
module UserAdmin {
  import opened Prelude
  import opened UserStore

  datatype Principal =
    | Person(id: UserId, roles: seq<Membership>)
    | ApiKey
    | AdminKey
    | OperatorKey

  predicate IsSystemAdmin(actor: Principal) {
    actor.AdminKey? || (actor.Person? && exists m :: m in actor.roles && m.role == SystemAdmin)
  }

  predicate IsOperator(actor: Principal) {
    || actor.AdminKey?
    || actor.OperatorKey?
    || (actor.Person? && exists m :: m in actor.roles && Platform(m.role))
  }

  function ManagedTenants(actor: Principal): set<TenantId> {
    if actor.Person? then set m | m in actor.roles && m.role == TenantManager && m.tenantId.Some? :: m.tenantId.value else {}
  }

  datatype Failure = Forbidden | NotFound | Conflict | Invalid | Thrown

  datatype Scope = Scope(
    actorId: Option<UserId>, viaOperatorKey: bool, operator: bool, systemAdmin: bool, managed: set<TenantId>)

  datatype Request = Request(role: Role, tenantId: Option<TenantId>)

  // ─── Rules ─────────────────────────────────────────────────────────────────

  function ScopeOf(actor: Principal): Option<Scope> {
    if actor.ApiKey? || (!IsOperator(actor) && ManagedTenants(actor) == {}) then None
    else
      Some(Scope(if actor.Person? then Some(actor.id) else None, actor.OperatorKey?, IsOperator(actor),
                 IsSystemAdmin(actor), ManagedTenants(actor)))
  }

  predicate Reaches(scope: Scope, p: People, id: UserId) {
    id in p.users && (scope.operator || Within(p, id, scope.managed))
  }

  predicate MayGrant(scope: Scope, r: Request) {
    r.role == TenantManager && r.tenantId.Some? && r.tenantId.value in scope.managed
  }

  predicate MayNotGrantRole(scope: Scope, r: Request) {
    r.role == SystemAdmin || (r.role == Operator && (scope.viaOperatorKey || !scope.systemAdmin))
  }

  predicate MayNotChange(scope: Scope, p: People, id: UserId) {
    Holds(p, id, SystemAdmin) || (!scope.systemAdmin && scope.operator && Holds(p, id, Operator))
  }

  predicate IsInvalid(p: People, r: Request) {
    || (r.role == Operator && r.tenantId.Some?)
    || (r.role == TenantManager && (r.tenantId.None? || r.tenantId.value !in p.tenants))
    || r.role == SystemAdmin
  }

  function FromStoreError(e: StoreError): Failure {
    match e
    case EmailTaken => Conflict
    case LastOperator => Conflict
    case UserInput => Invalid
    case Unexpected => Thrown
  }

  function Denied<T>(p: People, f: Failure): Change<T, Failure> { Change(p, Err(f)) }

  // ─── Calls, each taken as one step ─────────────────────────────────────────

  /** Grants one request after another, up to the first that fails. */
  function GrantAll(p: People, id: UserId, requests: seq<Request>, newIds: seq<MembershipId>): Change<(), StoreError>
    requires |newIds| == |requests|
  {
    if requests == [] then Change(p, Ok(()))
    else
      var n := |requests| - 1;
      var before := GrantAll(p, id, requests[..n], newIds[..n]);
      if before.result.Err? then before
      else
        var c := Grant(before.people, Membership(id, requests[n].role, requests[n].tenantId), newIds[n]);
        Change(c.people, if c.result.Err? then Err(c.result.error) else Ok(()))
  }

  /** `auditFails`: the audit entry cannot be written, which undoes the change. */
  datatype NewPerson = NewPerson(
    id: UserId, email: Option<string>, name: string, requests: seq<Request>, newIds: seq<MembershipId>,
    invite: string, auditFails: bool)

  function CreateDenied(scope: Scope, p: People, x: NewPerson): Option<Failure> {
    if !scope.operator && (x.requests == [] || exists r :: r in x.requests && !MayGrant(scope, r)) then Some(Forbidden)
    else if exists r :: r in x.requests && MayNotGrantRole(scope, r) then Some(Forbidden)
    else if exists r :: r in x.requests && IsInvalid(p, r) then Some(Invalid)
    else None
  }

  function Create(p: People, actor: Principal, x: NewPerson): Change<UserId, Failure>
    requires |x.newIds| == |x.requests|
  {
    match ScopeOf(actor)
    case None => Denied(p, Forbidden)
    case Some(scope) =>
      var denied := CreateDenied(scope, p, x);
      if denied.Some? then Denied(p, denied.value)
      else
        var c := UserCreated(p, x.id, x.email, x.name);
        if c.result.Err? then Denied(p, FromStoreError(c.result.error))
        else
          var g := GrantAll(c.people, x.id, x.requests, x.newIds);
          if g.result.Err? then Denied(p, FromStoreError(g.result.error))
          else
            var i := Invited(g.people, x.invite, x.id);
            if i.result.Err? || x.auditFails then Denied(p, Thrown) else Change(i.people, Ok(x.id))
  }

  function SetStatus(p: People, actor: Principal, id: UserId, status: Status): Change<User, Failure> {
    match ScopeOf(actor)
    case None => Denied(p, Forbidden)
    case Some(scope) =>
      if !Reaches(scope, p, id) then Denied(p, NotFound)
      else if status == Disabled && scope.actorId == Some(id) then Denied(p, Conflict)
      else if MayNotChange(scope, p, id) then Denied(p, Forbidden)
      else
        var c := StatusChanged(p, id, status);
        if c.result.Err? then Denied(p, FromStoreError(c.result.error))
        else Change(c.people, Ok(p.users[id].(status := status)))
  }

  function AddMembership(p: People, actor: Principal, id: UserId, r: Request, newId: MembershipId): Change<Membership, Failure> {
    match ScopeOf(actor)
    case None => Denied(p, Forbidden)
    case Some(scope) =>
      if !Reaches(scope, p, id) then Denied(p, NotFound)
      else if !scope.operator && !MayGrant(scope, r) then Denied(p, Forbidden)
      else if scope.operator && scope.actorId == Some(id) && r.role == TenantManager then Denied(p, Forbidden)
      else if MayNotGrantRole(scope, r) || MayNotChange(scope, p, id) then Denied(p, Forbidden)
      else if IsInvalid(p, r) then Denied(p, Invalid)
      else
        var c := Grant(p, Membership(id, r.role, r.tenantId), newId);
        if c.result.Err? then Denied(p, FromStoreError(c.result.error))
        else Change(c.people, Ok(c.result.value))
  }

  function RemoveMembership(p: People, actor: Principal, id: UserId, m: MembershipId): Change<(), Failure> {
    match ScopeOf(actor)
    case None => Denied(p, Forbidden)
    case Some(scope) =>
      if !Reaches(scope, p, id) || m !in Of(p, id) then Denied(p, NotFound)
      else if scope.actorId == Some(id) && (p.memberships[m].role == Operator || |Of(p, id)| == 1) then Denied(p, Conflict)
      else if MayNotChange(scope, p, id) then Denied(p, Forbidden)
      else
        var c := Removed(p, id, m);
        if c.result.Err? then Denied(p, FromStoreError(c.result.error))
        else Change(c.people, Ok(()))
  }

  function Reinvite(p: People, actor: Principal, id: UserId, invite: string): Change<(), Failure> {
    match ScopeOf(actor)
    case None => Denied(p, Forbidden)
    case Some(scope) =>
      if !Reaches(scope, p, id) then Denied(p, NotFound)
      else if p.users[id].status != Active then Denied(p, Conflict)
      else if MayNotChange(scope, p, id) then Denied(p, Forbidden)
      else
        var c := Invited(p, invite, id);
        if c.result.Err? then Denied(p, Thrown) else Change(c.people, Ok(()))
  }

  // ─── The object ────────────────────────────────────────────────────────────

  class Administration {
    const store: Store

    constructor (store: Store)
      ensures this.store == store
    {
      this.store := store;
    }

    method Reach(scope: Scope, id: UserId) returns (user: Option<User>)
      ensures user == if Reaches(scope, store.State(), id) then Some(store.users[id]) else None
    {
      if scope.operator || Within(store.State(), id, scope.managed) {
        return if id in store.users then Some(store.users[id]) else None;
      }
      user := None;
    }

    /** The checks before anything is written: three passes over the requested roles. */
    method MayCreate(scope: Scope, x: NewPerson) returns (denied: Option<Failure>)
      ensures denied == CreateDenied(scope, store.State(), x)
    {
      if !scope.operator {
        if x.requests == [] { return Some(Forbidden); }
        for i := 0 to |x.requests|
          invariant forall j :: 0 <= j < i ==> MayGrant(scope, x.requests[j])
        {
          if !MayGrant(scope, x.requests[i]) { return Some(Forbidden); }
        }
      }
      for i := 0 to |x.requests|
        invariant forall j :: 0 <= j < i ==> !MayNotGrantRole(scope, x.requests[j])
      {
        if MayNotGrantRole(scope, x.requests[i]) { return Some(Forbidden); }
      }
      for i := 0 to |x.requests|
        invariant forall j :: 0 <= j < i ==> !IsInvalid(store.State(), x.requests[j])
      {
        if IsInvalid(store.State(), x.requests[i]) { return Some(Invalid); }
      }
      denied := None;
    }

    /** Grants what is asked for, one role after another, up to the first refusal. */
    method GrantEach(x: NewPerson) returns (result: Result<(), StoreError>)
      requires |x.newIds| == |x.requests|
      modifies store
      ensures Change(store.State(), result) == GrantAll(old(store.State()), x.id, x.requests, x.newIds)
    {
      ghost var alone := store.State();
      for i := 0 to |x.requests|
        invariant Change(store.State(), Ok(())) == GrantAll(alone, x.id, x.requests[..i], x.newIds[..i])
      {
        GrantAllNext(alone, x.id, x.requests, x.newIds, i);
        var granted := store.AddMembership(Membership(x.id, x.requests[i].role, x.requests[i].tenantId), x.newIds[i]);
        if granted.Err? {
          GrantAllStops(alone, x.id, x.requests, x.newIds, i + 1);
          return Err(granted.error);
        }
      }
      assert x.requests[..|x.requests|] == x.requests && x.newIds[..|x.requests|] == x.newIds;
      result := Ok(());
    }

    /** A person half created is deleted again, and that leaves the tables as they were. */
    method CreatePerson(actor: Principal, x: NewPerson) returns (result: Result<UserId, Failure>)
      requires |x.newIds| == |x.requests| && WellFormed(store.State())
      modifies store
      ensures Change(store.State(), result) == Create(old(store.State()), actor, x)
    {
      var scope := ScopeOf(actor);
      if scope.None? { return Err(Forbidden); }
      var denied := MayCreate(scope.value, x);
      if denied.Some? { return Err(denied.value); }
      ghost var before := store.State();
      var created := store.CreateUser(x.id, x.email, x.name);
      if created.Err? { return Err(FromStoreError(created.error)); }
      ghost var alone := store.State();
      var granted := GrantEach(x);
      ghost var staffed := store.State();
      DeletedAgain(before, alone, x);
      if granted.Err? {
        store.DeleteUser(x.id);
        return Err(FromStoreError(granted.error));
      }
      var invited := store.CreateInvite(x.invite, x.id);
      if invited.Err? || x.auditFails {
        InviteDeletedAgain(staffed, x.invite, x.id);
        store.DeleteUser(x.id);
        return Err(Thrown);
      }
      result := Ok(x.id);
    }

    method ChangeStatus(actor: Principal, id: UserId, status: Status) returns (result: Result<User, Failure>)
      modifies store
      ensures Change(store.State(), result) == SetStatus(old(store.State()), actor, id, status)
    {
      var scope := ScopeOf(actor);
      if scope.None? { return Err(Forbidden); }
      var target := Reach(scope.value, id);
      if target.None? { return Err(NotFound); }
      if status == Disabled && scope.value.actorId == Some(id) { return Err(Conflict); }
      if MayNotChange(scope.value, store.State(), id) { return Err(Forbidden); }
      ghost var before := store.State();
      var changed := store.SetStatus(id, status);
      if changed.Err? { return Err(FromStoreError(changed.error)); }
      assert Of(store.State(), id) == Of(before, id);
      var again := Reach(scope.value, id);
      result := if again.None? then Err(NotFound) else Ok(again.value);
    }

    method GrantMembership(actor: Principal, id: UserId, r: Request, newId: MembershipId) returns (result: Result<Membership, Failure>)
      modifies store
      ensures Change(store.State(), result) == AddMembership(old(store.State()), actor, id, r, newId)
    {
      var scope := ScopeOf(actor);
      if scope.None? { return Err(Forbidden); }
      var target := Reach(scope.value, id);
      if target.None? { return Err(NotFound); }
      if !scope.value.operator && !MayGrant(scope.value, r) { return Err(Forbidden); }
      if scope.value.operator && scope.value.actorId == Some(id) && r.role == TenantManager { return Err(Forbidden); }
      if MayNotGrantRole(scope.value, r) || MayNotChange(scope.value, store.State(), id) { return Err(Forbidden); }
      if IsInvalid(store.State(), r) { return Err(Invalid); }
      var granted := store.AddMembership(Membership(id, r.role, r.tenantId), newId);
      result := if granted.Err? then Err(FromStoreError(granted.error)) else Ok(granted.value);
    }

    method RevokeMembership(actor: Principal, id: UserId, m: MembershipId) returns (result: Result<(), Failure>)
      modifies store
      ensures Change(store.State(), result) == RemoveMembership(old(store.State()), actor, id, m)
    {
      var scope := ScopeOf(actor);
      if scope.None? { return Err(Forbidden); }
      var target := Reach(scope.value, id);
      if target.None? { return Err(NotFound); }
      var mine := Of(store.State(), id);
      if m !in mine { return Err(NotFound); }
      if scope.value.actorId == Some(id) && (store.memberships[m].role == Operator || |mine| == 1) { return Err(Conflict); }
      if MayNotChange(scope.value, store.State(), id) { return Err(Forbidden); }
      var removed := store.RemoveMembership(id, m);
      result := if removed.Err? then Err(FromStoreError(removed.error)) else Ok(());
    }

    method InviteAgain(actor: Principal, id: UserId, invite: string) returns (result: Result<(), Failure>)
      modifies store
      ensures Change(store.State(), result) == Reinvite(old(store.State()), actor, id, invite)
    {
      var scope := ScopeOf(actor);
      if scope.None? { return Err(Forbidden); }
      var target := Reach(scope.value, id);
      if target.None? { return Err(NotFound); }
      if target.value.status != Active { return Err(Conflict); }
      if MayNotChange(scope.value, store.State(), id) { return Err(Forbidden); }
      var invited := store.CreateInvite(invite, id);
      result := if invited.Err? then Err(Thrown) else Ok(());
    }
  }

  // ─── Undoing a half-made creation ──────────────────────────────────────────

  /** What the grants of a creation can have touched: memberships of the new person, and nothing else. */
  ghost predicate OnlyGrantsTo(p: People, p': People, id: UserId) {
    && p' == p.(memberships := p'.memberships)
    && (forall m :: m in p.memberships ==> m in p'.memberships && p'.memberships[m] == p.memberships[m])
    && (forall m :: m in p'.memberships && m !in p.memberships ==> p'.memberships[m].userId == id)
  }

  lemma {:induction false} GrantAllOnlyGrants(p: People, id: UserId, requests: seq<Request>, newIds: seq<MembershipId>)
    requires |newIds| == |requests|
    ensures OnlyGrantsTo(p, GrantAll(p, id, requests, newIds).people, id)
  {
    if requests != [] {
      var n := |requests| - 1;
      GrantAllOnlyGrants(p, id, requests[..n], newIds[..n]);
    }
  }

  /** The first failure decides the whole. */
  lemma {:induction false} GrantAllStops(p: People, id: UserId, requests: seq<Request>, newIds: seq<MembershipId>, k: nat)
    requires |newIds| == |requests| && k <= |requests|
    requires GrantAll(p, id, requests[..k], newIds[..k]).result.Err?
    ensures GrantAll(p, id, requests, newIds) == GrantAll(p, id, requests[..k], newIds[..k])
  {
    var n := |requests|;
    if k == n {
      assert requests[..k] == requests && newIds[..k] == newIds;
    } else {
      assert requests[..n - 1][..k] == requests[..k] && newIds[..n - 1][..k] == newIds[..k];
      GrantAllStops(p, id, requests[..n - 1], newIds[..n - 1], k);
    }
  }

  lemma GrantAllNext(p: People, id: UserId, requests: seq<Request>, newIds: seq<MembershipId>, i: nat)
    requires |newIds| == |requests| && i < |requests| && GrantAll(p, id, requests[..i], newIds[..i]).result.Ok?
    ensures var c := Grant(GrantAll(p, id, requests[..i], newIds[..i]).people,
                           Membership(id, requests[i].role, requests[i].tenantId), newIds[i]);
            GrantAll(p, id, requests[..i + 1], newIds[..i + 1]) ==
              Change(c.people, if c.result.Err? then Err(c.result.error) else Ok(()))
  {
    assert requests[..i + 1][..i] == requests[..i] && newIds[..i + 1][..i] == newIds[..i];
  }

  lemma DeletedAgain(p: People, alone: People, x: NewPerson)
    requires WellFormed(p) && |x.newIds| == |x.requests|
    requires UserCreated(p, x.id, x.email, x.name) == Change(alone, Ok(x.id))
    ensures UserDeleted(GrantAll(alone, x.id, x.requests, x.newIds).people, x.id) == p
  {
    GrantAllOnlyGrants(alone, x.id, x.requests, x.newIds);
    OnlyGrantsUndone(p, alone, GrantAll(alone, x.id, x.requests, x.newIds).people, x.id);
  }

  lemma OnlyGrantsUndone(p: People, alone: People, now: People, id: UserId)
    requires WellFormed(p) && id !in p.users
    requires alone == p.(users := alone.users) && alone.users - {id} == p.users
    requires OnlyGrantsTo(alone, now, id)
    ensures UserDeleted(now, id) == p
  {
    assert now.memberships - Of(now, id) == p.memberships;
    assert Belonging(p.sessions, id) == p.sessions;
    assert Belonging(p.invites, id) == p.invites;
  }

  lemma InviteDeletedAgain(p: People, invite: string, id: UserId)
    ensures UserDeleted(Invited(p, invite, id).people, id) == UserDeleted(p, id)
  {
    var c := Invited(p, invite, id).people;
    assert Belonging(c.invites, id) == Belonging(p.invites, id);
    assert Of(c, id) == Of(p, id);
  }
}
