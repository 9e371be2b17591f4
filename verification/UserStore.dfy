/** The tables of people and the transactions on them (db/UserStore.ts, db/InviteStore.ts). */
module UserStore {
  import opened Prelude

  type UserId = string
  type MembershipId = string
  type TenantId = string

  datatype Status = Active | Disabled
  datatype Role = SystemAdmin | Operator | TenantManager

  datatype User = User(email: string, name: string, status: Status)
  datatype Membership = Membership(userId: UserId, role: Role, tenantId: Option<TenantId>)

  /** `sessions` and unused `invites` by id, each with the person it belongs to. */
  datatype People = People(
    users: map<UserId, User>,
    memberships: map<MembershipId, Membership>,
    tenants: set<TenantId>,
    sessions: map<string, UserId>,
    invites: map<string, UserId>
  )

  datatype StoreError = UserInput | EmailTaken | LastOperator | Unexpected

  datatype Result<+T, +E> = Ok(value: T) | Err(error: E)

  /** What a transaction leaves in the tables, and what it answers. */
  datatype Change<+T, +E> = Change(people: People, result: Result<T, E>)

  predicate Platform(role: Role) { role != TenantManager }

  function Of(p: People, id: UserId): set<MembershipId> {
    set m | m in p.memberships && p.memberships[m].userId == id
  }

  predicate Holds(p: People, id: UserId, role: Role) {
    exists m :: m in p.memberships && p.memberships[m].userId == id && p.memberships[m].role == role
  }

  /** The rules the schema itself enforces: foreign keys, the shape of a role, one membership per grant. */
  ghost predicate WellFormed(p: People) {
    && (forall m :: m in p.memberships ==>
          var x := p.memberships[m];
          && x.userId in p.users
          && (if Platform(x.role) then x.tenantId == None else x.tenantId.Some? && x.tenantId.value in p.tenants))
    && (forall m, n :: m in p.memberships && n in p.memberships && p.memberships[m] == p.memberships[n] ==> m == n)
    && (forall u, v :: u in p.users && v in p.users && p.users[u].email == p.users[v].email ==> u == v)
    && (forall s :: s in p.sessions ==> p.sessions[s] in p.users)
    && (forall i :: i in p.invites ==> p.invites[i] in p.users)
  }

  // ─── The last administrator ────────────────────────────────────────────────

  /** People who hold a platform role and are active. */
  function ActiveAdmins(p: People): set<UserId> {
    set m | m in p.memberships && Platform(p.memberships[m].role)
            && p.memberships[m].userId in p.users && p.users[p.memberships[m].userId].status == Active
      :: p.memberships[m].userId
  }

  predicate KeepsRole(p: People, id: UserId, except: Option<MembershipId>) {
    exists m :: m in p.memberships && p.memberships[m].userId == id && Platform(p.memberships[m].role) && Some(m) != except
  }

  /** `assertNotLastAdmin`: whether the change must be refused. */
  predicate IsLastAdmin(p: People, id: UserId, except: Option<MembershipId>) {
    && id in ActiveAdmins(p)
    && ActiveAdmins(p) - {id} == {}
    && !(except.Some? && KeepsRole(p, id, except))
  }

  // ─── Transactions ──────────────────────────────────────────────────────────

  function StatusChanged(p: People, id: UserId, status: Status): Change<bool, StoreError> {
    if status == Disabled && IsLastAdmin(p, id, None) then Change(p, Err(LastOperator))
    else if id !in p.users then Change(p, Ok(false))
    else
      Change(p.(users := p.users[id := p.users[id].(status := status)],
                sessions := if status == Disabled then Belonging(p.sessions, id) else p.sessions),
             Ok(true))
  }

  /** The sessions or invites of one person. */
  ghost function Belongs(entries: map<string, UserId>, id: UserId): set<string> {
    set e | e in entries && entries[e] == id
  }

  /** The entries that belong to someone else. */
  function Belonging(entries: map<string, UserId>, id: UserId): map<string, UserId> {
    map e | e in entries && entries[e] != id :: entries[e]
  }

  function Removed(p: People, id: UserId, m: MembershipId): Change<bool, StoreError> {
    if m !in Of(p, id) then Change(p, Ok(false))
    else if Platform(p.memberships[m].role) && IsLastAdmin(p, id, Some(m)) then Change(p, Err(LastOperator))
    else Change(p.(memberships := p.memberships - {m}), Ok(true))
  }

  predicate Granted(p: People, x: Membership) { exists m :: m in p.memberships && p.memberships[m] == x }

  /** Granting what a person already has changes nothing. */
  function Grant(p: People, x: Membership, newId: MembershipId): Change<Membership, StoreError> {
    if Platform(x.role) != x.tenantId.None? then Change(p, Err(UserInput))
    else if Granted(p, x) then Change(p, Ok(x))
    else if newId in p.memberships then Change(p, Err(Unexpected))
    else if x.userId !in p.users || (x.tenantId.Some? && x.tenantId.value !in p.tenants) then Change(p, Err(UserInput))
    else Change(p.(memberships := p.memberships[newId := x]), Ok(x))
  }

  const MAX_NAME := 255

  /** `email` is None when it does not normalize; the name is already trimmed. */
  function UserCreated(p: People, id: UserId, email: Option<string>, name: string): Change<UserId, StoreError> {
    if email.None? || name == "" || |name| > MAX_NAME then Change(p, Err(UserInput))
    else if id in p.users || exists u :: u in p.users && p.users[u].email == email.value then Change(p, Err(EmailTaken))
    else Change(p.(users := p.users[id := User(email.value, name, Active)]), Ok(id))
  }

  /** Everything that hangs off a person goes with them. */
  function UserDeleted(p: People, id: UserId): People {
    People(p.users - {id}, p.memberships - Of(p, id), p.tenants, Belonging(p.sessions, id), Belonging(p.invites, id))
  }

  /** A new invite replaces the unused ones of the same person. */
  function Invited(p: People, invite: string, id: UserId): Change<(), StoreError> {
    var others := Belonging(p.invites, id);
    if invite in others || id !in p.users then Change(p, Err(Unexpected))
    else Change(p.(invites := others[invite := id]), Ok(()))
  }

  predicate Within(p: People, id: UserId, tenants: set<TenantId>) {
    && id in p.users
    && Of(p, id) != {}
    && forall m :: m in Of(p, id) ==>
         p.memberships[m].role == TenantManager && p.memberships[m].tenantId.Some? && p.memberships[m].tenantId.value in tenants
  }

  // ─── What every transaction keeps ──────────────────────────────────────────

  lemma StatusChangedKeepsRules(p: People, id: UserId, status: Status)
    requires WellFormed(p)
    ensures WellFormed(StatusChanged(p, id, status).people)
    ensures StatusChanged(p, id, status).people.memberships == p.memberships
  {
    var c := StatusChanged(p, id, status);
    if c.people != p {
      assert c.people.users.Keys == p.users.Keys;
      assert forall u :: u in p.users ==> c.people.users[u].email == p.users[u].email;
    }
  }

  lemma RemovedKeepsRules(p: People, id: UserId, m: MembershipId)
    requires WellFormed(p)
    ensures WellFormed(Removed(p, id, m).people)
  {
  }

  lemma GrantKeepsRules(p: People, x: Membership, newId: MembershipId)
    requires WellFormed(p)
    ensures WellFormed(Grant(p, x, newId).people)
    ensures Grant(p, x, newId).result.Ok? ==> Granted(Grant(p, x, newId).people, x)
  {
    var c := Grant(p, x, newId);
    if c.result.Ok? && c.people != p {
      assert c.people.memberships[newId] == x;
      forall m | m in c.people.memberships && c.people.memberships[m] == x ensures m == newId {
        if m != newId { assert Granted(p, x); }
      }
    }
  }

  lemma UserCreatedKeepsRules(p: People, id: UserId, email: Option<string>, name: string)
    requires WellFormed(p)
    ensures WellFormed(UserCreated(p, id, email, name).people)
  {
  }

  lemma InvitedKeepsRules(p: People, invite: string, id: UserId)
    requires WellFormed(p)
    ensures WellFormed(Invited(p, invite, id).people)
  {
  }

  /**
   * The guard is exact: a disable or a removal is refused just when it would take the platform from having an
   * active administrator to having none.
   */
  lemma DisableRefusedExactly(p: People, id: UserId)
    requires WellFormed(p)
    ensures var gone := p.(users := if id in p.users then p.users[id := p.users[id].(status := Disabled)] else p.users);
            StatusChanged(p, id, Disabled).result.Err? <==> ActiveAdmins(p) != {} && ActiveAdmins(gone) == {}
  {
    var gone := p.(users := if id in p.users then p.users[id := p.users[id].(status := Disabled)] else p.users);
    assert ActiveAdmins(gone) == ActiveAdmins(p) - {id};
  }

  lemma AdminsWithout(p: People, id: UserId, m: MembershipId)
    requires m in Of(p, id) && id in ActiveAdmins(p)
    ensures ActiveAdmins(p.(memberships := p.memberships - {m})) ==
              if KeepsRole(p, id, Some(m)) then ActiveAdmins(p) else ActiveAdmins(p) - {id}
  {
    var gone := p.(memberships := p.memberships - {m});
    forall n | n in p.memberships && n != m ensures n in gone.memberships && gone.memberships[n] == p.memberships[n] {}
    forall u | u in ActiveAdmins(p) && u != id ensures u in ActiveAdmins(gone) {
      var n :| n in p.memberships && Platform(p.memberships[n].role) && p.memberships[n].userId == u;
      assert n in gone.memberships;
    }
    if KeepsRole(p, id, Some(m)) {
      var n :| n in p.memberships && p.memberships[n].userId == id && Platform(p.memberships[n].role) && Some(n) != Some(m);
      assert n in gone.memberships;
    }
  }

  lemma RemovalRefusedExactly(p: People, id: UserId, m: MembershipId)
    requires WellFormed(p) && m in Of(p, id)
    ensures Removed(p, id, m).result.Err? <==>
              ActiveAdmins(p) != {} && ActiveAdmins(p.(memberships := p.memberships - {m})) == {}
  {
    var gone := p.(memberships := p.memberships - {m});
    if id in ActiveAdmins(p) {
      AdminsWithout(p, id, m);
      if !Platform(p.memberships[m].role) {
        var n :| n in p.memberships && Platform(p.memberships[n].role) && p.memberships[n].userId == id;
        assert KeepsRole(p, id, Some(m));
      }
    } else {
      forall u | u in ActiveAdmins(p) ensures u in ActiveAdmins(gone) {
        var n :| n in p.memberships && Platform(p.memberships[n].role) && p.memberships[n].userId == u;
        assert n in gone.memberships;
      }
    }
  }

  // ─── What each transaction leaves ──────────────────────────────────────────

  /** Everything about everybody else is as it was: accounts, memberships, sessions and invites. */
  ghost predicate OnlyAbout(p: People, p': People, id: UserId) {
    && p'.tenants == p.tenants
    && p'.users - {id} == p.users - {id}
    && p'.memberships - Of(p', id) == p.memberships - Of(p, id)
    && Belonging(p'.sessions, id) == Belonging(p.sessions, id)
    && Belonging(p'.invites, id) == Belonging(p.invites, id)
  }

  /** A status change that goes through sets the status; a disable ends the person's sessions, an enable none. */
  lemma StatusChangeLeaves(p: People, id: UserId, status: Status)
    ensures var c := StatusChanged(p, id, status);
            && (c.result == Ok(false) <==> id !in p.users)
            && (c.result != Ok(true) ==> c.people == p)
            && (c.result == Ok(true) ==>
                  && OnlyAbout(p, c.people, id)
                  && id in c.people.users && c.people.users[id] == p.users[id].(status := status)
                  && Of(c.people, id) == Of(p, id) && Belongs(c.people.invites, id) == Belongs(p.invites, id)
                  && Belongs(c.people.sessions, id) == if status == Disabled then {} else Belongs(p.sessions, id))
  {
  }

  /** A removal that goes through takes that one membership of the person. */
  lemma RemovalLeaves(p: People, id: UserId, m: MembershipId)
    ensures var c := Removed(p, id, m);
            && (c.result == Ok(false) <==> !(m in p.memberships && p.memberships[m].userId == id))
            && (c.result != Ok(true) ==> c.people == p)
            && (c.result == Ok(true) ==>
                  && OnlyAbout(p, c.people, id)
                  && c.people.users == p.users && c.people.sessions == p.sessions && c.people.invites == p.invites
                  && Of(c.people, id) == Of(p, id) - {m}
                  && (forall n :: n in Of(c.people, id) ==> c.people.memberships[n] == p.memberships[n]))
  {
  }

  /** A grant goes through exactly for a role that fits, of somebody who is there, in a tenant that is there. */
  lemma GrantedExactly(p: People, x: Membership, newId: MembershipId)
    requires WellFormed(p) && newId !in p.memberships
    ensures var c := Grant(p, x, newId);
            && (c.result.Ok? <==>
                  && x.userId in p.users
                  && (if x.role == TenantManager then x.tenantId.Some? && x.tenantId.value in p.tenants else x.tenantId == None))
            && (c.result.Err? ==> c.result.error == UserInput)
  {
  }

  /** It leaves the person every role they had, and this one, once. */
  lemma GrantLeaves(p: People, x: Membership, newId: MembershipId)
    ensures var c := Grant(p, x, newId);
            && (c.result.Err? ==> c.people == p)
            && (c.result.Ok? ==>
                  && c.result.value == x && OnlyAbout(p, c.people, x.userId)
                  && c.people == p.(memberships := c.people.memberships)
                  && Of(c.people, x.userId) == (if Granted(p, x) then Of(p, x.userId) else Of(p, x.userId) + {newId})
                  && (forall n :: n in Of(p, x.userId) ==> c.people.memberships[n] == p.memberships[n])
                  && (!Granted(p, x) ==> newId !in p.memberships && c.people.memberships[newId] == x))
  {
    var c := Grant(p, x, newId);
    if c.people != p {
      assert c.people.memberships == p.memberships[newId := x];
      assert Of(c.people, x.userId) == Of(p, x.userId) + {newId};
    }
  }

  /** Creating somebody succeeds exactly for a usable name and an email and id that nobody has; they start active, with nothing. */
  lemma CreationLeaves(p: People, id: UserId, email: Option<string>, name: string)
    requires WellFormed(p)
    ensures var c := UserCreated(p, id, email, name);
            && (c.result.Ok? <==>
                  && email.Some? && 0 < |name| <= MAX_NAME && id !in p.users && (forall u :: u in p.users ==> p.users[u].email != email.value))
            && (c.result.Err? ==> c.people == p)
            && (c.result.Ok? ==>
                  && OnlyAbout(p, c.people, id)
                  && id in c.people.users && c.people.users[id] == User(email.value, name, Active)
                  && Of(c.people, id) == {} && Belongs(c.people.sessions, id) == {} && Belongs(c.people.invites, id) == {})
  {
  }

  /** Deleting somebody leaves nothing of them. */
  lemma DeletionLeaves(p: People, id: UserId)
    ensures var p' := UserDeleted(p, id);
            && OnlyAbout(p, p', id)
            && id !in p'.users && Of(p', id) == {} && Belongs(p'.sessions, id) == {} && Belongs(p'.invites, id) == {}
  {
  }

  /** An invite replaces the unused ones of the same person. */
  lemma InviteLeaves(p: People, invite: string, id: UserId)
    ensures var c := Invited(p, invite, id);
            && (c.result.Ok? <==> id in p.users && (invite in p.invites ==> p.invites[invite] == id))
            && (c.result.Err? ==> c.people == p)
            && (c.result.Ok? ==>
                  && OnlyAbout(p, c.people, id) && Belongs(c.people.invites, id) == {invite}
                  && c.people.users == p.users && c.people.memberships == p.memberships && c.people.sessions == p.sessions)
  {
  }

  /** Wholly inside those tenants: in one of them at least, and with no role outside. */
  lemma WithinExactly(p: People, id: UserId, tenants: set<TenantId>)
    ensures Within(p, id, tenants) <==>
              && id in p.users
              && (exists m :: m in p.memberships && p.memberships[m].userId == id)
              && !(exists m :: m in p.memberships && p.memberships[m].userId == id
                     && !(p.memberships[m].role == TenantManager && p.memberships[m].tenantId.Some?
                          && p.memberships[m].tenantId.value in tenants))
  {
    if exists m :: m in p.memberships && p.memberships[m].userId == id {
      var m :| m in p.memberships && p.memberships[m].userId == id;
      assert m in Of(p, id);
    }
    assert forall m :: m in p.memberships && p.memberships[m].userId == id ==> m in Of(p, id);
  }

  // ─── The object ────────────────────────────────────────────────────────────

  class Store {
    var users: map<UserId, User>
    var memberships: map<MembershipId, Membership>
    var tenants: set<TenantId>
    var sessions: map<string, UserId>
    var invites: map<string, UserId>

    function State(): People
      reads this
    {
      People(users, memberships, tenants, sessions, invites)
    }

    constructor (tenants: set<TenantId>)
      ensures State() == People(map[], map[], tenants, map[], map[])
    {
      users, memberships, sessions, invites := map[], map[], map[], map[];
      this.tenants := tenants;
    }

    /** One transaction: under the administrators' lock when it disables. */
    method SetStatus(id: UserId, status: Status) returns (result: Result<bool, StoreError>)
      modifies this`users, this`sessions
      ensures Change(State(), result) == StatusChanged(old(State()), id, status)
      ensures result == Ok(true) ==> id in users && users[id].status == status
      ensures result == Ok(true) ==> Belongs(sessions, id) == if status == Disabled then {} else Belongs(old(sessions), id)
      ensures result != Ok(true) ==> State() == old(State())
    {
      if status == Disabled && IsLastAdmin(State(), id, None) { return Err(LastOperator); }
      if id !in users { return Ok(false); }
      users := users[id := users[id].(status := status)];
      if status == Disabled { sessions := Belonging(sessions, id); }
      result := Ok(true);
    }

    method RemoveMembership(id: UserId, m: MembershipId) returns (result: Result<bool, StoreError>)
      modifies this`memberships
      ensures Change(State(), result) == Removed(old(State()), id, m)
      ensures result == Ok(true) ==> m in old(Of(State(), id)) && Of(State(), id) == old(Of(State(), id)) - {m}
      ensures result != Ok(true) ==> State() == old(State())
    {
      if m !in memberships || memberships[m].userId != id { return Ok(false); }
      if Platform(memberships[m].role) && IsLastAdmin(State(), id, Some(m)) { return Err(LastOperator); }
      memberships := memberships - {m};
      result := Ok(true);
    }

    method AddMembership(x: Membership, newId: MembershipId) returns (result: Result<Membership, StoreError>)
      modifies this`memberships
      ensures Change(State(), result) == Grant(old(State()), x, newId)
    {
      if Platform(x.role) && x.tenantId.Some? { return Err(UserInput); }
      if x.role == TenantManager && x.tenantId.None? { return Err(UserInput); }
      if Granted(State(), x) { return Ok(x); }
      if newId in memberships { return Err(Unexpected); }
      if x.userId !in users || (x.tenantId.Some? && x.tenantId.value !in tenants) { return Err(UserInput); }
      memberships := memberships[newId := x];
      result := Ok(x);
    }

    method CreateUser(id: UserId, email: Option<string>, name: string) returns (result: Result<UserId, StoreError>)
      modifies this`users
      ensures Change(State(), result) == UserCreated(old(State()), id, email, name)
    {
      if email.None? || name == "" || |name| > MAX_NAME { return Err(UserInput); }
      if id in users || exists u :: u in users && users[u].email == email.value { return Err(EmailTaken); }
      users := users[id := User(email.value, name, Active)];
      result := Ok(id);
    }

    method DeleteUser(id: UserId)
      modifies this`users, this`memberships, this`sessions, this`invites
      ensures State() == UserDeleted(old(State()), id)
    {
      memberships := memberships - Of(State(), id);
      users := users - {id};
      sessions := Belonging(sessions, id);
      invites := Belonging(invites, id);
    }

    method CreateInvite(invite: string, id: UserId) returns (result: Result<(), StoreError>)
      modifies this`invites
      ensures Change(State(), result) == Invited(old(State()), invite, id)
    {
      var others := Belonging(invites, id);
      if invite in others || id !in users { return Err(Unexpected); }
      invites := others[invite := id];
      result := Ok(());
    }
  }
}
