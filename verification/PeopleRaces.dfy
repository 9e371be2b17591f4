/** Administrative calls as they run: every read and every write apart, and any number of calls at once (auth/UserAdmin.ts). */
module PeopleRaces {
  import opened Prelude
  import opened UserStore
  import opened UserAdmin
  import opened PeopleRules

  /**
   * What is left of a call. `Looking`: it still reads, first the row of the person it is about (`seen`), then their
   * roles. The others it has still to write; `Roles(x, k)`: the person is there, with the first `k` roles.
   */
  datatype Work =
    | Looking(act: Act, seen: Option<Status>)
    | ToStatus(id: UserId, status: Status)
    | Add(id: UserId, request: Request, newId: MembershipId)
    | Remove(id: UserId, membership: MembershipId)
    | Invite(id: UserId, invite: string)
    | NewOne(person: NewPerson)
    | Roles(person: NewPerson, granted: nat)
    | Undo(id: UserId)

  datatype Office = Office(people: People, pending: map<nat, Work>)

  datatype Step =
    | Ask(c: nat, act: Act)
    | Look(c: nat)
    | Write(c: nat)
    | Break(c: nat)

  function CallTarget(call: Call): UserId {
    match call
    case CallCreate(x) => x.id
    case CallSetStatus(id, _) => id
    case CallAdd(id, _, _) => id
    case CallRemove(id, _) => id
    case CallReinvite(id, _) => id
  }

  /** The first query of a call: whether the person is within reach; a creation has its checks at once. */
  function Admitted(p: People, act: Act): Option<Work> {
    match ScopeOf(act.actor)
    case None => None
    case Some(scope) =>
      if act.call.CallCreate? then
        var x := act.call.person;
        if |x.newIds| == |x.requests| && CreateDenied(scope, p, x).None? then Some(NewOne(x)) else None
      else if scope.operator || Within(p, CallTarget(act.call), scope.managed) then Some(Looking(act, None)) else None
  }

  /** The last query, for the person's roles, and the checks on them; `status` was read before. */
  function Decided(p: People, act: Act, status: Status): Option<Work> {
    match ScopeOf(act.actor)
    case None => None
    case Some(scope) =>
      match act.call
      case CallCreate(_) => None
      case CallSetStatus(id, status') =>
        if (status' == Disabled && scope.actorId == Some(id)) || MayNotChange(scope, p, id) then None
        else Some(ToStatus(id, status'))
      case CallAdd(id, r, newId) =>
        if (!scope.operator && !MayGrant(scope, r))
           || (scope.operator && scope.actorId == Some(id) && r.role == TenantManager)
           || MayNotGrantRole(scope, r) || MayNotChange(scope, p, id) || IsInvalid(p, r) then None
        else Some(Add(id, r, newId))
      case CallRemove(id, m) =>
        if m !in Of(p, id)
           || (scope.actorId == Some(id) && (p.memberships[m].role == Operator || |Of(p, id)| == 1))
           || MayNotChange(scope, p, id) then None
        else Some(Remove(id, m))
      case CallReinvite(id, invite) =>
        if status != Active || MayNotChange(scope, p, id) then None else Some(Invite(id, invite))
  }

  /** The next query of a call that still reads, and what is left of the call after it. */
  function Looked(p: People, act: Act, seen: Option<Status>): Option<Work> {
    if seen.Some? then Decided(p, act, seen.value)
    else if CallTarget(act.call) in p.users then Some(Looking(act, Some(p.users[CallTarget(act.call)].status)))
    else None
  }

  /** All the checks of a call on the same tables; None when it is refused. */
  function Checked(p: People, act: Act): Option<Work> {
    match Admitted(p, act)
    case None => None
    case Some(w) =>
      if !w.Looking? then Some(w)
      else if CallTarget(act.call) !in p.users then None
      else Decided(p, act, p.users[CallTarget(act.call)].status)
  }

  /** The next transaction of a call, and what is left of the call after it. */
  function Written(p: People, w: Work): (People, Option<Work>) {
    match w
    case Looking(_, _) => (p, Some(w))
    case ToStatus(id, status) => (StatusChanged(p, id, status).people, None)
    case Add(id, r, newId) => (Grant(p, Membership(id, r.role, r.tenantId), newId).people, None)
    case Remove(id, m) => (Removed(p, id, m).people, None)
    case Invite(id, invite) => (Invited(p, invite, id).people, None)
    case NewOne(x) =>
      var c := UserCreated(p, x.id, x.email, x.name);
      (c.people, if c.result.Ok? then Some(Roles(x, 0)) else None)
    case Roles(x, k) =>
      if k < |x.requests| && k < |x.newIds| then
        var c := Grant(p, Membership(x.id, x.requests[k].role, x.requests[k].tenantId), x.newIds[k]);
        (c.people, Some(if c.result.Ok? then Roles(x, k + 1) else Undo(x.id)))
      else
        var c := Invited(p, x.invite, x.id);
        (c.people, if c.result.Ok? && !x.auditFails then None else Some(Undo(x.id)))
    case Undo(id) => (UserDeleted(p, id), None)
  }

  /** What is left of a call whose next transaction fails: a person half made is to be deleted, if that works. */
  function Broken(w: Work): Option<Work> {
    match w
    case Roles(x, _) => Some(Undo(x.id))
    case _ => None
  }

  function Left(pending: map<nat, Work>, c: nat, rest: Option<Work>): map<nat, Work> {
    if rest.Some? then pending[c := rest.value] else pending - {c}
  }

  /** A step that is not possible changes nothing. */
  function Next(s: Office, step: Step): Office {
    match step
    case Ask(c, act) =>
      if c in s.pending || Admitted(s.people, act).None? then s
      else s.(pending := s.pending[c := Admitted(s.people, act).value])
    case Look(c) =>
      if c !in s.pending || !s.pending[c].Looking? then s
      else s.(pending := Left(s.pending, c, Looked(s.people, s.pending[c].act, s.pending[c].seen)))
    case Write(c) =>
      if c !in s.pending then s
      else
        var (p', rest) := Written(s.people, s.pending[c]);
        Office(p', Left(s.pending, c, rest))
    case Break(c) =>
      if c !in s.pending then s else s.(pending := Left(s.pending, c, Broken(s.pending[c])))
  }

  function Run(s: Office, steps: seq<Step>): Office {
    if steps == [] then s else Next(Run(s, steps[..|steps| - 1]), steps[|steps| - 1])
  }

  function Quiet(p: People): Office { Office(p, map[]) }

  function TargetOf(w: Work): UserId {
    match w
    case Looking(act, _) => CallTarget(act.call)
    case NewOne(x) => x.id
    case Roles(x, _) => x.id
    case ToStatus(id, _) => id
    case Add(id, _, _) => id
    case Remove(id, _) => id
    case Invite(id, _) => id
    case Undo(id) => id
  }

  /** Past its first transaction a creation is about a person who was not there before. */
  predicate Creating(w: Work) { w.Roles? || w.Undo? }

  // ─── One transaction ───────────────────────────────────────────────────────

  lemma DeletedUntouched(p: People, target: UserId, id: UserId)
    requires id in p.users && id != target
    ensures Untouched(p, UserDeleted(p, target), id)
  {
  }

  lemma CreatedUntouched(p: People, x: NewPerson, id: UserId)
    requires id in p.users
    ensures Untouched(p, UserCreated(p, x.id, x.email, x.name).people, id)
  {
  }

  /** A transaction touches nobody but its target; and creating somebody touches nobody who is there. */
  lemma WrittenUntouched(p: People, w: Work, id: UserId)
    requires id in p.users && (id != TargetOf(w) || w.NewOne? || w.Looking?)
    ensures Untouched(p, Written(p, w).0, id)
  {
    match w
    case Looking(_, _) =>
    case ToStatus(target, status) => StatusUntouched(p, target, status, id);
    case Add(target, r, newId) => GrantUntouched(p, Membership(target, r.role, r.tenantId), newId, id);
    case Remove(target, m) => RemovedUntouched(p, target, m, id);
    case Invite(target, invite) => InvitedUntouched(p, invite, target, id);
    case NewOne(x) => CreatedUntouched(p, x, id);
    case Roles(x, k) =>
      if k < |x.requests| && k < |x.newIds| {
        GrantUntouched(p, Membership(x.id, x.requests[k].role, x.requests[k].tenantId), x.newIds[k], id);
      } else {
        InvitedUntouched(p, x.invite, x.id, id);
      }
    case Undo(target) => DeletedUntouched(p, target, id);
  }

  /** The role a transaction may add. */
  ghost predicate Adds(w: Work, r: Request) {
    match w
    case Add(_, request, _) => r == request
    case NewOne(x) => r in x.requests
    case Roles(x, _) => r in x.requests
    case _ => false
  }

  lemma WrittenMemberships(p: People, w: Work, m: MembershipId)
    ensures m in p.memberships && m in Written(p, w).0.memberships ==> Written(p, w).0.memberships[m] == p.memberships[m]
    ensures m !in p.memberships && m in Written(p, w).0.memberships ==>
              var x := Written(p, w).0.memberships[m]; Adds(w, Request(x.role, x.tenantId)) && x.userId == TargetOf(w)
    ensures m in p.memberships && m !in Written(p, w).0.memberships ==>
              p.memberships[m].userId == TargetOf(w) && (w == Remove(TargetOf(w), m) || w.Undo?)
  {
    match w
    case Roles(x, k) =>
      if k < |x.requests| && k < |x.newIds| {
        assert x.requests[k] == Request(x.requests[k].role, x.requests[k].tenantId);
      }
    case Add(_, r, _) => assert r == Request(r.role, r.tenantId);
    case _ =>
  }

  // ─── Nobody gains or loses a role out of everyone's hands ──────────────────

  /** What a pending call may still do cannot touch holders of the role. `start` are the people of the beginning. */
  ghost predicate Harmless(p: People, start: set<UserId>, w: Work, role: Role) {
    && (forall r :: Adds(w, r) ==> r.role != role)
    && (if Creating(w) then TargetOf(w) !in start
        else if w.Looking? then OutOfHands(w.act.actor, role) && (IsOperator(w.act.actor) || !Holds(p, TargetOf(w), role))
        else w.NewOne? || !Holds(p, TargetOf(w), role))
  }

  ghost predicate Frozen(p0: People, s: Office, role: Role) {
    && p0.users.Keys <= s.people.users.Keys
    && (forall id :: Holds(s.people, id, role) ==> Holds(p0, id, role))
    && (forall id :: id in p0.users && Holds(p0, id, role) ==> Untouched(p0, s.people, id))
    && (forall c :: c in s.pending ==> Harmless(s.people, p0.users.Keys, s.pending[c], role))
  }

  lemma AdmittedHarmless(p: People, start: set<UserId>, act: Act, role: Role)
    requires OutOfHands(act.actor, role) && Admitted(p, act).Some?
    ensures Harmless(p, start, Admitted(p, act).value, role)
  {
    if !act.call.CallCreate? {
      var id := CallTarget(act.call);
      if Holds(p, id, role) { HolderNotWithin(p, id, role, ManagedTenants(act.actor)); }
    }
  }

  /** However long ago the person was found within reach. */
  lemma LookedHarmless(p: People, start: set<UserId>, w: Work, role: Role)
    requires w.Looking? && Harmless(p, start, w, role) && Looked(p, w.act, w.seen).Some?
    ensures Harmless(p, start, Looked(p, w.act, w.seen).value, role)
  {
  }

  lemma NoHolderAdded(p: People, w: Work, id: UserId, role: Role)
    requires (forall r :: Adds(w, r) ==> r.role != role) && Holds(Written(p, w).0, id, role)
    ensures Holds(p, id, role)
  {
    var p' := Written(p, w).0;
    var m :| m in p'.memberships && p'.memberships[m].userId == id && p'.memberships[m].role == role;
    var r := Request(p'.memberships[m].role, p'.memberships[m].tenantId);
    WrittenMemberships(p, w, m);
    assert m !in p.memberships ==> Adds(w, r);
  }

  lemma RestHarmless(p: People, start: set<UserId>, w: Work, role: Role)
    requires Harmless(p, start, w, role) && start <= p.users.Keys
    ensures Written(p, w).1.Some? ==> Harmless(Written(p, w).0, start, Written(p, w).1.value, role)
    ensures Broken(w).Some? ==> Harmless(p, start, Broken(w).value, role)
  {
  }

  lemma PeopleStay(p: People, start: set<UserId>, w: Work)
    requires start <= p.users.Keys && (Creating(w) ==> TargetOf(w) !in start)
    ensures start <= Written(p, w).0.users.Keys
  {
  }

  lemma WriteKeepsFrozen(p0: People, s: Office, c: nat, role: Role)
    requires Frozen(p0, s, role) && c in s.pending
    ensures Frozen(p0, Next(s, Write(c)), role)
  {
    var w := s.pending[c];
    var p' := Written(s.people, w).0;
    PeopleStay(s.people, p0.users.Keys, w);
    RestHarmless(s.people, p0.users.Keys, w, role);
    forall id | Holds(p', id, role) ensures Holds(s.people, id, role) {
      NoHolderAdded(s.people, w, id, role);
    }
    forall id | id in p0.users && Holds(p0, id, role) ensures Untouched(p0, p', id) {
      UntouchedHolds(p0, s.people, id, role);
      WrittenUntouched(s.people, w, id);
      UntouchedChain(p0, s.people, p', id);
    }
  }

  lemma StepKeepsFrozen(p0: People, s: Office, step: Step, role: Role)
    requires Frozen(p0, s, role) && (step.Ask? ==> OutOfHands(step.act.actor, role))
    ensures Frozen(p0, Next(s, step), role)
  {
    match step
    case Ask(c, act) =>
      if Admitted(s.people, act).Some? { AdmittedHarmless(s.people, p0.users.Keys, act, role); }
    case Look(c) =>
      if c in s.pending && s.pending[c].Looking? && Looked(s.people, s.pending[c].act, s.pending[c].seen).Some? {
        LookedHarmless(s.people, p0.users.Keys, s.pending[c], role);
      }
    case Write(c) =>
      if c in s.pending { WriteKeepsFrozen(p0, s, c, role); }
    case Break(c) =>
      if c in s.pending { RestHarmless(s.people, p0.users.Keys, s.pending[c], role); }
  }

  lemma {:induction false} RunKeepsFrozen(p0: People, steps: seq<Step>, role: Role)
    requires forall k :: 0 <= k < |steps| && steps[k].Ask? ==> OutOfHands(steps[k].act.actor, role)
    ensures Frozen(p0, Run(Quiet(p0), steps), role)
  {
    if steps == [] {
      forall id | id in p0.users ensures Untouched(p0, p0, id) {}
    } else {
      var init := steps[..|steps| - 1];
      RunKeepsFrozen(p0, init, role);
      StepKeepsFrozen(p0, Run(Quiet(p0), init), steps[|steps| - 1], role);
    }
  }

  /** Whoever asks for what, and however their calls overlap: nobody becomes a system admin, and nothing about one changes. */
  lemma SystemAdminsFrozen(p0: People, steps: seq<Step>, id: UserId)
    ensures var p := Run(Quiet(p0), steps).people;
            && (Holds(p, id, SystemAdmin) ==> Holds(p0, id, SystemAdmin))
            && (id in p0.users && Holds(p0, id, SystemAdmin) ==> Untouched(p0, p, id))
  {
    RunKeepsFrozen(p0, steps, SystemAdmin);
  }

  /** While nobody who asks is a system admin, the same holds of operators. */
  lemma OperatorsFrozen(p0: People, steps: seq<Step>, id: UserId)
    requires forall k :: 0 <= k < |steps| && steps[k].Ask? ==> !IsSystemAdmin(steps[k].act.actor)
    ensures var p := Run(Quiet(p0), steps).people;
            && (Holds(p, id, Operator) ==> Holds(p0, id, Operator))
            && (id in p0.users && Holds(p0, id, Operator) ==> Untouched(p0, p, id))
  {
    RunKeepsFrozen(p0, steps, Operator);
  }

  /** A person asks with roles they have at that moment. */
  ghost predicate Current(p: People, actor: Principal) {
    actor.Person? ==> forall x :: x in actor.roles ==> x.userId == actor.id && Granted(p, x)
  }

  ghost predicate CurrentAt(p0: People, steps: seq<Step>, k: nat)
    requires k < |steps|
  {
    steps[k].Ask? ==> !steps[k].act.actor.AdminKey? && Current(Run(Quiet(p0), steps[..k]).people, steps[k].act.actor)
  }

  /**
   * So without the admin key and without a system admin at the start there is no way up: people asking with the
   * roles they have, and operator keys, leave every operator and the set of operators exactly as it was.
   */
  lemma NoWayUp(p0: People, steps: seq<Step>, id: UserId)
    requires forall k :: 0 <= k < |steps| ==> CurrentAt(p0, steps, k)
    requires forall u :: !Holds(p0, u, SystemAdmin)
    ensures var p := Run(Quiet(p0), steps).people;
            && (Holds(p, id, Operator) ==> Holds(p0, id, Operator))
            && (id in p0.users && Holds(p0, id, Operator) ==> Untouched(p0, p, id))
  {
    forall k | 0 <= k < |steps| && steps[k].Ask? ensures !IsSystemAdmin(steps[k].act.actor) {
      NotYetSystemAdmin(p0, steps, k);
    }
    OperatorsFrozen(p0, steps, id);
  }

  lemma NotYetSystemAdmin(p0: People, steps: seq<Step>, k: nat)
    requires k < |steps| && CurrentAt(p0, steps, k) && steps[k].Ask?
    requires forall u :: !Holds(p0, u, SystemAdmin)
    ensures !IsSystemAdmin(steps[k].act.actor)
  {
    var actor, p := steps[k].act.actor, Run(Quiet(p0), steps[..k]).people;
    if actor.Person? {
      forall x | x in actor.roles ensures x.role != SystemAdmin {
        var m :| m in p.memberships && p.memberships[m] == x;
        if x.role == SystemAdmin {
          assert Holds(p, actor.id, SystemAdmin);
          SystemAdminsFrozen(p0, steps[..k], actor.id);
        }
      }
    }
  }

  // ─── Tenant managers stay in their tenants ─────────────────────────────────

  ghost predicate Protected(p0: People, id: UserId, tenants: set<TenantId>) { id in p0.users && !Within(p0, id, tenants) }

  /** What a pending call of a manager may still do stays within the tenants. */
  ghost predicate Inside(p0: People, p: People, w: Work, tenants: set<TenantId>) {
    && (forall r :: Adds(w, r) ==> r.role == TenantManager && r.tenantId.Some? && r.tenantId.value in tenants)
    && (if Creating(w) then TargetOf(w) !in p0.users else w.NewOne? || !Protected(p0, TargetOf(w), tenants))
    && (w.Remove? && w.membership in p.memberships ==> ManagerIn(p.memberships[w.membership], tenants))
    && (w.Looking? ==> !IsOperator(w.act.actor) && ManagedTenants(w.act.actor) <= tenants)
  }

  ghost predicate Confined(p0: People, s: Office, tenants: set<TenantId>) {
    && p0.users.Keys <= s.people.users.Keys
    && (forall id :: Protected(p0, id, tenants) ==> Untouched(p0, s.people, id))
    && RolesConfined(p0, s.people, tenants)
    && (forall c :: c in s.pending ==> Inside(p0, s.people, s.pending[c], tenants))
  }

  lemma AdmittedInside(p0: People, s: Office, act: Act, tenants: set<TenantId>)
    requires Confined(p0, s, tenants) && !IsOperator(act.actor) && ManagedTenants(act.actor) <= tenants
    requires Admitted(s.people, act).Some?
    ensures Inside(p0, s.people, Admitted(s.people, act).value, tenants)
  {
    if !act.call.CallCreate? {
      var id := CallTarget(act.call);
      assert Within(s.people, id, tenants);
      if id in p0.users && Untouched(p0, s.people, id) { UntouchedWithin(p0, s.people, id, tenants); }
    }
  }

  /** However long ago the person was found within reach: what they have been given since is within the tenants too. */
  lemma LookedInside(p0: People, s: Office, w: Work, tenants: set<TenantId>)
    requires Confined(p0, s, tenants) && w.Looking? && Inside(p0, s.people, w, tenants)
    requires forall m :: m in p0.memberships ==> p0.memberships[m].userId in p0.users
    requires Looked(s.people, w.act, w.seen).Some?
    ensures Inside(p0, s.people, Looked(s.people, w.act, w.seen).value, tenants)
  {
    if w.seen.Some? && w.act.call.CallRemove? {
      OwnRolesConfined(p0, s.people, w.act.call.id, w.act.call.membership, tenants);
    }
  }

  /** A role of somebody who was wholly within the tenants, or not there, is one in the tenants. */
  lemma OwnRolesConfined(p0: People, p: People, id: UserId, m: MembershipId, tenants: set<TenantId>)
    requires RolesConfined(p0, p, tenants) && !Protected(p0, id, tenants)
    requires forall n :: n in p0.memberships ==> p0.memberships[n].userId in p0.users
    ensures m in Of(p, id) ==> ManagerIn(p.memberships[m], tenants)
  {
    assert m in Of(p0, id) && Within(p0, id, tenants) ==> ManagerIn(p0.memberships[m], tenants);
  }

  lemma RolesStayConfined(p0: People, s: Office, c: nat, tenants: set<TenantId>)
    requires Confined(p0, s, tenants) && c in s.pending
    requires forall m :: m in p0.memberships ==> p0.memberships[m].userId in p0.users
    ensures RolesConfined(p0, Written(s.people, s.pending[c]).0, tenants)
  {
    var w, p := s.pending[c], s.people;
    var p' := Written(p, w).0;
    forall m | m in p0.memberships && !ManagerIn(p0.memberships[m], tenants)
      ensures m in p'.memberships && p'.memberships[m] == p0.memberships[m]
    {
      WrittenMemberships(p, w, m);
    }
    forall m | m in p'.memberships && !ManagerIn(p'.memberships[m], tenants)
      ensures m in p0.memberships && p0.memberships[m] == p'.memberships[m]
    {
      var r := Request(p'.memberships[m].role, p'.memberships[m].tenantId);
      WrittenMemberships(p, w, m);
      assert m !in p.memberships ==> Adds(w, r);
    }
  }

  lemma OthersStayInside(p0: People, p: People, w: Work, other: Work, tenants: set<TenantId>)
    requires Inside(p0, p, w, tenants) && Inside(p0, p, other, tenants)
    ensures Inside(p0, Written(p, w).0, other, tenants)
  {
    if other.Remove? {
      WrittenMemberships(p, w, other.membership);
      var p' := Written(p, w).0;
      if other.membership in p'.memberships && other.membership !in p.memberships {
        var x := p'.memberships[other.membership];
        assert Adds(w, Request(x.role, x.tenantId));
      }
    }
  }

  lemma WriteKeepsConfined(p0: People, s: Office, c: nat, tenants: set<TenantId>)
    requires Confined(p0, s, tenants) && c in s.pending
    requires forall m :: m in p0.memberships ==> p0.memberships[m].userId in p0.users
    ensures Confined(p0, Next(s, Write(c)), tenants)
  {
    var w := s.pending[c];
    var p' := Written(s.people, w).0;
    PeopleStay(s.people, p0.users.Keys, w);
    RolesStayConfined(p0, s, c, tenants);
    forall id | Protected(p0, id, tenants) ensures Untouched(p0, p', id) {
      WrittenUntouched(s.people, w, id);
      UntouchedChain(p0, s.people, p', id);
    }
    forall d | d in s.pending ensures Inside(p0, p', s.pending[d], tenants) {
      OthersStayInside(p0, s.people, w, s.pending[d], tenants);
    }
  }

  lemma StepKeepsConfined(p0: People, s: Office, step: Step, tenants: set<TenantId>)
    requires Confined(p0, s, tenants)
    requires step.Ask? ==> !IsOperator(step.act.actor) && ManagedTenants(step.act.actor) <= tenants
    requires forall m :: m in p0.memberships ==> p0.memberships[m].userId in p0.users
    ensures Confined(p0, Next(s, step), tenants)
  {
    match step
    case Ask(c, act) =>
      if Admitted(s.people, act).Some? { AdmittedInside(p0, s, act, tenants); }
    case Look(c) =>
      if c in s.pending && s.pending[c].Looking? && Looked(s.people, s.pending[c].act, s.pending[c].seen).Some? {
        LookedInside(p0, s, s.pending[c], tenants);
      }
    case Write(c) =>
      if c in s.pending { WriteKeepsConfined(p0, s, c, tenants); }
    case Break(c) =>
  }

  /**
   * Whatever managers of these tenants ask for, and however their calls overlap: a person not wholly within the
   * tenants is left exactly as they were, and only manager roles in those tenants come or go.
   */
  lemma {:induction false} ManagersConfined(p0: People, steps: seq<Step>, tenants: set<TenantId>)
    requires WellFormed(p0)
    requires forall k :: 0 <= k < |steps| && steps[k].Ask? ==>
               !IsOperator(steps[k].act.actor) && ManagedTenants(steps[k].act.actor) <= tenants
    ensures Confined(p0, Run(Quiet(p0), steps), tenants)
    ensures var p := Run(Quiet(p0), steps).people;
            (forall id :: id in p0.users && !Within(p0, id, tenants) ==> Untouched(p0, p, id)) && RolesConfined(p0, p, tenants)
  {
    if steps == [] {
      forall id | id in p0.users ensures Untouched(p0, p0, id) {}
    } else {
      var init := steps[..|steps| - 1];
      ManagersConfined(p0, init, tenants);
      StepKeepsConfined(p0, Run(Quiet(p0), init), steps[|steps| - 1], tenants);
    }
    forall id | id in p0.users && !Within(p0, id, tenants) ensures Untouched(p0, Run(Quiet(p0), steps).people, id) {
      assert Protected(p0, id, tenants);
    }
  }

  // ─── A call left alone ─────────────────────────────────────────────────────

  /** The office with one call pending, or none. */
  function Alone(p: People, rest: Option<Work>): Office {
    if rest.Some? then Office(p, map[0 := rest.value]) else Quiet(p)
  }

  lemma LoneWrite(p: People, w: Work)
    ensures Next(Alone(p, Some(w)), Write(0)) == Alone(Written(p, w).0, Written(p, w).1)
  {
    assert map[0 := w] - {0} == map[];
    var rest := Written(p, w).1;
    assert rest.Some? ==> map[0 := w][0 := rest.value] == map[0 := rest.value];
  }

  lemma WrittenIsCall(p: People, act: Act)
    requires !act.call.CallCreate?
    ensures match Checked(p, act)
            case None => After(p, act) == p
            case Some(w) => Written(p, w).0 == After(p, act) && Written(p, w).1 == None
  {
  }

  lemma LeftAgain(pending: map<nat, Work>, c: nat, w: Work, rest: Option<Work>)
    requires c !in pending
    ensures Left(pending[c := w], c, rest) == Left(pending, c, rest)
  {
  }

  lemma LooksOn(s: Office, c: nat, act: Act, seen: Option<Status>)
    requires c !in s.pending
    ensures Next(s.(pending := s.pending[c := Looking(act, seen)]), Look(c)) ==
              s.(pending := Left(s.pending, c, Looked(s.people, act, seen)))
  {
    LeftAgain(s.pending, c, Looking(act, seen), Looked(s.people, act, seen));
  }

  lemma NothingLeft(s: Office, c: nat)
    requires c !in s.pending
    ensures Next(s, Look(c)) == s && Next(s, Write(c)) == s && Left(s.pending, c, None) == s.pending
  {
  }

  /** The reads of a call, one right after another, are the checks on the same tables. */
  lemma LooksAreChecks(s: Office, c: nat, act: Act)
    requires c !in s.pending && !act.call.CallCreate?
    ensures Next(Next(Next(s, Ask(c, act)), Look(c)), Look(c)) == s.(pending := Left(s.pending, c, Checked(s.people, act)))
  {
    NothingLeft(s, c);
    if Admitted(s.people, act).Some? {
      LooksOn(s, c, act, None);
      if CallTarget(act.call) in s.people.users { LooksOn(s, c, act, Some(s.people.users[CallTarget(act.call)].status)); }
    }
  }

  /** A call that nothing comes between does what the call taken as one step does. */
  lemma AloneIsOneStep(p: People, act: Act)
    requires !act.call.CallCreate?
    ensures Run(Quiet(p), [Ask(0, act)] + [Look(0)] + [Look(0)] + [Write(0)]) == Quiet(After(p, act))
  {
    RunSnoc(Quiet(p), [], Ask(0, act));
    assert [] + [Ask(0, act)] == [Ask(0, act)];
    RunSnoc(Quiet(p), [Ask(0, act)], Look(0));
    RunSnoc(Quiet(p), [Ask(0, act)] + [Look(0)], Look(0));
    RunSnoc(Quiet(p), [Ask(0, act)] + [Look(0)] + [Look(0)], Write(0));
    LooksAreChecks(Quiet(p), 0, act);
    WrittenIsCall(p, act);
    NothingLeft(Quiet(p), 0);
    if Checked(p, act).Some? { LoneWrite(p, Checked(p, act).value); }
  }

  function Writes(n: nat): (steps: seq<Step>)
    ensures |steps| == n && forall i :: 0 <= i < n ==> steps[i] == Write(0)
  {
    seq(n, _ => Write(0))
  }

  lemma RunSnoc(s: Office, steps: seq<Step>, step: Step)
    ensures Run(s, steps + [step]) == Next(Run(s, steps), step)
  {
    assert (steps + [step])[..|steps|] == steps;
  }

  lemma OneMoreWrite(s: Office, before: seq<Step>, n: nat)
    ensures Run(s, before + Writes(n + 1)) == Next(Run(s, before + Writes(n)), Write(0))
  {
    assert before + Writes(n + 1) == (before + Writes(n)) + [Write(0)];
    RunSnoc(s, before + Writes(n), Write(0));
  }

  /** The state of a creation on its own: the person, `k` roles granted, and the rest pending. */
  function Staffed(p: People, x: NewPerson, k: nat): Change<(), StoreError>
    requires |x.newIds| == |x.requests| && k <= |x.requests|
  {
    GrantAll(UserCreated(p, x.id, x.email, x.name).people, x.id, x.requests[..k], x.newIds[..k])
  }

  lemma StaffedNext(p: People, x: NewPerson, k: nat)
    requires |x.newIds| == |x.requests| && k < |x.requests| && Staffed(p, x, k).result.Ok?
    ensures Written(Staffed(p, x, k).people, Roles(x, k)) ==
              (Staffed(p, x, k + 1).people, Some(if Staffed(p, x, k + 1).result.Ok? then Roles(x, k + 1) else Undo(x.id)))
  {
    GrantAllNext(UserCreated(p, x.id, x.email, x.name).people, x.id, x.requests, x.newIds, k);
  }

  predicate Begun(p: People, act: Act) {
    && act.call.CallCreate? && Checked(p, act).Some?
    && |act.call.person.newIds| == |act.call.person.requests|
    && UserCreated(p, act.call.person.id, act.call.person.email, act.call.person.name).result.Ok?
  }

  function AfterWrites(p: People, act: Act, n: nat): Office { Run(Quiet(p), [Ask(0, act)] + Writes(n)) }

  lemma OneMore(p: People, act: Act, n: nat, q: People, w: Work)
    requires AfterWrites(p, act, n) == Alone(q, Some(w))
    ensures AfterWrites(p, act, n + 1) == Alone(Written(q, w).0, Written(q, w).1)
  {
    OneMoreWrite(Quiet(p), [Ask(0, act)], n);
    LoneWrite(q, w);
  }

  lemma Asked(p: People, act: Act)
    requires act.call.CallCreate?
    ensures AfterWrites(p, act, 0) == Alone(p, Checked(p, act))
  {
    RunSnoc(Quiet(p), [], Ask(0, act));
    assert [] + [Ask(0, act)] == [Ask(0, act)] + Writes(0) == [Ask(0, act)];
  }

  /** After the person and `k` roles, while all went well. */
  lemma {:induction false} RolesOneByOne(p: People, act: Act, k: nat)
    requires Begun(p, act) && k <= |act.call.person.requests| && Staffed(p, act.call.person, k).result.Ok?
    ensures AfterWrites(p, act, k + 1) == Alone(Staffed(p, act.call.person, k).people, Some(Roles(act.call.person, k)))
  {
    var x := act.call.person;
    if k == 0 {
      Asked(p, act);
      OneMore(p, act, 0, p, NewOne(x));
    } else {
      assert x.requests[..k][..k - 1] == x.requests[..k - 1] && x.newIds[..k][..k - 1] == x.newIds[..k - 1];
      RolesOneByOne(p, act, k - 1);
      StaffedNext(p, x, k - 1);
      OneMore(p, act, k, Staffed(p, x, k - 1).people, Roles(x, k - 1));
    }
  }

  lemma {:induction false} FirstRefusal(p: People, x: NewPerson, n: nat) returns (k: nat)
    requires |x.newIds| == |x.requests| && n <= |x.requests| && Staffed(p, x, n).result.Err?
    ensures k < n && Staffed(p, x, k).result.Ok? && Staffed(p, x, k + 1).result.Err?
  {
    assert x.requests[..n][..n - 1] == x.requests[..n - 1] && x.newIds[..n][..n - 1] == x.newIds[..n - 1];
    if Staffed(p, x, n - 1).result.Ok? { k := n - 1; } else { k := FirstRefusal(p, x, n - 1); }
  }

  /** What the whole creation leaves, in terms of how far its grants came. */
  lemma CreationIs(p: People, act: Act)
    requires Begun(p, act)
    ensures var x := act.call.person;
            var g := Staffed(p, x, |x.requests|);
            var i := Invited(g.people, x.invite, x.id);
            After(p, act) == if g.result.Ok? && i.result.Ok? && !x.auditFails then i.people else p
  {
    var x := act.call.person;
    assert x.requests[..|x.requests|] == x.requests && x.newIds[..|x.requests|] == x.newIds;
  }

  lemma UndoneIs(p: People, x: NewPerson)
    requires WellFormed(p) && |x.newIds| == |x.requests| && UserCreated(p, x.id, x.email, x.name).result.Ok?
    ensures var g := Staffed(p, x, |x.requests|).people;
            UserDeleted(g, x.id) == p && UserDeleted(Invited(g, x.invite, x.id).people, x.id) == p
  {
    assert x.requests[..|x.requests|] == x.requests && x.newIds[..|x.requests|] == x.newIds;
    DeletedAgain(p, UserCreated(p, x.id, x.email, x.name).people, x);
    InviteDeletedAgain(Staffed(p, x, |x.requests|).people, x.invite, x.id);
  }

  /**
   * A creation whose next transaction fails takes the person away again. If nothing but its own grants has come
   * between, everything is as it was before it.
   */
  lemma BrokenIsUndone(s: Office, c: nat, x: NewPerson, k: nat)
    requires c in s.pending && s.pending[c] == Roles(x, k)
    ensures var s' := Next(Next(s, Break(c)), Write(c));
            && s'.pending == s.pending - {c}
            && x.id !in s'.people.users && Of(s'.people, x.id) == {} && OnlyAbout(s.people, s'.people, x.id)
    ensures forall p: People ::
              WellFormed(p) && UserCreated(p, x.id, x.email, x.name).result.Ok?
              && OnlyGrantsTo(UserCreated(p, x.id, x.email, x.name).people, s.people, x.id) ==>
                Next(Next(s, Break(c)), Write(c)).people == p
  {
    var broken := Next(s, Break(c));
    assert broken == s.(pending := s.pending[c := Undo(x.id)]);
    assert Next(broken, Write(c)) == Office(UserDeleted(s.people, x.id), broken.pending - {c});
    DeletionLeaves(s.people, x.id);
    forall p: People | WellFormed(p) && UserCreated(p, x.id, x.email, x.name).result.Ok?
                       && OnlyGrantsTo(UserCreated(p, x.id, x.email, x.name).people, s.people, x.id)
      ensures UserDeleted(s.people, x.id) == p
    {
      OnlyGrantsUndone(p, UserCreated(p, x.id, x.email, x.name).people, s.people, x.id);
    }
  }

  /** Left alone, a creation too does in its several transactions what it does taken as one step. */
  lemma CreationAlone(p: People, act: Act) returns (n: nat)
    requires act.call.CallCreate? && Callable(act.call) && WellFormed(p)
    ensures AfterWrites(p, act, n) == Quiet(After(p, act))
  {
    var x := act.call.person;
    Asked(p, act);
    if Checked(p, act).None? {
      n := 0;
    } else if UserCreated(p, x.id, x.email, x.name).result.Err? {
      OneMore(p, act, 0, p, NewOne(x));
      n := 1;
    } else {
      CreationIs(p, act);
      UndoneIs(p, x);
      if Staffed(p, x, |x.requests|).result.Ok? {
        n := CreationEnds(p, act);
      } else {
        var k := FirstRefusal(p, x, |x.requests|);
        StopsAt(p, x, k);
        CreationUndone(p, act, k);
        n := k + 3;
      }
    }
  }

  lemma CreationEnds(p: People, act: Act) returns (n: nat)
    requires Begun(p, act) && Staffed(p, act.call.person, |act.call.person.requests|).result.Ok?
    requires UserDeleted(Invited(Staffed(p, act.call.person, |act.call.person.requests|).people, act.call.person.invite,
                                 act.call.person.id).people, act.call.person.id) == p
    ensures AfterWrites(p, act, n) == Quiet(After(p, act))
  {
    var x := act.call.person;
    var g := Staffed(p, x, |x.requests|).people;
    n := |x.requests| + 2;
    CreationIs(p, act);
    RolesOneByOne(p, act, |x.requests|);
    OneMore(p, act, n - 1, g, Roles(x, |x.requests|));
    if Invited(g, x.invite, x.id).result.Err? || x.auditFails {
      OneMore(p, act, n, Invited(g, x.invite, x.id).people, Undo(x.id));
      n := n + 1;
    }
  }

  lemma StopsAt(p: People, x: NewPerson, k: nat)
    requires |x.newIds| == |x.requests| && k < |x.requests| && Staffed(p, x, k + 1).result.Err?
    ensures Staffed(p, x, |x.requests|) == Staffed(p, x, k + 1)
  {
    assert x.requests[..|x.requests|] == x.requests && x.newIds[..|x.requests|] == x.newIds;
    GrantAllStops(UserCreated(p, x.id, x.email, x.name).people, x.id, x.requests, x.newIds, k + 1);
  }

  lemma CreationUndone(p: People, act: Act, k: nat)
    requires Begun(p, act) && k < |act.call.person.requests|
    requires Staffed(p, act.call.person, k).result.Ok? && Staffed(p, act.call.person, k + 1).result.Err?
    requires UserDeleted(Staffed(p, act.call.person, k + 1).people, act.call.person.id) == p
    ensures AfterWrites(p, act, k + 3) == Quiet(p)
  {
    var x := act.call.person;
    RolesOneByOne(p, act, k);
    StaffedNext(p, x, k);
    OneMore(p, act, k + 1, Staffed(p, x, k).people, Roles(x, k));
    var q := Staffed(p, x, k + 1).people;
    assert AfterWrites(p, act, k + 2) == Alone(q, Some(Undo(x.id)));
    OneMore(p, act, k + 2, q, Undo(x.id));
  }
}
