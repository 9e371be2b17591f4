/**
 * Giving up one's own last role is refused (auth/UserAdmin.ts), but calls overlap: exactly when a removal of one's own
 * role, which passed its check, takes the last one.
 */
module LastRole {
  import opened Prelude
  import opened UserStore
  import opened UserAdmin
  import opened PeopleRules
  import opened PeopleRaces

  /** The office before step `k`. */
  function At(s: Office, steps: seq<Step>, k: nat): Office
    requires k <= |steps|
  {
    Run(s, steps[..k])
  }

  function RolesAt(s: Office, steps: seq<Step>, k: nat, id: UserId): set<MembershipId>
    requires k <= |steps|
  {
    Of(At(s, steps, k).people, id)
  }

  lemma AtNext(s: Office, steps: seq<Step>, k: nat)
    requires k < |steps|
    ensures At(s, steps, k + 1) == Next(At(s, steps, k), steps[k])
  {
    assert steps[..k + 1][..k] == steps[..k];
  }

  /** Step `k` takes this membership from the person; or gives it to them. */
  predicate Takes(s: Office, steps: seq<Step>, k: nat, id: UserId, x: MembershipId)
    requires k < |steps|
  {
    x in RolesAt(s, steps, k, id) && x !in RolesAt(s, steps, k + 1, id)
  }

  predicate Gives(s: Office, steps: seq<Step>, k: nat, id: UserId, x: MembershipId)
    requires k < |steps|
  {
    x !in RolesAt(s, steps, k, id) && x in RolesAt(s, steps, k + 1, id)
  }

  /** A call by which the person asks to remove their own membership `m`, with only its last read to come. */
  ghost predicate AsksOwn(w: Work, me: UserId, m: MembershipId) {
    && w.Looking? && w.seen.Some? && w.act.call == CallRemove(me, m)
    && ScopeOf(w.act.actor).Some? && ScopeOf(w.act.actor).value.actorId == Some(me)
  }

  /** Such a call, `c`, reads their roles and passes its checks at step `a`, and writes at step `b`. */
  ghost predicate RemovesOwn(s: Office, steps: seq<Step>, a: nat, b: nat, c: nat, me: UserId, m: MembershipId) {
    && a < b < |steps|
    && steps[a] == Look(c) && c in At(s, steps, a).pending && AsksOwn(At(s, steps, a).pending[c], me, m)
    && Decided(At(s, steps, a).people, At(s, steps, a).pending[c].act, At(s, steps, a).pending[c].seen.value).Some?
    && steps[b] == Write(c)
    && forall j :: a < j < b ==> steps[j] != Write(c) && steps[j] != Break(c)
  }

  /** Membership ids are drawn at random: the one being removed is not handed out again. */
  ghost predicate NotGivenAgain(s: Office, steps: seq<Step>, a: nat, b: nat, me: UserId, m: MembershipId)
    requires a < b < |steps|
  {
    forall j :: a < j < b ==> !Gives(s, steps, j, me, m)
  }

  // ─── Between the check and the write ───────────────────────────────────────

  lemma {:induction false} StillPending(s: Office, steps: seq<Step>, a: nat, b: nat, c: nat, me: UserId, m: MembershipId, k: nat)
    requires RemovesOwn(s, steps, a, b, c, me, m) && a < k <= b
    ensures c in At(s, steps, k).pending && At(s, steps, k).pending[c] == Remove(me, m)
    decreases k
  {
    AtNext(s, steps, k - 1);
    if k > a + 1 { StillPending(s, steps, a, b, c, me, m, k - 1); }
  }

  /** What the check saw. */
  lemma CheckSaw(s: Office, steps: seq<Step>, a: nat, b: nat, c: nat, me: UserId, m: MembershipId)
    requires RemovesOwn(s, steps, a, b, c, me, m)
    ensures m in RolesAt(s, steps, a, me) && At(s, steps, a).people.memberships[m].role == TenantManager
    ensures |RolesAt(s, steps, a, me)| != 1
    ensures At(s, steps, a + 1).people == At(s, steps, a).people
  {
    AtNext(s, steps, a);
  }

  /** While it is there, a membership is what it was. */
  lemma {:induction false} StaysManager(s: Office, steps: seq<Step>, a: nat, b: nat, c: nat, me: UserId, m: MembershipId, k: nat)
    requires RemovesOwn(s, steps, a, b, c, me, m) && NotGivenAgain(s, steps, a, b, me, m) && a < k <= b
    ensures m in RolesAt(s, steps, k, me) ==> At(s, steps, k).people.memberships[m].role == TenantManager
    decreases k
  {
    if k == a + 1 {
      CheckSaw(s, steps, a, b, c, me, m);
    } else {
      StaysManager(s, steps, a, b, c, me, m, k - 1);
      assert !Gives(s, steps, k - 1, me, m);
      StillManager(s, steps, k - 1, me, m);
    }
  }

  lemma StillManager(s: Office, steps: seq<Step>, k: nat, me: UserId, m: MembershipId)
    requires k < |steps| && !Gives(s, steps, k, me, m)
    requires m in RolesAt(s, steps, k, me) ==> At(s, steps, k).people.memberships[m].role == TenantManager
    ensures m in RolesAt(s, steps, k + 1, me) ==> At(s, steps, k + 1).people.memberships[m].role == TenantManager
  {
    AtNext(s, steps, k);
    if m in RolesAt(s, steps, k + 1, me) { StepKeepsMembership(At(s, steps, k), steps[k], m); }
  }

  lemma StepKeepsMembership(s: Office, step: Step, m: MembershipId)
    requires m in s.people.memberships && m in Next(s, step).people.memberships
    ensures Next(s, step).people.memberships[m] == s.people.memberships[m]
  {
    if step.Write? && step.c in s.pending { WrittenMemberships(s.people, s.pending[step.c], m); }
  }

  /** The write itself takes `m` and nothing else. */
  lemma WriteTakes(s: Office, steps: seq<Step>, a: nat, b: nat, c: nat, me: UserId, m: MembershipId)
    requires RemovesOwn(s, steps, a, b, c, me, m) && NotGivenAgain(s, steps, a, b, me, m)
    ensures RolesAt(s, steps, b + 1, me) == RolesAt(s, steps, b, me) - {m}
  {
    StillPending(s, steps, a, b, c, me, m, b);
    StaysManager(s, steps, a, b, c, me, m, b);
    AtNext(s, steps, b);
  }

  /** Something that was there and is not any more was taken. */
  lemma {:induction false} WasTaken(s: Office, steps: seq<Step>, i: nat, k: nat, me: UserId, x: MembershipId) returns (j: nat)
    requires i <= k <= |steps| && x in RolesAt(s, steps, i, me) && x !in RolesAt(s, steps, k, me)
    ensures i <= j < k && Takes(s, steps, j, me, x)
    decreases k
  {
    j := k - 1;
    if x !in RolesAt(s, steps, k - 1, me) { j := WasTaken(s, steps, i, k - 1, me, x); }
  }

  /** Since when a membership has been there. */
  lemma {:induction false} ThereSince(s: Office, steps: seq<Step>, i: nat, k: nat, me: UserId, x: MembershipId) returns (j: nat)
    requires i <= k <= |steps| && x in RolesAt(s, steps, k, me)
    ensures i <= j <= k && (j == i || Gives(s, steps, j - 1, me, x))
    ensures forall l :: j <= l <= k ==> x in RolesAt(s, steps, l, me)
    decreases k
  {
    j := k;
    if i < k && x in RolesAt(s, steps, k - 1, me) { j := ThereSince(s, steps, i, k - 1, me, x); }
  }

  ghost predicate TakenBetween(s: Office, steps: seq<Step>, a: nat, b: nat, me: UserId, x: MembershipId)
    requires b <= |steps|
  {
    exists j :: a < j < b && Takes(s, steps, j, me, x)
  }

  ghost predicate EveryOtherTaken(s: Office, steps: seq<Step>, a: nat, b: nat, me: UserId, m: MembershipId)
    requires a < b <= |steps|
  {
    forall x :: x in RolesAt(s, steps, a, me) && x != m ==> TakenBetween(s, steps, a, b, me, x)
  }

  ghost predicate NoneAddedToStay(s: Office, steps: seq<Step>, a: nat, b: nat, me: UserId, m: MembershipId)
    requires b <= |steps|
  {
    forall j, x :: a < j < b && x != m && Gives(s, steps, j, me, x) ==> TakenBetween(s, steps, j, b, me, x)
  }

  // ─── Exactly when the last role goes ───────────────────────────────────────

  lemma StrippedMeansTaken(s: Office, steps: seq<Step>, a: nat, b: nat, c: nat, me: UserId, m: MembershipId)
    requires RemovesOwn(s, steps, a, b, c, me, m) && RolesAt(s, steps, b, me) - {m} == {}
    ensures EveryOtherTaken(s, steps, a, b, me, m) && NoneAddedToStay(s, steps, a, b, me, m)
  {
    CheckSaw(s, steps, a, b, c, me, m);
    forall x | x in RolesAt(s, steps, a, me) && x != m ensures TakenBetween(s, steps, a, b, me, x) {
      assert x !in RolesAt(s, steps, b, me) - {m};
      var j := WasTaken(s, steps, a + 1, b, me, x);
    }
    forall j, x | a < j < b && x != m && Gives(s, steps, j, me, x) ensures TakenBetween(s, steps, j, b, me, x) {
      assert x !in RolesAt(s, steps, b, me) - {m};
      var l := WasTaken(s, steps, j + 1, b, me, x);
    }
  }

  /** A role that is there at the write was not taken, or was given to stay. */
  lemma StaysMeansNotTaken(s: Office, steps: seq<Step>, a: nat, b: nat, c: nat, me: UserId, m: MembershipId, x: MembershipId)
    requires RemovesOwn(s, steps, a, b, c, me, m) && x in RolesAt(s, steps, b, me) && x != m
    ensures !EveryOtherTaken(s, steps, a, b, me, m) || !NoneAddedToStay(s, steps, a, b, me, m)
  {
    CheckSaw(s, steps, a, b, c, me, m);
    var j := ThereSince(s, steps, a + 1, b, me, x);
    assert x in RolesAt(s, steps, j, me);
    if j == a + 1 {
      assert x in RolesAt(s, steps, a, me);
      assert !TakenBetween(s, steps, a, b, me, x);
    } else {
      assert Gives(s, steps, j - 1, me, x);
      assert !TakenBetween(s, steps, j - 1, b, me, x);
    }
  }

  /**
   * In every run: removing one's own role, once its check has passed, leaves the person with no role if and only if
   * between the check and the write each other role of theirs was taken away, and so was each one they were given.
   */
  lemma LastRoleGoesExactly(s: Office, steps: seq<Step>, a: nat, b: nat, c: nat, me: UserId, m: MembershipId)
    requires RemovesOwn(s, steps, a, b, c, me, m) && NotGivenAgain(s, steps, a, b, me, m)
    ensures RolesAt(s, steps, b + 1, me) == {}
            <==> EveryOtherTaken(s, steps, a, b, me, m) && NoneAddedToStay(s, steps, a, b, me, m)
  {
    WriteTakes(s, steps, a, b, c, me, m);
    if RolesAt(s, steps, b, me) - {m} == {} {
      StrippedMeansTaken(s, steps, a, b, c, me, m);
    } else {
      var x :| x in RolesAt(s, steps, b, me) - {m};
      StaysMeansNotTaken(s, steps, a, b, c, me, m, x);
    }
  }

  /** Only a removal of that membership takes it, or the end of a creation that is undone. */
  lemma WhoTakes(s: Office, steps: seq<Step>, k: nat, me: UserId, x: MembershipId)
    requires k < |steps| && Takes(s, steps, k, me, x)
    ensures steps[k].Write? && steps[k].c in At(s, steps, k).pending
    ensures At(s, steps, k).pending[steps[k].c] in {Remove(me, x), Undo(me)}
  {
    AtNext(s, steps, k);
    var o := At(s, steps, k);
    if steps[k].Write? && steps[k].c in o.pending { WrittenMemberships(o.people, o.pending[steps[k].c], x); }
  }

  /** No other call is about to take a role of this person. */
  ghost predicate OnlyThisOne(o: Office, c: nat, me: UserId) {
    forall d :: d in o.pending && d != c ==> !(o.pending[d].Remove? && o.pending[d].id == me) && o.pending[d] != Undo(me)
  }

  /** So while no other removal of a role of theirs is pending, nobody strips their own last role. */
  lemma LoneRemovalLeavesARole(s: Office, steps: seq<Step>, a: nat, b: nat, c: nat, me: UserId, m: MembershipId)
    requires RemovesOwn(s, steps, a, b, c, me, m) && NotGivenAgain(s, steps, a, b, me, m)
    requires forall j :: a < j < b ==> OnlyThisOne(At(s, steps, j), c, me)
    ensures RolesAt(s, steps, b + 1, me) != {}
  {
    CheckSaw(s, steps, a, b, c, me, m);
    var roles := RolesAt(s, steps, a, me);
    assert roles != {m};
    var x :| x in roles && x != m;
    forall j | a < j < b ensures !Takes(s, steps, j, me, x) {
      assert OnlyThisOne(At(s, steps, j), c, me);
      if Takes(s, steps, j, me, x) { WhoTakes(s, steps, j, me, x); }
    }
    LastRoleGoesExactly(s, steps, a, b, c, me, m);
    assert !EveryOtherTaken(s, steps, a, b, me, m);
  }

  // ─── And it does happen ────────────────────────────────────────────────────

  const EVE: User := User("eve@example.org", "Eve", Active)
  const IN_A: Membership := Membership("eve", TenantManager, Some("a"))
  const IN_B: Membership := Membership("eve", TenantManager, Some("b"))
  const TWO_ROLES: People := People(map["eve" := EVE], map["m" := IN_A, "n" := IN_B], {"a", "b"}, map[], map[])
  const SELF: Principal := Person("eve", [IN_A, IN_B])

  const TAKE_M: Act := Act(SELF, CallRemove("eve", "m"))
  const TAKE_N: Act := Act(SELF, CallRemove("eve", "n"))
  const BOTH_CHECK: seq<Step> := [Ask(0, TAKE_M)] + [Look(0)] + [Look(0)] + [Ask(1, TAKE_N)] + [Look(1)] + [Look(1)]

  /**
   * No single call takes a person's own last role. Two that overlap can: each sees two roles when it checks, and
   * removes one.
   */
  lemma TwoRemovalsCanStrip()
    ensures Of(TWO_ROLES, "eve") != {}
    ensures Of(Run(Quiet(TWO_ROLES), BOTH_CHECK + [Write(0)] + [Write(1)]).people, "eve") == {}
  {
    StripChecks();
    BothChecked();
    var s := Quiet(TWO_ROLES);
    RunSnoc(s, BOTH_CHECK, Write(0));
    RunSnoc(s, BOTH_CHECK + [Write(0)], Write(1));
    StripSteps();
  }

  const READY: Office := Office(TWO_ROLES, map[0 := Remove("eve", "m"), 1 := Remove("eve", "n")])

  lemma ThreeSteps(s: Office, steps: seq<Step>, c: nat, act: Act)
    requires c !in Run(s, steps).pending && !act.call.CallCreate?
    ensures var o := Run(s, steps);
            Run(s, steps + [Ask(c, act)] + [Look(c)] + [Look(c)]) == o.(pending := Left(o.pending, c, Checked(o.people, act)))
  {
    RunSnoc(s, steps, Ask(c, act));
    RunSnoc(s, steps + [Ask(c, act)], Look(c));
    RunSnoc(s, steps + [Ask(c, act)] + [Look(c)], Look(c));
    LooksAreChecks(Run(s, steps), c, act);
  }

  lemma BothChecked()
    ensures Run(Quiet(TWO_ROLES), BOTH_CHECK) == READY
  {
    StripChecks();
    var s := Quiet(TWO_ROLES);
    ThreeSteps(s, [], 0, TAKE_M);
    assert [] + [Ask(0, TAKE_M)] == [Ask(0, TAKE_M)];
    ThreeSteps(s, [Ask(0, TAKE_M)] + [Look(0)] + [Look(0)], 1, TAKE_N);
  }

  lemma StripSteps()
    ensures Next(Next(READY, Write(0)), Write(1)).people.memberships == map[]
  {
    var s := Next(READY, Write(0));
    assert READY.pending[0] == Remove("eve", "m");
    assert s.people.memberships == map["n" := IN_B] && s.pending[1] == Remove("eve", "n");
  }

  lemma StripChecks()
    ensures Of(TWO_ROLES, "eve") == {"m", "n"}
    ensures Checked(TWO_ROLES, Act(SELF, CallRemove("eve", "m"))) == Some(Remove("eve", "m"))
    ensures Checked(TWO_ROLES, Act(SELF, CallRemove("eve", "n"))) == Some(Remove("eve", "n"))
  {
    assert TWO_ROLES.memberships["m"] == IN_A && TWO_ROLES.memberships["n"] == IN_B;
    assert Of(TWO_ROLES, "eve") == {"m", "n"};
    assert SELF.roles[0] == IN_A && SELF.roles[1] == IN_B;
    assert IN_A in SELF.roles && IN_B in SELF.roles;
    assert "a" in ManagedTenants(SELF) && "b" in ManagedTenants(SELF);
  }
}
