/**
 * The administrators' lock (db/UserStore.ts): transactions that could take the last administrator away run
 * step by step, among each other and among transactions that take no lock.
 */
module AdminLock {
  import opened Prelude
  import opened UserStore

  type TxId = nat

  /** A transaction that takes the lock. */
  datatype Work = Disable(id: UserId) | Remove(id: UserId, membership: MembershipId)

  /** How far it has come; the row is read before the check, the check before the write. */
  datatype Phase = Waiting | Holding | Found | Checked

  datatype Tx = Tx(work: Work, phase: Phase)

  datatype Database = Database(people: People, holder: Option<TxId>, txs: map<TxId, Tx>)

  datatype Step =
    | Open(t: TxId, work: Work)
    | TakeLock(t: TxId)
    | Find(t: TxId)
    | Assert(t: TxId)
    | Commit(t: TxId)
    | Abort(t: TxId)
    | GrantRole(x: Membership, newId: MembershipId)
    | Enable(id: UserId)
    | Create(id: UserId, email: Option<string>, name: string)
    | Undo(id: UserId)

  function Release(s: Database, t: TxId): Database {
    s.(txs := s.txs - {t}, holder := if s.holder == Some(t) then None else s.holder)
  }

  function Written(p: People, w: Work): People {
    match w
    case Disable(id) => if id in p.users then p.(users := p.users[id := p.users[id].(status := Disabled)],
                                                 sessions := Belonging(p.sessions, id)) else p
    case Remove(id, m) => if m in Of(p, id) then p.(memberships := p.memberships - {m}) else p
  }

  predicate Refuses(p: People, w: Work) {
    match w
    case Disable(id) => IsLastAdmin(p, id, None)
    case Remove(id, m) => m in p.memberships && Platform(p.memberships[m].role) && IsLastAdmin(p, id, Some(m))
  }

  function Advance(s: Database, t: TxId, phase: Phase): Database
    requires t in s.txs
  {
    s.(txs := s.txs[t := s.txs[t].(phase := phase)])
  }

  /** A step that is not possible in a state leaves it as it is. `Undo` is a creation that is rolled back, outside the lock. */
  function Next(s: Database, step: Step): Database {
    match step
    case Open(t, w) => if t in s.txs then s else s.(txs := s.txs[t := Tx(w, Waiting)])
    case TakeLock(t) =>
      if t in s.txs && s.txs[t].phase == Waiting && s.holder.None? then Advance(s, t, Holding).(holder := Some(t)) else s
    case Find(t) =>
      if t !in s.txs || s.txs[t].phase != Holding then s
      else if s.txs[t].work.Remove? && s.txs[t].work.membership !in Of(s.people, s.txs[t].work.id) then Release(s, t)
      else Advance(s, t, Found)
    case Assert(t) =>
      if t !in s.txs || s.txs[t].phase != Found then s
      else if Refuses(s.people, s.txs[t].work) then Release(s, t)
      else Advance(s, t, Checked)
    case Commit(t) =>
      if t !in s.txs || s.txs[t].phase != Checked then s
      else Release(s.(people := Written(s.people, s.txs[t].work)), t)
    case Abort(t) => if t in s.txs then Release(s, t) else s
    case GrantRole(x, newId) => s.(people := Grant(s.people, x, newId).people)
    case Enable(id) => s.(people := StatusChanged(s.people, id, Active).people)
    case Create(id, email, name) => s.(people := UserCreated(s.people, id, email, name).people)
    case Undo(id) => s.(people := UserDeleted(s.people, id))
  }

  function Run(s: Database, steps: seq<Step>): Database {
    if steps == [] then s else Next(Run(s, steps[..|steps| - 1]), steps[|steps| - 1])
  }

  // ─── The invariant ─────────────────────────────────────────────────────────

  /** Somebody stays an active administrator when this is written. */
  ghost predicate Spares(p: People, w: Work) {
    match w
    case Disable(id) => ActiveAdmins(p) - {id} != {}
    case Remove(id, m) =>
      || ActiveAdmins(p) - {id} != {}
      || (id in ActiveAdmins(p) && KeepsRole(p, id, Some(m)))
  }

  /** Who is past waiting holds the lock. */
  ghost predicate OneHolder(s: Database) {
    forall t :: t in s.txs && s.txs[t].phase != Waiting ==> s.holder == Some(t)
  }

  /** There is an administrator, and whoever is about to write spares one. */
  ghost predicate Safe(s: Database) {
    && ActiveAdmins(s.people) != {}
    && (forall t :: t in s.txs && s.txs[t].phase == Checked ==> Spares(s.people, s.txs[t].work))
  }

  ghost predicate Guarded(s: Database) { OneHolder(s) && Safe(s) }

  /** What transactions outside the lock may do: add administrators, never take one away. */
  ghost predicate Grew(p: People, p': People) {
    && ActiveAdmins(p) <= ActiveAdmins(p')
    && forall id, m :: KeepsRole(p, id, m) ==> KeepsRole(p', id, m)
  }

  lemma GrownSpares(p: People, p': People, w: Work)
    requires Grew(p, p') && Spares(p, w)
    ensures Spares(p', w)
  {
    if ActiveAdmins(p) - {w.id} != {} {
      var u :| u in ActiveAdmins(p) - {w.id};
      assert u in ActiveAdmins(p') - {w.id};
    }
  }

  lemma MoreMembershipsGrow(p: People, p': People)
    requires p'.users == p.users
    requires forall m :: m in p.memberships ==> m in p'.memberships && p'.memberships[m] == p.memberships[m]
    ensures Grew(p, p')
  {
    forall u | u in ActiveAdmins(p) ensures u in ActiveAdmins(p') {
      var m :| m in p.memberships && Platform(p.memberships[m].role) && p.memberships[m].userId == u;
      assert m in p'.memberships;
    }
    forall id, except | KeepsRole(p, id, except) ensures KeepsRole(p', id, except) {
      var m :| m in p.memberships && p.memberships[m].userId == id && Platform(p.memberships[m].role) && Some(m) != except;
      assert m in p'.memberships;
    }
  }

  lemma MoreActiveGrow(p: People, p': People)
    requires p'.memberships == p.memberships
    requires forall u :: u in p.users && p.users[u].status == Active ==> u in p'.users && p'.users[u].status == Active
    ensures Grew(p, p')
  {
    forall id, except | KeepsRole(p, id, except) ensures KeepsRole(p', id, except) {
      var m :| m in p.memberships && p.memberships[m].userId == id && Platform(p.memberships[m].role) && Some(m) != except;
      assert m in p'.memberships;
    }
  }

  lemma UnlockedKeepsGuarded(s: Database, p': People)
    requires Guarded(s) && Grew(s.people, p')
    ensures Guarded(s.(people := p'))
  {
    forall t | t in s.txs && s.txs[t].phase == Checked ensures Spares(p', s.txs[t].work) {
      GrownSpares(s.people, p', s.txs[t].work);
    }
  }

  /** The check passes only if somebody is spared. */
  lemma PassedSpares(p: People, w: Work)
    requires ActiveAdmins(p) != {} && !Refuses(p, w)
    ensures Spares(p, w)
  {
    if ActiveAdmins(p) - {w.id} == {} {
      var u :| u in ActiveAdmins(p);
      assert ActiveAdmins(p) <= (ActiveAdmins(p) - {w.id}) + {w.id};
      var m :| m in p.memberships && Platform(p.memberships[m].role) && p.memberships[m].userId == w.id;
      if w.Remove? && m != w.membership {
        assert KeepsRole(p, w.id, Some(w.membership));
      }
    }
  }

  lemma WrittenSpares(p: People, w: Work)
    requires ActiveAdmins(p) != {} && Spares(p, w)
    ensures ActiveAdmins(Written(p, w)) != {}
  {
    var p' := Written(p, w);
    if ActiveAdmins(p) - {w.id} != {} {
      var u :| u in ActiveAdmins(p) - {w.id};
      var m :| m in p.memberships && Platform(p.memberships[m].role) && p.memberships[m].userId == u;
      assert m in p'.memberships && p'.memberships[m] == p.memberships[m] && p'.users[u] == p.users[u];
      assert u in ActiveAdmins(p');
    } else if w.Remove? && w.membership in Of(p, w.id) {
      AdminsWithout(p, w.id, w.membership);
    }
  }

  lemma AssertKeepsGuarded(s: Database, t: TxId)
    requires Guarded(s) && t in s.txs && s.txs[t].phase == Found && !Refuses(s.people, s.txs[t].work)
    ensures Guarded(Advance(s, t, Checked))
  {
    PassedSpares(s.people, s.txs[t].work);
  }

  lemma CommitKeepsGuarded(s: Database, t: TxId)
    requires Guarded(s) && t in s.txs && s.txs[t].phase == Checked
    ensures Guarded(Next(s, Commit(t)))
  {
    WrittenSpares(s.people, s.txs[t].work);
  }

  lemma StepKeepsGuarded(s: Database, step: Step)
    requires Guarded(s) && !step.Undo?
    ensures Guarded(Next(s, step))
  {
    match step
    case Assert(t) =>
      if t in s.txs && s.txs[t].phase == Found && !Refuses(s.people, s.txs[t].work) { AssertKeepsGuarded(s, t); }
    case Commit(t) => if t in s.txs && s.txs[t].phase == Checked { CommitKeepsGuarded(s, t); }
    case GrantRole(x, newId) =>
      MoreMembershipsGrow(s.people, Grant(s.people, x, newId).people);
      UnlockedKeepsGuarded(s, Grant(s.people, x, newId).people);
    case Enable(id) =>
      MoreActiveGrow(s.people, StatusChanged(s.people, id, Active).people);
      UnlockedKeepsGuarded(s, StatusChanged(s.people, id, Active).people);
    case Create(id, email, name) =>
      MoreActiveGrow(s.people, UserCreated(s.people, id, email, name).people);
      UnlockedKeepsGuarded(s, UserCreated(s.people, id, email, name).people);
    case _ =>
  }

  lemma StepKeepsHolder(s: Database, step: Step)
    requires OneHolder(s)
    ensures OneHolder(Next(s, step))
  {
  }

  lemma {:induction false} RunKeepsHolder(s: Database, steps: seq<Step>)
    requires OneHolder(s)
    ensures OneHolder(Run(s, steps))
  {
    if steps != [] {
      RunKeepsHolder(s, steps[..|steps| - 1]);
      StepKeepsHolder(Run(s, steps[..|steps| - 1]), steps[|steps| - 1]);
    }
  }

  predicate NoUndo(steps: seq<Step>) { forall k :: 0 <= k < |steps| ==> !steps[k].Undo? }

  lemma {:induction false} RunKeepsGuarded(s: Database, steps: seq<Step>)
    requires Guarded(s) && NoUndo(steps)
    ensures Guarded(Run(s, steps))
  {
    if steps != [] {
      RunKeepsGuarded(s, steps[..|steps| - 1]);
      StepKeepsGuarded(Run(s, steps[..|steps| - 1]), steps[|steps| - 1]);
    }
  }

  // ─── Exactly when an administrator remains ─────────────────────────────────

  /** A write that spares nobody leaves no administrator. */
  lemma UnsparedLosesAll(p: People, w: Work)
    requires !Spares(p, w)
    ensures ActiveAdmins(Written(p, w)) == {}
  {
    var p' := Written(p, w);
    assert ActiveAdmins(p) <= (ActiveAdmins(p) - {w.id}) + {w.id};
    forall u | u in ActiveAdmins(p') ensures u in ActiveAdmins(p) {
      var m :| m in p'.memberships && Platform(p'.memberships[m].role) && p'.memberships[m].userId == u;
      assert m in p.memberships && p.memberships[m] == p'.memberships[m];
      assert u in ActiveAdmins(p);
    }
  }

  /** However disables, removals, grants, enables and creations go on, there is an administrator at every moment. */
  ghost predicate Lasting(s: Database) {
    forall steps :: NoUndo(steps) ==> ActiveAdmins(Run(s, steps).people) != {}
  }

  /**
   * While no creation is rolled back, there will always be an active administrator, whatever interleaves and
   * whichever transactions are abandoned, if and only if there is one now and every transaction that is past
   * its check spares one.
   */
  lemma AnAdministratorRemains(s: Database)
    requires OneHolder(s)
    ensures Lasting(s) <==> Safe(s)
  {
    if Safe(s) {
      forall steps | NoUndo(steps) ensures ActiveAdmins(Run(s, steps).people) != {} {
        RunKeepsGuarded(s, steps);
      }
    }
    if Lasting(s) {
      assert NoUndo([]) && Run(s, []) == s;
      forall t | t in s.txs && s.txs[t].phase == Checked ensures Spares(s.people, s.txs[t].work) {
        assert NoUndo([Commit(t)]);
        RunOne(s, Commit(t));
        if !Spares(s.people, s.txs[t].work) { UnsparedLosesAll(s.people, s.txs[t].work); }
      }
    }
  }

  lemma RunOne(s: Database, step: Step)
    ensures Run(s, [step]) == Next(s, step)
  {
    assert [step][..0] == [];
  }

  /** Rolling this creation back leaves an administrator, now and after the write that is due. */
  ghost predicate UndoSpares(s: Database, id: UserId) {
    && ActiveAdmins(s.people) - {id} != {}
    && forall t :: t in s.txs && s.txs[t].phase == Checked ==> Spares(UserDeleted(s.people, id), s.txs[t].work)
  }

  lemma AdminsWithoutDeleted(p: People, id: UserId)
    ensures ActiveAdmins(UserDeleted(p, id)) == ActiveAdmins(p) - {id}
  {
    var p' := UserDeleted(p, id);
    forall u | u in ActiveAdmins(p) && u != id ensures u in ActiveAdmins(p') {
      var m :| m in p.memberships && Platform(p.memberships[m].role) && p.memberships[m].userId == u;
      assert m in p'.memberships;
    }
  }

  ghost predicate UndoSparesAt(s: Database, steps: seq<Step>, k: nat)
    requires k < |steps|
  {
    steps[k].Undo? ==> UndoSpares(Run(s, steps[..k]), steps[k].id)
  }

  ghost predicate LastingAt(s: Database, steps: seq<Step>, k: nat)
    requires k <= |steps|
  {
    Lasting(Run(s, steps[..k]))
  }

  lemma LastingNext(s: Database, steps: seq<Step>, k: nat)
    requires OneHolder(s) && k < |steps| && LastingAt(s, steps, k)
    ensures LastingAt(s, steps, k + 1) <==> UndoSparesAt(s, steps, k)
  {
    var c := Run(s, steps[..k]);
    assert steps[..k + 1][..k] == steps[..k];
    RunKeepsHolder(s, steps[..k]);
    StepKeepsHolder(c, steps[k]);
    AnAdministratorRemains(c);
    AnAdministratorRemains(Next(c, steps[k]));
    if steps[k].Undo? {
      AdminsWithoutDeleted(c.people, steps[k].id);
    } else {
      StepKeepsGuarded(c, steps[k]);
    }
  }

  /**
   * With rollbacks, over whole runs: the administrators are secure at every moment if and only if they are at the
   * start and each rollback leaves one besides the person it deletes.
   */
  lemma AdministratorsOverRuns(s: Database, steps: seq<Step>)
    requires OneHolder(s)
    ensures (forall k :: 0 <= k <= |steps| ==> LastingAt(s, steps, k))
            <==> Lasting(s) && forall k :: 0 <= k < |steps| ==> UndoSparesAt(s, steps, k)
  {
    assert steps[..0] == [] && Run(s, []) == s;
    if forall k :: 0 <= k <= |steps| ==> LastingAt(s, steps, k) {
      assert LastingAt(s, steps, 0);
      forall k | 0 <= k < |steps| ensures UndoSparesAt(s, steps, k) {
        assert LastingAt(s, steps, k) && LastingAt(s, steps, k + 1);
        LastingNext(s, steps, k);
      }
    }
    if Lasting(s) && forall k :: 0 <= k < |steps| ==> UndoSparesAt(s, steps, k) {
      forall k | 0 <= k <= |steps| ensures LastingAt(s, steps, k) {
        LastsUpTo(s, steps, k);
      }
    }
  }

  lemma {:induction false} LastsUpTo(s: Database, steps: seq<Step>, k: nat)
    requires OneHolder(s) && Lasting(s) && k <= |steps|
    requires forall j :: 0 <= j < |steps| ==> UndoSparesAt(s, steps, j)
    ensures LastingAt(s, steps, k)
  {
    if k == 0 {
      assert steps[..0] == [];
    } else {
      LastsUpTo(s, steps, k - 1);
      assert UndoSparesAt(s, steps, k - 1);
      LastingNext(s, steps, k - 1);
    }
  }

  // ─── Runs put together ─────────────────────────────────────────────────────

  lemma {:induction false} RunConcat(s: Database, a: seq<Step>, b: seq<Step>)
    ensures Run(s, a + b) == Run(Run(s, a), b)
    decreases |b|
  {
    if b == [] {
      assert a + b == a;
    } else {
      var init, last := b[..|b| - 1], b[|b| - 1];
      RunConcat(s, a, init);
      assert (a + b)[..|a + b| - 1] == a + init;
    }
  }

  lemma RunTwo(s: Database, first: Step, second: Step)
    ensures Run(s, [first, second]) == Next(Next(s, first), second)
  {
    assert [first, second][..1] == [first];
    RunOne(s, first);
  }

  function Idle(p: People): Database { Database(p, None, map[]) }

  function OneTx(p: People, w: Work, phase: Phase): Database { Database(p, Some(0), map[0 := Tx(w, phase)]) }

  function Disabling(id: UserId): seq<Step> { [Open(0, Disable(id)), TakeLock(0)] + [Find(0), Assert(0)] }

  /** A disable from its start to its check, when nobody is refused. */
  lemma DisableChecks(p: People, id: UserId)
    requires !IsLastAdmin(p, id, None)
    ensures Run(Idle(p), Disabling(id)) == OneTx(p, Disable(id), Checked)
  {
    RunConcat(Idle(p), [Open(0, Disable(id)), TakeLock(0)], [Find(0), Assert(0)]);
    RunTwo(Idle(p), Open(0, Disable(id)), TakeLock(0));
    assert Next(Idle(p), Open(0, Disable(id))) == Database(p, None, map[0 := Tx(Disable(id), Waiting)]);
    var s := OneTx(p, Disable(id), Holding);
    assert Next(Next(Idle(p), Open(0, Disable(id))), TakeLock(0)) == s;
    RunTwo(s, Find(0), Assert(0));
    assert Next(s, Find(0)) == OneTx(p, Disable(id), Found);
  }

  // ─── A transaction that nothing comes between ──────────────────────────────

  /** What the transaction does when it is taken as one step. */
  function AtOnce(p: People, w: Work): Change<bool, StoreError> {
    match w
    case Disable(id) => StatusChanged(p, id, Disabled)
    case Remove(id, m) => Removed(p, id, m)
  }

  function Whole(w: Work): seq<Step> { [Open(0, w), TakeLock(0)] + [Find(0), Assert(0)] + [Commit(0)] }

  lemma OpenedAndLocked(p: People, w: Work)
    ensures Run(Idle(p), [Open(0, w), TakeLock(0)]) == OneTx(p, w, Holding)
  {
    RunTwo(Idle(p), Open(0, w), TakeLock(0));
    assert Next(Idle(p), Open(0, w)) == Database(p, None, map[0 := Tx(w, Waiting)]);
    assert Next(Next(Idle(p), Open(0, w)), TakeLock(0)) == OneTx(p, w, Holding);
  }

  lemma FoundAndChecked(p: People, w: Work)
    ensures var s := Run(OneTx(p, w, Holding), [Find(0), Assert(0)]);
            s == if (w.Remove? && w.membership !in Of(p, w.id)) || Refuses(p, w) then Idle(p) else OneTx(p, w, Checked)
  {
    var s := OneTx(p, w, Holding);
    RunTwo(s, Find(0), Assert(0));
    assert Next(s, Find(0)) == if w.Remove? && w.membership !in Of(p, w.id) then Idle(p) else OneTx(p, w, Found);
    assert Next(OneTx(p, w, Found), Assert(0)) == if Refuses(p, w) then Idle(p) else OneTx(p, w, Checked);
  }

  /** Step by step, alone, it does exactly what the store's method does, and leaves the lock free. */
  lemma AloneIsAtOnce(p: People, w: Work)
    ensures Run(Idle(p), Whole(w)) == Idle(AtOnce(p, w).people)
  {
    RunConcat(Idle(p), [Open(0, w), TakeLock(0)] + [Find(0), Assert(0)], [Commit(0)]);
    RunConcat(Idle(p), [Open(0, w), TakeLock(0)], [Find(0), Assert(0)]);
    OpenedAndLocked(p, w);
    FoundAndChecked(p, w);
    RunOne(Run(OneTx(p, w, Holding), [Find(0), Assert(0)]), Commit(0));
  }

  // ─── Two ways to lose the administrators ───────────────────────────────────

  function Alice(status: Status): User { User("alice@example.org", "Alice", status) }
  const BOB: User := User("bob@example.org", "Bob", Active)
  const ALICES: Membership := Membership("alice", Operator, None)
  const BOBS: Membership := Membership("bob", Operator, None)

  /** Alice is the only operator. */
  function Only(status: Status): People { People(map["alice" := Alice(status)], map["m" := ALICES], {}, map[], map[]) }

  /**
   * Disabling her while she is disabled passes its check, there being nobody to lose. Enabled before that write,
   * she is the first administrator, and then there is none.
   */
  lemma FirstAdministratorCanBeLost()
    ensures ActiveAdmins(Run(Idle(Only(Disabled)), Disabling("alice") + [Enable("alice")]).people) == {"alice"}
    ensures ActiveAdmins(Run(Idle(Only(Disabled)), Disabling("alice") + [Enable("alice"), Commit(0)]).people) == {}
  {
    RunConcat(Idle(Only(Disabled)), Disabling("alice"), [Enable("alice")]);
    RunConcat(Idle(Only(Disabled)), Disabling("alice"), [Enable("alice"), Commit(0)]);
    OnlyAlice(Disabled);
    OnlyAlice(Active);
    DisableChecks(Only(Disabled), "alice");
    EnabledThenDisabled();
  }

  lemma EnabledThenDisabled()
    ensures var s := OneTx(Only(Disabled), Disable("alice"), Checked);
            Run(s, [Enable("alice")]).people == Only(Active) && Run(s, [Enable("alice"), Commit(0)]).people == Only(Disabled)
  {
    var s := OneTx(Only(Disabled), Disable("alice"), Checked);
    RunOne(s, Enable("alice"));
    RunTwo(s, Enable("alice"), Commit(0));
    assert Next(s, Enable("alice")).people == Only(Active);
    assert Next(Next(s, Enable("alice")), Commit(0)).people == Only(Disabled);
  }

  lemma OnlyAlice(status: Status)
    ensures ActiveAdmins(Only(status)) == if status == Active then {"alice"} else {}
  {
    var p := Only(status);
    assert p.memberships["m"] == ALICES && p.users["alice"].status == status;
    if status == Active { assert "alice" in ActiveAdmins(p); }
  }

  /** With Bob just created as an operator beside Alice. */
  function Both(status: Status): People {
    People(map["alice" := Alice(status), "bob" := BOB], map["m" := ALICES, "n" := BOBS], {}, map[], map[])
  }

  lemma BothAdmins(status: Status)
    ensures ActiveAdmins(Both(status)) == if status == Active then {"alice", "bob"} else {"bob"}
    ensures !IsLastAdmin(Both(status), "alice", None)
  {
    var p := Both(status);
    assert p.memberships["m"] == ALICES && p.memberships["n"] == BOBS;
    assert p.users["alice"].status == status && p.users["bob"].status == Active;
    if status == Active { assert "alice" in ActiveAdmins(p); }
    assert "bob" in ActiveAdmins(p) && "bob" in ActiveAdmins(p) - {"alice"};
  }

  const CREATE_BOB: seq<Step> := [Create("bob", Some("bob@example.org"), "Bob"), GrantRole(BOBS, "n")]

  lemma BobJoins()
    ensures Run(Idle(Only(Active)), CREATE_BOB) == Idle(Both(Active))
  {
    var s := Idle(Only(Active));
    RunTwo(s, Create("bob", Some("bob@example.org"), "Bob"), GrantRole(BOBS, "n"));
    var p := Next(s, Create("bob", Some("bob@example.org"), "Bob")).people;
    assert p.users == Both(Active).users && p.memberships == map["m" := ALICES];
    assert p.memberships["m"] != BOBS;
    assert Grant(p, BOBS, "n").people.memberships == Both(Active).memberships;
  }

  /**
   * Bob is created as an operator, Alice is disabled since there is Bob, and then the creation is rolled back: there
   * is no administrator, although each of the three was allowed.
   */
  lemma RollbackCanLoseTheLast()
    ensures ActiveAdmins(Only(Active)) == {"alice"}
    ensures ActiveAdmins(Run(Idle(Only(Active)), CREATE_BOB + (Disabling("alice") + [Commit(0), Undo("bob")])).people) == {}
  {
    OnlyAlice(Active);
    BobJoins();
    RunConcat(Idle(Only(Active)), CREATE_BOB, Disabling("alice") + [Commit(0), Undo("bob")]);
    BothAdmins(Active);
    DisabledThenUndone(Both(Active), "alice", "bob");
    AliceIsDisabled();
    BobWasTheLast();
  }

  lemma DisabledThenUndone(p: People, id: UserId, other: UserId)
    requires !IsLastAdmin(p, id, None)
    ensures Run(Idle(p), Disabling(id) + [Commit(0), Undo(other)]).people == UserDeleted(Written(p, Disable(id)), other)
  {
    RunConcat(Idle(p), Disabling(id), [Commit(0), Undo(other)]);
    DisableChecks(p, id);
    RunTwo(OneTx(p, Disable(id), Checked), Commit(0), Undo(other));
  }

  lemma AliceIsDisabled()
    ensures Written(Both(Active), Disable("alice")) == Both(Disabled)
  {
    assert Both(Disabled).users == Both(Active).users["alice" := Alice(Disabled)];
  }

  lemma BobWasTheLast()
    ensures ActiveAdmins(UserDeleted(Both(Disabled), "bob")) == {}
  {
    BothAdmins(Disabled);
    AdminsWithoutDeleted(Both(Disabled), "bob");
  }
}
