/** The life of each tenant's worker set, started and stopped by code that awaits in the middle (worker/TenantWorkerManager.ts). */
module TenantWorkers {
  import opened Prelude

  type TenantId = string

  /** Where the promise of a set's `start()` stands. */
  datatype Start = Starting | Started | Failed

  datatype WorkerSet = WorkerSet(tenant: TenantId, start: Start)

  datatype Sync = Idle | Listing | Ensuring(active: set<TenantId>)

  /**
   * `running`, `syncing` and `stopped` are the manager's fields; a set is named by its position in `sets`,
   * all sets ever created. `catching` holds failed starts whose handler has still to run; `stopping` the sets
   * that a `stopTenant` call has taken over, and whether it has called `stop()`; `calls` those calls.
   */
  datatype Manager = Manager(
    stopped: bool,
    sync: Sync,
    running: map<TenantId, nat>,
    sets: seq<WorkerSet>,
    catching: set<nat>,
    stopping: map<nat, bool>,
    calls: multiset<nat>
  )

  const NEW: Manager := Manager(false, Idle, map[], [], {}, map[], multiset{})

  datatype Step =
    | Ensure(tenant: TenantId)
    | StartSettles(id: nat, ok: bool)
    | Catch(id: nat)
    | StopTenant(tenant: TenantId)
    | StartAwaited(id: nat)
    | StopSettles(id: nat)
    | SyncStarts
    | SyncLists(active: Option<set<TenantId>>)
    | SyncPrunes
    | StopAll

  function Ensured(m: Manager, tenant: TenantId): Manager {
    if m.stopped || tenant in m.running then m
    else m.(running := m.running[tenant := |m.sets|], sets := m.sets + [WorkerSet(tenant, Starting)])
  }

  /** `stopTenant` up to its first await: out of the registry, into the hands of this call. */
  function Taken(m: Manager, tenant: TenantId): Manager {
    if tenant !in m.running then m
    else m.(running := m.running - {tenant}, stopping := m.stopping[m.running[tenant] := false])
  }

  function Staying(running: map<TenantId, nat>, stay: set<TenantId>): map<TenantId, nat> {
    map t | t in running && t in stay :: running[t]
  }

  function Leaving(running: map<TenantId, nat>, stay: set<TenantId>): map<nat, bool> {
    map t | t in running && t !in stay :: running[t] := false
  }

  /** The same for every tenant that is not to stay. */
  function TakenAll(m: Manager, stay: set<TenantId>): Manager {
    m.(running := Staying(m.running, stay), stopping := m.stopping + Leaving(m.running, stay))
  }

  /** One uninterrupted piece of code; one that nothing waits for changes nothing. */
  function Next(m: Manager, step: Step): Manager {
    match step
    case Ensure(tenant) => Ensured(m, tenant)
    case StartSettles(id, ok) =>
      if id >= |m.sets| || m.sets[id].start != Starting then m
      else
        m.(sets := m.sets[id := m.sets[id].(start := if ok then Started else Failed)],
           catching := if ok then m.catching else m.catching + {id})
    case Catch(id) =>
      if id !in m.catching || id >= |m.sets| then m
      else
        var tenant := m.sets[id].tenant;
        m.(catching := m.catching - {id},
           running := if tenant in m.running && m.running[tenant] == id then m.running - {tenant} else m.running)
    case StopTenant(tenant) => Taken(m, tenant)
    case StartAwaited(id) =>
      if id >= |m.sets| || id !in m.stopping || m.stopping[id] || m.sets[id].start == Starting then m
      else if m.sets[id].start == Failed then m.(stopping := m.stopping - {id})
      else m.(stopping := m.stopping[id := true], calls := m.calls + multiset{id})
    case StopSettles(id) => if id in m.stopping && m.stopping[id] then m.(stopping := m.stopping - {id}) else m
    case SyncStarts => if m.sync.Idle? && !m.stopped then m.(sync := Listing) else m
    case SyncLists(active) =>
      if !m.sync.Listing? then m
      else if active.None? then m.(sync := Idle)
      else m.(sync := Ensuring(active.value))
    case SyncPrunes => if m.sync.Ensuring? then TakenAll(m, m.sync.active).(sync := Idle) else m
    case StopAll => TakenAll(m, {}).(stopped := true)
  }

  function Run(m: Manager, steps: seq<Step>): Manager {
    if steps == [] then m else Next(Run(m, steps[..|steps| - 1]), steps[|steps| - 1])
  }

  // ─── Where a set can be ────────────────────────────────────────────────────

  ghost predicate Registered(m: Manager, id: nat) {
    id < |m.sets| && m.sets[id].tenant in m.running && m.running[m.sets[id].tenant] == id
  }

  ghost predicate BeingStopped(m: Manager, id: nat) { id in m.stopping }

  ghost predicate StoppedOnce(m: Manager, id: nat) { id !in m.stopping && m.calls[id] == 1 }

  ghost predicate FailedToStart(m: Manager, id: nat) {
    id < |m.sets| && m.sets[id].start == Failed && !Registered(m, id) && !BeingStopped(m, id) && m.calls[id] == 0
  }

  function One(b: bool): nat { if b then 1 else 0 }

  ghost predicate InOnePlace(m: Manager, id: nat) {
    One(Registered(m, id)) + One(BeingStopped(m, id)) + One(StoppedOnce(m, id)) + One(FailedToStart(m, id)) == 1
  }

  ghost predicate SetOK(m: Manager, id: nat)
    requires id < |m.sets|
  {
    && !(Registered(m, id) && BeingStopped(m, id))
    && m.calls[id] == One((id in m.stopping && m.stopping[id]) || StoppedOnce(m, id))
    && (m.calls[id] > 0 ==> m.sets[id].start == Started && !Registered(m, id))
    && (m.sets[id].start == Starting ==> Registered(m, id) || BeingStopped(m, id))
    && (m.sets[id].start == Started ==> Registered(m, id) || BeingStopped(m, id) || StoppedOnce(m, id))
    && (m.sets[id].start == Failed && Registered(m, id) ==> id in m.catching)
  }

  ghost predicate Sound(m: Manager) {
    && (forall t :: t in m.running ==> m.running[t] < |m.sets| && m.sets[m.running[t]].tenant == t)
    && (forall id :: id in m.stopping ==> id < |m.sets|)
    && (forall id :: id in m.catching ==> id < |m.sets| && m.sets[id].start == Failed)
    && (forall id :: id in m.calls ==> id < |m.sets|)
    && (forall id :: 0 <= id < |m.sets| ==> SetOK(m, id))
    && (m.stopped ==> m.running == map[])
  }

  lemma EnsureKeepsSound(m: Manager, tenant: TenantId)
    requires Sound(m)
    ensures Sound(Ensured(m, tenant))
  {
    var m' := Ensured(m, tenant);
    forall id | 0 <= id < |m'.sets| ensures SetOK(m', id) {
      if id < |m.sets| {
        assert SetOK(m, id) && m'.sets[id] == m.sets[id];
        assert Registered(m', id) <==> Registered(m, id);
      }
    }
  }

  lemma TakenAllKeepsSound(m: Manager, stay: set<TenantId>)
    requires Sound(m)
    ensures Sound(TakenAll(m, stay))
  {
    var m' := TakenAll(m, stay);
    forall id | 0 <= id < |m'.sets| ensures SetOK(m', id) {
      assert SetOK(m, id);
    }
  }

  lemma SettleKeepsSound(m: Manager, id: nat, ok: bool)
    requires Sound(m) && id < |m.sets| && m.sets[id].start == Starting
    ensures Sound(Next(m, StartSettles(id, ok)))
  {
    var m' := Next(m, StartSettles(id, ok));
    forall i | 0 <= i < |m'.sets| ensures SetOK(m', i) {
      assert SetOK(m, i) && m'.sets[i].tenant == m.sets[i].tenant;
    }
  }

  lemma CatchKeepsSound(m: Manager, id: nat)
    requires Sound(m) && id in m.catching
    ensures Sound(Next(m, Catch(id)))
  {
    var m' := Next(m, Catch(id));
    forall i | 0 <= i < |m'.sets| ensures SetOK(m', i) {
      assert SetOK(m, i);
    }
  }

  lemma TakenKeepsSound(m: Manager, tenant: TenantId)
    requires Sound(m)
    ensures Sound(Taken(m, tenant))
  {
    var m' := Taken(m, tenant);
    forall i | 0 <= i < |m'.sets| ensures SetOK(m', i) {
      assert SetOK(m, i);
    }
  }

  lemma StopKeepsSound(m: Manager, id: nat, step: Step)
    requires Sound(m) && (step == StartAwaited(id) || step == StopSettles(id))
    ensures Sound(Next(m, step))
  {
    var m' := Next(m, step);
    forall i | 0 <= i < |m'.sets| ensures SetOK(m', i) {
      assert SetOK(m, i);
      assert Registered(m', i) <==> Registered(m, i);
    }
  }

  lemma StepKeepsSound(m: Manager, step: Step)
    requires Sound(m)
    ensures Sound(Next(m, step))
  {
    match step
    case Ensure(tenant) => EnsureKeepsSound(m, tenant);
    case StartSettles(id, ok) => if Next(m, step) != m { SettleKeepsSound(m, id, ok); }
    case Catch(id) => if id in m.catching { CatchKeepsSound(m, id); }
    case StopTenant(tenant) => TakenKeepsSound(m, tenant);
    case StartAwaited(id) => StopKeepsSound(m, id, step);
    case StopSettles(id) => StopKeepsSound(m, id, step);
    case SyncPrunes => if m.sync.Ensuring? { PruneKeepsSound(m); }
    case StopAll => StopAllKeepsSound(m);
    case SyncStarts => SyncKeepsSound(m, step);
    case SyncLists(_) => SyncKeepsSound(m, step);
  }

  lemma PruneKeepsSound(m: Manager)
    requires Sound(m) && m.sync.Ensuring?
    ensures Sound(Next(m, SyncPrunes))
  {
    TakenAllKeepsSound(m, m.sync.active);
    SameSets(TakenAll(m, m.sync.active), Idle);
  }

  lemma StopAllKeepsSound(m: Manager)
    requires Sound(m)
    ensures Sound(Next(m, StopAll))
  {
    TakenAllKeepsSound(m, {});
    HaltKeepsSound(TakenAll(m, {}));
  }

  lemma HaltKeepsSound(m: Manager)
    requires Sound(m) && m.running == map[]
    ensures Sound(m.(stopped := true))
  {
    var m' := m.(stopped := true);
    forall i | 0 <= i < |m'.sets| ensures SetOK(m', i) {
      assert SetOK(m, i);
    }
  }

  lemma SyncKeepsSound(m: Manager, step: Step)
    requires Sound(m) && (step.SyncStarts? || step.SyncLists?)
    ensures Sound(Next(m, step))
  {
    SameSets(m, Next(m, step).sync);
  }

  lemma SameSets(m: Manager, sync: Sync)
    requires Sound(m)
    ensures Sound(m.(sync := sync))
  {
    var m' := m.(sync := sync);
    forall i | 0 <= i < |m'.sets| ensures SetOK(m', i) {
      assert SetOK(m, i);
    }
  }

  lemma {:induction false} RunKeepsSound(steps: seq<Step>)
    ensures Sound(Run(NEW, steps))
  {
    if steps == [] {
    } else {
      RunKeepsSound(steps[..|steps| - 1]);
      StepKeepsSound(Run(NEW, steps[..|steps| - 1]), steps[|steps| - 1]);
    }
  }

  // ─── Results ───────────────────────────────────────────────────────────────

  /**
   * Whatever interleaves: every set ever created is in exactly one place. It is in the registry, or one stop call
   * has it, or it was stopped, once, or it failed to start and nobody has it. No set is lost while it runs.
   */
  lemma EverySetInOnePlace(steps: seq<Step>, id: nat)
    requires id < |Run(NEW, steps).sets|
    ensures var m := Run(NEW, steps);
            && InOnePlace(m, id)
            && m.calls[id] <= 1
            && (m.calls[id] == 1 ==> m.sets[id].start == Started)
  {
    RunKeepsSound(steps);
    assert SetOK(Run(NEW, steps), id);
  }

  /** A failed start takes only itself out of the registry, never a set that was started since. */
  lemma FailureSparesTheNewer(steps: seq<Step>, id: nat)
    ensures var m, m' := Run(NEW, steps), Next(Run(NEW, steps), Catch(id));
            && (forall t :: t in m.running && m.running[t] != id ==> t in m'.running && m'.running[t] == m.running[t])
            && !(id in m.catching && Registered(m', id))
  {
    RunKeepsSound(steps);
  }

  lemma StoppedStays(m: Manager, step: Step)
    requires Sound(m) && m.stopped
    ensures Next(m, step).stopped && Next(m, step).running == map[]
  {
  }

  /** From the moment `stop` begins the registry is empty for ever: a sync or a request under way starts nothing. */
  lemma {:induction false} NothingRunsAfterStop(steps: seq<Step>, k: nat, m: nat)
    requires k < m <= |steps| && steps[k] == StopAll
    ensures Run(NEW, steps[..m]).stopped && Run(NEW, steps[..m]).running == map[]
    ensures |Run(NEW, steps[..m]).sets| == |Run(NEW, steps[..k]).sets|
    decreases m
  {
    assert steps[..m][..m - 1] == steps[..m - 1];
    RunKeepsSound(steps[..m - 1]);
    if k < m - 1 {
      NothingRunsAfterStop(steps, k, m - 1);
      StoppedStays(Run(NEW, steps[..m - 1]), steps[m - 1]);
    }
  }

  /** Once a tenant's start is settled and caught, a tenant in the registry has workers that run. */
  lemma RegistryHoldsLiveSets(steps: seq<Step>, t: TenantId)
    requires t in Run(NEW, steps).running && Run(NEW, steps).catching == {}
    ensures var m := Run(NEW, steps); m.running[t] < |m.sets| && m.sets[m.running[t]].start != Failed
  {
    RunKeepsSound(steps);
    var m := Run(NEW, steps);
    assert SetOK(m, m.running[t]);
  }

  // ─── What a sync and a stop call come to ───────────────────────────────────

  /**
   * The end of a sync leaves each registered tenant that is active with the same workers, and hands every other
   * registered set, and no set besides, to a stop call that has yet to stop it.
   */
  lemma PruneLeaves(m: Manager)
    requires Sound(m) && m.sync.Ensuring?
    ensures var m', active := Next(m, SyncPrunes), m.sync.active;
            && m' == m.(sync := Idle, running := m'.running, stopping := m'.stopping)
            && (forall t :: t in m'.running <==> t in m.running && t in active)
            && (forall t :: t in m'.running ==> m'.running[t] == m.running[t])
            && (forall id :: id in m.stopping ==> id in m'.stopping && m'.stopping[id] == m.stopping[id])
            && (forall id :: id in m'.stopping && id !in m.stopping ==> !m'.stopping[id] && Registered(m, id) && m.sets[id].tenant !in active)
            && (forall t :: t in m.running && t !in active ==> m.running[t] in m'.stopping && !m'.stopping[m.running[t]])
  {
    var leaving := Leaving(m.running, m.sync.active);
    forall id | id in leaving ensures id !in m.stopping && Registered(m, id) && m.sets[id].tenant !in m.sync.active {
      var t :| t in m.running && t !in m.sync.active && m.running[t] == id;
      assert SetOK(m, id);
    }
    forall t | t in m.running && t !in m.sync.active ensures m.running[t] in leaving {}
  }

  lemma LeavingKeys(m: Manager, stay: set<TenantId>)
    ensures TakenAll(m, stay).stopping.Keys == m.stopping.Keys + (set t | t in m.running && t !in stay :: m.running[t])
    ensures stay == {} ==> TakenAll(m, stay).running == map[] && TakenAll(m, stay).stopping.Keys == m.stopping.Keys + m.running.Values
  {
    assert Leaving(m.running, stay).Keys == set t | t in m.running && t !in stay :: m.running[t];
    if stay == {} { assert Leaving(m.running, stay).Keys == m.running.Values; }
  }

  function EnsureEach(tenants: seq<TenantId>): seq<Step> {
    if tenants == [] then [] else EnsureEach(tenants[..|tenants| - 1]) + [Ensure(tenants[|tenants| - 1])]
  }

  lemma RunPush(m: Manager, steps: seq<Step>, step: Step)
    ensures Run(m, steps + [step]) == Next(Run(m, steps), step)
  {
    assert (steps + [step])[..|steps|] == steps;
  }

  /** Every tenant of the list is registered, and those that were have the workers they had. */
  lemma {:induction false} EnsuresEach(m: Manager, before: seq<Step>, tenants: seq<TenantId>)
    requires !Run(m, before).stopped
    ensures var m1, m2 := Run(m, before), Run(m, before + EnsureEach(tenants));
            && m2.sync == m1.sync && !m2.stopped
            && m2.running.Keys == m1.running.Keys + Elements(tenants)
            && (forall t :: t in m1.running ==> m2.running[t] == m1.running[t])
  {
    if tenants == [] {
      assert before + [] == before;
    } else {
      var init, last := tenants[..|tenants| - 1], tenants[|tenants| - 1];
      EnsuresEach(m, before, init);
      assert Elements(tenants) == Elements(init) + {last};
      assert before + EnsureEach(tenants) == (before + EnsureEach(init)) + [Ensure(last)];
      RunPush(m, before + EnsureEach(init), Ensure(last));
    }
  }

  /** A sync that nothing comes between leaves exactly the active tenants with workers, the ones they had if they had some. */
  lemma SyncReconciles(m: Manager, tenants: seq<TenantId>)
    requires m.sync.Idle? && !m.stopped
    ensures var m' := Run(m, [SyncStarts, SyncLists(Some(Elements(tenants)))] + EnsureEach(tenants) + [SyncPrunes]);
            && m'.sync.Idle? && m'.running.Keys == Elements(tenants)
            && (forall t :: t in m.running && t in m'.running ==> m'.running[t] == m.running[t])
  {
    var before := [SyncStarts, SyncLists(Some(Elements(tenants)))];
    assert before == [] + [SyncStarts] + [SyncLists(Some(Elements(tenants)))];
    RunPush(m, [], SyncStarts);
    RunPush(m, [] + [SyncStarts], SyncLists(Some(Elements(tenants))));
    EnsuresEach(m, before, tenants);
    RunPush(m, before + EnsureEach(tenants), SyncPrunes);
  }

  /** A stop call stops its set once, when it has started; of one that failed to start there is nothing to stop. */
  lemma StopCallStops(m: Manager, id: nat)
    requires Sound(m) && id in m.stopping && !m.stopping[id]
    ensures var m' := Next(m, StartAwaited(id));
            match m.sets[id].start
            case Starting => m' == m
            case Failed => FailedToStart(m', id)
            case Started => BeingStopped(m', id) && m'.calls[id] == 1 && StoppedOnce(Next(m', StopSettles(id)), id)
  {
    assert SetOK(m, id);
  }

  /** A start that succeeds leaves the set where it is; one that fails is still there until its handler has run, and then not. */
  lemma StartSettlesOnce(m: Manager, id: nat, ok: bool)
    requires Sound(m) && id < |m.sets| && m.sets[id].start == Starting
    ensures var m' := Next(m, StartSettles(id, ok));
            && m'.sets[id] == WorkerSet(m.sets[id].tenant, if ok then Started else Failed)
            && m'.running == m.running && m'.stopping == m.stopping
            && (id in m'.catching <==> !ok)
            && (!ok ==> !Registered(Next(m', Catch(id)), id))
  {
    assert id !in m.catching;
  }

  // ─── The object ────────────────────────────────────────────────────────────

  /** The manager, with the promises it made kept as ghost state so that its steps can be compared with `Next`. */
  class TenantWorkerManager {
    var running: map<TenantId, nat>
    var stopped: bool
    var sync: Sync
    ghost var sets: seq<WorkerSet>
    ghost var catching: set<nat>
    ghost var stopping: map<nat, bool>
    ghost var calls: multiset<nat>
    /** How many sets have been created. */
    var created: nat

    ghost function State(): Manager
      reads this
    {
      Manager(stopped, sync, running, sets, catching, stopping, calls)
    }

    ghost predicate Valid()
      reads this
    {
      Sound(State()) && created == |sets|
    }

    constructor ()
      ensures Valid() && State() == NEW
    {
      running, stopped, sync, created := map[], false, Idle, 0;
      sets, catching, stopping, calls := [], {}, map[], multiset{};
    }

    /** Rejected once stopped; otherwise the set to wait for, created now unless it is there already. */
    method EnsureRunning(tenant: TenantId) returns (waitFor: Option<nat>)
      requires Valid()
      modifies this
      ensures Valid() && State() == Next(old(State()), Ensure(tenant))
      ensures waitFor == if stopped then None else Some(running[tenant])
    {
      EnsureKeepsSound(State(), tenant);
      if stopped { return None; }
      if tenant !in running {
        running := running[tenant := created];
        sets := sets + [WorkerSet(tenant, Starting)];
        created := created + 1;
      }
      waitFor := Some(running[tenant]);
    }

    /** The handler of a failed start. */
    method OnFailedStart(id: nat, tenant: TenantId)
      requires Valid() && id in catching && sets[id].tenant == tenant
      modifies this
      ensures Valid() && State() == Next(old(State()), Catch(id))
    {
      CatchKeepsSound(State(), id);
      catching := catching - {id};
      if tenant in running && running[tenant] == id { running := running - {tenant}; }
    }

    /** `stopTenant` up to its first await: the set this call now has to stop, if any. */
    method TakeOver(tenant: TenantId) returns (id: Option<nat>)
      modifies this`running, this`stopping
      ensures State() == Next(old(State()), StopTenant(tenant))
      ensures id == if tenant in old(running) then Some(old(running)[tenant]) else None
      ensures running == old(running) - {tenant}
      ensures stopping == if tenant in old(running) then old(stopping)[old(running)[tenant] := false] else old(stopping)
    {
      if tenant !in running { return None; }
      id := Some(running[tenant]);
      running := running - {tenant};
      stopping := stopping[id.value := false];
    }

    /** The loop of `stop` and of the end of a sync: every tenant that is not to stay is taken over, one by one. */
    method TakeOverAll(stay: set<TenantId>)
      modifies this`running, this`stopping
      ensures State() == TakenAll(old(State()), stay)
    {
      ghost var before := State();
      var todo := Enumerate(running.Keys - stay);
      TakeEachIs(before, todo, stay);
      for i := 0 to |todo|
        invariant State() == TakeEach(before, todo[..i])
      {
        TakeEachNext(before, todo, i);
        var _ := TakeOver(todo[i]);
      }
      assert todo[..|todo|] == todo;
    }

    method Stop()
      requires Valid()
      modifies this
      ensures Valid() && State() == Next(old(State()), StopAll)
      ensures stopped && running == map[] && stopping.Keys == old(stopping.Keys) + old(running).Values
    {
      LeavingKeys(State(), {});
      TakenAllKeepsSound(State(), {});
      TakeOverAll({});
      HaltKeepsSound(State());
      stopped := true;
    }

    /** A sync begins, unless another is under way. */
    method StartSync() returns (going: bool)
      requires Valid()
      modifies this`sync
      ensures Valid() && State() == Next(old(State()), SyncStarts)
      ensures going <==> old(sync.Idle?) && !stopped
      ensures sync == if going then Listing else old(sync)
    {
      SyncKeepsSound(State(), SyncStarts);
      going := sync.Idle? && !stopped;
      if going { sync := Listing; }
    }

    /** The registry has been read, or could not be. */
    method Listed(active: Option<set<TenantId>>)
      requires Valid() && sync.Listing?
      modifies this`sync
      ensures Valid() && State() == Next(old(State()), SyncLists(active))
      ensures sync == if active.Some? then Ensuring(active.value) else Idle
    {
      SyncKeepsSound(State(), SyncLists(active));
      sync := if active.Some? then Ensuring(active.value) else Idle;
    }

    method Prune()
      requires Valid() && sync.Ensuring?
      modifies this
      ensures Valid() && State() == Next(old(State()), SyncPrunes)
      ensures running == map t | t in old(running) && t in old(sync.active) :: old(running)[t]
      ensures stopping.Keys == old(stopping.Keys) + (set t | t in old(running) && t !in old(sync.active) :: old(running)[t])
    {
      LeavingKeys(State(), sync.active);
      TakenAllKeepsSound(State(), sync.active);
      TakeOverAll(sync.active);
      SameSets(State(), Idle);
      sync := Idle;
    }
  }

  /** The tenants of a list taken over in turn. */
  function TakeEach(m: Manager, todo: seq<TenantId>): Manager {
    if todo == [] then m else Taken(TakeEach(m, todo[..|todo| - 1]), todo[|todo| - 1])
  }

  lemma TakeEachNext(m: Manager, todo: seq<TenantId>, i: nat)
    requires i < |todo|
    ensures TakeEach(m, todo[..i + 1]) == Next(TakeEach(m, todo[..i]), StopTenant(todo[i]))
  {
    assert todo[..i + 1][..i] == todo[..i];
  }

  /** What the loop has done when it has come this far. */
  lemma {:induction false} TakeEachLeaves(m: Manager, todo: seq<TenantId>)
    requires Distinct(todo) && Elements(todo) <= m.running.Keys
    ensures TakeEach(m, todo) == TakenAll(m, m.running.Keys - Elements(todo))
  {
    if todo == [] {
      NothingToTake(m, m.running.Keys);
    } else {
      var init, last := todo[..|todo| - 1], todo[|todo| - 1];
      assert last in Elements(todo) && last !in init;
      assert Elements(todo) == Elements(init) + {last};
      TakeEachLeaves(m, init);
      TakenLast(m, last, m.running.Keys - Elements(init));
      assert m.running.Keys - Elements(todo) == m.running.Keys - Elements(init) - {last};
    }
  }

  lemma TakenLast(m: Manager, t: TenantId, stay: set<TenantId>)
    requires t in m.running && t in stay
    ensures Taken(TakenAll(m, stay), t) == TakenAll(m, stay - {t})
  {
    assert Staying(m.running, stay - {t}) == Staying(m.running, stay) - {t};
    LeavingOneMore(m.running, t, stay);
    assert m.stopping + Leaving(m.running, stay - {t}) == (m.stopping + Leaving(m.running, stay))[m.running[t] := false];
  }

  lemma LeavingOneMore(running: map<TenantId, nat>, t: TenantId, stay: set<TenantId>)
    requires t in running && t in stay
    ensures Leaving(running, stay - {t}) == Leaving(running, stay)[running[t] := false]
  {
    var more, all := Leaving(running, stay - {t}), Leaving(running, stay)[running[t] := false];
    forall id | id in more ensures id in all {
      var u :| u in running && u !in stay - {t} && running[u] == id;
    }
    forall id | id in all ensures id in more {
      var u :| u in running && (u == t || u !in stay) && running[u] == id;
      assert u !in stay - {t};
    }
  }

  lemma TakeEachIs(m: Manager, todo: seq<TenantId>, stay: set<TenantId>)
    requires Distinct(todo) && Elements(todo) == m.running.Keys - stay
    ensures TakeEach(m, todo) == TakenAll(m, stay)
  {
    TakeEachLeaves(m, todo);
    SameTaken(m, m.running.Keys - Elements(todo), stay);
  }

  /** Only the registered tenants among those to stay matter. */
  lemma SameTaken(m: Manager, some: set<TenantId>, stay: set<TenantId>)
    requires forall t :: t in m.running ==> (t in some <==> t in stay)
    ensures TakenAll(m, some) == TakenAll(m, stay)
  {
    assert Staying(m.running, some) == Staying(m.running, stay);
    var a, b := Leaving(m.running, some), Leaving(m.running, stay);
    forall id ensures id in a <==> id in b {
      if id in a { var u :| u in m.running && u !in some && m.running[u] == id; assert u !in stay; }
      if id in b { var u :| u in m.running && u !in stay && m.running[u] == id; assert u !in some; }
    }
    assert a == b;
  }

  lemma NothingToTake(m: Manager, stay: set<TenantId>)
    requires m.running.Keys - stay == {}
    ensures TakenAll(m, stay) == m
  {
    assert m.running.Keys <= (m.running.Keys - stay) + stay;
    assert Staying(m.running, stay) == m.running;
    assert Leaving(m.running, stay) == map[];
    assert m.stopping + map[] == m.stopping;
  }
}
