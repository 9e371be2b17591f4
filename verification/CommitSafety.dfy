/** Why the commit protocol is safe: what every step keeps, and what follows for whole runs. */
module CommitSafety {
  import opened Prelude
  import opened EngineModel
  import opened StateStore
  import opened StoreOps
  import opened Persistence
  import opened RoundTrip
  import opened CommitProtocol

  // ─── Reads survive whatever others do ──────────────────────────────────────

  /** Every instance is still there, and reads the same unless its version has grown. */
  ghost predicate Later(t: Tables, t': Tables) {
    forall i :: i in t.instances ==> LaterAt(t, t', i)
  }

  ghost predicate LaterAt(t: Tables, t': Tables, i: Id)
    requires i in t.instances
  {
    && i in t'.instances
    && t.instances[i].version <= t'.instances[i].version
    && (t.instances[i].version == t'.instances[i].version ==> SliceOf(t', i) == SliceOf(t, i))
  }

  lemma ActorSurvives(engine: Engine, t: Tables, t': Tables, actor: Actor)
    requires Later(t, t') && ActorOK(engine, t, actor)
    ensures ActorOK(engine, t', actor)
  {
    match actor.at
    case Reading(instance, tokens, joins, asked, scopes) =>
      assert LaterAt(t, t', actor.instanceId);
      if AtVersion(t', instance) {
        assert SliceOf(t', actor.instanceId) == SliceOf(t, actor.instanceId);
        if asked != {} {
          SubsetOfRefs(t, t', actor.instanceId, asked);
        } else {
          assert ScopesIn(t', asked) == ScopesIn(t, asked);
        }
      }
    case Loaded(state) => StateSurvives(t, t', actor.instanceId, state);
    case Computed(state, draw, next, history) => StateSurvives(t, t', actor.instanceId, state);
    case _ =>
  }

  lemma StateSurvives(t: Tables, t': Tables, i: Id, state: EngineState)
    requires Later(t, t') && StateOK(t, i, state)
    ensures StateOK(t', i, state)
  {
    assert LaterAt(t, t', i);
  }

  lemma SubsetOfRefs(t: Tables, t': Tables, i: Id, asked: set<Id>)
    requires i in t.instances && i in t'.instances && SliceOf(t', i) == SliceOf(t, i)
    requires asked <= ScopeRefs(t.instances[i].instance, TokensOf(t, i))
    ensures ScopesIn(t', asked) == ScopesIn(t, asked)
  {
    var refs := ScopeRefs(t.instances[i].instance, TokensOf(t, i));
    assert ScopesIn(t', refs) == ScopesIn(t, refs);
    forall id | id in asked ensures id in t'.scopes <==> id in t.scopes {
      assert id in ScopesIn(t', refs) <==> id in ScopesIn(t, refs);
    }
    forall id | id in asked && id in t.scopes ensures t'.scopes[id] == t.scopes[id] {
      assert ScopesIn(t', refs)[id] == ScopesIn(t, refs)[id];
    }
  }

  // ─── A commit ──────────────────────────────────────────────────────────────

  /** The engine's contract and fresh ids are what the round trip asks for. */
  lemma ContractRecovers(t: Tables, prev: EngineState, next: EngineState)
    requires Coherent(prev) && Extends(prev, next) && IdsApart(t, Meaning(next))
    requires SliceOf(t, prev.instance.id) == Some(Meaning(prev))
    ensures Recoverable(t, Meaning(prev), Meaning(next))
  {
    var p, n := Meaning(prev), Meaning(next);
    forall id | id in ScopeRefs(n.instance, n.tokens) && id in t.scopes ensures id in n.scopes {
      if id in ScopeRefs(p.instance, p.tokens) {
        assert id in p.scopes;
      }
    }
  }

  /** A successful commit was computed from exactly the stored state, however the reads were interleaved. */
  lemma CommitMeansCurrent(t: Tables, form: Form, prev: EngineState, next: EngineState, history: seq<HistoryEntry>, i: Id)
    requires StateOK(t, i, prev) && SameInstance(prev, next)
    requires AtVersion(t, prev.instance) ==> Coherent(next)
    ensures RunOps(t, OpsOf(form, prev, next, history)).Committed? <==> AtVersion(t, prev.instance)
    ensures RunOps(t, OpsOf(form, prev, next, history)).Committed? ==> SliceOf(t, i) == Some(Meaning(prev))
    ensures !AtVersion(t, prev.instance) ==> RunOps(t, OpsOf(form, prev, next, history)) == ConcurrentModification(i)
  {
    if AtVersion(t, prev.instance) {
      match form
      case Routes => FullCycle(t, prev, next, history);
      case Background => BackgroundCycle(t, prev, next, history);
    } else {
      StaleRefused(t, form, prev, next, history);
    }
  }

  /** The update comes first, so a stale version refuses whatever follows. */
  lemma StaleRefused(t: Tables, form: Form, prev: EngineState, next: EngineState, history: seq<HistoryEntry>)
    requires !VersionHolds(t, next.instance)
    ensures RunOps(t, OpsOf(form, prev, next, history)) == ConcurrentModification(next.instance.id)
  {
    var first := UpdateInstance(next.instance);
    UpdateApplies(t, next.instance);
    RefusedFirst(t, first, OpsOf(form, prev, next, history));
  }

  /** A state that is still the stored one is of the engine's making, so a run on it was a proper run. */
  lemma CurrentIsSound(engine: Engine, s: System, actor: Actor)
    requires InstancesOK(engine, s) && s.started.Keys == s.tables.instances.Keys && actor.at.Computed? && ActorOK(engine, s.tables, actor)
    requires AtVersion(s.tables, actor.at.state.instance)
    ensures ProperRun(engine, actor.command, actor.at.draw, actor.at.state)
  {
    assert InstanceOK(engine, s, actor.instanceId);
  }

  /** The setting of a committed cycle. */
  ghost predicate Good(t: Tables, c: Cycle, history: seq<HistoryEntry>) {
    && Coherent(c.prev) && Extends(c.prev, c.next) && IdsApart(t, Meaning(c.next))
    && SliceOf(t, c.prev.instance.id) == Some(Meaning(c.prev))
    && RunOps(t, OpsOf(c.form, c.prev, c.next, history)).Committed?
  }

  function CommittedTables(t: Tables, c: Cycle, history: seq<HistoryEntry>): Tables
    requires RunOps(t, OpsOf(c.form, c.prev, c.next, history)).Committed?
  {
    RunOps(t, OpsOf(c.form, c.prev, c.next, history)).tables
  }

  lemma CommitWrites(t: Tables, c: Cycle, history: seq<HistoryEntry>)
    requires Good(t, c, history)
    ensures var t', p, n := CommittedTables(t, c, history), Meaning(c.prev), Meaning(c.next);
            && t'.instances == Updated(t, c.next.instance)
            && WroteCore(t, t', p, n, history)
            && (t'.compensations == CompensationsAfter(t.compensations, p.compensations, n.compensations)
                || t'.compensations == t.compensations)
  {
    match c.form
    case Routes => FullCycle(t, c.prev, c.next, history);
    case Background => BackgroundCycle(t, c.prev, c.next, history);
  }

  /** What a committed cycle leaves for its own instance. */
  lemma CommitOwn(t: Tables, c: Cycle, history: seq<HistoryEntry>)
    requires Good(t, c, history)
    ensures SliceOf(CommittedTables(t, c, history), c.prev.instance.id) == Some(StateAfter(c))
  {
    ContractRecovers(t, c.prev, c.next);
    match c.form
    case Routes => FullRoundTrip(t, c.prev, c.next, history);
    case Background => BackgroundRoundTrip(t, c.prev, c.next, history);
  }

  lemma CommitApart(t: Tables, c: Cycle, history: seq<HistoryEntry>, j: Id)
    requires Good(t, c, history) && j in t.instances && j != c.prev.instance.id
    ensures Apart(t, j, Meaning(c.next)) && c.next.instance.id == c.prev.instance.id
  {
  }

  /** What it does to the instances' rows. */
  lemma CommitRows(t: Tables, c: Cycle, history: seq<HistoryEntry>)
    requires Good(t, c, history)
    ensures CommittedTables(t, c, history).instances == Updated(t, c.next.instance)
    ensures c.next.instance.id == c.prev.instance.id && c.prev.instance.id in t.instances
  {
    CommitWrites(t, c, history);
  }

  /** And for any other. */
  lemma CommitOther(t: Tables, c: Cycle, history: seq<HistoryEntry>, j: Id)
    requires Good(t, c, history) && j in t.instances && j != c.prev.instance.id
    ensures SliceOf(CommittedTables(t, c, history), j) == SliceOf(t, j)
  {
    CommitWrites(t, c, history);
    CommitApart(t, c, history, j);
    WrittenElsewhere(t, CommittedTables(t, c, history), c, history, j);
  }

  lemma WrittenElsewhere(t: Tables, t': Tables, c: Cycle, history: seq<HistoryEntry>, j: Id)
    requires Coherent(c.prev) && Coherent(c.next) && c.next.instance.id == c.prev.instance.id
    requires j in t.instances && j != c.prev.instance.id && Apart(t, j, Meaning(c.next))
    requires t'.instances == Updated(t, c.next.instance) && WroteCore(t, t', Meaning(c.prev), Meaning(c.next), history)
    requires t'.compensations == CompensationsAfter(t.compensations, Meaning(c.prev).compensations, Meaning(c.next).compensations)
             || t'.compensations == t.compensations
    ensures SliceOf(t', j) == SliceOf(t, j)
  {
    CoherentOwned(c.prev);
    CoherentOwned(c.next);
    OthersUntouched(t, t', Meaning(c.prev), Meaning(c.next), history, j);
  }

  lemma CommitVersions(t: Tables, c: Cycle, history: seq<HistoryEntry>)
    requires Good(t, c, history)
    ensures var t', i := CommittedTables(t, c, history), c.prev.instance.id;
            && t'.instances.Keys == t.instances.Keys
            && t'.instances[i].version == t.instances[i].version + 1
            && forall j :: j in t.instances && j != i ==> t'.instances[j] == t.instances[j]
  {
    CommitRows(t, c, history);
  }

  lemma CommitIsLater(t: Tables, c: Cycle, history: seq<HistoryEntry>)
    requires Good(t, c, history)
    ensures Later(t, CommittedTables(t, c, history))
  {
    CommitVersions(t, c, history);
    forall i | i in t.instances ensures LaterAt(t, CommittedTables(t, c, history), i) {
      if i != c.prev.instance.id { CommitOther(t, c, history, i); }
    }
  }

  lemma CyclesOfNext(log: seq<Cycle>, c: Cycle, i: Id)
    ensures CyclesOf(log + [c], i) == if c.prev.instance.id == i then CyclesOf(log, i) + [c] else CyclesOf(log, i)
  {
    assert (log + [c])[..|log|] == log;
  }

  lemma SerialNext(engine: Engine, start: Slice, cycles: seq<Cycle>, c: Cycle)
    requires Serial(engine, start, cycles)
    requires c.prev.instance.version == Some(|cycles| + 1)
    requires ProperRun(engine, c.command, c.draw, c.prev) && engine.execute(c.command, c.draw, c.prev).next == c.next
    requires Meaning(c.prev) == Latest(start, cycles)
    ensures Serial(engine, start, cycles + [c])
    ensures Latest(start, cycles + [c]) == StateAfter(c)
  {
    var all := cycles + [c];
    forall k | 0 <= k < |all| ensures SerialAt(engine, start, all, k) {
      if k < |cycles| {
        assert SerialAt(engine, start, cycles, k);
        assert all[..k] == cycles[..k] && all[k] == cycles[k];
      } else {
        assert all[..k] == cycles && all[k] == c;
      }
    }
  }

  /** The cycle is a proper run of the engine. */
  ghost predicate RunOf(engine: Engine, c: Cycle, history: seq<HistoryEntry>) {
    ProperRun(engine, c.command, c.draw, c.prev) && engine.execute(c.command, c.draw, c.prev) == Ran(c.next, history)
  }

  lemma RunStaysSound(engine: Engine, c: Cycle, history: seq<HistoryEntry>)
    requires Contract(engine) && RunOf(engine, c, history) && c.prev.instance.version.Some?
    ensures Extends(c.prev, c.next) && engine.sound(StateAfter(c))
  {
    assert ContractAt(engine, c.command, c.draw, c.prev);
    assert StaysSound(engine, c.prev, c.next);
  }

  /** The cycle an actor is about to commit. */
  function CycleBy(s: System, a: nat): Cycle
    requires a in s.actors && s.actors[a].at.Computed?
  {
    var actor := s.actors[a];
    Cycle(a, actor.form, actor.command, actor.at.draw, actor.at.state, actor.at.next)
  }

  lemma CommitKeepsInstance(engine: Engine, s: System, s': System, c: Cycle, history: seq<HistoryEntry>, i: Id)
    requires i in s.started && InstanceOK(engine, s, i)
    requires Contract(engine) && Good(s.tables, c, history) && RunOf(engine, c, history)
    requires s'.tables == CommittedTables(s.tables, c, history)
    requires s'.log == s.log + [c] && s'.started == s.started
    ensures InstanceOK(engine, s', i)
  {
    CyclesOfNext(s.log, c, i);
    CommitVersions(s.tables, c, history);
    if i == c.prev.instance.id {
      CommitOwn(s.tables, c, history);
      SerialNext(engine, s.started[i], CyclesOf(s.log, i), c);
      RunStaysSound(engine, c, history);
    } else {
      CommitOther(s.tables, c, history, i);
    }
  }

  lemma CommitKeepsInstances(engine: Engine, s: System, s': System, c: Cycle, history: seq<HistoryEntry>)
    requires InstancesOK(engine, s)
    requires Contract(engine) && Good(s.tables, c, history) && RunOf(engine, c, history)
    requires s'.tables == CommittedTables(s.tables, c, history)
    requires s'.log == s.log + [c] && s'.started == s.started
    ensures InstancesOK(engine, s')
  {
    forall i | i in s'.started ensures InstanceOK(engine, s', i) {
      assert InstanceOK(engine, s, i);
      CommitKeepsInstance(engine, s, s', c, history, i);
    }
  }

  /** A step that only moves one actor keeps everything else. */
  lemma MoveKeepsInv(engine: Engine, s: System, s': System, a: nat, actor: Actor)
    requires Inv(engine, s)
    requires s'.tables == s.tables && s'.started == s.started && s'.log == s.log
    requires s'.actors == s.actors[a := actor] && ActorOK(engine, s.tables, actor)
    ensures Inv(engine, s')
  {
    forall i | i in s'.started ensures InstanceOK(engine, s', i) {
      assert InstanceOK(engine, s, i);
    }
  }

  /** What an actor computed from a state that is still stored. */
  lemma RunIsProper(engine: Engine, s: System, a: nat)
    requires Contract(engine) && Inv(engine, s) && a in s.actors && s.actors[a].at.Computed?
    requires AtVersion(s.tables, s.actors[a].at.state.instance)
    ensures RunOf(engine, CycleBy(s, a), s.actors[a].at.history)
    ensures Extends(s.actors[a].at.state, s.actors[a].at.next)
  {
    CurrentIsSound(engine, s, s.actors[a]);
    assert ContractAt(engine, s.actors[a].command, s.actors[a].at.draw, s.actors[a].at.state);
  }

  lemma CommitKeepsInv(engine: Engine, s: System, s': System, a: nat)
    requires Contract(engine) && Inv(engine, s) && Commits(s, s', a)
    ensures Inv(engine, s')
  {
    var actor := s.actors[a];
    var at := actor.at;
    assert ActorOK(engine, s.tables, actor) && ContractAt(engine, actor.command, at.draw, at.state);
    if AtVersion(s.tables, at.state.instance) { RunIsProper(engine, s, a); }
    CommitMeansCurrent(s.tables, actor.form, at.state, at.next, at.history, actor.instanceId);
    if RunOps(s.tables, OpsOf(actor.form, at.state, at.next, at.history)).Committed? {
      SuccessKeepsInv(engine, s, s', a);
    } else {
      MoveKeepsInv(engine, s, s', a, s'.actors[a]);
    }
  }

  /** One actor wrote `t'`; the reads of the others stand or are out of date. */
  lemma OthersSurvive(engine: Engine, s: System, s': System, a: nat)
    requires ActorsOK(engine, s) && Later(s.tables, s'.tables)
    requires a in s'.actors && s'.actors == s.actors[a := s'.actors[a]] && ActorOK(engine, s'.tables, s'.actors[a])
    ensures ActorsOK(engine, s')
  {
    forall b | b in s'.actors ensures ActorOK(engine, s'.tables, s'.actors[b]) {
      if b != a { ActorSurvives(engine, s.tables, s'.tables, s.actors[b]); }
    }
  }

  /** `s'` is `s` after actor `a` committed what it had computed. */
  ghost predicate Succeeded(s: System, s': System, a: nat) {
    && a in s.actors && s.actors[a].at.Computed?
    && Good(s.tables, CycleBy(s, a), s.actors[a].at.history)
    && s'.tables == CommittedTables(s.tables, CycleBy(s, a), s.actors[a].at.history)
    && s'.log == s.log + [CycleBy(s, a)] && s'.started == s.started
    && a in s'.actors && s'.actors == s.actors[a := s'.actors[a]] && s'.actors[a].at.Written?
  }

  lemma SuccessKeepsInstances(engine: Engine, s: System, s': System, a: nat)
    requires Succeeded(s, s', a) && InstancesOK(engine, s)
    requires Contract(engine) && RunOf(engine, CycleBy(s, a), s.actors[a].at.history)
    ensures InstancesOK(engine, s')
  {
    CommitKeepsInstances(engine, s, s', CycleBy(s, a), s.actors[a].at.history);
  }

  lemma SuccessKeepsActors(engine: Engine, s: System, s': System, a: nat)
    requires Succeeded(s, s', a) && ActorsOK(engine, s)
    ensures ActorsOK(engine, s')
  {
    CommitIsLater(s.tables, CycleBy(s, a), s.actors[a].at.history);
    OthersSurvive(engine, s, s', a);
  }

  lemma SuccessKeepsTables(s: System, s': System, a: nat)
    requires Succeeded(s, s', a) && RowsKeyed(s.tables)
    ensures RowsKeyed(s'.tables) && s'.tables.instances.Keys == s.tables.instances.Keys
    ensures CycleBy(s, a).prev.instance.id in s.tables.instances
  {
    var c, history := CycleBy(s, a), s.actors[a].at.history;
    RunOpsKeepsRowsKeyed(s.tables, OpsOf(c.form, c.prev, c.next, history));
    CommitVersions(s.tables, c, history);
  }

  lemma SuccessKeepsInv(engine: Engine, s: System, s': System, a: nat)
    requires Inv(engine, s) && Succeeded(s, s', a)
    requires Contract(engine) && RunOf(engine, CycleBy(s, a), s.actors[a].at.history)
    ensures Inv(engine, s')
  {
    SuccessKeepsInstances(engine, s, s', a);
    SuccessKeepsActors(engine, s, s', a);
    SuccessKeepsTables(s, s', a);
  }

  // ─── The other steps ───────────────────────────────────────────────────────

  lemma ScopesOneMore(t: Tables, scopes: seq<Scope>, asked: set<Id>, id: Id)
    requires RowsKeyed(t) && id !in asked && ByKey(scopes, ScopeKey) == ScopesIn(t, asked)
    ensures ByKey(if id in t.scopes then scopes + [t.scopes[id]] else scopes, ScopeKey) == ScopesIn(t, asked + {id})
  {
    if id in t.scopes {
      assert (scopes + [t.scopes[id]])[..|scopes|] == scopes;
      assert ScopesIn(t, asked + {id}) == ScopesIn(t, asked)[id := t.scopes[id]];
    } else {
      assert ScopesIn(t, asked + {id}) == ScopesIn(t, asked);
    }
  }

  /** Whatever an actor does on its own, what it holds stays what the store holds. */
  lemma ActKeepsActor(engine: Engine, t: Tables, actor: Actor, action: Action, result: Progress)
    requires RowsKeyed(t) && ActorOK(engine, t, actor) && Acts(engine, t, actor, action, result)
    ensures ActorOK(engine, t, actor.(at := result))
  {
    match action
    case OneScope(id) =>
      if AtVersion(t, actor.at.instance) { ScopesOneMore(t, actor.at.scopes, actor.at.asked, id); }
    case _ =>
  }

  lemma ActKeepsInv(engine: Engine, s: System, s': System, step: Step)
    requires Inv(engine, s) && Next(engine, s, s', step)
    requires step.Spawn? || step.Act? || step.Publish? || step.Abandon?
    ensures Inv(engine, s')
  {
    var a := step.a;
    if step.Act? {
      ActKeepsActor(engine, s.tables, s.actors[a], step.action, step.result);
    }
    MoveKeepsInv(engine, s, s', a, s'.actors[a]);
  }

  lemma OtherTablesKeepsInv(engine: Engine, s: System, s': System, timers: map<Id, TimerRow>, tasks: map<Id, Task>)
    requires Inv(engine, s) && s' == s.(tables := s.tables.(timers := timers, tasks := tasks))
    ensures Inv(engine, s')
  {
    forall i ensures SliceOf(s'.tables, i) == SliceOf(s.tables, i) {}
    forall a | a in s'.actors ensures ActorOK(engine, s'.tables, s'.actors[a]) {
      ActorSurvives(engine, s.tables, s'.tables, s.actors[a]);
    }
    forall i | i in s'.started ensures InstanceOK(engine, s', i) {
      assert InstanceOK(engine, s, i);
    }
  }

  lemma {:induction false} NoCyclesYet(log: seq<Cycle>, i: Id)
    requires forall c :: c in log ==> c.prev.instance.id != i
    ensures CyclesOf(log, i) == []
  {
    if log != [] { NoCyclesYet(log[..|log| - 1], i); }
  }

  /** What starting a process leaves. */
  lemma StartWrites(t: Tables, next: EngineState, history: seq<HistoryEntry>)
    requires Coherent(next) && next.instance.id !in t.instances && IdsApart(t, Meaning(next))
    requires TokensOf(t, next.instance.id) == map[] && JoinsOf(t, next.instance.id) == map[]
    requires CompensationsOf(t, next.instance.id) == map[]
    requires Recoverable(t, Meaning(Nothing(next.instance)), Meaning(next))
    ensures RunOps(t, FullOps(None, next, history)).Committed?
    ensures var t' := RunOps(t, FullOps(None, next, history)).tables;
            && t'.instances == t.instances[next.instance.id := InstanceRow(WithoutVersion(next.instance), 1)]
            && SliceOf(t', next.instance.id) == Some(Stamped(Meaning(next), 1))
            && Later(t, t')
  {
    StartRoundTrip(t, next, history);
    StartCycle(t, next, history);
    var t' := RunOps(t, FullOps(None, next, history)).tables;
    CoherentOwned(next);
    CoherentOwned(Nothing(next.instance));
    forall j | j in t.instances ensures LaterAt(t, t', j) {
      OthersUntouched(t, t', Meaning(Nothing(next.instance)), Meaning(next), history, j);
    }
  }

  lemma StartKeepsInstances(engine: Engine, s: System, s': System, next: EngineState)
    requires InstancesOK(engine, s) && Later(s.tables, s'.tables)
    requires s'.log == s.log && s'.started == s.started[next.instance.id := Stamped(Meaning(next), 1)]
    requires next.instance.id !in s.started && forall c :: c in s.log ==> c.prev.instance.id in s.started
    requires s'.tables.instances == s.tables.instances[next.instance.id := InstanceRow(WithoutVersion(next.instance), 1)]
    requires SliceOf(s'.tables, next.instance.id) == Some(Stamped(Meaning(next), 1)) && engine.sound(Stamped(Meaning(next), 1))
    ensures InstancesOK(engine, s')
  {
    NoCyclesYet(s.log, next.instance.id);
    forall j | j in s'.started ensures InstanceOK(engine, s', j) {
      if j != next.instance.id {
        assert InstanceOK(engine, s, j);
        assert LaterAt(s.tables, s'.tables, j);
      }
    }
  }

  lemma AllSurvive(engine: Engine, s: System, s': System)
    requires ActorsOK(engine, s) && Later(s.tables, s'.tables) && s'.actors == s.actors
    ensures ActorsOK(engine, s')
  {
    forall a | a in s'.actors ensures ActorOK(engine, s'.tables, s'.actors[a]) {
      ActorSurvives(engine, s.tables, s'.tables, s.actors[a]);
    }
  }

  lemma StartFacts(engine: Engine, s: System, s': System, next: EngineState, history: seq<HistoryEntry>)
    requires RowsKeyed(s.tables) && Starts(engine, s, s', next, history)
    ensures RowsKeyed(s'.tables) && Later(s.tables, s'.tables)
    ensures s'.log == s.log && s'.actors == s.actors && s'.started == s.started[next.instance.id := Stamped(Meaning(next), 1)]
    ensures next.instance.id !in s.tables.instances
    ensures s'.tables.instances == s.tables.instances[next.instance.id := InstanceRow(WithoutVersion(next.instance), 1)]
    ensures SliceOf(s'.tables, next.instance.id) == Some(Stamped(Meaning(next), 1))
  {
    StartWrites(s.tables, next, history);
    RunOpsKeepsRowsKeyed(s.tables, FullOps(None, next, history));
  }

  lemma StartKeepsInv(engine: Engine, s: System, s': System, next: EngineState, history: seq<HistoryEntry>)
    requires Inv(engine, s) && Starts(engine, s, s', next, history)
    ensures Inv(engine, s')
  {
    StartFacts(engine, s, s', next, history);
    StartKeepsRest(engine, s, s', next);
  }

  lemma StartKeepsRest(engine: Engine, s: System, s': System, next: EngineState)
    requires Inv(engine, s) && RowsKeyed(s'.tables) && Later(s.tables, s'.tables)
    requires s'.log == s.log && s'.actors == s.actors && s'.started == s.started[next.instance.id := Stamped(Meaning(next), 1)]
    requires next.instance.id !in s.tables.instances
    requires s'.tables.instances == s.tables.instances[next.instance.id := InstanceRow(WithoutVersion(next.instance), 1)]
    requires SliceOf(s'.tables, next.instance.id) == Some(Stamped(Meaning(next), 1)) && engine.sound(Stamped(Meaning(next), 1))
    ensures Inv(engine, s')
  {
    StartKeepsInstances(engine, s, s', next);
    AllSurvive(engine, s, s');
  }

  lemma StepKeepsInv(engine: Engine, s: System, s': System, step: Step)
    requires Contract(engine) && Inv(engine, s) && Next(engine, s, s', step)
    ensures Inv(engine, s')
  {
    match step
    case Commit(a) => CommitKeepsInv(engine, s, s', a);
    case StartProcess(next, history) => StartKeepsInv(engine, s, s', next, history);
    case OtherTables(timers, tasks) => OtherTablesKeepsInv(engine, s, s', timers, tasks);
    case _ => ActKeepsInv(engine, s, s', step);
  }

  lemma {:induction false} RunKeepsInv(engine: Engine, states: seq<System>, steps: seq<Step>, k: nat)
    requires Contract(engine) && Run(engine, states, steps) && k < |states|
    ensures Inv(engine, states[k])
  {
    if k > 0 {
      RunKeepsInv(engine, states, steps, k - 1);
      StepKeepsInv(engine, states[k - 1], states[k], steps[k - 1]);
    }
  }
}
