/**
 * Any number of actors (HTTP requests, the worker, timers, forced steps, signals) load an instance
 * in several separate reads, run the engine and write back in one transaction, in every interleaving.
 */
module CommitProtocol {
  import opened Prelude
  import opened EngineModel
  import opened StateStore
  import opened StoreOps
  import opened Persistence
  import opened RoundTrip

  // ─── The engine, as far as the protocol depends on it ──────────────────────

  datatype CommandKind =
    | CompleteServiceTask | FailServiceTask | FireTimer | CompleteUserTask
    | DeliverMessage | BroadcastSignal | SuspendInstance | ResumeInstance | CancelInstance

  /** `payload` stands for variables and names. */
  datatype Command = Command(kind: CommandKind, tokenId: Id, payload: Json)

  datatype Outcome = RuntimeError | Ran(next: EngineState, history: seq<HistoryEntry>)

  /** What one engine run generates: the ids it hands out, and times and the rest. */
  datatype Draw = Draw(ids: set<Id>, rest: Json)

  /** `sound` is the engine's own invariant: what is true of every state that its runs lead to. */
  datatype Engine = Engine(execute: (Command, Draw, EngineState) -> Outcome, sound: Slice -> bool)

  /** None of the generated ids names a token or a scope already. */
  ghost predicate Fresh(d: Draw, s: Slice) {
    d.ids !! s.tokens.Keys && d.ids !! s.scopes.Keys && d.ids !! ScopeRefs(s.instance, s.tokens)
  }

  /** A run of the engine as it is meant to be used: on a consistent state of its own making, with fresh ids. */
  ghost predicate ProperRun(engine: Engine, c: Command, d: Draw, s: EngineState) {
    Coherent(s) && engine.sound(Meaning(s)) && Fresh(d, Meaning(s)) && engine.execute(c, d, s).Ran?
  }

  ghost predicate SameInstance(prev: EngineState, next: EngineState) {
    next.instance.id == prev.instance.id && next.instance.version == prev.instance.version
  }

  /** The engine keeps tokens and the scopes it was given, and brings the scopes it refers to. */
  ghost predicate Extends(prev: EngineState, next: EngineState) {
    var p, n := Meaning(prev), Meaning(next);
    && Coherent(next) && SameInstance(prev, next)
    && p.tokens.Keys <= n.tokens.Keys
    && p.scopes.Keys <= n.scopes.Keys <= ScopeRefs(n.instance, n.tokens)
    && ScopeRefs(n.instance, n.tokens) <= ScopeRefs(p.instance, p.tokens) + n.scopes.Keys
    && (forall k :: k in p.compensations && k in n.compensations ==> p.compensations[k] == n.compensations[k])
  }

  /** What is stored of a result is a state of the engine's making again, with or without its compensation diff. */
  ghost predicate StaysSound(engine: Engine, prev: EngineState, next: EngineState) {
    forall form, v :: engine.sound(Stamped(Kept(form, prev, next), v))
  }

  /** What each form of a cycle writes of a result. */
  function Kept(form: Form, prev: EngineState, next: EngineState): Slice {
    match form
    case Routes => Meaning(next)
    case Background => Meaning(next).(compensations := Meaning(prev).compensations)
  }

  /** On any state whatever the engine keeps the instance's id and version; the rest it owes to proper runs. */
  ghost predicate Contract(engine: Engine) {
    forall c, d, s :: ContractAt(engine, c, d, s)
  }

  ghost predicate ContractAt(engine: Engine, c: Command, d: Draw, s: EngineState) {
    var outcome := engine.execute(c, d, s);
    && (outcome.Ran? ==> SameInstance(s, outcome.next))
    && (ProperRun(engine, c, d, s) ==> Extends(s, outcome.next) && StaysSound(engine, s, outcome.next))
  }

  // ─── Actors ────────────────────────────────────────────────────────────────

  const MAX_COMMIT_ATTEMPTS: nat := 5

  /** The routes write every diff; the worker and the timers write the smaller set of operations. */
  datatype Form = Routes | Background

  datatype Progress =
    | Begin
    | Reading(instance: Instance, tokens: Option<seq<Token>>, joins: Option<seq<Join>>, asked: set<Id>, scopes: seq<Scope>)
    | Loaded(state: EngineState)
    | Computed(state: EngineState, draw: Draw, next: EngineState, history: seq<HistoryEntry>)
    | Written
    | Published
    | Ended

  /** A request tries to commit once; background actors and signals up to `MAX_COMMIT_ATTEMPTS` times. */
  datatype Actor = Actor(instanceId: Id, form: Form, command: Command, maxTries: nat, tries: nat, at: Progress)

  /** One committed cycle: who wrote it, on what, and the result. */
  datatype Cycle = Cycle(writer: nat, form: Form, command: Command, draw: Draw, prev: EngineState, next: EngineState)

  datatype System = System(
    tables: Tables, actors: map<nat, Actor>, started: map<Id, Slice>, log: seq<Cycle>, published: seq<nat>)

  function OpsOf(form: Form, prev: EngineState, next: EngineState, history: seq<HistoryEntry>): seq<StoreOperation> {
    match form
    case Routes => FullOps(Some(prev), next, history)
    case Background => BackgroundOps(prev, next, history)
  }

  /** The generated ids are fresh: nothing this cycle writes carries an id another instance uses. */
  ghost predicate IdsApart(t: Tables, next: Slice) {
    && (forall id :: id in next.tokens && id in t.tokens ==> t.tokens[id].instanceId == next.instance.id)
    && (forall j :: j in t.instances && j != next.instance.id ==>
          ScopeRefs(t.instances[j].instance, TokensOf(t, j)) !! next.scopes.Keys)
  }

  // ─── Steps ─────────────────────────────────────────────────────────────────

  /** What an actor does on its own, looking at the tables once. */
  datatype Action =
    | TheInstance
    | TheTokens(tokens: seq<Token>)
    | TheJoins(joins: seq<Join>)
    | OneScope(id: Id)
    | TheCompensations(compensations: seq<Compensation>)
    | RunEngine(draw: Draw)

  datatype Step =
    | Spawn(a: nat, actor: Actor)
    | Act(a: nat, action: Action, result: Progress)
    | Commit(a: nat)
    | Publish(a: nat)
    | Abandon(a: nat)
    | StartProcess(next: EngineState, history: seq<HistoryEntry>)
    | OtherTables(timers: map<Id, TimerRow>, tasks: map<Id, Task>)

  function Moved(s: System, a: nat, at: Progress): System
    requires a in s.actors
  {
    s.(actors := s.actors[a := s.actors[a].(at := at)])
  }

  /** The rows of a query, in any order. */
  ghost predicate TokenRowsOf(t: Tables, i: Id, rows: seq<Token>) {
    DistinctTokens(rows) && ByKey(rows, TokenKey) == TokensOf(t, i) && forall r :: r in rows ==> r.instanceId == i
  }

  ghost predicate JoinRowsOf(t: Tables, i: Id, rows: seq<Join>) {
    ByKey(rows, JoinKey) == JoinsOf(t, i) && forall r :: r in rows ==> r.instanceId == i
  }

  ghost predicate CompensationRowsOf(t: Tables, i: Id, rows: seq<Compensation>) {
    DistinctCompensations(rows) && ByKey(rows, CompensationKey) == CompensationsOf(t, i)
    && forall r :: r in rows ==> r.instanceId == i
  }

  ghost predicate Acts(engine: Engine, t: Tables, actor: Actor, action: Action, result: Progress) {
    match action
    case TheInstance =>
      actor.at.Begin?
      && result == (match ReadInstance(t, actor.instanceId)
                    case None => Ended
                    case Some(i) => Reading(i, None, None, {}, []))
    case TheTokens(rows) =>
      actor.at.Reading? && actor.at.tokens == None && TokenRowsOf(t, actor.instanceId, rows)
      && result == actor.at.(tokens := Some(rows))
    case TheJoins(rows) =>
      actor.at.Reading? && actor.at.tokens.Some? && actor.at.joins == None && JoinRowsOf(t, actor.instanceId, rows)
      && result == actor.at.(joins := Some(rows))
    case OneScope(id) =>
      actor.at.Reading? && actor.at.tokens.Some? && actor.at.joins.Some?
      && id in ScopeRefs(actor.at.instance, ByKey(actor.at.tokens.value, TokenKey)) - actor.at.asked
      && result == actor.at.(asked := actor.at.asked + {id},
                             scopes := if id in t.scopes then actor.at.scopes + [t.scopes[id]] else actor.at.scopes)
    case TheCompensations(rows) =>
      actor.at.Reading? && actor.at.tokens.Some? && actor.at.joins.Some?
      && actor.at.asked == ScopeRefs(actor.at.instance, ByKey(actor.at.tokens.value, TokenKey))
      && CompensationRowsOf(t, actor.instanceId, rows)
      && result == Loaded(EngineState(actor.at.instance, actor.at.tokens.value, actor.at.scopes, actor.at.joins.value, rows))
    case RunEngine(draw) =>
      actor.at.Loaded? && Fresh(draw, Meaning(actor.at.state))
      && result == (match engine.execute(actor.command, draw, actor.at.state)
                    case RuntimeError => Ended
                    case Ran(next, history) => Computed(actor.at.state, draw, next, history))
  }

  /** The transaction: either everything is written, or the actor loads again while it has tries left. */
  ghost predicate Commits(s: System, s': System, a: nat) {
    a in s.actors && s.actors[a].at.Computed?
    && (var actor := s.actors[a];
        var tried := actor.(tries := actor.tries + 1);
        match RunOps(s.tables, OpsOf(actor.form, actor.at.state, actor.at.next, actor.at.history))
        case Committed(t') =>
          IdsApart(s.tables, Meaning(actor.at.next))
          && s' == s.(tables := t', actors := s.actors[a := tried.(at := Written)],
                      log := s.log + [Cycle(a, actor.form, actor.command, actor.at.draw, actor.at.state, actor.at.next)])
        case _ =>
          s' == s.(actors := s.actors[a := tried.(at := if tried.tries < tried.maxTries then Begin else Ended)]))
  }

  ghost predicate Starts(engine: Engine, s: System, s': System, next: EngineState, history: seq<HistoryEntry>) {
    && engine.sound(Stamped(Meaning(next), 1)) && Coherent(next) && next.instance.id !in s.tables.instances && IdsApart(s.tables, Meaning(next))
    && TokensOf(s.tables, next.instance.id) == map[] && JoinsOf(s.tables, next.instance.id) == map[]
    && CompensationsOf(s.tables, next.instance.id) == map[]
    && Recoverable(s.tables, Meaning(Nothing(next.instance)), Meaning(next))
    && RunOps(s.tables, FullOps(None, next, history)).Committed?
    && s' == s.(tables := RunOps(s.tables, FullOps(None, next, history)).tables,
                started := s.started[next.instance.id := Stamped(Meaning(next), 1)])
  }

  ghost predicate Next(engine: Engine, s: System, s': System, step: Step) {
    match step
    case Spawn(a, actor) =>
      a !in s.actors && actor.at == Begin && actor.tries == 0 && 1 <= actor.maxTries <= MAX_COMMIT_ATTEMPTS
      && s' == s.(actors := s.actors[a := actor])
    case Act(a, action, result) =>
      a in s.actors && Acts(engine, s.tables, s.actors[a], action, result) && s' == Moved(s, a, result)
    case Commit(a) => Commits(s, s', a)
    case Publish(a) =>
      a in s.actors && s.actors[a].at.Written? && s' == Moved(s, a, Published).(published := s.published + [a])
    case Abandon(a) =>
      a in s.actors && !s.actors[a].at.Published? && s' == Moved(s, a, Ended)
    case StartProcess(next, history) => Starts(engine, s, s', next, history)
    case OtherTables(timers, tasks) =>
      s' == s.(tables := s.tables.(timers := timers, tasks := tasks))
  }

  ghost predicate Init(s: System) {
    s == System(Tables(map[], map[], map[], map[], map[], map[], map[], map[], map[]), map[], map[], [], [])
  }

  /** A run: any finite interleaving of steps of any number of actors. */
  ghost predicate Run(engine: Engine, states: seq<System>, steps: seq<Step>) {
    && |states| == |steps| + 1
    && Init(states[0])
    && forall k :: 0 <= k < |steps| ==> Next(engine, states[k], states[k + 1], steps[k])
  }

  // ─── What every reachable state satisfies ──────────────────────────────────

  /** The state a committed cycle left behind: without the compensation diff if the worker wrote it. */
  function StateAfter(c: Cycle): Slice
    requires c.prev.instance.version.Some?
  {
    Stamped(Kept(c.form, c.prev, c.next), c.prev.instance.version.value + 1)
  }

  /** The committed cycles of one instance, in order. */
  function CyclesOf(log: seq<Cycle>, i: Id): seq<Cycle> {
    if log == [] then []
    else
      var init := CyclesOf(log[..|log| - 1], i);
      if log[|log| - 1].prev.instance.id == i then init + [log[|log| - 1]] else init
  }

  /**
   * A serial history: each cycle is an engine run on exactly the state the one before it left, and the
   * versions count them.
   */
  ghost predicate Serial(engine: Engine, start: Slice, cycles: seq<Cycle>) {
    forall k :: 0 <= k < |cycles| ==> SerialAt(engine, start, cycles, k)
  }

  ghost predicate SerialAt(engine: Engine, start: Slice, cycles: seq<Cycle>, k: nat)
    requires k < |cycles|
  {
    && ProperRun(engine, cycles[k].command, cycles[k].draw, cycles[k].prev)
    && cycles[k].prev.instance.version == Some(k + 1)
    && engine.execute(cycles[k].command, cycles[k].draw, cycles[k].prev).next == cycles[k].next
    && Meaning(cycles[k].prev) == Latest(start, cycles[..k])
  }

  function Latest(start: Slice, cycles: seq<Cycle>): Slice {
    if cycles == [] || cycles[|cycles| - 1].prev.instance.version == None then start
    else StateAfter(cycles[|cycles| - 1])
  }

  ghost predicate InstanceOK(engine: Engine, s: System, i: Id)
    requires i in s.started
  {
    var cycles := CyclesOf(s.log, i);
    && Serial(engine, s.started[i], cycles)
    && SliceOf(s.tables, i) == Some(Latest(s.started[i], cycles)) && engine.sound(Latest(s.started[i], cycles))
    && i in s.tables.instances && s.tables.instances[i].version == 1 + |cycles|
  }

  /** What an actor has read is what the store holds, unless the instance moved to a later version since. */
  ghost predicate ActorOK(engine: Engine, t: Tables, actor: Actor) {
    match actor.at
    case Reading(instance, tokens, joins, asked, scopes) =>
      && Current(t, actor.instanceId, instance)
      && (tokens.Some? ==> DistinctTokens(tokens.value) && forall r :: r in tokens.value ==> r.instanceId == actor.instanceId)
      && (joins.Some? ==> forall r :: r in joins.value ==> r.instanceId == actor.instanceId)
      && (AtVersion(t, instance) ==>
            && ReadInstance(t, actor.instanceId) == Some(instance)
            && (tokens.Some? ==> ByKey(tokens.value, TokenKey) == TokensOf(t, actor.instanceId))
            && (joins.Some? ==> ByKey(joins.value, JoinKey) == JoinsOf(t, actor.instanceId))
            && ByKey(scopes, ScopeKey) == ScopesIn(t, asked))
      && (asked != {} ==> tokens.Some? && asked <= ScopeRefs(instance, ByKey(tokens.value, TokenKey)))
      && (tokens == None ==> scopes == [])
    case Loaded(state) => StateOK(t, actor.instanceId, state)
    case Computed(state, draw, next, history) =>
      && StateOK(t, actor.instanceId, state) && Fresh(draw, Meaning(state))
      && engine.execute(actor.command, draw, state) == Ran(next, history)
    case _ => true
  }

  ghost predicate Current(t: Tables, i: Id, instance: Instance) {
    instance.id == i && i in t.instances && instance.version.Some? && instance.version.value <= t.instances[i].version
  }

  predicate AtVersion(t: Tables, instance: Instance) {
    instance.id in t.instances && instance.version == Some(t.instances[instance.id].version)
  }

  ghost predicate StateOK(t: Tables, i: Id, state: EngineState) {
    Coherent(state) && Current(t, i, state.instance)
    && (AtVersion(t, state.instance) ==> SliceOf(t, i) == Some(Meaning(state)))
  }

  ghost predicate Inv(engine: Engine, s: System) {
    && RowsKeyed(s.tables)
    && s.started.Keys == s.tables.instances.Keys
    && (forall c :: c in s.log ==> c.prev.instance.id in s.started)
    && InstancesOK(engine, s)
    && ActorsOK(engine, s)
  }

  ghost predicate InstancesOK(engine: Engine, s: System) {
    forall i :: i in s.started ==> InstanceOK(engine, s, i)
  }

  ghost predicate ActorsOK(engine: Engine, s: System) {
    forall a :: a in s.actors ==> ActorOK(engine, s.tables, s.actors[a])
  }
}
