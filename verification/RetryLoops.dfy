/**
 * The code that loads, runs the engine and commits: the loops of the worker and the timers
 * (worker/TaskWorker.ts, scheduler/TimerCoordinator.ts) and the single try of a forced step (http/force.ts).
 */
module RetryLoops {
  import opened Prelude
  import opened EngineModel
  import opened StateStore
  import opened StoreOps
  import opened CommitProtocol
  import opened CommitSafety
  import opened CommitTheorems
  import opened Persistence

  /** How a loop ends: the command was dropped, committed with its events published, or the error goes to the caller. */
  datatype Finish = Dropped | Published(history: seq<HistoryEntry>) | Thrown

  ghost predicate Sane(t: Tables) { RowsKeyed(t) && RowsAgree(t) }

  /** What is stored of an instance is of the engine's making, and the ids about to be drawn are new to it. */
  ghost predicate Suits(engine: Engine, t: Tables, i: Id, draw: Draw) {
    SliceOf(t, i).Some? ==> engine.sound(SliceOf(t, i).value) && Fresh(draw, SliceOf(t, i).value)
  }

  /** The tables as they were before try `k + 1` of the loop: what it began with, then what others left. */
  ghost function LeftBy(start: Tables, others: seq<Tables>, k: nat): Tables
    requires k <= |others|
  {
    if k == 0 then start else others[k - 1]
  }

  /** Between the load of a try and its commit. */
  ghost predicate MovedOn(engine: Engine, i: Id, before: Tables, after: Tables, draw: Draw) {
    Later(before, after) && Sane(after) && Suits(engine, after, i, draw)
  }

  /**
   * What the tables look like when the loop gets round to its commits: others only ever move instances on.
   * Each try draws ids of its own.
   */
  ghost predicate OthersBetween(engine: Engine, i: Id, start: Tables, others: seq<Tables>, draws: seq<Draw>) {
    && |others| == |draws| == MAX_COMMIT_ATTEMPTS
    && (forall k :: 0 <= k < |others| ==> MovedOnAt(engine, i, start, others, draws, k))
  }

  ghost predicate MovedOnAt(engine: Engine, i: Id, start: Tables, others: seq<Tables>, draws: seq<Draw>, k: nat)
    requires k < |others| == |draws|
  {
    MovedOn(engine, i, LeftBy(start, others, k), others[k], draws[k])
  }

  /** This loop's whole effect, in terms of what others had left: one transaction, or nothing. */
  ghost predicate CommittedOnce(engine: Engine, form: Form, command: Command, draw: Draw, before: Tables, after: Tables,
                                base: EngineState, history: seq<HistoryEntry>)
  {
    && SliceOf(before, base.instance.id) == Some(Meaning(base))
    && ProperRun(engine, command, draw, base) && engine.execute(command, draw, base).history == history
    && RunOps(before, OpsOf(form, base, engine.execute(command, draw, base).next, history)) == Committed(after)
  }

  /** The same, of whatever state it was. */
  ghost predicate CommittedCycle(engine: Engine, i: Id, form: Form, command: Command, draw: Draw, before: Tables, after: Tables,
                             history: seq<HistoryEntry>)
  {
    exists base: EngineState :: base.instance.id == i && CommittedOnce(engine, form, command, draw, before, after, base, history)
  }

  /** The transaction goes through exactly when the version is the one read, and then the run was a proper one. */
  lemma CommittedMeansOnce(engine: Engine, form: Form, command: Command, draw: Draw, t: Tables, i: Id, base: EngineState)
    requires Contract(engine) && StateOK(t, i, base) && Suits(engine, t, i, draw) && engine.execute(command, draw, base).Ran?
    ensures var outcome := engine.execute(command, draw, base);
            var result := RunOps(t, OpsOf(form, base, outcome.next, outcome.history));
            && (result.Committed? <==> AtVersion(t, base.instance))
            && (!result.Committed? ==> result == ConcurrentModification(i))
            && (result.Committed? ==> CommittedOnce(engine, form, command, draw, t, result.tables, base, outcome.history))
  {
    assert ContractAt(engine, command, draw, base);
    CommitMeansCurrent(t, form, base, engine.execute(command, draw, base).next, engine.execute(command, draw, base).history, i);
  }

  /** The state is what a load of those tables gives. */
  ghost predicate LoadedFrom(t: Tables, i: Id, state: EngineState) {
    StateOK(t, i, state) && AtVersion(t, state.instance)
  }

  lemma LoadedOK(t: Tables, i: Id, state: EngineState)
    requires RowsKeyed(t) && Coherent(state) && SliceOf(t, i) == Some(Meaning(state))
    ensures LoadedFrom(t, i, state)
  {
  }

  /** The same for a state just loaded, once others have moved on. */
  lemma LoadedThenTried(engine: Engine, form: Form, command: Command, draw: Draw, start: Tables, t: Tables, i: Id, base: EngineState)
    requires Contract(engine) && RowsKeyed(start) && Coherent(base) && SliceOf(start, i) == Some(Meaning(base))
    requires Later(start, t) && Suits(engine, t, i, draw) && engine.execute(command, draw, base).Ran?
    ensures var outcome := engine.execute(command, draw, base);
            var result := RunOps(t, OpsOf(form, base, outcome.next, outcome.history));
            && (result.Committed? <==> SliceOf(t, i) == SliceOf(start, i))
            && (result.Committed? ==> CommittedOnce(engine, form, command, draw, t, result.tables, base, outcome.history))
            && StateOK(t, i, base)
  {
    LoadedOK(start, i, base);
    StateSurvives(start, t, i, base);
    CommittedMeansOnce(engine, form, command, draw, t, i, base);
  }

  /** The token, stored as one of the instance's own, is completed or cancelled. */
  predicate IsOver(t: Tables, i: Id, tokenId: Id) {
    tokenId in TokensOf(t, i) && TokensOf(t, i)[tokenId].status in {Completed, Cancelled}
  }

  /** A committed cycle writes the tokens of its result, and leaves those it stored for the instance there. */
  lemma CycleWritesTokens(form: Form, t: Tables, base: EngineState, next: EngineState, history: seq<HistoryEntry>, id: Id)
    requires Coherent(base) && Coherent(next) && SameInstance(base, next) && RunOps(t, OpsOf(form, base, next, history)).Committed?
    requires id in TokensOf(t, base.instance.id) && id in Meaning(next).tokens
    ensures var after := TokensOf(RunOps(t, OpsOf(form, base, next, history)).tables, base.instance.id);
            id in after && after[id] == Meaning(next).tokens[id]
  {
    match form
    case Routes => FullCycle(t, base, next, history);
    case Background => BackgroundCycle(t, base, next, history);
  }

  /** Whoever commits a completing or firing command found the token waiting, and leaves it over. */
  lemma CommittedFinishes(engine: Engine, i: Id, form: Form, command: Command, draw: Draw, before: Tables, after: Tables,
                          history: seq<HistoryEntry>)
    requires Contract(engine) && FinishesOnce(engine) && Finishing(command)
    requires CommittedCycle(engine, i, form, command, draw, before, after, history)
    ensures Fireable(before, i, command.tokenId) && IsOver(after, i, command.tokenId)
  {
    var base: EngineState :| base.instance.id == i && CommittedOnce(engine, form, command, draw, before, after, base, history);
    assert ContractAt(engine, command, draw, base);
    assert FinishesOnceAt(command, base, engine.execute(command, draw, base).next);
    CycleWritesTokens(form, before, base, engine.execute(command, draw, base).next, history, command.tokenId);
  }

  /** One try: the transaction of what the engine made of a state. */
  method TryCommit(store: PostgresStateStore, i: Id, state: EngineState, command: Command, draw: Draw, engine: Engine)
    returns (result: TxResult)
    requires Contract(engine) && StateOK(store.tables, i, state) && Suits(engine, store.tables, i, draw)
    requires engine.execute(command, draw, state).Ran?
    modifies store
    ensures result.Committed? <==> AtVersion(old(store.tables), state.instance)
    ensures result.Committed? ==>
              CommittedOnce(engine, Background, command, draw, old(store.tables), store.tables, state, engine.execute(command, draw, state).history)
    ensures !result.Committed? ==> result == ConcurrentModification(i) && store.tables == old(store.tables)
  {
    ghost var before := store.tables;
    var outcome := engine.execute(command, draw, state);
    var ops := BuildStoreOps(state, outcome.next, outcome.history);
    CommittedMeansOnce(engine, Background, command, draw, before, i, state);
    result := store.ExecuteTransaction(ops);
  }

  lemma OthersAt(engine: Engine, start: Tables, others: seq<Tables>, draws: seq<Draw>, k: nat, i: Id, state: EngineState)
    requires OthersBetween(engine, i, start, others, draws) && k < MAX_COMMIT_ATTEMPTS && StateOK(LeftBy(start, others, k), i, state)
    ensures LeftBy(start, others, k + 1) == others[k] && Sane(others[k]) && StateOK(others[k], i, state)
    ensures Suits(engine, others[k], i, draws[k])
  {
    assert MovedOnAt(engine, i, start, others, draws, k);
    StateSurvives(LeftBy(start, others, k), others[k], i, state);
  }

  /** Try number `tries` of a loop left exactly one transaction on what others had made of the tables by then. */
  ghost predicate CommittedAt(engine: Engine, i: Id, command: Command, start: Tables, others: seq<Tables>, draws: seq<Draw>,
                              tries: nat, after: Tables, history: seq<HistoryEntry>)
    requires 0 < tries <= |others| == |draws|
  {
    CommittedCycle(engine, i, Background, command, draws[tries - 1], LeftBy(start, others, tries), after, history)
  }

  /** What a timer's command carries besides its token. */
  const NOTHING: Json := ""

  lemma PublishedFinishes(engine: Engine, i: Id, command: Command, start: Tables, others: seq<Tables>, draws: seq<Draw>,
                          tries: nat, after: Tables, finish: Finish)
    requires Contract(engine) && FinishesOnce(engine) && Finishing(command) && finish.Published? && 0 < tries <= |others| == |draws|
    requires CommittedAt(engine, i, command, start, others, draws, tries, after, finish.history)
    ensures IsOver(after, i, command.tokenId)
  {
    CommittedFinishes(engine, i, Background, command, draws[tries - 1], LeftBy(start, others, tries), after, finish.history);
  }

  /** Try `k + 1`: others have moved on since the load, then comes the transaction. */
  method TryAt(store: PostgresStateStore, i: Id, state: EngineState, command: Command, engine: Engine, ghost start: Tables, k: nat,
               others: seq<Tables>, draws: seq<Draw>)
    returns (result: TxResult)
    requires Contract(engine) && OthersBetween(engine, i, start, others, draws) && k < MAX_COMMIT_ATTEMPTS
    requires StateOK(LeftBy(start, others, k), i, state) && engine.execute(command, draws[k], state).Ran?
    modifies store
    ensures result.Committed? ==>
              CommittedAt(engine, i, command, start, others, draws, k + 1, store.tables, engine.execute(command, draws[k], state).history)
    ensures result.Committed? ==> SliceOf(LeftBy(start, others, k + 1), i) == Some(Meaning(state))
    ensures !result.Committed? ==> store.tables == LeftBy(start, others, k + 1) && result == ConcurrentModification(i)
    ensures result.Committed? <==> AtVersion(LeftBy(start, others, k + 1), state.instance)
  {
    OthersAt(engine, start, others, draws, k, i, state);
    store.tables := others[k];
    result := TryCommit(store, i, state, command, draws[k], engine);
  }

  /** The load after a lost try: what others have left by then. */
  method Reload(store: PostgresStateStore, i: Id, engine: Engine, ghost start: Tables, ghost k: nat, ghost others: seq<Tables>, ghost draws: seq<Draw>)
    returns (loaded: Option<EngineState>)
    requires OthersBetween(engine, i, start, others, draws) && 0 < k <= MAX_COMMIT_ATTEMPTS && store.tables == LeftBy(start, others, k)
    ensures loaded.Some? ==> LoadedFrom(LeftBy(start, others, k), i, loaded.value)
    ensures loaded.None? <==> i !in LeftBy(start, others, k).instances
  {
    assert MovedOnAt(engine, i, start, others, draws, k - 1);
    loaded := LoadEngineState(store, i);
    if loaded.Some? { LoadedOK(store.tables, i, loaded.value); }
  }

  /** Others changed the instance between these two moments. */
  predicate VersionMoved(before: Tables, after: Tables, i: Id) {
    i in before.instances && i in after.instances && before.instances[i].version != after.instances[i].version
  }

  /** Try `k + 1` was lost: the instance was changed between its load and its commit. */
  ghost predicate LostAt(i: Id, start: Tables, others: seq<Tables>, k: nat)
    requires k < |others|
  {
    VersionMoved(LeftBy(start, others, k), LeftBy(start, others, k + 1), i)
  }

  /** The engine refuses the command on what a load gives. */
  ghost predicate RefusedOn(engine: Engine, command: Command, draw: Draw, t: Tables, i: Id) {
    exists state :: LoadedFrom(t, i, state) && engine.execute(command, draw, state).RuntimeError?
  }

  ghost predicate RunsOn(engine: Engine, command: Command, draw: Draw, t: Tables, i: Id) {
    exists state :: LoadedFrom(t, i, state) && engine.execute(command, draw, state).Ran?
  }

  lemma LostMeansMoved(engine: Engine, i: Id, start: Tables, others: seq<Tables>, draws: seq<Draw>, k: nat, state: EngineState)
    requires OthersBetween(engine, i, start, others, draws) && k < MAX_COMMIT_ATTEMPTS
    requires LoadedFrom(LeftBy(start, others, k), i, state) && !AtVersion(LeftBy(start, others, k + 1), state.instance)
    ensures LostAt(i, start, others, k)
  {
    assert MovedOnAt(engine, i, start, others, draws, k);
    assert LaterAt(LeftBy(start, others, k), others[k], i);
  }

  lemma StillThere(engine: Engine, i: Id, start: Tables, others: seq<Tables>, draws: seq<Draw>, k: nat)
    requires OthersBetween(engine, i, start, others, draws) && k < MAX_COMMIT_ATTEMPTS && i in LeftBy(start, others, k).instances
    ensures i in LeftBy(start, others, k + 1).instances
  {
    assert MovedOnAt(engine, i, start, others, draws, k);
    assert LaterAt(LeftBy(start, others, k), others[k], i);
  }

  /**
   * The worker's `runCommand`. The first state may be long out of date. `others[k]` is what other actors have
   * made of the tables by the time of try `k + 1`; `defined` says whether the instance's definition is found.
   * At most one commit, events only after it, and what is committed was computed from exactly what the store held
   * at that moment. It gives up only for want of a definition, when the engine refuses, or after losing five races.
   */
  method RunCommand(store: PostgresStateStore, i: Id, first: EngineState, command: Command, engine: Engine, defined: bool,
                    others: seq<Tables>, draws: seq<Draw>)
    returns (finish: Finish, tries: nat)
    requires Contract(engine) && OthersBetween(engine, i, store.tables, others, draws) && StateOK(store.tables, i, first)
    modifies store
    ensures tries <= MAX_COMMIT_ATTEMPTS
    ensures finish.Published? ==>
              tries > 0 && CommittedAt(engine, i, command, old(store.tables), others, draws, tries, store.tables, finish.history)
    ensures !finish.Published? ==> store.tables == LeftBy(old(store.tables), others, tries)
    ensures finish.Thrown? ==> tries == MAX_COMMIT_ATTEMPTS
    ensures finish.Dropped? ==>
              if !defined then tries == 0
              else if tries == 0 then engine.execute(command, draws[0], first).RuntimeError?
              else tries < MAX_COMMIT_ATTEMPTS && RefusedOn(engine, command, draws[tries], LeftBy(old(store.tables), others, tries), i)
    ensures !defined ==> finish.Dropped?
    ensures var lost := if finish.Published? then tries - 1 else tries;
            && (lost > 0 ==> !AtVersion(LeftBy(old(store.tables), others, 1), first.instance))
            && (forall k :: 0 < k < lost ==> LostAt(i, old(store.tables), others, k))
  {
    ghost var start := store.tables;
    var state := first;
    tries := 0;
    while true
      invariant tries < MAX_COMMIT_ATTEMPTS && (tries > 0 ==> defined)
      invariant store.tables == LeftBy(start, others, tries)
      invariant StateOK(LeftBy(start, others, tries), i, state)
      invariant if tries == 0 then state == first else LoadedFrom(LeftBy(start, others, tries), i, state)
      invariant tries > 0 ==> !AtVersion(LeftBy(start, others, 1), first.instance)
      invariant forall k :: 0 < k < tries ==> LostAt(i, start, others, k)
      decreases MAX_COMMIT_ATTEMPTS - tries
    {
      if !defined { finish := Dropped; break; }
      var outcome := engine.execute(command, draws[tries], state);
      if outcome.RuntimeError? { finish := Dropped; break; }
      var result := TryAt(store, i, state, command, engine, start, tries, others, draws);
      tries := tries + 1;
      if result.Committed? { finish := Finish.Published(outcome.history); break; }
      if tries > 1 { LostMeansMoved(engine, i, start, others, draws, tries - 1, state); }
      if !result.ConcurrentModification? || tries >= MAX_COMMIT_ATTEMPTS { finish := Thrown; break; }
      StillThere(engine, i, start, others, draws, tries - 1);
      var loaded := Reload(store, i, engine, start, tries, others, draws);
      if loaded.None? { finish := Dropped; break; }
      state := loaded.value;
    }
  }

  /** The worker's `complete`: when its events are out, the token is over. */
  method CompleteTask(store: PostgresStateStore, i: Id, tokenId: Id, first: EngineState, output: Json, engine: Engine, defined: bool,
                      others: seq<Tables>, draws: seq<Draw>)
    returns (finish: Finish, tries: nat)
    requires Contract(engine) && OthersBetween(engine, i, store.tables, others, draws) && StateOK(store.tables, i, first)
    modifies store
    ensures tries <= MAX_COMMIT_ATTEMPTS
    ensures finish.Published? ==>
              && tries > 0
              && CommittedAt(engine, i, Command(CompleteServiceTask, tokenId, output), old(store.tables), others, draws, tries,
                             store.tables, finish.history)
              && (FinishesOnce(engine) ==> IsOver(store.tables, i, tokenId))
    ensures !finish.Published? ==> store.tables == LeftBy(old(store.tables), others, tries)
  {
    ghost var start := store.tables;
    var command := Command(CompleteServiceTask, tokenId, output);
    finish, tries := RunCommand(store, i, first, command, engine, defined, others, draws);
    if finish.Published? && FinishesOnce(engine) { PublishedFinishes(engine, i, command, start, others, draws, tries, store.tables, finish); }
  }

  /** The worker's `fail`. */
  method FailTask(store: PostgresStateStore, i: Id, tokenId: Id, first: EngineState, error: Json, engine: Engine, defined: bool,
                  others: seq<Tables>, draws: seq<Draw>)
    returns (finish: Finish, tries: nat)
    requires Contract(engine) && OthersBetween(engine, i, store.tables, others, draws) && StateOK(store.tables, i, first)
    modifies store
    ensures tries <= MAX_COMMIT_ATTEMPTS
    ensures finish.Published? ==>
              && tries > 0
              && CommittedAt(engine, i, Command(FailServiceTask, tokenId, error), old(store.tables), others, draws, tries,
                             store.tables, finish.history)
    ensures !finish.Published? ==> store.tables == LeftBy(old(store.tables), others, tries)
  {
    finish, tries := RunCommand(store, i, first, Command(FailServiceTask, tokenId, error), engine, defined, others, draws);
  }

  predicate TokenWaits(tokens: seq<Token>, id: Id) {
    exists t :: t in tokens && t.id == id && t.status == Waiting
  }

  /** The load of one try, and whether there is still something to fire. */
  method LoadWaiting(store: PostgresStateStore, i: Id, tokenId: Id) returns (loaded: Option<EngineState>)
    requires Sane(store.tables)
    ensures loaded.Some? ==> LoadedFrom(store.tables, i, loaded.value) && TokenWaits(loaded.value.tokens, tokenId)
    ensures loaded.Some? ==> WaitingIn(Meaning(loaded.value), tokenId)
    ensures loaded.Some? <==> Fireable(store.tables, i, tokenId)
  {
    loaded := LoadEngineState(store, i);
    if loaded.None? { return; }
    LoadedOK(store.tables, i, loaded.value);
    WaitsMeans(loaded.value, tokenId);
    if !TokenWaits(loaded.value.tokens, tokenId) { loaded := None; }
  }

  predicate WaitingIn(s: Slice, id: Id) { id in s.tokens && s.tokens[id].status == Waiting }

  /** The instance is stored, and the token as one of its own that waits. */
  predicate Fireable(t: Tables, i: Id, tokenId: Id) {
    i in t.instances && tokenId in TokensOf(t, i) && TokensOf(t, i)[tokenId].status == Waiting
  }

  lemma WaitsMeans(state: EngineState, id: Id)
    requires Coherent(state)
    ensures TokenWaits(state.tokens, id) <==> WaitingIn(Meaning(state), id)
  {
    ByKeyEntries(state.tokens, TokenKey);
  }

  /** Why try `k + 1` gives up: nothing to fire, no definition, or the engine refuses. */
  ghost predicate NothingToFire(engine: Engine, i: Id, command: Command, defined: bool, start: Tables, others: seq<Tables>,
                                draws: seq<Draw>, k: nat)
    requires k < |others| == |draws|
  {
    !Fireable(LeftBy(start, others, k), i, command.tokenId) || !defined || RefusedOn(engine, command, draws[k], LeftBy(start, others, k), i)
  }

  /** What one pass of the loop comes to, and what it leaves; losing the race counts as throwing here. */
  ghost predicate PassCame(engine: Engine, i: Id, command: Command, defined: bool, start: Tables, others: seq<Tables>,
                           draws: seq<Draw>, k: nat, finish: Finish, after: Tables)
    requires k < |others| == |draws|
  {
    match finish
    case Dropped => NothingToFire(engine, i, command, defined, start, others, draws, k) && after == LeftBy(start, others, k)
    case Published(history) => CommittedAt(engine, i, command, start, others, draws, k + 1, after, history)
    case Thrown => LostAt(i, start, others, k) && after == LeftBy(start, others, k + 1)
  }

  /** One pass of the loop. */
  method FireOnce(store: PostgresStateStore, i: Id, command: Command, engine: Engine, defined: bool, ghost start: Tables, k: nat,
                  others: seq<Tables>, draws: seq<Draw>)
    returns (finish: Finish)
    requires Contract(engine) && Sane(start) && k < MAX_COMMIT_ATTEMPTS
    requires OthersBetween(engine, i, start, others, draws) && store.tables == LeftBy(start, others, k)
    modifies store
    ensures !Fireable(LeftBy(start, others, k), i, command.tokenId) || !defined ==> finish.Dropped?
    ensures finish.Published? ==> Fireable(LeftBy(start, others, k + 1), i, command.tokenId)
    ensures PassCame(engine, i, command, defined, start, others, draws, k, finish, store.tables)
  {
    if k > 0 { assert MovedOnAt(engine, i, start, others, draws, k - 1); }
    var loaded := LoadWaiting(store, i, command.tokenId);
    if loaded.None? { return Dropped; }
    if !defined { return Dropped; }
    var state := loaded.value;
    var outcome := engine.execute(command, draws[k], state);
    if outcome.RuntimeError? { return Dropped; }
    var result := TryAt(store, i, state, command, engine, start, k, others, draws);
    if !result.Committed? { LostMeansMoved(engine, i, start, others, draws, k, state); }
    finish := if result.Committed? then Finish.Published(outcome.history) else Thrown;
  }

  /**
   * The loop of a fired timer, with how many races it lost before its last try. Every try looks again. It gives up
   * only when there is nothing to fire any more, or after losing five races.
   */
  method FireUntilSettled(store: PostgresStateStore, i: Id, command: Command, engine: Engine, defined: bool,
                          others: seq<Tables>, draws: seq<Draw>)
    returns (finish: Finish, lost: nat)
    requires Contract(engine) && Sane(store.tables) && OthersBetween(engine, i, store.tables, others, draws)
    modifies store
    ensures lost < MAX_COMMIT_ATTEMPTS && forall k :: 0 <= k < lost ==> LostAt(i, old(store.tables), others, k)
    ensures PassCame(engine, i, command, defined, old(store.tables), others, draws, lost, finish, store.tables)
    ensures finish.Thrown? ==> lost == MAX_COMMIT_ATTEMPTS - 1
    ensures finish.Published? ==> Fireable(LeftBy(old(store.tables), others, lost + 1), i, command.tokenId)
    ensures !Fireable(old(store.tables), i, command.tokenId) || !defined ==> finish.Dropped? && lost == 0
  {
    ghost var start := store.tables;
    lost := 0;
    while true
      invariant lost < MAX_COMMIT_ATTEMPTS
      invariant store.tables == LeftBy(start, others, lost)
      invariant lost > 0 ==> Fireable(start, i, command.tokenId) && defined
      invariant forall k :: 0 <= k < lost ==> LostAt(i, start, others, k)
      decreases MAX_COMMIT_ATTEMPTS - lost
    {
      finish := FireOnce(store, i, command, engine, defined, start, lost, others, draws);
      if !finish.Thrown? || lost + 1 >= MAX_COMMIT_ATTEMPTS { break; }
      lost := lost + 1;
    }
  }

  /** A fired timer: if its cycle is committed, on what was stored, the token waited before it and is over after it. */
  method OnTimerFired(store: PostgresStateStore, timer: TimerRow, engine: Engine, defined: bool,
                      others: seq<Tables>, draws: seq<Draw>)
    returns (finish: Finish, lost: nat)
    requires Contract(engine) && Sane(store.tables) && OthersBetween(engine, timer.instanceId, store.tables, others, draws)
    modifies store
    ensures lost < MAX_COMMIT_ATTEMPTS && forall k :: 0 <= k < lost ==> LostAt(timer.instanceId, old(store.tables), others, k)
    ensures PassCame(engine, timer.instanceId, Command(FireTimer, timer.tokenId, NOTHING), defined, old(store.tables), others, draws,
                     lost, finish, store.tables)
    ensures finish.Thrown? ==> lost == MAX_COMMIT_ATTEMPTS - 1
    ensures finish.Published? ==> Fireable(LeftBy(old(store.tables), others, lost + 1), timer.instanceId, timer.tokenId)
    ensures finish.Published? && FinishesOnce(engine) ==> IsOver(store.tables, timer.instanceId, timer.tokenId)
    ensures !Fireable(old(store.tables), timer.instanceId, timer.tokenId) || !defined ==> finish.Dropped? && lost == 0
  {
    ghost var start := store.tables;
    var command := Command(FireTimer, timer.tokenId, NOTHING);
    finish, lost := FireUntilSettled(store, timer.instanceId, command, engine, defined, others, draws);
    if finish.Published? && FinishesOnce(engine) {
      PublishedFinishes(engine, timer.instanceId, command, start, others, draws, lost + 1, store.tables, finish);
    }
  }

  // ─── A forced step: one try, and only of what the instance waits at ────────

  datatype ForcedAction = ForceService | ForceFailure | ForceTimer | ForceUserTask

  datatype Answer = NotFound | StepNotCurrent | WrongStepKind | EngineRefused | NoDefinition | NotLogged | Conflict | Forced(history: seq<HistoryEntry>)

  /** The engine command a forced action stands for. */
  function Asked(action: ForcedAction, tokenId: Id, payload: Json): Command {
    match action
    case ForceService => Command(CompleteServiceTask, tokenId, payload)
    case ForceFailure => Command(FailServiceTask, tokenId, payload)
    case ForceTimer => Command(FireTimer, tokenId, NOTHING)
    case ForceUserTask => Command(CompleteUserTask, tokenId, payload)
  }

  /** The step was forced by a cycle of a command of this kind. */
  ghost predicate ForcedBy(engine: Engine, i: Id, kind: CommandKind, tokenId: Id, payload: Json, draw: Draw,
                           before: Tables, after: Tables, answer: Answer)
  {
    answer.Forced? && CommittedCycle(engine, i, Routes, Command(kind, tokenId, payload), draw, before, after, answer.history)
  }

  /** A timer step has to wait for its timer, a user task for a person, and a service task for its worker. */
  predicate Fits(action: ForcedAction, token: Token) {
    match action
    case ForceTimer => token.waitingFor.Some? && token.waitingFor.value.kind == Timer
    case ForceUserTask => token.waitingFor.Some? && token.waitingFor.value.kind == UserTask
    case _ => token.elementType == "serviceTask" && token.waitingFor.Some? && token.waitingFor.value.kind == External
  }

  function FindToken(tokens: seq<Token>, id: Id): (found: Option<Token>)
    ensures found.Some? ==> found.value in tokens && found.value.id == id
    ensures found.None? ==> forall t :: t in tokens ==> t.id != id
  {
    if tokens == [] then None else if tokens[0].id == id then Some(tokens[0]) else FindToken(tokens[1..], id)
  }

  lemma FoundIsMeant(state: EngineState, id: Id)
    requires Coherent(state)
    ensures FindToken(state.tokens, id) == if id in Meaning(state).tokens then Some(Meaning(state).tokens[id]) else None
  {
    ByKeyEntries(state.tokens, TokenKey);
    var m := Meaning(state).tokens;
    if id in m {
      assert m[id] in state.tokens;
      var found := FindToken(state.tokens, id).value;
      assert found in state.tokens && m[id] in state.tokens;
    }
  }

  /** Why a forced step is refused before anything is written, given what is stored when it is looked at. */
  ghost function Refusal(stored: Option<Slice>, action: ForcedAction, id: Id): Option<Answer> {
    if stored.None? then Some(NotFound)
    else if id !in stored.value.tokens || stored.value.tokens[id].status != Waiting then Some(StepNotCurrent)
    else if !Fits(action, stored.value.tokens[id]) then Some(WrongStepKind)
    else None
  }

  /** The instance is stored, with this token waiting at a step of that type for something of that kind. */
  predicate WaitsFor(t: Tables, i: Id, tokenId: Id, kind: WaitKind) {
    Fireable(t, i, tokenId) && TokensOf(t, i)[tokenId].waitingFor.Some? && TokensOf(t, i)[tokenId].waitingFor.value.kind == kind
  }

  /** In terms of the rows: a step is let through exactly when it waits for what the action brings. */
  lemma RefusedExactly(t: Tables, i: Id, action: ForcedAction, tokenId: Id)
    ensures var refusal := Refusal(SliceOf(t, i), action, tokenId);
            && (refusal == Some(NotFound) <==> i !in t.instances)
            && (refusal == Some(StepNotCurrent) <==> i in t.instances && !Fireable(t, i, tokenId))
            && (refusal == None <==>
                match action
                case ForceTimer => WaitsFor(t, i, tokenId, Timer)
                case ForceUserTask => WaitsFor(t, i, tokenId, UserTask)
                case _ => WaitsFor(t, i, tokenId, External) && TokensOf(t, i)[tokenId].elementType == "serviceTask")
            && (refusal.Some? ==> refusal.value in {NotFound, StepNotCurrent, WrongStepKind})
  {
    assert SliceOf(t, i).Some? <==> i in t.instances;
  }

  method LookAtStep(store: PostgresStateStore, i: Id, action: ForcedAction, tokenId: Id)
    returns (refusal: Option<Answer>, loaded: Option<EngineState>)
    requires Sane(store.tables)
    ensures refusal == Refusal(SliceOf(store.tables, i), action, tokenId)
    ensures loaded.None? ==> refusal == Some(NotFound)
    ensures loaded.Some? ==> LoadedFrom(store.tables, i, loaded.value) && SliceOf(store.tables, i) == Some(Meaning(loaded.value))
  {
    refusal := None;
    loaded := LoadEngineState(store, i);
    if loaded.None? { return Some(NotFound), loaded; }
    LoadedOK(store.tables, i, loaded.value);
    FoundIsMeant(loaded.value, tokenId);
    var token := FindToken(loaded.value.tokens, tokenId);
    if token.None? || token.value.status != Waiting { return Some(StepNotCurrent), loaded; }
    if !Fits(action, token.value) { return Some(WrongStepKind), loaded; }
  }

  /** What becomes of a step that may be forced, and what it leaves. The audit entry comes before the commit. */
  ghost predicate ForceCame(engine: Engine, i: Id, command: Command, draw: Draw, canLog: bool, before: Tables, other: Tables,
                            answer: Answer, logged: bool, after: Tables)
  {
    match answer
    case EngineRefused => RefusedOn(engine, command, draw, before, i) && !logged && after == before
    case NotLogged => RunsOn(engine, command, draw, before, i) && !canLog && !logged && after == before
    case Conflict => SliceOf(other, i) != SliceOf(before, i) && canLog && logged && after == other
    case Forced(history) => SliceOf(other, i) == SliceOf(before, i) && canLog && logged
    case _ => false
  }

  /**
   * `other` is what other actors have made of the tables between the load and the commit. The audit entry
   * comes first: without it nothing is written.
   */
  method ForceStep(store: PostgresStateStore, i: Id, action: ForcedAction, tokenId: Id, payload: Json, engine: Engine,
                   draw: Draw, other: Tables, defined: bool, canLog: bool)
    returns (answer: Answer, logged: bool)
    requires Contract(engine) && Sane(store.tables) && MovedOn(engine, i, store.tables, other, draw)
    modifies store
    ensures var refusal := Refusal(old(SliceOf(store.tables, i)), action, tokenId);
            if refusal.Some? then answer == refusal.value && !logged && store.tables == old(store.tables)
            else if !defined then answer == NoDefinition && !logged && store.tables == old(store.tables)
            else ForceCame(engine, i, Asked(action, tokenId, payload), draw, canLog, old(store.tables), other, answer, logged, store.tables)
    ensures answer.Forced? ==>
              match action
              case ForceService => ForcedBy(engine, i, CompleteServiceTask, tokenId, payload, draw, other, store.tables, answer)
              case ForceFailure => ForcedBy(engine, i, FailServiceTask, tokenId, payload, draw, other, store.tables, answer)
              case ForceTimer => ForcedBy(engine, i, FireTimer, tokenId, NOTHING, draw, other, store.tables, answer)
              case ForceUserTask => ForcedBy(engine, i, CompleteUserTask, tokenId, payload, draw, other, store.tables, answer)
    ensures answer.Forced? && action != ForceFailure && FinishesOnce(engine) ==> IsOver(store.tables, i, tokenId)
  {
    logged := false;
    var refusal, loaded := LookAtStep(store, i, action, tokenId);
    if refusal.Some? { return refusal.value, logged; }
    if !defined { return NoDefinition, logged; }
    answer, logged := ForceLoaded(store, i, loaded.value, Asked(action, tokenId, payload), engine, draw, other, canLog);
  }

  /** Runs the engine on what was loaded, writes the audit entry, and then commits. */
  method ForceLoaded(store: PostgresStateStore, i: Id, state: EngineState, command: Command, engine: Engine, draw: Draw,
                     other: Tables, canLog: bool)
    returns (answer: Answer, logged: bool)
    requires Contract(engine) && Sane(store.tables) && MovedOn(engine, i, store.tables, other, draw)
    requires LoadedFrom(store.tables, i, state) && SliceOf(store.tables, i) == Some(Meaning(state))
    modifies store
    ensures ForceCame(engine, i, command, draw, canLog, old(store.tables), other, answer, logged, store.tables)
    ensures answer.Forced? ==> CommittedCycle(engine, i, Routes, command, draw, other, store.tables, answer.history)
    ensures answer.Forced? && Finishing(command) && FinishesOnce(engine) ==> IsOver(store.tables, i, command.tokenId)
  {
    logged := false;
    var outcome := engine.execute(command, draw, state);
    if outcome.RuntimeError? { return EngineRefused, logged; }
    if !canLog { return NotLogged, logged; }
    logged := true;
    answer := CommitForced(store, i, state, command, engine, draw, other);
  }

  /** The diff is built before the audit entry is written and committed after it, on what others have left. */
  method CommitForced(store: PostgresStateStore, i: Id, state: EngineState, command: Command, engine: Engine, draw: Draw, other: Tables)
    returns (answer: Answer)
    requires Contract(engine) && Sane(store.tables) && MovedOn(engine, i, store.tables, other, draw)
    requires Coherent(state) && SliceOf(store.tables, i) == Some(Meaning(state)) && engine.execute(command, draw, state).Ran?
    modifies store
    ensures answer.Forced? || answer.Conflict?
    ensures answer.Forced? <==> SliceOf(other, i) == old(SliceOf(store.tables, i))
    ensures answer.Forced? ==> CommittedCycle(engine, i, Routes, command, draw, other, store.tables, answer.history)
    ensures answer.Forced? && Finishing(command) && FinishesOnce(engine) ==> IsOver(store.tables, i, command.tokenId)
    ensures answer.Conflict? ==> store.tables == other
  {
    ghost var start := store.tables;
    var outcome := engine.execute(command, draw, state);
    var ops := ComputeStoreOps(false, Some(state), outcome.next, outcome.history);
    LoadedThenTried(engine, Routes, command, draw, start, other, i, state);
    store.tables := other;
    var result := store.ExecuteTransaction(ops);
    answer := if result.Committed? then Forced(outcome.history) else Conflict;
    if result.Committed? && Finishing(command) && FinishesOnce(engine) {
      CommittedFinishes(engine, i, Routes, command, draw, other, store.tables, outcome.history);
    }
  }
}
