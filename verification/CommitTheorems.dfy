/** The commit protocol's guarantees, stated over whole runs. */
module CommitTheorems {
  import opened Prelude
  import opened EngineModel
  import opened StateStore
  import opened Persistence
  import opened RoundTrip
  import opened CommitProtocol
  import opened CommitSafety

  // ─── Commits are serial ────────────────────────────────────────────────────

  /**
   * In every run, a commit goes through if and only if the stored instance still is, piece by piece, the
   * state the actor read; what it computed from is then exactly what is stored.
   */
  lemma CommitIffNothingMoved(engine: Engine, states: seq<System>, steps: seq<Step>, k: nat, a: nat)
    requires Contract(engine) && Run(engine, states, steps) && k < |steps| && steps[k] == Commit(a)
    ensures var s := states[k];
            && a in s.actors && s.actors[a].at.Computed?
            && (states[k + 1].log == s.log + [CycleBy(s, a)]
                <==> SliceOf(s.tables, s.actors[a].instanceId) == Some(Meaning(s.actors[a].at.state)))
            && (states[k + 1].log == s.log + [CycleBy(s, a)] || states[k + 1].log == s.log)
            && (states[k + 1].log == s.log ==> states[k + 1].tables == s.tables)
  {
    RunKeepsInv(engine, states, steps, k);
    var s := states[k];
    assert Next(engine, s, states[k + 1], steps[k]);
    var actor := s.actors[a];
    assert ActorOK(engine, s.tables, actor) && ContractAt(engine, actor.command, actor.at.draw, actor.at.state);
    if AtVersion(s.tables, actor.at.state.instance) { RunIsProper(engine, s, a); }
    CommitMeansCurrent(s.tables, actor.form, actor.at.state, actor.at.next, actor.at.history, actor.instanceId);
    assert s.log + [CycleBy(s, a)] != s.log;
    if SliceOf(s.tables, actor.instanceId) == Some(Meaning(actor.at.state)) {
      SliceHolds(s.tables, Meaning(actor.at.state));
    }
  }

  /**
   * In every reachable state the committed cycles of an instance form one chain: each is an engine run on
   * exactly what the one before it left, the store holds what the last one left, and the version is one
   * more than their number. So no committed update is ever lost or overwritten.
   */
  lemma CommittedCyclesAreSerial(engine: Engine, states: seq<System>, steps: seq<Step>, k: nat, i: Id)
    requires Contract(engine) && Run(engine, states, steps) && k < |states|
    ensures i in states[k].tables.instances <==> i in states[k].started
    ensures i in states[k].started ==>
              var cycles := CyclesOf(states[k].log, i);
              && Serial(engine, states[k].started[i], cycles)
              && SliceOf(states[k].tables, i) == Some(Latest(states[k].started[i], cycles))
              && states[k].tables.instances[i].version == 1 + |cycles|
  {
    RunKeepsInv(engine, states, steps, k);
    if i in states[k].started {
      assert InstanceOK(engine, states[k], i);
    }
  }

  // ─── A token is finished once ──────────────────────────────────────────────

  /** The commands that complete a step or fire its timer. */
  predicate Finishing(c: Command) { c.kind in {CompleteServiceTask, CompleteUserTask, FireTimer} }

  predicate OverAt(s: Slice, id: Id) {
    id in s.tokens && s.tokens[id].status in {Completed, Cancelled}
  }

  predicate WaitingAt(s: Slice, id: Id) {
    id in s.tokens && s.tokens[id].status == Waiting
  }

  /** Finishing needs a waiting token and ends it; a token that is over stays over, whatever is run. */
  ghost predicate FinishesOnce(engine: Engine) {
    forall c, d, s :: ProperRun(engine, c, d, s) ==> FinishesOnceAt(c, s, engine.execute(c, d, s).next)
  }

  ghost predicate FinishesOnceAt(c: Command, s: EngineState, next: EngineState) {
    && (Finishing(c) ==> WaitingAt(Meaning(s), c.tokenId) && OverAt(Meaning(next), c.tokenId))
    && (forall id :: OverAt(Meaning(s), id) ==> OverAt(Meaning(next), id))
  }

  lemma LatestAfter(engine: Engine, start: Slice, cycles: seq<Cycle>, k: nat, id: Id)
    requires Serial(engine, start, cycles) && k < |cycles|
    ensures Meaning(cycles[k].prev) == Latest(start, cycles[..k])
    ensures OverAt(Latest(start, cycles[..k + 1]), id) <==> OverAt(Meaning(cycles[k].next), id)
  {
    assert SerialAt(engine, start, cycles, k);
    assert cycles[..k + 1][k] == cycles[k];
  }

  lemma RanOnce(engine: Engine, start: Slice, cycles: seq<Cycle>, k: nat)
    requires FinishesOnce(engine) && Serial(engine, start, cycles) && k < |cycles|
    ensures FinishesOnceAt(cycles[k].command, cycles[k].prev, cycles[k].next)
  {
    assert SerialAt(engine, start, cycles, k);
  }

  predicate OverAfter(start: Slice, cycles: seq<Cycle>, k: nat, id: Id)
    requires k <= |cycles|
  {
    OverAt(Latest(start, cycles[..k]), id)
  }

  /** What one cycle of a serial history does to tokens that are over, or that it finishes. */
  lemma OverNext(engine: Engine, start: Slice, cycles: seq<Cycle>, k: nat, id: Id)
    requires FinishesOnce(engine) && Serial(engine, start, cycles) && k < |cycles|
    ensures OverAfter(start, cycles, k, id) ==> OverAfter(start, cycles, k + 1, id)
    ensures Finishing(cycles[k].command) && cycles[k].command.tokenId == id ==>
              OverAfter(start, cycles, k + 1, id) && !OverAfter(start, cycles, k, id)
  {
    LatestAfter(engine, start, cycles, k, id);
    RanOnce(engine, start, cycles, k);
  }

  lemma {:induction false} StaysOver(engine: Engine, start: Slice, cycles: seq<Cycle>, p: nat, q: nat)
    requires FinishesOnce(engine) && Serial(engine, start, cycles) && p < q <= |cycles|
    requires Finishing(cycles[p].command)
    ensures OverAfter(start, cycles, q, cycles[p].command.tokenId)
    decreases q
  {
    if q > p + 1 {
      StaysOver(engine, start, cycles, p, q - 1);
    }
    OverNext(engine, start, cycles, q - 1, cycles[p].command.tokenId);
  }

  lemma FinishedOnceInChain(engine: Engine, start: Slice, cycles: seq<Cycle>, p: nat, q: nat)
    requires FinishesOnce(engine) && Serial(engine, start, cycles) && p < q < |cycles|
    requires Finishing(cycles[p].command) && Finishing(cycles[q].command)
    ensures cycles[p].command.tokenId != cycles[q].command.tokenId
  {
    StaysOver(engine, start, cycles, p, q);
    OverNext(engine, start, cycles, q, cycles[p].command.tokenId);
  }

  /**
   * However polls, timers, the worker, requests and forced steps overlap, at most one cycle that completes
   * or fires a given token of an instance is ever committed.
   */
  lemma TokenFinishedOnce(engine: Engine, states: seq<System>, steps: seq<Step>, k: nat, i: Id, p: nat, q: nat)
    requires Contract(engine) && FinishesOnce(engine) && Run(engine, states, steps) && k < |states|
    requires p < q < |CyclesOf(states[k].log, i)|
    requires Finishing(CyclesOf(states[k].log, i)[p].command) && Finishing(CyclesOf(states[k].log, i)[q].command)
    ensures CyclesOf(states[k].log, i)[p].command.tokenId != CyclesOf(states[k].log, i)[q].command.tokenId
  {
    RunKeepsInv(engine, states, steps, k);
    var s, cycles := states[k], CyclesOf(states[k].log, i);
    CyclesBelong(s.log, i);
    assert cycles[p] in cycles;
    assert InstanceOK(engine, s, i);
    FinishedOnceInChain(engine, s.started[i], cycles, p, q);
  }

  lemma {:induction false} CyclesBelong(log: seq<Cycle>, i: Id)
    ensures forall c :: c in CyclesOf(log, i) ==> c in log && c.prev.instance.id == i
  {
    if log != [] { CyclesBelong(log[..|log| - 1], i); }
  }

  // ─── Tries, commits and events of one actor ────────────────────────────────

  function CommitsBy(log: seq<Cycle>, a: nat): nat {
    if log == [] then 0 else CommitsBy(log[..|log| - 1], a) + if log[|log| - 1].writer == a then 1 else 0
  }

  function PublishedBy(published: seq<nat>, a: nat): nat {
    if published == [] then 0
    else PublishedBy(published[..|published| - 1], a) + if published[|published| - 1] == a then 1 else 0
  }

  ghost predicate BoundedAt(s: System, a: nat) {
    if a !in s.actors then CommitsBy(s.log, a) == 0 && PublishedBy(s.published, a) == 0
    else
      var actor := s.actors[a];
      && actor.tries <= actor.maxTries <= MAX_COMMIT_ATTEMPTS
      && CommitsBy(s.log, a) <= actor.tries
      && (match actor.at
          case Written => CommitsBy(s.log, a) == 1 && PublishedBy(s.published, a) == 0
          case Published => CommitsBy(s.log, a) == 1 && PublishedBy(s.published, a) == 1
          case Ended => CommitsBy(s.log, a) <= 1 && PublishedBy(s.published, a) == 0
          case _ => actor.tries < actor.maxTries && CommitsBy(s.log, a) == 0 && PublishedBy(s.published, a) == 0)
  }

  /** What a step can have done to the two lists: added one entry at the end. */
  lemma ListsGrow(engine: Engine, s: System, s': System, step: Step, b: nat)
    requires Next(engine, s, s', step)
    ensures CommitsBy(s'.log, b) == CommitsBy(s.log, b) + (if step == Commit(b) && s'.log != s.log then 1 else 0)
    ensures PublishedBy(s'.published, b) == PublishedBy(s.published, b) + (if step == Publish(b) then 1 else 0)
  {
    if s'.log != s.log {
      assert s'.log[..|s'.log| - 1] == s.log;
    }
    if s'.published != s.published {
      assert s'.published[..|s'.published| - 1] == s.published;
    }
  }

  /** What a step does to one actor: nothing, unless it is that actor's step. */
  ghost predicate Stepped(s: System, s': System, step: Step, b: nat) {
    if b !in s.actors then
      b in s'.actors ==> s'.actors[b].at == Begin && s'.actors[b].tries == 0 && 1 <= s'.actors[b].maxTries <= MAX_COMMIT_ATTEMPTS
    else
      var x := s.actors[b];
      && b in s'.actors && s'.actors[b].maxTries == x.maxTries
      && (var x' := s'.actors[b];
          if step == Commit(b) then
            x.at.Computed? && x'.tries == x.tries + 1
            && (if s'.log != s.log then x'.at.Written?
                else x'.at == if x'.tries < x'.maxTries then Begin else Ended)
          else if step == Publish(b) then x.at.Written? && x'.at.Published? && x'.tries == x.tries
          else x'.tries == x.tries
               && (x'.at == x.at || (x'.at.Ended? && !x.at.Published?)
                   || ((x.at.Begin? || x.at.Reading? || x.at.Loaded?) && (x'.at.Reading? || x'.at.Loaded? || x'.at.Computed?))))
  }

  lemma StepIsStepped(engine: Engine, s: System, s': System, step: Step, b: nat)
    requires Next(engine, s, s', step)
    ensures Stepped(s, s', step, b)
    ensures b !in s.actors ==> step != Commit(b) && step != Publish(b)
  {
    match step
    case Commit(a) =>
      if s'.log != s.log { assert |s'.log| == |s.log| + 1; }
    case _ =>
  }

  lemma StepKeepsBounded(engine: Engine, s: System, s': System, step: Step, b: nat)
    requires BoundedAt(s, b) && Next(engine, s, s', step)
    ensures BoundedAt(s', b)
  {
    ListsGrow(engine, s, s', step, b);
    StepIsStepped(engine, s, s', step, b);
    SteppedBounded(s, s', step, b);
  }

  lemma SteppedBounded(s: System, s': System, step: Step, b: nat)
    requires BoundedAt(s, b) && Stepped(s, s', step, b)
    requires b !in s.actors ==> step != Commit(b) && step != Publish(b)
    requires CommitsBy(s'.log, b) == CommitsBy(s.log, b) + (if step == Commit(b) && s'.log != s.log then 1 else 0)
    requires PublishedBy(s'.published, b) == PublishedBy(s.published, b) + (if step == Publish(b) then 1 else 0)
    ensures BoundedAt(s', b)
  {
  }

  /**
   * At every moment of every run an actor has tried at most its limit (never more than five times), has
   * committed at most once, and has published the events of a cycle only after that cycle was committed.
   */
  lemma {:induction false} ActorsAreBounded(engine: Engine, states: seq<System>, steps: seq<Step>, k: nat, a: nat)
    requires Run(engine, states, steps) && k < |states|
    ensures BoundedAt(states[k], a)
    ensures CommitsBy(states[k].log, a) <= 1
    ensures PublishedBy(states[k].published, a) <= CommitsBy(states[k].log, a)
  {
    if k > 0 {
      ActorsAreBounded(engine, states, steps, k - 1, a);
      StepKeepsBounded(engine, states[k - 1], states[k], steps[k - 1], a);
    }
  }
}
