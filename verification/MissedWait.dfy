/**
 * A whole run in which a message finds nobody, although a token is waiting for it.
 *
 * The run starts from the empty store. A small engine is shown to meet everything that is assumed of engines, and
 * the worker takes each step of `CommitProtocol` with it.
 */
module MissedWait {
  import opened Prelude
  import opened EngineModel
  import opened StateStore
  import opened StoreOps
  import opened Persistence
  import opened RoundTrip
  import opened SubscriptionIndex
  import opened CommitProtocol
  import opened CommitSafety
  import opened CommitTheorems
  import opened IndexOverRuns

  /** A process whose service task `t1` is followed by a wait for the message `paid`. */
  const WORK := Token("t1", "i", "work", "serviceTask", Waiting, "s", Some(Wait(External, None)), "")
  const CATCH := Token("t2", "i", "paid", "intermediateCatchEvent", Waiting, "s",
                       Some(Wait(Message, Some(map["messageName" := "paid"]))), "")
  const ROOT := Scope("s", None, map[])
  const INSTANCE := Instance("i", "s", "", None)
  const COMPLETE := Command(CompleteServiceTask, "t1", "")

  function Before(version: Option<nat>): EngineState {
    EngineState(INSTANCE.(version := version), [WORK], [ROOT], [], [])
  }

  function After(version: Option<nat>): EngineState {
    EngineState(INSTANCE.(version := version), [WORK.(status := Completed), CATCH], [ROOT], [], [])
  }

  /** An engine that knows this process and nothing else. */
  const SAMPLE := Engine(Sample, SampleSound)

  function Sample(c: Command, d: Draw, s: EngineState): Outcome {
    if c == COMPLETE && d.ids == {"t2"} && s == Before(s.instance.version) then Ran(After(s.instance.version), []) else RuntimeError
  }

  predicate SampleSound(s: Slice) {
    s == Meaning(Before(s.instance.version)) || s == Meaning(After(s.instance.version))
  }

  lemma ExampleMeans(version: Option<nat>)
    ensures Coherent(Before(version)) && Coherent(After(version))
    ensures Meaning(Before(version)) == Slice(INSTANCE.(version := version), map["t1" := WORK], map["s" := ROOT], map[], map[])
    ensures Meaning(After(version)) ==
              Slice(INSTANCE.(version := version), map["t1" := WORK.(status := Completed), "t2" := CATCH], map["s" := ROOT], map[], map[])
  {
    ByKeyPush([], WORK, TokenKey);
    ByKeyPush([], WORK.(status := Completed), TokenKey);
    ByKeyPush([WORK.(status := Completed)], CATCH, TokenKey);
    ByKeyPush([], ROOT, ScopeKey);
    assert [WORK] == [] + [WORK] && [ROOT] == [] + [ROOT];
    assert [WORK.(status := Completed), CATCH] == [] + [WORK.(status := Completed)] + [CATCH];
  }

  /** It meets what is asked of engines. */
  lemma SampleMeetsContract()
    ensures Contract(SAMPLE) && FinishesOnce(SAMPLE) && KeepsWaits(SAMPLE)
  {
    forall c, d, s ensures ContractAt(SAMPLE, c, d, s) {
      if Sample(c, d, s).Ran? { SampleRun(s.instance.version); }
    }
    forall c, d, s | ProperRun(SAMPLE, c, d, s)
      ensures FinishesOnceAt(c, s, SAMPLE.execute(c, d, s).next)
      ensures WaitsKept(Meaning(s).tokens, Meaning(SAMPLE.execute(c, d, s).next).tokens)
    {
      SampleRun(s.instance.version);
    }
  }

  lemma SampleRun(version: Option<nat>)
    ensures Extends(Before(version), After(version)) && StaysSound(SAMPLE, Before(version), After(version))
    ensures FinishesOnceAt(COMPLETE, Before(version), After(version))
    ensures WaitsKept(Meaning(Before(version)).tokens, Meaning(After(version)).tokens)
  {
    ExampleMeans(version);
    forall form, v: nat ensures SAMPLE.sound(Stamped(Kept(form, Before(version), After(version)), v)) {
      ExampleMeans(Some(v));
    }
  }

  ghost predicate Reachable(engine: Engine, s: System) {
    exists states, steps :: Run(engine, states, steps) && states[|steps|] == s
  }

  lemma ReachableNext(engine: Engine, s: System, s': System, step: Step)
    requires Reachable(engine, s) && Next(engine, s, s', step)
    ensures Reachable(engine, s')
  {
    var states, steps :| Run(engine, states, steps) && states[|steps|] == s;
    var longer := states + [s'];
    forall k | 0 <= k < |steps + [step]| ensures Next(engine, longer[k], longer[k + 1], (steps + [step])[k]) {
      if k < |steps| { assert Next(engine, states[k], states[k + 1], steps[k]); }
    }
    assert Run(engine, longer, steps + [step]);
  }

  const EMPTY := Tables(map[], map[], map[], map[], map[], map[], map[], map[], map[])
  const STORED := EMPTY.(instances := map["i" := InstanceRow(INSTANCE, 1)], tokens := map["t1" := TokenRow("i", WORK)],
                         scopes := map["s" := ROOT])
  const STARTED := System(STORED, map[], map["i" := Meaning(Before(Some(1)))], [], [])
  const WORKER := Actor("i", Background, COMPLETE, MAX_COMMIT_ATTEMPTS, 0, Begin)

  function WithWorker(at: Progress): System { STARTED.(actors := map[0 := WORKER.(at := at)]) }

  ghost predicate Startable(t: Tables, next: EngineState) {
    && Coherent(next) && next.instance.id !in t.instances && IdsApart(t, Meaning(next))
    && TokensOf(t, next.instance.id) == map[] && JoinsOf(t, next.instance.id) == map[]
    && CompensationsOf(t, next.instance.id) == map[]
    && Recoverable(t, Meaning(Nothing(next.instance)), Meaning(next))
  }

  /** Starting a process, and committing a computed cycle, as steps from a reachable state. */
  lemma StartReaches(engine: Engine, s: System, next: EngineState, t': Tables)
    requires Reachable(engine, s) && RowsKeyed(s.tables) && IndexAgrees(s.tables)
    requires RunOps(s.tables, FullOps(None, next, [])) == Committed(t')
    requires engine.sound(Stamped(Meaning(next), 1)) && Startable(s.tables, next)
    ensures Reachable(engine, s.(tables := t', started := s.started[next.instance.id := Stamped(Meaning(next), 1)]))
    ensures IndexAgrees(t')
  {
    var s' := s.(tables := t', started := s.started[next.instance.id := Stamped(Meaning(next), 1)]);
    assert Starts(engine, s, s', next, []);
    StartKeepsIndex(engine, s, s', next, []);
    ReachableNext(engine, s, s', StartProcess(next, []));
  }

  function Committing(s: System, a: nat, t': Tables): System
    requires a in s.actors && s.actors[a].at.Computed?
  {
    var actor := s.actors[a];
    s.(tables := t', actors := s.actors[a := actor.(tries := actor.tries + 1, at := Written)], log := s.log + [CycleBy(s, a)])
  }

  lemma MayCommit(s: System, a: nat, t': Tables)
    requires a in s.actors && s.actors[a].at.Computed?
    requires RunOps(s.tables, OpsOf(s.actors[a].form, s.actors[a].at.state, s.actors[a].at.next, s.actors[a].at.history)) == Committed(t')
    requires IdsApart(s.tables, Meaning(s.actors[a].at.next))
    ensures Commits(s, Committing(s, a, t'), a)
  {
  }

  lemma CommitReaches(engine: Engine, s: System, a: nat, t': Tables)
    requires Reachable(engine, s) && a in s.actors && s.actors[a].at.Computed?
    requires RunOps(s.tables, OpsOf(s.actors[a].form, s.actors[a].at.state, s.actors[a].at.next, s.actors[a].at.history)) == Committed(t')
    requires IdsApart(s.tables, Meaning(s.actors[a].at.next))
    ensures Reachable(engine, Committing(s, a, t'))
  {
    MayCommit(s, a, t');
    ReachableNext(engine, s, Committing(s, a, t'), Commit(a));
  }

  lemma StartLeaves(t': Tables)
    requires t' == RunOps(EMPTY, FullOps(None, Before(None), [])).tables
    ensures RunOps(EMPTY, FullOps(None, Before(None), [])).Committed?
    ensures WroteCore(EMPTY, t', Meaning(Nothing(INSTANCE)), Meaning(Before(None)), [])
    ensures WroteCompensations(EMPTY, t', Meaning(Nothing(INSTANCE)), Meaning(Before(None)))
    ensures t'.instances == STORED.instances
  {
    ExampleMeans(None);
    StartCycle(EMPTY, Before(None), []);
  }

  lemma NothingInTheWay()
    ensures Startable(EMPTY, Before(None))
    ensures IndexAgrees(EMPTY) && RowsKeyed(EMPTY)
  {
    ExampleMeans(None);
  }

  const FIRST := System(EMPTY, map[], map[], [], [])

  lemma ExampleBegins(t': Tables)
    requires RunOps(EMPTY, FullOps(None, Before(None), [])) == Committed(t')
    ensures Reachable(SAMPLE, FIRST.(tables := t', started := map["i" := Stamped(Meaning(Before(None)), 1)])) && IndexAgrees(t')
  {
    var run := [FIRST];
    assert Run(SAMPLE, run, []);
    assert Reachable(SAMPLE, FIRST);
    NothingInTheWay();
    StampedIs(1);
    StartReaches(SAMPLE, FIRST, Before(None), t');
  }

  lemma StampedIs(version: nat)
    ensures Stamped(Meaning(Before(None)), version) == Meaning(Before(Some(version)))
    ensures SampleSound(Stamped(Meaning(Before(None)), version))
  {
    ExampleMeans(None);
    ExampleMeans(Some(version));
  }

  lemma ExampleStarts()
    ensures Reachable(SAMPLE, STARTED) && IndexAgrees(STORED)
  {
    var t' := RunOps(EMPTY, FullOps(None, Before(None), [])).tables;
    StartLeaves(t');
    ExampleBegins(t');
    StampedIs(1);
    ExampleStored(t');
  }

  lemma ExampleStored(t': Tables)
    requires IndexAgrees(t') && WroteCore(EMPTY, t', Meaning(Nothing(INSTANCE)), Meaning(Before(None)), [])
    requires t'.instances == STORED.instances && WroteCompensations(EMPTY, t', Meaning(Nothing(INSTANCE)), Meaning(Before(None)))
    ensures t' == STORED
  {
    ExampleMeans(None);
    assert t'.tokens == STORED.tokens;
    forall sid ensures sid !in t'.subscriptions {
      assert IndexedAt(t', sid);
    }
    assert t'.subscriptions == map[] && t'.history == map[] && t'.joins == map[];
  }

  lemma ExampleRows()
    ensures TokensOf(STORED, "i") == map["t1" := WORK] && TokenRowsOf(STORED, "i", [WORK])
    ensures JoinRowsOf(STORED, "i", []) && CompensationRowsOf(STORED, "i", [])
    ensures ScopeRefs(INSTANCE.(version := Some(1)), map["t1" := WORK]) == {"s"}
    ensures SliceOf(STORED, "i") == Some(Meaning(Before(Some(1))))
  {
    ExampleMeans(Some(1));
    assert TokensOf(STORED, "i") == map["t1" := WORK];
    assert ScopesIn(STORED, {"s"}) == map["s" := ROOT];
    assert JoinsOf(STORED, "i") == map[] && CompensationsOf(STORED, "i") == map[];
  }

  lemma WorkerActs(from: Progress, action: Action, to: Progress)
    requires Reachable(SAMPLE, WithWorker(from)) && Acts(SAMPLE, STORED, WORKER.(at := from), action, to)
    ensures Reachable(SAMPLE, WithWorker(to))
  {
    assert WithWorker(to) == Moved(WithWorker(from), 0, to);
    ReachableNext(SAMPLE, WithWorker(from), WithWorker(to), Act(0, action, to));
  }

  const SEEN := INSTANCE.(version := Some(1))
  const ALL_READ := Reading(SEEN, Some([WORK]), Some([]), {}, [])
  const DRAW := Draw({"t2"}, "")
  const COMPUTED := Computed(Before(Some(1)), DRAW, After(Some(1)), [])

  /** The worker reads the instance piece by piece ... */
  lemma ExampleReads()
    ensures Reachable(SAMPLE, WithWorker(ALL_READ))
  {
    ExampleStarts();
    ExampleRows();
    ReachableNext(SAMPLE, STARTED, WithWorker(Begin), Spawn(0, WORKER));
    WorkerActs(Begin, TheInstance, Reading(SEEN, None, None, {}, []));
    WorkerActs(Reading(SEEN, None, None, {}, []), TheTokens([WORK]), Reading(SEEN, Some([WORK]), None, {}, []));
    WorkerActs(Reading(SEEN, Some([WORK]), None, {}, []), TheJoins([]), ALL_READ);
  }

  lemma ExampleLoads()
    ensures Reachable(SAMPLE, WithWorker(Loaded(Before(Some(1)))))
  {
    ExampleReads();
    ExampleRows();
    ExampleMeans(Some(1));
    WorkerActs(ALL_READ, OneScope("s"), Reading(SEEN, Some([WORK]), Some([]), {"s"}, [ROOT]));
    WorkerActs(Reading(SEEN, Some([WORK]), Some([]), {"s"}, [ROOT]), TheCompensations([]), Loaded(Before(Some(1))));
  }

  lemma SampleAnswers()
    ensures SAMPLE.execute(COMPLETE, DRAW, Before(Some(1))) == Ran(After(Some(1)), [])
    ensures Fresh(DRAW, Meaning(Before(Some(1))))
  {
    ExampleMeans(Some(1));
  }

  /** ... and runs the engine. */
  lemma ExampleComputes()
    ensures Reachable(SAMPLE, WithWorker(COMPUTED))
  {
    ExampleLoads();
    SampleAnswers();
    WorkerActs(Loaded(Before(Some(1))), RunEngine(DRAW), COMPUTED);
  }

  /** The commit goes through, and the index is left as it was. */
  lemma ExampleWrites(t': Tables)
    requires t' == RunOps(STORED, BackgroundOps(Before(Some(1)), After(Some(1)), [])).tables
    ensures RunOps(STORED, BackgroundOps(Before(Some(1)), After(Some(1)), [])) == Committed(t')
    ensures t'.subscriptions == STORED.subscriptions
    ensures t'.tokens == STORED.tokens + TokenRows(STORED.tokens, Meaning(After(Some(1))).tokens)
  {
    ExampleMeans(Some(1));
    BackgroundCycle(STORED, Before(Some(1)), After(Some(1)), []);
  }

  lemma ExampleApart()
    ensures IdsApart(STORED, Meaning(After(Some(1))))
  {
    ExampleMeans(Some(1));
  }

  lemma CatchMissed(t': Tables)
    requires t'.subscriptions == map[] && "t2" in t'.tokens && t'.tokens["t2"].token == CATCH
    ensures "t2" in ScanTokens(t', None, Message, "paid") && "t2" !in FindSubscriptions(t', None, Message, "paid")
  {
  }

  lemma ExampleMisses(t': Tables)
    requires t'.subscriptions == STORED.subscriptions
    requires t'.tokens == STORED.tokens + TokenRows(STORED.tokens, Meaning(After(Some(1))).tokens)
    ensures "t2" in ScanTokens(t', None, Message, "paid") && "t2" !in FindSubscriptions(t', None, Message, "paid")
  {
    ExampleMeans(Some(1));
    assert t'.tokens["t2"] == TokenRow("i", CATCH);
    CatchMissed(t');
  }

  /** A run of an engine that meets its contract, at whose end a lookup misses a token that a scan finds. */
  lemma WorkerCanMissAWait()
    ensures Contract(SAMPLE) && FinishesOnce(SAMPLE) && KeepsWaits(SAMPLE)
    ensures exists s :: Reachable(SAMPLE, s)
                        && "t2" in ScanTokens(s.tables, None, Message, "paid") && "t2" !in FindSubscriptions(s.tables, None, Message, "paid")
  {
    SampleMeetsContract();
    var t' := RunOps(STORED, BackgroundOps(Before(Some(1)), After(Some(1)), [])).tables;
    ExampleWrites(t');
    ExampleApart();
    ExampleComputes();
    CommitReaches(SAMPLE, WithWorker(COMPUTED), 0, t');
    ExampleMisses(t');
  }
}
