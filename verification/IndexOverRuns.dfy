/** The subscription index along whole runs of the commit protocol. */
module IndexOverRuns {
  import opened Prelude
  import opened EngineModel
  import opened StateStore
  import opened StoreOps
  import opened Persistence
  import opened RoundTrip
  import opened SubscriptionIndex
  import opened CommitProtocol
  import opened CommitSafety

  /** In an engine run, a token that goes on waiting goes on waiting for the same event. */
  ghost predicate KeepsWaits(engine: Engine) {
    forall c, d, s :: ProperRun(engine, c, d, s) ==> WaitsKept(Meaning(s).tokens, Meaning(engine.execute(c, d, s).next).tokens)
  }

  /** No cycle written without subscription operations began, ended or changed a wait for an event. */
  ghost predicate QuietBackground(log: seq<Cycle>) {
    forall c :: c in log && c.form == Background ==> WaitsUntouched(Meaning(c.prev).tokens, Meaning(c.next).tokens)
  }

  lemma CycleSetting(t: Tables, t': Tables, prev: EngineState, next: EngineState)
    requires RowsKeyed(t) && Coherent(next) && IdsApart(t, Meaning(next))
    requires Meaning(prev).tokens == TokensOf(t, next.instance.id)
    requires t'.tokens == t.tokens + TokenRows(t.tokens, Meaning(next).tokens)
    ensures CycleOf(t, t', Meaning(prev), Meaning(next))
  {
    CoherentOwned(next);
    ByKeyEntries(next.tokens, TokenKey);
  }

  lemma CommitKeepsIndex(engine: Engine, t: Tables, c: Cycle, history: seq<HistoryEntry>)
    requires Good(t, c, history) && RowsKeyed(t) && IndexAgrees(t)
    requires c.form == Routes ==> WaitsKept(Meaning(c.prev).tokens, Meaning(c.next).tokens)
    requires c.form == Background ==> WaitsUntouched(Meaning(c.prev).tokens, Meaning(c.next).tokens)
    ensures IndexAgrees(CommittedTables(t, c, history))
  {
    var t' := CommittedTables(t, c, history);
    SliceHolds(t, Meaning(c.prev));
    match c.form
    case Routes =>
      FullCycle(t, c.prev, c.next, history);
      CycleSetting(t, t', c.prev, c.next);
      FullCycleKeepsIndex(t, t', Meaning(c.prev), Meaning(c.next));
    case Background =>
      BackgroundCycle(t, c.prev, c.next, history);
      CycleSetting(t, t', c.prev, c.next);
      BackgroundCycleKeepsIndex(t, t', Meaning(c.prev), Meaning(c.next));
  }

  lemma StartKeepsIndex(engine: Engine, s: System, s': System, next: EngineState, history: seq<HistoryEntry>)
    requires RowsKeyed(s.tables) && IndexAgrees(s.tables) && Starts(engine, s, s', next, history)
    ensures IndexAgrees(s'.tables)
  {
    var prev := Nothing(next.instance);
    StartCycle(s.tables, next, history);
    CycleSetting(s.tables, s'.tables, prev, next);
    FullCycleKeepsIndex(s.tables, s'.tables, Meaning(prev), Meaning(next));
  }

  lemma SameRowsSameIndex(t: Tables, t': Tables)
    requires IndexAgrees(t) && t'.tokens == t.tokens && t'.subscriptions == t.subscriptions
    ensures IndexAgrees(t')
  {
    forall sid ensures IndexedAt(t', sid) {
      assert IndexedAt(t, sid);
    }
  }

  lemma CommitStepKeepsIndex(engine: Engine, s: System, s': System, a: nat)
    requires Contract(engine) && KeepsWaits(engine) && Inv(engine, s) && IndexAgrees(s.tables)
    requires Commits(s, s', a) && QuietBackground(s'.log)
    ensures IndexAgrees(s'.tables)
  {
    var actor := s.actors[a];
    var at := actor.at;
    assert ActorOK(engine, s.tables, actor) && ContractAt(engine, actor.command, at.draw, at.state);
    if AtVersion(s.tables, at.state.instance) { RunIsProper(engine, s, a); }
    CommitMeansCurrent(s.tables, actor.form, at.state, at.next, at.history, actor.instanceId);
    if RunOps(s.tables, OpsOf(actor.form, at.state, at.next, at.history)).Committed? {
      assert CycleBy(s, a) in s'.log;
      CommitKeepsIndex(engine, s.tables, CycleBy(s, a), at.history);
    }
  }

  lemma StepKeepsIndex(engine: Engine, s: System, s': System, step: Step)
    requires Contract(engine) && KeepsWaits(engine) && Inv(engine, s) && IndexAgrees(s.tables)
    requires Next(engine, s, s', step) && QuietBackground(s'.log)
    ensures IndexAgrees(s'.tables)
  {
    match step
    case Commit(a) => CommitStepKeepsIndex(engine, s, s', a);
    case StartProcess(next, history) => StartKeepsIndex(engine, s, s', next, history);
    case _ => SameRowsSameIndex(s.tables, s'.tables);
  }

  lemma LogOnlyGrows(engine: Engine, s: System, s': System, step: Step)
    requires Next(engine, s, s', step)
    ensures s.log <= s'.log
  {
  }

  /**
   * Along every run whose background cycles leave waits alone, the active subscriptions are exactly
   * `sub-<token>` for the tokens waiting on a message or signal, so a lookup by type and name gives what
   * a scan of all tokens gives.
   */
  lemma {:induction false} IndexAlongRuns(engine: Engine, states: seq<System>, steps: seq<Step>, k: nat)
    requires Contract(engine) && KeepsWaits(engine) && Run(engine, states, steps) && k < |states|
    requires QuietBackground(states[k].log)
    ensures IndexAgrees(states[k].tables)
    ensures forall within, kind, name :: kind in {Message, Signal} ==>
              FindSubscriptions(states[k].tables, within, kind, name) == ScanTokens(states[k].tables, within, kind, name)
  {
    if k > 0 {
      LogOnlyGrows(engine, states[k - 1], states[k], steps[k - 1]);
      RunKeepsInv(engine, states, steps, k - 1);
      IndexAlongRuns(engine, states, steps, k - 1);
      StepKeepsIndex(engine, states[k - 1], states[k], steps[k - 1]);
    }
    RunKeepsInv(engine, states, steps, k);
    forall within, kind, name | kind in {Message, Signal}
      ensures FindSubscriptions(states[k].tables, within, kind, name) == ScanTokens(states[k].tables, within, kind, name)
    {
      LookupIsScan(states[k].tables, within, kind, name);
    }
  }

  // ─── And along no other runs ───────────────────────────────────────────────

  /** A background cycle that leaves the index right began, ended and changed no wait. */
  lemma CommittedQuietly(engine: Engine, t: Tables, c: Cycle, history: seq<HistoryEntry>)
    requires Good(t, c, history) && RowsKeyed(t) && IndexAgrees(t) && c.form == Background
    requires IndexAgrees(CommittedTables(t, c, history))
    ensures WaitsUntouched(Meaning(c.prev).tokens, Meaning(c.next).tokens)
  {
    var t' := CommittedTables(t, c, history);
    SliceHolds(t, Meaning(c.prev));
    BackgroundCycle(t, c.prev, c.next, history);
    CycleSetting(t, t', c.prev, c.next);
    BackgroundCycleKeepsIndex(t, t', Meaning(c.prev), Meaning(c.next));
  }

  lemma QuietOneMore(log: seq<Cycle>, c: Cycle)
    requires QuietBackground(log)
    requires c.form == Background ==> WaitsUntouched(Meaning(c.prev).tokens, Meaning(c.next).tokens)
    ensures QuietBackground(log + [c])
  {
  }

  lemma QuietBegins(log: seq<Cycle>, more: seq<Cycle>)
    requires log <= more && QuietBackground(more)
    ensures QuietBackground(log)
  {
    forall c | c in log ensures c in more {}
  }

  /** What commits was computed from what is stored. */
  lemma CommittedIsGood(engine: Engine, s: System, a: nat)
    requires Contract(engine) && Inv(engine, s) && a in s.actors && s.actors[a].at.Computed?
    requires RunOps(s.tables, OpsOf(s.actors[a].form, s.actors[a].at.state, s.actors[a].at.next, s.actors[a].at.history)).Committed?
    requires IdsApart(s.tables, Meaning(s.actors[a].at.next))
    ensures Good(s.tables, CycleBy(s, a), s.actors[a].at.history)
  {
    var at := s.actors[a].at;
    assert ActorOK(engine, s.tables, s.actors[a]) && ContractAt(engine, s.actors[a].command, at.draw, at.state);
    if AtVersion(s.tables, at.state.instance) { RunIsProper(engine, s, a); }
    CommitMeansCurrent(s.tables, s.actors[a].form, at.state, at.next, at.history, s.actors[a].instanceId);
  }

  /** What a commit step does when it goes through; otherwise it changes nothing but its actor. */
  ghost predicate Wrote(s: System, s': System, a: nat) {
    && a in s.actors && s.actors[a].at.Computed?
    && RunOps(s.tables, OpsOf(s.actors[a].form, s.actors[a].at.state, s.actors[a].at.next, s.actors[a].at.history)) == Committed(s'.tables)
    && IdsApart(s.tables, Meaning(s.actors[a].at.next)) && s'.log == s.log + [CycleBy(s, a)]
  }

  lemma CommitWritesOrNot(s: System, s': System, a: nat)
    requires Commits(s, s', a)
    ensures Wrote(s, s', a) || s'.log == s.log
  {
  }

  lemma SuccessWasQuiet(engine: Engine, s: System, s': System, a: nat)
    requires Contract(engine) && Inv(engine, s) && IndexAgrees(s.tables) && IndexAgrees(s'.tables)
    requires Wrote(s, s', a) && QuietBackground(s.log)
    ensures QuietBackground(s'.log)
  {
    var c := CycleBy(s, a);
    CommittedIsGood(engine, s, a);
    if c.form == Background { CommittedQuietly(engine, s.tables, c, s.actors[a].at.history); }
    QuietOneMore(s.log, c);
  }

  lemma StepWasQuiet(engine: Engine, s: System, s': System, step: Step)
    requires Contract(engine) && Inv(engine, s) && IndexAgrees(s.tables) && IndexAgrees(s'.tables)
    requires Next(engine, s, s', step) && QuietBackground(s.log)
    ensures QuietBackground(s'.log)
  {
    if step.Commit? {
      CommitWritesOrNot(s, s', step.a);
      if s'.log != s.log { SuccessWasQuiet(engine, s, s', step.a); }
    }
  }

  lemma {:induction false} AgreeingRunsAreQuiet(engine: Engine, states: seq<System>, steps: seq<Step>, k: nat)
    requires Contract(engine) && Run(engine, states, steps) && k < |states|
    requires forall j :: 0 <= j <= k ==> IndexAgrees(states[j].tables)
    ensures QuietBackground(states[k].log)
  {
    if k > 0 {
      AgreeingRunsAreQuiet(engine, states, steps, k - 1);
      RunKeepsInv(engine, states, steps, k - 1);
      assert IndexAgrees(states[k - 1].tables) && IndexAgrees(states[k].tables);
      StepWasQuiet(engine, states[k - 1], states[k], steps[k - 1]);
    }
  }

  lemma {:induction false} LogsGrow(engine: Engine, states: seq<System>, steps: seq<Step>, j: nat, k: nat)
    requires Run(engine, states, steps) && j <= k < |states|
    ensures states[j].log <= states[k].log
    decreases k
  {
    if j < k {
      LogOnlyGrows(engine, states[k - 1], states[k], steps[k - 1]);
      LogsGrow(engine, states, steps, j, k - 1);
    }
  }

  /** The index has been right all along if and only if no background cycle so far began, ended or changed a wait. */
  lemma IndexIffQuiet(engine: Engine, states: seq<System>, steps: seq<Step>, k: nat)
    requires Contract(engine) && KeepsWaits(engine) && Run(engine, states, steps) && k < |states|
    ensures (forall j :: 0 <= j <= k ==> IndexAgrees(states[j].tables)) <==> QuietBackground(states[k].log)
  {
    if QuietBackground(states[k].log) {
      forall j | 0 <= j <= k ensures IndexAgrees(states[j].tables) {
        LogsGrow(engine, states, steps, j, k);
        QuietBegins(states[j].log, states[k].log);
        IndexAlongRuns(engine, states, steps, j);
      }
    }
    if forall j :: 0 <= j <= k ==> IndexAgrees(states[j].tables) {
      AgreeingRunsAreQuiet(engine, states, steps, k);
    }
  }

  // ─── What a background cycle can lose ──────────────────────────────────────

  /** A token that begins to wait in a background cycle is found by a scan and missed by a lookup. */
  lemma BackgroundCycleMisses(t: Tables, t': Tables, prev: Slice, next: Slice, id: Id, kind: WaitKind, name: string)
    requires CycleOf(t, t', prev, next) && t'.subscriptions == t.subscriptions && IndexAgrees(t)
    requires kind in {Message, Signal} && id in next.tokens && AwaitsEvent(next.tokens[id])
    requires next.tokens[id].waitingFor.value.kind == kind
    requires Correlation(next.tokens[id].waitingFor.value, CorrelationKey(kind)) == Some(name)
    requires WaitOf(prev.tokens, id) == None
    ensures id in ScanTokens(t', None, kind, name) && id !in FindSubscriptions(t', None, kind, name)
  {
    assert t'.tokens[id].token == next.tokens[id];
    forall sid | sid in t.subscriptions ensures t.subscriptions[sid].subscription.tokenId != id {
      assert IndexedAt(t, sid);
      IndexRowAfter(t, t', prev, next, sid);
    }
  }
}
