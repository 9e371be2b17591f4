/**
 * From an engine result to store operations, and back (http/engineHelpers.ts, with the smaller
 * copies in worker/TaskWorker.ts and scheduler/TimerCoordinator.ts).
 */
module StoreOps {
  import opened Prelude
  import opened EngineModel
  import opened StateStore

  // ─── The operations of one cycle ───────────────────────────────────────────

  function SaveScopeOp(s: Scope): seq<StoreOperation> { [SaveScope(s)] }

  function SaveJoinOp(j: Join): seq<StoreOperation> { [SaveGatewayState(j)] }

  /** The text that stands for a join state when earlier and later ones are compared. */
  function JoinTag(j: Join): string { j.gatewayId + "::" + j.instanceId }

  function DropJoinOp(kept: set<string>): Join -> seq<StoreOperation> {
    (j: Join) => if JoinTag(j) in kept then [] else [DeleteGatewayState(j.gatewayId, j.instanceId)]
  }

  predicate IsWaiting(tokens: map<Id, Token>, id: Id) { id in tokens && tokens[id].status == Waiting }

  function SubscribeOp(prev: map<Id, Token>): Token -> seq<StoreOperation> {
    (t: Token) => if AwaitsEvent(t) && !IsWaiting(prev, t.id) then [SaveSubscription(SubscriptionOf(t))] else []
  }

  function UnsubscribeOp(next: map<Id, Token>): Token -> seq<StoreOperation> {
    (t: Token) => if AwaitsEvent(t) && !IsWaiting(next, t.id) then [DeleteSubscription(SubscriptionId(t.id))] else []
  }

  function SaveCompensationOp(known: set<Id>): Compensation -> seq<StoreOperation> {
    (c: Compensation) => if c.tokenId in known then [] else [SaveCompensationRecord(c)]
  }

  function DropCompensationOp(kept: set<Id>): Compensation -> seq<StoreOperation> {
    (c: Compensation) => if c.tokenId in kept then [] else [DeleteCompensationRecord(c.instanceId, c.tokenId)]
  }

  function AppendHistoryOp(e: HistoryEntry): seq<StoreOperation> { [AppendHistory(e)] }

  function JoinTags(js: seq<Join>): set<string> { set j | j in js :: JoinTag(j) }

  function CompensationTokens(cs: seq<Compensation>): set<Id> { set c | c in cs :: c.tokenId }

  /** Instance, tokens, scopes and join states: what every form of a cycle writes. */
  function CoreOps(first: StoreOperation, prevJoins: seq<Join>, next: EngineState): seq<StoreOperation> {
    [first] + [SaveTokens(next.tokens)]
    + FlatMap(next.scopes, SaveScopeOp)
    + FlatMap(next.joins, SaveJoinOp)
    + FlatMap(prevJoins, DropJoinOp(JoinTags(next.joins)))
  }

  function SubscriptionOps(prev: seq<Token>, next: seq<Token>): seq<StoreOperation> {
    FlatMap(next, SubscribeOp(ByKey(prev, TokenKey))) + FlatMap(prev, UnsubscribeOp(ByKey(next, TokenKey)))
  }

  function CompensationOps(prev: seq<Compensation>, next: seq<Compensation>): seq<StoreOperation> {
    FlatMap(next, SaveCompensationOp(CompensationTokens(prev))) + FlatMap(prev, DropCompensationOp(CompensationTokens(next)))
  }

  /** Subscriptions, compensation records and the step history: what only the routes write, and history. */
  function TailOps(prevTokens: seq<Token>, prevCompensations: seq<Compensation>, next: EngineState,
                   history: seq<HistoryEntry>): seq<StoreOperation>
  {
    SubscriptionOps(prevTokens, next.tokens) + CompensationOps(prevCompensations, next.compensations)
    + FlatMap(history, AppendHistoryOp)
  }

  /** The whole diff: the instance is created or updated, the rest compared with `prev`, if there is one. */
  function DiffOps(isNew: bool, prev: Option<EngineState>, next: EngineState, history: seq<HistoryEntry>): seq<StoreOperation> {
    var first := if isNew then CreateInstance(next.instance) else UpdateInstance(next.instance);
    match prev
    case None => CoreOps(first, [], next) + TailOps([], [], next, history)
    case Some(p) => CoreOps(first, p.joins, next) + TailOps(p.tokens, p.compensations, next, history)
  }

  /** A cycle as the HTTP routes write it; `None` for a process that has just been started. */
  function FullOps(prev: Option<EngineState>, next: EngineState, history: seq<HistoryEntry>): seq<StoreOperation> {
    DiffOps(prev.None?, prev, next, history)
  }

  /** Whether the instance is new decides the first operation, and nothing else. */
  lemma NewDecidesTheFirst(isNew: bool, prev: Option<EngineState>, next: EngineState, history: seq<HistoryEntry>)
    ensures var ops, diff := DiffOps(isNew, prev, next, history), FullOps(prev, next, history);
            && |ops| == |diff| > 0 && ops[1..] == diff[1..]
            && ops[0] == if isNew then CreateInstance(next.instance) else UpdateInstance(next.instance)
  {
    var created, updated := DiffOps(true, prev, next, history), DiffOps(false, prev, next, history);
    assert |created| == |updated|;
    forall i | 1 <= i < |created| ensures created[i] == updated[i] {}
    assert created[1..] == updated[1..];
  }

  /** A cycle as the worker and the timers write it: no subscriptions, no compensation records. */
  function BackgroundOps(prev: EngineState, next: EngineState, history: seq<HistoryEntry>): seq<StoreOperation> {
    CoreOps(UpdateInstance(next.instance), prev.joins, next) + FlatMap(history, AppendHistoryOp)
  }

  // ─── The code that builds them ─────────────────────────────────────────────

  /** `isNew` and `oldState` arrive separately; the routes pass `true` with `null` and `false` with a state. */
  method ComputeStoreOps(isNew: bool, prev: Option<EngineState>, next: EngineState, history: seq<HistoryEntry>)
    returns (ops: seq<StoreOperation>)
    ensures ops == DiffOps(isNew, prev, next, history)
    ensures isNew == prev.None? ==> ops == FullOps(prev, next, history)
  {
    var prevJoins := if prev.Some? then prev.value.joins else [];
    var prevTokens := if prev.Some? then prev.value.tokens else [];
    var prevCompensations := if prev.Some? then prev.value.compensations else [];

    ops := PushCore(if isNew then CreateInstance(next.instance) else UpdateInstance(next.instance), prevJoins, next);

    var prevTokenMap, nextTokenMap := ByKey(prevTokens, TokenKey), ByKey(next.tokens, TokenKey);
    var subscribe := PushEach(next.tokens, SubscribeOp(prevTokenMap));
    var unsubscribe := PushEach(prevTokens, UnsubscribeOp(nextTokenMap));
    var save := PushEach(next.compensations, SaveCompensationOp(CompensationTokens(prevCompensations)));
    var drop := PushEach(prevCompensations, DropCompensationOp(CompensationTokens(next.compensations)));
    var steps := PushEach(history, AppendHistoryOp);
    ops := ops + ((subscribe + unsubscribe) + (save + drop) + steps);
  }

  method BuildStoreOps(prev: EngineState, next: EngineState, history: seq<HistoryEntry>)
    returns (ops: seq<StoreOperation>)
    ensures ops == BackgroundOps(prev, next, history)
  {
    ops := PushCore(UpdateInstance(next.instance), prev.joins, next);
    var steps := PushEach(history, AppendHistoryOp);
    ops := ops + steps;
  }

  method PushCore(first: StoreOperation, prevJoins: seq<Join>, next: EngineState) returns (ops: seq<StoreOperation>)
    ensures ops == CoreOps(first, prevJoins, next)
  {
    ops := [first] + [SaveTokens(next.tokens)];
    var scopes := PushEach(next.scopes, SaveScopeOp);
    var joins := PushEach(next.joins, SaveJoinOp);
    var drops := PushEach(prevJoins, DropJoinOp(JoinTags(next.joins)));
    ops := ops + scopes + joins + drops;
  }

  /** A loop that pushes what each element contributes. */
  method PushEach<T>(xs: seq<T>, f: T -> seq<StoreOperation>) returns (ops: seq<StoreOperation>)
    ensures ops == FlatMap(xs, f)
  {
    ops := [];
    for i := 0 to |xs|
      invariant ops == FlatMap(xs[..i], f)
    {
      FlatMapNext(xs, i, f);
      ops := ops + f(xs[i]);
    }
    assert xs[..|xs|] == xs;
  }

  /** Loads an instance in several queries; here nothing else happens between them. */
  method LoadEngineState(store: PostgresStateStore, i: Id) returns (loaded: Option<EngineState>)
    requires RowsKeyed(store.tables) && RowsAgree(store.tables)
    ensures loaded.None? <==> SliceOf(store.tables, i).None?
    ensures loaded.Some? ==> Coherent(loaded.value) && Some(Meaning(loaded.value)) == SliceOf(store.tables, i)
  {
    var instance := store.GetInstance(i);
    if instance.None? { return None; }
    var tokens := store.GetAllTokens(i);
    var joins := store.ListGatewayStates(i);

    var scopeIds := ScopeIds(instance.value, tokens);
    var scopes := LoadScopes(store, scopeIds);
    var compensations := store.ListCompensationRecords(i);
    loaded := Some(EngineState(instance.value, tokens, scopes, joins, compensations));
  }

  method ScopeIds(i: Instance, tokens: seq<Token>) returns (ids: seq<Id>)
    requires forall a, b :: 0 <= a < b < |tokens| ==> tokens[a].id != tokens[b].id
    ensures Distinct(ids) && Elements(ids) == ScopeRefs(i, ByKey(tokens, TokenKey))
  {
    ids := [i.rootScopeId];
    for k := 0 to |tokens|
      invariant Distinct(ids)
      invariant Elements(ids) == ScopeRefs(i, ByKey(tokens[..k], TokenKey))
    {
      RefsOfPrefix(i, tokens, k);
      if tokens[k].scopeId !in ids {
        assert Elements(ids + [tokens[k].scopeId]) == Elements(ids) + {tokens[k].scopeId};
        ids := ids + [tokens[k].scopeId];
      }
    }
    assert tokens[..|tokens|] == tokens;
  }

  method LoadScopes(store: PostgresStateStore, ids: seq<Id>) returns (scopes: seq<Scope>)
    requires RowsKeyed(store.tables)
    ensures ByKey(scopes, ScopeKey) == ScopesIn(store.tables, Elements(ids))
  {
    scopes := [];
    for k := 0 to |ids|
      invariant ByKey(scopes, ScopeKey) == ScopesIn(store.tables, Elements(ids[..k]))
    {
      var scope := store.GetScope(ids[k]);
      assert Elements(ids[..k + 1]) == Elements(ids[..k]) + {ids[k]};
      if scope.Some? {
        assert (scopes + [scope.value])[..|scopes|] == scopes;
        scopes := scopes + [scope.value];
      }
    }
    assert ids[..|ids|] == ids;
  }

  /** The instance column of a token's row is the instance its data names. */
  ghost predicate RowsAgree(t: Tables) {
    forall id :: id in t.tokens ==> t.tokens[id].token.instanceId == t.tokens[id].instanceId
  }

  lemma RefsOfPrefix(i: Instance, tokens: seq<Token>, k: nat)
    requires k < |tokens|
    requires forall a, b :: 0 <= a < b < |tokens| ==> tokens[a].id != tokens[b].id
    ensures ScopeRefs(i, ByKey(tokens[..k + 1], TokenKey))
         == ScopeRefs(i, ByKey(tokens[..k], TokenKey)) + {tokens[k].scopeId}
  {
    var before, after := ByKey(tokens[..k], TokenKey), ByKey(tokens[..k + 1], TokenKey);
    assert tokens[..k + 1][..k] == tokens[..k];
    assert after == before[tokens[k].id := tokens[k]];
    ByKeyEntries(tokens[..k], TokenKey);
    assert tokens[k].id !in before;
    forall id | id in before ensures after[id].scopeId in ScopeRefs(i, after) {}
    assert tokens[k].id in after;
  }
}
