/** The tenant's tables, the store operations and their transaction (db/PostgresStateStore.ts). */
module StateStore {
  import opened Prelude
  import opened EngineModel

  /** The row keeps the instance without its version; the version has a column of its own. */
  datatype InstanceRow = InstanceRow(instance: Instance, version: nat)

  /** An upsert never rewrites the `instance_id` column, so it is kept apart from the data. */
  datatype TokenRow = TokenRow(instanceId: Id, token: Token)
  datatype SubscriptionRow = SubscriptionRow(instanceId: Id, subscription: Subscription)

  datatype Tables = Tables(
    instances: map<Id, InstanceRow>,
    tokens: map<Id, TokenRow>,
    scopes: map<Id, Scope>,
    subscriptions: map<Id, SubscriptionRow>,
    joins: map<(Id, Id), Join>,
    compensations: map<(Id, Id), Compensation>,
    history: map<Id, HistoryEntry>,
    timers: map<Id, TimerRow>,
    tasks: map<Id, Task>)

  datatype StoreOperation =
    | CreateInstance(instance: Instance)
    | UpdateInstance(instance: Instance)
    | SaveTokens(tokens: seq<Token>)
    | SaveScope(scope: Scope)
    | CreateUserTask(task: Task)
    | UpdateUserTask(task: Task)
    | SaveSubscription(subscription: Subscription)
    | DeleteSubscription(id: Id)
    | SaveGatewayState(join: Join)
    | DeleteGatewayState(gatewayId: Id, instanceId: Id)
    | AppendHistory(entry: HistoryEntry)
    | SaveTimer(timer: TimerRow)
    | DeleteTimer(id: Id)
    | SaveCompensationRecord(record: Compensation)
    | DeleteCompensationRecord(instanceId: Id, tokenId: Id)

  datatype TxResult =
    | Committed(tables: Tables)
    | ConcurrentModification(instanceId: Id)
    | DuplicateKey

  function WithoutVersion(i: Instance): Instance { i.(version := None) }

  // ─── One operation ─────────────────────────────────────────────────────────

  /** An update applies while the row is at the expected version; of a missing row it does nothing. */
  function UpdateRow(t: Tables, i: Instance): TxResult {
    if i.id !in t.instances then Committed(t)
    else
      var row := t.instances[i.id];
      if i.version.Some? && i.version.value != row.version then ConcurrentModification(i.id)
      else Committed(t.(instances := t.instances[i.id := InstanceRow(WithoutVersion(i), row.version + 1)]))
  }

  function SaveToken(rows: map<Id, TokenRow>, token: Token): map<Id, TokenRow> {
    rows[token.id := TokenRow(if token.id in rows then rows[token.id].instanceId else token.instanceId, token)]
  }

  function SaveTokenRows(rows: map<Id, TokenRow>, tokens: seq<Token>): map<Id, TokenRow> {
    if tokens == [] then rows
    else SaveToken(SaveTokenRows(rows, tokens[..|tokens| - 1]), tokens[|tokens| - 1])
  }

  function SaveSubscriptionRow(rows: map<Id, SubscriptionRow>, s: Subscription): map<Id, SubscriptionRow> {
    rows[s.id := SubscriptionRow(if s.id in rows then rows[s.id].instanceId else s.instanceId, s)]
  }

  function ApplyOp(t: Tables, op: StoreOperation): TxResult {
    match op
    case CreateInstance(i) =>
      if i.id in t.instances then DuplicateKey
      else Committed(t.(instances := t.instances[i.id := InstanceRow(WithoutVersion(i), 1)]))
    case UpdateInstance(i) => UpdateRow(t, i)
    case SaveTokens(ts) => Committed(t.(tokens := SaveTokenRows(t.tokens, ts)))
    case SaveScope(s) => Committed(t.(scopes := t.scopes[s.id := s]))
    case CreateUserTask(task) =>
      if task.id in t.tasks then DuplicateKey else Committed(t.(tasks := t.tasks[task.id := task]))
    case UpdateUserTask(task) =>
      Committed(if task.id in t.tasks then t.(tasks := t.tasks[task.id := task]) else t)
    case SaveSubscription(s) => Committed(t.(subscriptions := SaveSubscriptionRow(t.subscriptions, s)))
    case DeleteSubscription(id) => Committed(t.(subscriptions := t.subscriptions - {id}))
    case SaveGatewayState(j) => Committed(t.(joins := t.joins[JoinKey(j) := j]))
    case DeleteGatewayState(g, i) => Committed(t.(joins := t.joins - {(g, i)}))
    case AppendHistory(e) =>
      Committed(if e.id in t.history then t else t.(history := t.history[e.id := e]))
    case SaveTimer(timer) => Committed(t.(timers := t.timers[timer.id := timer]))
    case DeleteTimer(id) => Committed(t.(timers := t.timers - {id}))
    case SaveCompensationRecord(c) =>
      Committed(if CompensationKey(c) in t.compensations then t
                else t.(compensations := t.compensations[CompensationKey(c) := c]))
    case DeleteCompensationRecord(i, k) => Committed(t.(compensations := t.compensations - {(i, k)}))
  }

  /** One row more or replaced, or one row less, and nothing else. */
  ghost predicate WithRow<K, V>(m: map<K, V>, m': map<K, V>, k: K, v: V) { k in m' && m'[k] == v && m' - {k} == m - {k} }
  ghost predicate WithoutRow<K, V>(m: map<K, V>, m': map<K, V>, k: K) { k !in m' && m' == m - {k} }

  /** The operations that no engine cycle uses by itself: timers and user tasks. A task is created once, and only an existing one updated. */
  lemma TimerAndTaskOps(t: Tables, op: StoreOperation)
    ensures var r := ApplyOp(t, op);
            match op
            case SaveTimer(x) => r.Committed? && r.tables == t.(timers := r.tables.timers) && WithRow(t.timers, r.tables.timers, x.id, x)
            case DeleteTimer(id) => r.Committed? && r.tables == t.(timers := r.tables.timers) && WithoutRow(t.timers, r.tables.timers, id)
            case CreateUserTask(x) =>
              && (r == DuplicateKey <==> x.id in t.tasks)
              && (r != DuplicateKey ==> r.Committed? && r.tables == t.(tasks := r.tables.tasks) && WithRow(t.tasks, r.tables.tasks, x.id, x))
            case UpdateUserTask(x) =>
              && r.Committed? && r.tables == t.(tasks := r.tables.tasks)
              && (x.id in t.tasks ==> WithRow(t.tasks, r.tables.tasks, x.id, x)) && (x.id !in t.tasks ==> r.tables == t)
            case _ => r.Committed? ==> r.tables.timers == t.timers && r.tables.tasks == t.tasks
  {
  }

  // ─── A transaction ─────────────────────────────────────────────────────────

  function RunOps(t: Tables, ops: seq<StoreOperation>): TxResult
    decreases |ops|
  {
    if ops == [] then Committed(t)
    else
      match ApplyOp(t, ops[0])
      case Committed(t1) => RunOps(t1, ops[1..])
      case failed => failed
  }

  lemma {:induction false} RunOpsConcat(t: Tables, a: seq<StoreOperation>, b: seq<StoreOperation>)
    ensures RunOps(t, a + b) ==
            match RunOps(t, a) { case Committed(t1) => RunOps(t1, b) case failed => failed }
    decreases |a|
  {
    if a == [] {
      assert a + b == b;
    } else {
      assert (a + b)[1..] == a[1..] + b;
      match ApplyOp(t, a[0])
      case Committed(t1) => RunOpsConcat(t1, a[1..], b);
      case ConcurrentModification(_) =>
      case DuplicateKey =>
    }
  }

  lemma {:induction false} RunOpsSnoc(t: Tables, a: seq<StoreOperation>, op: StoreOperation)
    requires RunOps(t, a).Committed?
    ensures RunOps(t, a + [op]) == ApplyOp(RunOps(t, a).tables, op)
  {
    RunOpsConcat(t, a, [op]);
    var t1 := RunOps(t, a).tables;
    assert RunOps(t1, [op]) == match ApplyOp(t1, op) { case Committed(t2) => RunOps(t2, []) case failed => failed };
  }

  // ─── Reading an instance back ──────────────────────────────────────────────

  /** The scopes a load asks for: the root's and every token's. */
  function ScopeRefs(i: Instance, tokens: map<Id, Token>): set<Id> {
    {i.rootScopeId} + set id | id in tokens :: tokens[id].scopeId
  }

  function TokensOf(t: Tables, i: Id): map<Id, Token> {
    map id | id in t.tokens && t.tokens[id].instanceId == i :: t.tokens[id].token
  }

  function ScopesIn(t: Tables, refs: set<Id>): map<Id, Scope> {
    map id | id in refs && id in t.scopes :: t.scopes[id]
  }

  function JoinsOf(t: Tables, i: Id): map<(Id, Id), Join> {
    map k | k in t.joins && k.1 == i :: t.joins[k]
  }

  function CompensationsOf(t: Tables, i: Id): map<(Id, Id), Compensation> {
    map k | k in t.compensations && k.0 == i :: t.compensations[k]
  }

  function ReadInstance(t: Tables, i: Id): Option<Instance> {
    if i in t.instances then Some(t.instances[i].instance.(version := Some(t.instances[i].version))) else None
  }

  /** What the store holds about one instance: the meaning of loading it in one go. */
  function SliceOf(t: Tables, i: Id): Option<Slice> {
    match ReadInstance(t, i)
    case None => None
    case Some(instance) =>
      var tokens := TokensOf(t, i);
      Some(Slice(instance, tokens, ScopesIn(t, ScopeRefs(instance, tokens)), JoinsOf(t, i), CompensationsOf(t, i)))
  }

  // ─── The store object ──────────────────────────────────────────────────────

  class PostgresStateStore {
    var tables: Tables

    constructor ()
      ensures tables == Tables(map[], map[], map[], map[], map[], map[], map[], map[], map[])
    {
      tables := Tables(map[], map[], map[], map[], map[], map[], map[], map[], map[]);
    }

    /** All operations, or none of them. */
    method ExecuteTransaction(ops: seq<StoreOperation>) returns (result: TxResult)
      modifies this
      ensures result == RunOps(old(tables), ops)
      ensures result.Committed? ==> tables == result.tables
      ensures !result.Committed? ==> tables == old(tables)
    {
      var before := tables;
      for i := 0 to |ops|
        invariant RunOps(before, ops) == RunOps(tables, ops[i..])
      {
        var step := ApplyOp(tables, ops[i]);
        assert ops[i..][1..] == ops[i + 1..];
        if !step.Committed? {
          tables := before;
          return step;
        }
        tables := step.tables;
      }
      result := Committed(tables);
    }

    method GetInstance(i: Id) returns (found: Option<Instance>)
      ensures found == ReadInstance(tables, i)
    {
      if i !in tables.instances { return None; }
      var row := tables.instances[i];
      found := Some(row.instance.(version := Some(row.version)));
    }

    method GetScope(id: Id) returns (found: Option<Scope>)
      ensures found == if id in tables.scopes then Some(tables.scopes[id]) else None
    {
      found := if id in tables.scopes then Some(tables.scopes[id]) else None;
    }

    /** Rows come back in no particular order. */
    method GetAllTokens(i: Id) returns (rows: seq<Token>)
      requires RowsKeyed(tables)
      ensures ByKey(rows, TokenKey) == TokensOf(tables, i)
      ensures forall t :: t in rows ==> t.id in TokensOf(tables, i) && TokensOf(tables, i)[t.id] == t
      ensures forall a, b :: 0 <= a < b < |rows| ==> rows[a].id != rows[b].id
    {
      var found := TokensOf(tables, i);
      var order := Enumerate(found.Keys);
      rows := Listing(found, order);
      ListingMeansMap(found, order, TokenKey);
    }

    method ListGatewayStates(i: Id) returns (rows: seq<Join>)
      requires RowsKeyed(tables)
      ensures ByKey(rows, JoinKey) == JoinsOf(tables, i)
      ensures forall j :: j in rows ==> j.instanceId == i
    {
      var found := JoinsOf(tables, i);
      var order := Enumerate(found.Keys);
      rows := Listing(found, order);
      ListingMeansMap(found, order, JoinKey);
    }

    /** The earliest first. */
    method ListCompensationRecords(i: Id) returns (rows: seq<Compensation>)
      requires RowsKeyed(tables)
      ensures ByKey(rows, CompensationKey) == CompensationsOf(tables, i)
      ensures forall c :: c in rows ==> c.instanceId == i
      ensures forall a, b :: 0 <= a < b < |rows| ==> rows[a].tokenId != rows[b].tokenId
      ensures forall a, b :: 0 <= a < b < |rows| ==> rows[a].completedAt <= rows[b].completedAt
    {
      var found := CompensationsOf(tables, i);
      var order := EarliestFirst(found);
      rows := Listing(found, order);
      ListingMeansMap(found, order, CompensationKey);
      forall a, b | 0 <= a < b < |rows| ensures rows[a].tokenId != rows[b].tokenId {
        assert order[a] != order[b] && order[a].0 == order[b].0 == i;
      }
    }
  }

  /** The keys of these records, by the time of completion. */
  method EarliestFirst(found: map<(Id, Id), Compensation>) returns (order: seq<(Id, Id)>)
    ensures Distinct(order) && Elements(order) == found.Keys
    ensures forall k :: k in order ==> k in found
    ensures forall a, b :: 0 <= a < b < |order| ==> found[order[a]].completedAt <= found[order[b]].completedAt
  {
    order := [];
    var left := found.Keys;
    while left != {}
      invariant left <= found.Keys
      invariant Distinct(order) && Elements(order) == found.Keys - left
      invariant forall k :: k in order ==> k in found
      invariant forall k, l :: k in order && l in left ==> found[k].completedAt <= found[l].completedAt
      invariant forall a, b :: 0 <= a < b < |order| ==> found[order[a]].completedAt <= found[order[b]].completedAt
    {
      EarliestExists(found, left);
      var x :| x in left && forall y :: y in left ==> found[x].completedAt <= found[y].completedAt;
      assert x !in Elements(order) && Elements(order + [x]) == Elements(order) + {x};
      order, left := order + [x], left - {x};
    }
  }

  lemma {:induction false} EarliestExists(found: map<(Id, Id), Compensation>, left: set<(Id, Id)>)
    requires left <= found.Keys && left != {}
    ensures exists x :: x in left && forall y :: y in left ==> found[x].completedAt <= found[y].completedAt
    decreases left
  {
    var x :| x in left;
    if left != {x} {
      EarliestExists(found, left - {x});
      var e :| e in left - {x} && forall y :: y in left - {x} ==> found[e].completedAt <= found[y].completedAt;
      var least := if found[x].completedAt <= found[e].completedAt then x else e;
      assert forall y :: y in left ==> y == x || y in left - {x};
    }
  }

  /** Every row sits under the key its data carries. */
  ghost predicate RowsKeyed(t: Tables) {
    && (forall id :: id in t.instances ==> t.instances[id].instance.id == id)
    && (forall id :: id in t.tokens ==> t.tokens[id].token.id == id)
    && (forall id :: id in t.scopes ==> t.scopes[id].id == id)
    && (forall k :: k in t.joins ==> JoinKey(t.joins[k]) == k)
    && (forall k :: k in t.compensations ==> CompensationKey(t.compensations[k]) == k)
    && (forall id :: id in t.subscriptions ==> t.subscriptions[id].subscription.id == id)
  }

  lemma {:induction false} SaveTokenRowsKeyed(rows: map<Id, TokenRow>, ts: seq<Token>)
    requires forall id :: id in rows ==> rows[id].token.id == id
    ensures forall id :: id in SaveTokenRows(rows, ts) ==> SaveTokenRows(rows, ts)[id].token.id == id
  {
    if ts != [] { SaveTokenRowsKeyed(rows, ts[..|ts| - 1]); }
  }

  lemma InstanceOpKeepsRowsKeyed(t: Tables, op: StoreOperation)
    requires RowsKeyed(t) && ApplyOp(t, op).Committed? && (op.UpdateInstance? || op.CreateInstance?)
    ensures RowsKeyed(ApplyOp(t, op).tables)
  {
  }

  lemma ApplyOpKeepsRowsKeyed(t: Tables, op: StoreOperation)
    requires RowsKeyed(t) && ApplyOp(t, op).Committed?
    ensures RowsKeyed(ApplyOp(t, op).tables)
  {
    match op
    case SaveTokens(ts) => SaveTokenRowsKeyed(t.tokens, ts);
    case UpdateInstance(_) => InstanceOpKeepsRowsKeyed(t, op);
    case CreateInstance(_) => InstanceOpKeepsRowsKeyed(t, op);
    case _ =>
  }

  lemma {:induction false} RunOpsKeepsRowsKeyed(t: Tables, ops: seq<StoreOperation>)
    requires RowsKeyed(t) && RunOps(t, ops).Committed?
    ensures RowsKeyed(RunOps(t, ops).tables)
    decreases |ops|
  {
    if ops != [] {
      ApplyOpKeepsRowsKeyed(t, ops[0]);
      RunOpsKeepsRowsKeyed(ApplyOp(t, ops[0]).tables, ops[1..]);
    }
  }
}
