/** The entities an engine cycle reads and writes (nexus-workflow-core/src/model/types.ts). */
module EngineModel {
  import opened Prelude

  type Id = string
  /** The fields of an entity that no store operation looks at, serialised. */
  type Json = string

  datatype TokenStatus = Active | Waiting | Suspended | Cancelled | Completed

  datatype WaitKind = UserTask | Message | Signal | Timer | External

  datatype Wait = Wait(kind: WaitKind, correlationData: Option<map<string, string>>)

  datatype Token = Token(
    id: Id, instanceId: Id, elementId: Id, elementType: string,
    status: TokenStatus, scopeId: Id, waitingFor: Option<Wait>, data: Json)

  datatype Scope = Scope(id: Id, parentScopeId: Option<Id>, variables: map<string, Json>)

  /** `version` is present on an instance read from the store, absent on a new one. */
  datatype Instance = Instance(id: Id, rootScopeId: Id, data: Json, version: Option<nat>)

  datatype Join = Join(gatewayId: Id, instanceId: Id, data: Json)

  datatype Compensation = Compensation(
    instanceId: Id, tokenId: Id, activityId: Id, handlerId: Id, completedAt: int)

  datatype Subscription = Subscription(
    id: Id, instanceId: Id, tokenId: Id, kind: WaitKind,
    messageName: Option<string>, signalName: Option<string>)

  datatype HistoryEntry = HistoryEntry(id: Id, instanceId: Id, data: Json)

  datatype TimerRow = TimerRow(id: Id, instanceId: Id, tokenId: Id, fireAt: int)

  datatype Task = Task(id: Id, instanceId: Id, tokenId: Id, data: Json)

  /** What the engine takes and returns: one instance with its lists. */
  datatype EngineState = EngineState(
    instance: Instance, tokens: seq<Token>, scopes: seq<Scope>,
    joins: seq<Join>, compensations: seq<Compensation>)

  /** The same, read as a lookup: the meaning of an engine state, whatever the order of its lists. */
  datatype Slice = Slice(
    instance: Instance, tokens: map<Id, Token>, scopes: map<Id, Scope>,
    joins: map<(Id, Id), Join>, compensations: map<(Id, Id), Compensation>)

  function TokenKey(t: Token): Id { t.id }
  function ScopeKey(s: Scope): Id { s.id }
  function JoinKey(j: Join): (Id, Id) { (j.gatewayId, j.instanceId) }
  function CompensationKey(c: Compensation): (Id, Id) { (c.instanceId, c.tokenId) }

  function Meaning(s: EngineState): Slice {
    Slice(s.instance, ByKey(s.tokens, TokenKey), ByKey(s.scopes, ScopeKey), ByKey(s.joins, JoinKey),
          ByKey(s.compensations, CompensationKey))
  }

  /** Every part belongs to the instance, and no list names the same thing twice. */
  ghost predicate Coherent(s: EngineState) {
    && (forall t :: t in s.tokens ==> t.instanceId == s.instance.id)
    && (forall i, j :: 0 <= i < j < |s.tokens| ==> s.tokens[i].id != s.tokens[j].id)
    && (forall j :: j in s.joins ==> j.instanceId == s.instance.id)
    && (forall c :: c in s.compensations ==> c.instanceId == s.instance.id)
    && (forall i, j :: 0 <= i < j < |s.compensations| ==> s.compensations[i].tokenId != s.compensations[j].tokenId)
  }

  /** What `waitingFor.correlationData ?? {}` holds under a name, when it is not empty. */
  function Correlation(w: Wait, name: string): Option<string> {
    if w.correlationData.Some? && name in w.correlationData.value && w.correlationData.value[name] != ""
    then Some(w.correlationData.value[name])
    else None
  }

  /** A token waiting on a message or a signal: what the subscription index has to know about. */
  predicate AwaitsEvent(t: Token) {
    t.status == Waiting && t.waitingFor.Some? && t.waitingFor.value.kind in {Message, Signal}
  }

  function SubscriptionId(tokenId: Id): Id { "sub-" + tokenId }

  lemma SubscriptionIdInjective(a: Id, b: Id)
    requires SubscriptionId(a) == SubscriptionId(b)
    ensures a == b
  {
    assert a == SubscriptionId(a)[4..];
  }

  /** The subscription a waiting token stands for. */
  function SubscriptionOf(t: Token): Subscription
    requires AwaitsEvent(t)
  {
    var w := t.waitingFor.value;
    Subscription(
      SubscriptionId(t.id), t.instanceId, t.id, w.kind,
      if w.kind == Message then Correlation(w, "messageName") else None,
      if w.kind == Signal then Correlation(w, "signalName") else None)
  }
}
