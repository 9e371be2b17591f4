/** The index of waiting tokens in which a message or a signal is looked up (http/engineHelpers.ts). */
module SubscriptionIndex {
  import opened Prelude
  import opened EngineModel
  import opened StateStore
  import opened StoreOps
  import opened Persistence
  import opened RoundTrip

  /** The event a token waits for, as a subscription. */
  function WaitOf(m: map<Id, Token>, id: Id): Option<Subscription> {
    if id in m && AwaitsEvent(m[id]) then Some(SubscriptionOf(m[id])) else None
  }

  /** The row the index should hold under an id: that of a token waiting for an event, if the id names one. */
  function IndexRow(t: Tables, sid: Id): Option<SubscriptionRow> {
    if |sid| >= 4 && SubscriptionId(sid[4..]) == sid && sid[4..] in t.tokens && AwaitsEvent(t.tokens[sid[4..]].token)
    then Some(SubscriptionRow(t.tokens[sid[4..]].instanceId, SubscriptionOf(t.tokens[sid[4..]].token)))
    else None
  }

  ghost predicate IndexedAt(t: Tables, sid: Id) {
    match IndexRow(t, sid)
    case None => sid !in t.subscriptions
    case Some(row) => sid in t.subscriptions && t.subscriptions[sid] == row
  }

  /** The index holds exactly one row for each token that waits for a message or a signal. */
  ghost predicate IndexAgrees(t: Tables) {
    forall sid :: IndexedAt(t, sid)
  }

  // ─── Which cycles keep it ──────────────────────────────────────────────────

  /**
   * A token that goes on waiting waits for the same event, and none that waits for one is dropped.
   * A cycle written by the routes keeps the index exactly when this holds.
   */
  ghost predicate WaitsKept(prev: map<Id, Token>, next: map<Id, Token>) {
    forall id :: id in prev ==> WaitKept(prev, next, id)
  }

  ghost predicate WaitKept(prev: map<Id, Token>, next: map<Id, Token>, id: Id) {
    && (id !in next ==> WaitOf(prev, id) == None)
    && (IsWaiting(prev, id) && IsWaiting(next, id) ==> WaitOf(prev, id) == WaitOf(next, id))
  }

  /** No token begins or ends waiting for an event: what the worker's and the timers' cycles need. */
  ghost predicate WaitsUntouched(prev: map<Id, Token>, next: map<Id, Token>) {
    forall id :: id in next ==> WaitOf(prev, id) == WaitOf(next, id)
  }

  /** The setting of one cycle: the writer's view of the instance's tokens is the stored one. */
  ghost predicate CycleOf(t: Tables, t': Tables, prev: Slice, next: Slice) {
    && Owned(next)
    && prev.tokens == TokensOf(t, next.instance.id)
    && (forall id :: id in t.tokens ==> t.tokens[id].token.id == id)
    && (forall id :: id in next.tokens ==> next.tokens[id].id == id)
    && (forall id :: id in next.tokens && id in t.tokens ==> t.tokens[id].instanceId == next.instance.id)
    && t'.tokens == t.tokens + TokenRows(t.tokens, next.tokens)
  }

  lemma IndexRowAfter(t: Tables, t': Tables, prev: Slice, next: Slice, sid: Id)
    requires CycleOf(t, t', prev, next)
    ensures |sid| >= 4 && SubscriptionId(sid[4..]) == sid && sid[4..] in next.tokens ==>
              IndexRow(t', sid) == match WaitOf(next.tokens, sid[4..])
                                   case None => None
                                   case Some(s) => Some(SubscriptionRow(next.instance.id, s))
    ensures !(|sid| >= 4 && SubscriptionId(sid[4..]) == sid && sid[4..] in next.tokens) ==> IndexRow(t', sid) == IndexRow(t, sid)
    ensures |sid| >= 4 && SubscriptionId(sid[4..]) == sid && (sid[4..] in prev.tokens || sid[4..] in next.tokens) ==>
              IndexRow(t, sid) == match WaitOf(prev.tokens, sid[4..])
                                  case None => None
                                  case Some(s) => Some(SubscriptionRow(next.instance.id, s))
  {
  }

  lemma FullCycleAt(t: Tables, t': Tables, prev: Slice, next: Slice, sid: Id)
    requires CycleOf(t, t', prev, next) && IndexedAt(t, sid)
    requires SubscriptionMoved(t.subscriptions, t'.subscriptions, prev.tokens, next.tokens, sid)
    ensures IndexedAt(t', sid) <==>
            (|sid| >= 4 && SubscriptionId(sid[4..]) == sid && sid[4..] in prev.tokens ==>
               WaitKept(prev.tokens, next.tokens, sid[4..]))
  {
    IndexRowAfter(t, t', prev, next, sid);
  }

  lemma SubscriptionIdCut(id: Id)
    ensures |SubscriptionId(id)| >= 4 && SubscriptionId(id)[4..] == id
  {
  }

  /** A cycle of the routes keeps the index if and only if the waits are kept. */
  lemma FullCycleKeepsIndex(t: Tables, t': Tables, prev: Slice, next: Slice)
    requires CycleOf(t, t', prev, next) && WroteSubscriptions(t, t', prev, next)
    requires IndexAgrees(t)
    ensures IndexAgrees(t') <==> WaitsKept(prev.tokens, next.tokens)
  {
    forall sid ensures IndexedAt(t', sid) <==>
            (|sid| >= 4 && SubscriptionId(sid[4..]) == sid && sid[4..] in prev.tokens ==>
               WaitKept(prev.tokens, next.tokens, sid[4..]))
    {
      assert IndexedAt(t, sid);
      assert SubscriptionMoved(t.subscriptions, t'.subscriptions, prev.tokens, next.tokens, sid);
      FullCycleAt(t, t', prev, next, sid);
    }
    if IndexAgrees(t') {
      forall id | id in prev.tokens ensures WaitKept(prev.tokens, next.tokens, id) {
        SubscriptionIdCut(id);
        assert IndexedAt(t', SubscriptionId(id));
      }
    }
  }

  lemma BackgroundCycleAt(t: Tables, t': Tables, prev: Slice, next: Slice, sid: Id)
    requires CycleOf(t, t', prev, next) && IndexedAt(t, sid) && t'.subscriptions == t.subscriptions
    ensures IndexedAt(t', sid) <==>
            (|sid| >= 4 && SubscriptionId(sid[4..]) == sid && sid[4..] in next.tokens ==>
               WaitOf(prev.tokens, sid[4..]) == WaitOf(next.tokens, sid[4..]))
  {
    IndexRowAfter(t, t', prev, next, sid);
  }

  /** A cycle of the worker or a timer keeps the index if and only if no wait begins, ends or changes. */
  lemma BackgroundCycleKeepsIndex(t: Tables, t': Tables, prev: Slice, next: Slice)
    requires CycleOf(t, t', prev, next) && t'.subscriptions == t.subscriptions
    requires IndexAgrees(t)
    ensures IndexAgrees(t') <==> WaitsUntouched(prev.tokens, next.tokens)
  {
    forall sid ensures IndexedAt(t', sid) <==>
            (|sid| >= 4 && SubscriptionId(sid[4..]) == sid && sid[4..] in next.tokens ==>
               WaitOf(prev.tokens, sid[4..]) == WaitOf(next.tokens, sid[4..]))
    {
      assert IndexedAt(t, sid);
      BackgroundCycleAt(t, t', prev, next, sid);
    }
    if IndexAgrees(t') {
      forall id | id in next.tokens ensures WaitOf(prev.tokens, id) == WaitOf(next.tokens, id) {
        SubscriptionIdCut(id);
        assert IndexedAt(t', SubscriptionId(id));
      }
    }
  }

  // ─── Looking up ────────────────────────────────────────────────────────────

  /** The name a lookup compares: the message's or the signal's, by the kind asked for. */
  function NameOf(s: Subscription, kind: WaitKind): Option<string> {
    if kind == Message then s.messageName else s.signalName
  }

  predicate WithinInstance(within: Option<Id>, i: Id) { within.None? || within.value == i }

  /** `findSubscriptions({ instanceId, type, messageName | signalName })`: the tokens it names. */
  function FindSubscriptions(t: Tables, within: Option<Id>, kind: WaitKind, name: string): set<Id> {
    set sid | sid in t.subscriptions && WithinInstance(within, t.subscriptions[sid].instanceId) && t.subscriptions[sid].subscription.kind == kind
              && NameOf(t.subscriptions[sid].subscription, kind) == Some(name) :: t.subscriptions[sid].subscription.tokenId
  }

  /** The key of the correlation data under which the engine finds the name of the event. */
  function CorrelationKey(kind: WaitKind): string {
    if kind == Message then "messageName" else "signalName"
  }

  /** The same tokens the slow way: every token, of one instance or of all, compared as the engine compares them. */
  function ScanTokens(t: Tables, within: Option<Id>, kind: WaitKind, name: string): set<Id> {
    set id | id in t.tokens && WithinInstance(within, t.tokens[id].instanceId) && t.tokens[id].token.status == Waiting
             && t.tokens[id].token.waitingFor.Some? && t.tokens[id].token.waitingFor.value.kind == kind
             && Correlation(t.tokens[id].token.waitingFor.value, CorrelationKey(kind)) == Some(name)
  }

  /** While the index agrees, a lookup and a scan of all tokens give the same answer. */
  lemma LookupIsScan(t: Tables, within: Option<Id>, kind: WaitKind, name: string)
    requires IndexAgrees(t) && (forall id :: id in t.tokens ==> t.tokens[id].token.id == id)
    requires kind in {Message, Signal}
    ensures FindSubscriptions(t, within, kind, name) == ScanTokens(t, within, kind, name)
  {
    forall id | id in FindSubscriptions(t, within, kind, name) ensures id in ScanTokens(t, within, kind, name) {
      var sid :| sid in t.subscriptions && WithinInstance(within, t.subscriptions[sid].instanceId) && t.subscriptions[sid].subscription.kind == kind
                 && NameOf(t.subscriptions[sid].subscription, kind) == Some(name)
                 && t.subscriptions[sid].subscription.tokenId == id;
      assert IndexedAt(t, sid);
    }
    forall id | id in ScanTokens(t, within, kind, name) ensures id in FindSubscriptions(t, within, kind, name) {
      SubscriptionIdCut(id);
      assert IndexedAt(t, SubscriptionId(id));
    }
  }
}
