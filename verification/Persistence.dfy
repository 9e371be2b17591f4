/** What the operations of a cycle do to the tables, and what a load then returns. */
module Persistence {
  import opened Prelude
  import opened EngineModel
  import opened StateStore
  import opened StoreOps

  // ─── Each group of operations ──────────────────────────────────────────────

  lemma RunOne(t: Tables, op: StoreOperation)
    ensures RunOps(t, [op]) == ApplyOp(t, op)
  {
    RunOpsSnoc(t, [], op);
    assert [] + [op] == [op];
  }

  lemma PlusPush<K, V>(m: map<K, V>, b: map<K, V>, k: K, v: V)
    ensures (m + b)[k := v] == m + b[k := v]
  {
  }

  lemma {:induction false} RunScopes(t: Tables, ss: seq<Scope>)
    ensures RunOps(t, FlatMap(ss, SaveScopeOp)) == Committed(t.(scopes := t.scopes + ByKey(ss, ScopeKey)))
  {
    if ss == [] {
      assert t.scopes + map[] == t.scopes;
    } else {
      var init, last := ss[..|ss| - 1], ss[|ss| - 1];
      RunScopes(t, init);
      RunOpsSnoc(t, FlatMap(init, SaveScopeOp), SaveScope(last));
      PlusPush(t.scopes, ByKey(init, ScopeKey), last.id, last);
    }
  }

  lemma {:induction false} RunJoinSaves(t: Tables, js: seq<Join>)
    ensures RunOps(t, FlatMap(js, SaveJoinOp)) == Committed(t.(joins := t.joins + ByKey(js, JoinKey)))
  {
    if js == [] {
      assert t.joins + map[] == t.joins;
    } else {
      var init, last := js[..|js| - 1], js[|js| - 1];
      RunJoinSaves(t, init);
      RunOpsSnoc(t, FlatMap(init, SaveJoinOp), SaveGatewayState(last));
      PlusPush(t.joins, ByKey(init, JoinKey), JoinKey(last), last);
    }
  }

  function DroppedJoins(js: seq<Join>, kept: set<string>): set<(Id, Id)> {
    set j | j in js && JoinTag(j) !in kept :: JoinKey(j)
  }

  lemma {:induction false} RunJoinDrops(t: Tables, js: seq<Join>, kept: set<string>)
    ensures RunOps(t, FlatMap(js, DropJoinOp(kept))) == Committed(t.(joins := t.joins - DroppedJoins(js, kept)))
  {
    if js == [] {
      assert t.joins - {} == t.joins;
    } else {
      var init, last := js[..|js| - 1], js[|js| - 1];
      var ops := FlatMap(init, DropJoinOp(kept));
      assert js == init + [last];
      RunJoinDrops(t, init, kept);
      var gone := DroppedJoins(init, kept);
      if JoinTag(last) in kept {
        assert DroppedJoins(js, kept) == gone;
        assert ops + DropJoinOp(kept)(last) == ops;
      } else {
        RunOpsSnoc(t, ops, DeleteGatewayState(last.gatewayId, last.instanceId));
        assert DroppedJoins(js, kept) == gone + {JoinKey(last)};
        MinusMinus(t.joins, gone, {JoinKey(last)});
      }
    }
  }

  function TokenRows(rows: map<Id, TokenRow>, tokens: map<Id, Token>): map<Id, TokenRow> {
    map id | id in tokens :: TokenRow(if id in rows then rows[id].instanceId else tokens[id].instanceId, tokens[id])
  }

  lemma TokenRowsGrow(rows: map<Id, TokenRow>, m: map<Id, Token>, last: Token)
    requires last.id !in m
    ensures SaveToken(rows + TokenRows(rows, m), last) == rows + TokenRows(rows, m[last.id := last])
  {
    var grown := TokenRows(rows, m[last.id := last]);
    assert grown.Keys == TokenRows(rows, m).Keys + {last.id};
    forall id | id in m ensures grown[id] == TokenRows(rows, m)[id] {}
  }

  lemma {:induction false} SaveTokenRowsAs(rows: map<Id, TokenRow>, ts: seq<Token>)
    requires DistinctTokens(ts)
    ensures SaveTokenRows(rows, ts) == rows + TokenRows(rows, ByKey(ts, TokenKey))
  {
    if ts == [] {
      assert rows + TokenRows(rows, map[]) == rows;
    } else {
      var init, last := ts[..|ts| - 1], ts[|ts| - 1];
      SaveTokenRowsAs(rows, init);
      NewTokenKey(ts);
      TokenRowsGrow(rows, ByKey(init, TokenKey), last);
    }
  }

  predicate DistinctTokens(ts: seq<Token>) {
    forall a, b :: 0 <= a < b < |ts| ==> ts[a].id != ts[b].id
  }

  lemma NewTokenKey(ts: seq<Token>)
    requires DistinctTokens(ts) && ts != []
    ensures DistinctTokens(ts[..|ts| - 1])
    ensures ts[|ts| - 1].id !in ByKey(ts[..|ts| - 1], TokenKey)
  {
    ByKeyEntries(ts[..|ts| - 1], TokenKey);
  }

  // ─── Subscriptions ─────────────────────────────────────────────────────────

  /** The token a subscription id stands for, if it begins to wait for an event in this cycle. */
  function BegunToken(prev: map<Id, Token>, next: map<Id, Token>, sid: Id): Option<Token> {
    if |sid| >= 4 && SubscriptionId(sid[4..]) == sid && sid[4..] in next
       && AwaitsEvent(next[sid[4..]]) && !IsWaiting(prev, sid[4..])
    then Some(next[sid[4..]]) else None
  }

  /** The subscription ids of the tokens that waited for an event and wait no more. */
  function Ended(prev: map<Id, Token>, next: map<Id, Token>): set<Id> {
    set id | id in prev && AwaitsEvent(prev[id]) && !IsWaiting(next, id) :: SubscriptionId(id)
  }

  function SubscribeRow(rows: map<Id, SubscriptionRow>, prev: map<Id, Token>, t: Token): map<Id, SubscriptionRow> {
    if AwaitsEvent(t) && !IsWaiting(prev, t.id) then SaveSubscriptionRow(rows, SubscriptionOf(t)) else rows
  }

  function SubscribeRows(rows: map<Id, SubscriptionRow>, prev: map<Id, Token>, ts: seq<Token>): map<Id, SubscriptionRow> {
    if ts == [] then rows else SubscribeRow(SubscribeRows(rows, prev, ts[..|ts| - 1]), prev, ts[|ts| - 1])
  }

  lemma {:induction false} RunSubscribes(t: Tables, ts: seq<Token>, prev: map<Id, Token>)
    ensures RunOps(t, FlatMap(ts, SubscribeOp(prev)))
         == Committed(t.(subscriptions := SubscribeRows(t.subscriptions, prev, ts)))
  {
    if ts != [] {
      var init, last := ts[..|ts| - 1], ts[|ts| - 1];
      var ops := FlatMap(init, SubscribeOp(prev));
      RunSubscribes(t, init, prev);
      if AwaitsEvent(last) && !IsWaiting(prev, last.id) {
        RunOpsSnoc(t, ops, SaveSubscription(SubscriptionOf(last)));
      } else {
        assert ops + SubscribeOp(prev)(last) == ops;
      }
    }
  }

  /** A begun wait puts its row there (a row already there keeps its instance column); nothing else moves. */
  ghost predicate SubscribedAt(before: map<Id, SubscriptionRow>, after: map<Id, SubscriptionRow>,
                               begun: Option<Token>, sid: Id)
  {
    match begun
    case None => (sid in after <==> sid in before) && (sid in before ==> after[sid] == before[sid])
    case Some(t) =>
      AwaitsEvent(t) && sid in after
      && after[sid] == SubscriptionRow(if sid in before then before[sid].instanceId else t.instanceId, SubscriptionOf(t))
  }

  lemma {:induction false} SubscribeRowsAt(rows: map<Id, SubscriptionRow>, prev: map<Id, Token>, ts: seq<Token>, sid: Id)
    requires DistinctTokens(ts)
    ensures SubscribedAt(rows, SubscribeRows(rows, prev, ts), BegunToken(prev, ByKey(ts, TokenKey), sid), sid)
  {
    if ts != [] {
      var init, last := ts[..|ts| - 1], ts[|ts| - 1];
      NewTokenKey(ts);
      SubscribeRowsAt(rows, prev, init, sid);
      var m := ByKey(init, TokenKey);
      if |sid| >= 4 && sid[4..] == last.id && SubscriptionId(sid[4..]) == sid {
        assert BegunToken(prev, m, sid) == None;
      } else {
        assert BegunToken(prev, m[last.id := last], sid) == BegunToken(prev, m, sid);
        assert sid != SubscriptionId(last.id) by {
          assert SubscriptionId(last.id)[4..] == last.id;
        }
      }
    }
  }

  lemma {:induction false} RunUnsubscribes(t: Tables, ts: seq<Token>, next: map<Id, Token>)
    requires DistinctTokens(ts)
    ensures RunOps(t, FlatMap(ts, UnsubscribeOp(next)))
         == Committed(t.(subscriptions := t.subscriptions - Ended(ByKey(ts, TokenKey), next)))
  {
    if ts == [] {
      assert t.subscriptions - {} == t.subscriptions;
    } else {
      var init, last := ts[..|ts| - 1], ts[|ts| - 1];
      var ops := FlatMap(init, UnsubscribeOp(next));
      NewTokenKey(ts);
      RunUnsubscribes(t, init, next);
      var gone := Ended(ByKey(init, TokenKey), next);
      UnsubscribesGrow(ByKey(init, TokenKey), last, next);
      assert FlatMap(ts, UnsubscribeOp(next)) == ops + UnsubscribeOp(next)(last);
      if AwaitsEvent(last) && !IsWaiting(next, last.id) {
        var sid := SubscriptionId(last.id);
        RunOpsSnoc(t, ops, DeleteSubscription(sid));
        MinusMinus(t.subscriptions, gone, {sid});
        assert ApplyOp(t.(subscriptions := t.subscriptions - gone), DeleteSubscription(sid)) ==
          Committed(t.(subscriptions := t.subscriptions - gone - {sid}));
      } else {
        assert gone + {} == gone;
        assert ops + UnsubscribeOp(next)(last) == ops;
      }
    }
  }

  lemma MinusMinus<K, V>(m: map<K, V>, a: set<K>, b: set<K>)
    ensures m - a - b == m - (a + b)
  {
  }

  lemma UnsubscribesGrow(m: map<Id, Token>, last: Token, next: map<Id, Token>)
    requires last.id !in m
    ensures Ended(m[last.id := last], next) ==
            Ended(m, next) + if AwaitsEvent(last) && !IsWaiting(next, last.id) then {SubscriptionId(last.id)} else {}
  {
    var m' := m[last.id := last];
    forall sid | sid in Ended(m, next) ensures sid in Ended(m', next) {
      var id :| id in m && AwaitsEvent(m[id]) && !IsWaiting(next, id) && sid == SubscriptionId(id);
      assert m'[id] == m[id];
    }
    if AwaitsEvent(last) && !IsWaiting(next, last.id) {
      assert m'[last.id] == last;
    }
  }

  // ─── Compensation records ──────────────────────────────────────────────────

  function NewCompensations(cs: map<(Id, Id), Compensation>, known: set<Id>): map<(Id, Id), Compensation> {
    map k | k in cs && cs[k].tokenId !in known :: cs[k]
  }

  predicate DistinctCompensations(cs: seq<Compensation>) {
    forall a, b :: 0 <= a < b < |cs| ==> cs[a].tokenId != cs[b].tokenId
  }

  lemma SaveOneCompensation(t: Tables, ops: seq<StoreOperation>, table: map<(Id, Id), Compensation>, c: Compensation)
    requires RunOps(t, ops) == Committed(t.(compensations := table))
    ensures RunOps(t, ops + [SaveCompensationRecord(c)]) ==
              Committed(t.(compensations := if CompensationKey(c) in table then table else table[CompensationKey(c) := c]))
  {
    RunOpsSnoc(t, ops, SaveCompensationRecord(c));
  }

  lemma DropOneCompensation(t: Tables, ops: seq<StoreOperation>, table: map<(Id, Id), Compensation>, c: Compensation)
    requires RunOps(t, ops) == Committed(t.(compensations := table))
    ensures RunOps(t, ops + [DeleteCompensationRecord(c.instanceId, c.tokenId)]) ==
              Committed(t.(compensations := table - {CompensationKey(c)}))
  {
    RunOpsSnoc(t, ops, DeleteCompensationRecord(c.instanceId, c.tokenId));
  }

  lemma {:induction false} RunCompensationSaves(t: Tables, cs: seq<Compensation>, known: set<Id>)
    requires DistinctCompensations(cs)
    ensures RunOps(t, FlatMap(cs, SaveCompensationOp(known)))
         == Committed(t.(compensations := NewCompensations(ByKey(cs, CompensationKey), known) + t.compensations))
  {
    if cs == [] {
      assert NewCompensations(map[], known) + t.compensations == t.compensations;
    } else {
      var init, last := cs[..|cs| - 1], cs[|cs| - 1];
      var ops := FlatMap(init, SaveCompensationOp(known));
      RunCompensationSaves(t, init, known);
      ByKeyEntries(init, CompensationKey);
      CompensationsGrow(t.compensations, ByKey(init, CompensationKey), known, last);
      assert FlatMap(cs, SaveCompensationOp(known)) == ops + SaveCompensationOp(known)(last);
      if last.tokenId in known {
        assert ops + SaveCompensationOp(known)(last) == ops;
      } else {
        SaveOneCompensation(t, ops, NewCompensations(ByKey(init, CompensationKey), known) + t.compensations, last);
      }
    }
  }

  lemma CompensationsGrow(table: map<(Id, Id), Compensation>, m: map<(Id, Id), Compensation>,
                          known: set<Id>, last: Compensation)
    requires CompensationKey(last) !in m
    ensures var before := NewCompensations(m, known) + table;
            NewCompensations(m[CompensationKey(last) := last], known) + table ==
            if last.tokenId in known || CompensationKey(last) in before then before
            else before[CompensationKey(last) := last]
  {
    var m' := m[CompensationKey(last) := last];
    forall k | k in m ensures m'[k] == m[k] {}
    assert NewCompensations(m', known).Keys ==
      NewCompensations(m, known).Keys + if last.tokenId in known then {} else {CompensationKey(last)};
  }

  function DroppedCompensations(cs: seq<Compensation>, kept: set<Id>): set<(Id, Id)> {
    set c | c in cs && c.tokenId !in kept :: CompensationKey(c)
  }

  lemma {:induction false} RunCompensationDrops(t: Tables, cs: seq<Compensation>, kept: set<Id>)
    ensures RunOps(t, FlatMap(cs, DropCompensationOp(kept)))
         == Committed(t.(compensations := t.compensations - DroppedCompensations(cs, kept)))
  {
    if cs == [] {
      assert t.compensations - {} == t.compensations;
    } else {
      var init, last := cs[..|cs| - 1], cs[|cs| - 1];
      var ops := FlatMap(init, DropCompensationOp(kept));
      RunCompensationDrops(t, init, kept);
      var gone := DroppedCompensations(init, kept);
      DropsGrow(init, last, kept);
      assert cs == init + [last];
      assert FlatMap(cs, DropCompensationOp(kept)) == ops + DropCompensationOp(kept)(last);
      if last.tokenId in kept {
        assert ops + DropCompensationOp(kept)(last) == ops;
        assert gone + {} == gone;
      } else {
        DropOneCompensation(t, ops, t.compensations - gone, last);
        MinusMinus(t.compensations, gone, {CompensationKey(last)});
      }
    }
  }

  lemma DropsGrow(init: seq<Compensation>, last: Compensation, kept: set<Id>)
    ensures DroppedCompensations(init + [last], kept) ==
            DroppedCompensations(init, kept) + if last.tokenId in kept then {} else {CompensationKey(last)}
  {
  }

  // ─── History ───────────────────────────────────────────────────────────────

  /** An entry already written is left alone; a new one is added once. */
  ghost predicate Appended(before: map<Id, HistoryEntry>, after: map<Id, HistoryEntry>, entries: seq<HistoryEntry>) {
    && after.Keys == before.Keys + (set e | e in entries :: e.id)
    && (forall id :: id in before ==> after[id] == before[id])
    && (forall id :: id in after && id !in before ==> after[id] in entries && after[id].id == id)
  }

  lemma {:induction false} RunHistory(t: Tables, entries: seq<HistoryEntry>)
    ensures RunOps(t, FlatMap(entries, AppendHistoryOp)).Committed?
    ensures var t' := RunOps(t, FlatMap(entries, AppendHistoryOp)).tables;
            t' == t.(history := t'.history) && Appended(t.history, t'.history, entries)
  {
    if entries != [] {
      var init, last := entries[..|entries| - 1], entries[|entries| - 1];
      RunHistory(t, init);
      var t1 := RunOps(t, FlatMap(init, AppendHistoryOp)).tables;
      RunOpsSnoc(t, FlatMap(init, AppendHistoryOp), AppendHistory(last));
      AppendedStep(t.history, t1.history, init, last);
      assert entries == init + [last];
    }
  }

  lemma AppendedStep(before: map<Id, HistoryEntry>, after: map<Id, HistoryEntry>,
                     init: seq<HistoryEntry>, last: HistoryEntry)
    requires Appended(before, after, init)
    ensures Appended(before, if last.id in after then after else after[last.id := last], init + [last])
  {
    var entries := init + [last];
    assert (set e | e in entries :: e.id) == (set e | e in init :: e.id) + {last.id};
  }

  // ─── A whole cycle ─────────────────────────────────────────────────────────

  function JoinsAfter(table: map<(Id, Id), Join>, prev: map<(Id, Id), Join>, next: map<(Id, Id), Join>): map<(Id, Id), Join> {
    table + next - (prev.Keys - next.Keys)
  }

  function CompensationsAfter(table: map<(Id, Id), Compensation>, prev: map<(Id, Id), Compensation>,
                              next: map<(Id, Id), Compensation>): map<(Id, Id), Compensation>
  {
    (map k | k in next && k !in prev :: next[k]) + table - (prev.Keys - next.Keys)
  }

  predicate EndedToken(prev: map<Id, Token>, next: map<Id, Token>, sid: Id) {
    |sid| >= 4 && SubscriptionId(sid[4..]) == sid && sid[4..] in prev
    && AwaitsEvent(prev[sid[4..]]) && !IsWaiting(next, sid[4..])
  }

  /** What happens to one row of the subscription index. */
  ghost predicate SubscriptionMoved(before: map<Id, SubscriptionRow>, after: map<Id, SubscriptionRow>,
                                    prev: map<Id, Token>, next: map<Id, Token>, sid: Id)
  {
    if EndedToken(prev, next, sid) then sid !in after
    else SubscribedAt(before, after, BegunToken(prev, next, sid), sid)
  }

  /** The instance row after an update from this version: nothing, if the instance is gone. */
  function Updated(t: Tables, next: Instance): map<Id, InstanceRow> {
    if next.id in t.instances
    then t.instances[next.id := InstanceRow(WithoutVersion(next), t.instances[next.id].version + 1)]
    else t.instances
  }

  /** Tokens, scopes and join states after a cycle; the same for every actor. */
  ghost predicate WroteCore(t: Tables, t': Tables, prev: Slice, next: Slice, history: seq<HistoryEntry>) {
    && t'.tokens == t.tokens + TokenRows(t.tokens, next.tokens)
    && t'.scopes == t.scopes + next.scopes
    && t'.joins == JoinsAfter(t.joins, prev.joins, next.joins)
    && Appended(t.history, t'.history, history)
    && t'.timers == t.timers && t'.tasks == t.tasks
  }

  ghost predicate WroteCompensations(t: Tables, t': Tables, prev: Slice, next: Slice) {
    t'.compensations == CompensationsAfter(t.compensations, prev.compensations, next.compensations)
  }

  ghost predicate WroteSubscriptions(t: Tables, t': Tables, prev: Slice, next: Slice) {
    forall sid :: SubscriptionMoved(t.subscriptions, t'.subscriptions, prev.tokens, next.tokens, sid)
  }

  lemma JoinTagInjective(a: Join, b: Join)
    requires a.instanceId == b.instanceId
    ensures JoinTag(a) == JoinTag(b) <==> a.gatewayId == b.gatewayId
  {
    assert |JoinTag(a)| == |a.gatewayId| + 2 + |a.instanceId|;
    assert |JoinTag(b)| == |b.gatewayId| + 2 + |b.instanceId|;
    if JoinTag(a) == JoinTag(b) {
      assert a.gatewayId == JoinTag(a)[..|a.gatewayId|];
      assert b.gatewayId == JoinTag(b)[..|b.gatewayId|];
    }
  }

  /** Comparing texts drops exactly the join states that are no longer there. */
  lemma DroppedJoinsAre(prev: seq<Join>, next: seq<Join>, i: Id)
    requires forall j :: j in prev ==> j.instanceId == i
    requires forall j :: j in next ==> j.instanceId == i
    ensures DroppedJoins(prev, JoinTags(next)) == ByKey(prev, JoinKey).Keys - ByKey(next, JoinKey).Keys
  {
    ByKeyEntries(prev, JoinKey);
    ByKeyEntries(next, JoinKey);
    var n := ByKey(next, JoinKey);
    forall j | j in prev ensures JoinTag(j) in JoinTags(next) <==> JoinKey(j) in n {
      if JoinKey(j) in n {
        JoinTagInjective(n[JoinKey(j)], j);
        assert n[JoinKey(j)] in next;
      }
      if JoinTag(j) in JoinTags(next) {
        var same :| same in next && JoinTag(same) == JoinTag(j);
        JoinTagInjective(same, j);
        assert JoinKey(same) == JoinKey(j);
      }
    }
  }

  lemma RunCore(t: Tables, first: StoreOperation, prev: seq<Join>, next: EngineState, i: Id)
    requires ApplyOp(t, first).Committed?
    requires forall j :: j in prev ==> j.instanceId == i
    requires Coherent(next) && next.instance.id == i
    ensures var t1 := ApplyOp(t, first).tables;
            RunOps(t, CoreOps(first, prev, next)) == Committed(t1.(
              tokens := t1.tokens + TokenRows(t1.tokens, ByKey(next.tokens, TokenKey)),
              scopes := t1.scopes + ByKey(next.scopes, ScopeKey),
              joins := JoinsAfter(t1.joins, ByKey(prev, JoinKey), ByKey(next.joins, JoinKey))))
  {
    RunOne(t, first);
    var t1 := ApplyOp(t, first).tables;
    RunOpsSnoc(t, [first], SaveTokens(next.tokens));
    SaveTokenRowsAs(t1.tokens, next.tokens);
    var t2 := t1.(tokens := t1.tokens + TokenRows(t1.tokens, ByKey(next.tokens, TokenKey)));
    RunScopes(t2, next.scopes);
    RunOpsConcat(t, [first] + [SaveTokens(next.tokens)], FlatMap(next.scopes, SaveScopeOp));
    var t3 := t2.(scopes := t2.scopes + ByKey(next.scopes, ScopeKey));
    RunJoinSaves(t3, next.joins);
    RunOpsConcat(t, [first] + [SaveTokens(next.tokens)] + FlatMap(next.scopes, SaveScopeOp), FlatMap(next.joins, SaveJoinOp));
    var t4 := t3.(joins := t3.joins + ByKey(next.joins, JoinKey));
    RunJoinDrops(t4, prev, JoinTags(next.joins));
    DroppedJoinsAre(prev, next.joins, i);
    RunOpsConcat(t, [first] + [SaveTokens(next.tokens)] + FlatMap(next.scopes, SaveScopeOp) + FlatMap(next.joins, SaveJoinOp),
                 FlatMap(prev, DropJoinOp(JoinTags(next.joins))));
  }

  lemma RunSubscriptionOps(t: Tables, prev: seq<Token>, next: seq<Token>)
    requires DistinctTokens(prev) && DistinctTokens(next)
    ensures RunOps(t, SubscriptionOps(prev, next)).Committed?
    ensures var t' := RunOps(t, SubscriptionOps(prev, next)).tables;
            t' == t.(subscriptions := t'.subscriptions)
            && forall sid :: SubscriptionMoved(t.subscriptions, t'.subscriptions, ByKey(prev, TokenKey), ByKey(next, TokenKey), sid)
  {
    var p, n := ByKey(prev, TokenKey), ByKey(next, TokenKey);
    RunSubscribes(t, next, p);
    var mid := SubscribeRows(t.subscriptions, p, next);
    RunUnsubscribes(t.(subscriptions := mid), prev, n);
    RunOpsConcat(t, FlatMap(next, SubscribeOp(p)), FlatMap(prev, UnsubscribeOp(n)));
    forall sid ensures SubscriptionMoved(t.subscriptions, mid - Ended(p, n), p, n, sid) {
      SubscribeRowsAt(t.subscriptions, p, next, sid);
      EndedIs(p, n, sid);
    }
  }

  lemma EndedIs(prev: map<Id, Token>, next: map<Id, Token>, sid: Id)
    ensures sid in Ended(prev, next) <==> EndedToken(prev, next, sid)
  {
    if sid in Ended(prev, next) {
      var id :| id in prev && AwaitsEvent(prev[id]) && !IsWaiting(next, id) && sid == SubscriptionId(id);
      assert SubscriptionId(id)[4..] == id;
    }
  }

  lemma RunCompensationOps(t: Tables, prev: seq<Compensation>, next: seq<Compensation>, i: Id)
    requires DistinctCompensations(prev) && DistinctCompensations(next)
    requires forall c :: c in prev ==> c.instanceId == i
    requires forall c :: c in next ==> c.instanceId == i
    ensures RunOps(t, CompensationOps(prev, next)) == Committed(t.(compensations :=
              CompensationsAfter(t.compensations, ByKey(prev, CompensationKey), ByKey(next, CompensationKey))))
  {
    var p, n := ByKey(prev, CompensationKey), ByKey(next, CompensationKey);
    RunCompensationSaves(t, next, CompensationTokens(prev));
    var t1 := t.(compensations := NewCompensations(n, CompensationTokens(prev)) + t.compensations);
    RunCompensationDrops(t1, prev, CompensationTokens(next));
    RunOpsConcat(t, FlatMap(next, SaveCompensationOp(CompensationTokens(prev))),
                 FlatMap(prev, DropCompensationOp(CompensationTokens(next))));
    CompensationSetsAre(prev, next, i);
  }

  lemma CompensationSetsAre(prev: seq<Compensation>, next: seq<Compensation>, i: Id)
    requires forall c :: c in prev ==> c.instanceId == i
    requires forall c :: c in next ==> c.instanceId == i
    ensures var p, n := ByKey(prev, CompensationKey), ByKey(next, CompensationKey);
            NewCompensations(n, CompensationTokens(prev)) == (map k | k in n && k !in p :: n[k])
            && DroppedCompensations(prev, CompensationTokens(next)) == p.Keys - n.Keys
  {
    var p, n := ByKey(prev, CompensationKey), ByKey(next, CompensationKey);
    KeysAreTokens(prev, i);
    KeysAreTokens(next, i);
    ByKeyEntries(prev, CompensationKey);
    ByKeyEntries(next, CompensationKey);
    forall k | k in n ensures n[k].tokenId in CompensationTokens(prev) <==> k in p {
      assert CompensationKey(n[k]) == k;
    }
    forall k | k in p ensures p[k].tokenId in CompensationTokens(next) <==> k in n {
      assert CompensationKey(p[k]) == k;
    }
  }

  lemma KeysAreTokens(cs: seq<Compensation>, i: Id)
    requires forall c :: c in cs ==> c.instanceId == i
    ensures forall id :: id in CompensationTokens(cs) <==> (i, id) in ByKey(cs, CompensationKey)
    ensures forall k :: k in ByKey(cs, CompensationKey) ==> k.0 == i
  {
    ByKeyEntries(cs, CompensationKey);
    forall id | id in CompensationTokens(cs) ensures (i, id) in ByKey(cs, CompensationKey) {
      var c :| c in cs && c.tokenId == id;
      assert CompensationKey(c) in ByKey(cs, CompensationKey);
    }
    forall id | (i, id) in ByKey(cs, CompensationKey) ensures id in CompensationTokens(cs) {
      var c := ByKey(cs, CompensationKey)[(i, id)];
      assert c in cs && CompensationKey(c) == (i, id);
    }
  }

  // ─── The two forms of a cycle ──────────────────────────────────────────────

  /** The writer still holds the version it read: what the update is guarded by. */
  predicate VersionHolds(t: Tables, i: Instance) {
    i.id in t.instances && i.version.Some? ==> i.version.value == t.instances[i.id].version
  }

  /** Everything after the core: subscriptions, compensation records, history. */
  lemma RunTail(t: Tables, prev: EngineState, next: EngineState, history: seq<HistoryEntry>)
    requires Coherent(prev) && Coherent(next) && prev.instance.id == next.instance.id
    ensures RunOps(t, TailOps(prev.tokens, prev.compensations, next, history)).Committed?
    ensures var t' := RunOps(t, TailOps(prev.tokens, prev.compensations, next, history)).tables;
            && t' == t.(subscriptions := t'.subscriptions, compensations := t'.compensations, history := t'.history)
            && Appended(t.history, t'.history, history)
            && WroteCompensations(t, t', Meaning(prev), Meaning(next))
            && WroteSubscriptions(t, t', Meaning(prev), Meaning(next))
  {
    var subs, comps := SubscriptionOps(prev.tokens, next.tokens), CompensationOps(prev.compensations, next.compensations);
    RunOpsConcat(t, subs + comps, FlatMap(history, AppendHistoryOp));
    RunOpsConcat(t, subs, comps);
    RunSubscriptionOps(t, prev.tokens, next.tokens);
    var t1 := RunOps(t, subs).tables;
    RunCompensationOps(t1, prev.compensations, next.compensations, next.instance.id);
    RunHistory(RunOps(t1, comps).tables, history);
  }

  /** A cycle is refused exactly when its version is stale; otherwise it leaves the tables as stated. */
  lemma FullCycle(t: Tables, prev: EngineState, next: EngineState, history: seq<HistoryEntry>)
    requires Coherent(prev) && Coherent(next) && prev.instance.id == next.instance.id
    ensures !VersionHolds(t, next.instance) ==>
              RunOps(t, FullOps(Some(prev), next, history)) == ConcurrentModification(next.instance.id)
    ensures VersionHolds(t, next.instance) ==>
              var result := RunOps(t, FullOps(Some(prev), next, history));
              && result.Committed?
              && result.tables.instances == Updated(t, next.instance)
              && WroteCore(t, result.tables, Meaning(prev), Meaning(next), history)
              && WroteCompensations(t, result.tables, Meaning(prev), Meaning(next))
              && WroteSubscriptions(t, result.tables, Meaning(prev), Meaning(next))
  {
    var first := UpdateInstance(next.instance);
    var core, tail := CoreOps(first, prev.joins, next), TailOps(prev.tokens, prev.compensations, next, history);
    RunOpsConcat(t, core, tail);
    UpdateApplies(t, next.instance);
    if VersionHolds(t, next.instance) {
      RunCore(t, first, prev.joins, next, next.instance.id);
      var t1 := RunOps(t, core).tables;
      assert t1.instances == Updated(t, next.instance);
      RunTail(t1, prev, next, history);
    } else {
      RefusedFirst(t, first, core);
    }
  }

  lemma UpdateApplies(t: Tables, i: Instance)
    ensures ApplyOp(t, UpdateInstance(i)) ==
            if VersionHolds(t, i) then Committed(t.(instances := Updated(t, i))) else ConcurrentModification(i.id)
  {
  }

  lemma RefusedFirst(t: Tables, first: StoreOperation, ops: seq<StoreOperation>)
    requires ops != [] && ops[0] == first && !ApplyOp(t, first).Committed?
    ensures RunOps(t, ops) == ApplyOp(t, first)
  {
  }

  lemma BackgroundCycle(t: Tables, prev: EngineState, next: EngineState, history: seq<HistoryEntry>)
    requires Coherent(prev) && Coherent(next) && prev.instance.id == next.instance.id
    ensures !VersionHolds(t, next.instance) ==>
              RunOps(t, BackgroundOps(prev, next, history)) == ConcurrentModification(next.instance.id)
    ensures VersionHolds(t, next.instance) ==>
              var result := RunOps(t, BackgroundOps(prev, next, history));
              && result.Committed?
              && result.tables.instances == Updated(t, next.instance)
              && WroteCore(t, result.tables, Meaning(prev), Meaning(next), history)
              && result.tables.compensations == t.compensations
              && result.tables.subscriptions == t.subscriptions
  {
    var first := UpdateInstance(next.instance);
    var core, steps := CoreOps(first, prev.joins, next), FlatMap(history, AppendHistoryOp);
    RunOpsConcat(t, core, steps);
    UpdateApplies(t, next.instance);
    if VersionHolds(t, next.instance) {
      RunCore(t, first, prev.joins, next, next.instance.id);
      var t1 := RunOps(t, core).tables;
      assert t1.instances == Updated(t, next.instance) && t1.compensations == t.compensations && t1.subscriptions == t.subscriptions;
      RunHistory(t1, history);
    } else {
      RefusedFirst(t, first, core);
    }
  }

  /** Starting a process: refused if the id is taken, else the instance row appears at version 1. */
  lemma StartCycle(t: Tables, next: EngineState, history: seq<HistoryEntry>)
    requires Coherent(next)
    ensures next.instance.id in t.instances ==> RunOps(t, FullOps(None, next, history)) == DuplicateKey
    ensures next.instance.id !in t.instances ==>
              var result := RunOps(t, FullOps(None, next, history));
              && result.Committed?
              && result.tables.instances == t.instances[next.instance.id := InstanceRow(WithoutVersion(next.instance), 1)]
              && WroteCore(t, result.tables, Meaning(Nothing(next.instance)), Meaning(next), history)
              && WroteCompensations(t, result.tables, Meaning(Nothing(next.instance)), Meaning(next))
              && WroteSubscriptions(t, result.tables, Meaning(Nothing(next.instance)), Meaning(next))
  {
    var first, prev := CreateInstance(next.instance), Nothing(next.instance);
    var core, tail := CoreOps(first, [], next), TailOps([], [], next, history);
    RunOpsConcat(t, core, tail);
    if next.instance.id !in t.instances {
      RunCore(t, first, [], next, next.instance.id);
      RunTail(RunOps(t, core).tables, prev, next, history);
    } else {
      RefusedFirst(t, first, core);
    }
  }

  /** The lists a process starts from. */
  function Nothing(i: Instance): EngineState { EngineState(i, [], [], [], []) }
}
