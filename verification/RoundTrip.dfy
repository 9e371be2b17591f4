/** Diff, apply, load: when it is the identity, and what it never touches. */
module RoundTrip {
  import opened Prelude
  import opened EngineModel
  import opened StateStore
  import opened StoreOps
  import opened Persistence

  /** The state as it reads after the update: one version later. */
  function Stamped(s: Slice, version: nat): Slice {
    s.(instance := s.instance.(version := Some(version)))
  }

  /** What a caller can check before the write; see `FullRoundTrip`. */
  ghost predicate Recoverable(t: Tables, prev: Slice, next: Slice) {
    && RecoverableCore(t, prev, next)
    && (forall k :: k in prev.compensations && k in next.compensations ==> prev.compensations[k] == next.compensations[k])
  }

  ghost predicate RecoverableCore(t: Tables, prev: Slice, next: Slice) {
    && prev.tokens.Keys <= next.tokens.Keys
    && (forall id :: id in next.tokens && id in t.tokens ==> t.tokens[id].instanceId == next.instance.id)
    && next.scopes.Keys <= ScopeRefs(next.instance, next.tokens)
    && (forall id :: id in ScopeRefs(next.instance, next.tokens) && id in t.scopes ==> id in next.scopes)
  }

  /** Every part carries the id of the instance it belongs to. */
  ghost predicate Owned(s: Slice) {
    && (forall id :: id in s.tokens ==> s.tokens[id].instanceId == s.instance.id)
    && (forall k :: k in s.joins ==> k.1 == s.instance.id)
    && (forall k :: k in s.compensations ==> k.0 == s.instance.id)
  }

  lemma CoherentOwned(s: EngineState)
    requires Coherent(s)
    ensures Owned(Meaning(s))
  {
    ByKeyEntries(s.tokens, TokenKey);
    ByKeyEntries(s.joins, JoinKey);
    ByKeyEntries(s.compensations, CompensationKey);
  }

  /** The rows an upsert leaves: a token keeps the instance column it was first written with. */
  lemma TokenRowAfter(t: Tables, t': Tables, next: Slice, id: Id)
    requires t'.tokens == t.tokens + TokenRows(t.tokens, next.tokens)
    ensures id in TokensOf(t', next.instance.id) <==>
              if id in t.tokens then t.tokens[id].instanceId == next.instance.id
              else id in next.tokens && next.tokens[id].instanceId == next.instance.id
    ensures id in TokensOf(t', next.instance.id) ==>
              TokensOf(t', next.instance.id)[id] == if id in next.tokens then next.tokens[id] else t.tokens[id].token
  {
  }

  lemma TokensReadBack(t: Tables, t': Tables, prev: Slice, next: Slice)
    requires Owned(next) && t'.tokens == t.tokens + TokenRows(t.tokens, next.tokens)
    requires prev.tokens == TokensOf(t, next.instance.id)
    ensures TokensOf(t', next.instance.id) == next.tokens <==>
            && prev.tokens.Keys <= next.tokens.Keys
            && (forall id :: id in next.tokens && id in t.tokens ==> t.tokens[id].instanceId == next.instance.id)
  {
    var read := TokensOf(t', next.instance.id);
    forall id ensures (id in read <==> if id in t.tokens then id in prev.tokens else id in next.tokens)
                      && (id in read && id in next.tokens ==> read[id] == next.tokens[id]) {
      TokenRowAfter(t, t', next, id);
    }
    if read == next.tokens {
      forall id | id in next.tokens && id in t.tokens ensures id in prev.tokens {
        assert id in read;
      }
      forall id | id in prev.tokens ensures id in next.tokens {
        assert id in read;
      }
    }
  }

  lemma JoinsReadBack(t: Tables, t': Tables, prev: Slice, next: Slice)
    requires Owned(next) && t'.joins == JoinsAfter(t.joins, prev.joins, next.joins)
    requires prev.joins == JoinsOf(t, next.instance.id)
    ensures JoinsOf(t', next.instance.id) == next.joins
  {
    assert JoinsOf(t', next.instance.id).Keys == next.joins.Keys;
  }

  lemma CompensationsReadBack(t: Tables, t': Tables, prev: Slice, next: Slice)
    requires Owned(next)
    requires t'.compensations == CompensationsAfter(t.compensations, prev.compensations, next.compensations)
    requires prev.compensations == CompensationsOf(t, next.instance.id)
    ensures CompensationsOf(t', next.instance.id) == next.compensations <==>
            forall k :: k in prev.compensations && k in next.compensations ==> prev.compensations[k] == next.compensations[k]
  {
    var read := CompensationsOf(t', next.instance.id);
    assert read.Keys == next.compensations.Keys;
    forall k | k in next.compensations
      ensures read[k] == if k in prev.compensations then prev.compensations[k] else next.compensations[k]
    {
    }
  }

  lemma ScopesReadBack(t: Tables, t': Tables, next: Slice)
    requires t'.scopes == t.scopes + next.scopes
    ensures var refs := ScopeRefs(next.instance, next.tokens);
            ScopesIn(t', refs) == next.scopes <==>
            next.scopes.Keys <= refs && forall id :: id in refs && id in t.scopes ==> id in next.scopes
  {
    var refs := ScopeRefs(next.instance, next.tokens);
    var read := ScopesIn(t', refs);
    if read == next.scopes {
      forall id | id in refs && id in t.scopes ensures id in next.scopes {
        assert id in read;
      }
    }
  }

  lemma CycleReadsBack(t: Tables, t': Tables, prev: Slice, next: Slice, version: nat, history: seq<HistoryEntry>)
    requires prev.instance.id == next.instance.id && Owned(next)
    requires prev.tokens == TokensOf(t, next.instance.id) && prev.joins == JoinsOf(t, next.instance.id)
    requires next.instance.id in t'.instances
    requires t'.instances[next.instance.id] == InstanceRow(WithoutVersion(next.instance), version)
    requires WroteCore(t, t', prev, next, history)
    ensures SliceOf(t', next.instance.id) == Some(Stamped(next, version)) <==>
            RecoverableCore(t, prev, next) && CompensationsOf(t', next.instance.id) == next.compensations
  {
    TokensReadBack(t, t', prev, next);
    JoinsReadBack(t, t', prev, next);
    ScopesReadBack(t, t', next);
    assert ReadInstance(t', next.instance.id) == Some(Stamped(next, version).instance);
  }

  lemma FullReadsBack(t: Tables, t': Tables, prev: Slice, next: Slice, version: nat, history: seq<HistoryEntry>)
    requires prev.instance.id == next.instance.id && Owned(next)
    requires prev.tokens == TokensOf(t, next.instance.id) && prev.joins == JoinsOf(t, next.instance.id)
    requires prev.compensations == CompensationsOf(t, next.instance.id)
    requires next.instance.id in t'.instances
    requires t'.instances[next.instance.id] == InstanceRow(WithoutVersion(next.instance), version)
    requires WroteCore(t, t', prev, next, history) && WroteCompensations(t, t', prev, next)
    ensures SliceOf(t', next.instance.id) == Some(Stamped(next, version)) <==> Recoverable(t, prev, next)
  {
    CycleReadsBack(t, t', prev, next, version, history);
    CompensationsReadBack(t, t', prev, next);
  }

  /** The store's view of an instance, piece by piece: what `SliceOf` puts together. */
  ghost predicate Holds(t: Tables, s: Slice) {
    && s.instance.id in t.instances
    && s.instance == t.instances[s.instance.id].instance.(version := Some(t.instances[s.instance.id].version))
    && s.tokens == TokensOf(t, s.instance.id)
    && s.joins == JoinsOf(t, s.instance.id)
    && s.compensations == CompensationsOf(t, s.instance.id)
  }

  lemma SliceHolds(t: Tables, s: Slice)
    requires SliceOf(t, s.instance.id) == Some(s)
    ensures Holds(t, s)
  {
  }

  lemma BackgroundLeaves(t: Tables, t': Tables, prev: Slice, next: Slice, version: nat, history: seq<HistoryEntry>)
    requires prev.instance.id == next.instance.id && Owned(prev) && Owned(next)
    requires Holds(t, prev)
    requires next.instance.id in t'.instances
    requires t'.instances[next.instance.id] == InstanceRow(WithoutVersion(next.instance), version)
    requires WroteCore(t, t', prev, next, history) && t'.compensations == t.compensations
    ensures SliceOf(t', next.instance.id) == Some(Stamped(next.(compensations := prev.compensations), version))
            <==> RecoverableCore(t, prev, next)
  {
    CycleReadsBack(t, t', prev, next.(compensations := prev.compensations), version, history);
  }

  /** The version a loaded state carries still holds, and the update stamps the next one. */
  lemma HeldVersion(t: Tables, s: Slice, next: Instance)
    requires Holds(t, s) && next.id == s.instance.id && next.version == s.instance.version
    ensures s.instance.version.Some? && VersionHolds(t, next) && next.id in Updated(t, next)
    ensures Updated(t, next)[next.id] == InstanceRow(WithoutVersion(next), s.instance.version.value + 1)
  {
  }

  lemma FullRoundTripHeld(t: Tables, prev: EngineState, next: EngineState, history: seq<HistoryEntry>)
    requires Coherent(prev) && Coherent(next) && Holds(t, Meaning(prev))
    requires next.instance.id == prev.instance.id && next.instance.version == prev.instance.version
    ensures var result := RunOps(t, FullOps(Some(prev), next, history));
            && result.Committed?
            && (SliceOf(result.tables, next.instance.id) == Some(Stamped(Meaning(next), prev.instance.version.value + 1))
                <==> Recoverable(t, Meaning(prev), Meaning(next)))
  {
    HeldVersion(t, Meaning(prev), next.instance);
    FullCycle(t, prev, next, history);
    CoherentOwned(next);
    var result := RunOps(t, FullOps(Some(prev), next, history));
    FullReadsBack(t, result.tables, Meaning(prev), Meaning(next), prev.instance.version.value + 1, history);
  }

  lemma BackgroundRoundTripHeld(t: Tables, prev: EngineState, next: EngineState, history: seq<HistoryEntry>)
    requires Coherent(prev) && Coherent(next) && Holds(t, Meaning(prev))
    requires next.instance.id == prev.instance.id && next.instance.version == prev.instance.version
    ensures var result, p, n := RunOps(t, BackgroundOps(prev, next, history)), Meaning(prev), Meaning(next);
            && result.Committed?
            && (SliceOf(result.tables, next.instance.id) == Some(Stamped(n.(compensations := p.compensations), prev.instance.version.value + 1))
                <==> RecoverableCore(t, p, n))
  {
    HeldVersion(t, Meaning(prev), next.instance);
    BackgroundCycle(t, prev, next, history);
    CoherentOwned(next);
    CoherentOwned(prev);
    var result := RunOps(t, BackgroundOps(prev, next, history));
    BackgroundLeaves(t, result.tables, Meaning(prev), Meaning(next), prev.instance.version.value + 1, history);
  }

  /**
   * On a store holding `prev`, writing the routes' operations makes the next load return `next`, one
   * version later, exactly when no token was dropped, no token id belongs to someone else, the scopes
   * are the ones a load asks for, and a compensation record that stays is unchanged.
   */
  lemma FullRoundTrip(t: Tables, prev: EngineState, next: EngineState, history: seq<HistoryEntry>)
    requires Coherent(prev) && Coherent(next)
    requires SliceOf(t, next.instance.id) == Some(Meaning(prev))
    requires next.instance.id == prev.instance.id && next.instance.version == prev.instance.version
    ensures var result := RunOps(t, FullOps(Some(prev), next, history));
            && result.Committed?
            && (SliceOf(result.tables, next.instance.id) == Some(Stamped(Meaning(next), prev.instance.version.value + 1))
                <==> Recoverable(t, Meaning(prev), Meaning(next)))
  {
    SliceHolds(t, Meaning(prev));
    FullRoundTripHeld(t, prev, next, history);
  }

  /**
   * The worker's and the timers' operations leave `next` with the compensation records as they were
   * (exactly when the rest is recoverable); so they leave `next` itself only if no record came or went.
   */
  lemma BackgroundRoundTrip(t: Tables, prev: EngineState, next: EngineState, history: seq<HistoryEntry>)
    requires Coherent(prev) && Coherent(next)
    requires SliceOf(t, next.instance.id) == Some(Meaning(prev))
    requires next.instance.id == prev.instance.id && next.instance.version == prev.instance.version
    ensures var result, p, n := RunOps(t, BackgroundOps(prev, next, history)), Meaning(prev), Meaning(next);
            var v := prev.instance.version.value + 1;
            && result.Committed?
            && (SliceOf(result.tables, next.instance.id) == Some(Stamped(n.(compensations := p.compensations), v))
                <==> RecoverableCore(t, p, n))
            && (SliceOf(result.tables, next.instance.id) == Some(Stamped(n, v))
                <==> RecoverableCore(t, p, n) && n.compensations == p.compensations)
  {
    SliceHolds(t, Meaning(prev));
    BackgroundRoundTripHeld(t, prev, next, history);
    BackgroundCompensations(t, prev, next, history);
  }

  lemma BackgroundCompensations(t: Tables, prev: EngineState, next: EngineState, history: seq<HistoryEntry>)
    requires Coherent(prev) && Coherent(next) && Holds(t, Meaning(prev))
    requires next.instance.id == prev.instance.id && next.instance.version == prev.instance.version
    ensures var result := RunOps(t, BackgroundOps(prev, next, history));
            result.Committed? && CompensationsOf(result.tables, next.instance.id) == Meaning(prev).compensations
  {
    BackgroundCycle(t, prev, next, history);
  }

  /** A process just started reads back at version 1, if none of its ids was in use. */
  lemma StartRoundTrip(t: Tables, next: EngineState, history: seq<HistoryEntry>)
    requires Coherent(next) && next.instance.id !in t.instances
    requires TokensOf(t, next.instance.id) == map[] && JoinsOf(t, next.instance.id) == map[]
    requires CompensationsOf(t, next.instance.id) == map[]
    ensures var result := RunOps(t, FullOps(None, next, history));
            && result.Committed?
            && (SliceOf(result.tables, next.instance.id) == Some(Stamped(Meaning(next), 1))
                <==> Recoverable(t, Meaning(Nothing(next.instance)), Meaning(next)))
  {
    StartCycle(t, next, history);
    CoherentOwned(next);
    var prev, n := Meaning(Nothing(next.instance)), Meaning(next);
    var t' := RunOps(t, FullOps(None, next, history)).tables;
    FullReadsBack(t, t', prev, n, 1, history);
  }

  // ─── Other instances ───────────────────────────────────────────────────────

  /** None of the ids `next` writes is one that instance `j` reads. */
  ghost predicate Apart(t: Tables, j: Id, next: Slice) {
    && (forall id :: id in next.tokens && id in t.tokens ==> t.tokens[id].instanceId != j)
    && (j in t.instances ==> ScopeRefs(t.instances[j].instance, TokensOf(t, j)) !! next.scopes.Keys)
  }

  /** A cycle of one instance leaves what any other instance reads exactly as it was. */
  lemma OthersUntouched(t: Tables, t': Tables, prev: Slice, next: Slice, history: seq<HistoryEntry>, j: Id)
    requires j != next.instance.id && prev.instance.id == next.instance.id && Owned(prev) && Owned(next)
    requires j in t'.instances <==> j in t.instances
    requires j in t.instances ==> t'.instances[j] == t.instances[j]
    requires WroteCore(t, t', prev, next, history)
    requires t'.compensations == CompensationsAfter(t.compensations, prev.compensations, next.compensations)
          || t'.compensations == t.compensations
    requires Apart(t, j, next)
    ensures SliceOf(t', j) == SliceOf(t, j)
  {
    OtherTokens(t, t', next, j);
    OtherJoins(t, t', prev, next, j);
    if t'.compensations == t.compensations {
      assert CompensationsOf(t', j) == CompensationsOf(t, j);
    } else {
      OtherCompensations(t, t', prev, next, j);
    }
    if j in t.instances {
      OtherScopes(t, t', next, ScopeRefs(t.instances[j].instance, TokensOf(t, j)));
      assert ReadInstance(t', j) == ReadInstance(t, j);
    }
  }

  lemma OtherTokens(t: Tables, t': Tables, next: Slice, j: Id)
    requires j != next.instance.id && Owned(next)
    requires t'.tokens == t.tokens + TokenRows(t.tokens, next.tokens)
    requires forall id :: id in next.tokens && id in t.tokens ==> t.tokens[id].instanceId != j
    ensures TokensOf(t', j) == TokensOf(t, j)
  {
    assert TokensOf(t', j).Keys == TokensOf(t, j).Keys;
  }

  lemma OtherJoins(t: Tables, t': Tables, prev: Slice, next: Slice, j: Id)
    requires j != next.instance.id && prev.instance.id == next.instance.id && Owned(prev) && Owned(next)
    requires t'.joins == JoinsAfter(t.joins, prev.joins, next.joins)
    ensures JoinsOf(t', j) == JoinsOf(t, j)
  {
    forall k: (Id, Id) | k.1 == j ensures k in t'.joins <==> k in t.joins {
      assert k !in prev.joins && k !in next.joins;
    }
  }

  lemma OtherCompensations(t: Tables, t': Tables, prev: Slice, next: Slice, j: Id)
    requires j != next.instance.id && prev.instance.id == next.instance.id && Owned(prev) && Owned(next)
    requires t'.compensations == CompensationsAfter(t.compensations, prev.compensations, next.compensations)
    ensures CompensationsOf(t', j) == CompensationsOf(t, j)
  {
    forall k: (Id, Id) | k.0 == j ensures k in t'.compensations <==> k in t.compensations {
      assert k !in prev.compensations && k !in next.compensations;
    }
  }

  lemma OtherScopes(t: Tables, t': Tables, next: Slice, refs: set<Id>)
    requires t'.scopes == t.scopes + next.scopes && refs !! next.scopes.Keys
    ensures ScopesIn(t', refs) == ScopesIn(t, refs)
  {
  }
}
