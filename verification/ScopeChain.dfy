/**
 * Resolving variables up the chain of scopes (db/PostgresStateStore.ts, worker/TaskWorker.ts, http/tasks.ts).
 *
 * First the walk up the parent pointers and when it ends, then the two ways in which the chain is merged into one
 * set of variables.
 */
module ScopeChain {
  import opened Prelude
  import opened EngineModel
  import opened StateStore

  type Scopes = map<Id, Scope>

  /** The scope the walk goes to: an empty id counts as none, and so does one that is not stored. */
  function Found(scopes: Scopes, id: Id): Option<Id> {
    if id != "" && id in scopes then Some(id) else None
  }

  function ParentOf(scopes: Scopes, id: Id): Option<Id>
    requires id in scopes
  {
    if scopes[id].parentScopeId.None? then None else Found(scopes, scopes[id].parentScopeId.value)
  }

  /** The scope `n` steps up from the leaf, if the walk gets that far. */
  function Ancestor(scopes: Scopes, leaf: Id, n: nat): (id: Option<Id>)
    ensures id.Some? ==> id.value in scopes && id.value != ""
  {
    if n == 0 then Found(scopes, leaf)
    else
      var below := Ancestor(scopes, leaf, n - 1);
      if below.None? then None else ParentOf(scopes, below.value)
  }

  /** Going up from the leaf never comes back to a scope. */
  ghost predicate Acyclic(scopes: Scopes, leaf: Id) {
    forall i: nat, j: nat :: i < j && Ancestor(scopes, leaf, j).Some? ==> Ancestor(scopes, leaf, i) != Ancestor(scopes, leaf, j)
  }

  lemma {:induction false} NothingAbove(scopes: Scopes, leaf: Id, i: nat, j: nat)
    requires i <= j && Ancestor(scopes, leaf, j).Some?
    ensures Ancestor(scopes, leaf, i).Some?
    decreases j
  {
    if i < j { NothingAbove(scopes, leaf, i, j - 1); }
  }

  /** The first `n` scopes of the walk. */
  function Walked(scopes: Scopes, leaf: Id, n: nat): (ids: seq<Id>)
    requires n == 0 || Ancestor(scopes, leaf, n - 1).Some?
    ensures |ids| == n
  {
    if n == 0 then []
    else
      NothingAbove(scopes, leaf, if n == 1 then 0 else n - 2, n - 1);
      Walked(scopes, leaf, n - 1) + [Ancestor(scopes, leaf, n - 1).value]
  }

  lemma {:induction false} WalkedAt(scopes: Scopes, leaf: Id, n: nat, i: nat)
    requires i < n && Ancestor(scopes, leaf, n - 1).Some?
    ensures Ancestor(scopes, leaf, i) == Some(Walked(scopes, leaf, n)[i])
  {
    if i < n - 1 {
      NothingAbove(scopes, leaf, n - 2, n - 1);
      WalkedAt(scopes, leaf, n - 1, i);
    }
  }

  /** A walk that never comes back is no longer than there are scopes. */
  lemma WalkIsShort(scopes: Scopes, leaf: Id, n: nat)
    requires Acyclic(scopes, leaf) && (n == 0 || Ancestor(scopes, leaf, n - 1).Some?)
    ensures n <= |scopes|
  {
    if n > 0 {
      var ids := Walked(scopes, leaf, n);
      forall i, j | 0 <= i < j < n ensures ids[i] != ids[j] {
        WalkedAt(scopes, leaf, n, i);
        WalkedAt(scopes, leaf, n, j);
      }
      forall i | 0 <= i < n ensures ids[i] in scopes {
        WalkedAt(scopes, leaf, n, i);
      }
      DistinctCount(ids);
      SubsetCount(Elements(ids), scopes.Keys);
    }
  }

  lemma {:induction false} RoundAgain(scopes: Scopes, leaf: Id, i: nat, j: nat, k: nat)
    requires i < j && Ancestor(scopes, leaf, i) == Ancestor(scopes, leaf, j)
    ensures Ancestor(scopes, leaf, i + k) == Ancestor(scopes, leaf, j + k)
  {
    if k > 0 { RoundAgain(scopes, leaf, i, j, k - 1); }
  }

  lemma {:induction false} CycleGoesOn(scopes: Scopes, leaf: Id, i: nat, j: nat, n: nat)
    requires i < j && Ancestor(scopes, leaf, j).Some? && Ancestor(scopes, leaf, i) == Ancestor(scopes, leaf, j)
    ensures Ancestor(scopes, leaf, n).Some?
  {
    if n <= j {
      NothingAbove(scopes, leaf, n, j);
    } else {
      CycleGoesOn(scopes, leaf, i, j, n - (j - i));
      RoundAgain(scopes, leaf, i, j, n - j);
    }
  }

  /** The walk ends exactly when the parents above the leaf have no cycle. */
  lemma WalkEndsIffAcyclic(scopes: Scopes, leaf: Id)
    ensures (exists n: nat :: Ancestor(scopes, leaf, n).None?) <==> Acyclic(scopes, leaf)
  {
    if Acyclic(scopes, leaf) {
      var n := |scopes|;
      if Ancestor(scopes, leaf, n).Some? {
        WalkIsShort(scopes, leaf, n + 1);
      }
      assert Ancestor(scopes, leaf, n).None?;
    } else {
      var i: nat, j: nat :| i < j && Ancestor(scopes, leaf, j).Some? && Ancestor(scopes, leaf, i) == Ancestor(scopes, leaf, j);
      forall n: nat ensures Ancestor(scopes, leaf, n).Some? {
        CycleGoesOn(scopes, leaf, i, j, n);
      }
    }
  }

  /** The chain lists the leaf and all its ancestors, nearest first. */
  ghost predicate IsChain(scopes: Scopes, leaf: Id, chain: seq<Scope>) {
    && Ancestor(scopes, leaf, |chain|).None?
    && forall i :: 0 <= i < |chain| ==>
         Ancestor(scopes, leaf, i).Some? && chain[i] == scopes[Ancestor(scopes, leaf, i).value]
  }

  /** The beginning of the chain. */
  ghost predicate ChainSoFar(scopes: Scopes, leaf: Id, chain: seq<Scope>) {
    forall i :: 0 <= i < |chain| ==>
      Ancestor(scopes, leaf, i).Some? && chain[i] == scopes[Ancestor(scopes, leaf, i).value]
  }

  /** Where the walk is, given what the last scope names as its parent. */
  ghost predicate WalksAt(scopes: Scopes, leaf: Id, chain: seq<Scope>, currentId: Option<Id>) {
    Ancestor(scopes, leaf, |chain|) == if currentId.None? then None else Found(scopes, currentId.value)
  }

  lemma ChainGoesOn(scopes: Scopes, leaf: Id, chain: seq<Scope>, id: Id)
    requires Acyclic(scopes, leaf) && ChainSoFar(scopes, leaf, chain) && WalksAt(scopes, leaf, chain, Some(id))
    requires id != "" && id in scopes
    ensures ChainSoFar(scopes, leaf, chain + [scopes[id]])
    ensures WalksAt(scopes, leaf, chain + [scopes[id]], scopes[id].parentScopeId)
    ensures |chain| < |scopes|
  {
    WalkIsShort(scopes, leaf, |chain| + 1);
  }

  method GetScopeChain(store: PostgresStateStore, leaf: Id) returns (chain: seq<Scope>)
    requires Acyclic(store.tables.scopes, leaf)
    ensures IsChain(store.tables.scopes, leaf, chain)
  {
    ghost var scopes := store.tables.scopes;
    chain := [];
    var currentId := Some(leaf);
    while currentId.Some? && currentId.value != ""
      invariant ChainSoFar(scopes, leaf, chain) && WalksAt(scopes, leaf, chain, currentId)
      invariant store.tables.scopes == scopes
      decreases |scopes| - |chain|
    {
      var scope := store.GetScope(currentId.value);
      if scope.None? { break; }
      ChainGoesOn(scopes, leaf, chain, currentId.value);
      chain := chain + [scope.value];
      currentId := scope.value.parentScopeId;
    }
  }

  // ─── Merging ───────────────────────────────────────────────────────────────

  function Lookup(variables: map<string, Json>, name: string): Option<Json> {
    if name in variables then Some(variables[name]) else None
  }

  /** The value of a name in the first scope of the chain that has it. */
  function Nearest(chain: seq<Scope>, name: string): Option<Json> {
    if chain == [] then None
    else if name in chain[0].variables then Some(chain[0].variables[name])
    else Nearest(chain[1..], name)
  }

  /** A scope laid over the merge of those behind it. */
  lemma LaidOver(chain: seq<Scope>, behind: map<string, Json>)
    requires chain != [] && forall name :: Lookup(behind, name) == Nearest(chain[1..], name)
    ensures forall name :: Lookup(behind + chain[0].variables, name) == Nearest(chain, name)
  {
    forall name ensures Lookup(behind + chain[0].variables, name) == Nearest(chain, name) {
      assert Lookup(behind, name) == Nearest(chain[1..], name);
    }
  }

  /** The worker's merge: from the root to the leaf, each scope over what is there. */
  method MergeScopes(chain: seq<Scope>) returns (merged: map<string, Json>)
    ensures forall name :: Lookup(merged, name) == Nearest(chain, name)
  {
    merged := map[];
    var i := |chain| - 1;
    while i >= 0
      invariant -1 <= i < |chain|
      invariant forall name :: Lookup(merged, name) == Nearest(chain[i + 1..], name)
    {
      assert chain[i..][1..] == chain[i + 1..];
      LaidOver(chain[i..], merged);
      merged := merged + chain[i].variables;
      i := i - 1;
    }
    assert chain[0..] == chain;
  }

  function Reversed(chain: seq<Scope>): (r: seq<Scope>)
    ensures |r| == |chain| && forall i :: 0 <= i < |r| ==> r[i] == chain[|chain| - 1 - i]
  {
    seq(|chain|, i requires 0 <= i < |chain| => chain[|chain| - 1 - i])
  }

  /** The tasks endpoint's merge: the chain reversed, each scope spread over what is there. */
  method SpreadReversed(chain: seq<Scope>) returns (variables: map<string, Json>)
    ensures forall name :: Lookup(variables, name) == Nearest(chain, name)
  {
    variables := map[];
    var reversed := Reversed(chain);
    for i := 0 to |reversed|
      invariant forall name :: Lookup(variables, name) == Nearest(chain[|chain| - i..], name)
    {
      assert chain[|chain| - i - 1..][1..] == chain[|chain| - i..];
      LaidOver(chain[|chain| - i - 1..], variables);
      variables := variables + reversed[i].variables;
    }
    assert chain[0..] == chain;
  }

  /** Whatever two merges agree with `Nearest`, they are the same map. */
  lemma MergesAgree(chain: seq<Scope>, merged: map<string, Json>, spread: map<string, Json>)
    requires forall name :: Lookup(merged, name) == Nearest(chain, name)
    requires forall name :: Lookup(spread, name) == Nearest(chain, name)
    ensures merged == spread
  {
    forall name ensures name in merged <==> name in spread {
      assert Lookup(merged, name) == Lookup(spread, name);
    }
    forall name | name in merged ensures merged[name] == spread[name] {
      assert Lookup(merged, name) == Lookup(spread, name);
    }
  }

  lemma {:induction false} NearestIs(chain: seq<Scope>, name: string, i: nat)
    requires i < |chain| && name in chain[i].variables && forall j :: 0 <= j < i ==> name !in chain[j].variables
    ensures Nearest(chain, name) == Some(chain[i].variables[name])
  {
    if i > 0 { NearestIs(chain[1..], name, i - 1); }
  }

  lemma {:induction false} NearestIsNone(chain: seq<Scope>, name: string)
    requires forall i :: 0 <= i < |chain| ==> name !in chain[i].variables
    ensures Nearest(chain, name) == None
  {
    if chain != [] { NearestIsNone(chain[1..], name); }
  }

  /** A name has the value it has in the nearest scope going up the parents, and none if no scope on the way has it. */
  lemma VariableFromNearestScope(scopes: Scopes, leaf: Id, chain: seq<Scope>, name: string)
    requires IsChain(scopes, leaf, chain)
    ensures Nearest(chain, name).None? ==>
              forall n: nat :: Ancestor(scopes, leaf, n).Some? ==> name !in scopes[Ancestor(scopes, leaf, n).value].variables
    ensures Nearest(chain, name).Some? ==>
              exists n: nat ::
                && Ancestor(scopes, leaf, n).Some?
                && Lookup(scopes[Ancestor(scopes, leaf, n).value].variables, name) == Nearest(chain, name)
                && forall m: nat :: m < n && Ancestor(scopes, leaf, m).Some? ==>
                     name !in scopes[Ancestor(scopes, leaf, m).value].variables
  {
    forall n: nat | Ancestor(scopes, leaf, n).Some? ensures n < |chain| {
      if n >= |chain| { NothingAbove(scopes, leaf, |chain|, n); }
    }
    var i := FirstWith(chain, name);
    if i < |chain| {
      NearestIs(chain, name, i);
      assert Ancestor(scopes, leaf, i).Some?;
    } else {
      NearestIsNone(chain, name);
    }
  }

  function FirstWith(chain: seq<Scope>, name: string): (i: nat)
    ensures i <= |chain|
    ensures forall j :: 0 <= j < i ==> name !in chain[j].variables
    ensures i < |chain| ==> name in chain[i].variables
  {
    if chain == [] || name in chain[0].variables then 0 else 1 + FirstWith(chain[1..], name)
  }
}
