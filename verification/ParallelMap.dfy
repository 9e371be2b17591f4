/**
 * Mapping a list with a bounded number of calls at the same time (http/tenants.ts).
 *
 * The workers share one counter, and each takes the next index when its call has settled; in which order calls
 * settle is any order. What comes out is the sequential map, as long as there is a worker at all:
 * with a limit below 1 there is none.
 */
module ParallelMap {
  import opened Prelude

  function Workers(limit: int, n: nat): (k: nat)
    ensures k <= n && (k == 0 <==> limit <= 0 || n == 0)
  {
    var least := if limit < n then limit else n;
    if least < 0 then 0 else least
  }

  function Larger(a: nat, b: nat): nat { if a < b then b else a }

  /** `busy` lists, for each worker still at work, the index it has under way: handed out, and no other's. */
  ghost predicate Handed(busy: seq<nat>, next: nat) {
    Distinct(busy) && forall v :: 0 <= v < |busy| ==> busy[v] < next
  }

  function UpTo(n: nat): (s: seq<nat>)
    ensures |s| == n && forall i :: 0 <= i < n ==> s[i] == i
  {
    seq(n, i requires 0 <= i < n => i)
  }

  lemma MovedOn(busy: seq<nat>, w: nat, next: nat)
    requires Handed(busy, next) && w < |busy|
    ensures Handed(busy[w := next], next + 1)
    ensures forall i :: i in busy[w := next] <==> i == next || (i in busy && i != busy[w])
  {
    var more := busy[w := next];
    assert more[w] == next && busy[w] in busy;
    forall i | i in busy && i != busy[w] ensures i in more {
      var v :| 0 <= v < |busy| && busy[v] == i;
      assert more[v] == i;
    }
  }

  lemma Ended(busy: seq<nat>, w: nat, next: nat)
    requires Handed(busy, next) && w < |busy|
    ensures Handed(busy[..w] + busy[w + 1..], next)
    ensures forall i :: i in busy[..w] + busy[w + 1..] <==> i in busy && i != busy[w]
  {
    var fewer := busy[..w] + busy[w + 1..];
    forall v | 0 <= v < |fewer| ensures fewer[v] == busy[if v < w then v else v + 1] {}
    forall i | i in busy && i != busy[w] ensures i in fewer {
      var v :| 0 <= v < |busy| && busy[v] == i;
      assert fewer[if v < w then v else v - 1] == i;
    }
  }

  /** Every worker runs up to its first call: the first `workers` indices are handed out, one each. */
  method Launch(workers: nat) returns (busy: seq<nat>)
    ensures busy == UpTo(workers)
  {
    busy := [];
    for w := 0 to workers
      invariant busy == UpTo(w)
    {
      busy := busy + [w];
    }
  }

  /** Some call fails: `fn` gives None for a promise that is rejected. */
  ghost predicate SomeFails<T(!new), R>(items: seq<T>, fn: T -> Option<R>) { exists i :: 0 <= i < |items| && fn(items[i]).None? }

  /**
   * Calls settle in whatever order they like: which of the workers under way goes on next is arbitrary. A worker whose
   * call fails ends, and so the whole is rejected, while the others go on. `claims` lists the indices in the order
   * in which they were handed out, and `peak` the most calls there were at once.
   */
  method MapWithLimit<T(!new), R>(items: seq<T>, limit: int, fn: T -> Option<R>)
    returns (results: array<Option<R>>, rejected: bool, ghost claims: seq<nat>, ghost peak: nat)
    ensures results.Length == |items|
    ensures rejected <==> limit >= 1 && SomeFails(items, fn)
    ensures !rejected ==> forall i :: 0 <= i < |items| ==> results[i] == if limit >= 1 then fn(items[i]) else None
    ensures claims == UpTo(|claims|) && |claims| <= |items|
    ensures !rejected ==> |claims| == if limit >= 1 then |items| else 0
    ensures peak == Workers(limit, |items|)
  {
    results := new Option<R>[|items|](_ => None);
    var workers := Workers(limit, |items|);
    var next := workers;
    var busy: seq<nat> := Launch(workers);
    rejected := false;
    claims, peak := busy, |busy|;
    forall i | 0 <= i < workers ensures i in busy {
      assert busy[i] == i;
    }
    while busy != []
      invariant workers <= next <= |items| && |busy| <= workers == peak && (workers == 0 ==> next == 0)
      invariant Handed(busy, next) && claims == UpTo(next)
      invariant workers > 0 && next < |items| && !rejected ==> busy != []
      invariant rejected ==> limit >= 1 && SomeFails(items, fn)
      invariant !rejected ==> forall i :: 0 <= i < next && i !in busy ==> fn(items[i]).Some?
      invariant forall i :: 0 <= i < |items| ==> results[i] == if i < next && i !in busy then fn(items[i]) else None
      decreases |items| - next, |busy|
    {
      var w: nat :| w < |busy|;
      assert busy[w] in busy;
      ghost var before := busy;
      var outcome := fn(items[busy[w]]);
      if outcome.None? { rejected := true; }
      results[busy[w]] := outcome;
      assert forall i :: 0 <= i < |items| ==>
               results[i] == if i < next && (i !in before || i == before[w]) then fn(items[i]) else None;
      if outcome.Some? && next < |items| {
        MovedOn(busy, w, next);
        busy, next, claims := busy[w := next], next + 1, claims + [next];
        assert forall i :: 0 <= i < |items| ==> (i < next && i !in busy <==> i < next - 1 && (i !in before || i == before[w]));
      } else {
        Ended(busy, w, next);
        busy := busy[..w] + busy[w + 1..];
      }
      peak := Larger(peak, |busy|);
    }
  }
}
