/**
 * Where the pools of the tenants in use are kept, and whose is closed when there are too many (db/TenantResourceCache.ts).
 *
 * Two questions: which tenants it holds after any requests, and whether each resource is ended exactly once. The
 * first is answered by the order of last use. The second depends on `endAll`, which awaits between one resource and
 * the next, so that requests and evictions can come in between.
 */
module ResourceCache {
  import opened Prelude

  type TenantId = string

  /**
   * The program's `Map` as its keys in insertion order and what they map to; of these, `ended` are the ones that the
   * loop of `endAll` has passed, none while no such loop is under way. A resource is named by the order of its
   * creation; `closed` counts how often each has been ended.
   */
  datatype Cache = Cache(ended: seq<TenantId>, keys: seq<TenantId>, held: map<TenantId, nat>, created: nat, closed: multiset<nat>)

  const EMPTY: Cache := Cache([], [], map[], 0, multiset{})

  /** `EndNext` is one round of `endAll`: the next resource is ended and awaited, or there is none and all is cleared. */
  datatype Op = Get(tenant: TenantId) | Evict(tenant: TenantId) | EndNext

  function Without(keys: seq<TenantId>, key: TenantId): seq<TenantId> {
    if keys == [] then []
    else if keys[|keys| - 1] == key then Without(keys[..|keys| - 1], key)
    else Without(keys[..|keys| - 1], key) + [keys[|keys| - 1]]
  }

  function Dropped(c: Cache, tenant: TenantId): Cache {
    if tenant !in c.held then c
    else Cache(Without(c.ended, tenant), Without(c.keys, tenant), c.held - {tenant}, c.created, c.closed + multiset{c.held[tenant]})
  }

  function Created(c: Cache, tenant: TenantId): Cache {
    c.(keys := c.keys + [tenant], held := c.held[tenant := c.created], created := c.created + 1)
  }

  /** Deleted and set again, so that it is the most recent, and ahead of the loop of `endAll`. */
  function Refreshed(c: Cache, tenant: TenantId): Cache {
    c.(ended := Without(c.ended, tenant), keys := Without(c.keys, tenant) + [tenant])
  }

  function EndedNext(c: Cache): Cache {
    if c.keys == [] then c.(ended := [], held := map[])
    else
      c.(ended := c.ended + [c.keys[0]], keys := c.keys[1..],
         closed := c.closed + if c.keys[0] in c.held then multiset{c.held[c.keys[0]]} else multiset{})
  }

  /** With no room for even one entry the program throws; nothing is then changed. */
  function Apply(maxSize: nat, c: Cache, op: Op): Cache {
    match op
    case Get(t) =>
      var order := c.ended + c.keys;
      if t in c.held then Refreshed(c, t)
      else if |order| < maxSize then Created(c, t)
      else if order == [] then c
      else Created(Dropped(c, order[0]), t)
    case Evict(t) => Dropped(c, t)
    case EndNext => EndedNext(c)
  }

  function After(maxSize: nat, ops: seq<Op>): Cache {
    if ops == [] then EMPTY else Apply(maxSize, After(maxSize, ops[..|ops| - 1]), ops[|ops| - 1])
  }

  // ─── What every operation keeps ────────────────────────────────────────────

  ghost predicate Listed(maxSize: nat, c: Cache) {
    && Distinct(c.ended) && Distinct(c.keys) && Elements(c.ended) !! Elements(c.keys)
    && Elements(c.ended) + Elements(c.keys) == c.held.Keys && |c.ended| + |c.keys| <= maxSize
  }

  ghost predicate Numbered(c: Cache) {
    && (forall t :: t in c.held ==> c.held[t] < c.created)
    && (forall t, u :: t in c.held && u in c.held && c.held[t] == c.held[u] ==> t == u)
  }

  ghost predicate PassedAreClosed(c: Cache) {
    forall t :: t in c.ended && t in c.held ==> c.closed[c.held[t]] >= 1
  }

  ghost predicate Sound(maxSize: nat, c: Cache) { Listed(maxSize, c) && Numbered(c) && PassedAreClosed(c) }

  lemma {:induction false} WithoutIs(keys: seq<TenantId>, key: TenantId)
    requires Distinct(keys)
    ensures Distinct(Without(keys, key)) && Elements(Without(keys, key)) == Elements(keys) - {key}
    ensures |Without(keys, key)| == |keys| - if key in keys then 1 else 0
  {
    if keys != [] {
      var init, last := keys[..|keys| - 1], keys[|keys| - 1];
      WithoutIs(init, key);
      assert last !in init;
      assert Elements(keys) == Elements(init) + {last};
      assert forall x :: x in Without(init, key) ==> x in Elements(Without(init, key));
      if last != key {
        assert Elements(Without(init, key) + [last]) == Elements(Without(init, key)) + {last};
      }
    }
  }

  lemma PushIs(keys: seq<TenantId>, key: TenantId)
    requires Distinct(keys) && key !in Elements(keys)
    ensures Distinct(keys + [key]) && Elements(keys + [key]) == Elements(keys) + {key}
  {
    assert forall k :: k in keys ==> k in Elements(keys);
  }

  lemma DroppedKeepsListed(maxSize: nat, c: Cache, t: TenantId)
    requires Listed(maxSize, c)
    ensures Listed(maxSize, Dropped(c, t))
    ensures t in c.held ==> |Dropped(c, t).ended| + |Dropped(c, t).keys| == |c.ended| + |c.keys| - 1
  {
    WithoutIs(c.ended, t);
    WithoutIs(c.keys, t);
    assert t in c.ended <==> t in Elements(c.ended);
    assert t in c.keys <==> t in Elements(c.keys);
  }

  lemma DroppedKeepsSound(maxSize: nat, c: Cache, t: TenantId)
    requires Sound(maxSize, c)
    ensures Sound(maxSize, Dropped(c, t))
    ensures t in c.held ==> |Dropped(c, t).ended| + |Dropped(c, t).keys| == |c.ended| + |c.keys| - 1
  {
    DroppedKeepsListed(maxSize, c, t);
    WithoutIs(c.ended, t);
    assert forall u :: u in Dropped(c, t).ended ==> u in Elements(Dropped(c, t).ended);
    assert forall u :: u in Elements(c.ended) ==> u in c.ended;
  }

  lemma CreatedKeepsSound(maxSize: nat, c: Cache, t: TenantId)
    requires Sound(maxSize, c) && t !in c.held && |c.ended| + |c.keys| < maxSize
    ensures Sound(maxSize, Created(c, t))
  {
    PushIs(c.keys, t);
  }

  lemma RefreshedKeepsListed(maxSize: nat, c: Cache, t: TenantId)
    requires Listed(maxSize, c) && t in c.held
    ensures Listed(maxSize, Refreshed(c, t))
  {
    DroppedKeepsListed(maxSize, c, t);
    WithoutIs(c.ended, t);
    WithoutIs(c.keys, t);
    PushIs(Without(c.keys, t), t);
  }

  lemma RefreshedKeepsSound(maxSize: nat, c: Cache, t: TenantId)
    requires Sound(maxSize, c) && t in c.held
    ensures Sound(maxSize, Refreshed(c, t))
  {
    RefreshedKeepsListed(maxSize, c, t);
    WithoutIs(c.ended, t);
    assert forall u :: u in Without(c.ended, t) ==> u in Elements(Without(c.ended, t));
    assert forall u :: u in Elements(c.ended) ==> u in c.ended;
  }

  lemma EndedNextKeepsSound(maxSize: nat, c: Cache)
    requires Sound(maxSize, c)
    ensures Sound(maxSize, EndedNext(c))
  {
    if c.keys != [] {
      var t := c.keys[0];
      assert t in Elements(c.keys);
      PushIs(c.ended, t);
      assert c.keys == [t] + c.keys[1..];
      assert Elements(c.keys) == {t} + Elements(c.keys[1..]);
    }
  }

  lemma OpKeepsSound(maxSize: nat, c: Cache, op: Op)
    requires Sound(maxSize, c)
    ensures Sound(maxSize, Apply(maxSize, c, op))
  {
    match op
    case Get(t) =>
      var order := c.ended + c.keys;
      if t in c.held {
        RefreshedKeepsSound(maxSize, c, t);
      } else if |order| < maxSize {
        CreatedKeepsSound(maxSize, c, t);
      } else if order != [] {
        OldestIsHeld(maxSize, c);
        DroppedKeepsSound(maxSize, c, order[0]);
        CreatedKeepsSound(maxSize, Dropped(c, order[0]), t);
      }
    case Evict(t) => DroppedKeepsSound(maxSize, c, t);
    case EndNext => EndedNextKeepsSound(maxSize, c);
  }

  lemma OldestIsHeld(maxSize: nat, c: Cache)
    requires Listed(maxSize, c) && c.ended + c.keys != []
    ensures (c.ended + c.keys)[0] in c.held
    ensures c.ended != [] ==> (c.ended + c.keys)[0] in c.ended
    ensures c.ended == [] ==> (c.ended + c.keys)[0] in c.keys
  {
    if c.ended != [] { assert c.ended[0] in Elements(c.ended); } else { assert c.keys[0] in Elements(c.keys); }
  }

  lemma {:induction false} RunKeepsSound(maxSize: nat, ops: seq<Op>)
    ensures Sound(maxSize, After(maxSize, ops))
  {
    if ops == [] {
      assert Elements<TenantId>([]) == {};
    } else {
      RunKeepsSound(maxSize, ops[..|ops| - 1]);
      OpKeepsSound(maxSize, After(maxSize, ops[..|ops| - 1]), ops[|ops| - 1]);
    }
  }

  // ─── Every resource is cached or closed, once ──────────────────────────────

  function One(b: bool): nat { if b then 1 else 0 }

  ghost predicate Passed(c: Cache, r: nat) { exists t :: t in c.ended && t in c.held && c.held[t] == r }

  /** Closed once if it is out of the cache, or if `endAll` has passed it and has not cleared the cache yet. */
  ghost predicate Accounted(c: Cache) {
    forall r: nat :: c.closed[r] == One(r < c.created && r !in c.held.Values) + One(Passed(c, r))
  }

  /** The operation leaves alone what `endAll` has already ended: it neither evicts it nor puts it ahead of the loop. */
  predicate Spares(maxSize: nat, c: Cache, op: Op) {
    match op
    case Get(t) => if t in c.held then t !in c.ended else |c.ended + c.keys| < maxSize || c.ended == []
    case Evict(t) => t !in c.ended
    case EndNext => true
  }

  lemma ValuesWithout(held: map<TenantId, nat>, t: TenantId, r: nat)
    requires t in held && forall u, v :: u in held && v in held && held[u] == held[v] ==> u == v
    ensures r in (held - {t}).Values <==> r in held.Values && r != held[t]
  {
    var rest := held - {t};
    if r in held.Values && r != held[t] {
      var u :| u in held && held[u] == r;
      assert u in rest && rest[u] == r;
    }
  }

  lemma ValuesWith(held: map<TenantId, nat>, t: TenantId, x: nat, r: nat)
    requires t !in held
    ensures r in held[t := x].Values <==> r == x || r in held.Values
  {
    var more := held[t := x];
    assert more[t] == x;
    if r in held.Values {
      var u :| u in held && held[u] == r;
      assert u in more && more[u] == r;
    }
  }

  lemma DroppedAccounted(maxSize: nat, c: Cache, t: TenantId)
    requires Sound(maxSize, c) && Accounted(c) && t !in c.ended
    ensures Accounted(Dropped(c, t))
  {
    var c' := Dropped(c, t);
    if t in c.held {
      WithoutAbsent(c.ended, t);
      forall r: nat ensures c'.closed[r] == One(r < c'.created && r !in c'.held.Values) + One(Passed(c', r)) {
        ValuesWithout(c.held, t, r);
        assert Passed(c', r) <==> Passed(c, r);
        assert Passed(c, c.held[t]) ==> t in c.ended;
      }
    }
  }

  lemma CreatedAccounted(maxSize: nat, c: Cache, t: TenantId)
    requires Sound(maxSize, c) && Accounted(c) && t !in c.held
    ensures Accounted(Created(c, t))
  {
    var c' := Created(c, t);
    forall r: nat ensures c'.closed[r] == One(r < c'.created && r !in c'.held.Values) + One(Passed(c', r)) {
      ValuesWith(c.held, t, c.created, r);
      assert t in c.ended ==> t in Elements(c.ended);
      assert Passed(c', r) <==> Passed(c, r);
    }
  }

  lemma EndedNextAccounted(maxSize: nat, c: Cache)
    requires Sound(maxSize, c) && Accounted(c)
    ensures Accounted(EndedNext(c))
  {
    var c' := EndedNext(c);
    if c.keys == [] {
      forall r: nat ensures c'.closed[r] == One(r < c'.created && r !in c'.held.Values) + One(Passed(c', r)) {
        assert !Passed(c', r);
        AllPassed(maxSize, c, r);
      }
    } else {
      var t := c.keys[0];
      assert t in Elements(c.keys) && t in c.held;
      forall r: nat ensures c'.closed[r] == One(r < c'.created && r !in c'.held.Values) + One(Passed(c', r)) {
        PassedNext(maxSize, c, r);
      }
    }
  }

  lemma AllPassed(maxSize: nat, c: Cache, r: nat)
    requires Sound(maxSize, c) && c.keys == []
    ensures r in c.held.Values <==> Passed(c, r)
    ensures r in c.held.Values ==> r < c.created
  {
    assert Elements(c.keys) == {};
    if r in c.held.Values {
      var t :| t in c.held && c.held[t] == r;
      assert t in Elements(c.ended);
    }
  }

  lemma PassedNext(maxSize: nat, c: Cache, r: nat)
    requires Sound(maxSize, c) && c.keys != [] && c.keys[0] in c.held
    ensures Passed(EndedNext(c), r) <==> Passed(c, r) || r == c.held[c.keys[0]]
    ensures !Passed(c, c.held[c.keys[0]])
  {
    var t, c' := c.keys[0], EndedNext(c);
    assert t in Elements(c.keys) && c'.ended[|c.ended|] == t;
    forall u | u in c.ended ensures u in c'.ended && u != t {
      assert u in Elements(c.ended);
    }
  }

  lemma RefreshedAccounted(c: Cache, t: TenantId)
    requires Accounted(c) && t !in c.ended
    ensures Accounted(Refreshed(c, t))
  {
    WithoutAbsent(c.ended, t);
    forall r: nat ensures Passed(Refreshed(c, t), r) <==> Passed(c, r) {}
  }

  lemma OpAccounted(maxSize: nat, c: Cache, op: Op)
    requires Sound(maxSize, c) && Accounted(c) && Spares(maxSize, c, op)
    ensures Accounted(Apply(maxSize, c, op))
  {
    match op
    case Get(t) =>
      var order := c.ended + c.keys;
      if t in c.held {
        RefreshedAccounted(c, t);
      } else if |order| < maxSize {
        CreatedAccounted(maxSize, c, t);
      } else if order != [] {
        DroppedKeepsSound(maxSize, c, order[0]);
        DroppedAccounted(maxSize, c, order[0]);
        CreatedAccounted(maxSize, Dropped(c, order[0]), t);
      }
    case Evict(t) => DroppedAccounted(maxSize, c, t);
    case EndNext => EndedNextAccounted(maxSize, c);
  }

  ghost predicate SparesAt(maxSize: nat, ops: seq<Op>, k: nat)
    requires k < |ops|
  {
    Spares(maxSize, After(maxSize, ops[..k]), ops[k])
  }

  lemma AfterNext(maxSize: nat, ops: seq<Op>, k: nat)
    requires k < |ops|
    ensures After(maxSize, ops[..k + 1]) == Apply(maxSize, After(maxSize, ops[..k]), ops[k])
  {
    assert ops[..k + 1][..k] == ops[..k];
  }

  lemma {:induction false} SparingAccounted(maxSize: nat, ops: seq<Op>, k: nat)
    requires k <= |ops| && forall j :: 0 <= j < |ops| ==> SparesAt(maxSize, ops, j)
    ensures Accounted(After(maxSize, ops[..k]))
  {
    if k > 0 {
      SparingAccounted(maxSize, ops, k - 1);
      RunKeepsSound(maxSize, ops[..k - 1]);
      AfterNext(maxSize, ops, k - 1);
      assert SparesAt(maxSize, ops, k - 1);
      OpAccounted(maxSize, After(maxSize, ops[..k - 1]), ops[k - 1]);
    }
  }

  /**
   * Nothing is closed while it is cached, nothing is closed twice, and nothing is forgotten without being closed,
   * as long as nobody asks for or evicts a resource that an `endAll` under way has already ended.
   */
  lemma CachedOrClosedOnce(maxSize: nat, ops: seq<Op>)
    requires forall j :: 0 <= j < |ops| ==> SparesAt(maxSize, ops, j)
    ensures var c := After(maxSize, ops);
            forall r :: 0 <= r < c.created ==> c.closed[r] == One(r !in c.held.Values || Passed(c, r))
  {
    SparingAccounted(maxSize, ops, |ops|);
    assert ops[..|ops|] == ops;
    var c := After(maxSize, ops);
    forall r | 0 <= r < c.created && Passed(c, r) ensures r in c.held.Values {}
  }

  // ─── And otherwise something is ended twice ────────────────────────────────

  /** Ended twice, or ended once and still ahead of the loop or of an eviction. */
  ghost predicate Doomed(c: Cache, r: nat) {
    c.closed[r] >= 2 || (c.closed[r] >= 1 && exists t :: t in c.keys && t in c.held && c.held[t] == r)
  }

  lemma {:induction false} WithoutHas(keys: seq<TenantId>, key: TenantId, t: TenantId)
    requires t in keys && t != key
    ensures t in Without(keys, key)
  {
    if keys[|keys| - 1] != t {
      assert keys == keys[..|keys| - 1] + [keys[|keys| - 1]];
      WithoutHas(keys[..|keys| - 1], key, t);
    }
  }

  lemma DroppedKeepsDoomed(c: Cache, t: TenantId, r: nat)
    requires Doomed(c, r)
    ensures Doomed(Dropped(c, t), r)
  {
    if c.closed[r] < 2 {
      var u :| u in c.keys && u in c.held && c.held[u] == r;
      if u != t { WithoutHas(c.keys, t, u); }
    }
  }

  lemma CreatedKeepsDoomed(c: Cache, t: TenantId, r: nat)
    requires Doomed(c, r) && t !in c.held
    ensures Doomed(Created(c, t), r)
  {
    if c.closed[r] < 2 {
      var u :| u in c.keys && u in c.held && c.held[u] == r;
      assert u in Created(c, t).keys && Created(c, t).held[u] == r;
    }
  }

  lemma RefreshedKeepsDoomed(c: Cache, t: TenantId, r: nat)
    requires Doomed(c, r)
    ensures Doomed(Refreshed(c, t), r)
  {
    if c.closed[r] < 2 {
      var u :| u in c.keys && u in c.held && c.held[u] == r;
      if u != t { WithoutHas(c.keys, t, u); }
      assert u in Refreshed(c, t).keys;
    }
  }

  lemma EndedNextKeepsDoomed(c: Cache, r: nat)
    requires Doomed(c, r)
    ensures Doomed(EndedNext(c), r)
  {
    if c.closed[r] < 2 {
      var u :| u in c.keys && u in c.held && c.held[u] == r;
      assert u == c.keys[0] || u in c.keys[1..];
    }
  }

  lemma OpKeepsDoomed(maxSize: nat, c: Cache, op: Op, r: nat)
    requires Doomed(c, r)
    ensures Doomed(Apply(maxSize, c, op), r)
  {
    match op
    case Get(t) =>
      var order := c.ended + c.keys;
      if t in c.held {
        RefreshedKeepsDoomed(c, t, r);
      } else if |order| < maxSize {
        CreatedKeepsDoomed(c, t, r);
      } else if order != [] {
        DroppedKeepsDoomed(c, order[0], r);
        CreatedKeepsDoomed(Dropped(c, order[0]), t, r);
      }
    case Evict(t) => DroppedKeepsDoomed(c, t, r);
    case EndNext => EndedNextKeepsDoomed(c, r);
  }

  lemma {:induction false} RunKeepsDoomed(maxSize: nat, ops: seq<Op>, k: nat, r: nat)
    requires k <= |ops| && Doomed(After(maxSize, ops[..k]), r)
    ensures Doomed(After(maxSize, ops), r)
    decreases |ops| - k
  {
    if k == |ops| {
      assert ops[..k] == ops;
    } else {
      AfterNext(maxSize, ops, k);
      OpKeepsDoomed(maxSize, After(maxSize, ops[..k]), ops[k], r);
      RunKeepsDoomed(maxSize, ops, k + 1, r);
    }
  }

  /** Touching what was already ended ends it again, or puts it where the loop will. */
  lemma TouchingDooms(maxSize: nat, c: Cache, op: Op) returns (r: nat)
    requires Sound(maxSize, c) && !Spares(maxSize, c, op)
    ensures Doomed(Apply(maxSize, c, op), r)
  {
    var t := if op.Get? && op.tenant !in c.held then c.ended[0] else op.tenant;
    assert t in c.ended && t in Elements(c.ended);
    r := c.held[t];
    assert c.closed[r] >= 1;
    if op.Get? && op.tenant in c.held {
      assert t in Refreshed(c, t).keys;
    } else if op.Get? {
      assert (c.ended + c.keys)[0] == t;
      CreatedKeepsDoomed(Dropped(c, t), op.tenant, r);
    }
  }

  function Rounds(n: nat): seq<Op> { seq(n, _ => EndNext) }

  lemma RoundsGo(maxSize: nat, ops: seq<Op>, n: nat)
    ensures After(maxSize, ops + Rounds(n + 1)) == EndedNext(After(maxSize, ops + Rounds(n)))
  {
    assert (ops + Rounds(n + 1))[..|ops| + n] == ops + Rounds(n);
  }

  lemma {:induction false} RoundsPass(maxSize: nat, ops: seq<Op>, n: nat)
    requires n <= |After(maxSize, ops).keys|
    ensures After(maxSize, ops + Rounds(n)).keys == After(maxSize, ops).keys[n..]
  {
    if n == 0 {
      assert ops + Rounds(0) == ops;
    } else {
      RoundsPass(maxSize, ops, n - 1);
      RoundsGo(maxSize, ops, n - 1);
    }
  }

  ghost predicate NothingTwice(c: Cache) { forall r: nat :: c.closed[r] <= 1 }

  lemma DoomedTwice(maxSize: nat, ops: seq<Op>, r: nat)
    requires Doomed(After(maxSize, ops), r)
    ensures exists n: nat :: !NothingTwice(After(maxSize, ops + Rounds(n)))
  {
    var n := |After(maxSize, ops).keys|;
    RoundsPass(maxSize, ops, n);
    assert (ops + Rounds(n))[..|ops|] == ops;
    RunKeepsDoomed(maxSize, ops + Rounds(n), |ops|, r);
    assert After(maxSize, ops + Rounds(n)).closed[r] >= 2;
  }

  lemma RoundsSpare(maxSize: nat, ops: seq<Op>, n: nat)
    requires forall j :: 0 <= j < |ops| ==> SparesAt(maxSize, ops, j)
    ensures forall j :: 0 <= j < |ops + Rounds(n)| ==> SparesAt(maxSize, ops + Rounds(n), j)
  {
    var all := ops + Rounds(n);
    forall j | 0 <= j < |all| ensures SparesAt(maxSize, all, j) {
      if j < |ops| { assert all[..j] == ops[..j] && SparesAt(maxSize, ops, j); }
    }
  }

  /**
   * Exactly: with `endAll` going on to its end, no resource is ever ended twice if and only if nobody asked for or
   * evicted, and no new tenant pushed out, what an `endAll` under way had already ended.
   */
  lemma EndedOnceIffSpared(maxSize: nat, ops: seq<Op>)
    ensures (forall n: nat :: NothingTwice(After(maxSize, ops + Rounds(n)))) <==> forall j :: 0 <= j < |ops| ==> SparesAt(maxSize, ops, j)
  {
    if forall j :: 0 <= j < |ops| ==> SparesAt(maxSize, ops, j) {
      forall n: nat ensures NothingTwice(After(maxSize, ops + Rounds(n))) {
        RoundsSpare(maxSize, ops, n);
        SparedAtMostOnce(maxSize, ops + Rounds(n));
      }
    } else {
      var k :| 0 <= k < |ops| && !SparesAt(maxSize, ops, k);
      RunKeepsSound(maxSize, ops[..k]);
      var r := TouchingDooms(maxSize, After(maxSize, ops[..k]), ops[k]);
      AfterNext(maxSize, ops, k);
      RunKeepsDoomed(maxSize, ops, k + 1, r);
      DoomedTwice(maxSize, ops, r);
    }
  }

  lemma SparedAtMostOnce(maxSize: nat, ops: seq<Op>)
    requires forall j :: 0 <= j < |ops| ==> SparesAt(maxSize, ops, j)
    ensures NothingTwice(After(maxSize, ops))
  {
    SparingAccounted(maxSize, ops, |ops|);
    assert ops[..|ops|] == ops;
    var c := After(maxSize, ops);
    forall r: nat ensures c.closed[r] <= 1 {
      if Passed(c, r) { assert r in c.held.Values; }
    }
  }

  // ─── Least recently used ───────────────────────────────────────────────────

  /** The tenants requested, each once, in the order in which they were last requested. */
  function ByLastUse(uses: seq<TenantId>): seq<TenantId> {
    if uses == [] then [] else Without(ByLastUse(uses[..|uses| - 1]), uses[|uses| - 1]) + [uses[|uses| - 1]]
  }

  function LastUse(uses: seq<TenantId>, t: TenantId): int {
    if uses == [] then -1 else if uses[|uses| - 1] == t then |uses| - 1 else LastUse(uses[..|uses| - 1], t)
  }

  lemma {:induction false} ByLastUseIs(uses: seq<TenantId>)
    ensures Distinct(ByLastUse(uses)) && Elements(ByLastUse(uses)) == Elements(uses)
  {
    if uses != [] {
      var init, last := uses[..|uses| - 1], uses[|uses| - 1];
      ByLastUseIs(init);
      WithoutIs(ByLastUse(init), last);
      var rest := Without(ByLastUse(init), last);
      assert last !in Elements(rest);
      assert Elements(rest + [last]) == Elements(rest) + {last};
      assert uses == init + [last];
      assert Elements(uses) == Elements(init) + {last};
    }
  }

  lemma {:induction false} WithoutKeepsOrder(keys: seq<TenantId>, key: TenantId, i: nat, j: nat)
    requires i < j < |Without(keys, key)|
    ensures exists a, b :: 0 <= a < b < |keys| && keys[a] == Without(keys, key)[i] != key && keys[b] == Without(keys, key)[j] != key
  {
    var init, last := keys[..|keys| - 1], keys[|keys| - 1];
    var w := Without(init, key);
    if j < |w| {
      WithoutKeepsOrder(init, key, i, j);
      var a, b :| 0 <= a < b < |init| && init[a] == w[i] != key && init[b] == w[j] != key;
      assert keys[a] == w[i] && keys[b] == w[j];
    } else {
      WithoutFinds(init, key, i);
      var a :| 0 <= a < |init| && init[a] == w[i] != key;
      assert keys[a] == w[i] && keys[|keys| - 1] == Without(keys, key)[j];
    }
  }

  lemma {:induction false} WithoutFinds(keys: seq<TenantId>, key: TenantId, i: nat)
    requires i < |Without(keys, key)|
    ensures exists a :: 0 <= a < |keys| && keys[a] == Without(keys, key)[i] != key
  {
    var init := keys[..|keys| - 1];
    if i < |Without(init, key)| {
      WithoutFinds(init, key, i);
      var a :| 0 <= a < |init| && init[a] == Without(init, key)[i] != key;
      assert keys[a] == init[a];
    } else {
      assert keys[|keys| - 1] == Without(keys, key)[i];
    }
  }

  /** `ByLastUse` lists by the moment of the last request, as its name says. */
  lemma {:induction false} ByLastUseOrders(uses: seq<TenantId>, i: nat, j: nat)
    requires i < j < |ByLastUse(uses)|
    ensures -1 < LastUse(uses, ByLastUse(uses)[i]) < LastUse(uses, ByLastUse(uses)[j])
  {
    var init, last := uses[..|uses| - 1], uses[|uses| - 1];
    var prior := ByLastUse(init);
    var kept := Without(prior, last);
    if j < |kept| {
      WithoutKeepsOrder(prior, last, i, j);
      var a, b :| 0 <= a < b < |prior| && prior[a] == kept[i] != last && prior[b] == kept[j] != last;
      ByLastUseOrders(init, a, b);
    } else {
      WithoutFinds(prior, last, i);
      var a :| 0 <= a < |prior| && prior[a] == kept[i] != last;
      LastUseOfUsed(init, prior, a);
    }
  }

  lemma {:induction false} LastUseIs(uses: seq<TenantId>, t: TenantId)
    ensures -1 <= LastUse(uses, t) < |uses|
    ensures LastUse(uses, t) == -1 <==> t !in uses
  {
    if uses != [] {
      LastUseIs(uses[..|uses| - 1], t);
      assert uses == uses[..|uses| - 1] + [uses[|uses| - 1]];
    }
  }

  lemma LastUseOfUsed(uses: seq<TenantId>, order: seq<TenantId>, a: nat)
    requires order == ByLastUse(uses) && a < |order|
    ensures -1 < LastUse(uses, order[a]) < |uses|
  {
    ByLastUseIs(uses);
    assert order[a] in Elements(order);
    LastUseIs(uses, order[a]);
  }

  function Gets(uses: seq<TenantId>): seq<Op> { seq(|uses|, i requires 0 <= i < |uses| => Get(uses[i])) }

  /** The last `n` of a list, or all of it. */
  function LastOf(keys: seq<TenantId>, n: nat): seq<TenantId> { if |keys| <= n then keys else keys[|keys| - n..] }

  lemma {:induction false} WithoutInEnd(keys: seq<TenantId>, key: TenantId, from: nat)
    requires Distinct(keys) && from <= |keys| && key in keys[from..]
    ensures from <= |Without(keys, key)| && Without(keys, key)[from..] == Without(keys[from..], key)
  {
    var init, last := keys[..|keys| - 1], keys[|keys| - 1];
    assert keys[from..] == init[from..] + [last];
    assert keys[from..][..|keys| - from - 1] == init[from..];
    if last == key {
      WithoutAbsent(init, key);
      WithoutAbsent(init[from..], key);
    } else {
      WithoutInEnd(init, key, from);
    }
  }

  lemma {:induction false} WithoutNotInEnd(keys: seq<TenantId>, key: TenantId, from: nat)
    requires from <= |keys| && key !in keys[from..]
    ensures var w, n := Without(keys, key), |keys| - from; |w| >= n && w[|w| - n..] == keys[from..]
  {
    if from < |keys| {
      var init, last := keys[..|keys| - 1], keys[|keys| - 1];
      assert keys[from..] == init[from..] + [last];
      WithoutNotInEnd(init, key, from);
    }
  }

  lemma {:induction false} WithoutAbsent(keys: seq<TenantId>, key: TenantId)
    requires key !in keys
    ensures Without(keys, key) == keys
  {
    if keys != [] {
      WithoutAbsent(keys[..|keys| - 1], key);
      assert keys == keys[..|keys| - 1] + [keys[|keys| - 1]];
    }
  }

  lemma {:induction false} WithoutHead(keys: seq<TenantId>)
    requires Distinct(keys) && keys != []
    ensures Without(keys, keys[0]) == keys[1..]
  {
    var init := keys[..|keys| - 1];
    if init != [] {
      WithoutHead(init);
      assert keys[1..] == init[1..] + [keys[|keys| - 1]];
    }
  }

  lemma AfterGet(maxSize: nat, uses: seq<TenantId>)
    requires uses != []
    ensures var init, t := uses[..|uses| - 1], uses[|uses| - 1];
            After(maxSize, Gets(uses)) == Apply(maxSize, After(maxSize, Gets(init)), Get(t))
  {
    assert Gets(uses)[..|uses| - 1] == Gets(uses[..|uses| - 1]);
  }

  lemma LastOfPush(keys: seq<TenantId>, t: TenantId, n: nat)
    requires 1 <= n
    ensures LastOf(keys + [t], n) == LastOf(keys, n - 1) + [t]
  {
  }

  lemma WithoutOneOfEnd(order: seq<TenantId>, t: TenantId, n: nat)
    requires Distinct(order) && t in LastOf(order, n) && 1 <= n
    ensures LastOf(Without(order, t), n - 1) == Without(LastOf(order, n), t)
  {
    WithoutIs(order, t);
    if |order| > n {
      WithoutInEnd(order, t, |order| - n);
      assert t in order;
    }
  }

  lemma HitKeepsOrder(order: seq<TenantId>, t: TenantId, n: nat)
    requires Distinct(order) && t in LastOf(order, n) && 1 <= n
    ensures LastOf(Without(order, t) + [t], n) == Without(LastOf(order, n), t) + [t]
  {
    LastOfPush(Without(order, t), t, n);
    WithoutOneOfEnd(order, t, n);
  }

  /** Taking out what is not among the last changes nothing there. */
  lemma WithoutOutside(order: seq<TenantId>, t: TenantId, n: nat)
    requires Distinct(order) && t !in LastOf(order, n)
    ensures LastOf(Without(order, t), n) == LastOf(order, n)
  {
    if |order| <= n {
      WithoutAbsent(order, t);
    } else {
      WithoutNotInEnd(order, t, |order| - n);
    }
  }

  lemma MissKeepsOrder(order: seq<TenantId>, t: TenantId, n: nat)
    requires Distinct(order) && t !in LastOf(order, n) && 1 <= n
    ensures var keys := LastOf(order, n);
            LastOf(Without(order, t) + [t], n) == (if |keys| < n then keys else Without(keys, keys[0])) + [t]
  {
    var rest := Without(order, t);
    WithoutOutside(order, t, n);
    LastOfPush(rest, t, n);
    LastOfLess(rest, n);
    DistinctEnd(order, n);
    if |LastOf(order, n)| == n { WithoutHead(LastOf(order, n)); }
  }

  lemma DistinctEnd(order: seq<TenantId>, n: nat)
    requires Distinct(order)
    ensures Distinct(LastOf(order, n))
  {
  }

  lemma LastOfLess(keys: seq<TenantId>, n: nat)
    requires 1 <= n
    ensures LastOf(keys, n - 1) == if |keys| < n then LastOf(keys, n) else LastOf(keys, n)[1..]
  {
  }

  /** Without an `endAll` the loop has passed nothing. */
  lemma {:induction false} NothingPassed(maxSize: nat, uses: seq<TenantId>)
    ensures After(maxSize, Gets(uses)).ended == []
  {
    if uses != [] {
      NothingPassed(maxSize, uses[..|uses| - 1]);
      AfterGet(maxSize, uses);
    }
  }

  lemma GetKeepsOrder(maxSize: nat, c: Cache, order: seq<TenantId>, t: TenantId)
    requires 1 <= maxSize && Sound(maxSize, c) && c.ended == [] && Distinct(order) && c.keys == LastOf(order, maxSize)
    ensures Apply(maxSize, c, Get(t)).keys == LastOf(Without(order, t) + [t], maxSize)
  {
    assert c.ended + c.keys == c.keys;
    assert t in c.held <==> t in Elements(c.keys);
    if t in c.keys {
      HitKeepsOrder(order, t, maxSize);
    } else {
      MissKeepsOrder(order, t, maxSize);
      if c.keys != [] { assert c.keys[0] in Elements(c.keys); }
    }
  }

  /** After any requests the cache holds exactly the `maxSize` tenants requested last, in the order of last request. */
  lemma {:induction false} HoldsMostRecent(maxSize: nat, uses: seq<TenantId>)
    requires 1 <= maxSize
    ensures After(maxSize, Gets(uses)).keys == LastOf(ByLastUse(uses), maxSize)
    ensures forall t :: t in After(maxSize, Gets(uses)).held <==> t in LastOf(ByLastUse(uses), maxSize)
  {
    var c := After(maxSize, Gets(uses));
    RunKeepsSound(maxSize, Gets(uses));
    NothingPassed(maxSize, uses);
    if uses != [] {
      var init, t := uses[..|uses| - 1], uses[|uses| - 1];
      HoldsMostRecent(maxSize, init);
      AfterGet(maxSize, uses);
      RunKeepsSound(maxSize, Gets(init));
      NothingPassed(maxSize, init);
      ByLastUseIs(init);
      GetKeepsOrder(maxSize, After(maxSize, Gets(init)), ByLastUse(init), t);
    }
    assert forall t :: t in c.held <==> t in Elements(c.keys);
  }

  /** On the same requests a smaller cache is the most recent end of a larger one: more room never misses more. */
  lemma SmallerIsContained(small: nat, large: nat, uses: seq<TenantId>)
    requires 1 <= small <= large
    ensures var s, l := After(small, Gets(uses)).keys, After(large, Gets(uses)).keys;
            |s| <= |l| && s == l[|l| - |s|..]
    ensures forall t :: t in After(small, Gets(uses)).held ==> t in After(large, Gets(uses)).held
  {
    HoldsMostRecent(small, uses);
    HoldsMostRecent(large, uses);
    var s, l := After(small, Gets(uses)).keys, After(large, Gets(uses)).keys;
    assert s == l[|l| - |s|..];
  }

  // ─── The object ────────────────────────────────────────────────────────────

  /** `passed` is where the iterator of an `endAll` under way stands. */
  class TenantResourceCache {
    const maxSize: nat
    var passed: seq<TenantId>
    var keys: seq<TenantId>
    var held: map<TenantId, nat>
    var created: nat
    ghost var closed: multiset<nat>

    ghost function State(): Cache
      reads this
    {
      Cache(passed, keys, held, created, closed)
    }

    constructor (maxSize: nat)
      ensures this.maxSize == maxSize && State() == EMPTY
    {
      this.maxSize := maxSize;
      passed, keys, held, created, closed := [], [], map[], 0, multiset{};
    }

    /** None stands for the exception of a cache that has no room at all. */
    method GetResource(tenant: TenantId) returns (resource: Option<nat>)
      requires Sound(maxSize, State())
      modifies this
      ensures State() == Apply(maxSize, old(State()), Get(tenant)) && Sound(maxSize, State())
      ensures resource == if maxSize == 0 then None else Some(held[tenant])
      ensures tenant in old(held) ==> held == old(held) && created == old(created) && closed == old(closed)
      ensures tenant !in old(held) && |old(passed + keys)| < maxSize ==>
                held == old(held)[tenant := old(created)] && created == old(created) + 1 && closed == old(closed)
      ensures tenant !in old(held) && 0 < maxSize <= |old(passed + keys)| ==>
                var oldest := old(passed + keys)[0];
                && held == (old(held) - {oldest})[tenant := old(created)] && created == old(created) + 1
                && closed == old(closed) + multiset{old(held)[oldest]}
      ensures maxSize > 0 ==> keys != [] && keys[|keys| - 1] == tenant
    {
      OpKeepsSound(maxSize, State(), Get(tenant));
      if tenant in held {
        passed, keys := Without(passed, tenant), Without(keys, tenant) + [tenant];
        return Some(held[tenant]);
      }
      var order := passed + keys;
      if |order| >= maxSize {
        if order == [] { return None; }
        OldestIsHeld(maxSize, State());
        EvictResource(order[0]);
      }
      CreateResource(tenant);
      resource := Some(held[tenant]);
    }

    method CreateResource(tenant: TenantId)
      modifies this
      ensures State() == Created(old(State()), tenant)
    {
      keys, held, created := keys + [tenant], held[tenant := created], created + 1;
    }

    method EvictResource(tenant: TenantId)
      modifies this
      ensures State() == Apply(maxSize, old(State()), Evict(tenant))
      ensures held == old(held) - {tenant} && created == old(created)
      ensures closed == if tenant in old(held) then old(closed) + multiset{old(held)[tenant]} else old(closed)
    {
      if tenant !in held { return; }
      closed := closed + multiset{held[tenant]};
      passed, keys, held := Without(passed, tenant), Without(keys, tenant), held - {tenant};
    }

    /** From one await of `endAll` to the next; the answer is the resource whose end is awaited. */
    method EndOne() returns (awaited: Option<nat>)
      requires Sound(maxSize, State())
      modifies this
      ensures State() == Apply(maxSize, old(State()), EndNext) && Sound(maxSize, State())
      ensures awaited == if old(keys) == [] then None else Some(held[old(keys)[0]])
      ensures awaited.Some? ==> held == old(held) && closed == old(closed) + multiset{awaited.value} && passed + keys == old(passed + keys)
      ensures awaited.None? ==> held == map[] && closed == old(closed)
    {
      EndedNextKeepsSound(maxSize, State());
      if keys == [] {
        passed, held := [], map[];
        return None;
      }
      assert keys[0] in Elements(keys);
      awaited := Some(held[keys[0]]);
      closed := closed + multiset{held[keys[0]]};
      passed, keys := passed + [keys[0]], keys[1..];
    }

    /** `endAll` with nothing in between ends every resource that is not ended yet, and leaves the cache empty. */
    method EndEvery()
      requires Sound(maxSize, State())
      modifies this
      ensures Sound(maxSize, State()) && held == map[] && created == old(created)
      ensures old(Accounted(State())) ==> forall r :: 0 <= r < created ==> closed[r] == 1
    {
      ghost var accounted := Accounted(State());
      while true
        invariant Sound(maxSize, State()) && created == old(created)
        invariant accounted ==> Accounted(State())
        decreases |keys|
      {
        ghost var before := State();
        if accounted { EndedNextAccounted(maxSize, before); }
        var awaited := EndOne();
        assert State() == EndedNext(before);
        if awaited.None? { break; }
      }
    }
  }
}
