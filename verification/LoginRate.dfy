/** The sliding-window bound of the login throttle, over whole runs of the table. */
module LoginRate {
  import opened Prelude
  import opened LoginThrottle

  /** What is known of one key: attempts let through and not settled, and the failures confirmed so far. */
  datatype Watch = Watch(inflight: multiset<nat>, confirmed: seq<nat>)

  /** An untracked key behaves like one with a fresh entry. */
  function EntryOf(t: Table, key: Key): Entry {
    if key in t.entries then t.entries[key] else FRESH_ENTRY
  }

  /** How an operation changes what is known of the key. */
  function Observe(o: Options, t: Table, w: Watch, key: Key, op: Op): Watch
    requires Valid(t)
  {
    match op
    case OpBegin(k, checkedAt, now) =>
      if k == key && Admitted(o, t, key, checkedAt, now) then w.(inflight := w.inflight + multiset{now}) else w
    case OpFail(k, began, now) =>
      if k == key then Watch(w.inflight - multiset{began}, w.confirmed + [now]) else w
    case OpRelease(k, began, _) => if k == key then w.(inflight := w.inflight - multiset{began}) else w
    case _ => w
  }

  /**
   * The conditions of the bound: an attempt settles once, within `pendingTtlMs`; failures of the key come from
   * attempts; the key has no success; and its entry is evicted only when stale.
   */
  ghost predicate Orderly(o: Options, t: Table, w: Watch, key: Key, op: Op)
    requires Valid(t)
  {
    && (forall b :: b in w.inflight ==> End(op) - b < o.pendingTtlMs)
    && (op.OpFail? && op.key == key ==> op.began in w.inflight)
    && !(op.OpFailure? && op.key == key)
    && !(op.OpSuccess? && op.key == key)
    && (key in t.entries && key !in Apply(o, t, op).entries ==> Stale(o, t.entries[key], op.now))
  }

  // ─── Recent times ──────────────────────────────────────────────────────────

  lemma {:induction false} AllRecent(times: seq<nat>, now: nat, span: nat)
    requires forall x :: x in times ==> now - x < span
    ensures Recent(times, now, span) == times
  {
    if times != [] {
      var init := times[..|times| - 1];
      assert times[|times| - 1] in times;
      forall x | x in init ensures now - x < span {
        assert x in times;
      }
      AllRecent(init, now, span);
      assert times == times[..|times| - 1] + [times[|times| - 1]];
    }
  }

  lemma {:induction false} NoneRecent(times: seq<nat>, now: nat, span: nat)
    requires forall x :: x in times ==> now - x >= span
    ensures Recent(times, now, span) == []
  {
    if times != [] {
      var init := times[..|times| - 1];
      assert times[|times| - 1] in times;
      forall x | x in init ensures now - x >= span {
        assert x in times;
      }
      NoneRecent(init, now, span);
    }
  }

  lemma RecentPush(times: seq<nat>, x: nat, now: nat, span: nat)
    ensures Recent(times + [x], now, span) == if now - x < span then Recent(times, now, span) + [x] else Recent(times, now, span)
  {
    assert (times + [x])[..|times|] == times;
  }

  lemma {:induction false} RemoveFirstIs(times: seq<nat>, x: nat)
    ensures multiset(RemoveFirst(times, x)) == multiset(times) - multiset{x}
  {
    if times != [] {
      assert times == [times[0]] + times[1..];
      if times[0] != x {
        RemoveFirstIs(times[1..], x);
      }
    }
  }

  // ─── The invariant of one key ──────────────────────────────────────────────

  /**
   * While unlocked, the entry's recent failures are the recent confirmed ones; while locked, nothing is in
   * flight and every confirmed failure is at least `lockMs` before the end of the lock. Failures and
   * attempts in flight together never exceed `maxFailures`.
   */
  ghost predicate KeyOK(o: Options, e: Entry, w: Watch, clock: nat) {
    && multiset(e.pending) == w.inflight
    && (forall h :: h in w.confirmed ==> h <= clock)
    && (if Locked(e, clock)
        then w.inflight == multiset{} && e.failures == [] && (forall h :: h in w.confirmed ==> h + o.lockMs <= e.lockedUntil)
        else Recent(e.failures, clock, o.windowMs) == Recent(w.confirmed, clock, o.windowMs))
    && |Recent(e.failures, clock, o.windowMs)| + |w.inflight| <= o.maxFailures
  }

  /** Time alone keeps it, through the end of a lock too. */
  lemma TimePasses(o: Options, e: Entry, w: Watch, clock: nat, later: nat)
    requires KeyOK(o, e, w, clock) && clock <= later && o.windowMs <= o.lockMs
    ensures KeyOK(o, e, w, later)
  {
    RecentShrinks(e.failures, clock, later, o.windowMs);
    RecentShrinks(w.confirmed, clock, later, o.windowMs);
    if Locked(e, clock) && !Locked(e, later) {
      NoneRecent(w.confirmed, later, o.windowMs);
    }
  }

  lemma ActivePendingIs(o: Options, e: Entry, w: Watch, now: nat)
    requires multiset(e.pending) == w.inflight
    requires forall b :: b in w.inflight ==> now - b < o.pendingTtlMs
    ensures ActivePending(o, e, now) == |w.inflight|
  {
    forall x | x in e.pending ensures now - x < o.pendingTtlMs {
      assert x in multiset(e.pending);
    }
    AllRecent(e.pending, now, o.pendingTtlMs);
    assert |multiset(e.pending)| == |e.pending|;
  }

  lemma BeginKeepsKey(o: Options, e: Entry, w: Watch, checkedAt: nat, now: nat)
    requires KeyOK(o, e, w, checkedAt) && checkedAt <= now && o.windowMs <= o.lockMs
    requires forall b :: b in w.inflight ==> now - b < o.pendingTtlMs
    requires !Locked(e, checkedAt) && ActiveFailures(o, e, checkedAt) + ActivePending(o, e, checkedAt) < o.maxFailures
    ensures KeyOK(o, e.(pending := e.pending + [now]), w.(inflight := w.inflight + multiset{now}), now)
  {
    ActivePendingIs(o, e, w, checkedAt);
    TimePasses(o, e, w, checkedAt, now);
    RecentShrinks(e.failures, checkedAt, now, o.windowMs);
  }

  lemma ReleaseKeepsKey(o: Options, e: Entry, w: Watch, began: nat, now: nat)
    requires KeyOK(o, e, w, now)
    ensures KeyOK(o, e.(pending := RemoveFirst(e.pending, began)), w.(inflight := w.inflight - multiset{began}), now)
  {
    RemoveFirstIs(e.pending, began);
    FewerInflight(w.inflight, began);
  }

  /** Giving back what is not held changes nothing. */
  lemma FewerInflight(inflight: multiset<nat>, began: nat)
    ensures |inflight - multiset{began}| <= |inflight| && (inflight == multiset{} ==> inflight - multiset{began} == multiset{})
  {
    if began in inflight {
      assert inflight == (inflight - multiset{began}) + multiset{began};
    } else {
      assert inflight - multiset{began} == inflight;
    }
  }

  /** Counting one more failure against what was recent before it. */
  lemma OneMoreFailure(o: Options, e: Entry, w: Watch, now: nat)
    requires KeyOK(o, e, w, now) && !Locked(e, now) && 0 < o.windowMs && w.inflight != multiset{}
    ensures var recent := Recent(e.failures, now, o.windowMs) + [now];
            && recent == Recent(w.confirmed + [now], now, o.windowMs) == Recent(recent, now, o.windowMs)
            && |recent| + |w.inflight| - 1 <= o.maxFailures
  {
    var recent := Recent(e.failures, now, o.windowMs);
    RecentPush(w.confirmed, now, now, o.windowMs);
    RecentPush(recent, now, now, o.windowMs);
    RecentShrinks(e.failures, now, now, o.windowMs);
  }

  lemma OneSettled(pending: seq<nat>, inflight: multiset<nat>, began: nat)
    requires multiset(pending) == inflight && began in inflight
    ensures multiset(RemoveFirst(pending, began)) == inflight - multiset{began}
    ensures |inflight - multiset{began}| == |inflight| - 1 && inflight != multiset{}
  {
    RemoveFirstIs(pending, began);
  }

  /** A confirmed failure keeps it; and if it starts a lock, no attempt is left in flight. */
  lemma FailKeepsKey(o: Options, e: Entry, w: Watch, began: nat, now: nat)
    requires KeyOK(o, e, w, now) && began in w.inflight && 0 < o.windowMs <= o.lockMs
    ensures var e' := WithFailure(o, e.(pending := RemoveFirst(e.pending, began)), now);
            var w' := Watch(w.inflight - multiset{began}, w.confirmed + [now]);
            && KeyOK(o, e', w', now)
            && |Recent(w'.confirmed, now, o.windowMs)| <= o.maxFailures
            && (Locked(e', now) ==> w'.inflight == multiset{})
  {
    OneSettled(e.pending, w.inflight, began);
    OneMoreFailure(o, e, w, now);
    assert Recent([], now, o.windowMs) == [];
    var recent, left := Recent(e.failures, now, o.windowMs) + [now], w.inflight - multiset{began};
    if |recent| >= o.maxFailures {
      assert |left| == 0;
      assert left == multiset{};
    }
  }

  // ─── One operation on the table ────────────────────────────────────────────

  /** An operation on another key leaves this one's entry alone, or evicts it. */
  lemma OtherKeyUntouched(o: Options, t: Table, key: Key, op: Op)
    requires Valid(t) && op.key != key
    ensures var t' := Apply(o, t, op);
            && (key !in t.entries ==> key !in t'.entries)
            && (key in t'.entries ==> t'.entries[key] == t.entries[key])
  {
    match op
    case OpBegin(k, checkedAt, now) => MakeRoomIs(o, t, now);
    case OpFail(k, began, now) =>
      SettleIs(t, k, began);
      MakeRoomIs(o, Settle(t, k, began), now);
    case OpRelease(k, began, _) =>
    case OpFailure(k, now) => MakeRoomIs(o, t, now);
    case OpSuccess(k, now, later) =>
  }

  /** Evicting a stale entry loses nothing that still counts. */
  lemma StaleIsFresh(o: Options, e: Entry, w: Watch, now: nat)
    requires KeyOK(o, e, w, now) && Stale(o, e, now)
    requires forall b :: b in w.inflight ==> now - b < o.pendingTtlMs
    ensures KeyOK(o, FRESH_ENTRY, w, now)
  {
    ActivePendingIs(o, e, w, now);
    assert Recent([], now, o.windowMs) == [];
  }

  ghost predicate TableOK(o: Options, t: Table, w: Watch, key: Key, clock: nat) {
    KeyOK(o, EntryOf(t, key), w, clock)
  }

  lemma OpKeepsKey(o: Options, t: Table, w: Watch, key: Key, op: Op)
    requires Valid(t) && 0 < o.windowMs <= o.lockMs && 0 < o.maxFailures
    requires TableOK(o, t, w, key, Start(op)) && Start(op) <= End(op) && Orderly(o, t, w, key, op)
    ensures TableOK(o, Apply(o, t, op), Observe(o, t, w, key, op), key, End(op))
    ensures var w' := Observe(o, t, w, key, op);
            && (w'.confirmed == w.confirmed
                || (w'.confirmed == w.confirmed + [End(op)] && |Recent(w'.confirmed, End(op), o.windowMs)| <= o.maxFailures))
            && (!Locked(EntryOf(t, key), End(op)) && Locked(EntryOf(Apply(o, t, op), key), End(op)) ==> w'.inflight == multiset{})
  {
    var e := EntryOf(t, key);
    TimePasses(o, e, w, Start(op), End(op));
    if op.key != key {
      OtherKeyUntouched(o, t, key, op);
      if key in t.entries && key !in Apply(o, t, op).entries {
        assert op.now <= End(op);
        StaleLater(o, e, op.now, End(op));
        StaleIsFresh(o, e, w, End(op));
      }
    } else {
      match op
      case OpBegin(_, checkedAt, now) =>
        MakeRoomIs(o, t, now);
        if Admitted(o, t, key, checkedAt, now) { AdmitKeepsKey(o, t, w, key, checkedAt, now); }
      case OpFail(_, began, now) =>
        assert began in w.inflight;
        PendingTracked(t, w, key);
        FailKeepsKey(o, e, w, began, now);
      case OpRelease(_, began, now) =>
        ReleaseKeepsKey(o, e, w, began, now);
        SettledEntry(t, key, began);
    }
  }

  /** Also of an untracked key, of which nothing is held. */
  lemma SettledEntry(t: Table, key: Key, began: nat)
    requires Valid(t)
    ensures EntryOf(Settle(t, key, began), key) == EntryOf(t, key).(pending := RemoveFirst(EntryOf(t, key).pending, began))
  {
    SettleIs(t, key, began);
  }

  lemma StaleLater(o: Options, e: Entry, now: nat, later: nat)
    requires Stale(o, e, now) && now <= later
    ensures Stale(o, e, later)
  {
    RecentShrinks(e.failures, now, later, o.windowMs);
    RecentShrinks(e.pending, now, later, o.pendingTtlMs);
  }

  /** A key with an attempt in flight is tracked. */
  lemma PendingTracked(t: Table, w: Watch, key: Key)
    requires multiset(EntryOf(t, key).pending) == w.inflight && w.inflight != multiset{}
    ensures key in t.entries
  {
    assert key !in t.entries ==> EntryOf(t, key).pending == [];
  }

  lemma AdmitKeepsKey(o: Options, t: Table, w: Watch, key: Key, checkedAt: nat, now: nat)
    requires Valid(t) && o.windowMs <= o.lockMs && checkedAt <= now && Admitted(o, t, key, checkedAt, now)
    requires TableOK(o, t, w, key, checkedAt) && forall b :: b in w.inflight ==> now - b < o.pendingTtlMs
    requires 0 < o.maxFailures
    ensures TableOK(o, Begin(o, t, key, checkedAt, now), w.(inflight := w.inflight + multiset{now}), key, now)
  {
    MakeRoomIs(o, t, now);
    if key !in t.entries {
      assert FRESH_ENTRY.pending + [now] == [now];
      assert Recent([], checkedAt, o.windowMs) == [] && Recent([], checkedAt, o.pendingTtlMs) == [];
    }
    BeginKeepsKey(o, EntryOf(t, key), w, checkedAt, now);
  }

  // ─── Whole runs ────────────────────────────────────────────────────────────

  function WatchAfter(o: Options, ops: seq<Op>, key: Key): Watch {
    if ops == [] then Watch(multiset{}, [])
    else
      var before := ops[..|ops| - 1];
      Observe(o, TableAfter(o, before), WatchAfter(o, before, key), key, ops[|ops| - 1])
  }

  ghost predicate OrderlyAt(o: Options, ops: seq<Op>, key: Key, k: nat)
    requires k < |ops|
  {
    Orderly(o, TableAfter(o, ops[..k]), WatchAfter(o, ops[..k], key), key, ops[k])
  }

  ghost predicate OrderlyRun(o: Options, ops: seq<Op>, key: Key) {
    forall k :: 0 <= k < |ops| ==> OrderlyAt(o, ops, key, k)
  }

  function Clock(ops: seq<Op>): nat { if ops == [] then 0 else End(ops[|ops| - 1]) }

  /** How many of the times lie in the interval of length `span` that starts at `from`. */
  function InWindow(times: seq<nat>, from: nat, span: nat): nat {
    if times == [] then 0
    else InWindow(times[..|times| - 1], from, span) + if from <= times[|times| - 1] < from + span then 1 else 0
  }

  lemma {:induction false} WindowIsRecent(times: seq<nat>, from: nat, now: nat, span: nat)
    requires forall x :: x in times ==> x <= now
    requires now < from + span
    ensures InWindow(times, from, span) <= |Recent(times, now, span)|
  {
    if times != [] {
      var init := times[..|times| - 1];
      assert times[|times| - 1] in times;
      forall x | x in init ensures x <= now {
        assert x in times;
      }
      WindowIsRecent(init, from, now, span);
    }
  }

  ghost predicate RateOK(o: Options, w: Watch) {
    forall from: nat :: InWindow(w.confirmed, from, o.windowMs) <= o.maxFailures
  }

  lemma ConfirmedInWindow(times: seq<nat>, now: nat, from: nat, span: nat, max: nat)
    requires InWindow(times, from, span) <= max && (forall h :: h in times ==> h <= now)
    requires |Recent(times + [now], now, span)| <= max
    ensures InWindow(times + [now], from, span) <= max
  {
    assert (times + [now])[..|times|] == times;
    if from <= now < from + span { WindowIsRecent(times + [now], from, now, span); }
  }

  lemma ConfirmKeepsRate(o: Options, w: Watch, now: nat)
    requires RateOK(o, w) && forall h :: h in w.confirmed ==> h <= now
    requires |Recent(w.confirmed + [now], now, o.windowMs)| <= o.maxFailures
    ensures RateOK(o, w.(confirmed := w.confirmed + [now]))
  {
    forall from: nat ensures InWindow(w.confirmed + [now], from, o.windowMs) <= o.maxFailures {
      ConfirmedInWindow(w.confirmed, now, from, o.windowMs, o.maxFailures);
    }
  }

  lemma WatchNext(o: Options, ops: seq<Op>, key: Key, k: nat)
    requires k < |ops|
    ensures WatchAfter(o, ops[..k + 1], key) == Observe(o, TableAfter(o, ops[..k]), WatchAfter(o, ops[..k], key), key, ops[k])
  {
    assert ops[..k + 1][..k] == ops[..k];
  }

  lemma {:induction false} KeyAlongRuns(o: Options, ops: seq<Op>, key: Key, k: nat)
    requires 0 < o.windowMs <= o.lockMs && 0 < o.maxFailures
    requires Clocked(ops) && OrderlyRun(o, ops, key) && k <= |ops|
    ensures TableOK(o, TableAfter(o, ops[..k]), WatchAfter(o, ops[..k], key), key, Clock(ops[..k]))
    ensures RateOK(o, WatchAfter(o, ops[..k], key))
  {
    if k == 0 {
      assert Recent([], 0, o.windowMs) == [];
    } else {
      KeyAlongRuns(o, ops, key, k - 1);
      KeyOneStep(o, ops, key, k - 1);
    }
  }

  lemma KeyOneStep(o: Options, ops: seq<Op>, key: Key, k: nat)
    requires 0 < o.windowMs <= o.lockMs && 0 < o.maxFailures
    requires Clocked(ops) && OrderlyRun(o, ops, key) && k < |ops|
    requires TableOK(o, TableAfter(o, ops[..k]), WatchAfter(o, ops[..k], key), key, Clock(ops[..k]))
    requires RateOK(o, WatchAfter(o, ops[..k], key))
    ensures TableOK(o, TableAfter(o, ops[..k + 1]), WatchAfter(o, ops[..k + 1], key), key, Clock(ops[..k + 1]))
    ensures RateOK(o, WatchAfter(o, ops[..k + 1], key))
    ensures var end := End(ops[k]);
            && !Locked(EntryOf(TableAfter(o, ops[..k]), key), end) && Locked(EntryOf(TableAfter(o, ops[..k + 1]), key), end)
            ==> WatchAfter(o, ops[..k + 1], key).inflight == multiset{}
  {
    var t, w, op := TableAfter(o, ops[..k]), WatchAfter(o, ops[..k], key), ops[k];
    assert OrderlyAt(o, ops, key, k);
    assert Clock(ops[..k]) <= Start(op) <= End(op);
    TimePasses(o, EntryOf(t, key), w, Clock(ops[..k]), Start(op));
    OpKeepsKey(o, t, w, key, op);
    AfterNext(o, ops, k);
    WatchNext(o, ops, key, k);
    if Observe(o, t, w, key, op).confirmed != w.confirmed {
      ConfirmKeepsRate(o, w, End(op));
    }
  }

  /**
   * The rate bound. With a clock that never goes back, `lockMs` at least `windowMs`, attempts that settle in
   * time and no success or early eviction of the key: however the attempts overlap, every interval of length
   * `windowMs` holds at most `maxFailures` confirmed failures of the key.
   */
  lemma RateBound(o: Options, ops: seq<Op>, key: Key, from: nat)
    requires 0 < o.windowMs <= o.lockMs && 0 < o.maxFailures
    requires Clocked(ops) && OrderlyRun(o, ops, key)
    ensures InWindow(WatchAfter(o, ops, key).confirmed, from, o.windowMs) <= o.maxFailures
  {
    KeyAlongRuns(o, ops, key, |ops|);
    assert ops[..|ops|] == ops;
  }

  /** And when a lock on the key starts, no admitted attempt on it is still in flight. */
  lemma LockStartsQuiet(o: Options, ops: seq<Op>, key: Key, k: nat)
    requires 0 < o.windowMs <= o.lockMs && 0 < o.maxFailures
    requires Clocked(ops) && OrderlyRun(o, ops, key) && k < |ops|
    requires !Locked(EntryOf(TableAfter(o, ops[..k]), key), End(ops[k]))
    requires Locked(EntryOf(TableAfter(o, ops[..k + 1]), key), End(ops[k]))
    ensures WatchAfter(o, ops[..k + 1], key).inflight == multiset{}
  {
    KeyAlongRuns(o, ops, key, k);
    KeyOneStep(o, ops, key, k);
  }

  // ─── Never stricter than that ──────────────────────────────────────────────

  /**
   * Exactly: along such a run a tracked key that is not locked is let in if and only if its failures confirmed less
   * than `windowMs` ago and its attempts in flight are together below `maxFailures`.
   */
  lemma AllowedExactly(o: Options, ops: seq<Op>, key: Key, now: nat)
    requires 0 < o.windowMs <= o.lockMs && 0 < o.maxFailures
    requires Clocked(ops) && OrderlyRun(o, ops, key) && Clock(ops) <= now
    requires key in TableAfter(o, ops).entries && TableAfter(o, ops).entries[key].lockedUntil <= now
    requires forall b :: b in WatchAfter(o, ops, key).inflight ==> now - b < o.pendingTtlMs
    ensures var w := WatchAfter(o, ops, key);
            Check(o, TableAfter(o, ops), key, now).Allowed? <==> |Within(w.confirmed, now, o.windowMs)| + |w.inflight| < o.maxFailures
  {
    var t, w := TableAfter(o, ops), WatchAfter(o, ops, key);
    KeyAlongRuns(o, ops, key, |ops|);
    assert ops[..|ops|] == ops;
    TimePasses(o, t.entries[key], w, Clock(ops), now);
    ActivePendingIs(o, t.entries[key], w, now);
    RecentCounts(w.confirmed, now, o.windowMs);
  }

  /** And a confirmed failure locks the key, for `lockMs`, exactly if it makes `maxFailures` within `windowMs`. */
  lemma LockStartsExactly(o: Options, ops: seq<Op>, key: Key, k: nat)
    requires 0 < o.windowMs <= o.lockMs && 0 < o.maxFailures
    requires Clocked(ops) && OrderlyRun(o, ops, key) && k < |ops| && ops[k].OpFail? && ops[k].key == key
    ensures var now, confirmed := ops[k].now, WatchAfter(o, ops[..k + 1], key).confirmed;
            && key in TableAfter(o, ops[..k + 1]).entries
            && var e := TableAfter(o, ops[..k + 1]).entries[key];
            if |Within(confirmed, now, o.windowMs)| >= o.maxFailures then e.lockedUntil == now + o.lockMs else e.lockedUntil <= now
  {
    var t, w, op := TableAfter(o, ops[..k]), WatchAfter(o, ops[..k], key), ops[k];
    KeyAlongRuns(o, ops, key, k);
    assert OrderlyAt(o, ops, key, k);
    TimePasses(o, EntryOf(t, key), w, Clock(ops[..k]), op.now);
    PendingTracked(t, w, key);
    AfterNext(o, ops, k);
    WatchNext(o, ops, key, k);
    OneMoreFailure(o, EntryOf(t, key), w, op.now);
    RecentCounts(w.confirmed + [op.now], op.now, o.windowMs);
  }
}
