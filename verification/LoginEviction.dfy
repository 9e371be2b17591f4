/**
 * Whom the full table of the login throttle gives up, and how long it tells a caller to wait (auth/LoginThrottle.ts).
 *
 * The table itself and its operations are in `LoginThrottle`. Here: entries that no longer count go first, then
 * the oldest that is not locked, and a lock never goes; and the waits that are told are exact, for a locked key and
 * for a table of locked keys.
 */
module LoginEviction {
  import opened Prelude
  import opened LoginThrottle

  // ─── Who is evicted ────────────────────────────────────────────────────────

  lemma {:induction false} StaleAreDropped(o: Options, t: Table, todo: seq<Key>, now: nat)
    requires Valid(t)
    ensures forall k :: k in todo && k in t.entries && k in DropStale(o, t, todo, now).entries ==> !Stale(o, t.entries[k], now)
    decreases |todo|
  {
    if todo != [] {
      assert todo == [todo[0]] + todo[1..];
      DropStaleIs(o, t, todo[1..], now);
      if todo[0] in t.entries && Stale(o, t.entries[todo[0]], now) {
        var fewer := Without(t, todo[0]);
        WithoutValid(t, todo[0]);
        StaleAreDropped(o, fewer, todo[1..], now);
        DropStaleIs(o, fewer, todo[1..], now);
      } else {
        StaleAreDropped(o, t, todo[1..], now);
      }
    }
  }

  /** While a full table has entries that no longer count, exactly those go. */
  lemma StaleGoFirst(o: Options, t: Table, now: nat, stale: Key, k: Key)
    requires Valid(t) && |t.keys| == o.maxKeys
    requires stale in t.entries && Stale(o, t.entries[stale], now)
    requires k in t.entries
    ensures k !in MakeRoom(o, t, now).entries <==> Stale(o, t.entries[k], now)
  {
    var t1 := DropStale(o, t, t.keys, now);
    DropStaleIs(o, t, t.keys, now);
    StaleAreDropped(o, t, t.keys, now);
    assert stale in Elements(t.keys) && k in Elements(t.keys);
    SmallerTable(t, t1, stale);
    assert DropOldest(o, t1, t1.keys, now) == t1;
  }

  /** The place of the oldest unlocked entry. */
  ghost predicate OldestUnlocked(t: Table, i: nat, now: nat) {
    && i < |t.keys| && (forall k :: k in t.keys ==> k in t.entries)
    && !Locked(t.entries[t.keys[i]], now)
    && forall j :: 0 <= j < i ==> Locked(t.entries[t.keys[j]], now)
  }

  lemma {:induction false} OldestIsDropped(o: Options, t: Table, from: nat, i: nat, now: nat)
    requires Valid(t) && |t.keys| == o.maxKeys && from <= i && OldestUnlocked(t, i, now)
    ensures DropOldest(o, t, t.keys[from..], now) == Without(t, t.keys[i])
    decreases i - from
  {
    var todo := t.keys[from..];
    assert todo[0] == t.keys[from] && todo[1..] == t.keys[from + 1..];
    if from < i {
      OldestIsDropped(o, t, from + 1, i, now);
    } else {
      WithoutValid(t, t.keys[i]);
      assert t.keys[i] in t.keys;
      StopsWhenRoom(o, Without(t, t.keys[i]), todo[1..], now);
    }
  }

  lemma StopsWhenRoom(o: Options, t: Table, todo: seq<Key>, now: nat)
    requires |t.keys| < o.maxKeys
    ensures DropOldest(o, t, todo, now) == t
  {
  }

  lemma {:induction false} NoneStaleNoneDropped(o: Options, t: Table, todo: seq<Key>, now: nat)
    requires forall k :: k in t.entries ==> !Stale(o, t.entries[k], now)
    ensures DropStale(o, t, todo, now) == t
    decreases |todo|
  {
    if todo != [] { NoneStaleNoneDropped(o, t, todo[1..], now); }
  }

  /** When every entry of a full table still counts, exactly one goes: the oldest that is not locked. */
  lemma OldestUnlockedGoes(o: Options, t: Table, i: nat, now: nat)
    requires Valid(t) && |t.keys| == o.maxKeys && OldestUnlocked(t, i, now)
    requires forall k :: k in t.entries ==> !Stale(o, t.entries[k], now)
    ensures MakeRoom(o, t, now) == Without(t, t.keys[i])
  {
    NoneStaleNoneDropped(o, t, t.keys, now);
    OldestIsDropped(o, t, 0, i, now);
    assert t.keys[0..] == t.keys;
  }

  // ─── Age ───────────────────────────────────────────────────────────────────

  ghost predicate Before(keys: seq<Key>, a: Key, b: Key) { exists i, j :: 0 <= i < j < |keys| && keys[i] == a && keys[j] == b }

  lemma {:induction false} KeepHas(keys: seq<Key>, key: Key, k: Key)
    requires k in keys && k != key
    ensures k in Keep(keys, key)
  {
    if keys[0] != k { KeepHas(keys[1..], key, k); }
  }

  lemma {:induction false} KeepKeepsOrder(keys: seq<Key>, key: Key, a: Key, b: Key)
    requires Before(keys, a, b) && a != key && b != key
    ensures Before(Keep(keys, key), a, b)
  {
    var i, j :| 0 <= i < j < |keys| && keys[i] == a && keys[j] == b;
    var rest := Keep(keys[1..], key);
    if i == 0 {
      assert keys[1..][j - 1] == b;
      KeepHas(keys[1..], key, b);
      var m :| 0 <= m < |rest| && rest[m] == b;
      assert Keep(keys, key)[0] == a && Keep(keys, key)[m + 1] == b;
    } else {
      assert keys[1..][i - 1] == a && keys[1..][j - 1] == b;
      KeepKeepsOrder(keys[1..], key, a, b);
      var m, n :| 0 <= m < n < |rest| && rest[m] == a && rest[n] == b;
      if keys[0] != key { assert Keep(keys, key)[m + 1] == a && Keep(keys, key)[n + 1] == b; }
    }
  }

  lemma {:induction false} DropStaleKeepsOrder(o: Options, t: Table, todo: seq<Key>, now: nat, a: Key, b: Key)
    requires Valid(t) && Before(t.keys, a, b)
    requires a in DropStale(o, t, todo, now).entries && b in DropStale(o, t, todo, now).entries
    ensures Before(DropStale(o, t, todo, now).keys, a, b)
    decreases |todo|
  {
    if todo != [] {
      if todo[0] in t.entries && Stale(o, t.entries[todo[0]], now) {
        WithoutValid(t, todo[0]);
        DropStaleIs(o, Without(t, todo[0]), todo[1..], now);
        KeepKeepsOrder(t.keys, todo[0], a, b);
        DropStaleKeepsOrder(o, Without(t, todo[0]), todo[1..], now, a, b);
      } else {
        DropStaleKeepsOrder(o, t, todo[1..], now, a, b);
      }
    }
  }

  lemma {:induction false} DropOldestKeepsOrder(o: Options, t: Table, todo: seq<Key>, now: nat, a: Key, b: Key)
    requires Valid(t) && Before(t.keys, a, b)
    requires a in DropOldest(o, t, todo, now).entries && b in DropOldest(o, t, todo, now).entries
    ensures Before(DropOldest(o, t, todo, now).keys, a, b)
    decreases |todo|
  {
    if todo != [] && |t.keys| >= o.maxKeys {
      if todo[0] in t.entries && !Locked(t.entries[todo[0]], now) {
        WithoutValid(t, todo[0]);
        DropOldestIs(o, Without(t, todo[0]), todo[1..], now);
        KeepKeepsOrder(t.keys, todo[0], a, b);
        DropOldestKeepsOrder(o, Without(t, todo[0]), todo[1..], now, a, b);
      } else {
        DropOldestKeepsOrder(o, t, todo[1..], now, a, b);
      }
    }
  }

  lemma MakeRoomKeepsOrder(o: Options, t: Table, now: nat, a: Key, b: Key)
    requires Valid(t) && Before(t.keys, a, b)
    requires a in MakeRoom(o, t, now).entries && b in MakeRoom(o, t, now).entries
    ensures Before(MakeRoom(o, t, now).keys, a, b)
  {
    if |t.keys| >= o.maxKeys {
      var t1 := DropStale(o, t, t.keys, now);
      DropStaleIs(o, t, t.keys, now);
      DropOldestIs(o, t1, t1.keys, now);
      DropStaleKeepsOrder(o, t, t.keys, now, a, b);
      DropOldestKeepsOrder(o, t1, t1.keys, now, a, b);
    }
  }

  lemma PutKeepsOrder(t: Table, key: Key, e: Entry, a: Key, b: Key)
    requires Before(t.keys, a, b)
    ensures Before(Put(t, key, e).keys, a, b)
  {
    var i, j :| 0 <= i < j < |t.keys| && t.keys[i] == a && t.keys[j] == b;
    assert Put(t, key, e).keys[i] == a && Put(t, key, e).keys[j] == b;
  }

  /** A failure or a reservation lets two keys that both stay keep their order, and puts a new key last. */
  lemma AddKeepsOrder(o: Options, t: Table, key: Key, now: nat, e: Entry, a: Key, b: Key)
    requires Valid(t) && Before(t.keys, a, b) && key !in t.entries
    requires a in MakeRoom(o, t, now).entries && b in MakeRoom(o, t, now).entries
    ensures Before(Put(MakeRoom(o, t, now), key, e).keys, a, b)
  {
    MakeRoomKeepsOrder(o, t, now, a, b);
    PutKeepsOrder(MakeRoom(o, t, now), key, e, a, b);
  }

  /** Whatever is done, tracked keys stay in the order in which they came. */
  lemma OpKeepsOrder(o: Options, t: Table, op: Op, a: Key, b: Key)
    requires Valid(t) && Before(t.keys, a, b) && a in Apply(o, t, op).entries && b in Apply(o, t, op).entries
    requires a in t.entries && b in t.entries
    ensures Before(Apply(o, t, op).keys, a, b)
  {
    match op
    case OpBegin(key, checkedAt, now) =>
      if key in t.entries {
        PutKeepsOrder(t, key, t.entries[key].(pending := t.entries[key].pending + [now]), a, b);
      } else if Check(o, t, key, checkedAt).Allowed? {
        AddKeepsOrder(o, t, key, now, FRESH_ENTRY.(pending := [now]), a, b);
        MakeRoomKeepsOrder(o, t, now, a, b);
      }
    case OpFail(key, began, now) =>
      SettleIs(t, key, began);
      if key in t.entries { PutKeepsOrder(t, key, t.entries[key].(pending := RemoveFirst(t.entries[key].pending, began)), a, b); }
      FailureKeepsOrder(o, Settle(t, key, began), key, now, a, b);
    case OpRelease(key, began, _) =>
      if key in t.entries { PutKeepsOrder(t, key, t.entries[key].(pending := RemoveFirst(t.entries[key].pending, began)), a, b); }
    case OpFailure(key, now) => FailureKeepsOrder(o, t, key, now, a, b);
    case OpSuccess(key, now, later) => SuccessKeepsOrder(o, t, key, now, later, a, b);
  }

  lemma FailureKeepsOrder(o: Options, t: Table, key: Key, now: nat, a: Key, b: Key)
    requires Valid(t) && Before(t.keys, a, b) && a in t.entries && b in t.entries
    requires a in AddFailure(o, t, key, now).entries && b in AddFailure(o, t, key, now).entries
    ensures Before(AddFailure(o, t, key, now).keys, a, b)
  {
    if key in t.entries {
      PutKeepsOrder(t, key, WithFailure(o, t.entries[key], now), a, b);
    } else {
      AddKeepsOrder(o, t, key, now, WithFailure(o, FRESH_ENTRY, now), a, b);
      MakeRoomKeepsOrder(o, t, now, a, b);
    }
  }

  lemma SuccessKeepsOrder(o: Options, t: Table, key: Key, now: nat, later: nat, a: Key, b: Key)
    requires Valid(t) && Before(t.keys, a, b)
    requires a in Success(o, t, key, now, later).entries && b in Success(o, t, key, now, later).entries
    ensures Before(Success(o, t, key, now, later).keys, a, b)
  {
    if key in t.entries && !Locked(t.entries[key], now) {
      var e := t.entries[key].(failures := []);
      if ActivePending(o, e, later) == 0 { KeepKeepsOrder(t.keys, key, a, b); } else { PutKeepsOrder(t, key, e, a, b); }
    }
  }

  /** And a key that is new comes last. */
  lemma NewKeyIsLast(o: Options, t: Table, op: Op)
    requires Valid(t) && op.key !in t.entries && op.key in Apply(o, t, op).entries
    ensures var keys := Apply(o, t, op).keys; keys != [] && keys[|keys| - 1] == op.key
  {
    if !op.OpSuccess? { MakeRoomIs(o, t, op.now); }
  }

  // ─── How long to wait ──────────────────────────────────────────────────────

  /** The wait a locked key is told ends with the lock, to the second. */
  lemma LockedWaitIsExact(o: Options, t: Table, key: Key, now: nat, later: nat)
    requires Valid(t) && key in t.entries && Locked(t.entries[key], now) && now <= later
    ensures Check(o, t, key, now).Refused? && Check(o, t, key, now).retry.After?
    ensures var wait := Check(o, t, key, now).retry.seconds * 1000;
            && (now + wait <= later ==> !Locked(t.entries[key], later))
            && (later <= now + wait - 1000 ==> Locked(t.entries[key], later))
  {
    CeilIs(t.entries[key].lockedUntil - now);
  }

  lemma CeilIs(ms: nat)
    ensures ms <= CeilSeconds(ms) * 1000 < ms + 1000
  {
  }

  lemma {:induction false} EarliestIs(entries: map<Key, Entry>, keys: seq<Key>)
    requires forall k :: k in keys ==> k in entries
    ensures keys != [] <==> EarliestUnlock(entries, keys).Some?
    ensures keys != [] ==>
              && (exists k :: k in keys && entries[k].lockedUntil == EarliestUnlock(entries, keys).value)
              && (forall k :: k in keys ==> EarliestUnlock(entries, keys).value <= entries[k].lockedUntil)
  {
    if keys != [] {
      var init, last := keys[..|keys| - 1], keys[|keys| - 1];
      assert keys == init + [last];
      EarliestIs(entries, init);
      assert last in keys;
      if init != [] {
        var k :| k in init && entries[k].lockedUntil == EarliestUnlock(entries, init).value;
        assert k in keys;
      }
    }
  }

  /** Only a table that can hold no key at all tells nobody when to come back. */
  lemma NeverExactly(o: Options, t: Table, key: Key, now: nat)
    requires Valid(t) && |t.keys| <= o.maxKeys && key !in t.entries
    ensures Check(o, t, key, now) == Refused(Never) <==> o.maxKeys == 0
  {
    EarliestHas(t);
    EarliestIs(t.entries, t.keys);
    if t.keys == [] {
      assert forall k :: k !in t.entries by { assert t.entries.Keys == Elements(t.keys) == {}; }
    }
  }

  lemma EarliestHas(t: Table)
    requires Valid(t)
    ensures forall k :: k in t.keys <==> k in t.entries
  {
    forall k ensures k in t.keys <==> k in t.entries {
      assert k in t.keys <==> k in Elements(t.keys);
    }
  }

  /**
   * A new key that a table full of locks refuses is let in as soon as the wait it was told is over, and a whole
   * second earlier it would still be refused.
   */
  lemma FullTableWaitIsExact(o: Options, t: Table, key: Key, now: nat, later: nat)
    requires Valid(t) && key !in t.entries && t.keys != [] && now <= later
    requires Check(o, t, key, now).Refused?
    ensures Check(o, t, key, now).retry.After?
    ensures var wait := Check(o, t, key, now).retry.seconds * 1000;
            && (now + wait <= later ==> Check(o, t, key, later).Allowed?)
            && (later <= now + wait - 1000 ==> Check(o, t, key, later).Refused?)
  {
    EarliestHas(t);
    EarliestIs(t.entries, t.keys);
    var at := EarliestUnlock(t.entries, t.keys).value;
    var first :| first in t.keys && t.entries[first].lockedUntil == at;
    assert Locked(t.entries[first], now);
    CeilIs(at - now);
    if at <= later {
      assert !Locked(t.entries[first], later);
    } else {
      assert forall k :: k in t.entries ==> Locked(t.entries[k], later);
    }
  }
}
