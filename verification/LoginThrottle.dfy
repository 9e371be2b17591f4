/** Failed sign-ins counted per key, with locks, reservations and a bounded table (auth/LoginThrottle.ts). */
module LoginThrottle {
  import opened Prelude

  type Key = string

  datatype Options = Options(maxFailures: nat, windowMs: nat, lockMs: nat, maxKeys: nat, pendingTtlMs: nat)

  datatype Entry = Entry(failures: seq<nat>, pending: seq<nat>, lockedUntil: nat)

  const FRESH_ENTRY := Entry([], [], 0)

  /** The program's `Map`: entries by key, and the keys in insertion order. */
  datatype Table = Table(keys: seq<Key>, entries: map<Key, Entry>)

  ghost predicate Valid(t: Table) {
    Distinct(t.keys) && Elements(t.keys) == t.entries.Keys
  }

  // ─── Reading an entry ──────────────────────────────────────────────────────

  /** The times less than `span` before `now`. */
  function Recent(times: seq<nat>, now: nat, span: nat): seq<nat> {
    if times == [] then []
    else
      var init := Recent(times[..|times| - 1], now, span);
      if now - times[|times| - 1] < span then init + [times[|times| - 1]] else init
  }

  predicate Locked(e: Entry, now: nat) { e.lockedUntil > now }

  function ActiveFailures(o: Options, e: Entry, now: nat): nat { |Recent(e.failures, now, o.windowMs)| }

  function ActivePending(o: Options, e: Entry, now: nat): nat { |Recent(e.pending, now, o.pendingTtlMs)| }

  predicate Stale(o: Options, e: Entry, now: nat) {
    !Locked(e, now) && ActiveFailures(o, e, now) == 0 && ActivePending(o, e, now) == 0
  }

  // ─── Check ─────────────────────────────────────────────────────────────────

  /** When to come back; `Never` for a table that can hold no key at all. */
  datatype Retry = After(seconds: nat) | Never

  datatype Verdict = Allowed | Refused(retry: Retry)

  function CeilSeconds(ms: nat): nat { (ms + 999) / 1000 }

  predicate CanMakeRoom(t: Table, now: nat) {
    exists k :: k in t.entries && !Locked(t.entries[k], now)
  }

  function EarliestUnlock(entries: map<Key, Entry>, keys: seq<Key>): Option<nat>
    requires forall k :: k in keys ==> k in entries
  {
    if keys == [] then None
    else
      var last := entries[keys[|keys| - 1]].lockedUntil;
      match EarliestUnlock(entries, keys[..|keys| - 1])
      case None => Some(last)
      case Some(other) => Some(if last < other then last else other)
  }

  function Check(o: Options, t: Table, key: Key, now: nat): Verdict
    requires Valid(t)
  {
    if key in t.entries then
      var e := t.entries[key];
      if Locked(e, now) then Refused(After(CeilSeconds(e.lockedUntil - now)))
      else if ActiveFailures(o, e, now) + ActivePending(o, e, now) >= o.maxFailures then Refused(After(1))
      else Allowed
    else if |t.keys| >= o.maxKeys && !CanMakeRoom(t, now) then
      match EarliestUnlock(t.entries, t.keys)
      case None => Refused(Never)
      case Some(at) => Refused(After(if at <= now then 1 else CeilSeconds(at - now)))
    else Allowed
  }

  // ─── Making room ───────────────────────────────────────────────────────────

  function Without(t: Table, key: Key): Table {
    Table(Keep(t.keys, key), t.entries - {key})
  }

  function Keep(keys: seq<Key>, key: Key): seq<Key> {
    if keys == [] then []
    else if keys[0] == key then Keep(keys[1..], key)
    else [keys[0]] + Keep(keys[1..], key)
  }

  /** The first loop: drop every stale entry. */
  function DropStale(o: Options, t: Table, todo: seq<Key>, now: nat): Table
    decreases |todo|
  {
    if todo == [] then t
    else if todo[0] in t.entries && Stale(o, t.entries[todo[0]], now) then DropStale(o, Without(t, todo[0]), todo[1..], now)
    else DropStale(o, t, todo[1..], now)
  }

  /** The second loop: drop unlocked entries, oldest first, until there is room. */
  function DropOldest(o: Options, t: Table, todo: seq<Key>, now: nat): Table
    decreases |todo|
  {
    if todo == [] || |t.keys| < o.maxKeys then t
    else if todo[0] in t.entries && !Locked(t.entries[todo[0]], now) then DropOldest(o, Without(t, todo[0]), todo[1..], now)
    else DropOldest(o, t, todo[1..], now)
  }

  function MakeRoom(o: Options, t: Table, now: nat): Table {
    if |t.keys| < o.maxKeys then t
    else
      var t1 := DropStale(o, t, t.keys, now);
      DropOldest(o, t1, t1.keys, now)
  }

  // ─── Attempts ──────────────────────────────────────────────────────────────

  function Put(t: Table, key: Key, e: Entry): Table {
    Table(if key in t.entries then t.keys else t.keys + [key], t.entries[key := e])
  }

  /** `begin`: the clock is read once for the check and once for the reservation. */
  function Begin(o: Options, t: Table, key: Key, checkedAt: nat, now: nat): Table
    requires Valid(t)
  {
    if Check(o, t, key, checkedAt).Refused? then t
    else if key in t.entries then
      Put(t, key, t.entries[key].(pending := t.entries[key].pending + [now]))
    else
      var room := MakeRoom(o, t, now);
      if |room.keys| < o.maxKeys then Put(room, key, FRESH_ENTRY.(pending := [now])) else room
  }

  predicate Admitted(o: Options, t: Table, key: Key, checkedAt: nat, now: nat)
    requires Valid(t)
  {
    Check(o, t, key, checkedAt).Allowed? && (key in t.entries || |MakeRoom(o, t, now).keys| < o.maxKeys)
  }

  function RemoveFirst(times: seq<nat>, x: nat): seq<nat> {
    if times == [] then []
    else if times[0] == x then times[1..]
    else [times[0]] + RemoveFirst(times[1..], x)
  }

  /** `settle`: gives back one reservation made at that time, if the key is still tracked. */
  function Settle(t: Table, key: Key, began: nat): Table {
    if key in t.entries then Put(t, key, t.entries[key].(pending := RemoveFirst(t.entries[key].pending, began))) else t
  }

  function WithFailure(o: Options, e: Entry, now: nat): Entry {
    var failures := Recent(e.failures, now, o.windowMs) + [now];
    if |failures| >= o.maxFailures then Entry([], e.pending, now + o.lockMs) else e.(failures := failures)
  }

  function AddFailure(o: Options, t: Table, key: Key, now: nat): Table {
    if key in t.entries then Put(t, key, WithFailure(o, t.entries[key], now))
    else
      var room := MakeRoom(o, t, now);
      if |room.keys| < o.maxKeys then Put(room, key, WithFailure(o, FRESH_ENTRY, now)) else room
  }

  function Success(o: Options, t: Table, key: Key, now: nat, later: nat): Table {
    if key !in t.entries || Locked(t.entries[key], now) then t
    else
      var e := t.entries[key].(failures := []);
      if ActivePending(o, e, later) == 0 then Without(t, key) else Put(t, key, e)
  }

  // ─── The table stays a table ───────────────────────────────────────────────

  lemma {:induction false} KeepIs(keys: seq<Key>, key: Key)
    requires Distinct(keys)
    ensures Distinct(Keep(keys, key)) && Elements(Keep(keys, key)) == Elements(keys) - {key}
    ensures |Keep(keys, key)| == |keys| - if key in keys then 1 else 0
  {
    if keys != [] {
      var rest := keys[1..];
      assert keys == [keys[0]] + rest;
      assert Elements(keys) == {keys[0]} + Elements(rest);
      assert keys[0] !in rest;
      KeepIs(rest, key);
      assert forall x :: x in Keep(rest, key) ==> x in Elements(Keep(rest, key));
      if keys[0] != key {
        assert Elements([keys[0]] + Keep(rest, key)) == {keys[0]} + Elements(Keep(rest, key));
      }
    }
  }

  lemma WithoutValid(t: Table, key: Key)
    requires Valid(t)
    ensures Valid(Without(t, key))
    ensures |Without(t, key).keys| == |t.keys| - if key in t.entries then 1 else 0
  {
    KeepIs(t.keys, key);
    assert key in t.keys <==> key in Elements(t.keys);
  }

  lemma PutValid(t: Table, key: Key, e: Entry)
    requires Valid(t)
    ensures Valid(Put(t, key, e))
    ensures |Put(t, key, e).keys| == |t.keys| + if key in t.entries then 0 else 1
  {
    if key !in t.entries {
      assert key !in Elements(t.keys);
      assert Elements(t.keys + [key]) == Elements(t.keys) + {key};
    } else {
      assert t.entries[key := e].Keys == t.entries.Keys;
    }
  }

  /** What a loop that only deletes leaves: fewer keys, every survivor unchanged. */
  ghost predicate Shrunk(t: Table, t': Table) {
    && Valid(t') && t'.entries.Keys <= t.entries.Keys && |t'.keys| <= |t.keys|
    && (forall k :: k in t'.entries ==> t'.entries[k] == t.entries[k])
  }

  lemma {:induction false} DropStaleIs(o: Options, t: Table, todo: seq<Key>, now: nat)
    requires Valid(t)
    ensures Shrunk(t, DropStale(o, t, todo, now))
    ensures forall k :: k in t.entries && k !in DropStale(o, t, todo, now).entries ==> Stale(o, t.entries[k], now)
    decreases |todo|
  {
    if todo != [] {
      if todo[0] in t.entries && Stale(o, t.entries[todo[0]], now) {
        WithoutValid(t, todo[0]);
        DropStaleIs(o, Without(t, todo[0]), todo[1..], now);
      } else {
        DropStaleIs(o, t, todo[1..], now);
      }
    }
  }

  lemma {:induction false} DropOldestIs(o: Options, t: Table, todo: seq<Key>, now: nat)
    requires Valid(t)
    ensures Shrunk(t, DropOldest(o, t, todo, now))
    ensures forall k :: k in t.entries && k !in DropOldest(o, t, todo, now).entries ==> !Locked(t.entries[k], now)
    ensures |t.keys| <= o.maxKeys && (exists k :: k in todo && k in t.entries && !Locked(t.entries[k], now)) ==>
              |DropOldest(o, t, todo, now).keys| < o.maxKeys
    decreases |todo|
  {
    if todo != [] && |t.keys| >= o.maxKeys {
      if todo[0] in t.entries && !Locked(t.entries[todo[0]], now) {
        WithoutValid(t, todo[0]);
        DropOldestIs(o, Without(t, todo[0]), todo[1..], now);
      } else {
        DropOldestIs(o, t, todo[1..], now);
      }
    }
  }

  /** Room is made by deleting, never by touching an entry, and never by deleting a lock in force. */
  lemma MakeRoomIs(o: Options, t: Table, now: nat)
    requires Valid(t)
    ensures Shrunk(t, MakeRoom(o, t, now))
    ensures forall k :: k in t.entries && Locked(t.entries[k], now) ==> k in MakeRoom(o, t, now).entries
    ensures |t.keys| < o.maxKeys ==> MakeRoom(o, t, now) == t
    ensures |t.keys| <= o.maxKeys ==> (|MakeRoom(o, t, now).keys| < o.maxKeys <==> |t.keys| < o.maxKeys || CanMakeRoom(t, now))
  {
    if |t.keys| >= o.maxKeys {
      var t1 := DropStale(o, t, t.keys, now);
      DropStaleIs(o, t, t.keys, now);
      DropOldestIs(o, t1, t1.keys, now);
      var t2 := DropOldest(o, t1, t1.keys, now);
      if |t.keys| == o.maxKeys {
        if CanMakeRoom(t, now) {
          var k :| k in t.entries && !Locked(t.entries[k], now);
          if k in t1.entries {
            assert k in Elements(t1.keys);
          } else {
            SmallerTable(t, t1, k);
          }
        } else if |t2.keys| < o.maxKeys {
          MissingKey(t, t2);
        }
      }
    }
  }

  lemma SmallerTable(t: Table, t': Table, gone: Key)
    requires Valid(t) && Shrunk(t, t') && gone in t.entries && gone !in t'.entries
    ensures |t'.keys| < |t.keys|
  {
    DistinctCount(t.keys);
    DistinctCount(t'.keys);
    SubsetCount(t'.entries.Keys, t.entries.Keys - {gone});
  }

  lemma MissingKey(t: Table, t': Table)
    requires Valid(t) && Shrunk(t, t') && |t'.keys| < |t.keys|
    ensures exists k :: k in t.entries && k !in t'.entries
  {
    DistinctCount(t.keys);
    DistinctCount(t'.keys);
    if t.entries.Keys <= t'.entries.Keys {
      SubsetCount(t.entries.Keys, t'.entries.Keys);
    }
  }

  // ─── The object ────────────────────────────────────────────────────────────

  class LoginThrottle {
    const options: Options
    var keys: seq<Key>
    var entries: map<Key, Entry>

    ghost function State(): Table
      reads this
    {
      Table(keys, entries)
    }

    constructor (options: Options)
      ensures this.options == options && State() == Table([], map[])
    {
      this.options := options;
      keys, entries := [], map[];
    }

    method CheckKey(key: Key, now: nat) returns (verdict: Verdict)
      requires Valid(State())
      ensures verdict == Check(options, State(), key, now)
    {
      if key in entries {
        var e := entries[key];
        if e.lockedUntil > now { return Refused(After(CeilSeconds(e.lockedUntil - now))); }
        var failures := CountRecent(e.failures, now, options.windowMs);
        var pending := CountRecent(e.pending, now, options.pendingTtlMs);
        return if failures + pending >= options.maxFailures then Refused(After(1)) else Allowed;
      }
      if |keys| >= options.maxKeys {
        var some := AnyUnlocked(now);
        if !some {
          var earliest := FindEarliestUnlock();
          return match earliest
                 case None => Refused(Never)
                 case Some(at) => Refused(After(if at <= now then 1 else CeilSeconds(at - now)));
        }
      }
      verdict := Allowed;
    }

    method AnyUnlocked(now: nat) returns (some: bool)
      requires Valid(State())
      ensures some == CanMakeRoom(State(), now)
    {
      for i := 0 to |keys|
        invariant forall j :: 0 <= j < i ==> keys[j] in entries && Locked(entries[keys[j]], now)
      {
        assert keys[i] in Elements(keys);
        if entries[keys[i]].lockedUntil <= now { return true; }
      }
      forall k | k in entries ensures Locked(entries[k], now) {
        assert k in Elements(keys);
      }
      some := false;
    }

    method FindEarliestUnlock() returns (earliest: Option<nat>)
      requires Valid(State())
      ensures earliest == EarliestUnlock(entries, keys)
    {
      assert forall k :: k in keys ==> k in Elements(keys);
      earliest := None;
      for i := 0 to |keys|
        invariant earliest == EarliestUnlock(entries, keys[..i])
      {
        assert keys[..i + 1][..i] == keys[..i];
        var at := entries[keys[i]].lockedUntil;
        earliest := match earliest
                    case None => Some(at)
                    case Some(other) => Some(if at < other then at else other);
      }
      assert keys[..|keys|] == keys;
    }

    method Delete(key: Key)
      modifies this`keys, this`entries
      ensures State() == Without(old(State()), key)
    {
      keys := Keep(keys, key);
      entries := entries - {key};
    }

    method Set(key: Key, e: Entry)
      modifies this`keys, this`entries
      ensures State() == Put(old(State()), key, e)
    {
      if key !in entries { keys := keys + [key]; }
      entries := entries[key := e];
    }

    /** Both loops walk the keys as they were; nothing is added while they run. */
    method FreeSlot(now: nat) returns (room: bool)
      modifies this`keys, this`entries
      ensures State() == MakeRoom(options, old(State()), now)
      ensures room <==> |keys| < options.maxKeys
    {
      if |keys| < options.maxKeys { return true; }
      ghost var before := State();
      var todo := keys;
      while todo != []
        invariant DropStale(options, State(), todo, now) == DropStale(options, before, before.keys, now)
        decreases |todo|
      {
        if todo[0] in entries && Stale(options, entries[todo[0]], now) { Delete(todo[0]); }
        todo := todo[1..];
      }
      ghost var middle := State();
      todo := keys;
      while todo != [] && |keys| >= options.maxKeys
        invariant DropOldest(options, State(), todo, now) == DropOldest(options, middle, middle.keys, now)
        decreases |todo|
      {
        if todo[0] in entries && entries[todo[0]].lockedUntil <= now { Delete(todo[0]); }
        todo := todo[1..];
      }
      room := |keys| < options.maxKeys;
    }

    method BeginAttempt(key: Key, checkedAt: nat, now: nat) returns (allowed: bool)
      requires Valid(State())
      modifies this`keys, this`entries
      ensures State() == Begin(options, old(State()), key, checkedAt, now)
      ensures allowed == Admitted(options, old(State()), key, checkedAt, now)
    {
      var verdict := CheckKey(key, checkedAt);
      if verdict.Refused? { return false; }
      var e := FRESH_ENTRY;
      if key in entries {
        e := entries[key];
      } else {
        MakeRoomIs(options, State(), now);
        var room := FreeSlot(now);
        if !room { return false; }
      }
      assert FRESH_ENTRY.pending + [now] == [now];
      Set(key, e.(pending := e.pending + [now]));
      allowed := true;
    }

    method SettleAttempt(key: Key, began: nat)
      modifies this`keys, this`entries
      ensures State() == Settle(old(State()), key, began)
    {
      if key in entries {
        Set(key, entries[key].(pending := RemoveFirst(entries[key].pending, began)));
      }
    }

    method Fail(key: Key, began: nat, now: nat)
      requires Valid(State())
      modifies this`keys, this`entries
      ensures State() == AddFailure(options, Settle(old(State()), key, began), key, now)
    {
      SettleAttempt(key, began);
      RecordFailure(key, now);
    }

    method RecordFailure(key: Key, now: nat)
      modifies this`keys, this`entries
      ensures State() == AddFailure(options, old(State()), key, now)
    {
      var e := FRESH_ENTRY;
      if key in entries {
        e := entries[key];
      } else {
        var room := FreeSlot(now);
        if !room { return; }
      }
      var failures := Recent(e.failures, now, options.windowMs) + [now];
      if |failures| >= options.maxFailures {
        e := Entry([], e.pending, now + options.lockMs);
      } else {
        e := e.(failures := failures);
      }
      Set(key, e);
    }

    method RecordSuccess(key: Key, now: nat, later: nat)
      modifies this`keys, this`entries
      ensures State() == Success(options, old(State()), key, now, later)
    {
      if key !in entries || entries[key].lockedUntil > now { return; }
      var e := entries[key].(failures := []);
      if ActivePending(options, e, later) == 0 {
        Delete(key);
      } else {
        Set(key, e);
      }
    }
  }

  method CountRecent(times: seq<nat>, now: nat, span: nat) returns (count: nat)
    ensures count == |Recent(times, now, span)|
  {
    count := 0;
    for i := 0 to |times|
      invariant count == |Recent(times[..i], now, span)|
    {
      assert times[..i + 1][..i] == times[..i];
      if now - times[i] < span { count := count + 1; }
    }
    assert times[..|times|] == times;
  }

  // ─── What every operation keeps ────────────────────────────────────────────

  datatype Op =
    | OpBegin(key: Key, checkedAt: nat, now: nat)
    | OpFail(key: Key, began: nat, now: nat)
    | OpRelease(key: Key, began: nat, now: nat)
    | OpFailure(key: Key, now: nat)
    | OpSuccess(key: Key, now: nat, later: nat)

  /** The moment an operation starts, and the latest moment it looks at the clock. */
  function Start(op: Op): nat { if op.OpBegin? then op.checkedAt else op.now }
  function End(op: Op): nat { if op.OpSuccess? then op.later else op.now }

  function Apply(o: Options, t: Table, op: Op): Table
    requires Valid(t)
  {
    match op
    case OpBegin(key, checkedAt, now) => Begin(o, t, key, checkedAt, now)
    case OpFail(key, began, now) => AddFailure(o, Settle(t, key, began), key, now)
    case OpRelease(key, began, _) => Settle(t, key, began)
    case OpFailure(key, now) => AddFailure(o, t, key, now)
    case OpSuccess(key, now, later) => Success(o, t, key, now, later)
  }

  lemma SettleIs(t: Table, key: Key, began: nat)
    requires Valid(t)
    ensures Valid(Settle(t, key, began)) && |Settle(t, key, began).keys| == |t.keys|
  {
    if key in t.entries { PutValid(t, key, t.entries[key].(pending := RemoveFirst(t.entries[key].pending, began))); }
  }

  lemma AddFailureIs(o: Options, t: Table, key: Key, now: nat)
    requires Valid(t)
    ensures var t' := AddFailure(o, t, key, now);
            Valid(t') && (|t.keys| <= o.maxKeys ==> |t'.keys| <= o.maxKeys)
  {
    if key in t.entries {
      PutValid(t, key, WithFailure(o, t.entries[key], now));
    } else {
      MakeRoomIs(o, t, now);
      PutValid(MakeRoom(o, t, now), key, WithFailure(o, FRESH_ENTRY, now));
    }
  }

  lemma BeginIs(o: Options, t: Table, key: Key, checkedAt: nat, now: nat)
    requires Valid(t)
    ensures var t' := Begin(o, t, key, checkedAt, now);
            Valid(t') && (|t.keys| <= o.maxKeys ==> |t'.keys| <= o.maxKeys)
  {
    if key in t.entries {
      PutValid(t, key, t.entries[key].(pending := t.entries[key].pending + [now]));
    } else {
      MakeRoomIs(o, t, now);
      PutValid(MakeRoom(o, t, now), key, FRESH_ENTRY.(pending := [now]));
    }
  }

  /** No operation takes the table beyond `maxKeys`. */
  lemma NeverTooManyKeys(o: Options, t: Table, op: Op)
    requires Valid(t) && |t.keys| <= o.maxKeys
    ensures Valid(Apply(o, t, op)) && |Apply(o, t, op).keys| <= o.maxKeys
  {
    match op
    case OpBegin(key, checkedAt, now) => BeginIs(o, t, key, checkedAt, now);
    case OpFail(key, began, now) =>
      SettleIs(t, key, began);
      AddFailureIs(o, Settle(t, key, began), key, now);
    case OpRelease(key, began, _) => SettleIs(t, key, began);
    case OpFailure(key, now) => AddFailureIs(o, t, key, now);
    case OpSuccess(key, now, later) =>
      WithoutValid(t, key);
      if key in t.entries { PutValid(t, key, t.entries[key].(failures := [])); }
  }

  /** No lock reaches further than `lockMs` from the last failure: true of every table a run can reach. */
  ghost predicate LocksWithin(o: Options, t: Table, clock: nat) {
    forall k :: k in t.entries ==> t.entries[k].lockedUntil <= clock + o.lockMs
  }

  lemma LocksStayWithin(o: Options, t: Table, op: Op)
    requires Valid(t) && Start(op) <= End(op) && LocksWithin(o, t, Start(op))
    ensures LocksWithin(o, Apply(o, t, op), End(op))
  {
    match op
    case OpBegin(key, checkedAt, now) => MakeRoomIs(o, t, now);
    case OpFail(key, began, now) =>
      SettleIs(t, key, began);
      MakeRoomIs(o, Settle(t, key, began), now);
    case OpRelease(key, began, _) =>
    case OpFailure(key, now) => MakeRoomIs(o, t, now);
    case OpSuccess(key, now, later) =>
  }

  /** An operation on any key leaves a lock in force where it is, or further away. */
  lemma LockNeverLifted(o: Options, t: Table, op: Op, k: Key)
    requires Valid(t) && Start(op) <= End(op) && LocksWithin(o, t, Start(op))
    requires k in t.entries && Locked(t.entries[k], End(op))
    ensures k in Apply(o, t, op).entries && t.entries[k].lockedUntil <= Apply(o, t, op).entries[k].lockedUntil
  {
    match op
    case OpBegin(key, checkedAt, now) => MakeRoomIs(o, t, now);
    case OpFail(key, began, now) =>
      SettleIs(t, key, began);
      MakeRoomIs(o, Settle(t, key, began), now);
    case OpRelease(key, began, _) =>
    case OpFailure(key, now) => MakeRoomIs(o, t, now);
    case OpSuccess(key, now, later) =>
  }

  /** Operations one after the other, by a clock that never runs backwards. */
  ghost predicate Clocked(ops: seq<Op>) {
    && (forall k :: 0 <= k < |ops| ==> Start(ops[k]) <= End(ops[k]))
    && (forall i, j :: 0 <= i < j < |ops| ==> End(ops[i]) <= Start(ops[j]))
  }

  /** The table after a run of operations from the empty table: always a table, never over `maxKeys`. */
  function TableAfter(o: Options, ops: seq<Op>): (t: Table)
    ensures Valid(t) && |t.keys| <= o.maxKeys
  {
    if ops == [] then Table([], map[])
    else
      var t := TableAfter(o, ops[..|ops| - 1]);
      NeverTooManyKeys(o, t, ops[|ops| - 1]);
      Apply(o, t, ops[|ops| - 1])
  }

  lemma AfterNext(o: Options, ops: seq<Op>, k: nat)
    requires k < |ops|
    ensures TableAfter(o, ops[..k + 1]) == Apply(o, TableAfter(o, ops[..k]), ops[k])
  {
    assert ops[..k + 1][..k] == ops[..k];
  }

  lemma {:induction false} LocksWithinRuns(o: Options, ops: seq<Op>, k: nat)
    requires Clocked(ops) && 0 < k <= |ops|
    ensures LocksWithin(o, TableAfter(o, ops[..k]), End(ops[k - 1]))
  {
    AfterNext(o, ops, k - 1);
    if k > 1 { LocksWithinRuns(o, ops, k - 1); }
    LocksStayWithin(o, TableAfter(o, ops[..k - 1]), ops[k - 1]);
  }

  lemma LockHoldsOneStep(o: Options, ops: seq<Op>, m: nat, key: Key)
    requires Clocked(ops) && 0 < m <= |ops|
    ensures Holds(TableAfter(o, ops[..m - 1]), TableAfter(o, ops[..m]), End(ops[m - 1]), key)
  {
    var t := TableAfter(o, ops[..m - 1]);
    if key in t.entries && Locked(t.entries[key], End(ops[m - 1])) {
      if m > 1 { LocksWithinRuns(o, ops, m - 1); }
      AfterNext(o, ops, m - 1);
      LockNeverLifted(o, t, ops[m - 1], key);
    }
  }

  /** A lock in force at that time is still there, no shorter. */
  ghost predicate Holds(t: Table, t': Table, now: nat, key: Key) {
    key in t.entries && Locked(t.entries[key], now) ==>
      key in t'.entries && t.entries[key].lockedUntil <= t'.entries[key].lockedUntil
  }

  ghost predicate HoldsAt(tables: seq<Table>, ends: seq<nat>, j: nat, key: Key) {
    j < |ends| && j + 1 < |tables| && Holds(tables[j], tables[j + 1], ends[j], key)
  }

  lemma {:induction false} LockChain(tables: seq<Table>, ends: seq<nat>, k: nat, m: nat, key: Key)
    requires k <= m < |tables| == |ends| + 1
    requires forall i, j :: 0 <= i < j < |ends| ==> ends[i] <= ends[j]
    requires forall j :: k <= j < m ==> HoldsAt(tables, ends, j, key)
    requires key in tables[k].entries && (k < m ==> Locked(tables[k].entries[key], ends[m - 1]))
    ensures key in tables[m].entries && tables[k].entries[key].lockedUntil <= tables[m].entries[key].lockedUntil
    decreases m
  {
    if k < m {
      LockChain(tables, ends, k, m - 1, key);
      assert HoldsAt(tables, ends, m - 1, key);
    }
  }

  function Tables(o: Options, ops: seq<Op>): (tables: seq<Table>)
    ensures |tables| == |ops| + 1 && forall j :: 0 <= j <= |ops| ==> tables[j] == TableAfter(o, ops[..j])
  {
    seq(|ops| + 1, j requires 0 <= j <= |ops| => TableAfter(o, ops[..j]))
  }

  function Ends(ops: seq<Op>): (ends: seq<nat>)
    ensures |ends| == |ops| && forall j :: 0 <= j < |ops| ==> ends[j] == End(ops[j])
  {
    seq(|ops|, j requires 0 <= j < |ops| => End(ops[j]))
  }

  lemma HoldsAtEach(o: Options, ops: seq<Op>, j: nat, key: Key)
    requires Clocked(ops) && j < |ops|
    ensures HoldsAt(Tables(o, ops), Ends(ops), j, key)
  {
    LockHoldsOneStep(o, ops, j + 1, key);
  }

  lemma EndsGrow(ops: seq<Op>)
    requires Clocked(ops)
    ensures forall i, j :: 0 <= i < j < |ops| ==> Ends(ops)[i] <= Ends(ops)[j]
  {
  }

  /** Over a whole run: until its end is reached, a lock is never removed, evicted or shortened. */
  lemma LockHoldsOverRuns(o: Options, ops: seq<Op>, k: nat, m: nat, key: Key)
    requires Clocked(ops) && k <= m <= |ops|
    requires key in TableAfter(o, ops[..k]).entries
    requires k < m ==> Locked(TableAfter(o, ops[..k]).entries[key], End(ops[m - 1]))
    ensures key in TableAfter(o, ops[..m]).entries
    ensures TableAfter(o, ops[..k]).entries[key].lockedUntil <= TableAfter(o, ops[..m]).entries[key].lockedUntil
  {
    var tables, ends := Tables(o, ops), Ends(ops);
    EndsGrow(ops);
    forall j | k <= j < m ensures HoldsAt(tables, ends, j, key) {
      HoldsAtEach(o, ops, j, key);
    }
    LockChain(tables, ends, k, m, key);
  }

  // ─── Check, then begin ─────────────────────────────────────────────────────

  lemma {:induction false} RecentShrinks(times: seq<nat>, now: nat, later: nat, span: nat)
    requires now <= later
    ensures |Recent(times, later, span)| <= |Recent(times, now, span)|
    ensures Recent(times, later, span) == Recent(Recent(times, now, span), later, span)
  {
    if times != [] {
      var init, last := times[..|times| - 1], times[|times| - 1];
      RecentShrinks(init, now, later, span);
      var r := Recent(init, now, span);
      if now - last < span {
        assert (r + [last])[..|r|] == r;
      }
    }
  }

  /** A key that a check allows is still allowed when the attempt begins, if nothing happened in between. */
  lemma AllowedIsAdmitted(o: Options, t: Table, key: Key, checkedAt: nat, beginsAt: nat, now: nat)
    requires Valid(t) && |t.keys| <= o.maxKeys && checkedAt <= beginsAt <= now
    requires Check(o, t, key, checkedAt).Allowed?
    ensures Admitted(o, t, key, beginsAt, now)
  {
    if key in t.entries {
      RecentShrinks(t.entries[key].failures, checkedAt, beginsAt, o.windowMs);
      RecentShrinks(t.entries[key].pending, checkedAt, beginsAt, o.pendingTtlMs);
    } else {
      MakeRoomIs(o, t, now);
      if CanMakeRoom(t, checkedAt) {
        var k :| k in t.entries && !Locked(t.entries[k], checkedAt);
        assert !Locked(t.entries[k], beginsAt) && !Locked(t.entries[k], now);
      }
    }
  }

  // ─── What the answers mean ─────────────────────────────────────────────────

  /** The positions of the times less than `span` before `now`. */
  function Within(times: seq<nat>, now: nat, span: nat): set<nat> {
    set i | 0 <= i < |times| && now - times[i] < span
  }

  lemma {:induction false} RecentCounts(times: seq<nat>, now: nat, span: nat)
    ensures |Recent(times, now, span)| == |Within(times, now, span)|
  {
    if times == [] {
      assert Within(times, now, span) == {};
    } else {
      var init, last := times[..|times| - 1], |times| - 1;
      RecentCounts(init, now, span);
      assert Within(times, now, span) == Within(init, now, span) + if now - times[last] < span then {last} else {};
    }
  }

  /** A tracked key that is not locked may go on exactly while failures and attempts that still count leave it room. */
  lemma TrackedAllowedExactly(o: Options, t: Table, key: Key, now: nat)
    requires Valid(t) && key in t.entries && t.entries[key].lockedUntil <= now
    ensures Check(o, t, key, now).Allowed? <==>
              |Within(t.entries[key].failures, now, o.windowMs)| + |Within(t.entries[key].pending, now, o.pendingTtlMs)| < o.maxFailures
    ensures Check(o, t, key, now).Refused? ==> Check(o, t, key, now).retry == After(1)
  {
    RecentCounts(t.entries[key].failures, now, o.windowMs);
    RecentCounts(t.entries[key].pending, now, o.pendingTtlMs);
  }

  /** Any other may begin exactly if there is a slot for it, or one that is not locked. */
  lemma UntrackedAllowedExactly(o: Options, t: Table, key: Key, now: nat)
    requires Valid(t) && key !in t.entries
    ensures Check(o, t, key, now).Allowed? <==> |t.keys| < o.maxKeys || exists k :: k in t.entries && t.entries[k].lockedUntil <= now
  {
    if exists k :: k in t.entries && t.entries[k].lockedUntil <= now {
      var k :| k in t.entries && t.entries[k].lockedUntil <= now;
      assert !Locked(t.entries[k], now);
    }
  }

  /**
   * A failure is recorded unless the key is new and every slot is locked. It locks the key exactly if it is the last
   * one the window allows, and the count then starts afresh; otherwise it counts as one more.
   */
  lemma FailureLocksExactly(o: Options, t: Table, key: Key, now: nat)
    requires Valid(t) && |t.keys| <= o.maxKeys && 0 < o.windowMs
    ensures var e, t' := if key in t.entries then t.entries[key] else Entry([], [], 0), AddFailure(o, t, key, now);
            && (key in t'.entries <==> key in t.entries || |t.keys| < o.maxKeys || exists k :: k in t.entries && t.entries[k].lockedUntil <= now)
            && (key in t'.entries ==>
                  && t'.entries[key].pending == e.pending
                  && (if |Within(e.failures, now, o.windowMs)| + 1 >= o.maxFailures
                      then t'.entries[key].lockedUntil == now + o.lockMs && t'.entries[key].failures == []
                      else t'.entries[key].lockedUntil == e.lockedUntil
                           && |Within(t'.entries[key].failures, now, o.windowMs)| == |Within(e.failures, now, o.windowMs)| + 1))
  {
    var e := if key in t.entries then t.entries[key] else FRESH_ENTRY;
    OneMoreCounts(e.failures, now, o.windowMs);
    RecentCounts(e.failures, now, o.windowMs);
    MakeRoomIs(o, t, now);
    assert CanMakeRoom(t, now) <==> exists k :: k in t.entries && t.entries[k].lockedUntil <= now;
  }

  lemma OneMoreCounts(times: seq<nat>, now: nat, span: nat)
    requires 0 < span
    ensures |Within(Recent(times, now, span) + [now], now, span)| == |Within(times, now, span)| + 1
  {
    var recent := Recent(times, now, span);
    RecentCounts(times, now, span);
    RecentCounts(recent + [now], now, span);
    RecentShrinks(times, now, now, span);
    assert (recent + [now])[..|recent|] == recent;
  }

  /** A success forgives the failures, lifts no lock, keeps the attempts in flight, and drops the entry once there are none. */
  lemma SuccessForgives(o: Options, t: Table, key: Key, now: nat, later: nat)
    requires Valid(t) && key in t.entries
    ensures var e, t' := t.entries[key], Success(o, t, key, now, later);
            && (e.lockedUntil > now ==> t' == t)
            && (e.lockedUntil <= now ==>
                  && (key in t'.entries <==> Within(e.pending, later, o.pendingTtlMs) != {})
                  && (key in t'.entries ==> t'.entries[key] == Entry([], e.pending, e.lockedUntil)))
            && (forall k :: k in t.entries && k != key ==> k in t'.entries && t'.entries[k] == t.entries[k])
            && t'.entries.Keys <= t.entries.Keys
  {
    RecentCounts(t.entries[key].pending, later, o.pendingTtlMs);
  }
}
