/**
 * Any number of sign-ins and invite links overlapping on one throttle: what the routes do guarantees the conditions
 * of the rate bound that are about attempts (http/auth.ts, auth/LoginThrottle.ts).
 */
module LoginRuns {
  import opened Prelude
  import opened LoginThrottle
  import opened LoginRate

  /** A sign-in that was let through and whose password is being checked, or an invite link being looked up. */
  datatype Open = Open(key: Key, began: nat)

  /**
   * `elsewhere`: whether the other throttles let the sign-in through too. An invite link asks one throttle only;
   * when its session cannot be started its attempt is released a second time.
   */
  datatype Event =
    | Arrives(key: Key, elsewhere: bool, checkedAt: nat, recheckedAt: nat, now: nat)
    | Asks(key: Key, checkedAt: nat, now: nat)
    | Leaves(i: nat, wrong: bool, now: nat)
    | ReleasesAgain(key: Key, began: nat, now: nat)

  datatype Desk = Desk(ops: seq<Op>, open: seq<Open>)

  function TableOf(o: Options, d: Desk): (t: Table)
    ensures Valid(t) && |t.keys| <= o.maxKeys
  {
    TableAfter(o, d.ops)
  }

  function Settling(a: Open, wrong: bool, now: nat): Op {
    if wrong then OpFail(a.key, a.began, now) else OpRelease(a.key, a.began, now)
  }

  /** Only a sign-in that every throttle allows reserves; only one that reserved leaves, and only once. */
  function Next(o: Options, d: Desk, e: Event): Desk {
    match e
    case Arrives(key, elsewhere, checkedAt, recheckedAt, now) =>
      if elsewhere && Check(o, TableOf(o, d), key, checkedAt).Allowed? then
        Desk(d.ops + [OpBegin(key, recheckedAt, now)], d.open + [Open(key, now)])
      else d
    case Asks(key, checkedAt, now) =>
      Desk(d.ops + [OpBegin(key, checkedAt, now)],
           if Admitted(o, TableOf(o, d), key, checkedAt, now) then d.open + [Open(key, now)] else d.open)
    case Leaves(i, wrong, now) =>
      if i < |d.open| then
        var a := d.open[i];
        Desk(d.ops + [Settling(a, wrong, now)], d.open[..i] + d.open[i + 1..])
      else d
    case ReleasesAgain(key, began, now) => Desk(d.ops + [OpRelease(key, began, now)], d.open)
  }

  function DeskAfter(o: Options, events: seq<Event>): Desk {
    if events == [] then Desk([], []) else Next(o, DeskAfter(o, events[..|events| - 1]), events[|events| - 1])
  }

  function EventStart(e: Event): nat { if e.Arrives? || e.Asks? then e.checkedAt else e.now }

  /**
   * The clock does not go back, no attempt takes `pendingTtlMs`, none is released a second time while another on the
   * key is under way that began at the very same moment, and none makes the throttle evict the key's entry while it
   * still counts.
   */
  ghost predicate WellTimed(o: Options, d: Desk, key: Key, e: Event) {
    && Clock(d.ops) <= EventStart(e) <= e.now
    && (e.Arrives? ==> e.checkedAt <= e.recheckedAt <= e.now)
    && (e.ReleasesAgain? && e.key == key ==> Open(key, e.began) !in d.open)
    && (forall a :: a in d.open ==> e.now - a.began < o.pendingTtlMs)
    && (var d' := Next(o, d, e);
        key in TableOf(o, d).entries && key !in TableOf(o, d').entries ==> Stale(o, TableOf(o, d).entries[key], e.now))
  }

  ghost predicate WellTimedAt(o: Options, events: seq<Event>, key: Key, k: nat)
    requires k < |events|
  {
    WellTimed(o, DeskAfter(o, events[..k]), key, events[k])
  }

  ghost predicate WellTimedRun(o: Options, events: seq<Event>, key: Key) {
    forall k :: 0 <= k < |events| ==> WellTimedAt(o, events, key, k)
  }

  // ─── Sign-ins under way are exactly the reservations held ──────────────────

  function Begans(open: seq<Open>, key: Key): seq<nat> {
    if open == [] then []
    else if open[0].key == key then [open[0].began] + Begans(open[1..], key)
    else Begans(open[1..], key)
  }

  lemma {:induction false} BegansConcat(a: seq<Open>, b: seq<Open>, key: Key)
    ensures Begans(a + b, key) == Begans(a, key) + Begans(b, key)
  {
    if a == [] {
      assert a + b == b;
    } else {
      BegansConcat(a[1..], b, key);
      assert (a + b)[0] == a[0] && (a + b)[1..] == a[1..] + b;
    }
  }

  lemma BegansWithout(open: seq<Open>, i: nat, key: Key)
    requires i < |open|
    ensures var rest := multiset(Begans(open[..i] + open[i + 1..], key));
            multiset(Begans(open, key)) == rest + if open[i].key == key then multiset{open[i].began} else multiset{}
  {
    assert open == open[..i] + ([open[i]] + open[i + 1..]);
    BegansConcat(open[..i], [open[i]] + open[i + 1..], key);
    BegansConcat([open[i]], open[i + 1..], key);
    BegansConcat(open[..i], open[i + 1..], key);
    assert [open[i]][1..] == [];
    assert Begans([open[i]], key) == if open[i].key == key then [open[i].began] else [];
  }

  lemma {:induction false} BeganOpen(open: seq<Open>, key: Key, b: nat)
    requires b in Begans(open, key)
    ensures Open(key, b) in open
  {
    if open[0] != Open(key, b) {
      BeganOpen(open[1..], key, b);
    }
  }

  ghost predicate Sound(o: Options, d: Desk, key: Key) {
    && Clocked(d.ops) && OrderlyRun(o, d.ops, key)
    && WatchAfter(o, d.ops, key).inflight == multiset(Begans(d.open, key))
  }

  lemma ClockedSnoc(ops: seq<Op>, op: Op)
    requires Clocked(ops) && Clock(ops) <= Start(op) <= End(op)
    ensures Clocked(ops + [op])
  {
  }

  lemma OrderlySnoc(o: Options, ops: seq<Op>, op: Op, key: Key)
    requires OrderlyRun(o, ops, key) && Orderly(o, TableAfter(o, ops), WatchAfter(o, ops, key), key, op)
    ensures OrderlyRun(o, ops + [op], key)
  {
    var all := ops + [op];
    forall k | 0 <= k < |all| ensures OrderlyAt(o, all, key, k) {
      if k < |ops| {
        assert OrderlyAt(o, ops, key, k);
        assert all[..k] == ops[..k] && all[k] == ops[k];
      } else {
        assert all[..k] == ops && all[k] == op;
      }
    }
  }

  lemma WatchSnoc(o: Options, ops: seq<Op>, op: Op, key: Key)
    ensures TableAfter(o, ops + [op]) == Apply(o, TableAfter(o, ops), op)
    ensures WatchAfter(o, ops + [op], key) == Observe(o, TableAfter(o, ops), WatchAfter(o, ops, key), key, op)
  {
    assert (ops + [op])[..|ops|] == ops;
  }

  lemma SoundSnoc(o: Options, d: Desk, op: Op, open: seq<Open>, key: Key)
    requires Sound(o, d, key) && Clock(d.ops) <= Start(op) <= End(op)
    requires Orderly(o, TableAfter(o, d.ops), WatchAfter(o, d.ops, key), key, op)
    requires WatchAfter(o, d.ops + [op], key).inflight == multiset(Begans(open, key))
    ensures Sound(o, Desk(d.ops + [op], open), key)
  {
    ClockedSnoc(d.ops, op);
    OrderlySnoc(o, d.ops, op, key);
  }

  lemma ArrivalKeepsSound(o: Options, d: Desk, key: Key, k: Key, checkedAt: nat, recheckedAt: nat, now: nat)
    requires Sound(o, d, key) && Check(o, TableOf(o, d), k, checkedAt).Allowed?
    requires WellTimed(o, d, key, Arrives(k, true, checkedAt, recheckedAt, now))
    requires forall b :: b in WatchAfter(o, d.ops, key).inflight ==> now - b < o.pendingTtlMs
    ensures Sound(o, Desk(d.ops + [OpBegin(k, recheckedAt, now)], d.open + [Open(k, now)]), key)
  {
    var op := OpBegin(k, recheckedAt, now);
    AllowedIsAdmitted(o, TableAfter(o, d.ops), k, checkedAt, recheckedAt, now);
    WatchSnoc(o, d.ops, op, key);
    BegansConcat(d.open, [Open(k, now)], key);
    assert [Open(k, now)][1..] == [];
    assert Begans([Open(k, now)], key) == if k == key then [now] else [];
    SoundSnoc(o, d, op, d.open + [Open(k, now)], key);
  }

  lemma SettlingOrderly(o: Options, d: Desk, key: Key, i: nat, wrong: bool, now: nat)
    requires Sound(o, d, key) && i < |d.open| && WellTimed(o, d, key, Leaves(i, wrong, now))
    requires forall b :: b in WatchAfter(o, d.ops, key).inflight ==> now - b < o.pendingTtlMs
    ensures Orderly(o, TableAfter(o, d.ops), WatchAfter(o, d.ops, key), key, Settling(d.open[i], wrong, now))
  {
    BegansWithout(d.open, i, key);
    WatchSnoc(o, d.ops, Settling(d.open[i], wrong, now), key);
  }

  lemma SettlingWatched(o: Options, d: Desk, key: Key, i: nat, wrong: bool, now: nat)
    requires i < |d.open| && WatchAfter(o, d.ops, key).inflight == multiset(Begans(d.open, key))
    ensures WatchAfter(o, d.ops + [Settling(d.open[i], wrong, now)], key).inflight ==
              multiset(Begans(d.open[..i] + d.open[i + 1..], key))
  {
    BegansWithout(d.open, i, key);
    WatchSnoc(o, d.ops, Settling(d.open[i], wrong, now), key);
  }

  lemma LeavingKeepsSound(o: Options, d: Desk, key: Key, i: nat, wrong: bool, now: nat)
    requires Sound(o, d, key) && i < |d.open| && Clock(d.ops) <= now
    requires Orderly(o, TableAfter(o, d.ops), WatchAfter(o, d.ops, key), key, Settling(d.open[i], wrong, now))
    ensures Sound(o, Desk(d.ops + [Settling(d.open[i], wrong, now)], d.open[..i] + d.open[i + 1..]), key)
  {
    SettlingWatched(o, d, key, i, wrong, now);
    SoundSnoc(o, d, Settling(d.open[i], wrong, now), d.open[..i] + d.open[i + 1..], key);
  }

  lemma AskingKeepsSound(o: Options, d: Desk, key: Key, k: Key, checkedAt: nat, now: nat)
    requires Sound(o, d, key) && WellTimed(o, d, key, Asks(k, checkedAt, now))
    requires forall b :: b in WatchAfter(o, d.ops, key).inflight ==> now - b < o.pendingTtlMs
    ensures Sound(o, Next(o, d, Asks(k, checkedAt, now)), key)
  {
    var op, d' := OpBegin(k, checkedAt, now), Next(o, d, Asks(k, checkedAt, now));
    WatchSnoc(o, d.ops, op, key);
    BegansConcat(d.open, [Open(k, now)], key);
    assert [Open(k, now)][1..] == [];
    assert Begans([Open(k, now)], key) == if k == key then [now] else [];
    SoundSnoc(o, d, op, d'.open, key);
  }

  lemma ReleasingAgainKeepsSound(o: Options, d: Desk, key: Key, k: Key, began: nat, now: nat)
    requires Sound(o, d, key) && WellTimed(o, d, key, ReleasesAgain(k, began, now))
    requires forall b :: b in WatchAfter(o, d.ops, key).inflight ==> now - b < o.pendingTtlMs
    ensures Sound(o, Next(o, d, ReleasesAgain(k, began, now)), key)
  {
    if k == key && began in Begans(d.open, key) { BeganOpen(d.open, key, began); }
    assert k == key ==> began !in multiset(Begans(d.open, key));
    WatchSnoc(o, d.ops, OpRelease(k, began, now), key);
    SoundSnoc(o, d, OpRelease(k, began, now), d.open, key);
  }

  lemma InflightAreYoung(o: Options, d: Desk, key: Key, e: Event)
    requires Sound(o, d, key) && WellTimed(o, d, key, e)
    ensures forall b :: b in WatchAfter(o, d.ops, key).inflight ==> e.now - b < o.pendingTtlMs
  {
    forall b | b in WatchAfter(o, d.ops, key).inflight ensures e.now - b < o.pendingTtlMs {
      assert b in Begans(d.open, key);
      BeganOpen(d.open, key, b);
    }
  }

  lemma EndKeepsSound(o: Options, d: Desk, key: Key, e: Event)
    requires Sound(o, d, key) && WellTimed(o, d, key, e) && (e.Leaves? || e.ReleasesAgain?)
    ensures Sound(o, Next(o, d, e), key)
  {
    InflightAreYoung(o, d, key, e);
    match e
    case Leaves(i, wrong, now) =>
      if i < |d.open| {
        SettlingOrderly(o, d, key, i, wrong, now);
        LeavingKeepsSound(o, d, key, i, wrong, now);
      }
    case ReleasesAgain(k, began, now) => ReleasingAgainKeepsSound(o, d, key, k, began, now);
  }

  lemma EventKeepsSound(o: Options, d: Desk, key: Key, e: Event)
    requires Sound(o, d, key) && WellTimed(o, d, key, e)
    ensures Sound(o, Next(o, d, e), key)
  {
    if e.Leaves? || e.ReleasesAgain? {
      EndKeepsSound(o, d, key, e);
    } else {
      InflightAreYoung(o, d, key, e);
      match e
      case Arrives(k, elsewhere, checkedAt, recheckedAt, now) =>
        if elsewhere && Check(o, TableOf(o, d), k, checkedAt).Allowed? {
          ArrivalKeepsSound(o, d, key, k, checkedAt, recheckedAt, now);
        }
      case Asks(k, checkedAt, now) => AskingKeepsSound(o, d, key, k, checkedAt, now);
    }
  }

  lemma {:induction false} RunKeepsSound(o: Options, events: seq<Event>, key: Key, k: nat)
    requires WellTimedRun(o, events, key) && k <= |events|
    ensures Sound(o, DeskAfter(o, events[..k]), key)
  {
    if k > 0 {
      RunKeepsSound(o, events, key, k - 1);
      assert WellTimedAt(o, events, key, k - 1);
      assert events[..k][..k - 1] == events[..k - 1];
      EventKeepsSound(o, DeskAfter(o, events[..k - 1]), key, events[k - 1]);
    }
  }

  /**
   * Attempts never reset the account-wide and the per-address throttle, so there the bound holds on every run:
   * in no interval of `windowMs` are more than `maxFailures` wrong passwords, or wrong links, for the key confirmed,
   * whatever arrives, in whatever order attempts end. And the reservations held are exactly the attempts under way.
   */
  lemma LoginsKeepRate(o: Options, events: seq<Event>, key: Key, from: nat)
    requires 0 < o.windowMs <= o.lockMs && 0 < o.maxFailures && WellTimedRun(o, events, key)
    ensures var d := DeskAfter(o, events);
            && InWindow(WatchAfter(o, d.ops, key).confirmed, from, o.windowMs) <= o.maxFailures
            && multiset(EntryOf(TableAfter(o, d.ops), key).pending) == multiset(Begans(d.open, key))
  {
    var d := DeskAfter(o, events);
    assert events[..|events|] == events;
    RunKeepsSound(o, events, key, |events|);
    RateBound(o, d.ops, key, from);
    KeyAlongRuns(o, d.ops, key, |d.ops|);
    assert d.ops[..|d.ops|] == d.ops;
  }

  // ─── In terms of what happened ─────────────────────────────────────────────

  /** When sign-ins on the key, let in before, left with a wrong password. */
  function WrongsOn(o: Options, events: seq<Event>, key: Key): seq<nat> {
    if events == [] then []
    else
      var init, e := events[..|events| - 1], events[|events| - 1];
      var open := DeskAfter(o, init).open;
      WrongsOn(o, init, key) + if e.Leaves? && e.wrong && e.i < |open| && open[e.i].key == key then [e.now] else []
  }

  lemma NextConfirmed(o: Options, d: Desk, e: Event, key: Key)
    ensures WatchAfter(o, Next(o, d, e).ops, key).confirmed ==
              WatchAfter(o, d.ops, key).confirmed
              + if e.Leaves? && e.wrong && e.i < |d.open| && d.open[e.i].key == key then [e.now] else []
  {
    var d' := Next(o, d, e);
    if d'.ops != d.ops {
      WatchSnoc(o, d.ops, d'.ops[|d.ops|], key);
      assert d'.ops == d.ops + [d'.ops[|d.ops|]];
    }
  }

  lemma {:induction false} ConfirmedAreWrongs(o: Options, events: seq<Event>, key: Key)
    ensures WatchAfter(o, DeskAfter(o, events).ops, key).confirmed == WrongsOn(o, events, key)
  {
    if events != [] {
      ConfirmedAreWrongs(o, events[..|events| - 1], key);
      NextConfirmed(o, DeskAfter(o, events[..|events| - 1]), events[|events| - 1], key);
    }
  }

  /** So no interval of `windowMs` sees more than `maxFailures` sign-ins on the key leave with a wrong password. */
  lemma WrongsAreBounded(o: Options, events: seq<Event>, key: Key, from: nat)
    requires 0 < o.windowMs <= o.lockMs && 0 < o.maxFailures && WellTimedRun(o, events, key)
    ensures InWindow(WrongsOn(o, events, key), from, o.windowMs) <= o.maxFailures
  {
    LoginsKeepRate(o, events, key, from);
    ConfirmedAreWrongs(o, events, key);
  }

  /**
   * And nobody is turned away before that: a sign-in on a tracked key that is not locked, let through by the other
   * throttles, goes on exactly if the wrong passwords of the last `windowMs` and the sign-ins under way are together
   * below `maxFailures`; and so does an invite link.
   */
  lemma LetInExactly(o: Options, events: seq<Event>, key: Key, checkedAt: nat, recheckedAt: nat, now: nat)
    requires 0 < o.windowMs <= o.lockMs && 0 < o.maxFailures && WellTimedRun(o, events, key)
    requires Clock(DeskAfter(o, events).ops) <= checkedAt && forall a :: a in DeskAfter(o, events).open ==> checkedAt - a.began < o.pendingTtlMs
    requires key in TableOf(o, DeskAfter(o, events)).entries && TableOf(o, DeskAfter(o, events)).entries[key].lockedUntil <= checkedAt
    ensures var d := DeskAfter(o, events);
            Next(o, d, Arrives(key, true, checkedAt, recheckedAt, now)).open ==
              if |Within(WrongsOn(o, events, key), checkedAt, o.windowMs)| + |Begans(d.open, key)| < o.maxFailures
              then d.open + [Open(key, now)] else d.open
    ensures var d := DeskAfter(o, events); Next(o, d, Arrives(key, false, checkedAt, recheckedAt, now)) == d
    ensures var d := DeskAfter(o, events);
            Next(o, d, Asks(key, checkedAt, now)).open == Next(o, d, Arrives(key, true, checkedAt, recheckedAt, now)).open
  {
    var d := DeskAfter(o, events);
    assert events[..|events|] == events;
    RunKeepsSound(o, events, key, |events|);
    ConfirmedAreWrongs(o, events, key);
    var w := WatchAfter(o, d.ops, key);
    forall b | b in w.inflight ensures checkedAt - b < o.pendingTtlMs {
      assert b in Begans(d.open, key);
      BeganOpen(d.open, key, b);
    }
    AllowedExactly(o, d.ops, key, checkedAt);
    assert |w.inflight| == |Begans(d.open, key)|;
  }
}
