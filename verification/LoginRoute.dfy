/** The `/login` handler over its throttles (http/auth.ts), and what it makes of the rate bound. */
module LoginRoute {
  import opened Prelude
  import opened LoginThrottle
  import opened LoginRate

  /** One of the counters a sign-in is checked against: an account at an address, an account, an address. */
  datatype Guard = Guard(throttle: LoginThrottle, key: Key)

  datatype Attempt = Attempt(guard: Guard, began: nat)

  datatype Admission = Blocked(retry: Retry) | Reserved(attempts: seq<Attempt>)

  /** How the password check ended. `Broken` is the program's own failure, not a wrong guess. */
  datatype Outcome = Wrong | Right | Broken

  /** The moments at which one throttle reads the clock while it is checked and reserved in. */
  datatype Moment = Moment(checked: nat, rechecked: nat, began: nat)

  ghost predicate Separate(guards: seq<Guard>) {
    forall i, j :: 0 <= i < j < |guards| ==> guards[i].throttle != guards[j].throttle
  }

  ghost predicate Healthy(guards: seq<Guard>)
    reads set i | 0 <= i < |guards| :: guards[i].throttle
  {
    forall i :: 0 <= i < |guards| ==>
      Valid(guards[i].throttle.State()) && |guards[i].throttle.keys| <= guards[i].throttle.options.maxKeys
  }

  ghost predicate InOrder(guards: seq<Guard>, clock: seq<Moment>) {
    && |clock| == |guards|
    && forall i :: 0 <= i < |clock| ==> clock[i].checked <= clock[i].rechecked <= clock[i].began
  }

  ghost function VerdictOf(g: Guard, m: Moment): Verdict
    requires Valid(g.throttle.State())
    reads g.throttle
  {
    Check(g.throttle.options, g.throttle.State(), g.key, m.checked)
  }

  predicate Sooner(a: Retry, b: Retry) { b.Never? || (a.After? && a.seconds <= b.seconds) }

  /** Step 1: every throttle is asked; the longest wait is reported. */
  method CheckAll(guards: seq<Guard>, clock: seq<Moment>) returns (blocked: Option<Retry>)
    requires Healthy(guards) && InOrder(guards, clock)
    ensures blocked.None? <==> forall i :: 0 <= i < |guards| ==> VerdictOf(guards[i], clock[i]).Allowed?
    ensures blocked.Some? ==>
              && (exists i :: 0 <= i < |guards| && VerdictOf(guards[i], clock[i]) == Refused(blocked.value))
              && (forall i :: 0 <= i < |guards| && VerdictOf(guards[i], clock[i]).Refused? ==>
                    Sooner(VerdictOf(guards[i], clock[i]).retry, blocked.value))
  {
    blocked := None;
    ghost var at := 0;
    for n := 0 to |guards|
      invariant blocked.None? ==> forall i :: 0 <= i < n ==> VerdictOf(guards[i], clock[i]).Allowed?
      invariant blocked.Some? ==>
                  && at < n && VerdictOf(guards[at], clock[at]) == Refused(blocked.value)
                  && (forall i :: 0 <= i < n && VerdictOf(guards[i], clock[i]).Refused? ==>
                        Sooner(VerdictOf(guards[i], clock[i]).retry, blocked.value))
    {
      var verdict := guards[n].throttle.CheckKey(guards[n].key, clock[n].checked);
      if verdict.Refused? && (blocked.None? || Sooner(blocked.value, verdict.retry)) {
        blocked, at := Some(verdict.retry), n;
      }
    }
  }

  /** A throttle that allowed the attempt a moment ago takes it, and is still a throttle. */
  method BeginAllowed(g: Guard, m: Moment)
    requires Valid(g.throttle.State()) && |g.throttle.keys| <= g.throttle.options.maxKeys
    requires m.checked <= m.rechecked <= m.began && VerdictOf(g, m).Allowed?
    modifies g.throttle
    ensures Valid(g.throttle.State()) && |g.throttle.keys| <= g.throttle.options.maxKeys
    ensures Admitted(g.throttle.options, old(g.throttle.State()), g.key, m.rechecked, m.began)
    ensures g.throttle.State() == Begin(g.throttle.options, old(g.throttle.State()), g.key, m.rechecked, m.began)
  {
    AllowedIsAdmitted(g.throttle.options, g.throttle.State(), g.key, m.checked, m.rechecked, m.began);
    BeginIs(g.throttle.options, g.throttle.State(), g.key, m.rechecked, m.began);
    var _ := g.throttle.BeginAttempt(g.key, m.rechecked, m.began);
  }

  /** The attempt holds a reservation made at that moment, on top of what was there. */
  ghost predicate HoldsReservation(g: Guard, m: Moment, before: Table)
    reads g.throttle
  {
    && Valid(before)
    && Admitted(g.throttle.options, before, g.key, m.rechecked, m.began)
    && g.throttle.State() == Begin(g.throttle.options, before, g.key, m.rechecked, m.began)
  }

  /**
   * Steps 1 and 2, with nothing in between: either one throttle refuses and no counter moves, or every
   * throttle holds a reservation for this attempt.
   */
  method Admit(guards: seq<Guard>, clock: seq<Moment>) returns (r: Admission)
    requires Separate(guards) && Healthy(guards) && InOrder(guards, clock)
    modifies set i | 0 <= i < |guards| :: guards[i].throttle
    ensures Healthy(guards)
    ensures r.Reserved? <==> forall i :: 0 <= i < |guards| ==> old(VerdictOf(guards[i], clock[i])).Allowed?
    ensures r.Blocked? ==>
              && (forall i :: 0 <= i < |guards| ==> guards[i].throttle.State() == old(guards[i].throttle.State()))
              && (exists i :: 0 <= i < |guards| && old(VerdictOf(guards[i], clock[i])) == Refused(r.retry))
              && (forall i :: 0 <= i < |guards| && old(VerdictOf(guards[i], clock[i])).Refused? ==>
                    Sooner(old(VerdictOf(guards[i], clock[i])).retry, r.retry))
    ensures r.Reserved? ==>
              && |r.attempts| == |guards|
              && forall i :: 0 <= i < |guards| ==>
                   && r.attempts[i] == Attempt(guards[i], clock[i].began)
                   && HoldsReservation(guards[i], clock[i], old(guards[i].throttle.State()))
  {
    var blocked := CheckAll(guards, clock);
    if blocked.Some? { return Blocked(blocked.value); }
    var attempts := [];
    for n := 0 to |guards|
      invariant |attempts| == n && Healthy(guards)
      invariant forall i :: n <= i < |guards| ==> guards[i].throttle.State() == old(guards[i].throttle.State())
      invariant forall i :: 0 <= i < n ==>
                  && attempts[i] == Attempt(guards[i], clock[i].began)
                  && HoldsReservation(guards[i], clock[i], old(guards[i].throttle.State()))
    {
      assert old(VerdictOf(guards[n], clock[n])).Allowed?;
      BeginAllowed(guards[n], clock[n]);
      attempts := attempts + [Attempt(guards[n], clock[n].began)];
    }
    r := Reserved(attempts);
  }

  /** What the end of an attempt does to one throttle; only the first is forgiven by a success. */
  ghost function Settled(o: Options, t: Table, key: Key, began: nat, outcome: Outcome, first: bool, failedAt: nat, now: nat, later: nat): Table {
    match outcome
    case Wrong => AddFailure(o, Settle(t, key, began), key, failedAt)
    case Broken => Settle(t, key, began)
    case Right => if first then Success(o, Settle(t, key, began), key, now, later) else Settle(t, key, began)
  }

  /** The key's entry with one failure more: the last one the window allows starts a lock, any other adds to the count. */
  ghost predicate CountedOnce(o: Options, e: Entry, e': Entry, now: nat) {
    if |Within(e.failures, now, o.windowMs)| + 1 >= o.maxFailures
    then e'.lockedUntil == now + o.lockMs && e'.failures == []
    else e'.lockedUntil == e.lockedUntil && |Within(e'.failures, now, o.windowMs)| == |Within(e.failures, now, o.windowMs)| + 1
  }

  /**
   * However an attempt ends, its own reservation is given back, and no other key is touched. A wrong password counts as
   * one failure; our own error counts as nothing; a success forgives the first throttle what it had counted, lifts no
   * lock, and leaves the other throttles as an error would.
   */
  lemma SettledLeaves(o: Options, t: Table, key: Key, began: nat, outcome: Outcome, first: bool, failedAt: nat, now: nat, later: nat)
    requires Valid(t) && |t.keys| <= o.maxKeys && 0 < o.windowMs && key in t.entries && began in t.entries[key].pending
    ensures var e, t' := t.entries[key], Settled(o, t, key, began, outcome, first, failedAt, now, later);
            && (forall k :: k != key ==> (k in t'.entries <==> k in t.entries))
            && (forall k :: k in t.entries && k != key ==> t'.entries[k] == t.entries[k])
            && (key !in t'.entries ==> outcome == Right && first && e.lockedUntil <= now)
            && (key in t'.entries ==>
                  var e' := t'.entries[key];
                  && multiset(e'.pending) == multiset(e.pending) - multiset{began}
                  && match outcome
                     case Wrong => CountedOnce(o, e, e', failedAt)
                     case Broken => e'.failures == e.failures && e'.lockedUntil == e.lockedUntil
                     case Right =>
                       e'.lockedUntil == e.lockedUntil && e'.failures == if first && e.lockedUntil <= now then [] else e.failures)
  {
    var settled := Settle(t, key, began);
    SettleIs(t, key, began);
    RemoveFirstIs(t.entries[key].pending, began);
    FailureLocksExactly(o, settled, key, failedAt);
    SuccessForgives(o, settled, key, now, later);
  }

  /**
   * Step 3, some time later: each reservation is given back exactly once, whatever happened. Each throttle reads the
   * clock for itself when it records a failure (`failedAt`), and the first one again for a success.
   */
  method Finish(attempts: seq<Attempt>, outcome: Outcome, failedAt: seq<nat>, now: nat, later: nat)
    requires |attempts| > 0 && |failedAt| == |attempts|
    requires Separate(seq(|attempts|, i requires 0 <= i < |attempts| => attempts[i].guard))
    requires forall i :: 0 <= i < |attempts| ==> Valid(attempts[i].guard.throttle.State())
    modifies set i | 0 <= i < |attempts| :: attempts[i].guard.throttle
    ensures forall i :: 0 <= i < |attempts| ==>
              var a := attempts[i];
              a.guard.throttle.State() ==
                Settled(a.guard.throttle.options, old(a.guard.throttle.State()), a.guard.key, a.began, outcome, i == 0, failedAt[i], now, later)
  {
    for n := 0 to |attempts|
      invariant forall i :: n <= i < |attempts| ==> attempts[i].guard.throttle.State() == old(attempts[i].guard.throttle.State())
      invariant forall i :: 0 <= i < n ==>
                  var a := attempts[i];
                  a.guard.throttle.State() ==
                    Settled(a.guard.throttle.options, old(a.guard.throttle.State()), a.guard.key, a.began,
                            if outcome == Right then Broken else outcome, i == 0, failedAt[i], now, later)
    {
      var a := attempts[n];
      assert forall i :: 0 <= i < |attempts| && i != n ==> attempts[i].guard.throttle != a.guard.throttle by {
        ghost var gs := seq(|attempts|, i requires 0 <= i < |attempts| => attempts[i].guard);
        assert forall i :: 0 <= i < |attempts| ==> gs[i] == attempts[i].guard;
      }
      if outcome == Wrong {
        a.guard.throttle.Fail(a.guard.key, a.began, failedAt[n]);
      } else {
        a.guard.throttle.SettleAttempt(a.guard.key, a.began);
      }
    }
    if outcome == Right {
      var first := attempts[0].guard;
      assert forall i :: 0 < i < |attempts| ==> attempts[i].guard.throttle != first.throttle by {
        ghost var gs := seq(|attempts|, i requires 0 <= i < |attempts| => attempts[i].guard);
        assert forall i :: 0 <= i < |attempts| ==> gs[i] == attempts[i].guard;
      }
      first.throttle.RecordSuccess(first.key, now, later);
    }
  }
}
