/** The scheduler's poll loop: read what is due, then for each timer delete its row and call back (scheduler/PostgresScheduler.ts). */
module TimerPolls {
  import opened Prelude

  type Id = string

  /** What a poll has still to do, and whether it has deleted the row of the first of these. */
  datatype Poll = Poll(rest: seq<Id>, deleted: bool)

  datatype Delivery = Delivery(poll: nat, timer: Id)

  /** `timers` holds when each is due; `scheduled` all ids ever scheduled; `log` the callbacks made. */
  datatype Clockwork = Clockwork(timers: map<Id, int>, scheduled: set<Id>, polls: map<nat, Poll>, log: seq<Delivery>)

  datatype Step =
    | Schedule(id: Id, at: int)
    | Cancel(id: Id)
    | Starts(p: nat, now: int, due: seq<Id>)
    | Deletes(p: nat)
    | Delivers(p: nat)
    | Fails(p: nat)

  function DueAt(timers: map<Id, int>, now: int): set<Id> { set id | id in timers && timers[id] <= now }

  /** The timers due, in any order. */
  ghost predicate IsDue(timers: map<Id, int>, now: int, due: seq<Id>) { Distinct(due) && Elements(due) == DueAt(timers, now) }

  /** A poll in which a deletion or a callback throws ends there; what it had not reached is left to later polls. */
  ghost function Next(c: Clockwork, step: Step): Clockwork {
    match step
    case Schedule(id, at) => c.(timers := c.timers[id := at], scheduled := c.scheduled + {id})
    case Cancel(id) => c.(timers := c.timers - {id})
    case Starts(p, now, due) => if p !in c.polls && IsDue(c.timers, now, due) then c.(polls := c.polls[p := Poll(due, false)]) else c
    case Deletes(p) =>
      if p in c.polls && c.polls[p].rest != [] && !c.polls[p].deleted
      then c.(timers := c.timers - {c.polls[p].rest[0]}, polls := c.polls[p := c.polls[p].(deleted := true)]) else c
    case Delivers(p) =>
      if p in c.polls && c.polls[p].rest != [] && c.polls[p].deleted
      then c.(log := c.log + [Delivery(p, c.polls[p].rest[0])], polls := c.polls[p := Poll(c.polls[p].rest[1..], false)]) else c
    case Fails(p) => if p in c.polls then c.(polls := c.polls[p := Poll([], false)]) else c
  }

  const QUIET: Clockwork := Clockwork(map[], {}, map[], [])

  ghost function Run(c: Clockwork, steps: seq<Step>): Clockwork {
    if steps == [] then c else Next(Run(c, steps[..|steps| - 1]), steps[|steps| - 1])
  }

  // ─── At most once in each poll ─────────────────────────────────────────────

  ghost predicate PollsOK(c: Clockwork) {
    && (forall p :: p in c.polls ==> Distinct(c.polls[p].rest))
    && (forall d :: d in c.log ==> d.poll in c.polls && d.timer !in c.polls[d.poll].rest)
    && Distinct(c.log)
  }

  lemma StepKeepsPolls(c: Clockwork, step: Step)
    requires PollsOK(c)
    ensures PollsOK(Next(c, step))
  {
    var c' := Next(c, step);
    if step.Delivers? && c' != c {
      var rest := c.polls[step.p].rest;
      var last := Delivery(step.p, rest[0]);
      assert rest[0] in rest && last !in c.log;
      forall d | d in c'.log ensures d.poll in c'.polls && d.timer !in c'.polls[d.poll].rest {
        assert d in c.log || d == last;
      }
    }
  }

  lemma {:induction false} RunKeepsPolls(steps: seq<Step>)
    ensures PollsOK(Run(QUIET, steps))
  {
    if steps != [] {
      RunKeepsPolls(steps[..|steps| - 1]);
      StepKeepsPolls(Run(QUIET, steps[..|steps| - 1]), steps[|steps| - 1]);
    }
  }

  /** However polls overlap, no poll calls back for a timer more than once. */
  lemma OncePerPoll(steps: seq<Step>, i: nat, j: nat)
    requires i < j < |Run(QUIET, steps).log|
    ensures Run(QUIET, steps).log[i] != Run(QUIET, steps).log[j]
  {
    RunKeepsPolls(steps);
  }

  const BEGUN: seq<Step> := [Schedule("t", 0)] + [Starts(0, 0, ["t"])] + [Starts(1, 0, ["t"])]
  const BOTH_DUE: Clockwork := Clockwork(map["t" := 0], {"t"}, map[0 := Poll(["t"], false), 1 := Poll(["t"], false)], [])

  lemma BothBegin()
    ensures Run(QUIET, BEGUN) == BOTH_DUE
  {
    var c := Next(QUIET, Schedule("t", 0));
    assert Elements(["t"]) == DueAt(c.timers, 0);
    RunSnoc([], Schedule("t", 0));
    assert [] + [Schedule("t", 0)] == [Schedule("t", 0)];
    RunSnoc([Schedule("t", 0)], Starts(0, 0, ["t"]));
    RunSnoc([Schedule("t", 0)] + [Starts(0, 0, ["t"])], Starts(1, 0, ["t"]));
  }

  /** One poll's turn with the timer. */
  lemma OneTurn(steps: seq<Step>, p: nat)
    requires p in Run(QUIET, steps).polls && Run(QUIET, steps).polls[p] == Poll(["t"], false)
    ensures var c, c' := Run(QUIET, steps), Run(QUIET, steps + [Deletes(p)] + [Delivers(p)]);
            && c'.log == c.log + [Delivery(p, "t")]
            && c'.polls == c.polls[p := Poll([], false)]
  {
    RunSnoc(steps, Deletes(p));
    RunSnoc(steps + [Deletes(p)], Delivers(p));
    var c := Run(QUIET, steps);
    assert Next(c, Deletes(p)).polls[p] == Poll(["t"], true);
    assert ["t"][1..] == [];
  }

  /** But two polls that overlap can: both read the row before either deletes it. */
  lemma OverlappingPollsDeliverTwice()
    ensures Run(QUIET, BEGUN + [Deletes(0)] + [Delivers(0)] + [Deletes(1)] + [Delivers(1)]).log == [Delivery(0, "t"), Delivery(1, "t")]
  {
    BothBegin();
    OneTurn(BEGUN, 0);
    OneTurn(BEGUN + [Deletes(0)] + [Delivers(0)], 1);
  }

  lemma RunSnoc(s: seq<Step>, step: Step)
    ensures Run(QUIET, s + [step]) == Next(Run(QUIET, s), step)
  {
    assert (s + [step])[..|s|] == s;
  }

  lemma RunNext(s: seq<Step>, k: nat)
    requires k < |s|
    ensures Run(QUIET, s[..k + 1]) == Next(Run(QUIET, s[..k]), s[k])
  {
    assert s[..k + 1][..k] == s[..k];
  }

  // ─── When a timer is called back for, and when not ─────────────────────────

  /** A poll that started at that step found the timer due. */
  ghost predicate FoundDueAt(steps: seq<Step>, k: nat, p: nat, id: Id) {
    && k < |steps| && steps[k].Starts? && steps[k].p == p
    && id in Run(QUIET, steps[..k]).timers && Run(QUIET, steps[..k]).timers[id] <= steps[k].now
  }

  ghost predicate FoundDue(steps: seq<Step>, p: nat, id: Id) { exists k: nat :: FoundDueAt(steps, k, p, id) }

  lemma FoundDueStays(steps: seq<Step>, step: Step, p: nat, id: Id)
    requires FoundDue(steps, p, id)
    ensures FoundDue(steps + [step], p, id)
  {
    var k: nat :| FoundDueAt(steps, k, p, id);
    assert (steps + [step])[..k] == steps[..k];
    assert FoundDueAt(steps + [step], k, p, id);
  }

  ghost predicate ListsDue(c: Clockwork, steps: seq<Step>, p: nat, id: Id) {
    (p in c.polls && id in c.polls[p].rest) || Delivery(p, id) in c.log ==> FoundDue(steps, p, id)
  }

  lemma StepListsDue(steps: seq<Step>, step: Step, p: nat, id: Id)
    requires ListsDue(Run(QUIET, steps), steps, p, id)
    ensures ListsDue(Run(QUIET, steps + [step]), steps + [step], p, id)
  {
    var c := Run(QUIET, steps);
    RunSnoc(steps, step);
    if FoundDue(steps, p, id) {
      FoundDueStays(steps, step, p, id);
    } else if step.Starts? && step.p == p && p in Next(c, step).polls && id in Next(c, step).polls[p].rest {
      assert id in Elements(step.due);
      assert (steps + [step])[..|steps|] == steps;
      assert FoundDueAt(steps + [step], |steps|, p, id);
    }
  }

  lemma {:induction false} RunListsDue(steps: seq<Step>, p: nat, id: Id)
    ensures ListsDue(Run(QUIET, steps), steps, p, id)
  {
    if steps != [] {
      RunListsDue(steps[..|steps| - 1], p, id);
      StepListsDue(steps[..|steps| - 1], steps[|steps| - 1], p, id);
      assert steps == steps[..|steps| - 1] + [steps[|steps| - 1]];
    }
  }

  /** Nothing is called back for before its time: the poll that does found it due when it started. */
  lemma NeverEarly(steps: seq<Step>, d: Delivery)
    requires d in Run(QUIET, steps).log
    ensures exists k: nat :: FoundDueAt(steps, k, d.poll, d.timer)
  {
    RunListsDue(steps, d.poll, d.timer);
  }

  ghost predicate Forgotten(c: Clockwork, id: Id) { id !in c.timers && forall p :: p in c.polls ==> id !in c.polls[p].rest }

  lemma StepForgets(c: Clockwork, step: Step, id: Id)
    requires Forgotten(c, id) && !(step.Schedule? && step.id == id)
    ensures Forgotten(Next(c, step), id) && forall p :: Delivery(p, id) in Next(c, step).log ==> Delivery(p, id) in c.log
  {
    if step.Starts? && Next(c, step) != c { assert id !in Elements(step.due); }
  }

  lemma {:induction false} StaysForgotten(steps: seq<Step>, k: nat, m: nat, id: Id)
    requires k <= m <= |steps| && Forgotten(Run(QUIET, steps[..k]), id)
    requires forall j :: k <= j < m ==> !(steps[j].Schedule? && steps[j].id == id)
    ensures Forgotten(Run(QUIET, steps[..m]), id)
    ensures forall p :: Delivery(p, id) in Run(QUIET, steps[..m]).log ==> Delivery(p, id) in Run(QUIET, steps[..k]).log
    decreases m
  {
    if k < m {
      StaysForgotten(steps, k, m - 1, id);
      RunNext(steps, m - 1);
      StepForgets(Run(QUIET, steps[..m - 1]), steps[m - 1], id);
    }
  }

  /** A timer that is cancelled before a poll has found it due is not called back for, unless it is scheduled again. */
  lemma CancelHolds(steps: seq<Step>, k: nat, m: nat, id: Id)
    requires k < m <= |steps| && steps[k] == Cancel(id)
    requires forall p :: p in Run(QUIET, steps[..k]).polls ==> id !in Run(QUIET, steps[..k]).polls[p].rest
    requires forall j :: k < j < m ==> !(steps[j].Schedule? && steps[j].id == id)
    ensures id !in Run(QUIET, steps[..m]).timers
    ensures forall p :: Delivery(p, id) in Run(QUIET, steps[..m]).log ==> Delivery(p, id) in Run(QUIET, steps[..k]).log
  {
    RunNext(steps, k);
    StaysForgotten(steps, k + 1, m, id);
  }

  /** A timer goes only by being cancelled, or deleted by a poll about to call back for it; a poll that fails takes none with it. */
  lemma GoesOnlyThen(steps: seq<Step>, k: nat, id: Id)
    requires k < |steps| && id in Run(QUIET, steps[..k]).timers && id !in Run(QUIET, steps[..k + 1]).timers
    ensures steps[k] == Cancel(id) || steps[k].Deletes?
    ensures steps[k].Deletes? ==>
              var p, c, c' := steps[k].p, Run(QUIET, steps[..k]), Run(QUIET, steps[..k + 1]);
              p in c.polls && c.polls[p].rest != [] && c.polls[p].rest[0] == id && c'.polls == c.polls[p := c.polls[p].(deleted := true)]
  {
    RunNext(steps, k);
  }

  /** The rest of a poll that goes on undisturbed. */
  function Turns(p: nat, n: nat): seq<Step> { if n == 0 then [] else [Deletes(p)] + [Delivers(p)] + Turns(p, n - 1) }

  function Calls(p: nat, ids: seq<Id>): (calls: seq<Delivery>)
    ensures |calls| == |ids| && forall i :: 0 <= i < |ids| ==> calls[i] == Delivery(p, ids[i])
  {
    seq(|ids|, i requires 0 <= i < |ids| => Delivery(p, ids[i]))
  }

  function AfterTurn(c: Clockwork, p: nat, rest: seq<Id>): Clockwork
    requires rest != []
  {
    c.(timers := c.timers - {rest[0]}, polls := c.polls[p := Poll(rest[1..], false)], log := c.log + [Delivery(p, rest[0])])
  }

  lemma TurnGoes(steps: seq<Step>, p: nat, rest: seq<Id>)
    requires p in Run(QUIET, steps).polls && Run(QUIET, steps).polls[p] == Poll(rest, false) && rest != []
    ensures Run(QUIET, steps + [Deletes(p)] + [Delivers(p)]) == AfterTurn(Run(QUIET, steps), p, rest)
  {
    RunSnoc(steps, Deletes(p));
    RunSnoc(steps + [Deletes(p)], Delivers(p));
  }

  /** The poll has called back for each of these, in order, none of them is scheduled any more, and it is done. */
  ghost predicate Delivered(c: Clockwork, c': Clockwork, p: nat, rest: seq<Id>) {
    && c'.log == c.log + Calls(p, rest) && c'.timers == c.timers - Elements(rest)
    && c'.polls == c.polls[p := Poll([], false)] && c'.scheduled == c.scheduled
  }

  lemma CallsMore(p: nat, rest: seq<Id>, log: seq<Delivery>)
    requires rest != []
    ensures log + [Delivery(p, rest[0])] + Calls(p, rest[1..]) == log + Calls(p, rest)
  {
    assert Calls(p, rest) == [Delivery(p, rest[0])] + Calls(p, rest[1..]);
  }

  lemma TimersLess(timers: map<Id, int>, rest: seq<Id>)
    requires rest != []
    ensures timers - {rest[0]} - Elements(rest[1..]) == timers - Elements(rest)
  {
    assert Elements(rest) == {rest[0]} + Elements(rest[1..]);
  }

  lemma OneMoreDelivered(c: Clockwork, c': Clockwork, p: nat, rest: seq<Id>)
    requires rest != [] && Delivered(AfterTurn(c, p, rest), c', p, rest[1..])
    ensures Delivered(c, c', p, rest)
  {
    CallsMore(p, rest, c.log);
    TimersLess(c.timers, rest);
  }

  /** A poll that goes on undisturbed calls back for every timer on its list. */
  lemma {:induction false} PollDelivers(steps: seq<Step>, p: nat, rest: seq<Id>)
    requires p in Run(QUIET, steps).polls && Run(QUIET, steps).polls[p] == Poll(rest, false)
    ensures Delivered(Run(QUIET, steps), Run(QUIET, steps + Turns(p, |rest|)), p, rest)
    decreases |rest|
  {
    if rest == [] {
      assert steps + Turns(p, 0) == steps;
    } else {
      var once := steps + [Deletes(p)] + [Delivers(p)];
      TurnGoes(steps, p, rest);
      PollDelivers(once, p, rest[1..]);
      assert steps + Turns(p, |rest|) == once + Turns(p, |rest| - 1);
      OneMoreDelivered(Run(QUIET, steps), Run(QUIET, steps + Turns(p, |rest|)), p, rest);
    }
  }

  // ─── Exactly when a timer is called back for at most once ──────────────────

  /** A timer's id is scheduled once: it is its token's. */
  ghost predicate ScheduledOnceAt(steps: seq<Step>, k: nat)
    requires k < |steps|
  {
    steps[k].Schedule? ==> steps[k].id !in Run(QUIET, steps[..k]).scheduled
  }

  ghost predicate ScheduledOnce(steps: seq<Step>) {
    forall k :: 0 <= k < |steps| ==> ScheduledOnceAt(steps, k)
  }

  /** What this poll finds due is not on the list of any poll that is still at work. */
  ghost predicate StartsApart(c: Clockwork, step: Step) {
    step.Starts? && step.p !in c.polls && IsDue(c.timers, step.now, step.due) ==>
      forall p, id :: p in c.polls && id in c.polls[p].rest ==> id !in step.due
  }

  ghost predicate StartsApartAt(steps: seq<Step>, k: nat)
    requires k < |steps|
  {
    StartsApart(Run(QUIET, steps[..k]), steps[k])
  }

  ghost predicate PollsApart(steps: seq<Step>) {
    forall k :: 0 <= k < |steps| ==> StartsApartAt(steps, k)
  }

  /** One step of such a run. */
  ghost predicate Orderly(c: Clockwork, step: Step) {
    StartsApart(c, step) && (step.Schedule? ==> step.id !in c.scheduled)
  }

  ghost function DeliveredIn(log: seq<Delivery>): set<Id> { set d | d in log :: d.timer }

  lemma DeliveredNext(log: seq<Delivery>, d: Delivery)
    ensures DeliveredIn(log + [d]) == DeliveredIn(log) + {d.timer}
  {
    forall x | x in log ensures x in log + [d] {}
    assert d in log + [d];
  }

  ghost predicate TimersFresh(c: Clockwork) {
    forall id :: id in c.timers ==> id in c.scheduled && id !in DeliveredIn(c.log)
  }

  ghost predicate RestFresh(c: Clockwork) {
    forall p :: p in c.polls ==>
      && (forall id :: id in c.polls[p].rest ==> id in c.scheduled && id !in DeliveredIn(c.log))
      && (c.polls[p].deleted && c.polls[p].rest != [] ==> c.polls[p].rest[0] !in c.timers)
  }

  ghost predicate RestsApart(c: Clockwork) {
    forall p, q, id :: p in c.polls && q in c.polls && p != q && id in c.polls[p].rest ==> id !in c.polls[q].rest
  }

  ghost predicate LogOnce(c: Clockwork) {
    DeliveredIn(c.log) <= c.scheduled && forall i, j :: 0 <= i < j < |c.log| ==> c.log[i].timer != c.log[j].timer
  }

  ghost predicate OnceOK(c: Clockwork) {
    PollsOK(c) && TimersFresh(c) && RestFresh(c) && RestsApart(c) && LogOnce(c)
  }

  lemma DeliveryKeepsOnce(c: Clockwork, p: nat)
    requires OnceOK(c) && p in c.polls && c.polls[p].rest != [] && c.polls[p].deleted
    ensures OnceOK(Next(c, Delivers(p)))
  {
    StepKeepsPolls(c, Delivers(p));
    var c', rest := Next(c, Delivers(p)), c.polls[p].rest;
    assert rest[0] in rest;
    DeliveredNext(c.log, Delivery(p, rest[0]));
    assert LogOnce(c') by {
      forall i | 0 <= i < |c.log| ensures c.log[i].timer != rest[0] {
        assert c.log[i] in c.log;
        assert c.log[i].timer in DeliveredIn(c.log);
      }
    }
    assert RestsApart(c');
    assert RestFresh(c') by {
      forall id | id in rest[1..] ensures id in rest && id != rest[0] {}
    }
  }

  lemma StartKeepsOnce(c: Clockwork, p: nat, now: int, due: seq<Id>)
    requires OnceOK(c) && Orderly(c, Starts(p, now, due)) && p !in c.polls && IsDue(c.timers, now, due)
    ensures OnceOK(Next(c, Starts(p, now, due)))
  {
    StepKeepsPolls(c, Starts(p, now, due));
    forall id | id in due ensures id in c.timers {
      assert id in Elements(due);
    }
  }

  lemma RestKeepsOnce(c: Clockwork, step: Step)
    requires OnceOK(c) && Orderly(c, step) && (step.Schedule? || step.Cancel? || step.Deletes? || step.Fails?)
    ensures OnceOK(Next(c, step))
  {
    StepKeepsPolls(c, step);
    if step.Schedule? {
      forall p | p in c.polls && c.polls[p].rest != [] ensures c.polls[p].rest[0] in c.scheduled {
        assert c.polls[p].rest[0] in c.polls[p].rest;
      }
    }
  }

  lemma StepKeepsOnce(c: Clockwork, step: Step)
    requires OnceOK(c) && Orderly(c, step)
    ensures OnceOK(Next(c, step))
  {
    match step
    case Starts(p, now, due) => if p !in c.polls && IsDue(c.timers, now, due) { StartKeepsOnce(c, p, now, due); }
    case Delivers(p) => if p in c.polls && c.polls[p].rest != [] && c.polls[p].deleted { DeliveryKeepsOnce(c, p); }
    case _ => RestKeepsOnce(c, step);
  }

  lemma {:induction false} OnceAlongRuns(steps: seq<Step>, k: nat)
    requires k <= |steps| && ScheduledOnce(steps) && PollsApart(steps)
    ensures OnceOK(Run(QUIET, steps[..k]))
  {
    if k > 0 {
      OnceAlongRuns(steps, k - 1);
      assert StartsApartAt(steps, k - 1) && ScheduledOnceAt(steps, k - 1);
      RunNext(steps, k - 1);
      StepKeepsOnce(Run(QUIET, steps[..k - 1]), steps[k - 1]);
    }
  }

  ghost predicate NoTimerTwice(log: seq<Delivery>) {
    forall i, j :: 0 <= i < j < |log| ==> log[i].timer != log[j].timer
  }

  /** If no poll starts with what another still lists, a timer is called back for at most once. */
  lemma DeliveredOnce(steps: seq<Step>)
    requires ScheduledOnce(steps) && PollsApart(steps)
    ensures NoTimerTwice(Run(QUIET, steps).log)
  {
    OnceAlongRuns(steps, |steps|);
    assert steps[..|steps|] == steps;
  }

  /** Steps in which the polls under way go on with their lists, or fail, and nothing else happens. */
  predicate GoingOn(tail: seq<Step>) { forall k :: 0 <= k < |tail| ==> tail[k].Deletes? || tail[k].Delivers? || tail[k].Fails? }

  predicate NoFailure(tail: seq<Step>) { forall k :: 0 <= k < |tail| ==> !tail[k].Fails? }

  lemma GoingOnStaysApart(steps: seq<Step>, tail: seq<Step>)
    requires ScheduledOnce(steps) && PollsApart(steps) && GoingOn(tail)
    ensures ScheduledOnce(steps + tail) && PollsApart(steps + tail)
  {
    var all := steps + tail;
    forall k | 0 <= k < |all| ensures ScheduledOnceAt(all, k) && StartsApartAt(all, k) {
      if k < |steps| {
        assert all[..k] == steps[..k] && ScheduledOnceAt(steps, k) && StartsApartAt(steps, k);
      } else {
        assert all[k] == tail[k - |steps|];
      }
    }
  }

  // ─── And otherwise the polls under way can call back twice ─────────────────

  /** The poll has called back for the timer or still will. */
  ghost predicate Covers(c: Clockwork, p: nat, id: Id) {
    p in c.polls && (id in c.polls[p].rest || Delivery(p, id) in c.log)
  }

  lemma StepKeepsCover(c: Clockwork, step: Step, p: nat, id: Id)
    requires Covers(c, p, id) && !step.Fails?
    ensures Covers(Next(c, step), p, id)
  {
    var c' := Next(c, step);
    if step.Delivers? && step.p == p && id in c.polls[p].rest && c.polls[p].deleted {
      var last := Delivery(p, c.polls[p].rest[0]);
      assert last in c'.log;
      assert id == c.polls[p].rest[0] || id in c.polls[p].rest[1..];
    }
  }

  lemma Turn(c: Clockwork, p: nat)
    requires p in c.polls && c.polls[p].rest != []
    ensures var c' := Next(Next(c, Deletes(p)), Delivers(p));
            p in c'.polls && c'.polls[p].rest == c.polls[p].rest[1..]
  {
    assert Next(c, Deletes(p)).polls[p] == Poll(c.polls[p].rest, true);
  }

  lemma TurnFirst(p: nat, rest: seq<Step>)
    requires GoingOn(rest) && NoFailure(rest)
    ensures GoingOn([Deletes(p), Delivers(p)] + rest) && NoFailure([Deletes(p), Delivers(p)] + rest)
  {
  }

  /** A poll can go on until its list is done. */
  lemma {:induction false} Drain(steps: seq<Step>, p: nat) returns (tail: seq<Step>)
    requires p in Run(QUIET, steps).polls
    ensures GoingOn(tail) && NoFailure(tail) && p in Run(QUIET, steps + tail).polls && Run(QUIET, steps + tail).polls[p].rest == []
    decreases |Run(QUIET, steps).polls[p].rest|
  {
    tail := [];
    assert steps + tail == steps;
    if Run(QUIET, steps).polls[p].rest != [] {
      RunSnoc(steps, Deletes(p));
      RunSnoc(steps + [Deletes(p)], Delivers(p));
      Turn(Run(QUIET, steps), p);
      var longer := steps + [Deletes(p)] + [Delivers(p)];
      var rest := Drain(longer, p);
      tail := [Deletes(p), Delivers(p)] + rest;
      TurnFirst(p, rest);
      assert steps + tail == longer + rest;
    }
  }

  /** If two polls cover one timer, they can go on so that both call back for it. */
  lemma CoveredTwice(steps: seq<Step>, p: nat, q: nat, id: Id) returns (tail: seq<Step>)
    requires p != q && Covers(Run(QUIET, steps), p, id) && Covers(Run(QUIET, steps), q, id)
    ensures GoingOn(tail) && !NoTimerTwice(Run(QUIET, steps + tail).log)
  {
    var first := Drain(steps, p);
    CoverGoesOn(steps, first, p, id);
    CoverGoesOn(steps, first, q, id);
    var second := Drain(steps + first, q);
    CoverGoesOn(steps + first, second, p, id);
    CoverGoesOn(steps + first, second, q, id);
    tail := first + second;
    assert steps + tail == steps + first + second;
    DrainedStays(steps + first, second, p);
    var log := Run(QUIET, steps + tail).log;
    assert Delivery(p, id) in log && Delivery(q, id) in log;
    var i :| 0 <= i < |log| && log[i] == Delivery(p, id);
    var j :| 0 <= j < |log| && log[j] == Delivery(q, id);
    assert i < j || j < i;
  }

  lemma {:induction false} CoverGoesOn(steps: seq<Step>, tail: seq<Step>, p: nat, id: Id)
    requires Covers(Run(QUIET, steps), p, id) && NoFailure(tail)
    ensures Covers(Run(QUIET, steps + tail), p, id)
    decreases |tail|
  {
    if tail == [] {
      assert steps + tail == steps;
    } else {
      var init, last := tail[..|tail| - 1], tail[|tail| - 1];
      CoverGoesOn(steps, init, p, id);
      assert steps + tail == steps + init + [last];
      RunSnoc(steps + init, last);
      StepKeepsCover(Run(QUIET, steps + init), last, p, id);
    }
  }

  lemma StaysDone(c: Clockwork, step: Step, p: nat)
    requires p in c.polls && c.polls[p].rest == []
    ensures p in Next(c, step).polls && Next(c, step).polls[p].rest == []
  {
  }

  lemma {:induction false} DrainedStays(steps: seq<Step>, tail: seq<Step>, p: nat)
    requires p in Run(QUIET, steps).polls && Run(QUIET, steps).polls[p].rest == []
    ensures p in Run(QUIET, steps + tail).polls && Run(QUIET, steps + tail).polls[p].rest == []
    decreases |tail|
  {
    if tail == [] {
      assert steps + tail == steps;
    } else {
      DrainedStays(steps, tail[..|tail| - 1], p);
      assert steps + tail == steps + tail[..|tail| - 1] + [tail[|tail| - 1]];
      RunSnoc(steps + tail[..|tail| - 1], tail[|tail| - 1]);
      StaysDone(Run(QUIET, steps + tail[..|tail| - 1]), tail[|tail| - 1], p);
    }
  }

  /** At this moment of the run nothing can go wrong: whatever the polls under way still do, no timer is called back for twice. */
  ghost predicate Secure(steps: seq<Step>, k: nat)
    requires k <= |steps|
  {
    forall tail :: GoingOn(tail) ==> NoTimerTwice(Run(QUIET, steps[..k] + tail).log)
  }

  /** A poll that starts with a timer on its list that another still has on its own leaves that open. */
  lemma SharedIsInsecure(steps: seq<Step>, k: nat)
    requires k < |steps| && !StartsApartAt(steps, k)
    ensures !Secure(steps, k + 1)
  {
    var c, step := Run(QUIET, steps[..k]), steps[k];
    var p, id :| p in c.polls && id in c.polls[p].rest && id in step.due;
    RunNext(steps, k);
    assert Covers(Run(QUIET, steps[..k + 1]), p, id) && Covers(Run(QUIET, steps[..k + 1]), step.p, id);
    var tail := CoveredTwice(steps[..k + 1], p, step.p, id);
  }

  lemma ApartBegins(steps: seq<Step>, k: nat)
    requires k <= |steps| && ScheduledOnce(steps) && PollsApart(steps)
    ensures ScheduledOnce(steps[..k]) && PollsApart(steps[..k])
  {
    forall j | 0 <= j < k ensures ScheduledOnceAt(steps[..k], j) && StartsApartAt(steps[..k], j) {
      assert ScheduledOnceAt(steps, j) && StartsApartAt(steps, j) && steps[..k][..j] == steps[..j];
    }
  }

  /**
   * With each id scheduled once, and polls failing wherever they may: at no moment of the run can a timer come to be
   * called back for twice, if and only if no poll starts with a timer on its list that is still on another's.
   */
  lemma OnceIffPollsApart(steps: seq<Step>)
    requires ScheduledOnce(steps)
    ensures (forall k :: 0 <= k <= |steps| ==> Secure(steps, k)) <==> PollsApart(steps)
  {
    if PollsApart(steps) {
      forall k | 0 <= k <= |steps| ensures Secure(steps, k) {
        ApartBegins(steps, k);
        forall tail | GoingOn(tail) ensures NoTimerTwice(Run(QUIET, steps[..k] + tail).log) {
          GoingOnStaysApart(steps[..k], tail);
          DeliveredOnce(steps[..k] + tail);
        }
      }
    } else {
      var k :| 0 <= k < |steps| && !StartsApartAt(steps, k);
      SharedIsInsecure(steps, k);
    }
  }

  // ─── The object ────────────────────────────────────────────────────────────

  /** The scheduler over its table of timers; `calls` lists the timers it has called back for. */
  class PostgresScheduler {
    var timers: map<Id, int>
    ghost var calls: seq<Id>

    constructor ()
      ensures timers == map[] && calls == []
    {
      timers, calls := map[], [];
    }

    method Schedule(id: Id, at: int)
      modifies this`timers
      ensures timers == old(timers)[id := at]
    {
      timers := timers[id := at];
    }

    method Cancel(id: Id)
      modifies this`timers
      ensures timers == old(timers) - {id}
    {
      timers := timers - {id};
    }

    /**
     * One poll, undisturbed: each due timer's row is deleted before it is called back for, up to the first callback
     * that throws. What it has not reached then is still there for the next poll.
     */
    method Poll(now: int, throws: set<Id>) returns (due: seq<Id>, reached: nat)
      modifies this
      ensures Distinct(due) && forall id :: id in due <==> id in old(timers) && old(timers)[id] <= now
      ensures reached <= |due| && (forall i :: 0 <= i < reached - 1 ==> due[i] !in throws)
      ensures reached < |due| ==> reached > 0 && due[reached - 1] in throws
      ensures calls == old(calls) + due[..reached] && timers == old(timers) - Elements(due[..reached])
    {
      due := Enumerate(DueAt(timers, now));
      assert forall id :: id in due <==> id in Elements(due);
      reached := 0;
      while reached < |due|
        invariant reached <= |due| && forall i :: 0 <= i < reached ==> due[i] !in throws
        invariant calls == old(calls) + due[..reached] && timers == old(timers) - Elements(due[..reached])
      {
        var timer := due[reached];
        assert due[..reached + 1] == due[..reached] + [timer];
        assert Elements(due[..reached + 1]) == Elements(due[..reached]) + {timer};
        timers, calls, reached := timers - {timer}, calls + [timer], reached + 1;
        if timer in throws { break; }
      }
    }
  }
}
