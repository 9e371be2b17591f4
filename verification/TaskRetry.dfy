/** The retry protocol of one task worker: duplicate events, backoff timers and handlers that take their time (worker/TaskWorker.ts). */
module TaskRetry {
  import opened Prelude

  type Token = string

  /** One attempt at one token's task: what the worker's `tokenId:attempt` keys stand for. */
  datatype Attempt = Attempt(token: Token, number: nat)

  /** What a running attempt waits for: its state to load, its handler, or its outcome to be persisted. */
  datatype Stage = Loading | Handling | Ending

  /**
   * `attempts` and `keys` are the worker's own fields; `runs` and `timers` are what it left with the event
   * loop. `called` lists the handler calls made, and `ended` the tokens whose outcome is final.
   */
  datatype Worker = Worker(
    maxAttempts: int,
    attempts: map<Token, nat>,
    keys: set<Attempt>,
    runs: map<Attempt, Stage>,
    timers: multiset<Attempt>,
    called: seq<Attempt>,
    ended: set<Token>
  )

  function Idle(maxAttempts: int): Worker { Worker(maxAttempts, map[], {}, map[], multiset{}, [], {}) }

  datatype Step =
    | Started(token: Token)
    | Loaded(run: Attempt, waiting: bool, handler: bool)
    | Returned(run: Attempt, retry: bool)
    | Persisted(run: Attempt, threw: bool)
    | TimerFired(run: Attempt)

  function Begin(w: Worker, a: Attempt): Worker {
    w.(keys := w.keys + {a}, runs := w.runs[a := Loading])
  }

  function End(w: Worker, a: Attempt): Worker {
    w.(runs := w.runs[a := Ending], ended := w.ended + {a.token})
  }

  /** One uninterrupted piece of the worker's code; a piece nobody waits for changes nothing. */
  function Next(w: Worker, step: Step): Worker {
    match step
    case Started(token) =>
      var a := Attempt(token, if token in w.attempts then w.attempts[token] else 1);
      if a in w.keys then w else Begin(w, a).(attempts := w.attempts[token := a.number])
    case Loaded(a, waiting, handler) =>
      if a !in w.runs || w.runs[a] != Loading then w
      else if !waiting then w.(runs := w.runs - {a})
      else if !handler then End(w, a)
      else w.(runs := w.runs[a := Handling], called := w.called + [a])
    case Returned(a, retry) =>
      if a !in w.runs || w.runs[a] != Handling then w
      else if !retry || a.number + 1 > w.maxAttempts then End(w, a)
      else
        w.(attempts := w.attempts[a.token := a.number + 1], runs := w.runs - {a},
           timers := w.timers + multiset{Attempt(a.token, a.number + 1)})
    case Persisted(a, threw) =>
      if a !in w.runs || w.runs[a] != Ending then w
      else w.(runs := w.runs - {a}, attempts := if threw then w.attempts else w.attempts - {a.token})
    case TimerFired(a) =>
      if a !in w.timers then w
      else
        var w' := w.(timers := w.timers - multiset{a});
        if a in w.keys then w' else Begin(w', a)
  }

  function Run(w: Worker, steps: seq<Step>): Worker {
    if steps == [] then w else Next(Run(w, steps[..|steps| - 1]), steps[|steps| - 1])
  }

  function Limit(maxAttempts: int): nat { if maxAttempts > 1 then maxAttempts else 1 }

  // ─── The invariant ─────────────────────────────────────────────────────────

  /** `top` is the latest attempt started of each token: its keys are all the numbers up to that. */
  ghost predicate KeysOK(w: Worker, top: map<Token, nat>) {
    && (forall t :: t in top ==> 1 <= top[t] <= Limit(w.maxAttempts))
    && (forall a :: a in w.keys <==> a.token in top && 1 <= a.number <= top[a.token])
  }

  /** A running attempt is the token's latest, so it is the only one. */
  ghost predicate RunsOK(w: Worker, top: map<Token, nat>) {
    forall a :: a in w.runs ==>
      && a.token in top && top[a.token] == a.number
      && a.token in w.attempts && w.attempts[a.token] == a.number
      && (w.runs[a] == Ending <==> a.token in w.ended)
      && (w.runs[a] == Loading ==> a !in w.called)
  }

  /** The number on record is the latest attempt, or the next one while a retry is due; it goes with the outcome. */
  ghost predicate AttemptsOK(w: Worker, top: map<Token, nat>) {
    && (forall t :: t in w.attempts ==>
          t in top && (w.attempts[t] == top[t] || (w.attempts[t] == top[t] + 1 <= w.maxAttempts && t !in w.ended)))
    && (forall t :: t in top && t !in w.attempts ==> t in w.ended)
    && (forall t :: t in w.ended ==> t in top)
  }

  ghost predicate TimersOK(w: Worker, top: map<Token, nat>) {
    forall a :: a in w.timers ==>
      && a.token in top && a.number >= 1
      && (a.number <= top[a.token] || (a.number == top[a.token] + 1 && a.token in w.attempts && w.attempts[a.token] == a.number))
  }

  ghost predicate CallsOK(w: Worker, top: map<Token, nat>) {
    && (forall i :: 0 <= i < |w.called| ==> w.called[i].token in top && 1 <= w.called[i].number <= top[w.called[i].token])
    && (forall i, j :: 0 <= i < j < |w.called| && w.called[i].token == w.called[j].token ==> w.called[i].number < w.called[j].number)
  }

  ghost predicate Sound(w: Worker, top: map<Token, nat>) {
    KeysOK(w, top) && RunsOK(w, top) && AttemptsOK(w, top) && TimersOK(w, top) && CallsOK(w, top)
  }

  ghost function TopAfter(w: Worker, top: map<Token, nat>, step: Step): map<Token, nat> {
    match step
    case Started(t) =>
      var n := if t in w.attempts then w.attempts[t] else 1;
      if Attempt(t, n) in w.keys then top else top[t := n]
    case TimerFired(a) => if a in w.timers && a !in w.keys then top[a.token := a.number] else top
    case _ => top
  }

  ghost predicate Startable(w: Worker, top: map<Token, nat>, a: Attempt) {
    && a !in w.keys && a.token !in w.ended && a !in w.called
    && (a.token in top ==> a.number == top[a.token] + 1 <= w.maxAttempts)
    && (a.token !in top ==> a.number == 1)
    && (a.token in w.attempts ==> w.attempts[a.token] == a.number)
    && (forall b :: b in w.runs ==> b.token != a.token)
  }

  lemma NextIsStartable(w: Worker, top: map<Token, nat>, a: Attempt)
    requires Sound(w, top) && a !in w.keys
    requires if a.token in w.attempts then w.attempts[a.token] == a.number else a.number == 1
    ensures Startable(w, top, a)
  {
  }

  function BeginNext(w: Worker, a: Attempt): Worker { Begin(w, a).(attempts := w.attempts[a.token := a.number]) }

  lemma BeginKeepsKeys(w: Worker, top: map<Token, nat>, a: Attempt)
    requires KeysOK(w, top) && Startable(w, top, a)
    ensures KeysOK(BeginNext(w, a), top[a.token := a.number])
  {
  }

  lemma BeginKeepsRuns(w: Worker, top: map<Token, nat>, a: Attempt)
    requires RunsOK(w, top) && AttemptsOK(w, top) && Startable(w, top, a)
    ensures RunsOK(BeginNext(w, a), top[a.token := a.number]) && AttemptsOK(BeginNext(w, a), top[a.token := a.number])
  {
  }

  lemma BeginKeepsCalls(w: Worker, top: map<Token, nat>, a: Attempt)
    requires TimersOK(w, top) && CallsOK(w, top) && Startable(w, top, a)
    ensures TimersOK(BeginNext(w, a), top[a.token := a.number]) && CallsOK(BeginNext(w, a), top[a.token := a.number])
  {
  }

  /** Starting the next attempt of a token. */
  lemma BeginKeepsSound(w: Worker, top: map<Token, nat>, a: Attempt)
    requires Sound(w, top) && a !in w.keys
    requires if a.token in w.attempts then w.attempts[a.token] == a.number else a.number == 1
    ensures Sound(BeginNext(w, a), top[a.token := a.number])
  {
    NextIsStartable(w, top, a);
    BeginKeepsKeys(w, top, a);
    BeginKeepsRuns(w, top, a);
    BeginKeepsCalls(w, top, a);
  }

  lemma CallKeepsSound(w: Worker, top: map<Token, nat>, a: Attempt)
    requires Sound(w, top) && a in w.runs && w.runs[a] == Loading
    ensures Sound(w.(runs := w.runs[a := Handling], called := w.called + [a]), top)
  {
    forall i | 0 <= i < |w.called| && w.called[i].token == a.token ensures w.called[i].number < a.number {
      assert w.called[i] in w.called;
    }
  }

  lemma RetryKeepsSound(w: Worker, top: map<Token, nat>, a: Attempt)
    requires Sound(w, top) && a in w.runs && w.runs[a] == Handling && a.number + 1 <= w.maxAttempts
    ensures Sound(Next(w, Returned(a, true)), top)
  {
  }

  lemma FewerTimers(w: Worker, top: map<Token, nat>, a: Attempt)
    requires Sound(w, top)
    ensures Sound(w.(timers := w.timers - multiset{a}), top)
  {
  }

  lemma TimerKeepsSound(w: Worker, top: map<Token, nat>, a: Attempt)
    requires Sound(w, top) && a in w.timers
    ensures Sound(Next(w, TimerFired(a)), TopAfter(w, top, TimerFired(a)))
  {
    var w1 := w.(timers := w.timers - multiset{a});
    FewerTimers(w, top, a);
    if a !in w.keys {
      BeginKeepsSound(w1, top, a);
      assert w.attempts[a.token := a.number] == w.attempts;
    }
  }

  lemma EndKeepsSound(w: Worker, top: map<Token, nat>, a: Attempt)
    requires Sound(w, top) && a in w.runs && w.runs[a] != Ending
    ensures Sound(End(w, a), top)
  {
  }

  lemma PersistKeepsSound(w: Worker, top: map<Token, nat>, a: Attempt, threw: bool)
    requires Sound(w, top)
    ensures Sound(Next(w, Persisted(a, threw)), top)
  {
  }

  lemma LoadKeepsSound(w: Worker, top: map<Token, nat>, a: Attempt, waiting: bool, handler: bool)
    requires Sound(w, top)
    ensures Sound(Next(w, Loaded(a, waiting, handler)), top)
  {
    if a in w.runs && w.runs[a] == Loading && waiting {
      if handler { CallKeepsSound(w, top, a); } else { EndKeepsSound(w, top, a); }
    }
  }

  lemma StartKeepsSound(w: Worker, top: map<Token, nat>, t: Token)
    requires Sound(w, top)
    ensures Sound(Next(w, Started(t)), TopAfter(w, top, Started(t)))
  {
    var a := Attempt(t, if t in w.attempts then w.attempts[t] else 1);
    if a !in w.keys { BeginKeepsSound(w, top, a); }
  }

  lemma ReturnKeepsSound(w: Worker, top: map<Token, nat>, a: Attempt, retry: bool)
    requires Sound(w, top)
    ensures Sound(Next(w, Returned(a, retry)), top)
  {
    if a in w.runs && w.runs[a] == Handling {
      if retry && a.number + 1 <= w.maxAttempts { RetryKeepsSound(w, top, a); } else { EndKeepsSound(w, top, a); }
    }
  }

  lemma LimitStays(w: Worker, step: Step)
    ensures Next(w, step).maxAttempts == w.maxAttempts
  {
  }

  lemma StepKeepsSound(w: Worker, top: map<Token, nat>, step: Step)
    requires Sound(w, top)
    ensures Sound(Next(w, step), TopAfter(w, top, step)) && Next(w, step).maxAttempts == w.maxAttempts
  {
    LimitStays(w, step);
    match step
    case Started(t) => StartKeepsSound(w, top, t);
    case Loaded(a, waiting, handler) => LoadKeepsSound(w, top, a, waiting, handler);
    case Returned(a, retry) => ReturnKeepsSound(w, top, a, retry);
    case Persisted(a, threw) => PersistKeepsSound(w, top, a, threw);
    case TimerFired(a) => if a in w.timers { TimerKeepsSound(w, top, a); }
  }

  ghost predicate Reached(w: Worker, maxAttempts: int) { w.maxAttempts == maxAttempts && exists top :: Sound(w, top) }

  lemma StepReaches(w: Worker, maxAttempts: int, step: Step)
    requires Reached(w, maxAttempts)
    ensures Reached(Next(w, step), maxAttempts)
  {
    var top :| Sound(w, top);
    StepKeepsSound(w, top, step);
  }

  lemma {:induction false} RunReaches(maxAttempts: int, steps: seq<Step>)
    ensures Reached(Run(Idle(maxAttempts), steps), maxAttempts)
  {
    if steps == [] {
      assert Sound(Idle(maxAttempts), map[]);
    } else {
      RunReaches(maxAttempts, steps[..|steps| - 1]);
      StepReaches(Run(Idle(maxAttempts), steps[..|steps| - 1]), maxAttempts, steps[|steps| - 1]);
    }
  }

  /**
   * However duplicate events, timers and slow handlers interleave: a token's handler is called at most once per
   * attempt number, with numbers that only go up, from 1 to `maxAttempts` (1 if that is less).
   */
  lemma HandlerCallsCountUp(maxAttempts: int, steps: seq<Step>, i: nat, j: nat)
    ensures var called := Run(Idle(maxAttempts), steps).called;
            && (i < |called| ==> 1 <= called[i].number <= Limit(maxAttempts))
            && (i < j < |called| && called[i].token == called[j].token ==> called[i].number < called[j].number)
  {
    RunReaches(maxAttempts, steps);
    var top :| Sound(Run(Idle(maxAttempts), steps), top);
  }

  // ─── After a final outcome ─────────────────────────────────────────────────

  lemma EndedStaysQuiet(w: Worker, top: map<Token, nat>, step: Step, t: Token)
    requires Sound(w, top) && t in w.ended
    ensures var w' := Next(w, step);
            && t in w'.ended
            && (w'.called == w.called || (|w'.called| == |w.called| + 1 && w'.called[..|w.called|] == w.called && w'.called[|w.called|].token != t))
  {
  }

  function Calls(called: seq<Attempt>, t: Token): seq<nat> {
    if called == [] then []
    else
      var init, last := called[..|called| - 1], called[|called| - 1];
      Calls(init, t) + if last.token == t then [last.number] else []
  }

  lemma QuietStep(w: Worker, maxAttempts: int, step: Step, t: Token)
    requires Reached(w, maxAttempts) && t in w.ended
    ensures t in Next(w, step).ended && Calls(Next(w, step).called, t) == Calls(w.called, t)
  {
    var top :| Sound(w, top);
    EndedStaysQuiet(w, top, step, t);
  }

  lemma RunNext(w: Worker, steps: seq<Step>, k: nat)
    requires k < |steps|
    ensures Run(w, steps[..k + 1]) == Next(Run(w, steps[..k]), steps[k])
  {
    assert steps[..k + 1][..k] == steps[..k];
  }

  /** Once a token's outcome is final its handler is never called again. */
  lemma {:induction false} EndedForGood(maxAttempts: int, steps: seq<Step>, k: nat, m: nat, t: Token)
    requires k <= m <= |steps| && t in Run(Idle(maxAttempts), steps[..k]).ended
    ensures t in Run(Idle(maxAttempts), steps[..m]).ended
    ensures Calls(Run(Idle(maxAttempts), steps[..m]).called, t) == Calls(Run(Idle(maxAttempts), steps[..k]).called, t)
    decreases m
  {
    if k < m {
      EndedForGood(maxAttempts, steps, k, m - 1, t);
      RunNext(Idle(maxAttempts), steps, m - 1);
      RunReaches(maxAttempts, steps[..m - 1]);
      QuietStep(Run(Idle(maxAttempts), steps[..m - 1]), maxAttempts, steps[m - 1], t);
    }
  }

  // ─── What an attempt owes its start to ─────────────────────────────────────

  /** The attempt before it has been made, and its handler asked for one more. */
  predicate AskedFor(w: Worker, steps: seq<Step>, a: Attempt)
    requires a.number > 1
  {
    Attempt(a.token, a.number - 1) in w.called && Returned(Attempt(a.token, a.number - 1), true) in steps
  }

  predicate Known(w: Worker, a: Attempt) {
    a in w.keys || a in w.timers || a in w.runs || a in w.called || (a.token in w.attempts && w.attempts[a.token] == a.number)
  }

  ghost predicate EarnedAt(w: Worker, steps: seq<Step>, a: Attempt) {
    && (a in w.runs && w.runs[a] == Handling ==> a in w.called)
    && (Known(w, a) && a.number > 1 ==> AskedFor(w, steps, a))
  }

  /** The two ways a new attempt comes up. */
  lemma NewlyKnown(w: Worker, step: Step, a: Attempt)
    requires Known(Next(w, step), a) && !Known(w, a)
    ensures step == Started(a.token) || (step.Returned? && step.retry && step.run in w.runs && w.runs[step.run] == Handling)
    ensures step == Started(a.token) ==> a.number == 1
    ensures step.Returned? ==> a == Attempt(step.run.token, step.run.number + 1)
  {
  }

  lemma CallsStay(w: Worker, step: Step, a: Attempt)
    ensures a in w.called ==> a in Next(w, step).called
    ensures a in Next(w, step).runs && Next(w, step).runs[a] == Handling ==>
              (a in w.runs && w.runs[a] == Handling) || a in Next(w, step).called
  {
  }

  lemma StepEarned(w: Worker, steps: seq<Step>, step: Step, a: Attempt)
    requires EarnedAt(w, steps, a) && (step.Returned? ==> EarnedAt(w, steps, step.run))
    ensures EarnedAt(Next(w, step), steps + [step], a)
  {
    CallsStay(w, step, a);
    if Known(Next(w, step), a) && a.number > 1 {
      if Known(w, a) {
        CallsStay(w, step, Attempt(a.token, a.number - 1));
      } else {
        NewlyKnown(w, step, a);
        CallsStay(w, step, step.run);
      }
    }
  }

  lemma {:induction false} RunEarned(maxAttempts: int, steps: seq<Step>, a: Attempt)
    ensures EarnedAt(Run(Idle(maxAttempts), steps), steps, a)
  {
    if steps != [] {
      var init, last := steps[..|steps| - 1], steps[|steps| - 1];
      RunEarned(maxAttempts, init, a);
      if last.Returned? { RunEarned(maxAttempts, init, last.run); }
      StepEarned(Run(Idle(maxAttempts), init), init, last, a);
      assert steps == init + [last];
    }
  }

  /** In every run a handler is called again only if the attempt before it was made and asked for one more. */
  lemma CalledAgainOnlyIfAsked(maxAttempts: int, steps: seq<Step>, t: Token, n: nat)
    requires 1 <= n && Attempt(t, n + 1) in Run(Idle(maxAttempts), steps).called
    ensures Attempt(t, n) in Run(Idle(maxAttempts), steps).called && Returned(Attempt(t, n), true) in steps
  {
    RunEarned(maxAttempts, steps, Attempt(t, n + 1));
  }

  /** A handler that is done, or asks beyond the limit, ends its token: no timer is set, and the outcome is to be persisted. */
  lemma OutcomeIsFinal(w: Worker, a: Attempt, retry: bool)
    requires a in w.runs && w.runs[a] == Handling
    ensures var w' := Next(w, Returned(a, retry));
            if retry && a.number < w.maxAttempts
            then w'.timers == w.timers + multiset{Attempt(a.token, a.number + 1)} && w'.ended == w.ended && a !in w'.runs
            else w'.timers == w.timers && w'.attempts == w.attempts && w'.ended == w.ended + {a.token} && w'.runs == w.runs[a := Ending]
  {
  }

  predicate FinalOutcome(maxAttempts: int, step: Step, t: Token) {
    || (step.Returned? && step.run.token == t && !(step.retry && step.run.number < maxAttempts))
    || (step.Loaded? && step.run.token == t && step.waiting && !step.handler)
  }

  lemma StepEnds(w: Worker, step: Step, t: Token)
    requires t in Next(w, step).ended && t !in w.ended
    ensures FinalOutcome(w.maxAttempts, step, t)
  {
  }

  /** A token is given up or done only by a handler's outcome that is final, or for want of a handler. */
  lemma {:induction false} EndedOnlyByOutcome(maxAttempts: int, steps: seq<Step>, t: Token)
    requires t in Run(Idle(maxAttempts), steps).ended
    ensures exists k :: 0 <= k < |steps| && FinalOutcome(maxAttempts, steps[k], t)
  {
    var init := steps[..|steps| - 1];
    RunReaches(maxAttempts, init);
    if t in Run(Idle(maxAttempts), init).ended {
      EndedOnlyByOutcome(maxAttempts, init, t);
      var k :| 0 <= k < |init| && FinalOutcome(maxAttempts, init[k], t);
      assert steps[k] == init[k];
    } else {
      StepEnds(Run(Idle(maxAttempts), init), steps[|steps| - 1], t);
    }
  }

  ghost predicate AnnouncedAt(w: Worker, steps: seq<Step>, a: Attempt) { Known(w, a) ==> Started(a.token) in steps }

  ghost predicate FirstMade(w: Worker, steps: seq<Step>, t: Token) { Started(t) in steps ==> Attempt(t, 1) in w.keys }

  lemma StepAnnounced(w: Worker, steps: seq<Step>, step: Step, a: Attempt)
    requires AnnouncedAt(w, steps, a) && (step.Returned? ==> AnnouncedAt(w, steps, step.run))
    ensures AnnouncedAt(Next(w, step), steps + [step], a)
  {
    if Known(Next(w, step), a) && !Known(w, a) { NewlyKnown(w, step, a); }
  }

  lemma SoundMakesFirst(w: Worker, top: map<Token, nat>, step: Step, t: Token)
    requires Sound(w, top) && (Attempt(t, 1) in w.keys || step == Started(t))
    ensures Attempt(t, 1) in Next(w, step).keys
  {
  }

  lemma StepMakesFirst(maxAttempts: int, steps: seq<Step>, step: Step, t: Token)
    requires FirstMade(Run(Idle(maxAttempts), steps), steps, t)
    ensures FirstMade(Next(Run(Idle(maxAttempts), steps), step), steps + [step], t)
  {
    var w := Run(Idle(maxAttempts), steps);
    RunReaches(maxAttempts, steps);
    var top :| Sound(w, top);
    if Started(t) in steps || step == Started(t) { SoundMakesFirst(w, top, step, t); }
  }

  lemma {:induction false} RunAnnounced(maxAttempts: int, steps: seq<Step>, a: Attempt)
    ensures AnnouncedAt(Run(Idle(maxAttempts), steps), steps, a)
  {
    if steps != [] {
      var init, last := steps[..|steps| - 1], steps[|steps| - 1];
      RunAnnounced(maxAttempts, init, a);
      if last.Returned? { RunAnnounced(maxAttempts, init, last.run); }
      StepAnnounced(Run(Idle(maxAttempts), init), init, last, a);
      assert steps == init + [last];
    }
  }

  lemma {:induction false} RunMakesFirst(maxAttempts: int, steps: seq<Step>, t: Token)
    ensures FirstMade(Run(Idle(maxAttempts), steps), steps, t)
  {
    if steps != [] {
      var init, last := steps[..|steps| - 1], steps[|steps| - 1];
      RunMakesFirst(maxAttempts, init, t);
      StepMakesFirst(maxAttempts, init, last, t);
      assert steps == init + [last];
    }
  }

  /** The first attempt at a token starts exactly when an event for it arrives. */
  lemma FirstAttemptStarts(maxAttempts: int, steps: seq<Step>, t: Token)
    ensures Attempt(t, 1) in Run(Idle(maxAttempts), steps).keys <==> Started(t) in steps
  {
    RunAnnounced(maxAttempts, steps, Attempt(t, 1));
    RunMakesFirst(maxAttempts, steps, t);
  }

  // ─── Backoff ───────────────────────────────────────────────────────────────

  /** A retry that has been scheduled and has not started: its timer is set, and its number is the one on record. */
  predicate Due(w: Worker, a: Attempt) {
    a !in w.keys && a in w.timers && a.token in w.attempts && w.attempts[a.token] == a.number
  }

  /** A handler that asks for a retry within the limit makes the next attempt due. */
  lemma RetryIsDue(w: Worker, top: map<Token, nat>, a: Attempt)
    requires Sound(w, top) && a in w.runs && w.runs[a] == Handling && a.number + 1 <= w.maxAttempts
    ensures Due(Next(w, Returned(a, true)), Attempt(a.token, a.number + 1))
  {
  }

  /** What starts an attempt that is due. */
  predicate Wakes(step: Step, a: Attempt) { step == Started(a.token) || step == TimerFired(a) }

  lemma NoRunWhileDue(w: Worker, top: map<Token, nat>, a: Attempt)
    requires Sound(w, top) && Due(w, a)
    ensures forall b :: b in w.runs ==> b.token != a.token
  {
  }

  lemma StepWhileDue(w: Worker, step: Step, a: Attempt)
    requires Due(w, a) && forall b :: b in w.runs ==> b.token != a.token
    ensures if Wakes(step, a) then a in Next(w, step).keys else Due(Next(w, step), a)
  {
  }

  /** Started, if something has woken it, and otherwise still due. */
  predicate Standing(w: Worker, a: Attempt, woken: bool) { if woken then a in w.keys else Due(w, a) }

  lemma StandingNext(w: Worker, maxAttempts: int, step: Step, a: Attempt, woken: bool)
    requires Reached(w, maxAttempts) && Standing(w, a, woken)
    ensures Standing(Next(w, step), a, woken || Wakes(step, a))
  {
    if !woken {
      var top :| Sound(w, top);
      NoRunWhileDue(w, top, a);
      StepWhileDue(w, step, a);
    }
  }

  predicate Woken(steps: seq<Step>, a: Attempt) { Started(a.token) in steps || TimerFired(a) in steps }

  lemma WokenNext(steps: seq<Step>, step: Step, a: Attempt)
    ensures Woken(steps + [step], a) <==> Woken(steps, a) || Wakes(step, a)
  {
  }

  lemma RunMore(w: Worker, before: seq<Step>, init: seq<Step>, last: Step)
    ensures Run(w, before + (init + [last])) == Next(Run(w, before + init), last)
  {
    assert before + (init + [last]) == before + init + [last];
    assert (before + init + [last])[..|before + init|] == before + init;
  }

  lemma {:induction false} StandingAlong(maxAttempts: int, before: seq<Step>, after: seq<Step>, a: Attempt)
    requires Due(Run(Idle(maxAttempts), before), a)
    ensures Standing(Run(Idle(maxAttempts), before + after), a, Woken(after, a))
    decreases |after|
  {
    if after == [] {
      assert before + after == before;
    } else {
      var init, last := after[..|after| - 1], after[|after| - 1];
      assert after == init + [last];
      WokenNext(init, last, a);
      RunMore(Idle(maxAttempts), before, init, last);
      StandingAlong(maxAttempts, before, init, a);
      RunReaches(maxAttempts, before + init);
      StandingNext(Run(Idle(maxAttempts), before + init), maxAttempts, last, a, Woken(init, a));
    }
  }

  /**
   * Exactly: after a retry has become due, and whatever else comes, its attempt starts if and only if its timer fires
   * or an event for the token arrives. So the backoff is waited for just when no such event comes first.
   */
  lemma DueAttemptStarts(maxAttempts: int, before: seq<Step>, after: seq<Step>, a: Attempt)
    requires Due(Run(Idle(maxAttempts), before), a)
    ensures a in Run(Idle(maxAttempts), before + after).keys <==> Started(a.token) in after || TimerFired(a) in after
  {
    StandingAlong(maxAttempts, before, after, a);
  }

  /** A duplicate event need not wait: during a backoff it starts the next attempt, and the timer then finds it started. */
  lemma BackoffCanBeSkipped(w: Worker, top: map<Token, nat>, a: Attempt)
    requires Sound(w, top) && a in w.runs && w.runs[a] == Handling && a.number + 1 <= w.maxAttempts
    ensures var next := Attempt(a.token, a.number + 1);
            var early := Next(Next(w, Returned(a, true)), Started(a.token));
            && next in early.runs && early.runs[next] == Loading
            && Next(early, TimerFired(next)).runs == early.runs
  {
    RetryKeepsSound(w, top, a);
  }

  function FirstTry(t: Token): seq<Step> { [Started(t)] + [Loaded(Attempt(t, 1), true, true)] }

  lemma FirstTryLeaves(maxAttempts: int, t: Token)
    ensures Run(Idle(maxAttempts), FirstTry(t)) ==
              Worker(maxAttempts, map[t := 1], {Attempt(t, 1)}, map[Attempt(t, 1) := Handling], multiset{}, [Attempt(t, 1)], {})
  {
    var one := Attempt(t, 1);
    assert [] + [Started(t)] == [Started(t)];
    RunTo(Idle(maxAttempts), [], Started(t), Worker(maxAttempts, map[t := 1], {one}, map[one := Loading], multiset{}, [], {}));
    RunTo(Idle(maxAttempts), [Started(t)], Loaded(one, true, true),
          Worker(maxAttempts, map[t := 1], {one}, map[one := Handling], multiset{}, [one], {}));
  }

  /** For instance, from the beginning: the handler asks for a retry, and a second event starts it before its timer. */
  lemma SkippedFromTheStart(maxAttempts: int, t: Token)
    requires 2 <= maxAttempts
    ensures var before := FirstTry(t) + [Returned(Attempt(t, 1), true)];
            && Due(Run(Idle(maxAttempts), before), Attempt(t, 2))
            && Attempt(t, 2) in Run(Idle(maxAttempts), before + [Started(t)]).keys
            && Attempt(t, 2) in Run(Idle(maxAttempts), before + [Started(t)]).timers
  {
    var before := FirstTry(t) + [Returned(Attempt(t, 1), true)];
    FirstTryLeaves(maxAttempts, t);
    var w := Run(Idle(maxAttempts), FirstTry(t));
    RunTo(Idle(maxAttempts), FirstTry(t), Returned(Attempt(t, 1), true), Next(w, Returned(Attempt(t, 1), true)));
    DueAttemptStarts(maxAttempts, before, [Started(t)], Attempt(t, 2));
    RunTo(Idle(maxAttempts), before, Started(t), Next(Run(Idle(maxAttempts), before), Started(t)));
  }

  lemma RunTo(w: Worker, steps: seq<Step>, step: Step, to: Worker)
    requires Next(Run(w, steps), step) == to
    ensures Run(w, steps + [step]) == to
  {
    assert (steps + [step])[..|steps|] == steps;
  }

  // ─── The object ────────────────────────────────────────────────────────────

  /** The worker, with what it leaves behind kept as ghost state so that its steps can be compared with `Next`. */
  class TaskWorker {
    const maxAttempts: int
    var attemptByToken: map<Token, nat>
    var inflightKeys: set<Attempt>
    ghost var runs: map<Attempt, Stage>
    ghost var timers: multiset<Attempt>
    ghost var called: seq<Attempt>
    ghost var ended: set<Token>

    ghost function State(): Worker
      reads this
    {
      Worker(maxAttempts, attemptByToken, inflightKeys, runs, timers, called, ended)
    }

    constructor (maxAttempts: int)
      ensures State() == Idle(maxAttempts)
    {
      this.maxAttempts := maxAttempts;
      attemptByToken, inflightKeys := map[], {};
      runs, timers, called, ended := map[], multiset{}, [], {};
    }

    /** An event arrives: the attempt to run, if this is not a duplicate. */
    method Dispatch(token: Token) returns (run: Option<Attempt>)
      modifies this
      ensures State() == Next(old(State()), Started(token))
      ensures run.Some? <==> State() != old(State())
      ensures run.Some? ==> run.value.number == if token in old(attemptByToken) then old(attemptByToken)[token] else 1
      ensures run.Some? ==> run.value.token == token && run.value !in old(inflightKeys) && runs == old(runs)[run.value := Loading]
    {
      var attempt := if token in attemptByToken then attemptByToken[token] else 1;
      var key := Attempt(token, attempt);
      if key in inflightKeys { return None; }
      inflightKeys := inflightKeys + {key};
      attemptByToken := attemptByToken[token := attempt];
      runs := runs[key := Loading];
      run := Some(key);
    }

    /** The state is there: whether to call the handler, or to fail for want of one. */
    method AfterLoad(a: Attempt, waiting: bool, handler: bool) returns (call: bool, fail: bool)
      requires a in runs && runs[a] == Loading
      modifies this`runs, this`called, this`ended
      ensures State() == Next(old(State()), Loaded(a, waiting, handler))
      ensures (call <==> waiting && handler) && (fail <==> waiting && !handler)
      ensures called == if call then old(called) + [a] else old(called)
      ensures fail <==> a in runs && runs[a] == Ending
      ensures !call && !fail <==> a !in runs
    {
      call, fail := waiting && handler, waiting && !handler;
      if !waiting { runs := runs - {a}; return; }
      if !handler { runs, ended := runs[a := Ending], ended + {a.token}; return; }
      runs, called := runs[a := Handling], called + [a];
    }

    /** The handler is done: the timer to set, or None when the outcome is final and has to be persisted. */
    method AfterHandler(a: Attempt, retry: bool) returns (timer: Option<Attempt>)
      requires a in runs && runs[a] == Handling
      modifies this`attemptByToken, this`runs, this`timers, this`ended
      ensures State() == Next(old(State()), Returned(a, retry))
      ensures timer == if retry && a.number < maxAttempts then Some(Attempt(a.token, a.number + 1)) else None
      ensures timer.Some? ==> timers == old(timers) + multiset{timer.value} && ended == old(ended)
      ensures timer.Some? ==> a.token in attemptByToken && attemptByToken[a.token] == timer.value.number
      ensures timer.None? ==> timers == old(timers) && a.token in ended && a in runs && runs[a] == Ending
    {
      if retry {
        var nextAttempt := a.number + 1;
        if nextAttempt <= maxAttempts {
          attemptByToken := attemptByToken[a.token := nextAttempt];
          runs := runs - {a};
          timers := timers + multiset{Attempt(a.token, nextAttempt)};
          return Some(Attempt(a.token, nextAttempt));
        }
      }
      runs, ended := runs[a := Ending], ended + {a.token};
      timer := None;
    }

    /** The outcome is persisted; if that threw, the number on record stays. */
    method AfterPersist(a: Attempt, threw: bool)
      requires a in runs && runs[a] == Ending
      modifies this`attemptByToken, this`runs
      ensures State() == Next(old(State()), Persisted(a, threw))
      ensures a !in runs && attemptByToken == if threw then old(attemptByToken) else old(attemptByToken) - {a.token}
    {
      if !threw { attemptByToken := attemptByToken - {a.token}; }
      runs := runs - {a};
    }

    method OnTimer(a: Attempt) returns (run: bool)
      requires a in timers
      modifies this`inflightKeys, this`runs, this`timers
      ensures State() == Next(old(State()), TimerFired(a))
      ensures run <==> a !in old(inflightKeys)
      ensures a in inflightKeys && runs == if run then old(runs)[a := Loading] else old(runs)
    {
      timers := timers - multiset{a};
      if a in inflightKeys { return false; }
      inflightKeys := inflightKeys + {a};
      runs := runs[a := Loading];
      run := true;
    }
  }
}
