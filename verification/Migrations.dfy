/** Bringing tenant schemas up to date, by several runners at once (db/tenantMigrations.ts). */
module Migrations {
  import opened Prelude

  /** `run` is what the migration does to the tenant's schema when it succeeds. */
  datatype Migration<!S> = Migration(version: string, run: S -> S)

  /** A tenant's schema and its bookkeeping table, in the order of insertion. */
  datatype Tenant<S> = Tenant(schema: S, recorded: seq<string>)

  function Versions<S>(list: seq<Migration<S>>): (versions: seq<string>)
    ensures |versions| == |list| && forall i :: 0 <= i < |list| ==> versions[i] == list[i].version
  {
    seq(|list|, i requires 0 <= i < |list| => list[i].version)
  }

  function Replay<S>(list: seq<Migration<S>>, blank: S): S {
    if list == [] then blank else list[|list| - 1].run(Replay(list[..|list| - 1], blank))
  }

  ghost predicate Ordered<S>(list: seq<Migration<S>>) { Distinct(Versions(list)) }

  /** The tenant stands after the first `n` migrations of the list: those are recorded, and the schema is their replay. */
  ghost predicate At<S>(list: seq<Migration<S>>, blank: S, t: Tenant<S>, n: nat) {
    n <= |list| && t.recorded == Versions(list[..n]) && t.schema == Replay(list[..n], blank)
  }

  lemma RecordedMeansBefore<S>(list: seq<Migration<S>>, blank: S, t: Tenant<S>, n: nat, k: nat)
    requires Ordered(list) && At(list, blank, t, n) && k < |list|
    ensures list[k].version in t.recorded <==> k < n
  {
    if k < n {
      assert t.recorded[k] == list[k].version;
    } else {
      forall i | 0 <= i < n ensures t.recorded[i] != list[k].version {
        assert Versions(list)[i] != Versions(list)[k];
      }
    }
  }

  lemma OneMore<S>(list: seq<Migration<S>>, blank: S, t: Tenant<S>, n: nat)
    requires At(list, blank, t, n) && n < |list|
    ensures At(list, blank, Tenant(list[n].run(t.schema), t.recorded + [list[n].version]), n + 1)
  {
    assert list[..n + 1][..n] == list[..n];
    assert Versions(list[..n + 1]) == Versions(list[..n]) + [list[n].version];
  }

  // ─── Many runners ──────────────────────────────────────────────────────────

  /** What a runner is doing about the migration it has come to. */
  datatype Phase = Between | Locked | Ran | Gone

  /** A runner knows the first `known` migrations: releases only ever append to the list. */
  datatype Runner = Runner(known: nat, at: nat, phase: Phase, applied: seq<string>)

  /** `lock` is the per-schema advisory lock; what a transaction wrote shows only when it commits. */
  datatype World<S> = World(tenant: Tenant<S>, runners: map<nat, Runner>, lock: Option<nat>, effects: seq<string>)

  datatype Step =
    | Start(r: nat, known: nat)
    | Take(r: nat)
    | Look(r: nat)
    | Commit(r: nat)
    | Fail(r: nat)

  function Put<S>(w: World<S>, r: nat, runner: Runner): World<S> { w.(runners := w.runners[r := runner]) }

  /** A step that is not possible changes nothing. */
  function Next<S>(list: seq<Migration<S>>, w: World<S>, step: Step): World<S> {
    match step
    case Start(r, known) =>
      if r in w.runners || known > |list| then w else Put(w, r, Runner(known, 0, Between, []))
    case Take(r) =>
      if r in w.runners && w.runners[r].phase == Between && w.runners[r].at < w.runners[r].known && w.lock.None?
      then Put(w, r, w.runners[r].(phase := Locked)).(lock := Some(r)) else w
    case Look(r) =>
      if r !in w.runners || w.runners[r].phase != Locked || w.runners[r].at >= |list| then w
      else
        var x := w.runners[r];
        if list[x.at].version in w.tenant.recorded
        then Put(w, r, x.(at := x.at + 1, phase := Between)).(lock := None)
        else Put(w, r, x.(phase := Ran))
    case Commit(r) =>
      if r !in w.runners || w.runners[r].phase != Ran || w.runners[r].at >= |list| then w
      else
        var x, m := w.runners[r], list[w.runners[r].at];
        World(Tenant(m.run(w.tenant.schema), w.tenant.recorded + [m.version]),
              w.runners[r := x.(at := x.at + 1, phase := Between, applied := x.applied + [m.version])],
              None, w.effects + [m.version])
    case Fail(r) =>
      if r !in w.runners then w
      else Put(w, r, w.runners[r].(phase := Gone)).(lock := if w.lock == Some(r) then None else w.lock)
  }

  function Run<S>(list: seq<Migration<S>>, w: World<S>, steps: seq<Step>): World<S> {
    if steps == [] then w else Next(list, Run(list, w, steps[..|steps| - 1]), steps[|steps| - 1])
  }

  ghost predicate RunnerOK(r: nat, x: Runner, lock: Option<nat>, n: nat) {
    && x.at <= n
    && (x.phase == Locked || x.phase == Ran ==> lock == Some(r) && x.at < x.known)
    && (x.phase == Ran ==> x.at == n)
  }

  ghost predicate Sound<S>(list: seq<Migration<S>>, blank: S, w: World<S>, n: nat) {
    && Ordered(list)
    && At(list, blank, w.tenant, n)
    && w.effects == w.tenant.recorded
    && (forall r :: r in w.runners ==> w.runners[r].known <= |list| && RunnerOK(r, w.runners[r], w.lock, n))
  }

  ghost function Progress<S>(list: seq<Migration<S>>, w: World<S>, n: nat, step: Step): nat {
    if step.Commit? && Next(list, w, step) != w then n + 1 else n
  }

  lemma CommitKeepsSound<S>(list: seq<Migration<S>>, blank: S, w: World<S>, n: nat, r: nat)
    requires Sound(list, blank, w, n) && r in w.runners && w.runners[r].phase == Ran && w.runners[r].at < |list|
    ensures Sound(list, blank, Next(list, w, Commit(r)), n + 1)
  {
    OneMore(list, blank, w.tenant, n);
  }

  lemma LookKeepsSound<S>(list: seq<Migration<S>>, blank: S, w: World<S>, n: nat, r: nat)
    requires Sound(list, blank, w, n) && r in w.runners && w.runners[r].phase == Locked && w.runners[r].at < |list|
    ensures Sound(list, blank, Next(list, w, Look(r)), n)
  {
    RecordedMeansBefore(list, blank, w.tenant, n, w.runners[r].at);
  }

  lemma RestKeepsSound<S>(list: seq<Migration<S>>, blank: S, w: World<S>, n: nat, step: Step)
    requires Sound(list, blank, w, n) && (step.Start? || step.Take? || step.Fail?)
    ensures Sound(list, blank, Next(list, w, step), n)
  {
  }

  lemma StepKeepsSound<S>(list: seq<Migration<S>>, blank: S, w: World<S>, n: nat, step: Step)
    requires Sound(list, blank, w, n)
    ensures Sound(list, blank, Next(list, w, step), Progress(list, w, n, step))
  {
    match step
    case Look(r) =>
      if r in w.runners && w.runners[r].phase == Locked && w.runners[r].at < |list| { LookKeepsSound(list, blank, w, n, r); }
    case Commit(r) =>
      if Next(list, w, step) != w { CommitKeepsSound(list, blank, w, n, r); }
    case _ => RestKeepsSound(list, blank, w, n, step);
  }

  lemma {:induction false} RunKeepsSound<S>(list: seq<Migration<S>>, blank: S, w: World<S>, n: nat, steps: seq<Step>)
    returns (m: nat)
    requires Sound(list, blank, w, n)
    ensures n <= m && Sound(list, blank, Run(list, w, steps), m)
  {
    if steps == [] {
      m := n;
    } else {
      var before := steps[..|steps| - 1];
      var k := RunKeepsSound(list, blank, w, n, before);
      StepKeepsSound(list, blank, Run(list, w, before), k, steps[|steps| - 1]);
      m := Progress(list, Run(list, w, before), k, steps[|steps| - 1]);
    }
  }

  function Fresh<S>(blank: S): World<S> { World(Tenant(blank, []), map[], None, []) }

  /**
   * Whatever runners start, wait, fail and commit, of old releases and new: the recorded versions are the first
   * of the list, in order; each of those took effect exactly once, in order; and the schema is their replay.
   */
  lemma RecordedIsAPrefix<S>(list: seq<Migration<S>>, blank: S, steps: seq<Step>)
    requires Ordered(list)
    ensures var w := Run(list, Fresh(blank), steps);
            && w.tenant.recorded <= Versions(list)
            && w.effects == w.tenant.recorded
            && w.tenant.schema == Replay(list[..|w.tenant.recorded|], blank)
  {
    var n := RunKeepsSound(list, blank, Fresh(blank), 0, steps);
    var w := Run(list, Fresh(blank), steps);
    assert Versions(list[..n]) == Versions(list)[..n];
  }

  /** A runner that got to the end of what it knows leaves at least that much applied. */
  lemma FinishedMeansApplied<S>(list: seq<Migration<S>>, blank: S, steps: seq<Step>, r: nat)
    requires Ordered(list)
    requires var w := Run(list, Fresh(blank), steps); r in w.runners && w.runners[r].at == w.runners[r].known
    ensures var w := Run(list, Fresh(blank), steps);
            && |w.tenant.recorded| >= w.runners[r].known
            && (w.runners[r].known == |list| ==> w.tenant == Tenant(Replay(list, blank), Versions(list)))
  {
    var n := RunKeepsSound(list, blank, Fresh(blank), 0, steps);
    if Run(list, Fresh(blank), steps).runners[r].known == |list| {
      assert list[..n] == list;
    }
  }

  /**
   * Replaying the list makes tenants alike: one brought along release by release, through failures and races, and
   * one created today end with the same schema as soon as one runner of the current release has finished on each.
   */
  lemma OldAndNewTenantsAgree<S>(list: seq<Migration<S>>, blank: S, long: seq<Step>, short: seq<Step>, r: nat, q: nat)
    requires Ordered(list)
    requires var w := Run(list, Fresh(blank), long); r in w.runners && w.runners[r].at == w.runners[r].known == |list|
    requires var w := Run(list, Fresh(blank), short); q in w.runners && w.runners[q].at == w.runners[q].known == |list|
    ensures Run(list, Fresh(blank), long).tenant == Run(list, Fresh(blank), short).tenant
  {
    FinishedMeansApplied(list, blank, long, r);
    FinishedMeansApplied(list, blank, short, q);
  }

  // ─── A runner that nothing disturbs ────────────────────────────────────────

  /** What a runner does about one migration; of one that is recorded, the last piece does nothing. */
  function Turn(r: nat): seq<Step> { [Take(r)] + [Look(r)] + [Commit(r)] }

  function Turns(r: nat, k: nat): seq<Step> { if k == 0 then [] else Turns(r, k - 1) + Turn(r) }

  lemma RunSnoc<S>(list: seq<Migration<S>>, w: World<S>, steps: seq<Step>, step: Step)
    ensures Run(list, w, steps + [step]) == Next(list, Run(list, w, steps), step)
  {
    assert (steps + [step])[..|steps|] == steps;
  }

  ghost predicate Ready<S>(w: World<S>, r: nat, at: nat, known: nat) {
    w.lock.None? && r in w.runners && w.runners[r].phase == Between && w.runners[r].at == at && w.runners[r].known == known
  }

  lemma TurnGoes<S>(list: seq<Migration<S>>, blank: S, w: World<S>, n: nat, r: nat, known: nat, steps: seq<Step>)
    requires var v := Run(list, w, steps);
             Sound(list, blank, v, n) && r in v.runners && Ready(v, r, v.runners[r].at, known) && v.runners[r].at < known
    ensures var v, v' := Run(list, w, steps), Run(list, w, steps + Turn(r));
            var at := v.runners[r].at;
            && Ready(v', r, at + 1, known)
            && Sound(list, blank, v', if at == n then n + 1 else n)
            && v'.runners[r].applied == v.runners[r].applied + if at == n then [list[at].version] else []
  {
    var v := Run(list, w, steps);
    var at := v.runners[r].at;
    RecordedMeansBefore(list, blank, v.tenant, n, at);
    assert steps + Turn(r) == steps + [Take(r)] + [Look(r)] + [Commit(r)];
    RunSnoc(list, w, steps, Take(r));
    RunSnoc(list, w, steps + [Take(r)], Look(r));
    RunSnoc(list, w, steps + [Take(r)] + [Look(r)], Commit(r));
    var taken := Next(list, v, Take(r));
    RestKeepsSound(list, blank, v, n, Take(r));
    LookKeepsSound(list, blank, taken, n, r);
    if at == n { CommitKeepsSound(list, blank, Next(list, taken, Look(r)), n, r); }
  }

  /** Where a runner that has come to `at` stands, and the tenant with it. */
  ghost predicate GotTo<S>(list: seq<Migration<S>>, blank: S, w: World<S>, n: nat, r: nat, known: nat, at: nat) {
    && Ready(w, r, at, known)
    && Sound(list, blank, w, if at <= n then n else at)
    && w.runners[r].applied == if at <= n then [] else Versions(list[n..at])
  }

  lemma GetsOneFurther<S>(list: seq<Migration<S>>, blank: S, w: World<S>, n: nat, r: nat, known: nat, at: nat, steps: seq<Step>)
    requires at < known && n <= |list| && GotTo(list, blank, Run(list, w, steps), n, r, known, at)
    ensures GotTo(list, blank, Run(list, w, steps + Turn(r)), n, r, known, at + 1)
  {
    if at < n {
      TurnGoes(list, blank, w, n, r, known, steps);
    } else {
      TurnGoes(list, blank, w, at, r, known, steps);
      VersionsNext(list, n, at);
      assert at == n ==> Versions(list[n..at]) == [];
    }
  }

  lemma {:induction false} RunnerGoesOn<S>(list: seq<Migration<S>>, blank: S, w: World<S>, n: nat, r: nat, known: nat, k: nat)
    requires Sound(list, blank, w, n) && Ready(w, r, 0, known) && w.runners[r].applied == [] && k <= known
    ensures GotTo(list, blank, Run(list, w, Turns(r, k)), n, r, known, k)
  {
    if k > 0 {
      RunnerGoesOn(list, blank, w, n, r, known, k - 1);
      GetsOneFurther(list, blank, w, n, r, known, k - 1, Turns(r, k - 1));
    }
  }

  /** It skips what is recorded, applies the rest of what it knows in order, once each, and gets to its end. */
  lemma RunnerFinishes<S>(list: seq<Migration<S>>, blank: S, w: World<S>, n: nat, r: nat, known: nat)
    requires Sound(list, blank, w, n) && Ready(w, r, 0, known) && w.runners[r].applied == []
    ensures var w' := Run(list, w, Turns(r, known));
            && w'.lock.None? && r in w'.runners && w'.runners[r].at == known
            && At(list, blank, w'.tenant, if known <= n then n else known)
            && w'.runners[r].applied == if known <= n then [] else Versions(list[n..known])
  {
    RunnerGoesOn(list, blank, w, n, r, known, known);
  }

  /** The lock is held by a runner in the middle of a migration, or by none. */
  ghost predicate LockInUse<S>(w: World<S>) {
    w.lock.Some? ==> w.lock.value in w.runners && w.runners[w.lock.value].phase in {Locked, Ran}
  }

  lemma StepKeepsLockInUse<S>(list: seq<Migration<S>>, blank: S, w: World<S>, n: nat, step: Step)
    requires Sound(list, blank, w, n) && LockInUse(w)
    ensures LockInUse(Next(list, w, step))
  {
  }

  /** In every run, whoever fails and wherever, the lock is never left behind. */
  lemma {:induction false} LockNeverLeftBehind<S>(list: seq<Migration<S>>, blank: S, steps: seq<Step>)
    requires Ordered(list)
    ensures LockInUse(Run(list, Fresh(blank), steps))
  {
    if steps != [] {
      var init := steps[..|steps| - 1];
      LockNeverLeftBehind(list, blank, init);
      var n := RunKeepsSound(list, blank, Fresh(blank), 0, init);
      StepKeepsLockInUse(list, blank, Run(list, Fresh(blank), init), n, steps[|steps| - 1]);
    }
  }

  /**
   * So after any run in which nobody is in the middle of a migration, a new runner that nothing disturbs brings the
   * tenant to the end of what it knows, if it was not there yet, and reports exactly what was still missing.
   */
  lemma NewRunnerFinishes<S>(list: seq<Migration<S>>, blank: S, steps: seq<Step>, r: nat, known: nat)
    requires Ordered(list) && known <= |list|
    requires r !in Run(list, Fresh(blank), steps).runners
    requires forall q :: q in Run(list, Fresh(blank), steps).runners ==> Run(list, Fresh(blank), steps).runners[q].phase in {Between, Gone}
    ensures var n := |Run(list, Fresh(blank), steps).tenant.recorded|;
            var w' := Run(list, Run(list, Fresh(blank), steps + [Start(r, known)]), Turns(r, known));
            && n <= |list|
            && w'.tenant.recorded == Versions(list[..if known <= n then n else known])
            && w'.tenant.schema == Replay(list[..if known <= n then n else known], blank)
            && r in w'.runners && w'.runners[r].at == known
            && w'.runners[r].applied == if known <= n then [] else Versions(list[n..known])
  {
    var w := Run(list, Fresh(blank), steps);
    LockNeverLeftBehind(list, blank, steps);
    var n := RunKeepsSound(list, blank, Fresh(blank), 0, steps);
    RunSnoc(list, Fresh(blank), steps, Start(r, known));
    RestKeepsSound(list, blank, w, n, Start(r, known));
    RunnerFinishes(list, blank, Next(list, w, Start(r, known)), n, r, known);
  }

  // ─── One runner alone ──────────────────────────────────────────────────────

  datatype Outcome = Applied(versions: seq<string>) | BadName | FailedAt(version: string)

  /** The first migration at or after `from` that throws, or the end of the list. */
  function Stop<S>(list: seq<Migration<S>>, from: nat, throws: set<string>): (k: nat)
    requires from <= |list|
    ensures from <= k <= |list|
    decreases |list| - from
  {
    if from == |list| || list[from].version in throws then from else Stop(list, from + 1, throws)
  }

  lemma {:induction false} StopsAtFirst<S>(list: seq<Migration<S>>, from: nat, throws: set<string>)
    requires from <= |list|
    ensures var k := Stop(list, from, throws);
            && (forall i :: from <= i < k ==> list[i].version !in throws)
            && (k < |list| ==> list[k].version in throws)
    decreases |list| - from
  {
    if from < |list| && list[from].version !in throws { StopsAtFirst(list, from + 1, throws); }
  }

  lemma VersionsNext<S>(list: seq<Migration<S>>, n: nat, at: nat)
    requires n <= at < |list|
    ensures Versions(list[n..at + 1]) == Versions(list[n..at]) + [list[at].version]
  {
  }

  class TenantSchema<S> {
    var schema: S
    var recorded: seq<string>

    ghost function State(): Tenant<S>
      reads this
    {
      Tenant(schema, recorded)
    }

    constructor (schema: S)
      ensures State() == Tenant(schema, [])
    {
      this.schema, recorded := schema, [];
    }

    /** One migration in its own transaction: recorded already, or run and recorded, or undone. */
    method ApplyOne(list: seq<Migration<S>>, i: nat, throws: set<string>, ghost blank: S, ghost at: nat)
      returns (ran: bool, failed: bool)
      requires Ordered(list) && At(list, blank, State(), at) && i < |list| && i <= at
      modifies this
      ensures failed <==> i == at && list[i].version in throws
      ensures ran <==> i == at && !failed
      ensures At(list, blank, State(), if ran then at + 1 else at)
    {
      RecordedMeansBefore(list, blank, State(), at, i);
      if list[i].version in recorded { return false, false; }
      if list[i].version in throws { return false, true; }
      OneMore(list, blank, State(), at);
      schema, recorded := list[i].run(schema), recorded + [list[i].version];
      ran, failed := true, false;
    }

    /** The tenant moves from where it stands to the first migration that throws, and no further. */
    method Migrate(list: seq<Migration<S>>, throws: set<string>, validName: bool, ghost blank: S, ghost n: nat)
      returns (outcome: Outcome)
      requires Ordered(list) && At(list, blank, State(), n)
      modifies this
      ensures outcome == BadName <==> !validName
      ensures !validName ==> State() == old(State())
      ensures validName ==> var k := Stop(list, n, throws);
                && At(list, blank, State(), k)
                && outcome == if k == |list| then Applied(Versions(list[n..])) else FailedAt(list[k].version)
    {
      if !validName { return BadName; }
      var applied: seq<string> := [];
      ghost var at := n;
      for i := 0 to |list|
        invariant at == if i < n then n else i
        invariant At(list, blank, State(), at) && applied == Versions(list[n..at])
        invariant Stop(list, at, throws) == Stop(list, n, throws)
      {
        var ran, failed := ApplyOne(list, i, throws, blank, at);
        if failed { return FailedAt(list[i].version); }
        if ran {
          VersionsNext(list, n, at);
          applied, at := applied + [list[i].version], at + 1;
        }
      }
      assert list[n..|list|] == list[n..];
      outcome := Applied(applied);
    }
  }

  // ─── All tenants, and which of them may be served ──────────────────────────

  /** A tenant to bring up to date: its schema, the migrations that fail on it, and whether its name is a valid one. */
  datatype Site<S> = Site(id: string, schema: TenantSchema<S>, throws: set<string>, validName: bool)

  /** Where bringing up to date a tenant that stands after `n` migrations gets to, and what comes of it. */
  function Reaches<S>(list: seq<Migration<S>>, site: Site<S>, n: nat): nat
    requires n <= |list|
  {
    if site.validName then Stop(list, n, site.throws) else n
  }

  function StandsNow<S>(list: seq<Migration<S>>, site: Site<S>, n: nat, tried: bool): nat
    requires n <= |list|
  {
    if tried then Reaches(list, site, n) else n
  }

  function ResultOf<S>(list: seq<Migration<S>>, site: Site<S>, n: nat): Outcome
    requires n <= |list|
  {
    var k := Reaches(list, site, n);
    if !site.validName then BadName else if k == |list| then Applied(Versions(list[n..])) else FailedAt(list[k].version)
  }

  /** A tenant has no error exactly when nothing keeps it from having every migration. */
  lemma ServedExactly<S>(list: seq<Migration<S>>, site: Site<S>, n: nat)
    requires n <= |list| && Ordered(list)
    ensures ResultOf(list, site, n).Applied? <==> site.validName && forall i :: n <= i < |list| ==> list[i].version !in site.throws
    ensures ResultOf(list, site, n).Applied? ==> Reaches(list, site, n) == |list|
  {
    StopsAtFirst(list, n, site.throws);
  }

  /** How a tenant fared: its id and what its migration came to. */
  datatype Fared = Fared(id: string, outcome: Outcome)

  /** Who is behind, and what a round over all tenants answers. */
  datatype Report = Report(behind: map<string, Outcome>, upToDate: seq<string>, failed: seq<Fared>)

  function Marked(r: Report, x: Fared): Report {
    if x.outcome.Applied? then r.(behind := r.behind - {x.id}, upToDate := r.upToDate + [x.id])
    else r.(behind := r.behind[x.id := x.outcome], failed := r.failed + [x])
  }

  function ReportOf(behind: map<string, Outcome>, round: seq<Fared>): Report {
    if round == [] then Report(behind, [], []) else Marked(ReportOf(behind, round[..|round| - 1]), round[|round| - 1])
  }

  lemma ReportNext(behind: map<string, Outcome>, round: seq<Fared>, k: nat)
    requires k < |round|
    ensures ReportOf(behind, round[..k + 1]) == Marked(ReportOf(behind, round[..k]), round[k])
  {
    assert round[..k + 1][..k] == round[..k];
  }

  ghost predicate OneEach(round: seq<Fared>) { forall i, j :: 0 <= i < j < |round| ==> round[i].id != round[j].id }

  /**
   * After a round a tenant is behind exactly if its own migration failed, with that error, whatever became of the
   * others; and everyone tried is in one of the two lists.
   */
  lemma {:induction false} BehindExactly(behind: map<string, Outcome>, round: seq<Fared>, i: nat)
    requires OneEach(round) && i < |round|
    ensures var r, x := ReportOf(behind, round), round[i];
            if x.outcome.Applied? then x.id !in r.behind && x.id in r.upToDate
            else x.id in r.behind && r.behind[x.id] == x.outcome && x in r.failed
    ensures |ReportOf(behind, round).upToDate| + |ReportOf(behind, round).failed| == |round|
  {
    var init := round[..|round| - 1];
    CountsAdd(behind, round);
    if i < |init| { BehindExactly(behind, init, i); }
  }

  lemma {:induction false} CountsAdd(behind: map<string, Outcome>, round: seq<Fared>)
    ensures |ReportOf(behind, round).upToDate| + |ReportOf(behind, round).failed| == |round|
  {
    if round != [] { CountsAdd(behind, round[..|round| - 1]); }
  }

  /** A tenant that is not tried stays as it was. */
  lemma {:induction false} NotTriedStays(behind: map<string, Outcome>, round: seq<Fared>, id: string)
    requires forall x :: x in round ==> x.id != id
    ensures var r := ReportOf(behind, round);
            (id in r.behind <==> id in behind) && (id in behind ==> r.behind[id] == behind[id])
  {
    if round != [] {
      assert round[|round| - 1] in round;
      NotTriedStays(behind, round[..|round| - 1], id);
    }
  }

  function RoundOf<S>(list: seq<Migration<S>>, sites: seq<Site<S>>, standing: seq<nat>): (round: seq<Fared>)
    requires |standing| == |sites| && forall i :: 0 <= i < |sites| ==> standing[i] <= |list|
    ensures |round| == |sites|
    ensures forall i :: 0 <= i < |sites| ==> round[i] == Fared(sites[i].id, ResultOf(list, sites[i], standing[i]))
  {
    seq(|sites|, i requires 0 <= i < |sites| => Fared(sites[i].id, ResultOf(list, sites[i], standing[i])))
  }

  /** Each tenant that fails is marked behind, with its error, and the others carry on. */
  class SchemaHealth {
    var behind: map<string, Outcome>

    constructor ()
      ensures behind == map[]
    {
      behind := map[];
    }

    /** One tenant's turn: its error, if any, is caught and kept. */
    method MigrateOne<S(!new)>(list: seq<Migration<S>>, site: Site<S>, ghost blank: S, ghost n: nat)
      returns (outcome: Outcome)
      requires Ordered(list) && At(list, blank, site.schema.State(), n)
      modifies this, site.schema
      ensures At(list, blank, site.schema.State(), Reaches(list, site, n)) && outcome == ResultOf(list, site, n)
      ensures behind == if outcome.Applied? then old(behind) - {site.id} else old(behind)[site.id := outcome]
    {
      outcome := site.schema.Migrate(list, site.throws, site.validName, blank, n);
      if outcome.Applied? { behind := behind - {site.id}; } else { behind := behind[site.id := outcome]; }
    }

    /** The tenants stand after `standing` migrations each, with schemas of their own. */
    method MigrateAll<S(!new)>(list: seq<Migration<S>>, sites: seq<Site<S>>, ghost blank: S, ghost standing: seq<nat>)
      returns (upToDate: seq<string>, failed: seq<Fared>)
      requires Ordered(list) && |standing| == |sites|
      requires forall i, j :: 0 <= i < j < |sites| ==> sites[i].schema != sites[j].schema
      requires forall i :: 0 <= i < |sites| ==> standing[i] <= |list|
      requires forall i :: 0 <= i < |sites| ==> At(list, blank, sites[i].schema.State(), standing[i])
      modifies this, set i | 0 <= i < |sites| :: sites[i].schema
      ensures forall i :: 0 <= i < |sites| ==> At(list, blank, sites[i].schema.State(), Reaches(list, sites[i], standing[i]))
      ensures Report(behind, upToDate, failed) == ReportOf(old(behind), RoundOf(list, sites, standing))
    {
      upToDate, failed := [], [];
      ghost var before, round := behind, RoundOf(list, sites, standing);
      for k := 0 to |sites|
        invariant forall i :: 0 <= i < |sites| ==> At(list, blank, sites[i].schema.State(), StandsNow(list, sites[i], standing[i], i < k))
        invariant Report(behind, upToDate, failed) == ReportOf(before, round[..k])
      {
        ReportNext(before, round, k);
        var outcome := MigrateOne(list, sites[k], blank, standing[k]);
        if outcome.Applied? { upToDate := upToDate + [sites[k].id]; } else { failed := failed + [Fared(sites[k].id, outcome)]; }
      }
      assert round[..|sites|] == round;
    }
  }
}
