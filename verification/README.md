# Proofs about nexus-workflow-app

A Dafny model of the protocols around the workflow engine of `nexus-workflow-app`, with proofs of what they
keep. The engine itself is a function with a stated contract; everything else follows the program's code:
what its code does where its comments say something else. `dafny verify dfyconfig.toml` checks the project.

## What is modelled

| files | what |
|---|---|
| `EngineModel`, `StateStore`, `StoreOps` | the tables of a tenant, the store operations and their transaction, the diff that the routes write (`computeStoreOps`) and the smaller one of the worker and the timers (`buildStoreOps`), the piecewise load |
| `Persistence`, `RoundTrip` | what each diff does to every table; diff, apply, load as the identity, and exactly when |
| `CommitProtocol`, `CommitSafety`, `CommitTheorems` | any number of requests, workers, timers, forced steps and signals that read an instance in separate queries, run the engine and commit against the version; every interleaving |
| `SubscriptionIndex`, `IndexOverRuns`, `MissedWait` | the index of waits on messages and signals against a scan of the tokens, over whole runs, and a run in which a message finds nobody |
| `RetryLoops`, `TimerPolls` | the worker's and the timers' retry loops and the forced step as they are written, and the scheduler's poll |
| `ScopeChain` | variables up the chain of scopes |
| `TaskRetry`, `TenantWorkers` | attempts, backoff timers and duplicate events of one worker; the life of each tenant's worker set |
| `LoginThrottle`, `LoginEviction`, `LoginRate`, `LoginRoute`, `LoginRuns` | the login throttle as a table, its eviction, its rate bound, `/login` over its three throttles, and any number of sign-ins and invite links at once |
| `UserStore`, `UserAdmin`, `PeopleRules`, `PeopleOutcomes` | people and their roles, the rules of administering them, and exactly when each call succeeds, by rank |
| `PeopleRaces`, `LastRole`, `AdminLock` | what overlapping administrative calls can and cannot do, their reads and their writes apart; when one takes a person's own last role; and the lock that keeps an administrator |
| `Sessions`, `Migrations`, `ResourceCache`, `ParallelMap` | session expiry, tenant migrations by concurrent runners, the per-tenant resource cache, the bounded parallel map |

Where the program changes fields or rows step by step, the model has a class or a method with the same loop,
proved equal to a function on values (`Check`, `Begin`, `Next`, ...); the lemmas are about that function and
about runs of it. Code that awaits is cut at each `await`: a `Step` (or `Op`, `Act`) is one uninterrupted
piece, and a run is any finite sequence of them.

## What is assumed

- Of the engine, on any state: it keeps the instance's id and version. On a state that the engine's own runs lead to
  (`Engine.sound`, which the theorems leave open: the engine's own invariant), that is consistent, and with generated
  ids that name no token or scope of it (`CommitProtocol.ProperRun`), also the following.
  - `CommitProtocol.Extends`: the result is consistent; no token and no scope is dropped; the scopes of the result are
    only ones that the instance or a token refers to; every scope newly referred to is brought; a compensation
    record that stays is unchanged.
  - `CommitProtocol.StaysSound`: what is stored of the result, with or without the change in compensation records,
    is a state the engine's runs lead to, and so is a started process.
  - `CommitTheorems.FinishesOnce`: completing or firing needs a waiting token and ends it, and a token that is over
    stays over. `IndexOverRuns.KeepsWaits`: a token that stays waiting keeps its wait, and none that waits is dropped.

  `MissedWait.SampleMeetsContract` shows an engine that meets all of it. Nothing is assumed of what the engine makes of
  a state read while others were writing, beyond the id and the version; such a state cannot be committed.
- Of ids: those the engine or the program generates are not in use by anything else when they are written. A
  collision is modelled where the code handles it (a start, a new person, a grant, a session). Timers are scheduled
  once per id, which is the token's. `LastRole` needs only that the id of the membership being removed is not handed
  out again meanwhile.
- Of the database: a statement sees and changes what is committed, a transaction is all or nothing, and a
  transaction-scoped advisory lock is held until its end.
- Of clocks: readings never go back within one run.

## What came out

- The worker and the timers leave out the subscription and compensation parts of the diff. So their cycles keep
  the subscription index exactly when no wait began, ended or changed in them, and give back the engine's state
  exactly when no compensation record came or went. Over whole runs the index holds all along exactly when that is so of
  every background cycle (`IndexOverRuns.IndexIffQuiet`). `MissedWait.WorkerCanMissAWait` is a whole run in which a service
  step completes, the next one waits for a message, and looking the message up does not find it.
- `PostgresScheduler` describes itself as at most once within a process. Polls started by the interval can
  overlap, and then the same timer is called back for twice (`TimerPolls.OverlappingPollsDeliverTwice`); exactly when
  one starts with a timer that another still lists (`TimerPolls.OnceIffPollsApart`). This is harmless: only one
  firing of a token can commit (`CommitTheorems.TokenFinishedOnce`).
- A failed service step without a boundary event leaves its token waiting, so "at most once" is about completing
  and firing, not about failing.
- The administrators' check keeps an administrator only once there is one. A disable that passed its check
  before can take away the first (`AdminLock.FirstAdministratorCanBeLost`). The rollback of a creation deletes a person
  outside the lock, and can take away the last (`AdminLock.RollbackCanLoseTheLast`). `AdminLock.AnAdministratorRemains`
  and `AdminLock.AdministratorsOverRuns` say exactly when neither happens.
- No single call takes a person's own last role, but two that overlap can (`LastRole.TwoRemovalsCanStrip`);
  `LastRole.LastRoleGoesExactly` says exactly when.
- An `endAll` of the resource cache can end a resource twice, if one it has already ended is asked for, evicted or
  pushed out before it has cleared the cache; exactly then (`ResourceCache.EndedOnceIffSpared`).
- A use of a session within a minute of the last touch is not written down, so a session can be refused after
  being unused for less than `idleMs`, by up to that minute (`Sessions.UntouchedUseIsForgotten`).
  `Sessions.AnswersExactly` says exactly when it answers, from the times of use alone.
- A duplicate event during a backoff starts the next attempt without waiting (`TaskRetry.SkippedFromTheStart`); an
  attempt waits for its timer exactly when no event for its token comes first (`TaskRetry.DueAttemptStarts`).
- `mapWithLimit` with a limit below 1 starts no worker and returns holes (`ParallelMap.MapWithLimit`).

## Model

| member | source | states |
|---|---|---|
| StateStore.PostgresStateStore.ExecuteTransaction | nexus-workflow-app/src/db/PostgresStateStore.ts:885-891 | all operations of a transaction take effect in order, or none does and the first failing one is reported |
| StateStore.PostgresStateStore.GetInstance | nexus-workflow-app/src/db/PostgresStateStore.ts:385-391 | an instance reads back with the version of its row, whatever its data says |
| StateStore.PostgresStateStore.GetAllTokens | nexus-workflow-app/src/db/PostgresStateStore.ts:502-510 | every token of the instance exactly once, in some order |
| StateStore.PostgresStateStore.ListCompensationRecords | nexus-workflow-app/src/db/PostgresStateStore.ts:867-883 | every compensation record of the instance, one per token, the earliest completed first |
| StateStore.TimerAndTaskOps | nexus-workflow-app/src/db/PostgresStateStore.ts:910-936 | timer and user task operations touch their own row only; a task is created if and only if its id is free, and an update never makes one |
| StateStore.RunOpsKeepsRowsKeyed | nexus-workflow-app/src/db/PostgresStateStore.ts:893-948 | no committed list of operations leaves a row under a key its data does not carry |
| StoreOps.ComputeStoreOps | nexus-workflow-app/src/http/engineHelpers.ts:71-164 | for any `isNew` and old state, agreeing or not, the pushed list is the diff `DiffOps`; as the routes call it, `FullOps`, whose effect on the tables the rows below state |
| StoreOps.BuildStoreOps | nexus-workflow-app/src/worker/TaskWorker.ts:254-275 | the worker's list is `BackgroundOps`: the same core, no subscription or compensation diff |
| StoreOps.NewDecidesTheFirst | nexus-workflow-app/src/http/engineHelpers.ts:81-85 | whether the instance is new decides the first operation of the list and nothing else |
| StoreOps.LoadEngineState | nexus-workflow-app/src/http/engineHelpers.ts:47-60 | loading piece by piece, undisturbed, gives exactly what the store holds of the instance, and nothing if it is not there |
| StoreOps.ScopeIds | nexus-workflow-app/src/http/engineHelpers.ts:52 | the scopes asked for are the root scope and those of the tokens, each once |
| StoreOps.LoadScopes | nexus-workflow-app/src/http/engineHelpers.ts:53-57 | of the scopes asked for, those that are stored |
| EngineModel.SubscriptionIdInjective | nexus-workflow-app/src/http/engineHelpers.ts:67-70 | the scheme `sub-<token>` gives different tokens different subscriptions |
| Persistence.JoinTagInjective | nexus-workflow-app/src/http/engineHelpers.ts:94-102 | for one instance id, the text `gateway::instance` identifies the join state |
| Persistence.RunCore | nexus-workflow-app/src/http/engineHelpers.ts:81-102 | what the instance, token, scope and join operations leave: upserts, minus the join states that are gone |
| Persistence.RunSubscriptionOps | nexus-workflow-app/src/http/engineHelpers.ts:104-144 | for every subscription id: removed if its token stopped waiting, added if its token began to, else untouched |
| Persistence.RunCompensationOps | nexus-workflow-app/src/http/engineHelpers.ts:146-158 | records of new tokens added, records that disappeared removed, records that stay left as they are |
| Persistence.RunHistory | nexus-workflow-app/src/historyOps.ts:7-9 | an entry already written stays as it is, each new one is added once |
| Persistence.FullCycle | nexus-workflow-app/src/http/engineHelpers.ts:71-164 | a cycle of a route is refused exactly when its version is stale; otherwise its effect on every table |
| Persistence.BackgroundCycle | nexus-workflow-app/src/scheduler/TimerCoordinator.ts:157-178 | the same for worker and timers: same effect on instance, tokens, scopes, joins and history, none on subscriptions and compensation records |
| Persistence.StartCycle | nexus-workflow-app/src/http/engineHelpers.ts:81-85 | a start is refused exactly when the id is taken; otherwise the instance appears at version 1 |
| RoundTrip.FullRoundTrip | nexus-workflow-app/src/http/engineHelpers.ts:71-164 | diff, apply, load gives `next` one version later if and only if no token is dropped, no token id is another instance's, the scopes are the ones a load asks for, and records that stay are unchanged |
| RoundTrip.BackgroundRoundTrip | nexus-workflow-app/src/worker/TaskWorker.ts:254-275 | the worker's form gives `next` with the old compensation records under the same conditions, so `next` itself if and only if no record came or went |
| RoundTrip.StartRoundTrip | nexus-workflow-app/src/http/engineHelpers.ts:81-102 | a process started under an id that has no rows reads back at version 1 if and only if none of its token ids is in use, it brings only scopes it refers to, and of those it refers to it brings each that is stored already |
| RoundTrip.OthersUntouched | nexus-workflow-app/src/db/PostgresStateStore.ts:893-948 | a cycle leaves what any other instance reads exactly as it was |
| SubscriptionIndex.FullCycleKeepsIndex | nexus-workflow-app/src/http/engineHelpers.ts:104-144 | a route's cycle keeps the index (subscriptions are exactly `sub-<token>` of tokens awaiting a message or signal) if and only if a token that stays waiting keeps its wait |
| SubscriptionIndex.BackgroundCycleKeepsIndex | nexus-workflow-app/src/worker/TaskWorker.ts:254-275 | a worker's or timer's cycle keeps it if and only if no wait on a message or signal began, ended or changed |
| SubscriptionIndex.LookupIsScan | nexus-workflow-app/src/db/PostgresStateStore.ts:681-713 | under the index, finding subscriptions by type and name, of one instance or of all, gives the same tokens as scanning the tokens |
| IndexOverRuns.IndexAlongRuns | nexus-workflow-app/src/http/engineHelpers.ts:104-144 | at every point of every run whose background cycles leave waits alone the index holds, and lookups give what scans give |
| IndexOverRuns.IndexIffQuiet | nexus-workflow-app/src/worker/TaskWorker.ts:254-275 | exactly: the index has held at every point of a run so far if and only if no background cycle so far began, ended or changed a wait |
| IndexOverRuns.BackgroundCycleMisses | nexus-workflow-app/src/worker/TaskWorker.ts:254-275 | a background cycle after which a token newly awaits a named event leaves that token out of the lookup, though a scan finds it |
| MissedWait.SampleMeetsContract | nexus-workflow-app/src/worker/TaskWorker.ts:194-223 | what is assumed of engines can be met: a small engine, shown to meet all of it, for the run below |
| MissedWait.WorkerCanMissAWait | nexus-workflow-app/src/worker/TaskWorker.ts:254-275 | a whole run of the protocol, from the empty store, with that engine: a process is started, the worker loads it piece by piece, completes a service step and commits, and a lookup of the message the next step waits for misses it |
| CommitSafety.ContractRecovers | nexus-workflow-app/src/http/engineHelpers.ts:71-164 | the engine's contract and fresh ids give the conditions of the round trip |
| CommitSafety.CommitMeansCurrent | nexus-workflow-app/src/db/PostgresStateStore.ts:364-383 | if what was read first is consistent or out of date, the version check lets a write through exactly when the whole state read is the stored one |
| CommitSafety.ActorSurvives | nexus-workflow-app/src/http/engineHelpers.ts:47-60 | reads taken one by one, instance first, stay consistent or become detectably old, whatever others commit |
| CommitSafety.CommitOther | nexus-workflow-app/src/db/PostgresStateStore.ts:893-948 | a commit changes nothing that any other instance reads |
| CommitSafety.RunKeepsInv | nexus-workflow-app/src/http/engineHelpers.ts:47-60 | the protocol's invariant, in every state of every interleaving of any number of actors |
| CommitTheorems.CommitIffNothingMoved | nexus-workflow-app/src/db/PostgresStateStore.ts:364-383 | in every run a commit goes through if and only if the stored instance is, piece by piece, what the actor read; a refused one writes nothing |
| CommitTheorems.CommittedCyclesAreSerial | nexus-workflow-app/src/db/PostgresStateStore.ts:364-391 | the committed cycles of an instance are one chain of engine runs, each on what the last one left; version = 1 + number of cycles; no update is lost |
| CommitTheorems.TokenFinishedOnce | nexus-workflow-app/src/scheduler/TimerCoordinator.ts:97-137 | over overlapping polls, timers, worker, requests and forced steps, at most one completing or firing cycle of a token is ever committed |
| CommitTheorems.ActorsAreBounded | nexus-workflow-app/src/worker/TaskWorker.ts:194-223 | an actor tries at most its limit (never over five), commits at most once, and publishes only after its own commit |
| CommitTheorems.StepIsStepped | nexus-workflow-app/src/worker/TaskWorker.ts:194-223 | no step of one actor moves another: each actor goes read, run, commit, publish, and back to reading only by losing a race |
| RetryLoops.TryCommit | nexus-workflow-app/src/scheduler/TimerCoordinator.ts:122-127 | one try leaves exactly the transaction of one engine run on the stored state, if and only if the version is still the one read; else it is refused as a concurrent modification and leaves nothing |
| RetryLoops.RunCommand | nexus-workflow-app/src/worker/TaskWorker.ts:194-223 | from a first state of any age: at most one transaction, computed from exactly what the store held at that moment, events only then. Each lost try lost to a change of the instance since its load; it throws only after five of them, and drops the command only without a definition or if the engine refuses it on the first state or on what a reload gave |
| RetryLoops.CompleteTask | nexus-workflow-app/src/worker/TaskWorker.ts:166-177 | completing from any state loaded before: when its events go out, the task's token is over in the store |
| RetryLoops.FailTask | nexus-workflow-app/src/worker/TaskWorker.ts:179-186 | failing: at most one cycle of a failure command is committed |
| RetryLoops.CommittedFinishes | nexus-workflow-app/src/scheduler/TimerCoordinator.ts:104-123 | whoever commits a completing or firing command found the token waiting in the store, and leaves it completed or cancelled there |
| RetryLoops.OnTimerFired | nexus-workflow-app/src/scheduler/TimerCoordinator.ts:97-137 | the same for a timer, which fires its token's timer and loads at each try: it is committed on a stored state in which the token waits, and then the token is over; thrown only after five lost races, and dropped only when the token does not wait, there is no definition, or the engine refuses |
| RetryLoops.LookAtStep | nexus-workflow-app/src/http/force.ts:86-95 | which of the three refusals a forced step meets, by what is stored, and otherwise the stored state itself |
| RetryLoops.RefusedExactly | nexus-workflow-app/src/http/force.ts:15-26 | in terms of the rows: a step may be forced if and only if it waits, for a timer, a person, or, as a service task, its worker, as the action wants |
| RetryLoops.ForceStep | nexus-workflow-app/src/http/force.ts:86-173 | each answer by its cause, and each action by its own command: a forced service task, timer or user task is over afterwards, a forced failure is committed as one. The three refusals, no definition, the engine refusing on what was loaded, the audit entry failing after the engine ran; otherwise the whole diff is committed exactly if the instance is still what was looked at, and a conflict is answered exactly if not |
| TimerPolls.OncePerPoll | nexus-workflow-app/src/scheduler/PostgresScheduler.ts:78-87 | however polls overlap, one poll never calls back for a timer twice |
| TimerPolls.NeverEarly | nexus-workflow-app/src/scheduler/PostgresScheduler.ts:78-87 | in every run a timer is called back for only by a poll that found it due when it started |
| TimerPolls.CancelHolds | nexus-workflow-app/src/scheduler/PostgresScheduler.ts:44-47 | a timer cancelled before any poll lists it is not called back for, unless it is scheduled again |
| TimerPolls.GoesOnlyThen | nexus-workflow-app/src/scheduler/PostgresScheduler.ts:78-87 | a timer goes only by being cancelled or by the deletion of a poll about to call back for it: a poll that fails takes none with it |
| TimerPolls.PollDelivers | nexus-workflow-app/src/scheduler/PostgresScheduler.ts:78-87 | a poll that goes on undisturbed calls back for each timer it listed, in order, and leaves none of them scheduled |
| TimerPolls.PostgresScheduler.Poll | nexus-workflow-app/src/scheduler/PostgresScheduler.ts:78-87 | one poll alone: every due timer in turn, deleted and called back for, up to the first callback that throws; the others stay scheduled |
| TimerPolls.OverlappingPollsDeliverTwice | nexus-workflow-app/src/scheduler/PostgresScheduler.ts:78-87 | two overlapping polls can both call back for the same timer |
| TimerPolls.DeliveredOnce | nexus-workflow-app/src/scheduler/PostgresScheduler.ts:78-87 | with each id scheduled once, polls failing wherever they may, and no poll starting with a timer that another still lists, a timer is called back for at most once |
| TimerPolls.OnceIffPollsApart | nexus-workflow-app/src/scheduler/PostgresScheduler.ts:78-87 | exactly: with each id scheduled once, at no moment of a run can the polls under way go on, or fail, so that a timer is called back for twice, if and only if no poll of the run started with a timer on its list that was still on the list of another |
| ScopeChain.WalkEndsIffAcyclic | nexus-workflow-app/src/db/PostgresStateStore.ts:539-549 | the walk up the parents ends if and only if it meets no cycle |
| ScopeChain.GetScopeChain | nexus-workflow-app/src/db/PostgresStateStore.ts:539-549 | the loop ends and lists the leaf and all its ancestors, nearest first |
| ScopeChain.MergeScopes | nexus-workflow-app/src/worker/TaskWorker.ts:244-252 | every name gets its value from the first scope of the chain that has it |
| ScopeChain.SpreadReversed | nexus-workflow-app/src/http/tasks.ts:44-48 | so does the tasks endpoint's reverse-and-spread loop |
| ScopeChain.MergesAgree | nexus-workflow-app/src/http/tasks.ts:44-48 | so the two merges are the same map |
| ScopeChain.VariableFromNearestScope | nexus-workflow-app/src/worker/TaskWorker.ts:115-117 | a variable has the value it has in the nearest scope up the parent pointers, and none if no scope on the way has it |
| TaskRetry.StepKeepsSound | nexus-workflow-app/src/worker/TaskWorker.ts:76-158 | every uninterrupted piece of the worker keeps the invariant of attempts, keys, runs and timers |
| TaskRetry.HandlerCallsCountUp | nexus-workflow-app/src/worker/TaskWorker.ts:76-158 | per token the handler runs at most once per attempt number, numbers only go up, within 1..max(1, maxAttempts) |
| TaskRetry.EndedForGood | nexus-workflow-app/src/worker/TaskWorker.ts:129-157 | once a token's outcome is final its handler never runs again |
| TaskRetry.CalledAgainOnlyIfAsked | nexus-workflow-app/src/worker/TaskWorker.ts:131-156 | in every run a handler is called for attempt n + 1 only if it was called for attempt n and asked for a retry there |
| TaskRetry.EndedOnlyByOutcome | nexus-workflow-app/src/worker/TaskWorker.ts:106-145 | a token's outcome becomes final only by a handler that is done or asks beyond the limit, or for want of a handler |
| TaskRetry.OutcomeIsFinal | nexus-workflow-app/src/worker/TaskWorker.ts:131-157 | a handler's return sets one timer, for the next attempt, if it asks for a retry within the limit; otherwise it ends the token and sets none |
| TaskRetry.FirstAttemptStarts | nexus-workflow-app/src/worker/TaskWorker.ts:76-88 | the first attempt at a token starts if and only if an event for it arrives |
| TaskRetry.DueAttemptStarts | nexus-workflow-app/src/worker/TaskWorker.ts:76-156 | exactly: in every run, an attempt whose retry has become due starts if and only if its timer fires or an event for the token arrives, whatever else comes; so it waits out its backoff just when no such event comes first |
| TaskRetry.RetryIsDue | nexus-workflow-app/src/worker/TaskWorker.ts:147-156 | a handler that asks for a retry within the limit makes the next attempt due |
| TaskRetry.BackoffCanBeSkipped | nexus-workflow-app/src/worker/TaskWorker.ts:148-156 | a duplicate event during a backoff starts the next attempt at once, and the timer then starts nothing |
| TaskRetry.SkippedFromTheStart | nexus-workflow-app/src/worker/TaskWorker.ts:76-156 | a run from the idle worker in which an event starts the second attempt before its timer |
| TaskRetry.TaskWorker.Dispatch | nexus-workflow-app/src/worker/TaskWorker.ts:76-88 | an event starts an attempt exactly when its key is new; the whole new state |
| TaskRetry.TaskWorker.AfterLoad | nexus-workflow-app/src/worker/TaskWorker.ts:97-113 | the handler is called if and only if the token waits and there is one; a missing one fails the task, a token that does not wait ends the run; the whole new state |
| TaskRetry.TaskWorker.AfterHandler | nexus-workflow-app/src/worker/TaskWorker.ts:121-156 | a timer for the next attempt if and only if the handler asks for a retry within the limit; anything else is final and sets none; the whole new state |
| TaskRetry.TaskWorker.AfterPersist | nexus-workflow-app/src/worker/TaskWorker.ts:131-145 | the number on record is forgotten, unless persisting threw; the whole new state |
| TaskRetry.TaskWorker.OnTimer | nexus-workflow-app/src/worker/TaskWorker.ts:151-156 | a timer starts its attempt exactly when nothing else has; the whole new state |
| TenantWorkers.EverySetInOnePlace | nexus-workflow-app/src/worker/TenantWorkerManager.ts:53-129 | in every interleaving each set ever created is in exactly one place: registered, owned by one stop call, stopped once, or failed to start |
| TenantWorkers.FailureSparesTheNewer | nexus-workflow-app/src/worker/TenantWorkerManager.ts:61-64 | a failed start removes only itself from the registry |
| TenantWorkers.NothingRunsAfterStop | nexus-workflow-app/src/worker/TenantWorkerManager.ts:102-109 | after `stop` begins the registry is empty for ever and no set is created |
| TenantWorkers.RegistryHoldsLiveSets | nexus-workflow-app/src/worker/TenantWorkerManager.ts:53-67 | once failures are caught the registry holds only sets that start or run |
| TenantWorkers.PruneLeaves | nexus-workflow-app/src/worker/TenantWorkerManager.ts:86-93 | the same from every sound state, with each newly stopped set one whose tenant is not active |
| TenantWorkers.SyncReconciles | nexus-workflow-app/src/worker/TenantWorkerManager.ts:70-94 | a whole sync that nothing comes between leaves workers for exactly the active tenants, the ones they had if they had some |
| TenantWorkers.StopCallStops | nexus-workflow-app/src/worker/TenantWorkerManager.ts:119-129 | a stop call waits for the start of its set and stops it once; a set that failed to start is not stopped |
| TenantWorkers.StartSettlesOnce | nexus-workflow-app/src/worker/TenantWorkerManager.ts:56-65 | a start that succeeds leaves the set where it is; one that fails leaves the registry by its handler |
| TenantWorkers.TenantWorkerManager.EnsureRunning | nexus-workflow-app/src/worker/TenantWorkerManager.ts:53-67 | shares the set that is there, creates one otherwise, refuses once stopped; keeps the invariant |
| TenantWorkers.TenantWorkerManager.OnFailedStart | nexus-workflow-app/src/worker/TenantWorkerManager.ts:61-64 | the handler of a failed start; keeps the invariant |
| TenantWorkers.TenantWorkerManager.TakeOver | nexus-workflow-app/src/worker/TenantWorkerManager.ts:119-122 | a stop call takes the registered set, and nobody else can |
| TenantWorkers.TenantWorkerManager.TakeOverAll | nexus-workflow-app/src/worker/TenantWorkerManager.ts:86-90 | the loop, tenant by tenant in any order, takes over every tenant that is not to stay, and only those |
| TenantWorkers.TenantWorkerManager.Stop | nexus-workflow-app/src/worker/TenantWorkerManager.ts:102-109 | stopped, with every set in the hands of a stop call; keeps the invariant |
| TenantWorkers.TenantWorkerManager.StartSync | nexus-workflow-app/src/worker/TenantWorkerManager.ts:70-72 | a sync begins exactly if no other is under way and the manager is not stopped; keeps the invariant |
| TenantWorkers.TenantWorkerManager.Listed | nexus-workflow-app/src/worker/TenantWorkerManager.ts:73-74 | a registry that cannot be read ends the sync, with every set left alone; keeps the invariant |
| TenantWorkers.TenantWorkerManager.Prune | nexus-workflow-app/src/worker/TenantWorkerManager.ts:86-93 | a sync leaves each registered active tenant with the same workers and hands every other registered set, and only those, to a stop call; keeps the invariant |
| LoginThrottle.LoginThrottle.CheckKey | nexus-workflow-app/src/auth/LoginThrottle.ts:60-76 | the answer is that of the specification `Check`, at every table; the next two rows and `LoginRate.AllowedExactly` say when that lets an attempt through |
| LoginThrottle.TrackedAllowedExactly | nexus-workflow-app/src/auth/LoginThrottle.ts:63-69 | a tracked key that is not locked may go on if and only if its failures of the last `windowMs` and its attempts of the last `pendingTtlMs` are together below `maxFailures` |
| LoginThrottle.UntrackedAllowedExactly | nexus-workflow-app/src/auth/LoginThrottle.ts:71-75 | any other key may begin if and only if there is a free slot or one that is not locked |
| LoginThrottle.FailureLocksExactly | nexus-workflow-app/src/auth/LoginThrottle.ts:130-144 | a failure is recorded unless the key is new and every slot locked; it locks the key, for `lockMs` and with the count afresh, if and only if it is the last one the window allows; attempts in flight stay |
| LoginThrottle.SuccessForgives | nexus-workflow-app/src/auth/LoginThrottle.ts:115-122 | a success forgives the failures of its key, lifts no lock, keeps attempts in flight and drops the entry if there are none; no other key is touched |
| LoginThrottle.LoginThrottle.BeginAttempt | nexus-workflow-app/src/auth/LoginThrottle.ts:82-101 | reserves exactly when admitted; the whole new table |
| LoginThrottle.LoginThrottle.FreeSlot | nexus-workflow-app/src/auth/LoginThrottle.ts:176-186 | the two deleting loops; true exactly when there is room |
| LoginThrottle.LoginThrottle.Fail | nexus-workflow-app/src/auth/LoginThrottle.ts:95-105 | gives the reservation back and records one failure; the whole new table |
| LoginThrottle.LoginThrottle.RecordFailure | nexus-workflow-app/src/auth/LoginThrottle.ts:130-144 | the whole new table after a failure |
| LoginThrottle.LoginThrottle.RecordSuccess | nexus-workflow-app/src/auth/LoginThrottle.ts:115-122 | the whole new table after a success |
| LoginThrottle.MakeRoomIs | nexus-workflow-app/src/auth/LoginThrottle.ts:162-186 | room is made by deleting only, never a lock in force; and it is made if and only if some entry is unlocked |
| LoginThrottle.NeverTooManyKeys | nexus-workflow-app/src/auth/LoginThrottle.ts:60-186 | no operation takes the table beyond `maxKeys` |
| LoginThrottle.LockNeverLifted | nexus-workflow-app/src/auth/LoginThrottle.ts:115-186 | no operation on any key removes or shortens a lock in force |
| LoginThrottle.LockHoldsOverRuns | nexus-workflow-app/src/auth/LoginThrottle.ts:60-186 | so over whole runs a lock holds until its end |
| LoginThrottle.AllowedIsAdmitted | nexus-workflow-app/src/auth/LoginThrottle.ts:82-92 | a key that a check allows is still admitted by a later `begin`, if no operation came between |
| LoginEviction.StaleGoFirst | nexus-workflow-app/src/auth/LoginThrottle.ts:176-186 | a full table that has entries that no longer count evicts exactly those |
| LoginEviction.OldestUnlockedGoes | nexus-workflow-app/src/auth/LoginThrottle.ts:176-186 | if all entries count, exactly the oldest unlocked one goes |
| LoginEviction.LockedWaitIsExact | nexus-workflow-app/src/auth/LoginThrottle.ts:63-65 | the wait told for a locked key ends with the lock, to the second |
| LoginEviction.OpKeepsOrder | nexus-workflow-app/src/auth/LoginThrottle.ts:176-186 | oldest means first come: no operation changes the order of two keys that both stay |
| LoginEviction.NewKeyIsLast | nexus-workflow-app/src/auth/LoginThrottle.ts:87-92 | and a key that is new comes last |
| LoginEviction.FullTableWaitIsExact | nexus-workflow-app/src/auth/LoginThrottle.ts:71-74 | the wait told when every slot is locked is just long enough for a new key to be let in |
| LoginEviction.NeverExactly | nexus-workflow-app/src/auth/LoginThrottle.ts:169-173 | no wait at all is told if and only if the table can hold no key |
| LoginRate.FailKeepsKey | nexus-workflow-app/src/auth/LoginThrottle.ts:130-144 | a confirmed failure keeps failures and attempts in flight within `maxFailures` together, and starts a lock only when nothing is in flight |
| LoginRate.RateBound | nexus-workflow-app/src/auth/LoginThrottle.ts:60-144 | every interval of `windowMs` holds at most `maxFailures` confirmed failures of a key, however attempts overlap |
| LoginRate.LockStartsQuiet | nexus-workflow-app/src/auth/LoginThrottle.ts:130-144 | when a lock starts, no admitted attempt on the key is in flight |
| LoginRate.AllowedExactly | nexus-workflow-app/src/auth/LoginThrottle.ts:60-70 | over whole runs, exactly: a tracked key that is not locked is let in if and only if the failures confirmed less than `windowMs` ago and the attempts in flight are together below `maxFailures` |
| LoginRate.LockStartsExactly | nexus-workflow-app/src/auth/LoginThrottle.ts:130-144 | over whole runs, exactly: a confirmed failure locks the key, for `lockMs`, if and only if it makes `maxFailures` of them within `windowMs` |
| LoginRoute.CheckAll | nexus-workflow-app/src/http/auth.ts:96-102 | a sign-in is blocked exactly when some throttle refuses, and told the longest wait |
| LoginRoute.Admit | nexus-workflow-app/src/http/auth.ts:94-111 | a blocked sign-in moves no counter; any other holds one reservation in every throttle |
| LoginRoute.Finish | nexus-workflow-app/src/http/auth.ts:112-141 | every reservation is settled exactly once: failed, each throttle by its own reading of the clock, released on our own error, or released with the first counter forgiven |
| LoginRoute.SettledLeaves | nexus-workflow-app/src/http/auth.ts:112-141 | what that leaves in one throttle: the attempt's own reservation is gone, a wrong password has counted once, our own error not at all, a success has forgiven the first throttle only; no lock is lifted and no other key touched |
| LoginRuns.LoginsKeepRate | nexus-workflow-app/src/http/auth.ts:94-261 | for any number of overlapping sign-ins and invite links on the account-wide or per-address throttle, reservations are exactly the attempts under way and the rate bound holds; a second release of an attempt, which invite links can do, harms only another attempt on the key that began at the very same moment |
| LoginRuns.WrongsAreBounded | nexus-workflow-app/src/http/auth.ts:94-141 | in terms of what happened: no interval of `windowMs` sees more than `maxFailures` sign-ins on a key leave with a wrong password |
| LoginRuns.LetInExactly | nexus-workflow-app/src/http/auth.ts:94-111 | and nobody is turned away before that: a sign-in on a tracked, unlocked key that the other throttles let through goes on if and only if the wrong passwords of the last `windowMs` and the sign-ins under way are together below `maxFailures`; and so does an invite link |
| UserStore.DisableRefusedExactly | nexus-workflow-app/src/db/UserStore.ts:92-109 | a disable is refused if and only if it would take the platform from some active administrator to none |
| UserStore.RemovalRefusedExactly | nexus-workflow-app/src/db/UserStore.ts:317-330 | the same for removing a membership |
| UserStore.GrantKeepsRules | nexus-workflow-app/src/db/UserStore.ts:278-308 | a grant keeps the schema's rules, and after a successful one the person has the role |
| UserStore.Store.SetStatus | nexus-workflow-app/src/db/UserStore.ts:190-203 | refused for the last administrator, false for nobody, else the status asked for; a disable ends every session of the person and an enable none; otherwise nothing changes |
| UserStore.Store.AddMembership | nexus-workflow-app/src/db/UserStore.ts:278-308 | the whole new state; granting again changes nothing |
| UserStore.Store.RemoveMembership | nexus-workflow-app/src/db/UserStore.ts:317-330 | the whole new state; that one membership of the person is removed, and no other |
| UserStore.Store.CreateUser | nexus-workflow-app/src/db/UserStore.ts:122-142 | the whole new state; a taken email or bad input changes nothing |
| UserStore.StatusChangeLeaves | nexus-workflow-app/src/db/UserStore.ts:190-203 | a change of status leaves everybody else, and the person's roles and invites, as they were |
| UserStore.RemovalLeaves | nexus-workflow-app/src/db/UserStore.ts:317-330 | a removal leaves the person their other memberships, and everybody else as they were |
| UserStore.GrantedExactly | nexus-workflow-app/src/db/UserStore.ts:278-308 | a grant succeeds if and only if the role fits and the person and the tenant are there |
| UserStore.GrantLeaves | nexus-workflow-app/src/db/UserStore.ts:278-308 | it adds that one membership, once, and changes nothing else |
| UserStore.CreationLeaves | nexus-workflow-app/src/db/UserStore.ts:122-142 | a creation succeeds if and only if the email is usable and free and the name good; the new person is active and has nothing yet |
| UserStore.DeletionLeaves | nexus-workflow-app/src/db/UserStore.ts:205-209 | a deletion leaves no account, role, session or invite of the person, and everybody else as they were |
| UserStore.InviteLeaves | nexus-workflow-app/src/db/InviteStore.ts:42-61 | a new invite is the only unused one of the person, and nothing else changes |
| UserStore.WithinExactly | nexus-workflow-app/src/db/UserStore.ts:250-258 | wholly within some tenants: some membership, and none that is not a manager role in one of them |
| UserAdmin.Administration.MayCreate | nexus-workflow-app/src/auth/UserAdmin.ts:131-148 | the three passes over the requested roles find the first reason to refuse |
| UserAdmin.Administration.CreatePerson | nexus-workflow-app/src/auth/UserAdmin.ts:127-173 | a creation either goes through whole or, by deleting the half-made person, leaves the tables exactly as they were; for a deletion that works |
| UserAdmin.DeletedAgain | nexus-workflow-app/src/auth/UserAdmin.ts:169-172 | deleting the person just created undoes any grants made so far |
| UserAdmin.Administration.ChangeStatus | nexus-workflow-app/src/auth/UserAdmin.ts:175-203 | every branch and its outcome; the whole new state |
| UserAdmin.Administration.GrantMembership | nexus-workflow-app/src/auth/UserAdmin.ts:205-239 | every branch and its outcome; the whole new state |
| UserAdmin.Administration.RevokeMembership | nexus-workflow-app/src/auth/UserAdmin.ts:241-272 | every branch and its outcome; the whole new state |
| UserAdmin.Administration.InviteAgain | nexus-workflow-app/src/auth/UserAdmin.ts:278-301 | every branch and its outcome; the whole new state |
| PeopleRules.OthersUntouched | nexus-workflow-app/src/auth/UserAdmin.ts:127-301 | a call changes nothing about anyone but its target: account, roles, sessions, invites |
| PeopleRules.AfterKeepsRules | nexus-workflow-app/src/auth/UserAdmin.ts:127-301 | every call keeps the schema's rules |
| PeopleRules.NewMembership | nexus-workflow-app/src/auth/UserAdmin.ts:327-339 | a membership that appears is one its actor may hand out |
| PeopleRaces.WrittenUntouched | nexus-workflow-app/src/db/UserStore.ts:190-330 | a transaction touches nobody but its target, and creating somebody touches nobody who is there |
| PeopleRaces.SystemAdminsFrozen | nexus-workflow-app/src/auth/UserAdmin.ts:335-353 | however calls of anybody overlap, each of their reads and writes apart: nobody becomes a system admin and nothing about one changes |
| PeopleRaces.OperatorsFrozen | nexus-workflow-app/src/auth/UserAdmin.ts:335-353 | while nobody who asks is a system admin, the same of operators |
| PeopleRaces.NoWayUp | nexus-workflow-app/src/auth/principal.ts:29-49 | with no system admin at the start and no admin key, people asking with the roles they have, and operator keys, never change an operator or who is one |
| PeopleRaces.ManagersConfined | nexus-workflow-app/src/auth/UserAdmin.ts:319-329 | however calls of managers of given tenants overlap, with the queries of their checks apart too, people not wholly within them are untouched and only manager roles in them come or go |
| PeopleRaces.AloneIsOneStep | nexus-workflow-app/src/auth/UserAdmin.ts:175-324 | a call that nothing comes between does, through its three reads and its write, what it does taken as one step |
| PeopleRaces.CreationAlone | nexus-workflow-app/src/auth/UserAdmin.ts:150-172 | so does a creation, through its several transactions and the deletion that undoes them |
| PeopleRaces.BrokenIsUndone | nexus-workflow-app/src/auth/UserAdmin.ts:169-172 | a creation that fails on the way takes the person away again; with nothing but its own grants in between, everything is as it was before it |
| LastRole.LastRoleGoesExactly | nexus-workflow-app/src/auth/UserAdmin.ts:248-272 | in every run of overlapping calls: a removal of one's own role whose check, on the roles it read, has passed leaves the person without roles if and only if between that read and its write each other role of theirs was taken, and each one given to them was taken again |
| LastRole.LoneRemovalLeavesARole | nexus-workflow-app/src/auth/UserAdmin.ts:248-251 | so it never does while no other removal of a role of theirs, and no undoing of their creation, is pending |
| LastRole.WhoTakes | nexus-workflow-app/src/db/UserStore.ts:317-330 | a membership goes only by the removal of that membership or the undoing of its holder's creation |
| LastRole.TwoRemovalsCanStrip | nexus-workflow-app/src/auth/UserAdmin.ts:248-251 | two overlapping removals can take a person's own last roles, which no single call can |
| PeopleOutcomes.RulesAreRanks | nexus-workflow-app/src/auth/UserAdmin.ts:68-90 | the scope, reach and change rules amount to ranks: system admin over operator over manager, each over those below |
| PeopleOutcomes.GrantsAreRanks | nexus-workflow-app/src/auth/UserAdmin.ts:327-339 | which roles an actor may hand out, by rank |
| PeopleOutcomes.OutOfSightIsNotFound | nexus-workflow-app/src/auth/UserAdmin.ts:320-324 | a call answers "not found" exactly for those the actor does not see, existing or not |
| PeopleOutcomes.StatusAnswers | nexus-workflow-app/src/auth/UserAdmin.ts:175-203 | the answer of a status change in every case, by rank; a refusal changes nothing |
| PeopleOutcomes.GrantAnswers | nexus-workflow-app/src/auth/UserAdmin.ts:205-239 | the answer of a grant in every case, by rank; a refusal changes nothing |
| PeopleOutcomes.RemovalAnswers | nexus-workflow-app/src/auth/UserAdmin.ts:241-272 | the answer of a removal in every case, by rank; a refusal changes nothing |
| PeopleOutcomes.InviteAnswers | nexus-workflow-app/src/auth/UserAdmin.ts:278-301 | the answer of a new invite in every case, by rank; a refusal changes nothing |
| PeopleOutcomes.StatusChangesExactly | nexus-workflow-app/src/auth/UserAdmin.ts:175-203 | succeeds if and only if the actor ranks above the person, does not disable themselves, and an administrator is left |
| PeopleOutcomes.RoleGrantedExactly | nexus-workflow-app/src/auth/UserAdmin.ts:205-239 | succeeds if and only if the actor ranks above the person, may hand the role out, and it fits; an operator never a tenant role to themselves |
| PeopleOutcomes.RoleRemovedExactly | nexus-workflow-app/src/auth/UserAdmin.ts:241-272 | succeeds if and only if the actor ranks above the person, it is not their own operator or last role, and an administrator is left |
| PeopleOutcomes.ReinvitedExactly | nexus-workflow-app/src/auth/UserAdmin.ts:278-301 | succeeds if and only if the person is active and ranks below; theirs is then the only unused invite |
| PeopleOutcomes.PersonCreatedExactly | nexus-workflow-app/src/auth/UserAdmin.ts:127-173 | succeeds if and only if every role may be handed out and fits (a manager gives at least one) and the details are good |
| PeopleOutcomes.CreationAnswers | nexus-workflow-app/src/auth/UserAdmin.ts:127-173 | the answer of a creation with unused ids in every case; a refusal leaves nothing of it |
| PeopleOutcomes.FailedCreationLeavesNothing | nexus-workflow-app/src/auth/UserAdmin.ts:160-172 | whatever goes wrong, an id in use or an audit entry that cannot be written included, a creation that fails leaves nothing |
| PeopleOutcomes.CreatedPersonHas | nexus-workflow-app/src/auth/UserAdmin.ts:150-168 | the new person is active, with exactly the roles asked for and exactly one invite |
| PeopleRules.NoSelfHarm | nexus-workflow-app/src/auth/UserAdmin.ts:180-182 | no call leaves the acting person disabled, without an operator role they had, or without roles |
| AdminLock.AnAdministratorRemains | nexus-workflow-app/src/db/UserStore.ts:92-109 | exactly: while no creation is rolled back there will always be an active administrator, over every interleaving of locked disables and removals with unlocked grants, enables and creations, if and only if there is one now and every transaction past its check spares one |
| AdminLock.AdministratorsOverRuns | nexus-workflow-app/src/auth/UserAdmin.ts:169-172 | with rollbacks, which delete a person outside the lock: administrators are secure at every moment of a run if and only if they are at its start and each rollback leaves one besides the person it deletes |
| AdminLock.UnsparedLosesAll | nexus-workflow-app/src/db/UserStore.ts:190-203 | a write that spares nobody leaves no administrator |
| AdminLock.FirstAdministratorCanBeLost | nexus-workflow-app/src/db/UserStore.ts:190-203 | a run from a plain start: a disable that passed its check while there was no administrator takes the first one away |
| AdminLock.RollbackCanLoseTheLast | nexus-workflow-app/src/auth/UserAdmin.ts:169-172 | a run from a plain start: an operator is created, the other one is disabled, the creation is rolled back, and there is none |
| AdminLock.StepKeepsGuarded | nexus-workflow-app/src/db/UserStore.ts:190-203 | each step of each transaction keeps what the lock is for: a write that is due spares somebody |
| AdminLock.AloneIsAtOnce | nexus-workflow-app/src/db/UserStore.ts:190-203 | a locked transaction that nothing comes between does, through its steps, what the store's method does, and leaves the lock free |
| Sessions.SeenNearLastUse | nexus-workflow-app/src/db/SessionStore.ts:71-99 | `last_seen_at` is never after the last use and at most 60 s before it |
| Sessions.UnusedIsRefused | nexus-workflow-app/src/db/SessionStore.ts:71-99 | a session unused for `idleMs` is refused |
| Sessions.BusyIsAccepted | nexus-workflow-app/src/db/SessionStore.ts:71-99 | one that nothing ends, used with gaps under `idleMs` less 60 s, answers until its absolute expiry, through any purges |
| Sessions.AnswersExactly | nexus-workflow-app/src/db/SessionStore.ts:71-99 | exactly: a session of an active user that nothing ends, its token issued once, answers at a moment, through any purges, if and only if that is less than `idleMs` after the last use written down, which follows from the times of use alone, and before its absolute expiry |
| Sessions.ForgottenExactly | nexus-workflow-app/src/db/SessionStore.ts:93-95 | so a session used less than `idleMs` ago is refused before its absolute expiry if and only if the last use written down is `idleMs` ago, and then a later one was not written down |
| Sessions.UntouchedUseIsForgotten | nexus-workflow-app/src/db/SessionStore.ts:93-95 | a run in which that happens, for every value of the options |
| Sessions.ExpiresAtLatest | nexus-workflow-app/src/db/SessionStore.ts:52-68 | however busy, a session ends at its absolute expiry |
| Sessions.EndedIsRefused | nexus-workflow-app/src/db/SessionStore.ts:101-109 | after a sign-out, a sign-out everywhere or the disabling of its user, a session never answers again unless its very token is issued once more |
| Sessions.DisabledIsRefused | nexus-workflow-app/src/db/SessionStore.ts:84-86 | no session of a disabled user answers, not even one issued since, until the user is enabled again |
| Sessions.PurgeTakesTheDead | nexus-workflow-app/src/db/SessionStore.ts:112-120 | a purge takes exactly the sessions past their absolute expiry or idle for too long, and leaves the others as they are |
| Sessions.PurgingChangesNoAnswer | nexus-workflow-app/src/db/SessionStore.ts:112-120 | purging at any moments, any number of times, changes no answer of any run |
| Sessions.SessionStore.CreateSession | nexus-workflow-app/src/db/SessionStore.ts:52-68 | the whole new table; a token already in use changes nothing |
| Sessions.SessionStore.ResolveSession | nexus-workflow-app/src/db/SessionStore.ts:71-99 | the answer and the whole new table |
| Sessions.SessionStore.DestroySession | nexus-workflow-app/src/db/SessionStore.ts:101-105 | that session is gone and every other one as it was |
| Sessions.SessionStore.DestroyAllForUser | nexus-workflow-app/src/db/SessionStore.ts:107-109 | exactly the sessions of other users are left, as they were |
| Sessions.SessionStore.PurgeExpired | nexus-workflow-app/src/db/SessionStore.ts:112-120 | exactly the sessions still alive are left, and the number of the others is returned |
| Migrations.RecordedIsAPrefix | nexus-workflow-app/src/db/tenantMigrations.ts:50-83 | under any interleaving of runners of any releases and failures, recorded versions are a prefix of the list, each took effect once and in order, and the schema is their replay |
| Migrations.FinishedMeansApplied | nexus-workflow-app/src/db/tenantMigrations.ts:50-83 | a runner that reached the end of its list leaves at least that list applied |
| Migrations.LockNeverLeftBehind | nexus-workflow-app/src/db/tenantMigrations.ts:58-80 | in every run, whoever fails and wherever, the lock is held by a runner in the middle of a migration or by none |
| Migrations.NewRunnerFinishes | nexus-workflow-app/src/db/tenantMigrations.ts:50-83 | after any run in which nobody is in the middle of a migration, a new runner that nothing disturbs brings the tenant to the end of what it knows and answers with exactly what was missing |
| Migrations.OldAndNewTenantsAgree | nexus-workflow-app/src/db/tenantMigrations.ts:14-35 | an old tenant brought up to date and a fresh one have the same schema and records |
| Migrations.TenantSchema.ApplyOne | nexus-workflow-app/src/db/tenantMigrations.ts:59-80 | one migration: skipped if recorded, else run and recorded together, or neither |
| Migrations.TenantSchema.Migrate | nexus-workflow-app/src/db/tenantMigrations.ts:50-83 | a tenant moves from where it stands to the first migration that throws, and the answer names it or lists what was applied |
| Migrations.SchemaHealth.MigrateAll | nexus-workflow-app/src/db/tenantMigrations.ts:101-132 | each tenant is migrated in turn, from where it stands to the first migration that throws on it, whatever becomes of the others; the failures kept and answered are those of that round |
| Migrations.BehindExactly | nexus-workflow-app/src/db/tenantMigrations.ts:134-153 | after a round a tenant is behind, with its own error, exactly if its migration failed, and each tenant is in one of the two lists |
| Migrations.NotTriedStays | nexus-workflow-app/src/db/tenantMigrations.ts:134-144 | and a tenant that was not in the round is behind, or not, as it was before |
| Migrations.ServedExactly | nexus-workflow-app/src/db/tenantMigrations.ts:50-83 | a tenant has no error if and only if its name is valid and no migration it still lacks throws, and then it has them all |
| ResourceCache.CachedOrClosedOnce | nexus-workflow-app/src/db/TenantResourceCache.ts:13-45 | with any gets, evictions and rounds of `endAll` in between, that leave alone what an `endAll` under way has ended: a resource is closed once if it is out of the cache or the loop has passed it, and else not |
| ResourceCache.EndedOnceIffSpared | nexus-workflow-app/src/db/TenantResourceCache.ts:39-45 | exactly: with `endAll` going on to its end, no resource is ended twice if and only if nothing asked for, evicted or pushed out one that an `endAll` under way had already ended |
| ResourceCache.HoldsMostRecent | nexus-workflow-app/src/db/TenantResourceCache.ts:13-29 | after any gets the cache holds exactly the `maxSize` tenants requested last, in order of last request |
| ResourceCache.ByLastUseOrders | nexus-workflow-app/src/db/TenantResourceCache.ts:15-19 | that order is by the moment of the last request |
| ResourceCache.SmallerIsContained | nexus-workflow-app/src/db/TenantResourceCache.ts:13-29 | on the same requests a smaller cache is always the recent end of a larger one |
| ResourceCache.TenantResourceCache.GetResource | nexus-workflow-app/src/db/TenantResourceCache.ts:13-29 | a cached resource is returned and nothing ended; otherwise one is created, and the oldest ended exactly if the cache is full; the tenant is then the most recent; the whole new cache |
| ResourceCache.TenantResourceCache.EvictResource | nexus-workflow-app/src/db/TenantResourceCache.ts:32-37 | that tenant alone is forgotten, and its resource ended if there was one; the whole new cache |
| ResourceCache.TenantResourceCache.EndOne | nexus-workflow-app/src/db/TenantResourceCache.ts:41-44 | from one await of `endAll` to the next; the whole new cache |
| ResourceCache.TenantResourceCache.EndEvery | nexus-workflow-app/src/db/TenantResourceCache.ts:40-45 | with nothing in between: the cache is empty and every resource ever created closed once |
| ParallelMap.MapWithLimit | nexus-workflow-app/src/http/tenants.ts:34-45 | however calls settle: it ends, the indices are handed out in order and once each, at most min(limit, n) calls run at once; with a limit of at least 1 it is rejected if and only if some call fails, and otherwise all are handed out and the result is the sequential map; with a limit below 1 it is all holes |

## Left out

- LoginRate.RateBound: holds where attempts settle within `pendingTtlMs`, `lockMs` is at least `windowMs`, `maxFailures` is at least 1, and the key has no success, no failure from outside an attempt and no eviction while it counts; a success or such an eviction does reset the count.
- LoginRate.AllowedExactly: along the runs that `LoginRate.RateBound` is about, like `LoginRate.LockStartsExactly` and `LoginRuns.LetInExactly`; `LoginThrottle.TrackedAllowedExactly` and `LoginThrottle.FailureLocksExactly` hold of every table.
- LoginRuns.LoginsKeepRate: about the account-wide and the per-address throttle; the third, account at address, is reset by a success. Not about runs in which an attempt is released twice while another on the key began at the same millisecond.
- IndexOverRuns.IndexAlongRuns: along runs whose worker and timer cycles leave waits on messages and signals alone; `IndexOverRuns.IndexIffQuiet` says that this is needed.
- PeopleRules.NoSelfHarm: about single calls; see `LastRole.LastRoleGoesExactly` for calls that overlap.
- PeopleOutcomes.PersonCreatedExactly: for ids that nobody uses; `UserAdmin.Administration.CreatePerson` has the other cases.
- RetryLoops.RunCommand: what other actors do between load and commit is given as the tables they leave, which only ever move instances on; `CommitProtocol` has them as actors. The definition is found or not, once for all tries.
- LoginRoute.Finish: about `/login`; the attempts of invite links, one of which can be released twice on an error path, are in `LoginRuns`.
- Sessions.SessionStore.ResolveSession: the SELECT and the UPDATE of `resolve` are one step; the format check of tokens and the hashing are not modelled.
- Sessions.PurgingChangesNoAnswer: tokens are random, so that none is issued twice is assumed.
- ResourceCache.EndedOnceIffSpared: with one `endAll` at a time; a factory that throws after an eviction is not covered.
- UserAdmin.Administration.CreatePerson: the program swallows a failure of the deletion, which can leave a half-made person; `PeopleRaces` has that as a `Break` of the undoing.
- RetryLoops.ForceStep: the user task that is finished with the step is left out.
- SubscriptionIndex.LookupIsScan: without the filter by `correlationValue`, which the diff never stores.
- TimerPolls.OnceIffPollsApart: within one process, and for ids scheduled once; a crash between deleting and calling back loses the timer.
- The engine's semantics, BPMN parsing and `deriveHistory`: a function with a contract, and a list of entries.
- User task records: their creation in the same transaction, and claim and release, which check neither version nor status.
- Message lookup by `correlationValue`, which the diff never stores, and empty event names, which it stores as none.
- The order of rows and `createdAt` times: lists read from the store come in any order, compensation records of `ListCompensationRecords` apart.
- The command line (granting `system_admin`), deleting a person or a tenant, and the cascade from a tenant to its memberships.
- Audit entries, except that one that cannot be written undoes a creation or stops a forced step; a change elsewhere that is undone with its entry is a call that did nothing.
- Invites beyond who has an unused one; accepting them, passwords, hashing, cookies.
- The invitation links, e-mail normalisation and the trimming of names: their results are parameters.
- `getDueTimers`, parsing of timer expressions, webhooks, events to clients, metrics, HTTP parsing and status codes, SQL text and pools: input and output.
- Restarts: the worker's attempts, the throttle's table and the caches are in memory and start empty.
- Wrap-around and floating point: counts, versions and times are unbounded; milliseconds are whole.
- `nexus-erp` and `nexus-workflow-console`: user interface and thin clients.
