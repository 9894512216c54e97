# Signal workshop services: a Dafny model

This project models the two stateful services of the Angular signal workshop:

- `TodoService` keeps a list of todos in a signal and an id counter. Its computed signals derive the
  total, completed and active counts, the completion percentage and a newest-first ordering. Its
  methods add, toggle, delete, clear and load todos, and each one replaces the list with a new list.
- `AnalyticsService` keeps four signals: the event log, the logging flag, the batch size and the
  auto-save interval. Three kinds of effects react to them:
  - the logging effect tracks the log and reads the flag and batch size `untracked`;
  - the auto-save effect tracks the interval and the flag, and holds an interval timer that its
    cleanup clears;
  - each advanced-monitoring effect tracks the log, reads the interval `untracked`, and holds a
    timeout, a 5-second interval timer and a `beforeunload` listener, all released by one cleanup.

Files:

- `seqs.dfy` (module `Seqs`) holds `Filter`, the model of `Array.prototype.filter`, and its laws.
- `todo.dfy` (module `TodoStore`) models the todo list. The list operations are functions, and the
  service is a class whose methods reassign `todos` and `nextId`. Its invariant is that ids are
  distinct and below the counter.
- `analytics.dfy` (module `Analytics`) models the analytics service:
  - Signals are fields of the class `AnalyticsService`.
  - The reactive runtime's bookkeeping is the value `Scheduler`. For each effect it records the
    signals its last run read tracked, whether it is scheduled, the resources its registered
    cleanup will release, and the resources currently live.
  - A signal write schedules exactly the effects that read that signal tracked.
  - Running a scheduled effect first runs its previous cleanup, then records what its body reads
    and acquires.
  - What each effect body does is a pure function: `LoggingRun`/`LoggingDecision`, `AutoSaveRun`
    and `MonitoringRun`.

## Model

| member | source | states |
|---|---|---|
| Seqs.Filter | src/app/services/todo.service.ts:72 | the filtered list is no longer than the input, and each element satisfies the predicate and comes from the input |
| Seqs.FilterMembership | src/app/services/todo.service.ts:72 | an element is in the filtered list iff it is in the input and satisfies the predicate |
| Seqs.FilterIsSubsequence | src/app/services/todo.service.ts:78 | filtering keeps the surviving elements in their original order |
| Seqs.FilterAllKept | src/app/services/todo.service.ts:72 | filtering by a predicate every element satisfies returns the input unchanged |
| Seqs.FilterConcat | src/app/services/todo.service.ts:57 | filtering distributes over appending |
| Seqs.FilterIdempotent | src/app/services/todo.service.ts:78 | filtering twice by the same predicate is filtering once |
| Seqs.FilterPartition | src/app/services/todo.service.ts:27-32 | the counts kept by a predicate and by its negation add up to the length |
| Seqs.FilterComplementEmpty | src/app/services/todo.service.ts:76-80 | nothing that survives the negation satisfies the predicate |
| TodoStore.FilterKeepsIds | src/app/services/todo.service.ts:70-80 | removing todos keeps the ids distinct and below the counter |
| TodoStore.Flipped | src/app/services/todo.service.ts:64 | the spread copy keeps id, title and date and negates `completed` |
| TodoStore.Toggled | src/app/services/todo.service.ts:60-68 | toggling keeps the length; each todo with the id has `completed` flipped, and every other todo is unchanged |
| TodoStore.ToggledKeepsFields | src/app/services/todo.service.ts:62-66 | toggling never changes id, title or date, and `completed` changes exactly on the todos carrying the id |
| TodoStore.ToggleTwice | src/app/services/todo.service.ts:60-68 | toggling the same id twice restores the list |
| TodoStore.ToggleUnknownId | src/app/services/todo.service.ts:60-68 | toggling an id no todo carries leaves the list unchanged |
| TodoStore.WithoutId | src/app/services/todo.service.ts:71-73 | the list after delete is no longer than before, and each todo in it comes from the list and carries another id |
| TodoStore.DeleteSpec | src/app/services/todo.service.ts:70-74 | deleting keeps exactly the todos with another id, in order, and is a no-op for an absent id |
| TodoStore.DeleteOne | src/app/services/todo.service.ts:70-74 | with distinct ids, deleting a present id shortens the list by exactly one |
| TodoStore.Incomplete | src/app/services/todo.service.ts:77-79 | the list after clear-completed is no longer than before, and each todo in it comes from the list and is not completed |
| TodoStore.CompletedCount | src/app/services/todo.service.ts:27-29 | the completed count is at most the length, and 0 exactly when no todo is completed |
| TodoStore.ActiveCount | src/app/services/todo.service.ts:30-32 | the active count is at most the length, and 0 exactly when every todo is completed |
| TodoStore.CountsAddUp | src/app/services/todo.service.ts:26-32 | completed plus active equals total |
| TodoStore.AddCounts | src/app/services/todo.service.ts:48-58 | appending a new (not completed) todo keeps the completed count and adds one active todo |
| TodoStore.ClearCompletedSpec | src/app/services/todo.service.ts:76-80 | clearing keeps exactly the active todos, in order, leaves no completed todo, keeps the active count, and is idempotent |
| TodoStore.RoundedPercent | src/app/services/todo.service.ts:33-37 | the percentage is 0 for an empty list, at most 100, and the integer nearest to 100·completed/total, halves rounded up |
| TodoStore.InsertNewest | src/app/services/todo.service.ts:40-44 | inserting keeps the same multiset, and everything in the result is the new todo or came from the list |
| TodoStore.PrependKeepsOrder | src/app/services/todo.service.ts:41-43 | putting a todo no older than the head in front keeps the list newest-first |
| TodoStore.InsertKeepsOrder | src/app/services/todo.service.ts:41-43 | inserting into a newest-first list keeps it newest-first |
| TodoStore.NewestFirst | src/app/services/todo.service.ts:40-44 | the sorted list is a permutation of the todos, ordered by creation time, newest first |
| TodoStore.InsertKeepsTies | src/app/services/todo.service.ts:41-43 | inserting keeps the relative order of todos with the same creation time |
| TodoStore.SortIsStable | src/app/services/todo.service.ts:40-44 | todos created at the same time keep their original relative order (the sort is stable) |
| TodoStore.SampleTodos | src/app/services/todo.service.ts:82-103 | three todos with consecutive fresh ids; only the first is completed |
| TodoStore.TodoService.constructor | src/app/services/todo.service.ts:23 | the list starts empty and the counter at 1 |
| TodoStore.TodoService.TotalTodos | src/app/services/todo.service.ts:26 | the total is the completed count plus the active count |
| TodoStore.TodoService.CompletedTodos | src/app/services/todo.service.ts:27-29 | the completed count is at most the total |
| TodoStore.TodoService.ActiveTodos | src/app/services/todo.service.ts:30-32 | the active count is the total minus the completed count |
| TodoStore.TodoService.CompletionPercentage | src/app/services/todo.service.ts:33-37 | the percentage is within 0..100, 0 with no todos, and otherwise the nearest integer to 100·completed/total |
| TodoStore.TodoService.SortedTodos | src/app/services/todo.service.ts:40-44 | a newest-first permutation of the todos |
| TodoStore.TodoService.AddTodo | src/app/services/todo.service.ts:48-58 | appends an uncompleted todo carrying the counter's id, bumps the counter, and keeps ids distinct |
| TodoStore.TodoService.ToggleTodo | src/app/services/todo.service.ts:60-68 | the list becomes the toggled list; the counter is unchanged; the invariant holds |
| TodoStore.TodoService.DeleteTodo | src/app/services/todo.service.ts:70-74 | the list loses the todos with the id; the counter is unchanged; the invariant holds |
| TodoStore.TodoService.ClearCompleted | src/app/services/todo.service.ts:76-80 | the list keeps only the active todos; the counter is unchanged; the invariant holds |
| TodoStore.TodoService.LoadSampleData | src/app/services/todo.service.ts:82-103 | the list is replaced by the three samples with the next three ids; the counter advances by 3 |
| Analytics.JsRemainder | src/app/services/analytics.service.ts:62 | `%` of a length is NaN exactly for divisor 0, and otherwise the remainder modulo the divisor's magnitude |
| Analytics.LoggingRun | src/app/services/analytics.service.ts:49-66 | the logging effect depends on the event log only (the flag and batch size are read `untracked`) and acquires nothing |
| Analytics.LoggingDecision | src/app/services/analytics.service.ts:56-64 | logs the last event iff logging is on and the log is non-empty; reports a batch iff it also logs and the log length is a multiple of a non-zero batch size |
| Analytics.AutoSaveRun | src/app/services/analytics.service.ts:83-112 | the auto-save effect depends on the interval and the flag; when enabled it starts one interval timer with the configured period and registers a cleanup clearing it, and otherwise it starts nothing and registers nothing |
| Analytics.MonitoringRun | src/app/services/analytics.service.ts:121-150 | the monitoring effect depends on the log only; it acquires a timeout with the interval, a 5000 ms interval timer and an unload listener, and its one cleanup releases all three |
| Analytics.Acquire | src/app/services/analytics.service.ts:95-103 | acquired resources belong to the running effect and carry fresh handles |
| Analytics.AcquireOne | src/app/services/analytics.service.ts:95-103 | acquiring one resource yields exactly that resource |
| Analytics.AcquireSingleTimer | src/app/services/analytics.service.ts:95-111 | what one auto-save run acquires is at most a single interval timer |
| Analytics.ReleaseKeepsOwned | src/app/services/analytics.service.ts:72-74 | running an effect's cleanup keeps every other live resource owned by its cleanup |
| Analytics.AcquireKeepsOwned | src/app/services/analytics.service.ts:108-111 | registering the new run's cleanup for what it acquired keeps every live resource owned |
| Analytics.RecordWithinDeclared | src/app/services/analytics.service.ts:50-54 | recording a run's tracked reads keeps every dependency set within the body's tracked reads |
| Analytics.Released | src/app/services/analytics.service.ts:108-111 | a registered cleanup releases only resources of its own effect acquired by that run; with no cleanup registered nothing is released |
| Analytics.ReleasedIsAcquired | src/app/services/analytics.service.ts:144-149 | a cleanup that releases every acquired resource releases exactly what was acquired |
| Analytics.AcquireSplit | src/app/services/analytics.service.ts:128-141 | acquiring a list acquires its head under the first handle, then the rest |
| Analytics.AcquireCount | src/app/services/analytics.service.ts:128-141 | resources acquired in one run are pairwise distinct |
| Analytics.Scheduler.Notify | src/app/services/analytics.service.ts:52-54 | a write schedules exactly the effects whose last run read the signal tracked; an effect whose body reads it only `untracked` is not scheduled; no dependency set, cleanup, live resource or handle changes |
| Analytics.Scheduler.Initial | src/app/services/analytics.service.ts:34-37 | the constructor's two effects are scheduled and hold nothing |
| Analytics.Scheduler.Cleanup | src/app/services/analytics.service.ts:72-74 | the previous cleanup releases exactly what the effect held, and the effect then holds nothing |
| Analytics.Scheduler.Record | src/app/services/analytics.service.ts:105-111 | the new run's resources are fresh and owned by the effect; its cleanup releases exactly those |
| Analytics.Scheduler.Rerun | src/app/services/analytics.service.ts:72-74 | a rerun runs the old cleanup before acquiring: what was held is released, the new run's resources are held, its tracked reads are recorded, and it is no longer scheduled |
| Analytics.Scheduler.Create | src/app/services/analytics.service.ts:120-121 | a new monitoring effect is created and scheduled, with no dependency and no cleanup yet; the other effects, the live resources and the handle counter are unchanged |
| Analytics.Scheduler.Teardown | src/app/services/analytics.service.ts:105-107 | destruction releases every live resource and leaves no effect scheduled or subscribed |
| Analytics.AnalyticsService.constructor | src/app/services/analytics.service.ts:21-37 | empty log, logging on, batch size 5, interval 10000 ms, both effects scheduled |
| Analytics.AnalyticsService.TrackEvent | src/app/services/analytics.service.ts:154-162 | appends the event with the given time, changes no setting, and schedules the log's subscribers but never the auto-save effect |
| Analytics.AnalyticsService.ToggleLogging | src/app/services/analytics.service.ts:164-166 | negates the flag and schedules at most the auto-save effect (the logging effect reads the flag `untracked`) |
| Analytics.AnalyticsService.SetBatchSize | src/app/services/analytics.service.ts:168-170 | sets the batch size and schedules no effect |
| Analytics.AnalyticsService.SetAutoSaveInterval | src/app/services/analytics.service.ts:172-174 | sets the interval; an unchanged value notifies nobody, and otherwise at most the auto-save effect is scheduled |
| Analytics.AnalyticsService.ClearEvents | src/app/services/analytics.service.ts:176-178 | empties the log, changes no setting, and schedules the log's subscribers |
| Analytics.AnalyticsService.RunLoggingEffect | src/app/services/analytics.service.ts:48-67 | a pending logging effect reruns and returns its logging decision on the current signals; otherwise nothing happens |
| Analytics.AnalyticsService.RunAutoSaveEffect | src/app/services/analytics.service.ts:82-113 | a pending auto-save effect reruns on the current interval and flag; otherwise nothing happens |
| Analytics.AnalyticsService.RunMonitoringEffect | src/app/services/analytics.service.ts:120-151 | a pending monitoring effect reruns with the current interval; otherwise nothing happens |
| Analytics.AnalyticsService.SetupAdvancedMonitoring | src/app/services/analytics.service.ts:120-151 | registers a new monitoring effect, scheduled for its first run |
| Analytics.AnalyticsService.Destroy | src/app/services/analytics.service.ts:105-107 | destroying the service runs every cleanup: no timer or listener stays live |
| Analytics.LoggingStep | src/app/services/analytics.service.ts:48-67 | after a logging run the effect depends on the log alone, and the live resources are unchanged |
| Analytics.AutoSaveStep | src/app/services/analytics.service.ts:95-111 | a rerun clears the previous timer; it then holds one interval timer with the configured period if logging is on, and none if it is off |
| Analytics.MonitoringStep | src/app/services/analytics.service.ts:128-149 | a rerun releases the previous three resources, then holds three fresh live ones, all released by its cleanup |
| Analytics.AtMostOneAutoSaveTimer | src/app/services/analytics.service.ts:95-111 | at any time at most one auto-save timer is live, and it is an interval timer |

## Left out

- The console is not modelled. `RunLoggingEffect` returns what the logging effect would print. The other effects' messages are not modelled at all.
- Timer and listener callbacks are not modelled: the auto-save tick, `#simulateSaveToServer`, the monitoring timeout and tick, and the unload handler. Timers and the listener are abstract resources identified by a handle. The model tracks only when they are acquired and released.
- The Angular runtime is reduced to the `Scheduler` bookkeeping:
  - effect scheduling order, change detection and microtasks are not modelled;
  - an effect runs only when a `Run…Effect` method is called for it while it is scheduled;
  - the injection context is not modelled.
- `Date` is an integer millisecond timestamp passed in as `now`. `new Date()` and `Date.now()` are the caller's clock. `loadSampleData` reads the clock three times; the model takes the three reads as one instant.
- `Math.round` on a floating-point quotient is modelled as exact rational rounding, halves up. Binary rounding of `completed / total * 100` is not modelled.
- JavaScript numbers are unbounded integers:
  - `nextId++` cannot lose precision beyond 2^53;
  - `setBatchSize` and `setAutoSaveInterval` accept integers only. The workshop's controls only pass integers: a range of 1..10 and a select of 3000, 5000, 10000 or 15000. `NaN`, fractions, and the difference between -0 and 0 from other callers are not modelled. A batch size of 0 is modelled: no batch is ever reported.
- `JsRemainder` takes only a non-negative dividend, because the source only applies `%` to an array length.
- The default `data = {}` of `trackEvent` is not modelled. The caller always passes the payload, whose type is a parameter `D`.
- Equality of signal values: a list write always notifies, because it stores a new array. A number write notifies only when the value changes. Booleans are always negated, so they always change.
- The `asReadonly()` views are not modelled separately; they are the class fields themselves.
- `setupAdvancedMonitoring` is modelled as creating one more monitoring effect per call, although no component of the workshop calls it.
- The components, `counter.service.ts` and `app.ts` are not part of this model.
