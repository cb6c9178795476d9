# fiberloop in Dafny

A model of the core of `ascetik/fiberloop`, a single-threaded cooperative
task scheduler for PHP built on Fibers, with proofs of what its code
promises.

A `FiberLoop` holds an active queue of `FiberTask`s. `run()` makes passes
over that queue until it is empty. In each pass every task gets one `run`
call, followed by one `reportState` call. A task's `run` does three things:

- counts the turn, but only while the task is in RUN and has started;
- checks the retry limit, then either aborts the task or throws
  `TaskMaxTriesException`;
- otherwise starts, resumes or harvests the task's fiber.

When error handling is switched on, the runtime faults of a task body reach
`TaskErrorHandler::intercept`. That hands them to the task's strategy:

- ThrowOnErrorStrategy empties the queue and rethrows.
- CancelOnErrorStrategy marks the task ONERROR, cancels it and records the
  error.

Results, errors and debug reports accumulate in append-only registries. The
query methods read them.

## Layout

The model has two layers.

**Value layer.** Pure functions and lemmas:

| module | contents |
|---|---|
| `Values` | The values that cross the scheduler's boundary. |
| `TaskStates` | TaskExecutionState, TaskRunState, `isStarted`, and the case-name lookup of `getReports`. |
| `Decimal` | PHP's int-to-string conversion. |
| `PhpArrays` | PHP ordered arrays under `$a[$k] = $v`, and the spread `[...$bound, ...$late]`. |
| `Queues` | The active queue: distinct handles in insertion order, with `detach`. |
| `Fibers` | A fiber abstracted as a script (see below). |
| `Tasks` | A task's fields as a value, and its setters. |
| `Records` | `TaskResult::createFrom`, the error records and `TaskReport`. |
| `MaxTries` | The limit exception's message, and its reading back. |
| `Interception` | TaskErrorHandler's flags over the runtime's handler stack. |
| `TaskStep` | One `FiberTask::run`, together with `process` and the two strategies' `react`, as a function of the task's state and the loop's registries. |
| `LoopSpec` | `FiberLoop::run` as a function of the loop's whole state, and the script size left in the queue, which every pass lowers. |
| `Queries` | `getReturns`, `getReturnOf`, `getErrors`, `getErrorIds`, `getErrorFor` and `getReports` as functions. |

A fiber is a script (`Fibers.Body`). Its steps are:

- `Fault`: a runtime-level fault, reported to the installed handler;
- `ToggleRunState`: what `wait` does to its task;
- `Yield`: `Fiber::suspend`;
- `Return`;
- `Raise`: an exception thrown by the task's own code.

Starting or resuming a fiber runs its script up to the next `Yield`,
`Return` or `Raise`.

**Heap layer.** Module `Scheduler` holds the PHP classes as Dafny classes
with the same fields and methods:

- `FiberLoop`;
- `FiberTask`;
- `ErrorStrategy`, which stands for the abstract strategy and its two
  subclasses;
- `TaskErrorHandler`;
- `ErrorHandlerStack`, the runtime's installed-handler stack.

Every method that changes state is proved to leave exactly the state that
the value layer computes from the state it started in. Three functions
connect the two layers:

- `FiberTask.View()`: a task as a value;
- `FiberLoop.Registries()`: the loop's queue and registries;
- `FiberLoop.Abs()`: the loop's whole state.

For example, `FiberLoop.Run` ends in `LoopSpec.Run(old(Abs()))`.

The query methods are loops, each proved equal to its function in
`Queries`.

**Test scenarios.** Modules `Scenarios` and `ErrorScenarios` compute, through
`LoopSpec`, the runs exercised by the repository's tests, and prove their
assertions.

**Active-queue iteration.** The queue is an external container (`Box`).
Its iteration is modelled as the tests rely on it:

- a pass visits the tasks queued when the pass began, in order;
- a task that was cancelled before it is reached is skipped;
- a task deferred during the pass waits for the next pass.

**Where the code and the documented design differ, the model follows the
code.**

- `run()` restores the error handler only on a normal return. There is no
  `finally`, so an exception that escapes leaves `intercept` installed
  (`ErrorScenarios.ThrowOnErrorRaises` shows the stack still holding it).
  The design says the previous handler is restored on every exit path.
- `restore()` never clears `isRegistered`. After one run, `register` is a
  no-op for good, while every later `restore` still pops a handler it did
  not push (`Interception.RegisterAfterCycle`).

## Model

| member | source | states |
|---|---|---|
| Fibers.GetReturn | src/DTOs/FiberTask.php:185-188 | a fiber yields a value if and only if it returned, and that value is its return value; any other fiber throws FiberError |
| Records.CreateFrom | src/ValueObjects/TaskResult.php:45-48 | a result exists exactly for a returned fiber, and carries the task's current id, the fiber's return value and the task's own timer; otherwise `getReturn` throws |
| Tasks.IncrementTriesCounts | src/DTOs/FiberTask.php:234-240 | the turn goes up by exactly one if and only if the task is in RUN and started; otherwise it is unchanged; no other field changes |
| Tasks.FirstTurnNotCounted | src/DTOs/FiberTask.php:106-113 | a new task's first run counts no turn |
| Tasks.ToggleRunningStateTwice | src/DTOs/FiberTask.php:147-152 | toggling twice restores the task |
| Tasks.TaskOnErrorFrame | src/Types/AbstractErrorHandlingStrategy.php:40-43 | `taskOnError` makes the state ONERROR and changes no other field |
| Tasks.IdentifierCast | src/DTOs/FiberTask.php:116-120 | an int id and its decimal string give the same id |
| TaskStates.Toggle | src/DTOs/FiberTask.php:147-152 | toggling always changes the run state |
| TaskStates.ToggleTwice | src/DTOs/FiberTask.php:149-151 | the run-state toggle is an involution |
| TaskStates.CasesAreTheEightStates | src/Enums/TaskExecutionState.php:24-31 | there are exactly eight cases, all distinct, and the case list holds every one |
| TaskStates.IsStartedCases | src/Enums/TaskExecutionState.php:33-41 | `isStarted` holds for STARTING, RESUMING and COMPLETE and for no other case |
| TaskStates.NameInjective | src/Enums/TaskExecutionState.php:24-31 | different cases have different names |
| TaskStates.Upper | src/FiberLoop.php:160 | `strtoupper` keeps the length and upper-cases each character |
| TaskStates.FromNameSelects | src/FiberLoop.php:157-166 | a text selects a case if and only if the text, upper-cased, is the case's name |
| TaskStates.NameRoundTrip | src/FiberLoop.php:159-163 | looking up a case's own name gives back that case |
| Decimal.IntToString | src/Errors/Exceptions/TaskMaxTriesException.php:27 | an int prints as a non-empty run of digits with an optional minus sign |
| Decimal.IntToStringRoundTrip | src/DTOs/FiberTask.php:118 | the decimal text of an int reads back as that int, so different ints print differently |
| MaxTries.MessageRoundTrip | src/Errors/Exceptions/TaskMaxTriesException.php:25-28 | the message gives back the task's id verbatim (whatever characters it holds) and its limit |
| MaxTries.MessageInjective | src/Errors/Exceptions/TaskMaxTriesException.php:27 | two messages are equal if and only if they name the same id and the same limit |
| PhpArrays.GetAssign | src/FiberLoop.php:113 | after `$a[$k] = $v`, `$a[$k]` is `$v` and every other key reads as before |
| PhpArrays.KeysAssign | src/FiberLoop.php:113 | assigning a new key appends it; assigning a present key keeps the key order |
| PhpArrays.ArrayFromGet | src/FiberLoop.php:108-117 | an array built by assignments maps each key to the last value assigned to it |
| PhpArrays.ArrayFromKeys | src/FiberLoop.php:108-117 | the keys of an array built by assignments are the assigned keys in order of first assignment |
| PhpArrays.DedupMembers | src/FiberLoop.php:176-183 | removing repeats keeps exactly the same keys, each once |
| PhpArrays.AssignFresh | src/FiberLoop.php:113 | assigning a key not yet present appends the pair |
| PhpArrays.ArrayFromDistinct | src/FiberLoop.php:110-116 | assignments to pairwise different keys build exactly the sequence of those pairs |
| PhpArrays.MergeNamed | src/DTOs/FiberTask.php:216 | in `[...$bound, ...$late]` a string key takes the late value when given late, and the bound one otherwise |
| PhpArrays.MergePositional | src/DTOs/FiberTask.php:216 | `[...$bound, ...$late]` keeps all positional arguments, bound ones first |
| Queues.RemoveMembers | src/FiberLoop.php:79-83 | after `cancel(t)` exactly the other tasks are queued, still without repeats |
| Queues.RemoveAbsent | src/FiberLoop.php:81 | cancelling a task that is not queued changes nothing |
| Queues.RemoveAt | src/FiberLoop.php:79-83 | cancelling the task at position i closes the gap; the other tasks keep their relative order |
| Queues.RemoveTwice | src/FiberLoop.php:79-83 | cancelling twice is cancelling once |
| Queries.ErrorIds | src/FiberLoop.php:186-195 | `getErrorIds` holds one id per registered error, in registration order, repeats included |
| Queries.ReturnOfLast | src/FiberLoop.php:119-126 | `getReturnOf(id)` is the return of the last result recorded under `id`, and null when there is none |
| Queries.ReturnsKeys | src/FiberLoop.php:108-117 | `getReturns` has every recorded id as a key, each once, in order of first completion |
| Queries.ReturnsInOrder | src/FiberLoop.php:108-117 | with pairwise different ids, `getReturns` lists every result in recording order |
| Queries.ErrorForLast | src/FiberLoop.php:197-200 | `getErrorFor(id)` is the last exception registered under `id`, and null when there is none |
| Queries.ErrorForIds | src/FiberLoop.php:186-200 | `getErrorFor(id)` is non-null if and only if `id` is among `getErrorIds()` |
| Queries.WithStateMembers | src/FiberLoop.php:167-171 | filtering by a state keeps exactly the reports in that state, and never adds any |
| Queries.WithStateConcat | src/FiberLoop.php:168-170 | filtering a registry filters each part of it |
| Queries.ReportsByName | src/FiberLoop.php:155-172 | filtering by a name, whatever its letter case, is filtering by the case it names |
| Queries.ReportsUnknownName | src/FiberLoop.php:155-172 | a name that is no case's name filters nothing out, like a null argument |
| Interception.On | src/Errors/TaskErrorHandler.php:76-80 | `on` sets `isOn` and changes neither `isRegistered` nor the stack |
| Interception.Off | src/Errors/TaskErrorHandler.php:87-91 | `off` clears `isOn` and changes neither `isRegistered` nor the stack |
| Interception.RegisterEffect | src/Errors/TaskErrorHandler.php:98-104 | `register` pushes `intercept` and sets the flag exactly when on and not registered, and otherwise changes nothing; once pushed, `intercept` is on top |
| Interception.RegisterIdempotent | src/Errors/TaskErrorHandler.php:100-103 | two consecutive `register` calls push at most one handler |
| Interception.RestoreEffect | src/Errors/TaskErrorHandler.php:111-116 | `restore` pops if the handler was registered and leaves everything unchanged if not; the flags never change |
| Interception.RegisterRestoreRoundTrip | src/Errors/TaskErrorHandler.php:98-116 | switched on, `register` then `restore` gives the runtime its stack back, but `isRegistered` stays set |
| Interception.RegisterAfterCycle | src/Errors/TaskErrorHandler.php:98-116 | after one register/restore cycle, `register` is a no-op while `restore` still pops |
| Interception.OnOffFrame | src/Errors/TaskErrorHandler.php:87-104 | `off` undoes `on`; a handler that is off is never registered |
| TaskStep.React | src/Errors/Strategies/CancelOnErrorStrategy.php:29-33 | cancel strategy: the task becomes ONERROR, only it leaves the queue, one error keyed by its id is recorded, nothing is thrown. Throw strategy: the queue is emptied, the task and registries are otherwise untouched, the same exception is rethrown |
| TaskStep.ReactRegistries | src/Errors/Strategies/ThrowOnErrorStrategy.php:30-34 | no strategy touches the results; the queue only shrinks; the error registry only grows; the task changes at most in its state |
| TaskStep.RunSegmentGrows | src/DTOs/FiberTask.php:212-224 | running a body only removes from the queue and only appends errors; it never records a result |
| TaskStep.RunTaskGrows | src/DTOs/FiberTask.php:190-232 | a turn removes only its own task from the queue, or everything; it only appends to the registries, at most one result |
| TaskStep.LimitAbort | src/DTOs/FiberTask.php:195-201 | at the limit under ABORT: ABORTED, removed from the queue, `run` returns null, nothing recorded, the fiber untouched even if it already returned |
| TaskStep.LimitThrow | src/DTOs/FiberTask.php:202-204 | at the limit under THROW: REJECTED and a max-tries exception naming the task's id and limit; the queue and registries are untouched |
| TaskStep.UnderLimit | src/DTOs/FiberTask.php:193-207 | under the limit, `run` is `process` with the turn counted |
| TaskStep.StartArguments | src/DTOs/FiberTask.php:212-217 | whatever its body does, a fresh fiber is started with the bound and late parameters spread together, the late value winning for a string key |
| TaskStep.RunSegmentArgs | src/DTOs/FiberTask.php:216 | running any body leaves the fiber started and holding the arguments it was started with |
| TaskStep.StartState | src/DTOs/FiberTask.php:212-216 | a fresh fiber whose body first suspends or returns leaves its task STARTING and the registries unchanged |
| TaskStep.StartUnpackError | src/DTOs/FiberTask.php:214-216 | a positional argument spread after a named one throws before the fiber starts, leaving the task STARTING with a fresh fiber and nothing else changed |
| TaskStep.ResumeContinues | src/DTOs/FiberTask.php:219-224 | a suspended fiber becomes RESUMING and goes on where it stopped, with the arguments it was started with |
| TaskStep.Harvest | src/DTOs/FiberTask.php:225-231 | a returned fiber is harvested: COMPLETE, exactly one result with its id, return value and timer, the task leaves the queue, `run` returns its id |
| TaskStep.HarvestCrashed | src/ValueObjects/TaskResult.php:47 | a fiber that threw cannot be harvested: `getReturn` throws and nothing is recorded or removed |
| TaskStep.NoHarvestOnFinishingTurn | src/DTOs/FiberTask.php:210-232 | the turn on which a body returns records no result |
| TaskStep.RunSegmentWeight | src/DTOs/FiberTask.php:212-224 | running a body leaves its task queued with less work left, or out of the queue, or raises |
| TaskStep.RunSegmentStaysOut | src/Errors/Strategies/CancelOnErrorStrategy.php:31 | a task cancelled by its strategy stays out of the queue for the rest of its turn |
| TaskStep.RunTaskWeight | src/DTOs/FiberTask.php:190-232 | every turn that returns and keeps its task queued lowers that task's work left |
| LoopSpec.Turn | src/FiberLoop.php:214-218 | a visit keeps the queue free of repeats and of unknown tasks |
| LoopSpec.PassFrom | src/FiberLoop.php:213-234 | a pass keeps the queue free of repeats and of unknown tasks |
| LoopSpec.PassFromQueued | src/FiberLoop.php:213-218 | one-step unfolding of the pass at a task still queued: that task gets its turn, and an exception ends the pass (a helper the heap loop's proof steps through) |
| LoopSpec.PassFromSkipped | src/FiberLoop.php:213 | one-step unfolding of the pass at a task no longer queued: it is skipped (a helper the heap loop's proof steps through) |
| LoopSpec.Drive | src/FiberLoop.php:212-235 | the pass loop ends normally only with an empty queue |
| LoopSpec.Run | src/FiberLoop.php:208-238 | a run keeps the queue free of repeats and of unknown tasks |
| LoopSpec.SumWeightsUpdate | src/FiberLoop.php:212 | changing one queued task changes the total work left by the change in its work |
| LoopSpec.TurnDecreases | src/FiberLoop.php:212-235 | every visit that returns lowers the total script size left in the queue |
| LoopSpec.PassDecreases | src/FiberLoop.php:212-235 | every pass over a non-empty queue that returns lowers the total script size left in the queue |
| LoopSpec.TurnReports | src/FiberLoop.php:245-250 | a visit appends the task's (id, state) report if and only if debug is on and `run` returned; the registries only grow |
| LoopSpec.PassFromAppendOnly | src/FiberLoop.php:213-234 | a pass never loses a result, an error or a report |
| LoopSpec.DriveAppendOnly | src/FiberLoop.php:212-235 | the pass loop never loses a result, an error or a report |
| LoopSpec.RunPromises | src/FiberLoop.php:208-238 | `run` returns normally only with an empty queue and after one `register` and one `restore`; an escaping exception leaves the handler registered; nothing recorded is lost |
| LoopSpec.RunRestoresStack | src/FiberLoop.php:210-237 | with handling on, a run that returns gives the runtime its stack back and leaves the flag set |
| LoopSpec.RunEmpty | src/FiberLoop.php:208-238 | a run over an empty queue only registers and restores the handler |
| Scheduler.ErrorStrategy.constructor | src/Types/AbstractErrorHandlingStrategy.php:31-33 | a strategy is bound, for good, to the task given |
| Scheduler.ErrorStrategy.Id | src/Types/AbstractErrorHandlingStrategy.php:35-38 | `id()` is the bound task's id as it is now |
| Scheduler.ErrorStrategy.TaskOnError | src/Types/AbstractErrorHandlingStrategy.php:40-43 | the bound task becomes ONERROR and is returned |
| Scheduler.ErrorStrategy.React | src/Errors/Strategies/CancelOnErrorStrategy.php:29-33 | the task and the loop end as `TaskStep.React` says |
| Scheduler.FiberTask.constructor | src/DTOs/FiberTask.php:106-113 | a new task has limit 10, turn 0, RUN, THROW, INITIAL, an unstarted fiber and a fresh throw strategy bound to it |
| Scheduler.FiberTask.IdentifiedBy | src/DTOs/FiberTask.php:116-120 | only the id changes, to the string form of the argument |
| Scheduler.FiberTask.SetLimit | src/DTOs/FiberTask.php:122-126 | only the limit changes |
| Scheduler.FiberTask.CancelOnReachedLimit | src/DTOs/FiberTask.php:128-132 | only the limit action changes, to ABORT |
| Scheduler.FiberTask.CancelOnError | src/DTOs/FiberTask.php:134-138 | a fresh cancel strategy bound to this task replaces the old one |
| Scheduler.FiberTask.UseOnError | src/DTOs/FiberTask.php:140-145 | the given strategy, bound to this task, replaces the old one |
| Scheduler.FiberTask.ToggleRunningState | src/DTOs/FiberTask.php:147-152 | only the run state changes, RUN and WAIT swapping |
| Scheduler.FiberTask.IncrementTries | src/DTOs/FiberTask.php:234-240 | the task ends as `Tasks.IncrementTries` says |
| Scheduler.FiberTask.RunSegment | src/DTOs/FiberTask.php:216-223 | the task and the loop's registries end as `TaskStep.RunSegment` says |
| Scheduler.FiberTask.Process | src/DTOs/FiberTask.php:210-232 | the task, the loop's registries and the outcome are those of `TaskStep.Process` |
| Scheduler.FiberTask.Run | src/DTOs/FiberTask.php:190-208 | the task, the loop's registries and the outcome are those of `TaskStep.RunTask` |
| Scheduler.TaskErrorHandler.constructor | src/Errors/TaskErrorHandler.php:47-49 | a new handler is off and unregistered over the runtime's stack |
| Scheduler.TaskErrorHandler.On | src/Errors/TaskErrorHandler.php:76-80 | the handler ends as `Interception.On` says |
| Scheduler.TaskErrorHandler.Off | src/Errors/TaskErrorHandler.php:87-91 | the handler ends as `Interception.Off` says |
| Scheduler.TaskErrorHandler.Register | src/Errors/TaskErrorHandler.php:98-104 | the flags and the stack end as `Interception.Register` says |
| Scheduler.TaskErrorHandler.Restore | src/Errors/TaskErrorHandler.php:111-116 | the stack ends as `Interception.Restore` says |
| Scheduler.TaskErrorHandler.Intercept | src/Errors/TaskErrorHandler.php:62-67 | the fault becomes an execution exception with the same code, message, file and line, handed to the current task's strategy |
| Scheduler.FiberLoop.constructor | src/FiberLoop.php:40-48 | a new loop has empty queue and registries, its debug flag, and a handler that is off |
| Scheduler.FiberLoop.Abort | src/FiberLoop.php:50-54 | the queue is empty; the registries are untouched |
| Scheduler.FiberLoop.HandleErrors | src/FiberLoop.php:61-65 | the handler is switched on |
| Scheduler.FiberLoop.RegisterError | src/FiberLoop.php:67-70 | exactly one error record is appended |
| Scheduler.FiberLoop.Defer | src/FiberLoop.php:72-77 | one new task, with the defaults, is appended to the queue and returned; the queue's other tasks and their states are unchanged |
| Scheduler.FiberLoop.Cancel | src/FiberLoop.php:79-83 | the queue loses exactly the task; the registries are untouched |
| Scheduler.FiberLoop.RemoveFrom | src/FiberLoop.php:81 | the queue loses every occurrence of the task, and the other tasks keep their order |
| Scheduler.FiberLoop.AddResultFrom | src/FiberLoop.php:101-106 | one result is appended for a returned fiber; otherwise the exception of `getReturn` comes back and nothing is appended |
| Scheduler.FiberLoop.ReportState | src/FiberLoop.php:245-250 | one report is appended in debug mode, none otherwise; nothing else changes |
| Scheduler.FiberLoop.Debug | src/FiberLoop.php:202-206 | only the debug flag changes, to true |
| Scheduler.FiberLoop.RunTurn | src/FiberLoop.php:216 | the loop moves as one `TaskStep.RunTask` of the task says; no other task changes |
| Scheduler.FiberLoop.Visit | src/FiberLoop.php:214-218 | the loop ends as one `LoopSpec.Turn` says |
| Scheduler.FiberLoop.VisitAt | src/FiberLoop.php:213-218 | one step of the pass, as `LoopSpec.PassFrom` takes it |
| Scheduler.FiberLoop.RunPass | src/FiberLoop.php:213-234 | one pass ends as `LoopSpec.PassFrom` over the queue at its start says |
| Scheduler.FiberLoop.Drain | src/FiberLoop.php:212-235 | the pass loop ends as `LoopSpec.Drive` says |
| Scheduler.FiberLoop.RegisterHandler | src/FiberLoop.php:210 | only the handler changes, as `register` says |
| Scheduler.FiberLoop.RestoreHandler | src/FiberLoop.php:237 | only the handler changes, as `restore` says |
| Scheduler.FiberLoop.Run | src/FiberLoop.php:208-238 | the loop's final state and escaping exception are those of `LoopSpec.Run` |
| Scheduler.FiberLoop.GetReturns | src/FiberLoop.php:108-117 | returns `Queries.Returns` of the results |
| Scheduler.FiberLoop.GetReturnOf | src/FiberLoop.php:119-126 | returns `Queries.ReturnOf` |
| Scheduler.FiberLoop.GetErrors | src/FiberLoop.php:174-184 | returns `Queries.Errors` of the error registry |
| Scheduler.FiberLoop.GetErrorIds | src/FiberLoop.php:186-195 | returns `Queries.ErrorIds` |
| Scheduler.FiberLoop.GetErrorFor | src/FiberLoop.php:197-200 | returns `Queries.ErrorFor` |
| Scheduler.FiberLoop.GetReports | src/FiberLoop.php:155-172 | returns `Queries.Reports` for the filter given |
| Scenarios.RunCompletes | tests/FiberLoopTest.php:42-62 | with the default limit, the three-task run ends normally after four passes |
| Scenarios.CompletionOrder | tests/FiberLoopTest.php:54-61 | `getReturns` lists test n°3, test n°2, test n°1 in that order, with their values |
| Scenarios.MaxTriesRaised | tests/FiberLoopTest.php:66-85 | with `setLimit(3)` the run raises the first task's max-tries exception |
| Scenarios.RejectionMessage | src/Errors/Exceptions/TaskMaxTriesException.php:27 | that exception reads "Task with id test n°1 reached 3 tries." |
| Scenarios.RunAbortsOnThirdPass | tests/FiberLoopTest.php:87-110 | with `setLimit(2)` and ABORT, the run ends normally after three passes |
| Scenarios.AbortAfterMaxTries | tests/FiberLoopTest.php:103-109 | the aborted task leaves no return; test n°3 and test n°2 return |
| Scenarios.RunAbortsOnSecondPass | tests/FiberLoopTest.php:112-137 | with `setLimit(1)` and ABORT, the first task is aborted on the second pass |
| Scenarios.DebugRegistry | src/FiberLoop.php:245-250 | in debug mode the run leaves three STARTING reports, then ABORTED, RESUMING, COMPLETE, COMPLETE |
| Scenarios.DebugCounts | tests/FiberLoopTest.php:130-136 | those reports count 3 under the name "starting", 2 COMPLETE and 1 ABORTED |
| Scenarios.ReportCounts | tests/FiberLoopTest.php:112-137 | the debug run ends normally, with report counts 3, 2 and 1 |
| ErrorScenarios.InstallOnRun | src/Errors/TaskErrorHandler.php:98-116 | after `handleErrors()` on a fresh loop, `run` installs `intercept` on top, and `restore` empties the stack |
| ErrorScenarios.ThrowOnErrorRaises | tests/FiberLoopTest.php:211-224 | with the default strategy the run raises the execution exception for the undefined key, with the queue emptied and `intercept` still installed |
| ErrorScenarios.CancelRun | tests/FiberLoopTest.php:226-247 | under `cancelOnError` the run ends normally, the handler popped but still flagged registered |
| ErrorScenarios.CancelOnErrorRecords | tests/FiberLoopTest.php:236-245 | one error, the execution exception under the faulting task's id; one return, "finally"; the stack is empty again |
| ErrorScenarios.ExceptionEscapes | tests/FiberLoopTest.php:249-291 | an exception thrown by the task's own code leaves `run` under either strategy, with or without late parameters |
| ErrorScenarios.ReturnOfSecond | tests/FiberLoopTest.php:166-179 | two tasks that return at once give two returns, and `getReturnOf('second')` is 2 |
| ErrorScenarios.LateParameters | tests/FiberLoopTest.php:139-153 | parameters given to `run` reach a task deferred without any, and it returns |

## Left out

- Timers (`Krono`, `TimeCounter`, `getEllapsedTimeOf`, `getEllapsedTimes`, `totalTime`) depend on an external clock library and on floating-point durations. A timer is kept only as an identity: the value stored in a result is the task's own timer.
- `FiberLoop::wait` is a busy loop on `microtime`. Only its effect on the task is kept: a body can toggle its task's run state (`ToggleRunState`), as the two calls around the busy loop do.
- `FiberLoop::next` and the Fiber primitive are replaced by the script datatype `Fibers.Body`. A script cannot observe values from outside it, such as a service another task added, so a body that polls is written out as the yields it makes in the scenario at hand.
- A task body calling `defer`, `cancel` or `abort` on the loop is not modelled: the scripts cannot call back into the loop.
- Random task ids (`random_bytes`/`bin2hex`) are a parameter of `Defer` and of the `FiberTask` constructor.
- `countTasks` and `getCurrent` are not modelled. `getCurrent` is used only by `intercept`, which receives the current task as a parameter.
- Strategies other than the two built-in ones are not modelled.
- Scheduler.FiberTask.UseOnError: requires a strategy bound to this task, while `useOnError` accepts any strategy. A strategy bound to another task would mark, cancel and record errors for that other task when this one faults; the model keys every reaction by the faulting task, so that cross-task case is not captured.
- Task bodies are finite scripts, so the model cannot express a body that never finishes (a `wait` whose deadline is never reached, a task polling in WAIT forever). `run`'s termination in the model (`LoopSpec.PassDecreases`, `LoopSpec.TurnDecreases`) comes from that finiteness, not from the turn limit; the source's loop can run forever on such a body.
- The handler stack shared by several loops at once is not modelled; each loop is given the stack it runs over.
- Array values a task returns are not modelled: `Values.Value` has null, booleans, ints and strings only.
- Numeric-string keys (PHP turns `"5"` into `5`) are not modelled: a string key stays a string key.
- PHP's 64-bit int width is not modelled: the turn counter and limits are unbounded integers.
- Binding errors when a fiber starts (a wrong argument count or type, an unknown named parameter) are not modelled. Only the "positional after named" unpacking error is.
- An exception thrown by a fiber's `start` or `resume` for any reason other than the body's own `Raise` or an intercepted fault is not modelled.
- `TaskExecutionException`, `TaskReport`, `TaskReportRegistry` and `TaskRunState` are plain declarations, modelled as the datatypes `Thrown.Execution`, `Records.TaskReport`, the `reports` sequence and `TaskStates.RunState`.
- LoopSpec.Turn, LoopSpec.PassFrom, LoopSpec.Run: their ensures state only that the queue stays well formed. What they compute is stated by the lemmas about them, and the heap layer is proved equal to them.
