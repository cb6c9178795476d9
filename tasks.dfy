/** A task's state as a value: everything `FiberTask` stores, and the
    configuration steps and turn counting that change it. The timer a task
    owns is kept only by identity, as a value of type T. */
module Tasks {
  import opened Values
  import opened TaskStates
  import opened PhpArrays
  import opened Fibers
  import Decimal

  /** The two built-in error-handling strategies, bound to the task that
      installs them. */
  datatype StrategyKind = ThrowOnError | CancelOnError

  datatype TaskState<T> = TaskState(
    id: string,
    parameters: Params,
    limit: int,
    turn: int,
    runState: RunState,
    limitAction: LimitAction,
    executionState: ExecutionState,
    fiber: Fiber,
    strategy: StrategyKind,
    counter: T)

  const DefaultLimit: int := 10

  /** A freshly constructed task; `id` stands for the random identifier. */
  function NewTask<T>(id: string, body: Body, parameters: Params, counter: T): TaskState<T> {
    TaskState(id, parameters, DefaultLimit, 0, RUN, THROW, INITIAL, NotStarted(body), ThrowOnError, counter)
  }

  /** What `identifiedBy` accepts: a string or an int, cast to string. */
  datatype Identifier = Text(s: string) | Number(n: int)

  function IdString(id: Identifier): string {
    match id
    case Text(s) => s
    case Number(n) => Decimal.IntToString(n)
  }

  function IdentifiedBy<T>(t: TaskState<T>, id: Identifier): TaskState<T> {
    t.(id := IdString(id))
  }

  function SetLimit<T>(t: TaskState<T>, tries: int): TaskState<T> {
    t.(limit := tries)
  }

  function CancelOnReachedLimit<T>(t: TaskState<T>): TaskState<T> {
    t.(limitAction := ABORT)
  }

  function UseStrategy<T>(t: TaskState<T>, kind: StrategyKind): TaskState<T> {
    t.(strategy := kind)
  }

  function ToggleRunningState<T>(t: TaskState<T>): TaskState<T> {
    t.(runState := Toggle(t.runState))
  }

  /** `incrementTries`: one more turn is counted only for a task that runs
      (not waiting) and has started. */
  function IncrementTries<T>(t: TaskState<T>): TaskState<T> {
    if t.runState == RUN && TaskStates.IsStarted(t.executionState) then t.(turn := t.turn + 1) else t
  }

  /** `taskOnError`: the task is marked ONERROR and nothing else changes. */
  function TaskOnError<T>(t: TaskState<T>): TaskState<T> {
    t.(executionState := ONERROR)
  }

  /** The turn counter moves by exactly one, and only for a running,
      started task: it stays 0 on the first turn and is frozen in WAIT. */
  lemma IncrementTriesCounts<T>(t: TaskState<T>)
    ensures IncrementTries(t).turn == t.turn + 1 <==> t.runState == RUN && TaskStates.IsStarted(t.executionState)
    ensures IncrementTries(t).turn == t.turn <==> !(t.runState == RUN && TaskStates.IsStarted(t.executionState))
    ensures IncrementTries(t).(turn := t.turn) == t
  {
  }

  /** A new task counts no turn on its first run. */
  lemma FirstTurnNotCounted<T>(id: string, body: Body, parameters: Params, counter: T)
    ensures IncrementTries(NewTask(id, body, parameters, counter)).turn == 0
  {
  }

  /** Toggling the run state twice restores it. */
  lemma ToggleRunningStateTwice<T>(t: TaskState<T>)
    ensures ToggleRunningState(ToggleRunningState(t)) == t
  {
  }

  /** `taskOnError` changes the execution state only. */
  lemma TaskOnErrorFrame<T>(t: TaskState<T>)
    ensures TaskOnError(t).executionState == ONERROR
    ensures TaskOnError(t).(executionState := t.executionState) == t
  {
  }

  /** `identifiedBy(42)` and `identifiedBy('42')` give the same id. */
  lemma IdentifierCast(n: int)
    ensures IdString(Number(n)) == IdString(Text(Decimal.IntToString(n)))
  {
  }
}
