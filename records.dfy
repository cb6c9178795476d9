/** The immutable records the loop keeps: TaskResult (one per completed
    task), TaskReport (one per reported turn in debug mode) and the error
    entries that map a task id to the exception registered for it. */
module Records {
  import opened Values
  import opened TaskStates
  import opened Fibers
  import opened Tasks

  /** `TaskResult`: readonly id, return value (`return`) and the task's own timer. */
  datatype TaskResult<T> = TaskResult(id: string, returned: Value, counter: T)

  /** `TaskReport`: readonly id and execution state. */
  datatype TaskReport = TaskReport(id: string, state: ExecutionState)

  /** One `attach($thrown, $id)` into the error registry. */
  datatype ErrorRecord = ErrorRecord(id: string, thrown: Thrown)

  /** `TaskResult::createFrom($task)`: reading the task's return value throws
      unless its fiber returned. */
  function CreateFrom<T>(t: TaskState<T>): (r: Result<TaskResult<T>>)
    ensures r.Ok? <==> t.fiber.Terminated?
    ensures r.Ok? ==> r.value.id == t.id && r.value.returned == t.fiber.result && r.value.counter == t.counter
    ensures r.Err? ==> r.thrown == FiberReturnError
  {
    match GetReturn(t.fiber)
    case Ok(v) => Ok(TaskResult(t.id, v, t.counter))
    case Err(e) => Err(e)
  }
}
