/** The suspendable computation a task wraps, abstracted as a script. A body
    runs, from a start or a resume, up to its next suspension point; on the
    way it may raise runtime faults (which go to the installed error
    handler) and toggle its task's run state (as `wait` does). */
module Fibers {
  import opened Values
  import opened PhpArrays

  datatype Body =
    | Fault(error: RuntimeError, next: Body)   // a runtime-level fault, then the body goes on
    | ToggleRunState(next: Body)               // `toggleRunningState()` on the current task
    | Yield(value: Value, next: Body)          // `Fiber::suspend($value)`
    | Return(value: Value)                     // the body returns
    | Raise(thrown: Thrown)                    // the body throws

  /** The fiber's status; once started it remembers the arguments it got. */
  datatype Fiber =
    | NotStarted(body: Body)
    | Suspended(rest: Body, args: Params)
    | Terminated(result: Value, args: Params)
    | Crashed(args: Params)

  predicate IsStarted(f: Fiber) {
    !f.NotStarted?
  }

  predicate IsTerminated(f: Fiber) {
    f.Terminated? || f.Crashed?
  }

  function Size(b: Body): (n: nat)
    ensures n >= 1
  {
    match b
    case Fault(_, next) => 1 + Size(next)
    case ToggleRunState(next) => 1 + Size(next)
    case Yield(_, next) => 1 + Size(next)
    case Return(_) => 1
    case Raise(_) => 1
  }

  /** An upper bound on the turns the fiber still needs from a loop that
      keeps it queued: each start or resume lowers it, and a terminated
      fiber needs exactly the harvesting turn. */
  function Weight(f: Fiber): (w: nat)
    ensures w >= 1
  {
    match f
    case NotStarted(body) => Size(body) + 2
    case Suspended(rest, _) => Size(rest) + 1
    case Terminated(_, _) => 1
    case Crashed(_) => 1
  }

  /** `Fiber::getReturn()`: the return value of a fiber that returned; any
      other fiber throws a FiberError. */
  function GetReturn(f: Fiber): (r: Result<Value>)
    ensures r.Ok? <==> f.Terminated?
    ensures r.Ok? ==> r.value == f.result
    ensures r.Err? ==> r.thrown == FiberReturnError
  {
    if f.Terminated? then Ok(f.result) else Err(FiberReturnError)
  }
}
