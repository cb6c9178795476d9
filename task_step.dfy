/** One call of `FiberTask::run` as a function of the task's state and the
    loop's registries: the turn counting, the limit check, the three branches
    of `process`, the body's run up to its next suspension, and the two
    strategies' reaction to a runtime fault. K is the identity of a task in
    the loop's queue. */
module TaskStep {
  import opened Values
  import opened TaskStates
  import opened PhpArrays
  import opened Fibers
  import opened Tasks
  import opened Records
  import opened Queues
  import MaxTries

  /** The part of the loop a task's turn may change: the active queue and the
      result and error registries. */
  datatype Registries<K, T> = Registries(queue: seq<K>, results: seq<TaskResult<T>>, errors: seq<ErrorRecord>)

  datatype ReactResult<K, T> = ReactResult(task: TaskState<T>, regs: Registries<K, T>, raised: Option<Thrown>)

  datatype StepResult<K, T> = StepResult(task: TaskState<T>, regs: Registries<K, T>, outcome: Outcome)

  /** The queue after the step is the old one, emptied or with `k` removed. */
  predicate QueueShrinks<K(==)>(before: seq<K>, after: seq<K>, k: K) {
    after == before || after == Remove(before, k) || after == []
  }

  /** The registries only grow, and the queue only shrinks. */
  ghost predicate Grows<K, T>(before: Registries<K, T>, after: Registries<K, T>, k: K) {
    QueueShrinks(before.queue, after.queue, k)
    && before.results <= after.results
    && before.errors <= after.errors
  }

  /** A queue that only shrank holds nothing new and stays free of repeats. */
  lemma QueueShrinksMembers<K>(before: seq<K>, after: seq<K>, k: K)
    requires QueueShrinks(before, after, k) && Distinct(before)
    ensures forall i :: 0 <= i < |after| ==> after[i] in before
    ensures Distinct(after)
  {
    RemoveMembers(before, k);
  }

  /** A strategy's `react` on behalf of its bound task `k`:
      ThrowOnErrorStrategy aborts the whole loop and rethrows;
      CancelOnErrorStrategy marks the task ONERROR, cancels it alone and
      records the exception under the task's id. */
  function React<K(==), T>(k: K, t: TaskState<T>, regs: Registries<K, T>, thrown: Thrown): (r: ReactResult<K, T>)
    ensures t.strategy == ThrowOnError ==>
              r.raised == Some(thrown) && r.task == t && r.regs == regs.(queue := [])
    ensures t.strategy == CancelOnError ==>
              r.raised == None && r.task == TaskOnError(t)
              && r.regs == Registries(Remove(regs.queue, k), regs.results, regs.errors + [ErrorRecord(t.id, thrown)])
  {
    match t.strategy
    case ThrowOnError =>
      ReactResult(t, regs.(queue := []), Some(thrown))
    case CancelOnError =>
      var t' := TaskOnError(t);
      ReactResult(t', regs.(queue := Remove(regs.queue, k), errors := regs.errors + [ErrorRecord(t'.id, thrown)]), None)
  }

  /** The body runs from `body` with the arguments the fiber was started
      with, until it suspends, returns or throws. A runtime fault goes to
      `intercept` when that is the handler on top, and the strategy's
      reaction either ends the fiber with the exception or lets the body go
      on; under any other handler the body goes on. */
  function RunSegment<K(==), T>(k: K, t: TaskState<T>, regs: Registries<K, T>, body: Body, args: Params, intercepting: bool)
    : (r: StepResult<K, T>)
    decreases body
  {
    match body
    case Fault(e, next) =>
      if intercepting then
        var re := React(k, t, regs, ExecutionFault(e));
        if re.raised.Some? then StepResult(re.task.(fiber := Crashed(args)), re.regs, Raised(re.raised.value))
        else RunSegment(k, re.task, re.regs, next, args, intercepting)
      else RunSegment(k, t, regs, next, args, intercepting)
    case ToggleRunState(next) => RunSegment(k, ToggleRunningState(t), regs, next, args, intercepting)
    case Yield(v, next) => StepResult(t.(fiber := Suspended(next, args)), regs, Returned(v))
    case Return(v) => StepResult(t.(fiber := Terminated(v, args)), regs, Returned(Null))
    case Raise(thrown) => StepResult(t.(fiber := Crashed(args)), regs, Raised(thrown))
  }

  /** `process`: start a fresh fiber with the bound parameters spread
      together with the late ones, resume a suspended one with no value, or
      harvest a finished one into the results and cancel the task. */
  function Process<K(==), T>(k: K, t: TaskState<T>, regs: Registries<K, T>, late: Params, intercepting: bool)
    : StepResult<K, T>
  {
    match t.fiber
    case NotStarted(body) =>
      var t1 := t.(executionState := STARTING);
      var args := Merge(t.parameters, late);
      if !PositionalFirst(args) then StepResult(t1, regs, Raised(ArgumentUnpackError))
      else RunSegment(k, t1, regs, body, args, intercepting)
    case Suspended(rest, args) =>
      RunSegment(k, t.(executionState := RESUMING), regs, rest, args, intercepting)
    case _ =>
      var t1 := t.(executionState := COMPLETE);
      match CreateFrom(t1)
      case Err(e) => StepResult(t1, regs, Raised(e))
      case Ok(result) =>
        StepResult(t1, regs.(results := regs.results + [result], queue := Remove(regs.queue, k)), Returned(Str(t1.id)))
  }

  /** `run`: count the turn, then check the limit before anything else. */
  function RunTask<K(==), T>(k: K, t: TaskState<T>, regs: Registries<K, T>, late: Params, intercepting: bool)
    : StepResult<K, T>
  {
    var t1 := IncrementTries(t);
    if t1.turn >= t1.limit then
      if t1.limitAction == ABORT then
        StepResult(t1.(executionState := ABORTED), regs.(queue := Remove(regs.queue, k)), Returned(Null))
      else
        var t2 := t1.(executionState := REJECTED);
        StepResult(t2, regs, Raised(MaxTries.MaxTriesFor(t2)))
    else Process(k, t1, regs, late, intercepting)
  }

  // ---------------------------------------------------------------------
  // What a turn does to the registries

  /** A fault under the cancel strategy leaves only one more error, keyed
      by the task's id; under the throw strategy the queue is emptied and
      the error registry is left alone. */
  lemma ReactRegistries<K, T>(k: K, t: TaskState<T>, regs: Registries<K, T>, thrown: Thrown)
    ensures React(k, t, regs, thrown).regs.results == regs.results
    ensures Grows(regs, React(k, t, regs, thrown).regs, k)
    ensures React(k, t, regs, thrown).task.(executionState := t.executionState) == t
  {
  }

  lemma {:induction false} RunSegmentGrows<K, T>(k: K, t: TaskState<T>, regs: Registries<K, T>, body: Body, args: Params, intercepting: bool)
    requires Distinct(regs.queue)
    ensures var r := RunSegment(k, t, regs, body, args, intercepting);
      Grows(regs, r.regs, k) && r.regs.results == regs.results
    decreases body
  {
    match body
    case Fault(e, next) =>
      if intercepting {
        var re := React(k, t, regs, ExecutionFault(e));
        if re.raised.None? {
          RemoveMembers(regs.queue, k);
          RunSegmentGrows(k, re.task, re.regs, next, args, intercepting);
          RemoveTwice(regs.queue, k);
        }
      } else {
        RunSegmentGrows(k, t, regs, next, args, intercepting);
      }
    case ToggleRunState(next) =>
      RunSegmentGrows(k, ToggleRunningState(t), regs, next, args, intercepting);
    case Yield(_, _) =>
    case Return(_) =>
    case Raise(_) =>
  }

  /** Every turn only appends to the registries and only removes from the
      queue: the task itself, or everything. Its results grow by at most one. */
  lemma RunTaskGrows<K, T>(k: K, t: TaskState<T>, regs: Registries<K, T>, late: Params, intercepting: bool)
    requires Distinct(regs.queue)
    ensures var r := RunTask(k, t, regs, late, intercepting);
      Grows(regs, r.regs, k) && |r.regs.results| <= |regs.results| + 1
  {
    var t1 := IncrementTries(t);
    if t1.turn < t1.limit {
      match t1.fiber
      case NotStarted(body) =>
        RunSegmentGrows(k, t1.(executionState := STARTING), regs, body, Merge(t.parameters, late), intercepting);
      case Suspended(rest, args) =>
        RunSegmentGrows(k, t1.(executionState := RESUMING), regs, rest, args, intercepting);
      case _ =>
    }
  }

  // ---------------------------------------------------------------------
  // The limit check

  /** Reaching the limit under ABORT: the task is ABORTED, leaves the queue,
      `run` returns null and no result or error is recorded; this holds
      whatever the fiber's status, so it also pre-empts the harvest of a
      finished fiber. */
  lemma LimitAbort<K, T>(k: K, t: TaskState<T>, regs: Registries<K, T>, late: Params, intercepting: bool)
    requires IncrementTries(t).turn >= t.limit && t.limitAction == ABORT
    ensures var r := RunTask(k, t, regs, late, intercepting);
      r.task.executionState == ABORTED && r.outcome == Returned(Null)
      && r.regs == regs.(queue := Remove(regs.queue, k))
      && r.task.fiber == t.fiber
  {
  }

  /** Reaching the limit under THROW: the task is REJECTED and the
      exception names its id and limit; nothing is removed or recorded. */
  lemma LimitThrow<K, T>(k: K, t: TaskState<T>, regs: Registries<K, T>, late: Params, intercepting: bool)
    requires IncrementTries(t).turn >= t.limit && t.limitAction == THROW
    ensures var r := RunTask(k, t, regs, late, intercepting);
      r.task.executionState == REJECTED
      && r.outcome == Raised(MaxTries(MaxTries.Message(t.id, t.limit)))
      && r.regs == regs && r.task.fiber == t.fiber
  {
  }

  /** Under the limit, `run` is `process` on the task with its turn counted. */
  lemma UnderLimit<K, T>(k: K, t: TaskState<T>, regs: Registries<K, T>, late: Params, intercepting: bool)
    requires IncrementTries(t).turn < t.limit
    ensures RunTask(k, t, regs, late, intercepting) == Process(k, IncrementTries(t), regs, late, intercepting)
  {
  }

  // ---------------------------------------------------------------------
  // The three branches of process

  /** Whatever the body does, running it leaves the fiber started and
      remembering the arguments it was given. */
  lemma {:induction false} RunSegmentArgs<K, T>(k: K, t: TaskState<T>, regs: Registries<K, T>, body: Body, args: Params, intercepting: bool)
    ensures var r := RunSegment(k, t, regs, body, args, intercepting);
      !r.task.fiber.NotStarted? && r.task.fiber.args == args
    decreases body
  {
    match body
    case Fault(e, next) =>
      if intercepting {
        var re := React(k, t, regs, ExecutionFault(e));
        if re.raised.None? {
          RunSegmentArgs(k, re.task, re.regs, next, args, intercepting);
        }
      } else {
        RunSegmentArgs(k, t, regs, next, args, intercepting);
      }
    case ToggleRunState(next) =>
      RunSegmentArgs(k, ToggleRunningState(t), regs, next, args, intercepting);
    case Yield(_, _) =>
    case Return(_) =>
    case Raise(_) =>
  }

  /** Every fresh fiber, whatever its body does first, is started with the
      bound parameters and the late ones spread together, the late value
      winning for a named parameter. */
  lemma StartArguments<K, T>(k: K, t: TaskState<T>, regs: Registries<K, T>, late: Params, intercepting: bool, s: string)
    requires t.fiber.NotStarted? && PositionalFirst(Merge(t.parameters, late))
    ensures var r := Process(k, t, regs, late, intercepting);
      !r.task.fiber.NotStarted? && r.task.fiber.args == Merge(t.parameters, late)
      && Get(r.task.fiber.args, Named(s))
         == (if LastValue(late, Named(s)).Some? then LastValue(late, Named(s)) else LastValue(t.parameters, Named(s)))
  {
    RunSegmentArgs(k, t.(executionState := STARTING), regs, t.fiber.body, Merge(t.parameters, late), intercepting);
    MergeNamed(t.parameters, late, s);
  }

  /** A body that suspends or returns before doing anything else leaves
      its task STARTING and the registries as they were; one that
      toggles, faults or throws first may change them on the way. */
  lemma StartState<K, T>(k: K, t: TaskState<T>, regs: Registries<K, T>, late: Params, intercepting: bool)
    requires t.fiber.NotStarted? && PositionalFirst(Merge(t.parameters, late))
    requires t.fiber.body.Yield? || t.fiber.body.Return?
    ensures var r := Process(k, t, regs, late, intercepting);
      r.task.executionState == STARTING && r.regs == regs && r.outcome.Returned?
  {
  }

  /** Spreading a positional argument after a named one throws before the
      fiber starts: the task is STARTING, its fiber still fresh, and
      nothing else changes. */
  lemma StartUnpackError<K, T>(k: K, t: TaskState<T>, regs: Registries<K, T>, late: Params, intercepting: bool)
    requires t.fiber.NotStarted? && !PositionalFirst(Merge(t.parameters, late))
    ensures var r := Process(k, t, regs, late, intercepting);
      r.task == t.(executionState := STARTING) && r.regs == regs && r.outcome == Raised(ArgumentUnpackError)
  {
  }

  /** A suspended fiber is resumed where it stopped, with the arguments it
      was started with. */
  lemma ResumeContinues<K, T>(k: K, t: TaskState<T>, regs: Registries<K, T>, late: Params, intercepting: bool)
    requires t.fiber.Suspended?
    ensures Process(k, t, regs, late, intercepting)
         == RunSegment(k, t.(executionState := RESUMING), regs, t.fiber.rest, t.fiber.args, intercepting)
  {
  }

  /** A returned fiber is harvested: COMPLETE, exactly one result carrying
      its id, return value and timer is appended, then the task leaves the
      queue and `run` returns its id. */
  lemma Harvest<K, T>(k: K, t: TaskState<T>, regs: Registries<K, T>, late: Params, intercepting: bool)
    requires t.fiber.Terminated?
    ensures var r := Process(k, t, regs, late, intercepting);
      r.task.executionState == COMPLETE
      && r.regs.results == regs.results + [TaskResult(t.id, t.fiber.result, t.counter)]
      && r.regs.queue == Remove(regs.queue, k) && r.regs.errors == regs.errors
      && r.outcome == Returned(Str(t.id))
  {
  }

  /** A fiber that ended by throwing cannot be harvested: `getReturn`
      throws and nothing is recorded. */
  lemma HarvestCrashed<K, T>(k: K, t: TaskState<T>, regs: Registries<K, T>, late: Params, intercepting: bool)
    requires t.fiber.Crashed?
    ensures var r := Process(k, t, regs, late, intercepting);
      r.task.executionState == COMPLETE && r.regs == regs && r.outcome == Raised(FiberReturnError)
  {
  }

  /** No turn that runs the body also harvests it: a body that returns
      leaves its result for a later turn. */
  lemma NoHarvestOnFinishingTurn<K, T>(k: K, t: TaskState<T>, regs: Registries<K, T>, body: Body, args: Params, intercepting: bool)
    ensures RunSegment(k, t, regs, body, args, intercepting).regs.results == regs.results
  {
    if Distinct(regs.queue) {
      RunSegmentGrows(k, t, regs, body, args, intercepting);
    } else {
      RunSegmentKeepsResults(k, t, regs, body, args, intercepting);
    }
  }

  lemma {:induction false} RunSegmentKeepsResults<K, T>(k: K, t: TaskState<T>, regs: Registries<K, T>, body: Body, args: Params, intercepting: bool)
    ensures RunSegment(k, t, regs, body, args, intercepting).regs.results == regs.results
    decreases body
  {
    match body
    case Fault(e, next) =>
      if intercepting {
        var re := React(k, t, regs, ExecutionFault(e));
        if re.raised.None? {
          RunSegmentKeepsResults(k, re.task, re.regs, next, args, intercepting);
        }
      } else {
        RunSegmentKeepsResults(k, t, regs, next, args, intercepting);
      }
    case ToggleRunState(next) =>
      RunSegmentKeepsResults(k, ToggleRunningState(t), regs, next, args, intercepting);
    case Yield(_, _) =>
    case Return(_) =>
    case Raise(_) =>
  }

  // ---------------------------------------------------------------------
  // Termination: each turn lowers the task's weight or removes it

  function TaskWeight<T>(t: TaskState<T>): (w: nat)
    ensures w >= 1
  {
    Weight(t.fiber)
  }

  /** A segment either leaves the task queued with a fiber of lower weight
      than `Size(body) + 1`, or takes it out of the queue, or raises. */
  lemma {:induction false} RunSegmentWeight<K, T>(k: K, t: TaskState<T>, regs: Registries<K, T>, body: Body, args: Params, intercepting: bool)
    requires k in regs.queue
    ensures var r := RunSegment(k, t, regs, body, args, intercepting);
      r.outcome.Raised? || k !in r.regs.queue || (r.regs.queue == regs.queue && TaskWeight(r.task) < Size(body) + 1)
    decreases body
  {
    match body
    case Fault(e, next) =>
      if intercepting {
        var re := React(k, t, regs, ExecutionFault(e));
        if re.raised.None? {
          RemoveMembers(regs.queue, k);
          assert k !in re.regs.queue;
          RunSegmentStaysOut(k, re.task, re.regs, next, args, intercepting);
        }
      } else {
        RunSegmentWeight(k, t, regs, next, args, intercepting);
      }
    case ToggleRunState(next) =>
      RunSegmentWeight(k, ToggleRunningState(t), regs, next, args, intercepting);
    case Yield(_, next) =>
    case Return(_) =>
    case Raise(_) =>
  }

  /** Once cancelled, a task stays out of the queue for the rest of its segment. */
  lemma {:induction false} RunSegmentStaysOut<K, T>(k: K, t: TaskState<T>, regs: Registries<K, T>, body: Body, args: Params, intercepting: bool)
    requires k !in regs.queue
    ensures k !in RunSegment(k, t, regs, body, args, intercepting).regs.queue
    decreases body
  {
    match body
    case Fault(e, next) =>
      if intercepting {
        var re := React(k, t, regs, ExecutionFault(e));
        if re.raised.None? {
          RemoveMembers(regs.queue, k);
          RunSegmentStaysOut(k, re.task, re.regs, next, args, intercepting);
        }
      } else {
        RunSegmentStaysOut(k, t, regs, next, args, intercepting);
      }
    case ToggleRunState(next) =>
      RunSegmentStaysOut(k, ToggleRunningState(t), regs, next, args, intercepting);
    case Yield(_, _) =>
    case Return(_) =>
    case Raise(_) =>
  }

  /** The measure of the driving loop: a turn that neither raises nor
      takes the task out of the queue leaves the queue as it was and lowers
      the task's weight. */
  lemma RunTaskWeight<K, T>(k: K, t: TaskState<T>, regs: Registries<K, T>, late: Params, intercepting: bool)
    requires k in regs.queue && Distinct(regs.queue)
    ensures var r := RunTask(k, t, regs, late, intercepting);
      r.outcome.Raised? || k !in r.regs.queue || (r.regs.queue == regs.queue && TaskWeight(r.task) < TaskWeight(t))
  {
    var t1 := IncrementTries(t);
    RemoveMembers(regs.queue, k);
    if t1.turn < t1.limit {
      match t1.fiber
      case NotStarted(body) =>
        if PositionalFirst(Merge(t.parameters, late)) {
          RunSegmentWeight(k, t1.(executionState := STARTING), regs, body, Merge(t.parameters, late), intercepting);
        }
      case Suspended(rest, args) =>
        RunSegmentWeight(k, t1.(executionState := RESUMING), regs, rest, args, intercepting);
      case _ =>
    }
  }
}
