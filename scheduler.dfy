/** The scheduler's objects as they live on the heap: FiberLoop with its
    queue and registries, FiberTask with its fields, the error-handling
    strategies bound to a task, and TaskErrorHandler over the runtime's
    handler stack. Every state-changing method is proved to do exactly what
    the functions of TaskStep and LoopSpec say of the state it starts from,
    and every query to return what the functions of Queries say. */
module Scheduler {
  import opened Values
  import opened TaskStates
  import opened PhpArrays
  import opened Fibers
  import opened Tasks
  import opened Records
  import opened Queues
  import opened TaskStep
  import opened Interception
  import opened LoopSpec
  import opened Queries
  import MaxTries

  /** A timer (Krono); only its identity matters here. */
  class TimeCounter {
    constructor ()
    {
    }
  }

  /** The runtime's stack of installed error handlers. */
  class ErrorHandlerStack {
    var handlers: seq<Handler>

    constructor (handlers: seq<Handler>)
      ensures this.handlers == handlers
    {
      this.handlers := handlers;
    }
  }

  /** AbstractErrorHandlingStrategy and its two subclasses: a strategy is
      bound for good to the task given at construction. */
  class ErrorStrategy {
    const task: FiberTask
    const kind: StrategyKind

    constructor (task: FiberTask, kind: StrategyKind)
      ensures this.task == task && this.kind == kind
    {
      this.task := task;
      this.kind := kind;
    }

    /** `id()`: the bound task's id as it is now, so a later
        `identifiedBy` shows. */
    function Id(): (id: string)
      reads task
      ensures id == task.View().id
    {
      task.id
    }

    /** `taskOnError()`: the bound task is marked ONERROR and returned. */
    method TaskOnError() returns (t: FiberTask)
      modifies task`executionState
      ensures t == task
      ensures task.View() == Tasks.TaskOnError(old(task.View()))
    {
      task.executionState := ONERROR;
      t := task;
    }

    /** `react($thrown, $loop)`. */
    method React(thrown: Thrown, loop: FiberLoop) returns (raised: Option<Thrown>)
      requires task.strategy == this
      modifies task`executionState, loop`tasks, loop`errors
      ensures var r := TaskStep.React(task, old(task.View()), old(loop.Registries()), thrown);
        task.View() == r.task && loop.Registries() == r.regs && raised == r.raised
    {
      if kind == ThrowOnError {
        loop.Abort();
        raised := Some(thrown);
      } else {
        var t := TaskOnError();
        loop.Cancel(t);
        loop.RegisterError(Id(), thrown);
        raised := None;
      }
    }
  }

  class FiberTask {
    var id: string
    var parameters: Params
    var limit: int
    var turn: int
    var runState: RunState
    var limitAction: LimitAction
    var executionState: ExecutionState
    var fiber: Fiber
    var strategy: ErrorStrategy?
    const counter: TimeCounter

    /** The task has a strategy, and it is bound to this task. */
    ghost predicate Valid()
      reads this
    {
      strategy != null && strategy.task == this
    }

    /** The task's fields as a value. */
    function View(): TaskState<TimeCounter>
      reads this
    {
      TaskState(id, parameters, limit, turn, runState, limitAction, executionState, fiber,
                if strategy == null then ThrowOnError else strategy.kind, counter)
    }

    /** `new FiberTask($func, $parameters)`; `id` stands for the random id. */
    constructor (id: string, body: Body, parameters: Params)
      ensures Valid() && fresh(strategy) && fresh(counter)
      ensures View() == NewTask(id, body, parameters, counter)
    {
      this.id := id;
      this.parameters := parameters;
      limit := DefaultLimit;
      turn := 0;
      runState := RUN;
      limitAction := THROW;
      executionState := INITIAL;
      fiber := NotStarted(body);
      counter := new TimeCounter();
      strategy := null;
      new;
      strategy := new ErrorStrategy(this, ThrowOnError);
    }

    method IdentifiedBy(id: Identifier)
      modifies this`id
      ensures View() == Tasks.IdentifiedBy(old(View()), id)
    {
      this.id := IdString(id);
    }

    method SetLimit(tries: int)
      modifies this`limit
      ensures View() == Tasks.SetLimit(old(View()), tries)
    {
      limit := tries;
    }

    method CancelOnReachedLimit()
      modifies this`limitAction
      ensures View() == Tasks.CancelOnReachedLimit(old(View()))
    {
      limitAction := ABORT;
    }

    /** `cancelOnError()`: a new cancel strategy bound to this task. */
    method CancelOnError()
      modifies this`strategy
      ensures Valid() && fresh(strategy)
      ensures View() == UseStrategy(old(View()), StrategyKind.CancelOnError)
    {
      strategy := new ErrorStrategy(this, StrategyKind.CancelOnError);
    }

    /** `useOnError($strategy)`, for a strategy bound to this task. */
    method UseOnError(s: ErrorStrategy)
      requires s.task == this
      modifies this`strategy
      ensures Valid() && strategy == s
      ensures View() == UseStrategy(old(View()), s.kind)
    {
      strategy := s;
    }

    method ToggleRunningState()
      modifies this`runState
      ensures View() == Tasks.ToggleRunningState(old(View()))
    {
      runState := if runState == RUN then WAIT else RUN;
    }

    method IncrementTries()
      modifies this`turn
      ensures View() == Tasks.IncrementTries(old(View()))
    {
      if runState == RUN && TaskStates.IsStarted(executionState) {
        turn := turn + 1;
      }
    }

    /** The fiber's body runs from `body` up to its next suspension point. */
    method RunSegment(loop: FiberLoop, body: Body, args: Params) returns (outcome: Outcome)
      requires Valid()
      modifies this, loop`tasks, loop`errors
      ensures Valid() && strategy == old(strategy)
      ensures var s := TaskStep.RunSegment(this, old(View()), old(loop.Registries()), body, args,
                                           Intercepting(old(loop.errorHandler.State())));
        View() == s.task && loop.Registries() == s.regs && outcome == s.outcome
      decreases body
    {
      match body
      case Fault(e, next) =>
        if Intercepting(loop.errorHandler.State()) {
          var raised := loop.errorHandler.Intercept(loop, this, e);
          if raised.Some? {
            fiber := Crashed(args);
            outcome := Raised(raised.value);
          } else {
            outcome := RunSegment(loop, next, args);
          }
        } else {
          outcome := RunSegment(loop, next, args);
        }
      case ToggleRunState(next) =>
        ToggleRunningState();
        outcome := RunSegment(loop, next, args);
      case Yield(v, next) =>
        fiber := Suspended(next, args);
        outcome := Returned(v);
      case Return(v) =>
        fiber := Terminated(v, args);
        outcome := Returned(Null);
      case Raise(thrown) =>
        fiber := Crashed(args);
        outcome := Raised(thrown);
    }

    /** `process($loop, $params)`. */
    method Process(loop: FiberLoop, late: Params) returns (outcome: Outcome)
      requires Valid()
      modifies this, loop`tasks, loop`results, loop`errors
      ensures Valid() && strategy == old(strategy)
      ensures var s := TaskStep.Process(this, old(View()), old(loop.Registries()), late,
                                        Intercepting(old(loop.errorHandler.State())));
        View() == s.task && loop.Registries() == s.regs && outcome == s.outcome
    {
      if fiber.NotStarted? {
        executionState := STARTING;
        var args := Merge(parameters, late);
        if !PositionalFirst(args) {
          outcome := Raised(ArgumentUnpackError);
          return;
        }
        outcome := RunSegment(loop, fiber.body, args);
      } else if fiber.Suspended? {
        executionState := RESUMING;
        outcome := RunSegment(loop, fiber.rest, fiber.args);
      } else {
        executionState := COMPLETE;
        var raised := loop.AddResultFrom(this);
        if raised.Some? {
          outcome := Raised(raised.value);
          return;
        }
        loop.Cancel(this);
        outcome := Returned(Str(id));
      }
    }

    /** `run($loop, $lateParams)`. */
    method Run(loop: FiberLoop, late: Params) returns (outcome: Outcome)
      requires Valid()
      modifies this, loop`tasks, loop`results, loop`errors
      ensures Valid() && strategy == old(strategy)
      ensures var s := TaskStep.RunTask(this, old(View()), old(loop.Registries()), late,
                                        Intercepting(old(loop.errorHandler.State())));
        View() == s.task && loop.Registries() == s.regs && outcome == s.outcome
    {
      IncrementTries();
      if turn >= limit {
        if limitAction == ABORT {
          executionState := ABORTED;
          loop.Cancel(this);
          outcome := Returned(Null);
          return;
        }
        executionState := REJECTED;
        outcome := Raised(MaxTries.MaxTriesFor(View()));
        return;
      }
      outcome := Process(loop, late);
    }
  }

  /** TaskErrorHandler: the in-use and registered flags over the runtime's
      handler stack. */
  class TaskErrorHandler {
    var isOn: bool
    var isRegistered: bool
    const stack: ErrorHandlerStack

    function State(): HandlerState
      reads this, stack
    {
      HandlerState(isOn, isRegistered, stack.handlers)
    }

    constructor (stack: ErrorHandlerStack)
      ensures this.stack == stack && State() == Initial(stack.handlers)
    {
      isOn := false;
      isRegistered := false;
      this.stack := stack;
    }

    method On()
      modifies this`isOn
      ensures State() == Interception.On(old(State()))
    {
      isOn := true;
    }

    method Off()
      modifies this`isOn
      ensures State() == Interception.Off(old(State()))
    {
      isOn := false;
    }

    method Register()
      modifies this`isRegistered, stack`handlers
      ensures State() == Interception.Register(old(State()))
    {
      if isOn && !isRegistered {
        stack.handlers := stack.handlers + [Interceptor];
        isRegistered := true;
      }
    }

    method Restore()
      modifies stack`handlers
      ensures State() == Interception.Restore(old(State()))
    {
      if isRegistered && |stack.handlers| > 0 {
        stack.handlers := stack.handlers[..|stack.handlers| - 1];
      }
    }

    /** `intercept($code, $message, $file, $line)` while `current` runs: the
        fault becomes an execution exception for the task's strategy. */
    method Intercept(loop: FiberLoop, current: FiberTask, e: RuntimeError) returns (raised: Option<Thrown>)
      requires current.Valid()
      modifies current`executionState, loop`tasks, loop`errors
      ensures var r := TaskStep.React(current, old(current.View()), old(loop.Registries()),
                                      Execution(e.code, e.message, e.file, e.line));
        current.View() == r.task && loop.Registries() == r.regs && raised == r.raised
    {
      var thrown := Execution(e.code, e.message, e.file, e.line);
      raised := current.strategy.React(thrown, loop);
    }
  }

  class FiberLoop {
    var tasks: seq<FiberTask>
    var results: seq<TaskResult<TimeCounter>>
    var errors: seq<ErrorRecord>
    var reports: seq<TaskReport>
    var debug: bool
    const errorHandler: TaskErrorHandler
    /** Every task this loop has created. */
    ghost var known: set<FiberTask>

    ghost predicate Valid()
      reads this`tasks, this`known, known
    {
      (forall i :: 0 <= i < |tasks| ==> tasks[i] in known)
      && Distinct(tasks)
      && (forall t :: t in known ==> t.Valid())
    }

    function Registries(): TaskStep.Registries<FiberTask, TimeCounter>
      reads this`tasks, this`results, this`errors
    {
      TaskStep.Registries(tasks, results, errors)
    }

    ghost function Views(): map<FiberTask, TaskState<TimeCounter>>
      reads this`known, known
    {
      map t | t in known :: t.View()
    }

    ghost function Abs(): World<FiberTask, TimeCounter>
      reads this`tasks, this`results, this`errors, this`reports, this`debug, this`known, known
      reads errorHandler, errorHandler.stack
    {
      World(Registries(), Views(), reports, debug, errorHandler.State())
    }

    /** `new FiberLoop($debug)`, over the runtime's handler stack. */
    constructor (debug: bool, stack: ErrorHandlerStack)
      ensures Valid() && fresh(errorHandler) && errorHandler.stack == stack
      ensures Abs() == World(TaskStep.Registries([], [], []), map[], [], debug, Initial(stack.handlers))
    {
      tasks := [];
      results := [];
      errors := [];
      reports := [];
      this.debug := debug;
      known := {};
      errorHandler := new TaskErrorHandler(stack);
    }

    /** `abort()`: the queue is emptied; nothing else changes. */
    method Abort()
      modifies this`tasks
      ensures tasks == []
    {
      tasks := [];
    }

    /** `handleErrors()`. */
    method HandleErrors()
      modifies errorHandler`isOn
      ensures errorHandler.State() == Interception.On(old(errorHandler.State()))
    {
      errorHandler.On();
    }

    /** `registerError($id, $thrown)`. */
    method RegisterError(id: string, thrown: Thrown)
      modifies this`errors
      ensures errors == old(errors) + [ErrorRecord(id, thrown)]
    {
      errors := errors + [ErrorRecord(id, thrown)];
    }

    /** `defer($func, $params)`: a new task at the end of the queue; `id`
        stands for its random id. */
    method Defer(id: string, body: Body, params: Params) returns (t: FiberTask)
      requires Valid()
      modifies this`tasks, this`known
      ensures Valid() && fresh(t)
      ensures tasks == old(tasks) + [t] && known == old(known) + {t}
      ensures t.View() == NewTask(id, body, params, t.counter)
      ensures Views() == old(Views())[t := t.View()]
    {
      t := new FiberTask(id, body, params);
      tasks := tasks + [t];
      known := known + {t};
      assert Views() == old(Views())[t := t.View()] by {
        forall u | u in known ensures Views()[u] == old(Views())[t := t.View()][u] {
          if u != t {
            assert u in old(known);
          }
        }
      }
    }

    /** `cancel($task)`. */
    method Cancel(t: FiberTask)
      modifies this`tasks
      ensures tasks == Remove(old(tasks), t)
    {
      tasks := RemoveFrom(tasks, t);
    }

    /** `detach` over the queue, one handle at a time. */
    static method RemoveFrom(q: seq<FiberTask>, t: FiberTask) returns (r: seq<FiberTask>)
      ensures r == Remove(q, t)
    {
      r := [];
      var i := |q|;
      while i > 0
        invariant 0 <= i <= |q|
        invariant r == Remove(q[i..], t)
      {
        i := i - 1;
        assert q[i..][1..] == q[i + 1..];
        if q[i] != t {
          r := [q[i]] + r;
        }
      }
      assert q[0..] == q;
    }

    /** `addResultFrom($task)`. */
    method AddResultFrom(t: FiberTask) returns (raised: Option<Thrown>)
      modifies this`results
      ensures match CreateFrom(t.View())
        case Ok(r) => results == old(results) + [r] && raised == None
        case Err(e) => results == old(results) && raised == Some(e)
    {
      match CreateFrom(t.View())
      case Ok(r) =>
        results := results + [r];
        raised := None;
      case Err(e) =>
        raised := Some(e);
    }

    /** `reportState($task)`. */
    method ReportState(t: FiberTask)
      modifies this`reports
      ensures Abs() == old(Abs()).(reports := LoopSpec.ReportState(old(reports), debug, t.View()))
    {
      if debug {
        reports := reports + [TaskReport(t.id, t.executionState)];
      }
    }

    /** `debug()`. */
    method Debug()
      modifies this`debug
      ensures debug
    {
      debug := true;
    }

    /** The task's `run` seen from the loop: its registries and its view of
        the task move as one task step says; no other task changes. */
    method RunTurn(t: FiberTask, late: Params) returns (outcome: Outcome)
      requires Valid() && t in tasks
      modifies this`tasks, this`results, this`errors, t
      ensures Valid()
      ensures var w := old(Abs());
        var s := TaskStep.RunTask(t, w.views[t], w.regs, late, Intercepting(w.handler));
        Abs() == w.(regs := s.regs, views := w.views[t := s.task]) && outcome == s.outcome && t.View() == s.task
    {
      ghost var w := Abs();
      ghost var s := TaskStep.RunTask(t, t.View(), Registries(), late, Intercepting(errorHandler.State()));
      TaskStep.RunTaskGrows(t, t.View(), Registries(), late, Intercepting(errorHandler.State()));
      label BeforeTurn:
      outcome := t.Run(this, late);
      QueueShrinksMembers(old(tasks), tasks, t);
      forall u | u in known ensures Views()[u] == w.views[t := s.task][u] {
        if u != t {
          assert u.View() == old@BeforeTurn(u.View());
        }
      }
      assert Views() == w.views[t := s.task];
    }

    /** One visit of a queued task within a pass: its `run`, then, if that
        returned, its report. */
    method Visit(t: FiberTask, late: Params) returns (raised: Option<Thrown>)
      requires Valid() && t in tasks
      modifies this`tasks, this`results, this`errors, this`reports, t
      ensures Valid()
      ensures WF(old(Abs())) && var r := Turn(old(Abs()), t, late);
        Abs() == r.world && raised == r.raised
    {
      ghost var before := Abs();
      assert WF(before);
      var outcome := RunTurn(t, late);
      if outcome.Raised? {
        raised := Some(outcome.thrown);
      } else {
        ReportState(t);
        raised := None;
      }
    }

    /** The `each` callback at position `i` of the pass's snapshot: the
        task is visited only if it is still queued. */
    method VisitAt(snap: seq<FiberTask>, i: nat, late: Params) returns (raised: Option<Thrown>)
      requires Valid() && i < |snap|
      modifies this`tasks, this`results, this`errors, this`reports, known
      ensures Valid() && WF(old(Abs())) && WF(Abs())
      ensures raised.Some? ==> PassFrom(old(Abs()), snap, i, late) == RunResult(Abs(), raised)
      ensures raised.None? ==> PassFrom(old(Abs()), snap, i, late) == PassFrom(Abs(), snap, i + 1, late)
    {
      ghost var w := Abs();
      assert WF(w);
      var t := snap[i];
      if t in tasks {
        raised := Visit(t, late);
        PassFromQueued(w, snap, i, late);
      } else {
        raised := None;
        PassFromSkipped(w, snap, i, late);
      }
    }

    /** One `each` over the queue: the tasks queued when the pass begins,
        in order, each visited only if still queued when reached. */
    method RunPass(late: Params) returns (raised: Option<Thrown>)
      requires Valid()
      modifies this`tasks, this`results, this`errors, this`reports, known
      ensures Valid()
      ensures WF(old(Abs())) && var r := PassFrom(old(Abs()), old(tasks), 0, late);
        Abs() == r.world && raised == r.raised
    {
      var snap := tasks;
      ghost var p0 := Abs();
      assert WF(p0);
      var i := 0;
      raised := None;
      while i < |snap|
        invariant 0 <= i <= |snap|
        invariant Valid() && WF(Abs())
        invariant PassFrom(Abs(), snap, i, late) == PassFrom(p0, snap, 0, late)
        invariant raised.None?
      {
        raised := VisitAt(snap, i, late);
        if raised.Some? {
          return;
        }
        i := i + 1;
      }
    }

    /** The `while (!isEmpty())` loop of `run`: passes until the queue is
        empty or an exception escapes. */
    method Drain(late: Params) returns (raised: Option<Thrown>)
      requires Valid()
      modifies this`tasks, this`results, this`errors, this`reports, known
      ensures Valid()
      ensures WF(old(Abs())) && var r := Drive(old(Abs()), late);
        Abs() == r.world && raised == r.raised
    {
      ghost var w1 := Abs();
      assert WF(w1);
      raised := None;
      while tasks != []
        invariant Valid() && WF(Abs())
        invariant Drive(Abs(), late) == Drive(w1, late)
        invariant raised.None?
        decreases SumWeights(tasks, Views())
      {
        ghost var p0 := Abs();
        raised := RunPass(late);
        if raised.Some? {
          return;
        }
        PassDecreases(p0, late);
      }
    }

    /** `$this->errorHandler->register()`, seen from the loop. */
    method RegisterHandler()
      modifies errorHandler`isRegistered, errorHandler.stack`handlers
      ensures Abs() == old(Abs()).(handler := Interception.Register(old(Abs()).handler))
    {
      errorHandler.Register();
      assert Views() == old(Views());
    }

    /** `$this->errorHandler->restore()`, seen from the loop. */
    method RestoreHandler()
      modifies errorHandler.stack`handlers
      ensures Abs() == old(Abs()).(handler := Interception.Restore(old(Abs()).handler))
    {
      errorHandler.Restore();
      assert Views() == old(Views());
    }

    /** `run($lateParams)`: the state it leaves and the exception it lets
        escape are those LoopSpec.Run gives for the state it started from;
        the handler is restored only when no exception escapes. */
    method Run(late: Params) returns (raised: Option<Thrown>)
      requires Valid()
      modifies this`tasks, this`results, this`errors, this`reports, known
      modifies errorHandler`isRegistered, errorHandler.stack`handlers
      ensures Valid()
      ensures WF(old(Abs())) && var r := LoopSpec.Run(old(Abs()), late);
        Abs() == r.world && raised == r.raised
    {
      RegisterHandler();
      raised := Drain(late);
      if raised.None? {
        RestoreHandler();
      }
    }

    // -------------------------------------------------------------------
    // Queries

    /** `getReturns()`. */
    method GetReturns() returns (pairs: seq<(string, Value)>)
      ensures pairs == Queries.Returns(results)
    {
      pairs := [];
      var i := 0;
      while i < |results|
        invariant 0 <= i <= |results|
        invariant pairs == ArrayFrom(ResultPairs(results[..i]))
      {
        assert results[..i + 1][..i] == results[..i];
        pairs := Assign(pairs, results[i].id, results[i].returned);
        i := i + 1;
      }
      assert results[..i] == results;
    }

    /** `getReturnOf($id)`. */
    method GetReturnOf(id: string) returns (v: Value)
      ensures v == ReturnOf(results, id)
    {
      var pairs := GetReturns();
      match Get(pairs, id)
      case Some(x) => v := x;
      case None => v := Null;
    }

    /** `getErrors()`. */
    method GetErrors() returns (out: seq<(string, Thrown)>)
      ensures out == Queries.Errors(errors)
    {
      out := [];
      var i := 0;
      while i < |errors|
        invariant 0 <= i <= |errors|
        invariant out == ArrayFrom(ErrorPairs(errors[..i]))
      {
        assert errors[..i + 1][..i] == errors[..i];
        out := Assign(out, errors[i].id, errors[i].thrown);
        i := i + 1;
      }
      assert errors[..i] == errors;
    }

    /** `getErrorIds()`. */
    method GetErrorIds() returns (ids: seq<string>)
      ensures ids == ErrorIds(errors)
    {
      ids := [];
      var i := 0;
      while i < |errors|
        invariant 0 <= i <= |errors|
        invariant ids == ErrorIds(errors[..i])
      {
        assert errors[..i + 1][..i] == errors[..i];
        ids := ids + [errors[i].id];
        i := i + 1;
      }
      assert errors[..i] == errors;
    }

    /** `getErrorFor($id)`. */
    method GetErrorFor(id: string) returns (e: Option<Thrown>)
      ensures e == ErrorFor(errors, id)
    {
      var all := GetErrors();
      e := Get(all, id);
    }

    /** `getReports($withState)`: a name is looked up among the cases'
        names, upper-cased, before filtering. */
    method GetReports(filter: ReportFilter) returns (out: seq<TaskReport>)
      ensures out == Reports(reports, filter)
    {
      var state: Option<ExecutionState> := None;
      match filter {
      case NoFilter =>
      case ByState(s) =>
        state := Some(s);
      case ByName(name) =>
        var target := Upper(name);
        var i := 0;
        while i < |Cases| && state.None?
          invariant 0 <= i <= |Cases|
          invariant state.None? ==> FindCase(Cases[i..], target) == FindCase(Cases, target)
          invariant state.Some? ==> state == FindCase(Cases, target)
        {
          assert Cases[i..][1..] == Cases[i + 1..];
          if Name(Cases[i]) == target {
            state := Some(Cases[i]);
          }
          i := i + 1;
        }
      }
      if state.None? {
        out := reports;
      } else {
        out := [];
        var j := 0;
        while j < |reports|
          invariant 0 <= j <= |reports|
          invariant out == WithState(reports[..j], state.value)
        {
          assert reports[..j + 1][..j] == reports[..j];
          if reports[j].state == state.value {
            out := out + [reports[j]];
          }
          j := j + 1;
        }
        assert reports[..j] == reports;
      }
    }
  }
}
