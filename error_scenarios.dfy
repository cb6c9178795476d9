/** Runs of the loop over the two-task bodies of the repository's error and
    return tests, computed through LoopSpec. Random task ids are given as
    "a" and "b". */
module ErrorScenarios {
  import opened Values
  import opened TaskStates
  import opened PhpArrays
  import opened Fibers
  import opened Tasks
  import opened Records
  import opened TaskStep
  import opened Interception
  import opened LoopSpec
  import opened Queries
  import Scenarios

  /** `$inputs[4]` on a three-element array: PHP's "undefined array key"
      warning, reported to the installed error handler. */
  const UndefinedKey: RuntimeError := RuntimeError(2, "Undefined array key 4", "tests/FiberLoopTest.php", 217)

  /** `['inputs' => $inputs]`; the array's contents play no part. */
  const Inputs: Params := [(Named("inputs"), Null)]

  /** `fn (array $inputs) => $inputs[4]`: the warning, then null. */
  const Faulty: Body := Fault(UndefinedKey, Return(Null))

  /** Two deferred tasks, handles 1 and 2, over an empty handler stack. */
  function Two(t1: TaskState<int>, t2: TaskState<int>, h: HandlerState): World<int, int> {
    World(Registries([1, 2], [], []), map[1 := t1, 2 := t2], [], false, h)
  }

  /** `handleErrors()` on a fresh loop. */
  const Handling: HandlerState := On(Initial([]))
  /** ... once `run` has registered it. */
  const Installed: HandlerState := HandlerState(true, true, [Interceptor])

  lemma InstallOnRun()
    ensures Register(Handling) == Installed && Intercepting(Installed)
    ensures Restore(Installed) == HandlerState(true, true, [])
  {
  }

  lemma InputsSpread()
    ensures Merge([], Inputs) == Inputs && Merge(Inputs, []) == Inputs && PositionalFirst(Inputs)
    ensures Merge([], []) == [] && PositionalFirst([])
  {
    assert [] + Inputs == Inputs && Inputs + [] == Inputs;
    assert Inputs[..0] == [];
  }

  // ---------------------------------------------------------------------
  // testExceptionThrownOnExecutionError: the default strategy throws.

  function ThrowTask(): TaskState<int> { NewTask("a", Faulty, [], 1) }
  function Finally(text: string): TaskState<int> { NewTask("b", Return(Str(text)), [], 2) }

  function ThrowWorld(): World<int, int> { Two(ThrowTask(), Finally("finally\n"), Installed) }

  /** The fault ends the first turn: the queue is emptied and the fiber is
      left crashed. */
  lemma ThrowTurn()
    ensures Turn(ThrowWorld(), 1, Inputs)
         == RunResult(ThrowWorld().(regs := Registries([], [], []),
                                    views := ThrowWorld().views[1 := ThrowTask().(executionState := STARTING,
                                                                                  fiber := Crashed(Inputs))]),
                      Some(ExecutionFault(UndefinedKey)))
  {
    InputsSpread();
    InstallOnRun();
  }

  /** `run` lets the TaskExecutionException out, and leaves `intercept`
      installed: the handler is restored only on a normal exit. */
  lemma ThrowOnErrorRaises()
    ensures var r := Run(Two(ThrowTask(), Finally("finally\n"), Handling), Inputs);
            r.raised == Some(Execution(2, "Undefined array key 4", "tests/FiberLoopTest.php", 217))
            && r.world.regs.queue == [] && r.world.handler.stack == [Interceptor]
  {
    InstallOnRun();
    assert Two(ThrowTask(), Finally("finally\n"), Handling).(handler := Installed) == ThrowWorld();
    ThrowTurn();
  }

  // ---------------------------------------------------------------------
  // testExceptionRegisteredOnExecutionError: cancelOnError records the
  // fault, drops the task, and lets the other one finish.

  function CancelTask(): TaskState<int> { NewTask("a", Faulty, Inputs, 1).(strategy := CancelOnError) }

  function CancelStart(): World<int, int> { Two(CancelTask(), Finally("finally"), Installed) }

  const Recorded: ErrorRecord := ErrorRecord("a", ExecutionFault(UndefinedKey))

  /** After the first task's turn: cancelled, its error recorded, its body
      run on to its end. */
  function Cancelled(): World<int, int> {
    CancelStart().(regs := Registries([2], [], [Recorded]),
                   views := CancelStart().views[1 := CancelTask().(executionState := ONERROR,
                                                                   fiber := Terminated(Null, Inputs))])
  }

  function CancelPass1(): World<int, int> {
    Scenarios.Step(Cancelled(), 2, Finally("finally").(executionState := STARTING, fiber := Terminated(Str("finally"), [])),
                   [2], [])
  }

  function CancelPass2(): World<int, int> {
    Scenarios.Step(CancelPass1(), 2,
                   Finally("finally").(turn := 1, executionState := COMPLETE, fiber := Terminated(Str("finally"), [])),
                   [], [TaskResult("b", Str("finally"), 2)])
  }

  lemma CancelTurn()
    ensures Turn(CancelStart(), 1, []) == RunResult(Cancelled(), None)
  {
    InputsSpread();
    InstallOnRun();
  }

  lemma CancelOtherTurn()
    ensures Turn(Cancelled(), 2, []) == RunResult(CancelPass1(), None)
  {
    InputsSpread();
    InstallOnRun();
  }

  lemma CancelHarvest()
    ensures Turn(CancelPass1(), 2, []) == RunResult(CancelPass2(), None)
  {
    InstallOnRun();
  }

  /** The cancelled task is skipped by the rest of the pass: its handle left
      the queue. */
  lemma CancelFirstPass()
    ensures PassFrom(CancelStart(), [1, 2], 0, []) == RunResult(CancelPass1(), None)
  {
    CancelTurn();
    CancelOtherTurn();
  }

  lemma CancelRun()
    ensures Run(Two(CancelTask(), Finally("finally"), Handling), [])
         == RunResult(CancelPass2().(handler := HandlerState(true, true, [])), None)
  {
    InstallOnRun();
    assert Two(CancelTask(), Finally("finally"), Handling).(handler := Installed) == CancelStart();
    CancelFirstPass();
    assert Drive(CancelStart(), []) == Drive(CancelPass1(), []);
    CancelHarvest();
    assert PassFrom(CancelPass1(), [2], 0, []) == RunResult(CancelPass2(), None);
  }

  /** One error, a TaskExecutionException; one return, "finally"; the run
      ends normally and pops `intercept`. */
  lemma CancelOnErrorRecords()
    ensures var r := Run(Two(CancelTask(), Finally("finally"), Handling), []);
            r.raised == None
            && Errors(r.world.regs.errors) == [("a", Execution(2, "Undefined array key 4", "tests/FiberLoopTest.php", 217))]
            && Returns(r.world.regs.results) == [("b", Str("finally"))]
            && r.world.handler.stack == []
  {
    CancelRun();
    assert ErrorPairs([Recorded]) == [("a", ExecutionFault(UndefinedKey))];
    assert ResultPairs([TaskResult("b", Str("finally"), 2)]) == [("b", Str("finally"))];
    ReturnsInOrder([TaskResult("b", Str("finally"), 2)]);
    assert ArrayFrom([("a", ExecutionFault(UndefinedKey))]) == [("a", ExecutionFault(UndefinedKey))] by {
      assert [("a", ExecutionFault(UndefinedKey))][..0] == [];
    }
  }

  // ---------------------------------------------------------------------
  // testThrowingExceptionFromTaskExecution and
  // testRegisteringingExceptionFromTaskExecution: an exception thrown by
  // the task's own code is not a runtime fault, so no strategy sees it.

  function Throwing(kind: StrategyKind): TaskState<int> {
    NewTask("a", Raise(TaskCode("this is a test")), [], 1).(strategy := kind)
  }

  lemma ExceptionTurn(kind: StrategyKind, late: Params)
    requires late == Inputs || late == []
    ensures var w := Two(Throwing(kind), Finally("finally\n"), Installed);
            Turn(w, 1, late).raised == Some(TaskCode("this is a test"))
  {
    InputsSpread();
  }

  lemma ExceptionEscapes(kind: StrategyKind, late: Params)
    requires late == Inputs || late == []
    ensures Run(Two(Throwing(kind), Finally("finally\n"), Handling), late).raised == Some(TaskCode("this is a test"))
  {
    InstallOnRun();
    assert Two(Throwing(kind), Finally("finally\n"), Handling).(handler := Installed)
        == Two(Throwing(kind), Finally("finally\n"), Installed);
    ExceptionTurn(kind, late);
  }

  // ---------------------------------------------------------------------
  // testReturnsDemo: two tasks that return at once.

  function Call(id: string, n: int, k: int): TaskState<int> { NewTask(id, Return(Int(n)), [], k) }

  function Calls(): World<int, int> { Two(Call("first", 1, 1), Call("second", 2, 2), Initial([])) }

  function CallsPass1(): World<int, int> {
    var w := Scenarios.Step(Calls(), 1, Call("first", 1, 1).(executionState := STARTING, fiber := Terminated(Int(1), [])),
                            [1, 2], []);
    Scenarios.Step(w, 2, Call("second", 2, 2).(executionState := STARTING, fiber := Terminated(Int(2), [])), [1, 2], [])
  }

  const First: TaskResult<int> := TaskResult("first", Int(1), 1)
  const Second: TaskResult<int> := TaskResult("second", Int(2), 2)

  function CallsHalf(): World<int, int> {
    Scenarios.Step(CallsPass1(), 1,
                   Call("first", 1, 1).(turn := 1, executionState := COMPLETE, fiber := Terminated(Int(1), [])),
                   [2], [First])
  }

  function CallsPass2(): World<int, int> {
    Scenarios.Step(CallsHalf(), 2, Call("second", 2, 2).(turn := 1, executionState := COMPLETE, fiber := Terminated(Int(2), [])),
                   [], [First, Second])
  }

  lemma CallsFirstPass()
    ensures PassFrom(Calls(), [1, 2], 0, []) == RunResult(CallsPass1(), None)
  {
    InputsSpread();
  }

  lemma CallsSecondPass()
    ensures PassFrom(CallsPass1(), [1, 2], 0, []) == RunResult(CallsPass2(), None)
  {
    CallsHarvestFirst();
    CallsHarvestSecond();
  }

  lemma CallsHarvestFirst()
    ensures Turn(CallsPass1(), 1, []) == RunResult(CallsHalf(), None)
  {
  }

  lemma CallsHarvestSecond()
    ensures Turn(CallsHalf(), 2, []) == RunResult(CallsPass2(), None)
  {
  }

  /** Both values are returned, and `getReturnOf('second')` is 2. */
  lemma ReturnOfSecond()
    ensures var r := Run(Calls(), []);
            r.raised == None && |Returns(r.world.regs.results)| == 2 && ReturnOf(r.world.regs.results, "second") == Int(2)
  {
    CallsFirstPass();
    assert Drive(Calls(), []) == Drive(CallsPass1(), []);
    CallsSecondPass();
    ReturnsInOrder([First, Second]);
    ReturnOfLast([First, Second], "second", 1);
  }

  // ---------------------------------------------------------------------
  // testFiberLoopWithLateParameters: parameters given to `run` reach a
  // task deferred without any.

  function Late(): TaskState<int> { NewTask("test n°1", Return(Str("test1")), [], 1) }

  function Alone(): World<int, int> { World(Registries([1], [], []), map[1 := Late()], [], false, Initial([])) }

  function AlonePass1(): World<int, int> {
    Scenarios.Step(Alone(), 1, Late().(executionState := STARTING, fiber := Terminated(Str("test1"), Scenarios.Services)),
                   [1], [])
  }

  function AlonePass2(): World<int, int> {
    Scenarios.Step(AlonePass1(), 1,
                   Late().(turn := 1, executionState := COMPLETE, fiber := Terminated(Str("test1"), Scenarios.Services)),
                   [], [TaskResult("test n°1", Str("test1"), 1)])
  }

  lemma LateSpread()
    ensures Merge([], Scenarios.Services) == Scenarios.Services
  {
    Scenarios.ServicesSpread();
    assert [] + Scenarios.Services == Scenarios.Services + [];
  }

  lemma LateFirstTurn()
    ensures Turn(Alone(), 1, Scenarios.Services) == RunResult(AlonePass1(), None)
  {
    LateSpread();
    Scenarios.ServicesSpread();
  }

  lemma LateHarvest()
    ensures Turn(AlonePass1(), 1, Scenarios.Services) == RunResult(AlonePass2(), None)
  {
  }

  lemma LateParameters()
    ensures var r := Run(Alone(), Scenarios.Services);
            r.raised == None && Returns(r.world.regs.results) == [("test n°1", Str("test1"))]
  {
    LateFirstTurn();
    assert Drive(Alone(), Scenarios.Services) == Drive(AlonePass1(), Scenarios.Services);
    LateHarvest();
    ReturnsInOrder([TaskResult("test n°1", Str("test1"), 1)]);
  }
}
