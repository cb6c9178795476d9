/** Runs of the loop over the scripted bodies of the repository's tests,
    computed through LoopSpec: tasks are numbered handles, timers numbers. */
module Scenarios {
  import opened Values
  import opened TaskStates
  import opened PhpArrays
  import opened Fibers
  import opened Tasks
  import opened Records
  import opened TaskStep
  import opened Interception
  import opened LoopSpec
  import opened Queries
  import Decimal
  import MaxTries

  /** `Example('test1', 'test2')`: waits two turns for service test2. */
  const Ex1: Body := Yield(Null, Yield(Null, Return(Str("test1"))))
  /** `Example('test2', 'test3')`: waits one turn for service test3. */
  const Ex2: Body := Yield(Null, Return(Str("test2")))
  /** `Example('test3')`: waits for nothing. */
  const Ex3: Body := Return(Str("test3"))

  /** `['loop' => $loop, 'service' => $service]`. */
  const Services: Params := [(Named("loop"), Null), (Named("service"), Null)]

  function Example(id: string, body: Body, counter: int): TaskState<int> {
    NewTask("random", body, Services, counter).(id := id)
  }

  /** The first task, `identifiedBy('test n°1')`, with its limit and limit action. */
  function First(limit: int, action: LimitAction): TaskState<int> {
    Example("test n°1", Ex1, 1).(limit := limit, limitAction := action)
  }

  function Loop(t1: TaskState<int>, debug: bool): World<int, int> {
    World(Registries([1, 2, 3], [], []),
          map[1 := t1, 2 := Example("test n°2", Ex2, 2), 3 := Example("test n°3", Ex3, 3)],
          [], debug, Initial([]))
  }

  /** One turn of task `k` that leaves it in state `v`, the queue at
      `queue` and the results at `results`; errors are untouched. */
  function Step(w: World<int, int>, k: int, v: TaskState<int>, queue: seq<int>, results: seq<TaskResult<int>>)
    : World<int, int>
  {
    w.(regs := Registries(queue, results, w.regs.errors), views := w.views[k := v],
       reports := ReportState(w.reports, w.debug, v))
  }

  function Second(): TaskState<int> { Example("test n°2", Ex2, 2) }
  function Third(): TaskState<int> { Example("test n°3", Ex3, 3) }

  function At(t: TaskState<int>, turn: int, s: ExecutionState, f: Fiber): TaskState<int> {
    t.(turn := turn, executionState := s, fiber := f)
  }

  const Started1: Fiber := Suspended(Yield(Null, Return(Str("test1"))), Services)
  const Waiting1: Fiber := Suspended(Return(Str("test1")), Services)
  const Done1: Fiber := Terminated(Str("test1"), Services)
  const Started2: Fiber := Suspended(Return(Str("test2")), Services)
  const Done2: Fiber := Terminated(Str("test2"), Services)
  const Done3: Fiber := Terminated(Str("test3"), Services)

  const R1: TaskResult<int> := TaskResult("test n°1", Str("test1"), 1)
  const R2: TaskResult<int> := TaskResult("test n°2", Str("test2"), 2)
  const R3: TaskResult<int> := TaskResult("test n°3", Str("test3"), 3)

  // The first pass: every task starts; the third returns at once.
  function W0a(t1: TaskState<int>, debug: bool): World<int, int> {
    Step(Loop(t1, debug), 1, At(t1, 0, STARTING, Started1), [1, 2, 3], [])
  }
  function W0b(t1: TaskState<int>, debug: bool): World<int, int> {
    Step(W0a(t1, debug), 2, At(Second(), 0, STARTING, Started2), [1, 2, 3], [])
  }
  function W1(t1: TaskState<int>, debug: bool): World<int, int> {
    Step(W0b(t1, debug), 3, At(Third(), 0, STARTING, Done3), [1, 2, 3], [])
  }

  // The second pass: the first two resume, the third is harvested.
  function W1a(t1: TaskState<int>, debug: bool): World<int, int> {
    Step(W1(t1, debug), 1, At(t1, 1, RESUMING, Waiting1), [1, 2, 3], [])
  }
  function W1b(t1: TaskState<int>, debug: bool): World<int, int> {
    Step(W1a(t1, debug), 2, At(Second(), 1, RESUMING, Done2), [1, 2, 3], [])
  }
  function W2(t1: TaskState<int>, debug: bool): World<int, int> {
    Step(W1b(t1, debug), 3, At(Third(), 1, COMPLETE, Done3), [1, 2], [R3])
  }

  // The third pass: the first returns, the second is harvested.
  function W2a(t1: TaskState<int>, debug: bool): World<int, int> {
    Step(W2(t1, debug), 1, At(t1, 2, RESUMING, Done1), [1, 2], [R3])
  }
  function W3(t1: TaskState<int>, debug: bool): World<int, int> {
    Step(W2a(t1, debug), 2, At(Second(), 2, COMPLETE, Done2), [1], [R3, R2])
  }

  // The fourth pass: the first is harvested.
  function W4(t1: TaskState<int>, debug: bool): World<int, int> {
    Step(W3(t1, debug), 1, At(t1, 3, COMPLETE, Done1), [], [R3, R2, R1])
  }

  // With a limit of one try and ABORT, the first task is aborted on the second pass.
  function A1a(t1: TaskState<int>, debug: bool): World<int, int> {
    Step(W1(t1, debug), 1, At(t1, 1, ABORTED, Started1), [2, 3], [])
  }
  function A1b(t1: TaskState<int>, debug: bool): World<int, int> {
    Step(A1a(t1, debug), 2, At(Second(), 1, RESUMING, Done2), [2, 3], [])
  }
  function A2(t1: TaskState<int>, debug: bool): World<int, int> {
    Step(A1b(t1, debug), 3, At(Third(), 1, COMPLETE, Done3), [2], [R3])
  }
  function A3(t1: TaskState<int>, debug: bool): World<int, int> {
    Step(A2(t1, debug), 2, At(Second(), 2, COMPLETE, Done2), [], [R3, R2])
  }

  // With a limit of two tries and ABORT, it is aborted on the third pass.
  function B2a(t1: TaskState<int>, debug: bool): World<int, int> {
    Step(W2(t1, debug), 1, At(t1, 2, ABORTED, Waiting1), [2], [R3])
  }
  function B3(t1: TaskState<int>, debug: bool): World<int, int> {
    Step(B2a(t1, debug), 2, At(Second(), 2, COMPLETE, Done2), [], [R3, R2])
  }

  // With a limit of three tries and THROW, it is rejected on the fourth pass.
  function Rejected(t1: TaskState<int>, debug: bool): World<int, int> {
    W3(t1, debug).(views := W3(t1, debug).views[1 := At(t1, 3, REJECTED, Done1)])
  }

  lemma ServicesSpread()
    ensures Merge(Services, []) == Services && PositionalFirst(Services)
  {
    assert Services + [] == Services;
    assert Services[..1] == [(Named("loop"), Null)];
    assert Services[..1][..0] == [];
    assert Spread(Services[..1]) == [(Named("loop"), Null)];
    assert Assign([(Named("loop"), Null)], Named("service"), Null) == Services;
    assert Merge(Services, []) == Services;
  }

  lemma Turn0a(limit: int, action: LimitAction, debug: bool)
    requires limit >= 1
    ensures Turn(Loop(First(limit, action), debug), 1, []) == RunResult(W0a(First(limit, action), debug), None)
  {
    ServicesSpread();
  }

  lemma Turn0b(limit: int, action: LimitAction, debug: bool)
    ensures Turn(W0a(First(limit, action), debug), 2, []) == RunResult(W0b(First(limit, action), debug), None)
  {
    ServicesSpread();
  }

  lemma Turn0c(limit: int, action: LimitAction, debug: bool)
    ensures Turn(W0b(First(limit, action), debug), 3, []) == RunResult(W1(First(limit, action), debug), None)
  {
    ServicesSpread();
  }

  lemma Turn1a(limit: int, action: LimitAction, debug: bool)
    requires limit > 1
    ensures Turn(W1(First(limit, action), debug), 1, []) == RunResult(W1a(First(limit, action), debug), None)
  {
  }

  lemma Turn1b(limit: int, action: LimitAction, debug: bool)
    ensures Turn(W1a(First(limit, action), debug), 2, []) == RunResult(W1b(First(limit, action), debug), None)
  {
  }

  lemma Turn1c(limit: int, action: LimitAction, debug: bool)
    ensures Turn(W1b(First(limit, action), debug), 3, []) == RunResult(W2(First(limit, action), debug), None)
  {
  }

  lemma Turn2a(limit: int, action: LimitAction, debug: bool)
    requires limit > 2
    ensures Turn(W2(First(limit, action), debug), 1, []) == RunResult(W2a(First(limit, action), debug), None)
  {
  }

  lemma Turn2b(limit: int, action: LimitAction, debug: bool)
    ensures Turn(W2a(First(limit, action), debug), 2, []) == RunResult(W3(First(limit, action), debug), None)
  {
  }

  lemma Turn3(limit: int, action: LimitAction, debug: bool)
    requires limit > 3
    ensures Turn(W3(First(limit, action), debug), 1, []) == RunResult(W4(First(limit, action), debug), None)
  {
  }

  lemma Turn3Rejects(debug: bool)
    ensures Turn(W3(First(3, THROW), debug), 1, [])
         == RunResult(Rejected(First(3, THROW), debug), Some(Reached3))
  {
  }

  /** The exception `setLimit(3)` leads to. */
  const Reached3: Thrown := Thrown.MaxTries(MaxTries.Message("test n°1", 3))

  /** Its message reads "Task with id test n°1 reached 3 tries.". */
  lemma RejectionMessage()
    ensures Reached3.message == "Task with id test n°1 reached 3 tries."
  {
    assert Decimal.IntToString(3) == "3";
    assert MaxTries.Message("test n°1", 3) == "Task with id " + "test n°1" + " reached " + "3" + " tries.";
  }

  lemma Turn1Aborts(debug: bool)
    ensures Turn(W1(First(1, ABORT), debug), 1, []) == RunResult(A1a(First(1, ABORT), debug), None)
  {
  }

  lemma Turn1bAfterAbort(debug: bool)
    ensures Turn(A1a(First(1, ABORT), debug), 2, []) == RunResult(A1b(First(1, ABORT), debug), None)
  {
  }

  lemma Turn1cAfterAbort(debug: bool)
    ensures Turn(A1b(First(1, ABORT), debug), 3, []) == RunResult(A2(First(1, ABORT), debug), None)
  {
  }

  lemma Turn2AfterAbort(debug: bool)
    ensures Turn(A2(First(1, ABORT), debug), 2, []) == RunResult(A3(First(1, ABORT), debug), None)
  {
  }

  lemma Turn2Aborts(debug: bool)
    ensures Turn(W2(First(2, ABORT), debug), 1, []) == RunResult(B2a(First(2, ABORT), debug), None)
  {
  }

  lemma Turn2bAfterAbort(debug: bool)
    ensures Turn(B2a(First(2, ABORT), debug), 2, []) == RunResult(B3(First(2, ABORT), debug), None)
  {
  }

  // ---------------------------------------------------------------------
  // Whole passes.

  lemma Pass1(limit: int, action: LimitAction, debug: bool)
    requires limit >= 1
    ensures PassFrom(Loop(First(limit, action), debug), [1, 2, 3], 0, []) == RunResult(W1(First(limit, action), debug), None)
  {
    Turn0a(limit, action, debug);
    Turn0b(limit, action, debug);
    Turn0c(limit, action, debug);
  }

  lemma Pass2(limit: int, action: LimitAction, debug: bool)
    requires limit > 1
    ensures PassFrom(W1(First(limit, action), debug), [1, 2, 3], 0, []) == RunResult(W2(First(limit, action), debug), None)
  {
    var t1 := First(limit, action);
    Turn1a(limit, action, debug);
    assert PassFrom(W1(t1, debug), [1, 2, 3], 0, []) == PassFrom(W1a(t1, debug), [1, 2, 3], 1, []);
    Turn1b(limit, action, debug);
    assert PassFrom(W1a(t1, debug), [1, 2, 3], 1, []) == PassFrom(W1b(t1, debug), [1, 2, 3], 2, []);
    Turn1c(limit, action, debug);
  }

  lemma Pass3(limit: int, action: LimitAction, debug: bool)
    requires limit > 2
    ensures PassFrom(W2(First(limit, action), debug), [1, 2], 0, []) == RunResult(W3(First(limit, action), debug), None)
  {
    Turn2a(limit, action, debug);
    Turn2b(limit, action, debug);
  }

  lemma Pass4(limit: int, action: LimitAction, debug: bool)
    requires limit > 3
    ensures PassFrom(W3(First(limit, action), debug), [1], 0, []) == RunResult(W4(First(limit, action), debug), None)
  {
    Turn3(limit, action, debug);
  }

  lemma Pass2Aborts(debug: bool)
    ensures PassFrom(W1(First(1, ABORT), debug), [1, 2, 3], 0, []) == RunResult(A2(First(1, ABORT), debug), None)
  {
    Turn1Aborts(debug);
    Turn1bAfterAbort(debug);
    Turn1cAfterAbort(debug);
  }

  lemma Pass3AfterAbort(debug: bool)
    ensures PassFrom(A2(First(1, ABORT), debug), [2], 0, []) == RunResult(A3(First(1, ABORT), debug), None)
  {
    Turn2AfterAbort(debug);
  }

  lemma Pass3Aborts(debug: bool)
    ensures PassFrom(W2(First(2, ABORT), debug), [1, 2], 0, []) == RunResult(B3(First(2, ABORT), debug), None)
  {
    Turn2Aborts(debug);
    Turn2bAfterAbort(debug);
  }

  lemma Pass4Rejects(debug: bool)
    ensures PassFrom(W3(First(3, THROW), debug), [1], 0, [])
         == RunResult(Rejected(First(3, THROW), debug), Some(Reached3))
  {
    Turn3Rejects(debug);
  }

  // ---------------------------------------------------------------------
  // Whole runs.

  /** A handler that was never switched on is neither pushed nor popped. */
  lemma QuietHandler(t1: TaskState<int>, debug: bool)
    ensures Loop(t1, debug).(handler := Register(Loop(t1, debug).handler)) == Loop(t1, debug)
    ensures Restore(Loop(t1, debug).handler) == Initial([])
  {
  }

  /** Four passes run every task to completion. */
  lemma RunCompletes(limit: int, action: LimitAction, debug: bool)
    requires limit > 3
    ensures Run(Loop(First(limit, action), debug), []) == RunResult(W4(First(limit, action), debug), None)
  {
    var t1 := First(limit, action);
    QuietHandler(t1, debug);
    Pass1(limit, action, debug);
    assert Drive(Loop(t1, debug), []) == Drive(W1(t1, debug), []);
    Pass2(limit, action, debug);
    assert Drive(W1(t1, debug), []) == Drive(W2(t1, debug), []);
    Pass3(limit, action, debug);
    assert Drive(W2(t1, debug), []) == Drive(W3(t1, debug), []);
    Pass4(limit, action, debug);
  }

  /** `test_fiberloop_with_a_class`: the run ends normally and `getReturns`
      lists the tasks in the order they completed, the task that waits for
      nothing first. */
  lemma CompletionOrder()
    ensures var r := Run(Loop(First(DefaultLimit, THROW), false), []);
            r.raised == None
            && Returns(r.world.regs.results)
               == [("test n°3", Str("test3")), ("test n°2", Str("test2")), ("test n°1", Str("test1"))]
  {
    RunCompletes(DefaultLimit, THROW, false);
    ThreePairs();
  }

  /** The three results carry three different ids, so `getReturns` keeps
      them all, in order. */
  lemma ThreePairs()
    ensures Returns([R3, R2, R1]) == [("test n°3", Str("test3")), ("test n°2", Str("test2")), ("test n°1", Str("test1"))]
  {
    var rs := [R3, R2, R1];
    assert R1.id != R2.id && R1.id != R3.id && R2.id != R3.id by {
      assert R1.id[7] == '1' && R2.id[7] == '2' && R3.id[7] == '3';
    }
    ReturnsInOrder(rs);
  }

  /** `testTaskMaxTries`: with `setLimit(3)`, the first task's fourth turn
      raises the limit exception out of `run`. */
  lemma MaxTriesRaised()
    ensures Run(Loop(First(3, THROW), false), []).raised
         == Some(Reached3)
  {
    var t1 := First(3, THROW);
    QuietHandler(t1, false);
    Pass1(3, THROW, false);
    assert Drive(Loop(t1, false), []) == Drive(W1(t1, false), []);
    Pass2(3, THROW, false);
    assert Drive(W1(t1, false), []) == Drive(W2(t1, false), []);
    Pass3(3, THROW, false);
    assert Drive(W2(t1, false), []) == Drive(W3(t1, false), []);
    Pass4Rejects(false);
  }

  /** With `setLimit(2)` and `cancelOnReachedLimit`, three passes end the run. */
  lemma RunAbortsOnThirdPass()
    ensures Run(Loop(First(2, ABORT), false), []) == RunResult(B3(First(2, ABORT), false), None)
  {
    var t1 := First(2, ABORT);
    QuietHandler(t1, false);
    Pass1(2, ABORT, false);
    assert Drive(Loop(t1, false), []) == Drive(W1(t1, false), []);
    Pass2(2, ABORT, false);
    assert Drive(W1(t1, false), []) == Drive(W2(t1, false), []);
    Pass3Aborts(false);
  }

  /** `test_task_self_abortion_after_maxtries`: the first task is dropped
      and only the two others return. */
  lemma AbortAfterMaxTries()
    ensures var r := Run(Loop(First(2, ABORT), false), []);
            r.raised == None
            && Returns(r.world.regs.results) == [("test n°3", Str("test3")), ("test n°2", Str("test2"))]
  {
    RunAbortsOnThirdPass();
    assert B3(First(2, ABORT), false).regs.results == [R3, R2];
    ReturnsInOrder([R3, R2]);
  }

  /** With `setLimit(1)` and `cancelOnReachedLimit`, the first task is
      aborted on the second pass and the run ends after the third. */
  lemma RunAbortsOnSecondPass(debug: bool)
    ensures Run(Loop(First(1, ABORT), debug), []) == RunResult(A3(First(1, ABORT), debug), None)
  {
    var t1 := First(1, ABORT);
    QuietHandler(t1, debug);
    Pass1(1, ABORT, debug);
    assert Drive(Loop(t1, debug), []) == Drive(W1(t1, debug), []);
    Pass2Aborts(debug);
    assert Drive(W1(t1, debug), []) == Drive(A2(t1, debug), []);
    Pass3AfterAbort(debug);
  }

  const StartReports: seq<TaskReport> :=
    [TaskReport("test n°1", STARTING), TaskReport("test n°2", STARTING), TaskReport("test n°3", STARTING)]
  const LaterReports: seq<TaskReport> :=
    [TaskReport("test n°1", ABORTED), TaskReport("test n°2", RESUMING), TaskReport("test n°3", COMPLETE),
     TaskReport("test n°2", COMPLETE)]

  /** In debug mode, each turn that does not raise leaves one report. */
  lemma DebugRegistry()
    ensures A3(First(1, ABORT), true).reports == StartReports + LaterReports
  {
  }

  lemma StartingName()
    ensures Upper("starting") == Name(STARTING)
  {
  }

  lemma DebugCounts()
    ensures |Reports(StartReports + LaterReports, ByName("starting"))| == 3
    ensures |Reports(StartReports + LaterReports, ByState(COMPLETE))| == 2
    ensures |Reports(StartReports + LaterReports, ByState(ABORTED))| == 1
  {
    StartingName();
    ReportsByName(StartReports + LaterReports, "starting", STARTING);
    WithStateConcat(StartReports, LaterReports, STARTING);
    WithStateConcat(StartReports, LaterReports, COMPLETE);
    WithStateConcat(StartReports, LaterReports, ABORTED);
    FilterStartReports();
    FilterLaterReports();
  }

  /** Filtering three reports one by one. */
  lemma FilterThree(x: TaskReport, y: TaskReport, z: TaskReport, s: ExecutionState)
    ensures WithState([x, y, z], s) == WithState([x], s) + WithState([y], s) + WithState([z], s)
  {
    assert [x, y, z] == [x] + [y] + [z];
    WithStateConcat([x] + [y], [z], s);
    WithStateConcat([x], [y], s);
  }

  lemma FilterStartReports()
    ensures WithState(StartReports, STARTING) == StartReports
    ensures WithState(StartReports, COMPLETE) == [] && WithState(StartReports, ABORTED) == []
  {
    var x, y, z := TaskReport("test n°1", STARTING), TaskReport("test n°2", STARTING), TaskReport("test n°3", STARTING);
    forall s: ExecutionState ensures WithState(StartReports, s) == WithState([x], s) + WithState([y], s) + WithState([z], s) {
      FilterThree(x, y, z, s);
    }
    forall s: ExecutionState ensures WithState([x], s) == (if s == STARTING then [x] else [])
                                && WithState([y], s) == (if s == STARTING then [y] else [])
                                && WithState([z], s) == (if s == STARTING then [z] else []) {
      WithStateSingle(x, s);
      WithStateSingle(y, s);
      WithStateSingle(z, s);
    }
  }

  lemma FilterLaterReports()
    ensures WithState(LaterReports, STARTING) == []
    ensures |WithState(LaterReports, COMPLETE)| == 2 && |WithState(LaterReports, ABORTED)| == 1
  {
    var w, x, y, z := TaskReport("test n°1", ABORTED), TaskReport("test n°2", RESUMING),
                      TaskReport("test n°3", COMPLETE), TaskReport("test n°2", COMPLETE);
    forall s: ExecutionState ensures WithState(LaterReports, s) == WithState([w, x, y], s) + WithState([z], s) {
      assert LaterReports == [w, x, y] + [z];
      WithStateConcat([w, x, y], [z], s);
    }
    forall s: ExecutionState ensures WithState([w, x, y], s) == WithState([w], s) + WithState([x], s) + WithState([y], s) {
      FilterThree(w, x, y, s);
    }
    forall s: ExecutionState
      ensures WithState([w], s) == (if s == ABORTED then [w] else [])
           && WithState([x], s) == (if s == RESUMING then [x] else [])
           && WithState([y], s) == (if s == COMPLETE then [y] else [])
           && WithState([z], s) == (if s == COMPLETE then [z] else [])
    {
      WithStateSingle(w, s);
      WithStateSingle(x, s);
      WithStateSingle(y, s);
      WithStateSingle(z, s);
    }
  }

  /** `testTasksReport`: in debug mode, three reports say STARTING, two
      COMPLETE and one ABORTED. */
  lemma ReportCounts()
    ensures var r := Run(Loop(First(1, ABORT), true), []);
            r.raised == None
            && |Reports(r.world.reports, ByName("starting"))| == 3
            && |Reports(r.world.reports, ByState(COMPLETE))| == 2
            && |Reports(r.world.reports, ByState(ABORTED))| == 1
  {
    RunAbortsOnSecondPass(true);
    DebugRegistry();
    DebugCounts();
  }
}
