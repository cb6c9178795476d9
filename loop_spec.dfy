/** `FiberLoop::run` as a function of the loop's whole state: passes over a
    snapshot of the active queue, one `run` and one `reportState` per
    visited task, until the queue is empty or an exception escapes. */
module LoopSpec {
  import opened Values
  import opened PhpArrays
  import opened Tasks
  import opened Records
  import opened Queues
  import opened TaskStep
  import opened Interception

  /** The loop's state: its registries, every task it knows by handle, the
      debug reports, the debug flag and its error handler. */
  datatype World<K, T> = World(
    regs: Registries<K, T>,
    views: map<K, TaskState<T>>,
    reports: seq<TaskReport>,
    debug: bool,
    handler: HandlerState)

  datatype RunResult<K, T> = RunResult(world: World<K, T>, raised: Option<Thrown>)

  /** The queue holds distinct handles of known tasks. */
  predicate WF<K(==), T>(w: World<K, T>) {
    Distinct(w.regs.queue) && forall i :: 0 <= i < |w.regs.queue| ==> w.regs.queue[i] in w.views
  }

  /** `reportState`: a report of the task's id and state, only in debug mode. */
  function ReportState<T>(reports: seq<TaskReport>, debug: bool, t: TaskState<T>): seq<TaskReport> {
    if debug then reports + [TaskReport(t.id, t.executionState)] else reports
  }

  /** One visit of a queued task: its `run`, then, if that returned, its report. */
  function Turn<K(==), T>(w: World<K, T>, k: K, late: Params): (r: RunResult<K, T>)
    requires WF(w) && k in w.regs.queue
    ensures WF(r.world)
  {
    var s := RunTask(k, w.views[k], w.regs, late, Intercepting(w.handler));
    RunTaskGrows(k, w.views[k], w.regs, late, Intercepting(w.handler));
    QueueShrinksMembers(w.regs.queue, s.regs.queue, k);
    var w1 := w.(regs := s.regs, views := w.views[k := s.task]);
    if s.outcome.Raised? then RunResult(w1, Some(s.outcome.thrown))
    else RunResult(w1.(reports := ReportState(w.reports, w.debug, s.task)), None)
  }

  /** The rest of a pass, from position `i` of the snapshot taken when the
      pass began: a task cancelled meanwhile is skipped, a task deferred
      meanwhile waits for the next pass, and an exception ends the pass. */
  function PassFrom<K(==), T>(w: World<K, T>, snap: seq<K>, i: nat, late: Params): (r: RunResult<K, T>)
    requires WF(w) && i <= |snap|
    ensures WF(r.world)
    decreases |snap| - i
  {
    if i == |snap| then RunResult(w, None)
    else if snap[i] !in w.regs.queue then PassFrom(w, snap, i + 1, late)
    else
      var r := Turn(w, snap[i], late);
      if r.raised.Some? then r else PassFrom(r.world, snap, i + 1, late)
  }

  /** Unfolds one step of a pass over a task still queued; the heap
      loop's proof steps through the pass with it. */
  lemma PassFromQueued<K, T>(w: World<K, T>, snap: seq<K>, i: nat, late: Params)
    requires WF(w) && i < |snap| && snap[i] in w.regs.queue
    ensures var r := Turn(w, snap[i], late);
      PassFrom(w, snap, i, late) == if r.raised.Some? then r else PassFrom(r.world, snap, i + 1, late)
  {
  }

  /** Unfolds one step of a pass over a task no longer queued. */
  lemma PassFromSkipped<K, T>(w: World<K, T>, snap: seq<K>, i: nat, late: Params)
    requires WF(w) && i < |snap| && snap[i] !in w.regs.queue
    ensures PassFrom(w, snap, i, late) == PassFrom(w, snap, i + 1, late)
  {
  }

  /** The `while (!isEmpty())` loop: passes until the queue is empty. It
      can only end normally on an empty queue. */
  function Drive<K(==), T>(w: World<K, T>, late: Params): (r: RunResult<K, T>)
    requires WF(w)
    ensures WF(r.world)
    ensures r.raised.None? ==> r.world.regs.queue == []
    decreases SumWeights(w.regs.queue, w.views)
  {
    if w.regs.queue == [] then RunResult(w, None)
    else
      var p := PassFrom(w, w.regs.queue, 0, late);
      if p.raised.Some? then p
      else
        PassDecreases(w, late);
        Drive(p.world, late)
  }

  /** `run`: install the handler, drive the queue empty, then restore the
      handler; an exception leaves the handler installed. */
  function Run<K(==), T>(w: World<K, T>, late: Params): (r: RunResult<K, T>)
    requires WF(w)
    ensures WF(r.world)
  {
    var d := Drive(w.(handler := Register(w.handler)), late);
    if d.raised.Some? then d
    else RunResult(d.world.(handler := Restore(d.world.handler)), None)
  }

  // ---------------------------------------------------------------------
  // Termination

  /** The work left in the queue: the sum of the queued tasks' weights. */
  function SumWeights<K(==), T>(q: seq<K>, views: map<K, TaskState<T>>): nat {
    if q == [] then 0
    else (if q[0] in views then TaskWeight(views[q[0]]) else 0) + SumWeights(q[1..], views)
  }

  function WeightOf<K(==), T>(views: map<K, TaskState<T>>, k: K): nat {
    if k in views then TaskWeight(views[k]) else 0
  }

  lemma {:induction false} SumWeightsRemove<K, T>(q: seq<K>, views: map<K, TaskState<T>>, k: K)
    requires k in q && Distinct(q)
    ensures SumWeights(Remove(q, k), views) + WeightOf(views, k) == SumWeights(q, views)
  {
    if q[0] == k {
      assert k !in q[1..] by {
        forall j | 0 <= j < |q[1..]| ensures q[1..][j] != k {
          assert q[1..][j] == q[j + 1];
        }
      }
      RemoveAbsent(q[1..], k);
    } else {
      assert Distinct(q[1..]);
      SumWeightsRemove(q[1..], views, k);
      assert Remove(q, k) == [q[0]] + Remove(q[1..], k);
      assert ([q[0]] + Remove(q[1..], k))[1..] == Remove(q[1..], k);
    }
  }

  lemma {:induction false} SumWeightsOther<K, T>(q: seq<K>, views: map<K, TaskState<T>>, k: K, t: TaskState<T>)
    requires k !in q
    ensures SumWeights(q, views[k := t]) == SumWeights(q, views)
  {
    if q != [] {
      SumWeightsOther(q[1..], views, k, t);
    }
  }

  /** Changing one queued task's state changes the work left by exactly the
      change of its weight. */
  lemma SumWeightsUpdate<K, T>(q: seq<K>, views: map<K, TaskState<T>>, k: K, t: TaskState<T>)
    requires k in q && Distinct(q)
    ensures SumWeights(q, views[k := t]) + WeightOf(views, k) == SumWeights(q, views) + TaskWeight(t)
  {
    SumWeightsRemove(q, views, k);
    SumWeightsRemove(q, views[k := t], k);
    RemoveMembers(q, k);
    SumWeightsOther(Remove(q, k), views, k, t);
  }

  /** Every turn that returns lowers the work left. */
  lemma TurnDecreases<K, T>(w: World<K, T>, k: K, late: Params)
    requires WF(w) && k in w.regs.queue
    ensures var r := Turn(w, k, late);
      r.raised.None? ==> SumWeights(r.world.regs.queue, r.world.views) < SumWeights(w.regs.queue, w.views)
  {
    var q := w.regs.queue;
    var t := w.views[k];
    var s := RunTask(k, t, w.regs, late, Intercepting(w.handler));
    RunTaskGrows(k, t, w.regs, late, Intercepting(w.handler));
    RunTaskWeight(k, t, w.regs, late, Intercepting(w.handler));
    SumWeightsRemove(q, w.views, k);
    if s.outcome.Returned? {
      if k !in s.regs.queue {
        if s.regs.queue != [] {
          assert s.regs.queue == Remove(q, k);
          RemoveMembers(q, k);
          SumWeightsOther(Remove(q, k), w.views, k, s.task);
        }
      } else {
        SumWeightsUpdate(q, w.views, k, s.task);
      }
    }
  }

  lemma {:induction false} PassFromDecreases<K, T>(w: World<K, T>, snap: seq<K>, i: nat, late: Params)
    requires WF(w) && i <= |snap|
    ensures var r := PassFrom(w, snap, i, late);
      r.raised.None? ==> SumWeights(r.world.regs.queue, r.world.views) <= SumWeights(w.regs.queue, w.views)
    ensures var r := PassFrom(w, snap, i, late);
      r.raised.None? && i < |snap| && snap[i] in w.regs.queue ==>
        SumWeights(r.world.regs.queue, r.world.views) < SumWeights(w.regs.queue, w.views)
    decreases |snap| - i
  {
    if i < |snap| {
      if snap[i] !in w.regs.queue {
        PassFromDecreases(w, snap, i + 1, late);
      } else {
        var r := Turn(w, snap[i], late);
        TurnDecreases(w, snap[i], late);
        if r.raised.None? {
          PassFromDecreases(r.world, snap, i + 1, late);
        }
      }
    }
  }

  /** A pass over a non-empty queue that does not raise lowers the work left. */
  lemma PassDecreases<K, T>(w: World<K, T>, late: Params)
    requires WF(w) && w.regs.queue != []
    ensures var r := PassFrom(w, w.regs.queue, 0, late);
      r.raised.None? ==> SumWeights(r.world.regs.queue, r.world.views) < SumWeights(w.regs.queue, w.views)
  {
    PassFromDecreases(w, w.regs.queue, 0, late);
  }

  // ---------------------------------------------------------------------
  // What a run promises

  /** The registries a run leaves are extensions of those it found. */
  ghost predicate AppendOnly<K, T>(before: World<K, T>, after: World<K, T>) {
    before.regs.results <= after.regs.results
    && before.regs.errors <= after.regs.errors
    && before.reports <= after.reports
  }

  /** A visit appends the task's report if and only if debug is on, and
      exactly that report; the registries only grow. */
  lemma TurnReports<K, T>(w: World<K, T>, k: K, late: Params)
    requires WF(w) && k in w.regs.queue
    ensures var r := Turn(w, k, late);
      var t := RunTask(k, w.views[k], w.regs, late, Intercepting(w.handler)).task;
      AppendOnly(w, r.world)
      && (r.raised.None? && w.debug ==> r.world.reports == w.reports + [TaskReport(t.id, t.executionState)])
      && (!w.debug || r.raised.Some? ==> r.world.reports == w.reports)
      && r.world.views == w.views[k := t]
      && r.world.debug == w.debug && r.world.handler == w.handler
  {
    RunTaskGrows(k, w.views[k], w.regs, late, Intercepting(w.handler));
  }

  lemma {:induction false} PassFromAppendOnly<K, T>(w: World<K, T>, snap: seq<K>, i: nat, late: Params)
    requires WF(w) && i <= |snap|
    ensures var r := PassFrom(w, snap, i, late);
      AppendOnly(w, r.world) && r.world.debug == w.debug && r.world.handler == w.handler
    decreases |snap| - i
  {
    if i < |snap| {
      if snap[i] !in w.regs.queue {
        PassFromAppendOnly(w, snap, i + 1, late);
      } else {
        TurnReports(w, snap[i], late);
        var r := Turn(w, snap[i], late);
        if r.raised.None? {
          PassFromAppendOnly(r.world, snap, i + 1, late);
        }
      }
    }
  }

  lemma {:induction false} DriveAppendOnly<K, T>(w: World<K, T>, late: Params)
    requires WF(w)
    ensures var r := Drive(w, late);
      AppendOnly(w, r.world) && r.world.debug == w.debug && r.world.handler == w.handler
    decreases SumWeights(w.regs.queue, w.views)
  {
    if w.regs.queue != [] {
      var p := PassFrom(w, w.regs.queue, 0, late);
      PassFromAppendOnly(w, w.regs.queue, 0, late);
      if p.raised.None? {
        PassDecreases(w, late);
        DriveAppendOnly(p.world, late);
      }
    }
  }

  /** `run` returns normally only with an empty queue, never loses a
      result, an error or a report, and leaves the handler as one
      `register` (and, on a normal return, one `restore`) left it. */
  lemma RunPromises<K, T>(w: World<K, T>, late: Params)
    requires WF(w)
    ensures var r := Run(w, late);
      (r.raised.None? ==> r.world.regs.queue == [] && r.world.handler == Restore(Register(w.handler)))
      && (r.raised.Some? ==> r.world.handler == Register(w.handler))
      && AppendOnly(w, r.world) && r.world.debug == w.debug
  {
    DriveAppendOnly(w.(handler := Register(w.handler)), late);
  }

  /** With the handler switched on and not yet registered, a run that
      returns normally gives the runtime its handler stack back. */
  lemma RunRestoresStack<K, T>(w: World<K, T>, late: Params)
    requires WF(w) && w.handler.isOn && !w.handler.isRegistered
    ensures var r := Run(w, late);
      r.raised.None? ==> r.world.handler.stack == w.handler.stack && r.world.handler.isRegistered
  {
    RunPromises(w, late);
    RegisterRestoreRoundTrip(w.handler);
  }

  /** A run over an empty queue registers and restores the handler and
      does nothing else. */
  lemma RunEmpty<K, T>(w: World<K, T>, late: Params)
    requires WF(w) && w.regs.queue == []
    ensures Run(w, late) == RunResult(w.(handler := Restore(Register(w.handler))), None)
  {
  }
}
