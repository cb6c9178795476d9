/** The loop's read-only queries over its registries: returns by task id,
    errors by task id, error ids in registration order, and the debug
    reports filtered by execution state. */
module Queries {
  import opened Values
  import opened TaskStates
  import opened PhpArrays
  import opened Records
  import opened Queues

  /** The `$returns[$result->id] = $result->return` assignments, in the
      order the results were recorded. */
  function ResultPairs<T>(rs: seq<TaskResult<T>>): (ps: seq<(string, Value)>)
    ensures |ps| == |rs| && forall i :: 0 <= i < |rs| ==> ps[i] == (rs[i].id, rs[i].returned)
  {
    if rs == [] then [] else ResultPairs(rs[..|rs| - 1]) + [(rs[|rs| - 1].id, rs[|rs| - 1].returned)]
  }

  /** `getReturns`. */
  function Returns<T>(rs: seq<TaskResult<T>>): seq<(string, Value)> {
    ArrayFrom(ResultPairs(rs))
  }

  /** `getReturnOf`: the return value under `id`, or null. */
  function ReturnOf<T>(rs: seq<TaskResult<T>>, id: string): Value {
    match Get(Returns(rs), id)
    case Some(v) => v
    case None => Null
  }

  /** The `$errors[$id] = $exception` assignments, in registration order. */
  function ErrorPairs(es: seq<ErrorRecord>): (ps: seq<(string, Thrown)>)
    ensures |ps| == |es| && forall i :: 0 <= i < |es| ==> ps[i] == (es[i].id, es[i].thrown)
  {
    if es == [] then [] else ErrorPairs(es[..|es| - 1]) + [(es[|es| - 1].id, es[|es| - 1].thrown)]
  }

  /** `getErrors`. */
  function Errors(es: seq<ErrorRecord>): seq<(string, Thrown)> {
    ArrayFrom(ErrorPairs(es))
  }

  /** `getErrorIds`: one id per registered error, in registration order,
      repeats included. */
  function ErrorIds(es: seq<ErrorRecord>): (ids: seq<string>)
    ensures |ids| == |es| && forall i :: 0 <= i < |es| ==> ids[i] == es[i].id
  {
    if es == [] then [] else ErrorIds(es[..|es| - 1]) + [es[|es| - 1].id]
  }

  /** `getErrorFor`: the exception under `id`, or null. */
  function ErrorFor(es: seq<ErrorRecord>, id: string): Option<Thrown> {
    Get(Errors(es), id)
  }

  /** What `getReports` is given: nothing, a case name, or a case. */
  datatype ReportFilter = NoFilter | ByName(name: string) | ByState(state: ExecutionState)

  /** The registry's `filter` on `$report->state == $withState`. */
  function WithState(reports: seq<TaskReport>, s: ExecutionState): seq<TaskReport> {
    if reports == [] then []
    else WithState(reports[..|reports| - 1], s)
         + (if reports[|reports| - 1].state == s then [reports[|reports| - 1]] else [])
  }

  /** `getReports`: a name is looked up among the case names without regard
      to case; an unknown name, like no filter, gives the whole registry. */
  function Reports(reports: seq<TaskReport>, f: ReportFilter): seq<TaskReport> {
    match f
    case NoFilter => reports
    case ByState(s) => WithState(reports, s)
    case ByName(name) =>
      match FromName(name)
      case Some(s) => WithState(reports, s)
      case None => reports
  }

  // ---------------------------------------------------------------------

  /** The last pair with key `k` decides `LastValue`: none when no pair has
      that key, otherwise the value of the last such pair. */
  lemma {:induction false} LastValueAt<V>(ps: seq<(string, V)>, k: string, i: int)
    requires i == -1 || (0 <= i < |ps| && ps[i].0 == k)
    requires forall j :: i < j < |ps| ==> ps[j].0 != k
    ensures LastValue(ps, k) == if i == -1 then None else Some(ps[i].1)
    decreases |ps|
  {
    if ps != [] && i != |ps| - 1 {
      LastValueAt(ps[..|ps| - 1], k, i);
    }
  }

  /** `getReturnOf(id)` is the return value of the last result recorded
      under `id`, and null when no result carries that id. */
  lemma ReturnOfLast<T>(rs: seq<TaskResult<T>>, id: string, i: int)
    requires i == -1 || (0 <= i < |rs| && rs[i].id == id)
    requires forall j :: i < j < |rs| ==> rs[j].id != id
    ensures ReturnOf(rs, id) == if i == -1 then Null else rs[i].returned
  {
    ArrayFromGet(ResultPairs(rs), id);
    LastValueAt(ResultPairs(rs), id, i);
  }

  /** `getReturns` has one entry per distinct id, in the order the ids
      first completed: every recorded id, each once. */
  lemma ReturnsKeys<T>(rs: seq<TaskResult<T>>)
    ensures Keys(Returns(rs)) == Dedup(Keys(ResultPairs(rs)))
    ensures forall i :: 0 <= i < |rs| ==> rs[i].id in Keys(Returns(rs))
    ensures Distinct(Keys(Returns(rs)))
  {
    ArrayFromKeys(ResultPairs(rs));
    DedupMembers(Keys(ResultPairs(rs)));
    forall i | 0 <= i < |rs| ensures rs[i].id in Keys(Returns(rs)) {
      assert Keys(ResultPairs(rs))[i] == rs[i].id;
    }
  }

  /** When no id completed twice, `getReturns` lists every result, in the
      order the results were recorded. */
  lemma ReturnsInOrder<T>(rs: seq<TaskResult<T>>)
    requires forall i, j :: 0 <= i < j < |rs| ==> rs[i].id != rs[j].id
    ensures Returns(rs) == ResultPairs(rs)
  {
    var ps := ResultPairs(rs);
    assert forall i :: 0 <= i < |rs| ==> Keys(ps)[i] == rs[i].id;
    ArrayFromDistinct(ps);
  }

  /** `getErrorFor(id)` is the last exception registered under `id`, and
      null when none was. */
  lemma ErrorForLast(es: seq<ErrorRecord>, id: string, i: int)
    requires i == -1 || (0 <= i < |es| && es[i].id == id)
    requires forall j :: i < j < |es| ==> es[j].id != id
    ensures ErrorFor(es, id) == if i == -1 then None else Some(es[i].thrown)
  {
    ArrayFromGet(ErrorPairs(es), id);
    LastValueAt(ErrorPairs(es), id, i);
  }

  /** An id has an error if and only if it is among `getErrorIds`. */
  lemma ErrorForIds(es: seq<ErrorRecord>, id: string)
    ensures ErrorFor(es, id).Some? <==> id in ErrorIds(es)
  {
    if id in ErrorIds(es) {
      var i :| 0 <= i < |es| && ErrorIds(es)[i] == id;
      while i + 1 < |es| && exists j :: i < j < |es| && es[j].id == id
        invariant 0 <= i < |es| && es[i].id == id
        decreases |es| - i
      {
        var j :| i < j < |es| && es[j].id == id;
        i := j;
      }
      ErrorForLast(es, id, i);
    } else {
      ErrorForLast(es, id, -1);
    }
  }

  /** The state filter keeps exactly the reports in that state, in order. */
  lemma {:induction false} WithStateMembers(reports: seq<TaskReport>, s: ExecutionState)
    ensures forall r :: r in WithState(reports, s) <==> r in reports && r.state == s
    ensures |WithState(reports, s)| <= |reports|
  {
    if reports != [] {
      var init := reports[..|reports| - 1];
      WithStateMembers(init, s);
      assert reports == init + [reports[|reports| - 1]];
    }
  }

  /** A single report is kept exactly when it is in the state filtered on. */
  lemma WithStateSingle(r: TaskReport, s: ExecutionState)
    ensures WithState([r], s) == if r.state == s then [r] else []
  {
    assert [r][..0] == [];
  }

  /** Filtering a registry filters each of its parts. */
  lemma {:induction false} WithStateConcat(a: seq<TaskReport>, b: seq<TaskReport>, s: ExecutionState)
    ensures WithState(a + b, s) == WithState(a, s) + WithState(b, s)
    decreases |b|
  {
    if b != [] {
      var init := b[..|b| - 1];
      WithStateConcat(a, init, s);
      assert (a + b)[..|a + b| - 1] == a + init;
      assert (a + b)[|a + b| - 1] == b[|b| - 1];
      assert init + [b[|b| - 1]] == b;
      assert WithState(b, s) == WithState(init, s) + (if b[|b| - 1].state == s then [b[|b| - 1]] else []);
    } else {
      assert a + b == a;
    }
  }

  /** Filtering by a name is filtering by the case it names, whatever the
      letter case of the name: `getReports('starting')` is
      `getReports(STARTING)`. */
  lemma ReportsByName(reports: seq<TaskReport>, name: string, s: ExecutionState)
    requires Upper(name) == Name(s)
    ensures Reports(reports, ByName(name)) == Reports(reports, ByState(s))
  {
    FromNameSelects(name, s);
  }

  /** A name that is no case's name filters nothing out. */
  lemma ReportsUnknownName(reports: seq<TaskReport>, name: string)
    requires forall s: ExecutionState :: Upper(name) != Name(s)
    ensures Reports(reports, ByName(name)) == reports
  {
    if FromName(name).Some? {
      FromNameSelects(name, FromName(name).value);
    }
  }
}
