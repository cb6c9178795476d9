/** The enumerations a task's state is made of: the execution lifecycle
    (TaskExecutionState), the run/wait flag (TaskRunState) and the policy on
    reaching the retry limit (TaskOnExcess). */
module TaskStates {
  import opened Values

  datatype ExecutionState =
    | INITIAL | STARTING | RESUMING | COMPLETE | CANCELLED | ABORTED | REJECTED | ONERROR

  datatype RunState = RUN | WAIT

  datatype LimitAction = THROW | ABORT

  /** The `match` of `isStarted`: three cases answer true, the `default`
      arm answers false for all others. */
  predicate IsStarted(s: ExecutionState) {
    match s
    case STARTING | RESUMING | COMPLETE => true
    case _ => false
  }

  /** `TaskExecutionState::cases()`, in declaration order. */
  const Cases: seq<ExecutionState> :=
    [INITIAL, STARTING, RESUMING, COMPLETE, CANCELLED, ABORTED, REJECTED, ONERROR]

  /** The `name` of an enum case. */
  function Name(s: ExecutionState): string {
    match s
    case INITIAL => "INITIAL"
    case STARTING => "STARTING"
    case RESUMING => "RESUMING"
    case COMPLETE => "COMPLETE"
    case CANCELLED => "CANCELLED"
    case ABORTED => "ABORTED"
    case REJECTED => "REJECTED"
    case ONERROR => "ONERROR"
  }

  /** `strtoupper` on one character: ASCII letters only. */
  function UpperChar(c: char): char {
    if 'a' <= c <= 'z' then ((c as int) - 32) as char else c
  }

  function Upper(s: string): (r: string)
    ensures |r| == |s| && forall i :: 0 <= i < |s| ==> r[i] == UpperChar(s[i])
  {
    if s == [] then [] else [UpperChar(s[0])] + Upper(s[1..])
  }

  /** The first of `cases` whose name equals `target`. */
  function FindCase(cases: seq<ExecutionState>, target: string): Option<ExecutionState> {
    if cases == [] then None
    else if Name(cases[0]) == target then Some(cases[0])
    else FindCase(cases[1..], target)
  }

  /** The case a report filter names, compared case-insensitively. */
  function FromName(name: string): Option<ExecutionState> {
    FindCase(Cases, Upper(name))
  }

  /** There are exactly eight cases, all distinct, and `Cases` lists every one. */
  lemma CasesAreTheEightStates()
    ensures |Cases| == 8
    ensures forall i, j :: 0 <= i < j < |Cases| ==> Cases[i] != Cases[j]
    ensures forall s: ExecutionState :: s in Cases
  {
    forall s: ExecutionState ensures s in Cases {
      match s
      case INITIAL => assert Cases[0] == s;
      case STARTING => assert Cases[1] == s;
      case RESUMING => assert Cases[2] == s;
      case COMPLETE => assert Cases[3] == s;
      case CANCELLED => assert Cases[4] == s;
      case ABORTED => assert Cases[5] == s;
      case REJECTED => assert Cases[6] == s;
      case ONERROR => assert Cases[7] == s;
    }
  }

  /** Different cases have different names. */
  lemma NameInjective(a: ExecutionState, b: ExecutionState)
    ensures Name(a) == Name(b) ==> a == b
  {
    if a != b {
      assert Name(a)[0] != Name(b)[0] || |Name(a)| != |Name(b)| || Name(a)[1] != Name(b)[1] || Name(a)[2] != Name(b)[2];
    }
  }

  /** `isStarted` holds for exactly STARTING, RESUMING and COMPLETE. */
  lemma IsStartedCases(s: ExecutionState)
    ensures IsStarted(s) <==> (s == STARTING || s == RESUMING || s == COMPLETE)
    ensures !IsStarted(s) <==> s in {INITIAL, CANCELLED, ABORTED, REJECTED, ONERROR}
  {
  }

  lemma {:induction false} FindCaseFound(cases: seq<ExecutionState>, target: string, s: ExecutionState)
    requires s in cases && Name(s) == target
    ensures FindCase(cases, target) == Some(s)
  {
    NameInjective(cases[0], s);
    if cases[0] != s {
      assert s in cases[1..];
      FindCaseFound(cases[1..], target, s);
    }
  }

  lemma {:induction false} FindCaseSound(cases: seq<ExecutionState>, target: string)
    ensures FindCase(cases, target).Some? ==>
      FindCase(cases, target).value in cases && Name(FindCase(cases, target).value) == target
  {
    if cases != [] && Name(cases[0]) != target {
      FindCaseSound(cases[1..], target);
    }
  }

  /** A report filter given as text selects state `s` exactly when the text,
      upper-cased, is the case's name; so `"starting"` selects STARTING. */
  lemma FromNameSelects(name: string, s: ExecutionState)
    ensures FromName(name) == Some(s) <==> Upper(name) == Name(s)
  {
    FindCaseSound(Cases, Upper(name));
    if Upper(name) == Name(s) {
      FindCaseFound(Cases, Upper(name), s);
    }
  }

  /** Case names read back to their case: the name lookup and `Name` are inverse. */
  lemma NameRoundTrip(s: ExecutionState)
    ensures FromName(Name(s)) == Some(s)
  {
    NameIsUpper(s);
    FromNameSelects(Name(s), s);
  }

  /** Case names are already upper case. */
  lemma NameIsUpper(s: ExecutionState)
    ensures Upper(Name(s)) == Name(s)
  {
    var n := Name(s);
    assert forall i :: 0 <= i < |n| ==> 'A' <= n[i] <= 'Z';
  }

  /** TaskRunState flips between RUN and WAIT. */
  function Toggle(s: RunState): (r: RunState)
    ensures r != s
  {
    if s == RUN then WAIT else RUN
  }

  lemma ToggleTwice(s: RunState)
    ensures Toggle(Toggle(s)) == s
  {
  }
}
