/** The message of TaskMaxTriesException: built from the task's id and its
    configured limit only, and readable back into both. */
module MaxTries {
  import opened Values
  import opened Tasks
  import Decimal

  const Prefix: string := "Task with id "
  const Infix: string := " reached "
  const Suffix: string := " tries."

  /** `'Task with id ' . $task->getId() . ' reached ' . $task->getLimit() . ' tries.'` */
  function Message(id: string, limit: int): string {
    Prefix + id + Infix + Decimal.IntToString(limit) + Suffix
  }

  /** The exception a task raises when it reaches its limit under THROW:
      its turn and state play no part. */
  function MaxTriesFor<T>(t: TaskState<T>): Thrown {
    MaxTries(Message(t.id, t.limit))
  }

  /** The position of the last space in `s`, if any. */
  function LastSpace(s: string): (r: Option<nat>)
    ensures r.Some? ==> r.value < |s| && s[r.value] == ' ' && forall i :: r.value < i < |s| ==> s[i] != ' '
    ensures r.None? ==> forall i :: 0 <= i < |s| ==> s[i] != ' '
  {
    if s == [] then None
    else if s[|s| - 1] == ' ' then Some(|s| - 1)
    else LastSpace(s[..|s| - 1])
  }

  /** Reads a message back into the id and the limit it names. The limit is
      the text after the last space; the id may itself contain spaces. */
  function ParseMessage(m: string): Option<(string, int)> {
    if |m| < |Prefix| + |Suffix| || m[..|Prefix|] != Prefix || m[|m| - |Suffix|..] != Suffix then None
    else
      var middle := m[|Prefix|..|m| - |Suffix|];
      match LastSpace(middle)
      case None => None
      case Some(j) =>
        if j + 1 < |Infix| || middle[j + 1 - |Infix|..j + 1] != Infix then None
        else
          match Decimal.ParseInt(middle[j + 1..])
          case None => None
          case Some(n) => Some((middle[..j + 1 - |Infix|], n))
  }

  lemma {:induction false} LastSpaceSplit(a: string, b: string)
    requires a != [] && a[|a| - 1] == ' '
    requires forall i :: 0 <= i < |b| ==> b[i] != ' '
    ensures LastSpace(a + b) == Some(|a| - 1)
    decreases |b|
  {
    if b == [] {
      assert a + b == a;
    } else {
      assert (a + b)[..|a + b| - 1] == a + b[..|b| - 1];
      LastSpaceSplit(a, b[..|b| - 1]);
    }
  }

  /** The message names the task's id verbatim and its limit in decimal:
      both are recovered from it, whatever characters the id holds. */
  lemma MessageRoundTrip(id: string, limit: int)
    ensures ParseMessage(Message(id, limit)) == Some((id, limit))
  {
    var digits := Decimal.IntToString(limit);
    var m := Message(id, limit);
    assert m[..|Prefix|] == Prefix;
    assert m[|m| - |Suffix|..] == Suffix;
    var middle := m[|Prefix|..|m| - |Suffix|];
    assert middle == (id + Infix) + digits;
    LastSpaceSplit(id + Infix, digits);
    var j := |id + Infix| - 1;
    assert middle[j + 1 - |Infix|..j + 1] == Infix;
    assert middle[j + 1..] == digits;
    assert middle[..j + 1 - |Infix|] == id;
    Decimal.IntToStringRoundTrip(limit);
  }

  /** Two messages are equal only for the same id and the same limit. */
  lemma MessageInjective(id1: string, limit1: int, id2: string, limit2: int)
    ensures Message(id1, limit1) == Message(id2, limit2) <==> id1 == id2 && limit1 == limit2
  {
    MessageRoundTrip(id1, limit1);
    MessageRoundTrip(id2, limit2);
  }
}
