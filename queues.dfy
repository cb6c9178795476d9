/** The active queue of the loop: a sequence of distinct task handles, kept
    in insertion order. `detach` removes a handle by identity. */
module Queues {

  /** No handle occurs twice. */
  predicate Distinct<K(==)>(q: seq<K>) {
    forall i, j :: 0 <= i < j < |q| ==> q[i] != q[j]
  }

  /** `detach($task)`: every occurrence of `k` leaves, the rest keep their order. */
  function Remove<K(==)>(q: seq<K>, k: K): (r: seq<K>)
    ensures |r| <= |q|
  {
    if q == [] then []
    else if q[0] == k then Remove(q[1..], k)
    else [q[0]] + Remove(q[1..], k)
  }

  /** After `detach`, exactly the other handles are queued, still distinct. */
  lemma {:induction false} RemoveMembers<K>(q: seq<K>, k: K)
    ensures forall x :: x in Remove(q, k) <==> x in q && x != k
    ensures Distinct(q) ==> Distinct(Remove(q, k))
  {
    if q != [] {
      RemoveMembers(q[1..], k);
      if Distinct(q) {
        assert Distinct(q[1..]);
        assert q[0] !in q[1..] by {
          forall j | 0 <= j < |q[1..]| ensures q[1..][j] != q[0] {
            assert q[1..][j] == q[j + 1];
          }
        }
      }
    }
  }

  /** Removing a handle that is not queued changes nothing. */
  lemma {:induction false} RemoveAbsent<K>(q: seq<K>, k: K)
    requires k !in q
    ensures Remove(q, k) == q
  {
    if q != [] {
      RemoveAbsent(q[1..], k);
      assert q == [q[0]] + q[1..];
    }
  }

  /** Removing the handle at position `i` of a queue of distinct handles
      closes the gap: the others stay, in the same relative order. */
  lemma {:induction false} RemoveAt<K>(q: seq<K>, i: nat)
    requires i < |q| && Distinct(q)
    ensures Remove(q, q[i]) == q[..i] + q[i + 1..]
  {
    if i == 0 {
      RemoveAbsent(q[1..], q[0]);
    } else {
      RemoveAt(q[1..], i - 1);
      assert q[1..][i - 1] == q[i];
      assert q[1..][..i - 1] == q[1..i];
      assert q[1..][i..] == q[i + 1..];
      assert q[..i] == [q[0]] + q[1..i];
    }
  }

  lemma RemoveTwice<K>(q: seq<K>, k: K)
    ensures Remove(Remove(q, k), k) == Remove(q, k)
  {
    RemoveMembers(q, k);
    RemoveAbsent(Remove(q, k), k);
  }
}
