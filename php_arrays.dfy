/** PHP's ordered arrays, as far as the scheduler uses them: building an
    array by successive `$a[$k] = $v` assignments (a new key is appended, an
    existing key keeps its place and takes the new value), and the spread
    `[...$bound, ...$late]` that merges a task's parameters. */
module PhpArrays {
  import opened Values
  import opened Queues

  function Keys<K, V>(a: seq<(K, V)>): (ks: seq<K>)
    ensures |ks| == |a| && forall i :: 0 <= i < |a| ==> ks[i] == a[i].0
  {
    if a == [] then [] else [a[0].0] + Keys(a[1..])
  }

  /** `$a[$k] ?? null`, as an Option: the value stored under `k`. */
  function Get<K(==), V>(a: seq<(K, V)>, k: K): Option<V> {
    if a == [] then None
    else if a[0].0 == k then Some(a[0].1)
    else Get(a[1..], k)
  }

  /** `$a[$k] = $v`. */
  function Assign<K(==), V>(a: seq<(K, V)>, k: K, v: V): seq<(K, V)> {
    if a == [] then [(k, v)]
    else if a[0].0 == k then [(k, v)] + a[1..]
    else [a[0]] + Assign(a[1..], k, v)
  }

  /** The array obtained by assigning the pairs of `ps` in order. */
  function ArrayFrom<K(==), V>(ps: seq<(K, V)>): seq<(K, V)> {
    if ps == [] then [] else
    Assign(ArrayFrom(ps[..|ps| - 1]), ps[|ps| - 1].0, ps[|ps| - 1].1)
  }

  /** The value of the last pair of `ps` with key `k`. */
  function LastValue<K(==), V>(ps: seq<(K, V)>, k: K): Option<V> {
    if ps == [] then None
    else if ps[|ps| - 1].0 == k then Some(ps[|ps| - 1].1)
    else LastValue(ps[..|ps| - 1], k)
  }

  /** The keys of `s` in order of first appearance. */
  function Dedup<K(==)>(s: seq<K>): seq<K> {
    if s == [] then []
    else if s[|s| - 1] in s[..|s| - 1] then Dedup(s[..|s| - 1])
    else Dedup(s[..|s| - 1]) + [s[|s| - 1]]
  }

  lemma {:induction false} GetAssign<K, V>(a: seq<(K, V)>, k: K, v: V, j: K)
    ensures Get(Assign(a, k, v), j) == if j == k then Some(v) else Get(a, j)
  {
    if a != [] && a[0].0 != k {
      GetAssign(a[1..], k, v, j);
    }
  }

  lemma {:induction false} KeysAssign<K, V>(a: seq<(K, V)>, k: K, v: V)
    ensures Keys(Assign(a, k, v)) == if k in Keys(a) then Keys(a) else Keys(a) + [k]
  {
    if a != [] {
      assert Keys(a) == [a[0].0] + Keys(a[1..]);
      if a[0].0 != k {
        KeysAssign(a[1..], k, v);
      }
    }
  }

  /** Reading key `k` of an array built by assignments gives the value of
      the last assignment to `k`, and nothing when `k` was never assigned. */
  lemma {:induction false} ArrayFromGet<K, V>(ps: seq<(K, V)>, k: K)
    ensures Get(ArrayFrom(ps), k) == LastValue(ps, k)
  {
    if ps != [] {
      ArrayFromGet(ps[..|ps| - 1], k);
      GetAssign(ArrayFrom(ps[..|ps| - 1]), ps[|ps| - 1].0, ps[|ps| - 1].1, k);
    }
  }

  /** The keys of an array built by assignments are the assigned keys in
      order of first assignment, each once. */
  lemma {:induction false} ArrayFromKeys<K, V>(ps: seq<(K, V)>)
    ensures Keys(ArrayFrom(ps)) == Dedup(Keys(ps))
  {
    if ps != [] {
      var init := ps[..|ps| - 1];
      ArrayFromKeys(init);
      KeysAssign(ArrayFrom(init), ps[|ps| - 1].0, ps[|ps| - 1].1);
      assert Keys(ps)[..|ps| - 1] == Keys(init);
      DedupMembers(Keys(init));
    }
  }

  lemma {:induction false} DedupMembers<K>(s: seq<K>)
    ensures forall x :: x in Dedup(s) <==> x in s
    ensures Distinct(Dedup(s))
  {
    if s != [] {
      DedupMembers(s[..|s| - 1]);
      assert s == s[..|s| - 1] + [s[|s| - 1]];
    }
  }

  /** Assigning a key the array does not hold appends it. */
  lemma {:induction false} AssignFresh<K, V>(a: seq<(K, V)>, k: K, v: V)
    requires k !in Keys(a)
    ensures Assign(a, k, v) == a + [(k, v)]
  {
    if a != [] {
      assert Keys(a) == [a[0].0] + Keys(a[1..]);
      AssignFresh(a[1..], k, v);
      assert a == [a[0]] + a[1..];
    }
  }

  /** Assignments to keys that are all different build an array holding
      exactly those pairs, in the order they were assigned. */
  lemma {:induction false} ArrayFromDistinct<K, V>(ps: seq<(K, V)>)
    requires Distinct(Keys(ps))
    ensures ArrayFrom(ps) == ps
  {
    if ps != [] {
      var init := ps[..|ps| - 1];
      assert Keys(init) == Keys(ps)[..|ps| - 1];
      ArrayFromDistinct(init);
      AssignFresh(init, ps[|ps| - 1].0, ps[|ps| - 1].1);
      assert ps == init + [ps[|ps| - 1]];
    }
  }

  // ---------------------------------------------------------------------
  // Parameters and `[...$bound, ...$late]`

  /** An array key: an integer position or a string name. */
  datatype Key = Pos(n: nat) | Named(name: string)

  type Params = seq<(Key, Value)>

  function CountPositional(a: Params): nat {
    if a == [] then 0
    else (if a[|a| - 1].0.Pos? then 1 else 0) + CountPositional(a[..|a| - 1])
  }

  /** Unpacking `ps` into a fresh array: integer keys are renumbered and
      appended, string keys are assigned. */
  function Spread(ps: Params): Params {
    if ps == [] then [] else
    var a := Spread(ps[..|ps| - 1]);
    var last := ps[|ps| - 1];
    if last.0.Pos? then a + [(Pos(CountPositional(a)), last.1)]
    else Assign(a, last.0, last.1)
  }

  /** `[...$this->parameters, ...$params]`. */
  function Merge(bound: Params, late: Params): Params {
    Spread(bound + late)
  }

  /** The values under integer keys, in order. */
  function PositionalValues(a: Params): seq<Value> {
    if a == [] then []
    else PositionalValues(a[..|a| - 1]) + (if a[|a| - 1].0.Pos? then [a[|a| - 1].1] else [])
  }

  /** PHP refuses to unpack an array into arguments when an integer key
      follows a string key. */
  predicate PositionalFirst(a: Params) {
    forall i, j :: 0 <= i < j < |a| && a[i].0.Named? ==> a[j].0.Named?
  }

  lemma {:induction false} PositionalValuesAppend(a: Params, b: Params)
    ensures PositionalValues(a + b) == PositionalValues(a) + PositionalValues(b)
    decreases |b|
  {
    if b == [] {
      assert a + b == a;
    } else {
      var b' := b[..|b| - 1];
      assert (a + b)[..|a + b| - 1] == a + b';
      PositionalValuesAppend(a, b');
    }
  }

  lemma {:induction false} PositionalValuesAssignNamed(a: Params, s: string, v: Value)
    ensures PositionalValues(Assign(a, Named(s), v)) == PositionalValues(a)
  {
    if a == [] {
    } else if a[0].0 == Named(s) {
      PositionalValuesAppend([(Named(s), v)], a[1..]);
      PositionalValuesAppend([a[0]], a[1..]);
      assert a == [a[0]] + a[1..];
    } else {
      PositionalValuesAssignNamed(a[1..], s, v);
      PositionalValuesAppend([a[0]], Assign(a[1..], Named(s), v));
      PositionalValuesAppend([a[0]], a[1..]);
      assert a == [a[0]] + a[1..];
    }
  }

  lemma {:induction false} SpreadPositional(ps: Params)
    ensures PositionalValues(Spread(ps)) == PositionalValues(ps)
  {
    if ps != [] {
      var init := ps[..|ps| - 1];
      var last := ps[|ps| - 1];
      SpreadPositional(init);
      if last.0.Pos? {
        PositionalValuesAppend(Spread(init), [(Pos(CountPositional(Spread(init))), last.1)]);
      } else {
        PositionalValuesAssignNamed(Spread(init), last.0.name, last.1);
      }
    }
  }

  lemma {:induction false} GetAppend<K, V>(a: seq<(K, V)>, p: (K, V), k: K)
    requires p.0 != k
    ensures Get(a + [p], k) == Get(a, k)
  {
    if a != [] {
      assert (a + [p])[1..] == a[1..] + [p];
      GetAppend(a[1..], p, k);
    }
  }

  lemma {:induction false} SpreadNamed(ps: Params, s: string)
    ensures Get(Spread(ps), Named(s)) == LastValue(ps, Named(s))
  {
    if ps != [] {
      var init := ps[..|ps| - 1];
      var last := ps[|ps| - 1];
      SpreadNamed(init, s);
      if last.0.Pos? {
        GetAppend(Spread(init), (Pos(CountPositional(Spread(init))), last.1), Named(s));
      } else {
        GetAssign(Spread(init), last.0, last.1, Named(s));
      }
    }
  }

  lemma {:induction false} LastValueAppend<K, V>(a: seq<(K, V)>, b: seq<(K, V)>, k: K)
    ensures LastValue(a + b, k) == if LastValue(b, k).Some? then LastValue(b, k) else LastValue(a, k)
    decreases |b|
  {
    if b == [] {
      assert a + b == a;
    } else {
      assert (a + b)[..|a + b| - 1] == a + b[..|b| - 1];
      LastValueAppend(a, b[..|b| - 1], k);
    }
  }

  /** Merging bound and late parameters: under a string key the late value
      wins, and a key given only once keeps its value. */
  lemma MergeNamed(bound: Params, late: Params, s: string)
    ensures Get(Merge(bound, late), Named(s)) ==
      if LastValue(late, Named(s)).Some? then LastValue(late, Named(s)) else LastValue(bound, Named(s))
  {
    SpreadNamed(bound + late, s);
    LastValueAppend(bound, late, Named(s));
  }

  /** Merging keeps every positional argument: the bound ones first, then the late ones. */
  lemma MergePositional(bound: Params, late: Params)
    ensures PositionalValues(Merge(bound, late)) == PositionalValues(bound) + PositionalValues(late)
  {
    SpreadPositional(bound + late);
    PositionalValuesAppend(bound, late);
  }
}
