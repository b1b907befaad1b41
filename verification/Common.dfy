/** Identifiers and small helpers shared by every module of the model.

    Identifiers are strings or integers in the program; only their equality
    matters, so each is an opaque integer here. */
module Common {

  type ThreadId = int
  type TurnId = int
  type CallId = int
  type CellId = int
  type ResponseId = int
  type ConnectionId = int
  type RequestId = int

  datatype Option<+T> = None | Some(value: T) {
    function GetOr(default: T): T {
      if Some? then value else default
    }
  }

  /** The first of two options that is set. */
  function OrElse<T>(first: Option<T>, second: Option<T>): Option<T> {
    if first.Some? then first else second
  }

  /** Map lookup that tells a missing key apart. */
  function Lookup<K, V>(m: map<K, V>, k: K): Option<V> {
    if k in m then Some(m[k]) else None
  }

  /** `order` lists every element of `s` exactly once: one possible iteration
      order of a hash map whose key set is `s`. */
  ghost predicate Enumerates<T(!new)>(order: seq<T>, s: set<T>) {
    && (forall x :: x in order <==> x in s)
    && forall i, j :: 0 <= i < j < |order| ==> order[i] != order[j]
  }

  predicate StartsWith(text: string, prefix: string) {
    |prefix| <= |text| && text[..|prefix|] == prefix
  }

  lemma {:induction false} SubsetSmaller<T>(a: set<T>, b: set<T>)
    requires a <= b
    ensures |a| <= |b|
    decreases b
  {
    if a != {} {
      var x :| x in a;
      SubsetSmaller(a - {x}, b - {x});
    }
  }

  /** Lists one after the other. */
  function Flatten<T>(batches: seq<seq<T>>): seq<T> {
    if batches == [] then [] else Flatten(batches[..|batches| - 1]) + batches[|batches| - 1]
  }

  lemma FlattenSnoc<T>(batches: seq<seq<T>>, b: seq<T>)
    ensures Flatten(batches + [b]) == Flatten(batches) + b
  {
    assert (batches + [b])[..|batches|] == batches;
  }

  lemma {:induction false} FlattenConcat<T>(a: seq<seq<T>>, b: seq<seq<T>>)
    ensures Flatten(a + b) == Flatten(a) + Flatten(b)
  {
    if b == [] {
      assert a + b == a;
    } else {
      var init, last := b[..|b| - 1], b[|b| - 1];
      assert (a + b)[..|a + b| - 1] == a + init && (a + b)[|a + b| - 1] == last;
      FlattenConcat(a, init);
      assert Flatten(a) + (Flatten(init) + last) == Flatten(a) + Flatten(init) + last;
    }
  }

  lemma {:induction false} FlattenHolds<T>(batches: seq<seq<T>>, x: T) returns (j: nat)
    requires x in Flatten(batches)
    ensures j < |batches| && x in batches[j]
  {
    if x in batches[|batches| - 1] {
      j := |batches| - 1;
    } else {
      j := FlattenHolds(batches[..|batches| - 1], x);
    }
  }

  lemma SliceSnoc<T>(s: seq<T>, from: nat, to: nat)
    requires from <= to < |s|
    ensures s[from..to + 1] == s[from..to] + [s[to]]
  {
  }
}
