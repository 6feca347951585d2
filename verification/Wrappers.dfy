/** Stock containers shared by every module. */
module Wrappers {
  datatype Option<+T> = None | Some(value: T)

  datatype Result<+T, +E> = Ok(value: T) | Err(error: E)

  /** How an awaited call on a store ends. Refused: it had no effect and raised. Lost: it took effect,
      but its reply never came back, so the caller sees a failure all the same. */
  datatype Reply = Done | Refused | Lost {
    predicate TookEffect() {
      this != Refused
    }

    predicate Raised() {
      this != Done
    }
  }

  type Positive = n: nat | 1 <= n witness 1

  lemma MergeNothing<K, V>(m: map<K, V>)
    ensures m + map[] == m
  {
  }

  lemma MergeOne<K, V>(m: map<K, V>, k: K, v: V)
    ensures m + map[k := v] == m[k := v]
  {
  }

  // ---- runs of a state machine ----

  function Fold<S, A>(next: (S, A) -> S, s: S, steps: seq<A>): S
    decreases steps
  {
    if steps == [] then s else Fold(next, next(s, steps[0]), steps[1..])
  }

  lemma {:induction false} FoldAppend<S, A>(next: (S, A) -> S, s: S, first: seq<A>, rest: seq<A>)
    ensures Fold(next, s, first + rest) == Fold(next, Fold(next, s, first), rest)
    decreases first
  {
    if first == [] {
      assert first + rest == rest;
    } else {
      assert (first + rest)[1..] == first[1..] + rest;
      FoldAppend(next, next(s, first[0]), first[1..], rest);
    }
  }

  lemma FoldFour<S, A>(next: (S, A) -> S, steps: seq<A>, s: S, s1: S, s2: S, s3: S, s4: S)
    requires |steps| == 4 && s1 == next(s, steps[0]) && s2 == next(s1, steps[1]) && s3 == next(s2, steps[2])
             && s4 == next(s3, steps[3])
    ensures Fold(next, s, steps) == s4
  {
    assert steps[1..][1..] == steps[2..] && steps[2..][1..] == steps[3..];
    assert Fold(next, s2, steps[2..]) == Fold(next, s3, steps[3..]) == s4;
  }
}
