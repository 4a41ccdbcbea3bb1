/** Sequences without repetitions. */
module Sequences {
  ghost predicate NoRepeats<T>(s: seq<T>) { forall i: int, j: int :: 0 <= i < j < |s| ==> s[i] != s[j] }
}
