/** Small datatypes shared by every module of the model. */
module Wrappers {

  /** A Go pointer, slice or map that may be nil, seen as a value. */
  datatype Option<+T> = None | Some(value: T)

  /** How a call of the provider ends.  `Panicked` is a nil dereference in the Go code. */
  datatype Outcome = Ok | Failed | Panicked

  /** What ranging over a slice visits: nothing when the slice is nil. */
  function Elements<T>(slice: Option<seq<T>>): seq<T> {
    match slice
    case None => []
    case Some(elements) => elements
  }

  /** What ranging over a map visits: nothing when the map is nil. */
  function Entries<K, V>(m: Option<map<K, V>>): map<K, V> {
    match m
    case None => map[]
    case Some(entries) => entries
  }

  /** Converts every element, or nothing at all when some element cannot be converted. */
  function Traverse<A, B>(f: A -> Option<B>, input: seq<A>): Option<seq<B>> {
    if input == [] then Some([])
    else
      var n := |input| - 1;
      var earlier := Traverse(f, input[..n]);
      if earlier.None? || f(input[n]).None? then None else Some(earlier.value + [f(input[n]).value])
  }

  /** A conversion fails exactly when some element fails; otherwise it keeps number and order. */
  lemma {:induction false} TraverseIsAllOrNothing<A, B>(f: A -> Option<B>, input: seq<A>)
    ensures Traverse(f, input).Some? <==> forall i | 0 <= i < |input| :: f(input[i]).Some?
    ensures Traverse(f, input).Some? ==>
              && |Traverse(f, input).value| == |input|
              && forall i | 0 <= i < |input| :: Traverse(f, input).value[i] == f(input[i]).value
  {
    if input != [] {
      var n := |input| - 1;
      TraverseIsAllOrNothing(f, input[..n]);
      assert forall i | 0 <= i < n :: input[..n][i] == input[i];
    }
  }

  /** One more element, as a loop that appends sees it. */
  lemma TraverseStep<A, B>(f: A -> Option<B>, input: seq<A>, i: nat)
    requires i < |input|
    ensures Traverse(f, input[..i + 1]) ==
            var earlier := Traverse(f, input[..i]);
            if earlier.None? || f(input[i]).None? then None else Some(earlier.value + [f(input[i]).value])
  {
    assert input[..i + 1][..i] == input[..i];
  }
}
