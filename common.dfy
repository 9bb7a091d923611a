/** Small shared vocabulary: optional values, results with an error side,
    and the position of the first occurrence of a value in a sequence. */
module Common {

  datatype Option<T> = None | Some(value: T)

  /** The outcome of an operation that may raise: the value, or the error raised. */
  datatype Result<T, E> = Success(value: T) | Failure(error: E)

  /** The index of the first occurrence of `x` in `s`, as Python's `list.index`
      and `str.find` compute it; None when `x` does not occur. */
  function FirstIndex<T(==)>(s: seq<T>, x: T): (r: Option<nat>)
    ensures r.Some? ==> r.value < |s| && s[r.value] == x
    ensures r.Some? ==> forall j :: 0 <= j < r.value ==> s[j] != x
    ensures r.None? <==> x !in s
  {
    if s == [] then None
    else if s[0] == x then Some(0)
    else match FirstIndex(s[1..], x)
      case None => None
      case Some(i) => Some(i + 1)
  }

  /** Locating `x` after a prefix that does not contain it gives the prefix length. */
  lemma FirstIndexAfterPrefix<T>(a: seq<T>, x: T, b: seq<T>)
    requires x !in a
    ensures FirstIndex(a + [x] + b, x) == Some(|a|)
  {
    var s := a + [x] + b;
    assert s[|a|] == x;
    assert forall j :: 0 <= j < |a| ==> s[j] == a[j];
  }
}
