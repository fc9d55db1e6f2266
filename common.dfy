/** Values that stand in for Python's `None` and raised exceptions, and the
    first-match search and `list.pop(i)` that the account code is built from. */
module Common {

  datatype Option<+T> = None | Some(value: T)

  /** A value, or the error the source would raise instead of returning it. */
  datatype Result<+T, +E> = Ok(value: T) | Err(error: E)

  /** An operation that returns nothing, or the error it raises. */
  datatype Outcome<+E> = Pass | Fail(error: E)

  /** Index of the first key equal to `k`: the `for ... if ...: return`
      loops of the source all stop at the first match. */
  function FirstIndexOf<K(==)>(keys: seq<K>, k: K): (r: Option<nat>)
    ensures r.None? <==> k !in keys
    ensures r.None? ==> forall j :: 0 <= j < |keys| ==> keys[j] != k
    ensures r.Some? ==> r.value < |keys| && keys[r.value] == k
    ensures r.Some? ==> forall j :: 0 <= j < r.value ==> keys[j] != k
  {
    if keys == [] then None
    else if keys[0] == k then Some(0)
    else
      match FirstIndexOf(keys[1..], k)
      case None => None
      case Some(i) => Some(i + 1)
  }

  /** The list that `s.pop(i)` leaves behind. */
  function RemoveAt<T>(s: seq<T>, i: nat): seq<T>
    requires i < |s|
  {
    s[..i] + s[i + 1..]
  }

  /** `pop(i)` removes exactly the element at `i`: one occurrence of it
      leaves the bag, nothing else does, and the others keep their order. */
  lemma RemoveAtSpec<T>(s: seq<T>, i: nat)
    requires i < |s|
    ensures |RemoveAt(s, i)| == |s| - 1
    ensures RemoveAt(s, i)[..i] == s[..i] && RemoveAt(s, i)[i..] == s[i + 1..]
    ensures multiset(RemoveAt(s, i)) + multiset{s[i]} == multiset(s)
  {
    assert s == s[..i] + [s[i]] + s[i + 1..];
  }
}
