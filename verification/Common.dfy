/** Result types shared by all modules. */
module Common {

  datatype Option<+T> = None | Some(value: T)

  /** A Go `(value, error)` pair of which exactly one half is meaningful. */
  datatype Result<+T> = Ok(value: T) | Err

  /** The first position, from `i` on, of an element called `name`. */
  function FirstNamed<T>(s: seq<T>, nameOf: T -> string, name: string, i: nat): (r: Option<nat>)
    requires i <= |s|
    ensures r.Some? ==> i <= r.value < |s| && nameOf(s[r.value]) == name
                        && forall j :: i <= j < r.value ==> nameOf(s[j]) != name
    ensures r.None? ==> forall j :: i <= j < |s| ==> nameOf(s[j]) != name
    decreases |s| - i
  {
    if i == |s| then None
    else if nameOf(s[i]) == name then Some(i)
    else FirstNamed(s, nameOf, name, i+1)
  }

  lemma SubsetSize<T>(a: set<T>, b: set<T>)
    requires a <= b
    ensures |a| <= |b|
    ensures a != b ==> |a| < |b|
  {
    assert b == a + (b - a);
  }
}
