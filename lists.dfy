/** Small list utilities the screen relies on: the result of a parse, and `removeAt`. */
module Lists {

  /** A value that may be absent, as Kotlin's nullable results (`toDoubleOrNull`,
      `toIntOrNull`, `find`). */
  datatype Option<T> = None | Some(value: T) {
    /** The elvis operator `?: d`. */
    function GetOr(d: T): T {
      match this
      case Some(v) => v
      case None => d
    }
  }

  /** `ArrayList.removeAt(p)`: element p is gone and the others keep their order, those after
      it each moving down one place. */
  function RemoveAt<T>(s: seq<T>, p: int): (r: seq<T>)
    requires 0 <= p < |s|
    ensures |r| == |s| - 1
    ensures forall j :: 0 <= j < p ==> r[j] == s[j]
    ensures forall j :: p <= j < |r| ==> r[j] == s[j + 1]
  {
    s[..p] + s[p + 1..]
  }

  /** Removing an element takes exactly that one occurrence out of the list's contents. */
  lemma RemoveAtContents<T>(s: seq<T>, p: int)
    requires 0 <= p < |s|
    ensures multiset(RemoveAt(s, p)) + multiset{s[p]} == multiset(s)
  {
    assert s == s[..p] + [s[p]] + s[p + 1..];
  }
}
