/** JavaScript's `Array.prototype.splice(i, 1)`, used by both delete handlers. */
module JsArrays {

  /** The array `s` leaves behind after `s.splice(i, 1)`: element `i` removed, the rest
      kept in order. */
  function Splice<T>(s: seq<T>, i: nat): (r: seq<T>)
    requires i < |s|
    ensures |r| == |s| - 1
    ensures forall a :: 0 <= a < i ==> r[a] == s[a]
    ensures forall a :: i <= a < |r| ==> r[a] == s[a + 1]
    ensures multiset(r) == multiset(s) - multiset{s[i]}
  {
    assert s == s[..i] + [s[i]] + s[i + 1..];
    s[..i] + s[i + 1..]
  }
}
