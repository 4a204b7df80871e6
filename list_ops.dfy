/** The conditional map both list screens use: update the elements that match, keep the rest. */
module ListOps {

  /** Rewrites, in place and in order, exactly the elements that `hit` selects. */
  function MapWhere<T>(s: seq<T>, hit: T -> bool, f: T -> T): (r: seq<T>)
    ensures |r| == |s|
    ensures forall i :: 0 <= i < |s| ==> r[i] == if hit(s[i]) then f(s[i]) else s[i]
  {
    if s == [] then [] else [if hit(s[0]) then f(s[0]) else s[0]] + MapWhere(s[1..], hit, f)
  }

  /** A rewrite that leaves every selected element as it was changes nothing. */
  lemma MapWhereIdentity<T>(s: seq<T>, hit: T -> bool, f: T -> T)
    requires forall x :: hit(x) ==> f(x) == x
    ensures MapWhere(s, hit, f) == s
  {
    var r := MapWhere(s, hit, f);
    assert forall i :: 0 <= i < |s| ==> r[i] == s[i];
  }

}
