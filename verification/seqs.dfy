/** Sequence operations that the dashboard uses through JavaScript's array methods. */
module Seqs {

  /** `Array.prototype.filter`: the elements of `s` that `keep` accepts, in their original order. */
  function Filter<T(!new)>(s: seq<T>, keep: T -> bool): (r: seq<T>)
    ensures |r| <= |s|
    ensures forall x :: x in r <==> x in s && keep(x)
  {
    if |s| == 0 then []
    else if keep(s[0]) then [s[0]] + Filter(s[1..], keep)
    else Filter(s[1..], keep)
  }

  /** Filtering commutes with concatenation, so the relative order of the kept elements is the original one. */
  lemma {:induction false} FilterAppend<T(!new)>(a: seq<T>, b: seq<T>, keep: T -> bool)
    ensures Filter(a + b, keep) == Filter(a, keep) + Filter(b, keep)
  {
    if |a| == 0 {
      assert a + b == b;
    } else {
      assert (a + b)[0] == a[0];
      assert (a + b)[1..] == a[1..] + b;
      FilterAppend(a[1..], b, keep);
    }
  }

  /** `Array.prototype.map` with a conditional body: every element `pick` selects is replaced
      by `f` of itself, every other element is kept as it is. */
  function MapWhere<T>(s: seq<T>, pick: T -> bool, f: T -> T): (r: seq<T>)
    ensures |r| == |s|
    ensures forall i :: 0 <= i < |s| ==> r[i] == (if pick(s[i]) then f(s[i]) else s[i])
  {
    if |s| == 0 then []
    else [if pick(s[0]) then f(s[0]) else s[0]] + MapWhere(s[1..], pick, f)
  }
}
