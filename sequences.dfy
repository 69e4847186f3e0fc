/** The two array primitives the actions rely on: `findIndex` and a one-element `splice`. */
module Sequences {
  import opened Wrappers

  /** `Array.prototype.findIndex`: the first position whose element satisfies `p`; None stands for -1. */
  function IndexWhere<T>(s: seq<T>, p: T -> bool): (r: Option<nat>)
    ensures r.Some? ==> r.value < |s| && p(s[r.value])
    ensures r.Some? ==> forall j | 0 <= j < r.value :: !p(s[j])
    ensures r.None? ==> forall j | 0 <= j < |s| :: !p(s[j])
  {
    if s == [] then None
    else if p(s[0]) then Some(0)
    else
      match IndexWhere(s[1..], p)
      case None => None
      case Some(k) => Some(k + 1)
  }

  /**
   * Removal of the first element that satisfies `p`, defined element by element;
   * its contract ties it to `splice(findIndex(p), 1)`.
   */
  function RemoveFirstWhere<T>(s: seq<T>, p: T -> bool): (r: seq<T>)
    ensures IndexWhere(s, p).None? ==> r == s
    ensures IndexWhere(s, p).Some? ==>
      var k := IndexWhere(s, p).value;
      r == s[..k] + s[k + 1..]
  {
    if s == [] then []
    else if p(s[0]) then s[1..]
    else [s[0]] + RemoveFirstWhere(s[1..], p)
  }

  /** Taking out the element at `k` takes one copy of it out of the multiset. */
  lemma MultisetWithout<T>(s: seq<T>, k: nat)
    requires k < |s|
    ensures multiset(s[..k] + s[k + 1..]) == multiset(s) - multiset{s[k]}
  {
    assert s == s[..k] + [s[k]] + s[k + 1..];
  }
}
