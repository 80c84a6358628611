/** Sequence helpers shared by the list scans of the model. */
module Seqs {
  import opened Wrappers

  /**
   * The index of the first element satisfying `p`, as a Java for-each loop
   * with an early `return` or `List.indexOf` finds it; `None` when none does.
   */
  function FirstMatch<T>(s: seq<T>, p: T -> bool): (r: Option<nat>)
    ensures r.Some? ==> r.value < |s| && p(s[r.value])
    ensures r.Some? ==> forall j :: 0 <= j < r.value ==> !p(s[j])
    ensures r.None? <==> forall j :: 0 <= j < |s| ==> !p(s[j])
  {
    if s == [] then None
    else if p(s[0]) then Some(0)
    else match FirstMatch(s[1..], p)
      case None => None
      case Some(k) => Some(k + 1)
  }

  /** `s` without its element at index `i`, the rest in order. */
  function RemoveAt<T>(s: seq<T>, i: nat): (r: seq<T>)
    requires i < |s|
    ensures |r| == |s| - 1
    ensures forall j :: 0 <= j < i ==> r[j] == s[j]
    ensures forall j :: i <= j < |r| ==> r[j] == s[j + 1]
    ensures multiset(r) + multiset{s[i]} == multiset(s)
  {
    assert s == s[..i] + [s[i]] + s[i + 1..];
    s[..i] + s[i + 1..]
  }

  /** The first match in `s + [x]` is the one in `s`, or `x` itself when `s` has none. */
  lemma {:induction false} FirstMatchAppend<T>(s: seq<T>, x: T, p: T -> bool)
    ensures FirstMatch(s + [x], p) ==
            (if FirstMatch(s, p).Some? then FirstMatch(s, p) else if p(x) then Some(|s|) else None)
  {
    if s != [] {
      assert (s + [x])[1..] == s[1..] + [x];
      FirstMatchAppend(s[1..], x, p);
    } else {
      assert s + [x] == [x];
    }
  }
}
