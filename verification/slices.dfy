/** The string-slice helpers of broker/utils.go. */
module Slices {
  import opened Outcomes

  /** The position of the first occurrence of `x` in `s`, or -1. */
  function FirstIndex(x: string, s: seq<string>): (i: int)
    ensures -1 <= i < |s|
    ensures i >= 0 ==> s[i] == x && forall j :: 0 <= j < i ==> s[j] != x
    ensures i == -1 ==> forall j :: 0 <= j < |s| ==> s[j] != x
    decreases |s|
  {
    if |s| == 0 then -1
    else if s[0] == x then 0
    else
      var k := FirstIndex(x, s[1..]);
      if k < 0 then -1 else k + 1
  }

  lemma FirstIndexFindsMembers(x: string, s: seq<string>)
    ensures FirstIndex(x, s) >= 0 <==> x in s
  {
  }

  /** `sliceContains`: a linear scan that stops at the first equal element. */
  method SliceContains(needle: string, haystack: seq<string>) returns (found: bool)
    ensures found <==> needle in haystack
  {
    found := false;
    var k := 0;
    while k < |haystack|
      invariant 0 <= k <= |haystack|
      invariant needle !in haystack[..k]
    {
      if haystack[k] == needle {
        return true;
      }
      k := k + 1;
    }
    assert haystack[..k] == haystack;
  }

  /** `getElementIndex`: the first index holding `s`, or -1 when there is none. */
  method GetElementIndex(s: string, slice: seq<string>) returns (i: int)
    ensures i == FirstIndex(s, slice)
    ensures i >= 0 <==> s in slice
  {
    var k := 0;
    while k < |slice|
      invariant 0 <= k <= |slice|
      invariant forall j :: 0 <= j < k ==> slice[j] != s
    {
      if s == slice[k] {
        FirstIndexFindsMembers(s, slice);
        return k;
      }
      k := k + 1;
    }
    FirstIndexFindsMembers(s, slice);
    return -1;
  }

  /** Why `removeFromSlice` can panic: an index out of range. */
  datatype Panic = IndexOutOfRange

  /** The slice `removeFromSlice` returns when `s` sits at index `i` of `slice`. */
  function SwapRemove<T>(slice: seq<T>, i: nat): (r: seq<T>)
    requires i < |slice|
    ensures |r| == |slice| - 1
    ensures forall j :: 0 <= j < |r| && j != i ==> r[j] == slice[j]
  {
    var n := |slice|;
    if i == n - 1 then slice[..n - 1] else slice[..i] + [slice[n - 1]] + slice[i + 1..n - 1]
  }

  /** Swapping with the last element and dropping it removes exactly one copy of `slice[i]`. */
  lemma SwapRemoveMultiset<T>(slice: seq<T>, i: nat)
    requires i < |slice|
    ensures multiset(SwapRemove(slice, i)) == multiset(slice) - multiset{slice[i]}
  {
    var n := |slice|;
    if i == n - 1 {
      assert slice == slice[..n - 1] + [slice[i]];
    } else {
      var a, m, b := slice[..i], slice[i + 1..n - 1], [slice[n - 1]];
      calc {
        multiset(slice);
        { assert slice == a + [slice[i]] + m + b; }
        multiset(a + [slice[i]] + m + b);
        multiset(a) + multiset{slice[i]} + multiset(m) + multiset(b);
      }
      calc {
        multiset(SwapRemove(slice, i));
        multiset(a + b + m);
        multiset(a) + multiset(b) + multiset(m);
      }
    }
  }

  /**
   * `removeFromSlice`: swap the first occurrence of `s` with the last element and
   * cut the last element off. A missing `s` (index -1) or an empty slice panics.
   */
  function RemoveFromSlice(s: string, slice: seq<string>): (r: Result<seq<string>, Panic>)
    ensures r.Err? <==> s !in slice
    ensures r.Ok? ==> |r.value| == |slice| - 1
    ensures r.Ok? ==> multiset(r.value) == multiset(slice) - multiset{s}
    ensures r.Ok? ==> var i := FirstIndex(s, slice);
                      forall j :: 0 <= j < |r.value| && j != i ==> r.value[j] == slice[j]
  {
    FirstIndexFindsMembers(s, slice);
    var i := FirstIndex(s, slice);
    if |slice| == 0 || i < 0 then Err(IndexOutOfRange)
    else
      SwapRemoveMultiset(slice, i);
      Ok(SwapRemove(slice, i))
  }
}
