/** Helpers for specifications that recurse on a sequence's prefix, the way a
    left-to-right loop or `reduce` walks it. */
module Seqs {

  /** All but the last element. */
  function Init<T>(s: seq<T>): seq<T>
    requires s != []
  {
    s[..|s| - 1]
  }

  /** The last element. */
  function Last<T>(s: seq<T>): T
    requires s != []
  {
    s[|s| - 1]
  }

  /** Taking one more element of the prefix peels it off again. */
  lemma PrefixStep<T>(s: seq<T>, i: nat)
    requires i < |s|
    ensures s[..i + 1] != [] && Init(s[..i + 1]) == s[..i] && Last(s[..i + 1]) == s[i]
  {
  }

  /** `[...s]` followed by `copy[i] = x`: an index inside the list is
      overwritten, the index one past the end appends. */
  function WriteAt<T>(s: seq<T>, i: nat, x: T): (r: seq<T>)
    ensures i < |s| ==> |r| == |s| && r[i] == x
    ensures i < |s| ==> forall j :: 0 <= j < |s| && j != i ==> r[j] == s[j]
    ensures i >= |s| ==> r == s + [x]
  {
    if i < |s| then s[i := x] else s + [x]
  }

  /** `s.filter((_, j) => j !== i)`: drop position `i`, keep the rest in order. */
  function RemoveAt<T>(s: seq<T>, i: int): (r: seq<T>)
    ensures 0 <= i < |s| ==> |r| == |s| - 1
    ensures 0 <= i < |s| ==> forall j :: 0 <= j < |r| ==> r[j] == if j < i then s[j] else s[j + 1]
    ensures !(0 <= i < |s|) ==> r == s
  {
    if 0 <= i < |s| then s[..i] + s[i + 1..] else s
  }

  /** `s.reduce((sum, x) => sum + f(x), 0)`. */
  function Sum<T>(s: seq<T>, f: T -> real): real
  {
    if s == [] then 0.0 else Sum(Init(s), f) + f(Last(s))
  }

  lemma {:induction false} SumConcat<T>(a: seq<T>, b: seq<T>, f: T -> real)
    ensures Sum(a + b, f) == Sum(a, f) + Sum(b, f)
  {
    if b == [] {
      assert a + b == a;
    } else {
      assert Init(a + b) == a + Init(b) && Last(a + b) == Last(b);
      SumConcat(a, Init(b), f);
    }
  }

  lemma SumSingle<T>(x: T, f: T -> real)
    ensures Sum([x], f) == f(x)
  {
    assert Init([x]) == [] && Last([x]) == x;
  }

  /** A sum splits around any position. */
  lemma SumSplitAt<T>(s: seq<T>, i: nat, f: T -> real)
    requires i < |s|
    ensures Sum(s, f) == Sum(s[..i], f) + f(s[i]) + Sum(s[i + 1..], f)
  {
    var a, m, b := s[..i], [s[i]], s[i + 1..];
    SumSingle(s[i], f);
    SumConcat(a, m, f);
    SumConcat(a + m, b, f);
    assert s == (a + m) + b;
  }

  /** Overwriting one entry changes the sum by the difference of the two entries. */
  lemma SumUpdate<T>(s: seq<T>, i: nat, x: T, f: T -> real)
    requires i < |s|
    ensures Sum(s[i := x], f) == Sum(s, f) - f(s[i]) + f(x)
  {
    SumSplitAt(s, i, f);
    SumSplitAt(s[i := x], i, f);
    assert s[i := x][..i] == s[..i] && s[i := x][i + 1..] == s[i + 1..];
  }

  /** Removing one entry lowers the sum by that entry. */
  lemma SumRemoveAt<T>(s: seq<T>, i: nat, f: T -> real)
    requires i < |s|
    ensures Sum(RemoveAt(s, i), f) == Sum(s, f) - f(s[i])
  {
    SumSplitAt(s, i, f);
    SumConcat(s[..i], s[i + 1..], f);
    assert RemoveAt(s, i) == s[..i] + s[i + 1..];
  }
}
