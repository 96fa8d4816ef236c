/** Sequence operations the components use: `Array.prototype.filter` by value and by index. */
module Seqs {

  /** The elements of `s` that satisfy `keep`, in their original order (`s.filter(keep)`). */
  function Keep<T(!new)>(s: seq<T>, keep: T -> bool): (r: seq<T>)
    ensures |r| <= |s|
    ensures forall x :: x in r <==> x in s && keep(x)
    ensures forall x :: multiset(r)[x] == if keep(x) then multiset(s)[x] else 0
    decreases |s|
  {
    if s == [] then []
    else
      var rest := Keep(s[1..], keep);
      assert s == [s[0]] + s[1..];
      assert multiset(s) == multiset{s[0]} + multiset(s[1..]);
      if keep(s[0]) then [s[0]] + rest else rest
  }

  /** Filtering distributes over concatenation, so it keeps the relative order of the elements it keeps. */
  lemma {:induction false} KeepConcat<T(!new)>(a: seq<T>, b: seq<T>, keep: T -> bool)
    ensures Keep(a + b, keep) == Keep(a, keep) + Keep(b, keep)
    decreases |a|
  {
    if a == [] {
      assert a + b == b;
    } else {
      assert (a + b)[0] == a[0];
      assert (a + b)[1..] == a[1..] + b;
      KeepConcat(a[1..], b, keep);
    }
  }

  /** A filter that every element passes returns the sequence unchanged. */
  lemma {:induction false} KeepAll<T(!new)>(s: seq<T>, keep: T -> bool)
    requires forall i :: 0 <= i < |s| ==> keep(s[i])
    ensures Keep(s, keep) == s
    decreases |s|
  {
    if s != [] {
      assert forall i :: 0 <= i < |s[1..]| ==> s[1..][i] == s[i + 1];
      KeepAll(s[1..], keep);
    }
  }

  /** `s.filter((_, i) => i !== idx)`: every element except the one at position `idx`. */
  function DropIndex<T>(s: seq<T>, idx: int): (r: seq<T>)
    ensures 0 <= idx < |s| ==> |r| == |s| - 1
    ensures !(0 <= idx < |s|) ==> r == s
    ensures 0 <= idx < |s| ==> forall i :: 0 <= i < |r| ==> r[i] == s[if i < idx then i else i + 1]
    decreases |s|
  {
    if s == [] then []
    else (if idx == 0 then [] else [s[0]]) + DropIndex(s[1..], idx - 1)
  }

  /** Dropping an index in range splices out exactly that entry. */
  lemma DropIndexIsSplice<T>(s: seq<T>, idx: int)
    requires 0 <= idx < |s|
    ensures DropIndex(s, idx) == s[..idx] + s[idx + 1..]
  {
    var r := DropIndex(s, idx);
    assert |r| == |s[..idx] + s[idx + 1..]|;
    forall i | 0 <= i < |r|
      ensures r[i] == (s[..idx] + s[idx + 1..])[i]
    {
    }
  }
}
