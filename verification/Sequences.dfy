/** Searching, removing and filtering in sequences. */
module Sequences {

  function FirstIndex<T(==)>(s: seq<T>, x: T): (i: nat)
    ensures i <= |s|
    ensures x !in s[..i]
    ensures i < |s| ==> s[i] == x
    ensures i == |s| <==> x !in s
  {
    if s == [] then 0
    else if s[0] == x then 0
    else
      var j := FirstIndex(s[1..], x);
      assert s[..j + 1] == [s[0]] + s[1..][..j];
      assert s == [s[0]] + s[1..];
      j + 1
  }

  function Without<T>(s: seq<T>, i: nat): seq<T>
    requires i < |s|
  {
    s[..i] + s[i + 1..]
  }

  lemma FirstIndexUnique<T>(s: seq<T>, x: T, i: nat)
    requires i <= |s| && x !in s[..i] && (i < |s| ==> s[i] == x)
    ensures FirstIndex(s, x) == i
  {
    var j := FirstIndex(s, x);
    assert j == i;
  }

  lemma FirstIndexIn<T>(a: seq<T>, x: T, b: seq<T>)
    requires x !in a
    ensures FirstIndex(a + [x] + b, x) == |a|
  {
    var s := a + [x] + b;
    var i := FirstIndex(s, x);
    assert s[|a|] == x;
  }

  function Filter<T>(keep: T -> bool, s: seq<T>): seq<T> {
    if s == [] then []
    else if keep(s[0]) then [s[0]] + Filter(keep, s[1..])
    else Filter(keep, s[1..])
  }

  lemma {:induction false} FilterConcat<T>(keep: T -> bool, a: seq<T>, b: seq<T>)
    ensures Filter(keep, a + b) == Filter(keep, a) + Filter(keep, b)
  {
    if a == [] {
      assert a + b == b;
    } else {
      FilterConcat(keep, a[1..], b);
      assert (a + b)[1..] == a[1..] + b;
    }
  }

  /** A filter never lengthens, and keeps the length only by keeping everything. */
  lemma {:induction false} FilterLength<T>(keep: T -> bool, s: seq<T>)
    ensures |Filter(keep, s)| <= |s|
    ensures |Filter(keep, s)| == |s| <==> forall x :: x in s ==> keep(x)
    ensures |Filter(keep, s)| == |s| ==> Filter(keep, s) == s
  {
    if s != [] {
      FilterLength(keep, s[1..]);
      assert forall x :: x in s <==> x == s[0] || x in s[1..];
    }
  }

  lemma {:induction false} FilterNone<T>(keep: T -> bool, s: seq<T>)
    requires forall x :: x in s ==> !keep(x)
    ensures Filter(keep, s) == []
  {
    if s != [] {
      FilterNone(keep, s[1..]);
    }
  }

  lemma {:induction false} FilterMembers<T>(keep: T -> bool, s: seq<T>, x: T)
    ensures x in Filter(keep, s) <==> x in s && keep(x)
  {
    if s != [] {
      FilterMembers(keep, s[1..], x);
      assert x in s <==> x == s[0] || x in s[1..];
    }
  }
}
