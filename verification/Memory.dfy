/** Copying blocks of memory. */
module Memory {

  /** `b` with `g` laid over it at `at`. */
  function Splice<T>(b: seq<T>, at: nat, g: seq<T>): (r: seq<T>)
    requires at + |g| <= |b|
    ensures |r| == |b|
  {
    b[..at] + g + b[at + |g|..]
  }

  lemma SpliceAt<T>(b: seq<T>, at: nat, g: seq<T>)
    requires at + |g| <= |b|
    ensures Splice(b, at, g)[..at + |g|] == b[..at] + g
    ensures Splice(b, at, g)[at..at + |g|] == g
    ensures Splice(b, at, g)[at + |g|..] == b[at + |g|..]
    ensures at == 0 && |g| == |b| ==> Splice(b, at, g) == g
  {
  }

  /** Copies `s` into `a` at `at`. */
  method Copy<T>(a: array<T>, at: nat, s: seq<T>)
    requires at + |s| <= a.Length
    modifies a
    ensures a[..] == Splice(old(a[..]), at, s)
  {
    forall i | 0 <= i < |s| {
      a[at + i] := s[i];
    }
  }

  lemma Adjoin<T>(b: seq<T>, from: nat, middle: nat, to: nat)
    requires from <= middle <= to <= |b|
    ensures b[from..to] == b[from..middle] + b[middle..to]
  {
  }
}
