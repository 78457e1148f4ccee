/**
 Random numbers in a range: words above the largest multiple of the range are drawn again, so that
 every result is as likely as every other.
 */
module RandUtil {
  import opened Options

  const UINT64_MAX := 0xffff_ffff_ffff_ffff
  const INT_MIN := -0x8000_0000
  const INT_MAX := 0x7fff_ffff

  // ---------- Which words are accepted ----------

  /** Words below this are accepted, when words run from 0 to `max`. */
  function Limit(max: nat, range: nat): (limit: nat)
    requires 0 < range <= max
  {
    max / range * range
  }

  /** The accepted words with residue `k`. */
  ghost function Hits(limit: nat, range: nat, k: nat): set<nat>
    requires range > 0
  {
    set v: nat | v < limit && v % range == k
  }

  lemma ModOf(q: nat, range: nat, k: nat)
    requires k < range
    ensures (q * range + k) % range == k && (q * range + k) / range == q
  {
    var n := q * range + k;
    var q1 := n / range;
    Divided(n, range);
    Next(q1, range);
    Next(q, range);
    if q1 < q {
      Times(q1 + 1, q, range);
    } else if q < q1 {
      Times(q + 1, q1, range);
    }
  }

  lemma Divided(v: nat, range: nat)
    requires range > 0
    ensures v == v / range * range + v % range && v / range * range >= 0 && 0 <= v % range < range
  {
  }

  lemma Next(a: nat, c: nat)
    ensures (a + 1) * c == a * c + c
  {
  }

  lemma Times(a: nat, b: nat, c: nat)
    requires a <= b
    ensures a * c <= b * c
  {
  }

  /** Each residue is hit once in each of the `q` runs of `range` words. */
  lemma {:induction false} HitsOfMultiple(q: nat, range: nat, k: nat)
    requires k < range
    ensures q * range >= 0 && |Hits(q * range, range, k)| == q
    decreases q
  {
    Times(0, q, range);
    if q == 0 {
      assert Hits(0, range, k) == {};
    } else {
      Next(q - 1, range);
      HitsOfMultiple(q - 1, range, k);
      OneMoreHit(q - 1, range, k, (q - 1) * range);
    }
  }

  lemma {:induction false} OneMoreHit(q: nat, range: nat, k: nat, limit: nat)
    requires k < range && limit == q * range
    ensures Hits(limit + range, range, k) == Hits(limit, range, k) + {limit + k}
    ensures limit + k !in Hits(limit, range, k)
  {
    ModOf(q, range, k);
    forall u: nat | limit <= u < limit + range
      ensures u % range == u - limit
    {
      ModOf(q, range, u - limit);
    }
  }

  /**
   Whatever the largest word, every result below `range` comes from exactly `max / range` accepted
   words, and at least half of all words are accepted.
   */
  lemma {:induction false} Uniform(max: nat, range: nat, k: nat)
    requires 0 < range <= max && k < range
    ensures |Hits(Limit(max, range), range, k)| == max / range
    ensures Limit(max, range) <= max && 2 * Limit(max, range) >= max + 1
  {
    var q := max / range;
    HitsOfMultiple(q, range, k);
    Divided(max, range);
    Times(1, q, range);
  }

  // ---------- The retry loop ----------

  /** What the generator makes of the words it is given to draw: the residue of the first accepted one. */
  function Outcome(max: nat, range: nat, draws: seq<nat>): (r: Option<nat>)
    requires 0 < range <= max
    decreases |draws|
  {
    if |draws| == 0 then None
    else if draws[0] < Limit(max, range) then Some(draws[0] % range)
    else Outcome(max, range, draws[1..])
  }

  /** `draws` are the words `RandUint64` returns; `result` is `None` when they run out. */
  method RandGenerator(range: nat, draws: seq<nat>) returns (result: Option<nat>, used: nat)
    requires 0 < range <= UINT64_MAX
    ensures used <= |draws|
    ensures result == Outcome(UINT64_MAX, range, draws)
    ensures result.None? ==> used == |draws| && forall i :: 0 <= i < |draws| ==> draws[i] >= Limit(UINT64_MAX, range)
    ensures result.Some? ==>
              && used > 0 && draws[used - 1] < Limit(UINT64_MAX, range)
              && result.value == draws[used - 1] % range
              && result.value < range
              && forall i :: 0 <= i < used - 1 ==> draws[i] >= Limit(UINT64_MAX, range)
  {
    hide Limit;
    var maxAcceptableValue := Limit(UINT64_MAX, range) - 1;
    used := 0;
    while used < |draws|
      invariant 0 <= used <= |draws|
      invariant forall i :: 0 <= i < used ==> draws[i] >= Limit(UINT64_MAX, range)
      invariant Outcome(UINT64_MAX, range, draws) == Outcome(UINT64_MAX, range, draws[used..])
    {
      var value := draws[used];
      assert draws[used..][0] == value && draws[used..][1..] == draws[used + 1..];
      used := used + 1;
      if value <= maxAcceptableValue {
        return Some(value % range), used;
      }
    }
    result := None;
  }

  // ---------- Results are equally likely for any number of draws ----------

  /** Exchanges the results `a` and `b`. */
  function Exchanged(a: nat, b: nat, k: nat): nat {
    if k == a then b else if k == b then a else k
  }

  /** The accepted word in the same run of `range` words with the exchanged residue. */
  function Mirror(max: nat, range: nat, a: nat, b: nat, v: nat): nat
    requires 0 < range <= max && a < range && b < range
  {
    Divided(v, range);
    if v < Limit(max, range) then v / range * range + Exchanged(a, b, v % range) else v
  }

  lemma {:induction false} MirrorKeeps(max: nat, range: nat, a: nat, b: nat, v: nat)
    requires 0 < range <= max && a < range && b < range
    ensures var u := Mirror(max, range, a, b, v);
            && (u < Limit(max, range) <==> v < Limit(max, range))
            && (v <= max ==> u <= max)
            && (v < Limit(max, range) ==> u % range == Exchanged(a, b, v % range))
            && Mirror(max, range, a, b, u) == v
  {
    var q, limit := max / range, Limit(max, range);
    if v < limit {
      var p, k := v / range, v % range;
      Divided(v, range);
      ModOf(p, range, Exchanged(a, b, k));
      Uniform(max, range, a);
      Next(p, range);
      if p >= q {
        Times(q, p, range);
      } else {
        Times(p + 1, q, range);
      }
    }
  }

  function MirrorAll(max: nat, range: nat, a: nat, b: nat, draws: seq<nat>): (m: seq<nat>)
    requires 0 < range <= max && a < range && b < range
    ensures |m| == |draws|
  {
    seq(|draws|, i requires 0 <= i < |draws| => Mirror(max, range, a, b, draws[i]))
  }

  /**
   For any number of draws, exchanging words this way pairs the sequences with result `a` with the
   sequences with result `b`: it undoes itself and it exchanges the two results.
   */
  lemma {:induction false} EquallyLikely(max: nat, range: nat, a: nat, b: nat, draws: seq<nat>)
    requires 0 < range <= max && a < range && b < range
    ensures var m := MirrorAll(max, range, a, b, draws);
            && MirrorAll(max, range, a, b, m) == draws
            && ((forall v :: v in draws ==> v <= max) ==> (forall v :: v in m ==> v <= max))
            && (Outcome(max, range, draws) == Some(a) <==> Outcome(max, range, m) == Some(b))
  {
    hide Limit, Mirror, Outcome;
    var m := MirrorAll(max, range, a, b, draws);
    forall i | 0 <= i < |draws|
      ensures Mirror(max, range, a, b, m[i]) == draws[i] && (draws[i] <= max ==> m[i] <= max)
    {
      MirrorKeeps(max, range, a, b, draws[i]);
    }
    assert MirrorAll(max, range, a, b, m) == draws;
    if forall v :: v in draws ==> v <= max {
      forall v | v in m
        ensures v <= max
      {
        var i :| 0 <= i < |m| && m[i] == v;
        assert draws[i] in draws;
      }
    }
    OutcomeMirrored(max, range, a, b, draws);
  }

  lemma {:induction false} OutcomeMirrored(max: nat, range: nat, a: nat, b: nat, draws: seq<nat>)
    requires 0 < range <= max && a < range && b < range
    ensures var r, m := Outcome(max, range, draws), Outcome(max, range, MirrorAll(max, range, a, b, draws));
            m == if r.Some? then Some(Exchanged(a, b, r.value)) else None
    decreases |draws|
  {
    hide Limit, Mirror;
    if |draws| > 0 {
      MirrorKeeps(max, range, a, b, draws[0]);
      OutcomeMirrored(max, range, a, b, draws[1..]);
      assert MirrorAll(max, range, a, b, draws)[1..] == MirrorAll(max, range, a, b, draws[1..]);
    }
  }

  // ---------- A range of integers ----------

  predicate IsInt(i: int) { INT_MIN <= i <= INT_MAX }

  /** Conversion to a 64-bit unsigned number. */
  function ToUint64(i: int): (n: nat) { i % 0x1_0000_0000_0000_0000 }

  /** Conversion to a 32-bit signed number. */
  function ToInt(i: int): (r: int)
    ensures IsInt(r)
  {
    var n := i % 0x1_0000_0000;
    if n <= INT_MAX then n else n - 0x1_0000_0000
  }

  function Range(min: int, max: int): nat {
    ToUint64(ToUint64(ToUint64(max) - ToUint64(min)) + 1)
  }

  /** What `RandInt` makes of the number the generator returns. */
  function Placed(min: int, value: nat): (r: int)
    ensures IsInt(r)
  {
    ToInt(min + ToInt(value))
  }

  lemma {:induction false} RangeIs(min: int, max: int)
    requires IsInt(min) && IsInt(max) && min <= max
    ensures Range(min, max) == max - min + 1 <= UINT64_MAX
  {
    assert ToUint64(ToUint64(max) - ToUint64(min)) == max - min;
  }

  lemma {:induction false} PlacedIs(min: int, max: int, value: nat)
    requires IsInt(min) && IsInt(max) && min <= max && value < max - min + 1
    ensures Placed(min, value) == min + value
  {
  }

  /**
   The sum in `RandInt` is computed on signed integers and leaves their range exactly when the drawn
   number does not fit one; so it can overflow exactly for ranges of more than 2^31 numbers.
   */
  lemma {:induction false} SumOverflows(min: int, max: int, value: nat)
    requires IsInt(min) && IsInt(max) && min <= max && value < max - min + 1
    ensures !IsInt(min + ToInt(value)) <==> value > INT_MAX
    ensures (exists v: nat :: v <= max - min && !IsInt(min + ToInt(v))) <==> max - min > INT_MAX
  {
    if max - min > INT_MAX {
      var v := INT_MAX + 1;
      assert !IsInt(min + ToInt(v));
    }
  }

  /** `RandInt`, on the words it is given to draw. */
  method RandInt(min: int, max: int, draws: seq<nat>) returns (result: Option<int>)
    requires IsInt(min) && IsInt(max) && min <= max
    ensures result.None? ==> Outcome(UINT64_MAX, max - min + 1, draws).None?
    ensures result.Some? ==>
              && min <= result.value <= max
              && Outcome(UINT64_MAX, max - min + 1, draws) == Some(result.value - min)
  {
    hide Outcome, Range, Placed, Limit;
    RangeIs(min, max);
    var value, used := RandGenerator(Range(min, max), draws);
    if value.None? {
      return None;
    }
    PlacedIs(min, max, value.value);
    result := Some(Placed(min, value.value));
  }

  /** The accepted words that `RandInt` turns into `n`. */
  ghost function IntHits(min: int, max: int, n: int): set<nat>
    requires IsInt(min) && IsInt(max) && min <= max
  {
    RangeIs(min, max);
    set v: nat | v < Limit(UINT64_MAX, Range(min, max)) && Placed(min, v % Range(min, max)) == n
  }

  /** Every integer from `min` to `max` comes from the same number of words, and no other integer from any. */
  lemma {:induction false} RandIntUniform(min: int, max: int, n: int)
    requires IsInt(min) && IsInt(max) && min <= max
    ensures |IntHits(min, max, n)| == if min <= n <= max then UINT64_MAX / (max - min + 1) else 0
  {
    hide Limit, Placed, Range;
    RangeIs(min, max);
    var range := max - min + 1;
    forall v: nat
      ensures Placed(min, v % range) == min + v % range
    {
      PlacedIs(min, max, v % range);
    }
    if min <= n <= max {
      assert IntHits(min, max, n) == Hits(Limit(UINT64_MAX, range), range, n - min);
      Uniform(UINT64_MAX, range, n - min);
    } else {
      assert IntHits(min, max, n) == {};
    }
  }

  // ---------- The unit interval ----------

  const TWO_53 := 0x20_0000_0000_0000

  /** The low 53 bits, scaled down. */
  function BitsToOpenEndedUnitInterval(bits: nat): real {
    (bits % TWO_53) as real / TWO_53 as real
  }

  /** Every result lies in [0, 1), and each multiple of 2^-53 there comes from exactly 2^11 of the 2^64 words. */
  lemma {:induction false} UnitIntervalUniform(k: nat, bits: nat)
    requires k < TWO_53
    ensures 0.0 <= BitsToOpenEndedUnitInterval(bits) < 1.0
    ensures |(set v: nat | v <= UINT64_MAX && BitsToOpenEndedUnitInterval(v) == k as real / TWO_53 as real)| == 0x800
  {
    HitsOfMultiple(0x800, TWO_53, k);
    forall v: nat
      ensures BitsToOpenEndedUnitInterval(v) == k as real / TWO_53 as real <==> v % TWO_53 == k
    {
    }
    assert (set v: nat | v <= UINT64_MAX && BitsToOpenEndedUnitInterval(v) == k as real / TWO_53 as real)
        == Hits(0x800 * TWO_53, TWO_53, k);
  }
}
