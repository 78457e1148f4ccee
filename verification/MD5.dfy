/**
 MD5: the digest of RFC 1321 and the code that computes it, an unrolled block transformation and a
 context that is fed the message in pieces of any size.
 */
module MD5 {
  import opened Memory

  type byte = bv8
  type word = bv32
  type uint32 = x: int | 0 <= x < 0x1_0000_0000

  // ---------- Arithmetic on words ----------

  /** Addition modulo 2^32. */
  function Add(x: word, y: word): word { x + y }

  function Sub(x: word, y: word): word { x - y }

  function Left(w: word, s: word): word
    requires 0 < s < 32
  {
    w << s
  }

  function Right(w: word, s: word): word
    requires 0 < s < 32
  {
    w >> s
  }

  function Either(x: word, y: word): word { x | y }

  function Rotate(w: word, s: word): word
    requires 0 < s < 32
  {
    Either(Left(w, s), Right(w, 32 - s))
  }

  lemma AddIs(x: word, y: word)
    ensures Add(x, y) == x + y
  {
  }

  lemma SubIs(x: word, y: word)
    ensures Sub(x, y) == x - y
  {
  }

  lemma FlatSum(a: word, b: word, c: word)
    ensures Add(a + b, c) == Add(a, b + c)
    ensures Sub(a + b, b) == a && Add(a - b, b) == a
  {
  }

  lemma AddCommutes(a: word, b: word)
    ensures Add(a, b) == Add(b, a)
  {
  }

  lemma AddGroup(a: word, b: word, c: word)
    ensures Add(Add(a, b), c) == Add(a, Add(b, c))
  {
    hide Add, Sub;
    AddIs(a, b);
    AddIs(b, c);
    FlatSum(a, b, c);
  }

  lemma AddSub(a: word, b: word)
    ensures Sub(Add(a, b), b) == a && Add(Sub(a, b), b) == a
  {
    hide Add, Sub;
    AddIs(a, b);
    SubIs(a, b);
    FlatSum(a, b, 0);
  }

  lemma ShiftIs(w: word, s: word)
    requires 0 < s < 32
    ensures Left(w, s) == w << s && Right(w, s) == w >> s
  {
  }

  lemma EitherIs(x: word, y: word)
    ensures Either(x, y) == x | y
  {
  }

  lemma FlatLeft(a: word, b: word, s: word)
    requires 0 < s < 32
    ensures Left(a | b, s) == Either(a << s, b << s)
  {
  }

  lemma FlatRight(a: word, b: word, s: word)
    requires 0 < s < 32
    ensures Right(a | b, s) == Either(a >> s, b >> s)
  {
  }

  /** A shift acts on each part of a word. */
  lemma ShiftParts(a: word, b: word, s: word)
    requires 0 < s < 32
    ensures Left(Either(a, b), s) == Either(Left(a, s), Left(b, s))
    ensures Right(Either(a, b), s) == Either(Right(a, s), Right(b, s))
  {
    hide Left, Right, Either;
    EitherIs(a, b);
    ShiftIs(a, s);
    ShiftIs(b, s);
    FlatLeft(a, b, s);
    FlatRight(a, b, s);
  }

  /** Shifting back restores the part that stayed, and nothing of the part that left. */
  lemma ShiftBack(w: word, s: word)
    requires 0 < s < 32
    ensures Either(Left(Right(w, 32 - s), 32 - s), Right(Left(w, s), s)) == w
  {
  }

  lemma ShiftOut(w: word, s: word)
    requires 0 < s < 32
    ensures Left(Left(w, s), 32 - s) == 0 && Right(Right(w, 32 - s), s) == 0
  {
  }

  lemma EitherNothing(x: word)
    ensures Either(0, x) == x && Either(x, 0) == x
  {
  }

  lemma RotateBack(w: word, s: word)
    requires 0 < s < 32
    ensures Rotate(Rotate(w, s), 32 - s) == w
  {
    hide Left, Right, Either;
    var a, b := Left(w, s), Right(w, 32 - s);
    ShiftParts(a, b, 32 - s);
    ShiftParts(a, b, s);
    ShiftOut(w, s);
    EitherNothing(Left(b, 32 - s));
    EitherNothing(Right(a, s));
    ShiftBack(w, s);
  }

  // ---------- The rounds of RFC 1321, section 3.4 ----------

  datatype State = State(a: word, b: word, c: word, d: word)

  function F(x: word, y: word, z: word): word { (x & y) | (!x & z) }
  function G(x: word, y: word, z: word): word { (x & z) | (y & !z) }
  function H(x: word, y: word, z: word): word { x ^ y ^ z }
  function I(x: word, y: word, z: word): word { y ^ (x | !z) }

  /** Which word of the block operation `i` uses. */
  function WordIndex(i: nat): (k: nat)
    ensures k < 16
  {
    if i < 16 then i
    else if i < 32 then (1 + 5 * i) % 16
    else if i < 48 then (5 + 3 * i) % 16
    else (7 * i) % 16
  }

  /** By how much the operations of each round rotate. */
  function Shift1(k: nat): (s: word)
    ensures 4 <= s <= 23
  {
    if k % 4 == 0 then 7 else if k % 4 == 1 then 12 else if k % 4 == 2 then 17 else 22
  }

  function Shift2(k: nat): (s: word)
    ensures 4 <= s <= 23
  {
    if k % 4 == 0 then 5 else if k % 4 == 1 then 9 else if k % 4 == 2 then 14 else 20
  }

  function Shift3(k: nat): (s: word)
    ensures 4 <= s <= 23
  {
    if k % 4 == 0 then 4 else if k % 4 == 1 then 11 else if k % 4 == 2 then 16 else 23
  }

  function Shift4(k: nat): (s: word)
    ensures 4 <= s <= 23
  {
    if k % 4 == 0 then 6 else if k % 4 == 1 then 10 else if k % 4 == 2 then 15 else 21
  }

  function Shift(i: nat): (s: word)
    ensures 4 <= s <= 23
  {
    if i < 16 then Shift1(i) else if i < 32 then Shift2(i - 16) else if i < 48 then Shift3(i - 32) else Shift4(i - 48)
  }

  /** The sine table of section 3.4, counted from 0, one function for each round. */
  function T1(k: nat): word {
    if k == 0 then 0xd76aa478 else if k == 1 then 0xe8c7b756 else
    if k == 2 then 0x242070db else if k == 3 then 0xc1bdceee else
    if k == 4 then 0xf57c0faf else if k == 5 then 0x4787c62a else
    if k == 6 then 0xa8304613 else if k == 7 then 0xfd469501 else
    if k == 8 then 0x698098d8 else if k == 9 then 0x8b44f7af else
    if k == 10 then 0xffff5bb1 else if k == 11 then 0x895cd7be else
    if k == 12 then 0x6b901122 else if k == 13 then 0xfd987193 else if k == 14 then 0xa679438e else 0x49b40821
  }

  function T2(k: nat): word {
    if k == 0 then 0xf61e2562 else if k == 1 then 0xc040b340 else
    if k == 2 then 0x265e5a51 else if k == 3 then 0xe9b6c7aa else
    if k == 4 then 0xd62f105d else if k == 5 then 0x02441453 else
    if k == 6 then 0xd8a1e681 else if k == 7 then 0xe7d3fbc8 else
    if k == 8 then 0x21e1cde6 else if k == 9 then 0xc33707d6 else
    if k == 10 then 0xf4d50d87 else if k == 11 then 0x455a14ed else
    if k == 12 then 0xa9e3e905 else if k == 13 then 0xfcefa3f8 else if k == 14 then 0x676f02d9 else 0x8d2a4c8a
  }

  function T3(k: nat): word {
    if k == 0 then 0xfffa3942 else if k == 1 then 0x8771f681 else
    if k == 2 then 0x6d9d6122 else if k == 3 then 0xfde5380c else
    if k == 4 then 0xa4beea44 else if k == 5 then 0x4bdecfa9 else
    if k == 6 then 0xf6bb4b60 else if k == 7 then 0xbebfbc70 else
    if k == 8 then 0x289b7ec6 else if k == 9 then 0xeaa127fa else
    if k == 10 then 0xd4ef3085 else if k == 11 then 0x04881d05 else
    if k == 12 then 0xd9d4d039 else if k == 13 then 0xe6db99e5 else if k == 14 then 0x1fa27cf8 else 0xc4ac5665
  }

  function T4(k: nat): word {
    if k == 0 then 0xf4292244 else if k == 1 then 0x432aff97 else
    if k == 2 then 0xab9423a7 else if k == 3 then 0xfc93a039 else
    if k == 4 then 0x655b59c3 else if k == 5 then 0x8f0ccc92 else
    if k == 6 then 0xffeff47d else if k == 7 then 0x85845dd1 else
    if k == 8 then 0x6fa87e4f else if k == 9 then 0xfe2ce6e0 else
    if k == 10 then 0xa3014314 else if k == 11 then 0x4e0811a1 else
    if k == 12 then 0xf7537e82 else if k == 13 then 0xbd3af235 else if k == 14 then 0x2ad7d2bb else 0xeb86d391
  }

  function T(i: nat): word {
    if i < 16 then T1(i) else if i < 32 then T2(i - 16) else if i < 48 then T3(i - 32) else T4(i - 48)
  }

  function Mix(i: nat, b: word, c: word, d: word): word {
    if i < 16 then F(b, c, d) else if i < 32 then G(b, c, d) else if i < 48 then H(b, c, d) else I(b, c, d)
  }

  /** One operation of section 3.4, with the registers renamed so that it always sets `b`. */
  function RfcStep(st: State, x: seq<word>, i: nat): State
    requires |x| == 16
  {
    var sum := Add(Add(Add(st.a, Mix(i, st.b, st.c, st.d)), x[WordIndex(i)]), T(i));
    State(st.d, Add(st.b, Rotate(sum, Shift(i))), st.b, st.c)
  }

  /** The first `n` operations. */
  function Steps(st: State, x: seq<word>, n: nat): State
    requires |x| == 16
  {
    if n == 0 then st else RfcStep(Steps(st, x, n - 1), x, n - 1)
  }

  function AddState(s: State, t: State): State {
    State(Add(s.a, t.a), Add(s.b, t.b), Add(s.c, t.c), Add(s.d, t.d))
  }

  function Transform(st: State, x: seq<word>): State
    requires |x| == 16
  {
    AddState(st, Steps(st, x, 64))
  }

  // ---------- For a fixed block the operations can be undone ----------

  function UndoStep(st: State, x: seq<word>, i: nat): State
    requires |x| == 16
  {
    var sum := Rotate(Sub(st.b, st.c), 32 - Shift(i));
    var a := Sub(Sub(Sub(sum, T(i)), x[WordIndex(i)]), Mix(i, st.c, st.d, st.a));
    State(a, st.c, st.d, st.a)
  }

  function UndoSteps(st: State, x: seq<word>, n: nat): State
    requires |x| == 16
    decreases n
  {
    if n == 0 then st else UndoSteps(UndoStep(st, x, n - 1), x, n - 1)
  }

  lemma {:induction false} StepThenUndo(st: State, x: seq<word>, i: nat)
    requires |x| == 16
    ensures UndoStep(RfcStep(st, x, i), x, i) == st
  {
    hide Add, Sub, Rotate, Mix, T, WordIndex, Shift;
    var m, w, t := Mix(i, st.b, st.c, st.d), x[WordIndex(i)], T(i);
    var sum := Add(Add(Add(st.a, m), w), t);
    var turned := Rotate(sum, Shift(i));
    AddCommutes(st.b, turned);
    AddSub(turned, st.b);
    RotateBack(sum, Shift(i));
    AddSub(Add(Add(st.a, m), w), t);
    AddSub(Add(st.a, m), w);
    AddSub(st.a, m);
  }

  lemma {:induction false} UndoThenStep(st: State, x: seq<word>, i: nat)
    requires |x| == 16
    ensures RfcStep(UndoStep(st, x, i), x, i) == st
  {
    hide Add, Sub, Rotate, Mix, T, WordIndex, Shift;
    var m, w, t := Mix(i, st.c, st.d, st.a), x[WordIndex(i)], T(i);
    var turned := Sub(st.b, st.c);
    var sum := Rotate(turned, 32 - Shift(i));
    AddSub(Sub(Sub(sum, t), w), m);
    AddSub(Sub(sum, t), w);
    AddSub(sum, t);
    RotateBack(turned, 32 - Shift(i));
    AddSub(st.b, st.c);
    AddCommutes(st.c, turned);
  }

  /** The 64 operations, without the final additions, are an invertible map on the state. */
  lemma {:induction false} StepsInvertible(st: State, x: seq<word>, n: nat)
    requires |x| == 16
    ensures UndoSteps(Steps(st, x, n), x, n) == st
    ensures Steps(UndoSteps(st, x, n), x, n) == st
    decreases n
  {
    hide RfcStep, UndoStep;
    if n > 0 {
      StepThenUndo(Steps(st, x, n - 1), x, n - 1);
      StepsInvertible(st, x, n - 1);
      UndoThenStep(st, x, n - 1);
      StepsInvertible(UndoStep(st, x, n - 1), x, n - 1);
    }
  }

  // ---------- The unrolled transformation ----------

  function F1(x: word, y: word, z: word): word { z ^ (x & (y ^ z)) }
  function F2(x: word, y: word, z: word): word { F1(z, x, y) }
  function F3(x: word, y: word, z: word): word { x ^ y ^ z }
  function F4(x: word, y: word, z: word): word { y ^ (x | !z) }

  /** The value one unrolled step gives the register `w`. */
  function Step(f: word, w: word, x: word, data: word, s: word): word
    requires 0 < s < 32
  {
    Add(Rotate(Add(w, Add(f, data)), s), x)
  }

  lemma Selection(x: word, y: word, z: word)
    ensures z ^ (x & (y ^ z)) == (x & y) | (!x & z)
  {
  }

  lemma SelectionIs(x: word, y: word, z: word)
    ensures F1(x, y, z) == z ^ (x & (y ^ z)) && F(x, y, z) == (x & y) | (!x & z)
  {
  }

  lemma GIs(x: word, y: word, z: word)
    ensures G(x, y, z) == (z & x) | (!z & y)
  {
  }

  lemma FirstFunction(x: word, y: word, z: word)
    ensures F1(x, y, z) == F(x, y, z)
  {
    hide F, F1;
    SelectionIs(x, y, z);
    Selection(x, y, z);
  }

  lemma SecondFunction(x: word, y: word, z: word)
    ensures G(x, y, z) == F(z, x, y)
  {
    hide F, F1, G;
    GIs(x, y, z);
    SelectionIs(z, x, y);
  }

  /** The rewritten functions of the code are those of section 3.4. */
  lemma SameFunctions(x: word, y: word, z: word)
    ensures F1(x, y, z) == F(x, y, z) && F2(x, y, z) == G(x, y, z)
    ensures F3(x, y, z) == H(x, y, z) && F4(x, y, z) == I(x, y, z)
  {
    hide F, F1, G;
    FirstFunction(x, y, z);
    FirstFunction(z, x, y);
    SecondFunction(x, y, z);
  }

  function CodeMix(i: nat, x: word, y: word, z: word): word {
    if i < 16 then F1(x, y, z) else if i < 32 then F2(x, y, z) else if i < 48 then F3(x, y, z) else F4(x, y, z)
  }

  lemma {:induction false} Unrolled(st: State, x: seq<word>, i: nat, a: word, b: word, c: word, d: word)
    requires |x| == 16 && Steps(st, x, i) == State(a, b, c, d)
    ensures Steps(st, x, i + 1)
            == State(d, Step(CodeMix(i, b, c, d), a, b, Add(x[WordIndex(i)], T(i)), Shift(i)), b, c)
  {
    hide Add, Rotate, T, WordIndex, Shift, F, G, H, I, F1, F2, F3, F4;
    SameFunctions(b, c, d);
    var m, w, t := Mix(i, b, c, d), x[WordIndex(i)], T(i);
    AddGroup(Add(a, m), w, t);
    AddGroup(a, m, Add(w, t));
    AddCommutes(b, Rotate(Add(a, Add(m, Add(w, t))), Shift(i)));
  }

  lemma Mod16(n: nat, m: nat)
    ensures (n + 16 * m) % 16 == n % 16
  {
  }

  lemma Index2(k: nat)
    requires k < 16
    ensures WordIndex(16 + k) == (1 + 5 * k) % 16
  {
    Mod16(1 + 5 * k, 5);
  }

  lemma Index3(k: nat)
    requires k < 16
    ensures WordIndex(32 + k) == (5 + 3 * k) % 16
  {
    Mod16(5 + 3 * k, 6);
  }

  lemma Index4(k: nat)
    requires k < 16
    ensures WordIndex(48 + k) == (7 * k) % 16
  {
    Mod16(7 * k, 21);
  }

  lemma {:induction false} Unrolled1(st: State, x: seq<word>, k: nat, a: word, b: word, c: word, d: word)
    requires |x| == 16 && k < 16 && Steps(st, x, 0 + k) == State(a, b, c, d)
    ensures Steps(st, x, 1 + k)
            == State(d, Step(F1(b, c, d), a, b, Add(x[k], T1(k)), Shift1(k)), b, c)
  {
    hide Add, Rotate, Step, Steps, RfcStep, Mix, F1, F2, F3, F4, T1, Shift1, T2, Shift2, T3, Shift3, T4, Shift4;
    Unrolled(st, x, 0 + k, a, b, c, d);
  }

  lemma {:induction false} Unrolled2(st: State, x: seq<word>, k: nat, j: nat, a: word, b: word, c: word, d: word)
    requires |x| == 16 && k < 16 && j == (1 + 5 * k) % 16 && Steps(st, x, 16 + k) == State(a, b, c, d)
    ensures Steps(st, x, 17 + k)
            == State(d, Step(F2(b, c, d), a, b, Add(x[j], T2(k)), Shift2(k)), b, c)
  {
    hide WordIndex, Add, Rotate, Step, Steps, RfcStep, Mix, F1, F2, F3, F4,
         T1, Shift1, T2, Shift2, T3, Shift3, T4, Shift4;
    Index2(k);
    Unrolled(st, x, 16 + k, a, b, c, d);
  }

  lemma {:induction false} Unrolled3(st: State, x: seq<word>, k: nat, j: nat, a: word, b: word, c: word, d: word)
    requires |x| == 16 && k < 16 && j == (5 + 3 * k) % 16 && Steps(st, x, 32 + k) == State(a, b, c, d)
    ensures Steps(st, x, 33 + k)
            == State(d, Step(F3(b, c, d), a, b, Add(x[j], T3(k)), Shift3(k)), b, c)
  {
    hide WordIndex, Add, Rotate, Step, Steps, RfcStep, Mix, F1, F2, F3, F4,
         T1, Shift1, T2, Shift2, T3, Shift3, T4, Shift4;
    Index3(k);
    Unrolled(st, x, 32 + k, a, b, c, d);
  }

  lemma {:induction false} Unrolled4(st: State, x: seq<word>, k: nat, j: nat, a: word, b: word, c: word, d: word)
    requires |x| == 16 && k < 16 && j == (7 * k) % 16 && Steps(st, x, 48 + k) == State(a, b, c, d)
    ensures Steps(st, x, 49 + k)
            == State(d, Step(F4(b, c, d), a, b, Add(x[j], T4(k)), Shift4(k)), b, c)
  {
    hide WordIndex, Add, Rotate, Step, Steps, RfcStep, Mix, F1, F2, F3, F4,
         T1, Shift1, T2, Shift2, T3, Shift3, T4, Shift4;
    Index4(k);
    Unrolled(st, x, 48 + k, a, b, c, d);
  }

  method Round1(ghost st: State, x: seq<word>, a0: word, b0: word, c0: word, d0: word)
    returns (a: word, b: word, c: word, d: word)
    requires |x| == 16
    requires Steps(st, x, 0) == State(a0, b0, c0, d0)
    ensures Steps(st, x, 16) == State(a, b, c, d)
  {
    hide Add, Rotate, Steps, RfcStep, Step, F1, F2, F3, F4, WordIndex, Mix, CodeMix, T, Shift,
         T2, Shift2, T3, Shift3, T4, Shift4;
    a, b, c, d := a0, b0, c0, d0;
    Unrolled1(st, x, 0, a, b, c, d);
    a := Step(F1(b, c, d), a, b, Add(x[0], 0xd76aa478), 7);
    Unrolled1(st, x, 1, d, a, b, c);
    d := Step(F1(a, b, c), d, a, Add(x[1], 0xe8c7b756), 12);
    Unrolled1(st, x, 2, c, d, a, b);
    c := Step(F1(d, a, b), c, d, Add(x[2], 0x242070db), 17);
    Unrolled1(st, x, 3, b, c, d, a);
    b := Step(F1(c, d, a), b, c, Add(x[3], 0xc1bdceee), 22);
    Unrolled1(st, x, 4, a, b, c, d);
    a := Step(F1(b, c, d), a, b, Add(x[4], 0xf57c0faf), 7);
    Unrolled1(st, x, 5, d, a, b, c);
    d := Step(F1(a, b, c), d, a, Add(x[5], 0x4787c62a), 12);
    Unrolled1(st, x, 6, c, d, a, b);
    c := Step(F1(d, a, b), c, d, Add(x[6], 0xa8304613), 17);
    Unrolled1(st, x, 7, b, c, d, a);
    b := Step(F1(c, d, a), b, c, Add(x[7], 0xfd469501), 22);
    assert Steps(st, x, 8) == State(a, b, c, d);
    Unrolled1(st, x, 8, a, b, c, d);
    a := Step(F1(b, c, d), a, b, Add(x[8], 0x698098d8), 7);
    Unrolled1(st, x, 9, d, a, b, c);
    d := Step(F1(a, b, c), d, a, Add(x[9], 0x8b44f7af), 12);
    Unrolled1(st, x, 10, c, d, a, b);
    c := Step(F1(d, a, b), c, d, Add(x[10], 0xffff5bb1), 17);
    Unrolled1(st, x, 11, b, c, d, a);
    b := Step(F1(c, d, a), b, c, Add(x[11], 0x895cd7be), 22);
    Unrolled1(st, x, 12, a, b, c, d);
    a := Step(F1(b, c, d), a, b, Add(x[12], 0x6b901122), 7);
    Unrolled1(st, x, 13, d, a, b, c);
    d := Step(F1(a, b, c), d, a, Add(x[13], 0xfd987193), 12);
    Unrolled1(st, x, 14, c, d, a, b);
    c := Step(F1(d, a, b), c, d, Add(x[14], 0xa679438e), 17);
    Unrolled1(st, x, 15, b, c, d, a);
    b := Step(F1(c, d, a), b, c, Add(x[15], 0x49b40821), 22);
  }

  method Round2(ghost st: State, x: seq<word>, a0: word, b0: word, c0: word, d0: word)
    returns (a: word, b: word, c: word, d: word)
    requires |x| == 16
    requires Steps(st, x, 16) == State(a0, b0, c0, d0)
    ensures Steps(st, x, 32) == State(a, b, c, d)
  {
    hide Add, Rotate, Steps, RfcStep, Step, F1, F2, F3, F4, WordIndex, Mix, CodeMix, T, Shift,
         T1, Shift1, T3, Shift3, T4, Shift4;
    a, b, c, d := a0, b0, c0, d0;
    Unrolled2(st, x, 0, 1, a, b, c, d);
    a := Step(F2(b, c, d), a, b, Add(x[1], 0xf61e2562), 5);
    Unrolled2(st, x, 1, 6, d, a, b, c);
    d := Step(F2(a, b, c), d, a, Add(x[6], 0xc040b340), 9);
    Unrolled2(st, x, 2, 11, c, d, a, b);
    c := Step(F2(d, a, b), c, d, Add(x[11], 0x265e5a51), 14);
    Unrolled2(st, x, 3, 0, b, c, d, a);
    b := Step(F2(c, d, a), b, c, Add(x[0], 0xe9b6c7aa), 20);
    Unrolled2(st, x, 4, 5, a, b, c, d);
    a := Step(F2(b, c, d), a, b, Add(x[5], 0xd62f105d), 5);
    Unrolled2(st, x, 5, 10, d, a, b, c);
    d := Step(F2(a, b, c), d, a, Add(x[10], 0x02441453), 9);
    Unrolled2(st, x, 6, 15, c, d, a, b);
    c := Step(F2(d, a, b), c, d, Add(x[15], 0xd8a1e681), 14);
    Unrolled2(st, x, 7, 4, b, c, d, a);
    b := Step(F2(c, d, a), b, c, Add(x[4], 0xe7d3fbc8), 20);
    assert Steps(st, x, 24) == State(a, b, c, d);
    Unrolled2(st, x, 8, 9, a, b, c, d);
    a := Step(F2(b, c, d), a, b, Add(x[9], 0x21e1cde6), 5);
    Unrolled2(st, x, 9, 14, d, a, b, c);
    d := Step(F2(a, b, c), d, a, Add(x[14], 0xc33707d6), 9);
    Unrolled2(st, x, 10, 3, c, d, a, b);
    c := Step(F2(d, a, b), c, d, Add(x[3], 0xf4d50d87), 14);
    Unrolled2(st, x, 11, 8, b, c, d, a);
    b := Step(F2(c, d, a), b, c, Add(x[8], 0x455a14ed), 20);
    Unrolled2(st, x, 12, 13, a, b, c, d);
    a := Step(F2(b, c, d), a, b, Add(x[13], 0xa9e3e905), 5);
    Unrolled2(st, x, 13, 2, d, a, b, c);
    d := Step(F2(a, b, c), d, a, Add(x[2], 0xfcefa3f8), 9);
    Unrolled2(st, x, 14, 7, c, d, a, b);
    c := Step(F2(d, a, b), c, d, Add(x[7], 0x676f02d9), 14);
    Unrolled2(st, x, 15, 12, b, c, d, a);
    b := Step(F2(c, d, a), b, c, Add(x[12], 0x8d2a4c8a), 20);
  }

  method Round3(ghost st: State, x: seq<word>, a0: word, b0: word, c0: word, d0: word)
    returns (a: word, b: word, c: word, d: word)
    requires |x| == 16
    requires Steps(st, x, 32) == State(a0, b0, c0, d0)
    ensures Steps(st, x, 48) == State(a, b, c, d)
  {
    hide Add, Rotate, Steps, RfcStep, Step, F1, F2, F3, F4, WordIndex, Mix, CodeMix, T, Shift,
         T1, Shift1, T2, Shift2, T4, Shift4;
    a, b, c, d := a0, b0, c0, d0;
    Unrolled3(st, x, 0, 5, a, b, c, d);
    a := Step(F3(b, c, d), a, b, Add(x[5], 0xfffa3942), 4);
    Unrolled3(st, x, 1, 8, d, a, b, c);
    d := Step(F3(a, b, c), d, a, Add(x[8], 0x8771f681), 11);
    Unrolled3(st, x, 2, 11, c, d, a, b);
    c := Step(F3(d, a, b), c, d, Add(x[11], 0x6d9d6122), 16);
    Unrolled3(st, x, 3, 14, b, c, d, a);
    b := Step(F3(c, d, a), b, c, Add(x[14], 0xfde5380c), 23);
    Unrolled3(st, x, 4, 1, a, b, c, d);
    a := Step(F3(b, c, d), a, b, Add(x[1], 0xa4beea44), 4);
    Unrolled3(st, x, 5, 4, d, a, b, c);
    d := Step(F3(a, b, c), d, a, Add(x[4], 0x4bdecfa9), 11);
    Unrolled3(st, x, 6, 7, c, d, a, b);
    c := Step(F3(d, a, b), c, d, Add(x[7], 0xf6bb4b60), 16);
    Unrolled3(st, x, 7, 10, b, c, d, a);
    b := Step(F3(c, d, a), b, c, Add(x[10], 0xbebfbc70), 23);
    assert Steps(st, x, 40) == State(a, b, c, d);
    Unrolled3(st, x, 8, 13, a, b, c, d);
    a := Step(F3(b, c, d), a, b, Add(x[13], 0x289b7ec6), 4);
    Unrolled3(st, x, 9, 0, d, a, b, c);
    d := Step(F3(a, b, c), d, a, Add(x[0], 0xeaa127fa), 11);
    Unrolled3(st, x, 10, 3, c, d, a, b);
    c := Step(F3(d, a, b), c, d, Add(x[3], 0xd4ef3085), 16);
    Unrolled3(st, x, 11, 6, b, c, d, a);
    b := Step(F3(c, d, a), b, c, Add(x[6], 0x04881d05), 23);
    Unrolled3(st, x, 12, 9, a, b, c, d);
    a := Step(F3(b, c, d), a, b, Add(x[9], 0xd9d4d039), 4);
    Unrolled3(st, x, 13, 12, d, a, b, c);
    d := Step(F3(a, b, c), d, a, Add(x[12], 0xe6db99e5), 11);
    Unrolled3(st, x, 14, 15, c, d, a, b);
    c := Step(F3(d, a, b), c, d, Add(x[15], 0x1fa27cf8), 16);
    Unrolled3(st, x, 15, 2, b, c, d, a);
    b := Step(F3(c, d, a), b, c, Add(x[2], 0xc4ac5665), 23);
  }

  method Round4(ghost st: State, x: seq<word>, a0: word, b0: word, c0: word, d0: word)
    returns (a: word, b: word, c: word, d: word)
    requires |x| == 16
    requires Steps(st, x, 48) == State(a0, b0, c0, d0)
    ensures Steps(st, x, 64) == State(a, b, c, d)
  {
    hide Add, Rotate, Steps, RfcStep, Step, F1, F2, F3, F4, WordIndex, Mix, CodeMix, T, Shift,
         T1, Shift1, T2, Shift2, T3, Shift3;
    a, b, c, d := a0, b0, c0, d0;
    Unrolled4(st, x, 0, 0, a, b, c, d);
    a := Step(F4(b, c, d), a, b, Add(x[0], 0xf4292244), 6);
    Unrolled4(st, x, 1, 7, d, a, b, c);
    d := Step(F4(a, b, c), d, a, Add(x[7], 0x432aff97), 10);
    Unrolled4(st, x, 2, 14, c, d, a, b);
    c := Step(F4(d, a, b), c, d, Add(x[14], 0xab9423a7), 15);
    Unrolled4(st, x, 3, 5, b, c, d, a);
    b := Step(F4(c, d, a), b, c, Add(x[5], 0xfc93a039), 21);
    Unrolled4(st, x, 4, 12, a, b, c, d);
    a := Step(F4(b, c, d), a, b, Add(x[12], 0x655b59c3), 6);
    Unrolled4(st, x, 5, 3, d, a, b, c);
    d := Step(F4(a, b, c), d, a, Add(x[3], 0x8f0ccc92), 10);
    Unrolled4(st, x, 6, 10, c, d, a, b);
    c := Step(F4(d, a, b), c, d, Add(x[10], 0xffeff47d), 15);
    Unrolled4(st, x, 7, 1, b, c, d, a);
    b := Step(F4(c, d, a), b, c, Add(x[1], 0x85845dd1), 21);
    assert Steps(st, x, 56) == State(a, b, c, d);
    Unrolled4(st, x, 8, 8, a, b, c, d);
    a := Step(F4(b, c, d), a, b, Add(x[8], 0x6fa87e4f), 6);
    Unrolled4(st, x, 9, 15, d, a, b, c);
    d := Step(F4(a, b, c), d, a, Add(x[15], 0xfe2ce6e0), 10);
    Unrolled4(st, x, 10, 6, c, d, a, b);
    c := Step(F4(d, a, b), c, d, Add(x[6], 0xa3014314), 15);
    Unrolled4(st, x, 11, 13, b, c, d, a);
    b := Step(F4(c, d, a), b, c, Add(x[13], 0x4e0811a1), 21);
    Unrolled4(st, x, 12, 4, a, b, c, d);
    a := Step(F4(b, c, d), a, b, Add(x[4], 0xf7537e82), 6);
    Unrolled4(st, x, 13, 11, d, a, b, c);
    d := Step(F4(a, b, c), d, a, Add(x[11], 0xbd3af235), 10);
    Unrolled4(st, x, 14, 2, c, d, a, b);
    c := Step(F4(d, a, b), c, d, Add(x[2], 0x2ad7d2bb), 15);
    Unrolled4(st, x, 15, 9, b, c, d, a);
    b := Step(F4(c, d, a), b, c, Add(x[9], 0xeb86d391), 21);
  }

  function StateOf(buf: seq<word>): State
    requires |buf| == 4
  {
    State(buf[0], buf[1], buf[2], buf[3])
  }

  /** Alters the hash `buf` to reflect the addition of the 16 words `x`. */
  method MD5Transform(buf: array<word>, x: seq<word>)
    requires buf.Length == 4 && |x| == 16
    modifies buf
    ensures StateOf(buf[..]) == Transform(StateOf(old(buf[..])), x)
  {
    hide Add, RfcStep;
    ghost var st := StateOf(buf[..]);
    var a, b, c, d := buf[0], buf[1], buf[2], buf[3];
    a, b, c, d := Round1(st, x, a, b, c, d);
    a, b, c, d := Round2(st, x, a, b, c, d);
    a, b, c, d := Round3(st, x, a, b, c, d);
    a, b, c, d := Round4(st, x, a, b, c, d);
    buf[0] := Add(buf[0], a);
    buf[1] := Add(buf[1], b);
    buf[2] := Add(buf[2], c);
    buf[3] := Add(buf[3], d);
  }

  // ---------- Words in memory ----------

  /** The byte order of the machine. */
  datatype Endian = Little | Big

  function Join(b0: byte, b1: byte, b2: byte, b3: byte): word {
    (b0 as word) | (b1 as word << 8) | (b2 as word << 16) | (b3 as word << 24)
  }

  function Cut(w: word, s: word): byte
    requires s <= 24
  {
    ((w >> s) & 0xff) as byte
  }

  /** The word a machine reads from four bytes. */
  function Load(e: Endian, g: seq<byte>): word
    requires |g| == 4
  {
    if e.Little? then Join(g[0], g[1], g[2], g[3]) else Join(g[3], g[2], g[1], g[0])
  }

  /** The four bytes a machine writes for a word. */
  function Store(e: Endian, w: word): (g: seq<byte>)
    ensures |g| == 4
  {
    if e.Little? then [Cut(w, 0), Cut(w, 8), Cut(w, 16), Cut(w, 24)] else [Cut(w, 24), Cut(w, 16), Cut(w, 8), Cut(w, 0)]
  }

  lemma JoinIs(b0: byte, b1: byte, b2: byte, b3: byte)
    ensures Join(b0, b1, b2, b3) == (b0 as word) | (b1 as word << 8) | (b2 as word << 16) | (b3 as word << 24)
  {
  }

  lemma CutIs(w: word, s: word)
    requires s <= 24
    ensures Cut(w, s) == ((w >> s) & 0xff) as byte
  {
  }

  lemma FlatJoin(w: word)
    ensures Join(((w >> 0) & 0xff) as byte, ((w >> 8) & 0xff) as byte,
                 ((w >> 16) & 0xff) as byte, ((w >> 24) & 0xff) as byte) == w
  {
  }

  lemma FlatCut(b0: byte, b1: byte, b2: byte, b3: byte)
    ensures var w := (b0 as word) | (b1 as word << 8) | (b2 as word << 16) | (b3 as word << 24);
            Cut(w, 0) == b0 && Cut(w, 8) == b1 && Cut(w, 16) == b2 && Cut(w, 24) == b3
  {
  }

  lemma JoinCut(w: word)
    ensures Join(Cut(w, 0), Cut(w, 8), Cut(w, 16), Cut(w, 24)) == w
  {
    hide Join, Cut;
    CutIs(w, 0);
    CutIs(w, 8);
    CutIs(w, 16);
    CutIs(w, 24);
    FlatJoin(w);
  }

  lemma CutJoin(b0: byte, b1: byte, b2: byte, b3: byte)
    ensures var w := Join(b0, b1, b2, b3);
            Cut(w, 0) == b0 && Cut(w, 8) == b1 && Cut(w, 16) == b2 && Cut(w, 24) == b3
  {
    hide Join, Cut;
    JoinIs(b0, b1, b2, b3);
    FlatCut(b0, b1, b2, b3);
  }

  lemma {:induction false} LoadStore(e: Endian, w: word)
    ensures Load(e, Store(e, w)) == w
  {
    hide Join, Cut;
    JoinCut(w);
  }

  lemma {:induction false} StoreLoad(g: seq<byte>)
    requires |g| == 4
    ensures Store(Little, Load(Little, g)) == g
  {
    hide Join, Cut;
    CutJoin(g[0], g[1], g[2], g[3]);
  }

  /** Storing what was read little-endian turns the bytes of a word into its little-endian ones. */
  lemma {:induction false} Relaid(e: Endian, w: word)
    ensures Store(e, Load(Little, Store(e, w))) == Store(Little, w)
  {
    hide Join, Cut;
    LoadStore(Little, w);
    var g := Store(e, w);
    StoreLoad(g);
  }

  /** The word `byteReverse` computes from four bytes. */
  function Packed(b0: byte, b1: byte, b2: byte, b3: byte): word {
    (((b3 as word << 8) | b2 as word) << 16) | ((b1 as word << 8) | b0 as word)
  }

  lemma FlatPacked(b0: byte, b1: byte, b2: byte, b3: byte)
    ensures Packed(b0, b1, b2, b3) == (b0 as word) | (b1 as word << 8) | (b2 as word << 16) | (b3 as word << 24)
  {
  }

  lemma PackedIsJoin(b0: byte, b1: byte, b2: byte, b3: byte)
    ensures Packed(b0, b1, b2, b3) == Join(b0, b1, b2, b3)
  {
    hide Join, Packed;
    JoinIs(b0, b1, b2, b3);
    FlatPacked(b0, b1, b2, b3);
  }

  lemma PackedIsLittle(g: seq<byte>)
    requires |g| == 4
    ensures Packed(g[0], g[1], g[2], g[3]) == Load(Little, g)
  {
    hide Join, Packed;
    PackedIsJoin(g[0], g[1], g[2], g[3]);
  }

  /** The `k`-th group of four bytes. */
  function Group(b: seq<byte>, k: nat): (g: seq<byte>)
    requires 4 * k + 4 <= |b|
    ensures |g| == 4
  {
    b[4 * k..4 * k + 4]
  }

  /** `b` after each of its first `n` groups was read little-endian and stored in the machine's order. */
  function ReverseGroups(e: Endian, b: seq<byte>, n: nat): (r: seq<byte>)
    requires 4 * n <= |b|
    ensures |r| == |b|
  {
    if n == 0 then b
    else Splice(ReverseGroups(e, b, n - 1), 4 * (n - 1), Store(e, Load(Little, Group(b, n - 1))))
  }

  lemma GroupIs(b: seq<byte>, k: nat)
    requires 4 * k + 4 <= |b|
    ensures Group(b, k) == [b[4 * k], b[4 * k + 1], b[4 * k + 2], b[4 * k + 3]]
  {
  }

  lemma SpliceGroups(b: seq<byte>, k: nat, g: seq<byte>)
    requires 4 * k + 4 <= |b| && |g| == 4
    ensures Group(Splice(b, 4 * k, g), k) == g
    ensures Splice(b, 4 * k, g)[4 * k + 4..] == b[4 * k + 4..]
    ensures forall j :: 0 <= j && 4 * j + 4 <= |b| && j != k ==> Group(Splice(b, 4 * k, g), j) == Group(b, j)
  {
  }

  lemma {:induction false} GroupsReversed(e: Endian, b: seq<byte>, n: nat)
    requires 4 * n <= |b|
    ensures ReverseGroups(e, b, n)[4 * n..] == b[4 * n..]
    ensures forall k :: 0 <= k < n ==> Group(ReverseGroups(e, b, n), k) == Store(e, Load(Little, Group(b, k)))
    ensures forall k :: n <= k && 4 * k + 4 <= |b| ==> Group(ReverseGroups(e, b, n), k) == Group(b, k)
  {
    hide Load, Store, Group, Splice;
    if n > 0 {
      GroupsReversed(e, b, n - 1);
      var p := ReverseGroups(e, b, n - 1);
      SpliceGroups(p, n - 1, Store(e, Load(Little, Group(b, n - 1))));
      assert p[4 * n..] == p[4 * (n - 1)..][4..] && b[4 * n..] == b[4 * (n - 1)..][4..];
    }
  }

  /** Harmless on little-endian machines. */
  method ByteReverse(e: Endian, buf: array<byte>, longs: nat)
    requires 0 < longs && 4 * longs <= buf.Length
    modifies buf
    ensures buf[..] == ReverseGroups(e, old(buf[..]), longs)
  {
    hide Load, Store, Packed, Splice, Group;
    ghost var before := buf[..];
    var left := longs;
    var at := 0;
    while left != 0
      invariant 0 <= left <= longs && at == 4 * (longs - left)
      invariant buf[..] == ReverseGroups(e, before, longs - left)
    {
      ghost var k := longs - left;
      GroupsReversed(e, before, k);
      GroupIs(buf[..], k);
      PackedIsLittle(Group(before, k));
      var t := Packed(buf[at], buf[at + 1], buf[at + 2], buf[at + 3]);
      Copy(buf, at, Store(e, t));
      at := at + 4;
      left := left - 1;
    }
  }

  // ---------- Messages ----------

  /** The 16 words a machine reads from a block. */
  function Words(e: Endian, b: seq<byte>): (x: seq<word>)
    requires |b| == 64
    ensures |x| == 16
  {
    seq(16, k requires 0 <= k < 16 => Load(e, Group(b, k)))
  }

  const INIT := State(0x67452301, 0xefcdab89, 0x98badcfe, 0x10325476)

  /** The state after the whole blocks of `m`. */
  function Chain(st: State, m: seq<byte>): State
    decreases |m|
  {
    if |m| < 64 then st else Chain(Transform(st, Words(Little, m[..64])), m[64..])
  }

  lemma {:induction false} ChainAppend(st: State, m: seq<byte>, rest: seq<byte>)
    requires |m| % 64 == 0
    ensures Chain(st, m + rest) == Chain(Chain(st, m), rest)
    decreases |m|
  {
    hide Transform, Words;
    if |m| == 0 {
      assert m + rest == rest;
    } else {
      assert (m + rest)[..64] == m[..64] && (m + rest)[64..] == m[64..] + rest;
      ChainAppend(Transform(st, Words(Little, m[..64])), m[64..], rest);
    }
  }

  lemma ChainOne(st: State, b: seq<byte>)
    requires |b| == 64
    ensures Chain(st, b) == Transform(st, Words(Little, b))
  {
    hide Transform, Words;
    assert b[..64] == b && |b[64..]| == 0;
  }

  /** The part of `m` in whole blocks, and what is left. */
  function Whole(m: seq<byte>): (w: seq<byte>)
    ensures |w| % 64 == 0 && |m| - 64 < |w| <= |m|
  {
    m[..|m| - |m| % 64]
  }

  function Tail(m: seq<byte>): (t: seq<byte>)
    ensures |t| == |m| % 64 && m == Whole(m) + t
  {
    m[|m| - |m| % 64..]
  }

  const TWO_32 := 0x1_0000_0000

  /** The bit count of an `n` byte message, modulo 2^64, as two words. */
  function LowBits(n: nat): uint32 { 8 * n % TWO_32 }
  function HighBits(n: nat): uint32 { 8 * n / TWO_32 % TWO_32 }

  function ToWord(u: uint32): word { u as word }

  function Zeros(n: nat): (z: seq<byte>)
    ensures |z| == n
  {
    seq(n, _ => 0)
  }

  /** How many zeros section 3.1 asks for: the fewest after which 8 bytes are missing from a block. */
  function ZeroCount(n: nat): (k: nat) {
    (55 - n) % 64
  }

  lemma {:induction false} FewestZeros(n: nat, k: nat)
    ensures (n + 1 + ZeroCount(n)) % 64 == 56
    ensures (n + 1 + k) % 64 == 56 ==> ZeroCount(n) <= k
    ensures ZeroCount(n) == if n % 64 <= 55 then 55 - n % 64 else 119 - n % 64
  {
  }

  /** Section 3.2: the low word first, each word low byte first. */
  function LengthBytes(n: nat): (b: seq<byte>)
    ensures |b| == 8
  {
    Store(Little, ToWord(LowBits(n))) + Store(Little, ToWord(HighBits(n)))
  }

  function Pad(m: seq<byte>): seq<byte> {
    m + [0x80] + Zeros(ZeroCount(|m|)) + LengthBytes(|m|)
  }

  function Output(st: State): (d: seq<byte>)
    ensures |d| == 16
  {
    Store(Little, st.a) + Store(Little, st.b) + Store(Little, st.c) + Store(Little, st.d)
  }

  /** The digest of section 3. */
  function Digest(m: seq<byte>): (d: seq<byte>)
    ensures |d| == 16
  {
    Output(Chain(INIT, Pad(m)))
  }

  /** When the tail leaves room for the length, one more block ends the message. */
  lemma {:induction false} PadOne(m: seq<byte>)
    requires |m| % 64 <= 55
    ensures var last := Tail(m) + [0x80] + Zeros(55 - |m| % 64) + LengthBytes(|m|);
            Chain(INIT, Pad(m)) == Transform(Chain(INIT, Whole(m)), Words(Little, last))
  {
    hide Transform, Words, LengthBytes, Chain, Whole, Tail, ZeroCount;
    FewestZeros(|m|, 0);
    var last := Tail(m) + [0x80] + Zeros(55 - |m| % 64) + LengthBytes(|m|);
    assert Pad(m) == Whole(m) + last;
    ChainAppend(INIT, Whole(m), last);
    ChainOne(Chain(INIT, Whole(m)), last);
  }

  /** Otherwise the padding fills the block of the tail and the length goes into one more. */
  lemma {:induction false} PadTwo(m: seq<byte>)
    requires |m| % 64 > 55
    ensures var first := Tail(m) + [0x80] + Zeros(63 - |m| % 64);
            var last := Zeros(56) + LengthBytes(|m|);
            Chain(INIT, Pad(m)) == Transform(Chain(INIT, Whole(m) + first), Words(Little, last))
  {
    hide Transform, Words, LengthBytes, Chain, Whole, Tail, ZeroCount;
    FewestZeros(|m|, 0);
    var first := Tail(m) + [0x80] + Zeros(63 - |m| % 64);
    var last := Zeros(56) + LengthBytes(|m|);
    assert Zeros(119 - |m| % 64) == Zeros(63 - |m| % 64) + Zeros(56);
    assert Pad(m) == Whole(m) + first + last;
    ChainAppend(INIT, Whole(m) + first, last);
    ChainOne(Chain(INIT, Whole(m) + first), last);
  }

  /** After `byteReverse` a machine of either order reads the little-endian words of a block. */
  lemma {:induction false} WordsReversed(e: Endian, b: seq<byte>)
    requires |b| == 64
    ensures Words(e, ReverseGroups(e, b, 16)) == Words(Little, b)
  {
    hide Load, Store, Group, ReverseGroups;
    var r := ReverseGroups(e, b, 16);
    GroupsReversed(e, b, 16);
    forall k | 0 <= k < 16
      ensures Words(e, r)[k] == Words(Little, b)[k]
    {
      assert Group(r, k) == Store(e, Load(Little, Group(b, k)));
      LoadStore(e, Load(Little, Group(b, k)));
    }
  }

  /** The last block: 14 words reversed, then two words copied as they lie in memory. */
  lemma {:induction false} LastWords(e: Endian, b: seq<byte>, lo: word, hi: word)
    requires |b| == 64
    ensures Words(e, Splice(Splice(ReverseGroups(e, b, 14), 56, Store(e, lo)), 60, Store(e, hi)))
            == Words(Little, b[..56] + (Store(Little, lo) + Store(Little, hi)))
  {
    hide Load, Store, Group, ReverseGroups, Splice;
    var r := ReverseGroups(e, b, 14);
    var r1 := Splice(r, 56, Store(e, lo));
    var r2 := Splice(r1, 60, Store(e, hi));
    var last := b[..56] + (Store(Little, lo) + Store(Little, hi));
    GroupsReversed(e, b, 14);
    SpliceGroups(r, 14, Store(e, lo));
    SpliceGroups(r1, 15, Store(e, hi));
    LastGroups(b, lo, hi);
    forall k | 0 <= k < 16
      ensures Words(e, r2)[k] == Words(Little, last)[k]
    {
      if k < 14 {
        LoadStore(e, Load(Little, Group(b, k)));
      } else if k == 14 {
        LoadStore(e, lo);
        LoadStore(Little, lo);
      } else {
        LoadStore(e, hi);
        LoadStore(Little, hi);
      }
    }
  }

  lemma LastGroups(b: seq<byte>, lo: word, hi: word)
    requires |b| == 64
    ensures var last := b[..56] + (Store(Little, lo) + Store(Little, hi));
            && (forall k :: 0 <= k < 14 ==> Group(last, k) == Group(b, k))
            && Group(last, 14) == Store(Little, lo) && Group(last, 15) == Store(Little, hi)
  {
    hide Store;
  }

  /** The two words of the bit count absorb `len` more bytes, with the carry from low to high. */
  lemma {:induction false} BitCount(n: nat, len: nat, lo: uint32, hi: uint32)
    requires lo == (LowBits(n) + (len % TWO_32) * 8 % TWO_32) % TWO_32
    requires var carried := if lo < LowBits(n) then (HighBits(n) + 1) % TWO_32 else HighBits(n);
             hi == (carried + len / 0x2000_0000 % TWO_32) % TWO_32
    ensures lo == LowBits(n + len) && hi == HighBits(n + len)
  {
    var q, r := 8 * n / TWO_32, len / 0x2000_0000;
    var l := (len % TWO_32) * 8 % TWO_32;
    ShiftedLength(len);
    var carry := if LowBits(n) + l >= TWO_32 then 1 else 0;
    assert 8 * (n + len) == (q + r + carry) * TWO_32 + lo;
    assert 8 * (n + len) / TWO_32 == q + r + carry;
    HighSum(q, carry, r);
  }

  lemma ShiftedLength(len: nat)
    ensures 8 * len == len / 0x2000_0000 * TWO_32 + (len % TWO_32) * 8 % TWO_32
  {
    var r, l := len / 0x2000_0000, len % 0x2000_0000;
    assert (len % TWO_32) * 8 == (r % 8) * TWO_32 + 8 * l;
  }

  lemma ModSum(a: nat, b: nat)
    ensures (a % TWO_32 + b) % TWO_32 == (a + b) % TWO_32
  {
    var q, r := a / TWO_32, a % TWO_32;
    var q1, r1 := (r + b) / TWO_32, (r + b) % TWO_32;
    assert a + b == (q + q1) * TWO_32 + r1;
  }

  lemma HighSum(q: nat, carry: nat, r: nat)
    requires carry <= 1
    ensures ((q % TWO_32 + carry) % TWO_32 + r % TWO_32) % TWO_32 == (q + r + carry) % TWO_32
  {
    ModSum(q, carry);
    ModSum(q + carry, r % TWO_32);
    ModSum(r, q + carry);
  }

  lemma LowIs(n: nat)
    ensures LowBits(n) == 8 * (n % 0x2000_0000)
  {
    var k, r := n / 0x2000_0000, n % 0x2000_0000;
    assert 8 * n == k * TWO_32 + 8 * r && 0 <= 8 * r < TWO_32;
  }

  lemma FineMod(n: nat)
    ensures n % 0x2000_0000 % 64 == n % 64
  {
    Mod64(n / 0x2000_0000 * 0x80_0000, n % 0x2000_0000);
  }

  lemma Mod64(x: nat, r: nat)
    ensures (64 * x + r) % 64 == r % 64
  {
  }

  lemma CountOf(n: nat)
    ensures LowBits(n) / 8 % 64 == n % 64
  {
    var r := n % 0x2000_0000;
    LowIs(n);
    assert 8 * r / 8 == r;
    FineMod(n);
  }

  lemma {:induction false} NextBlock(p: seq<byte>, b: seq<byte>)
    requires |p| % 64 == 0 && |b| == 64
    ensures Chain(INIT, p + b) == Transform(Chain(INIT, p), Words(Little, b))
  {
    hide Transform, Words, Chain;
    ChainAppend(INIT, p, b);
    ChainOne(Chain(INIT, p), b);
  }

  lemma EndsIn(p: seq<byte>, rest: seq<byte>)
    requires |p| % 64 == 0 && |rest| < 64
    ensures Whole(p + rest) == p && Tail(p + rest) == rest
  {
  }

  /** What stays in the input when `data` does not complete a block. */
  lemma TailGrows(m: seq<byte>, data: seq<byte>)
    requires |m| % 64 + |data| < 64
    ensures Whole(m + data) == Whole(m) && Tail(m + data) == Tail(m) + data
  {
    hide Whole, Tail;
    assert m + data == Whole(m) + (Tail(m) + data);
    EndsIn(Whole(m), Tail(m) + data);
  }

  lemma TailLeft(m: seq<byte>, data: seq<byte>, at: nat)
    requires at <= |data| < at + 64 && |m + data[..at]| % 64 == 0
    ensures Whole(m + data) == m + data[..at] && Tail(m + data) == data[at..]
  {
    hide Whole, Tail;
    assert m + data == m + data[..at] + data[at..];
    EndsIn(m + data[..at], data[at..]);
  }

  lemma TailFilled(m: seq<byte>, data: seq<byte>, at: nat)
    requires at <= |data|
    ensures Whole(m) + (Tail(m) + data[..at]) == m + data[..at]
    ensures at == 0 && |m| % 64 == 0 ==> Whole(m) == m + data[..at]
  {
    hide Whole, Tail;
    if at == 0 && |m| % 64 == 0 {
      assert |Tail(m)| == 0;
    }
  }

  lemma BlockTaken(m: seq<byte>, data: seq<byte>, at: nat)
    requires at + 64 <= |data|
    ensures m + data[..at] + ([] + data[at..at + 64]) == m + data[..at + 64]
  {
  }

  /** The bytes of the hash as they lie in memory. */
  function Laid(e: Endian, st: State): (b: seq<byte>)
    ensures |b| == 16
  {
    Store(e, st.a) + Store(e, st.b) + Store(e, st.c) + Store(e, st.d)
  }

  lemma GroupsOfFour(a: seq<byte>, b: seq<byte>, c: seq<byte>, d: seq<byte>)
    requires |a| == |b| == |c| == |d| == 4
    ensures Group(a + b + c + d, 0) == a && Group(a + b + c + d, 1) == b
    ensures Group(a + b + c + d, 2) == c && Group(a + b + c + d, 3) == d
  {
  }

  lemma FourGroups(b: seq<byte>)
    requires |b| == 16
    ensures b == Group(b, 0) + Group(b, 1) + Group(b, 2) + Group(b, 3)
  {
  }

  /** The digest does not depend on the byte order of the machine. */
  lemma {:induction false} LaidReversed(e: Endian, st: State)
    ensures ReverseGroups(e, Laid(e, st), 4) == Output(st)
  {
    hide Store, Load, Group, ReverseGroups;
    var r := ReverseGroups(e, Laid(e, st), 4);
    GroupsReversed(e, Laid(e, st), 4);
    GroupsOfFour(Store(e, st.a), Store(e, st.b), Store(e, st.c), Store(e, st.d));
    Relaid(e, st.a);
    Relaid(e, st.b);
    Relaid(e, st.c);
    Relaid(e, st.d);
    FourGroups(r);
  }

  // ---------- The context ----------

  class Context {
    const endian: Endian
    const buf: array<word>
    const input: array<byte>
    var bits0: uint32
    var bits1: uint32

    ghost predicate Valid()
      reads this
    {
      buf.Length == 4 && input.Length == 64
    }

    /** The context has taken in exactly the bytes `m`. */
    ghost predicate Represents(m: seq<byte>)
      reads this, buf, input
    {
      && Valid()
      && StateOf(buf[..]) == Chain(INIT, Whole(m))
      && input[..|m| % 64] == Tail(m)
      && bits0 == LowBits(|m|) && bits1 == HighBits(|m|)
    }

    constructor (e: Endian)
      ensures Valid() && endian == e && fresh(buf) && fresh(input)
    {
      endian := e;
      buf := new word[4];
      input := new byte[64];
      bits0 := 0;
      bits1 := 0;
    }

    method Init()
      requires Valid()
      modifies this, buf
      ensures Represents([])
    {
      buf[0] := 0x67452301;
      buf[1] := 0xefcdab89;
      buf[2] := 0x98badcfe;
      buf[3] := 0x10325476;
      bits0 := 0;
      bits1 := 0;
    }

    /** Reverses the full input and transforms the hash by it. */
    method TransformInput()
      requires Valid()
      modifies buf, input
      ensures StateOf(buf[..]) == Transform(StateOf(old(buf[..])), Words(Little, old(input[..])))
    {
      hide Transform, Words, ReverseGroups, StateOf;
      WordsReversed(endian, input[..]);
      ByteReverse(endian, input, 16);
      MD5Transform(buf, Words(endian, input[..]));
    }

    /** Adds `len` bytes to the bit count. */
    method CountBits(len: nat, ghost n: nat)
      requires bits0 == LowBits(n) && bits1 == HighBits(n)
      modifies this`bits0, this`bits1
      ensures bits0 == LowBits(n + len) && bits1 == HighBits(n + len)
    {
      hide LowBits, HighBits;
      var t := bits0;
      bits0 := (t + (len % TWO_32) * 8 % TWO_32) % TWO_32;
      if bits0 < t {
        bits1 := (bits1 + 1) % TWO_32;
      }
      bits1 := (bits1 + len / 0x2000_0000 % TWO_32) % TWO_32;
      BitCount(n, len, bits0, bits1);
    }

    /** Fills the input from `at` on with `part` and transforms the hash by it. */
    method CompleteBlock(at: nat, part: seq<byte>, ghost p: seq<byte>)
      requires Valid() && at + |part| == 64
      requires |p| % 64 == 0 && StateOf(buf[..]) == Chain(INIT, p)
      modifies buf, input
      ensures StateOf(buf[..]) == Chain(INIT, p + (old(input[..at]) + part))
    {
      hide Chain, Transform, Words, StateOf, Splice;
      SpliceAt(input[..], at, part);
      Copy(input, at, part);
      assert input[..] == old(input[..at]) + part;
      NextBlock(p, input[..]);
      TransformInput();
    }

    /** Processes `data` from `from` on in 64-byte chunks. */
    method ProcessBlocks(data: seq<byte>, from: nat, ghost m: seq<byte>) returns (at: nat)
      requires Valid() && from <= |data| && |m + data[..from]| % 64 == 0
      requires StateOf(buf[..]) == Chain(INIT, m + data[..from])
      modifies buf, input
      ensures |data| - 64 < at <= |data| && |m + data[..at]| % 64 == 0
      ensures StateOf(buf[..]) == Chain(INIT, m + data[..at])
    {
      hide Chain, StateOf;
      at := from;
      while |data| - at >= 64
        invariant at <= |data| && |m + data[..at]| % 64 == 0
        invariant StateOf(buf[..]) == Chain(INIT, m + data[..at])
      {
        assert input[..0] == [];
        BlockTaken(m, data, at);
        CompleteBlock(0, data[at..at + 64], m + data[..at]);
        at := at + 64;
      }
    }

    method Update(data: seq<byte>, ghost m: seq<byte>)
      requires Represents(m)
      modifies this, buf, input
      ensures Represents(m + data)
    {
      hide Chain, LowBits, HighBits, StateOf, Splice, Whole, Tail;
      var len := |data|;
      var t := bits0;
      CountBits(len, |m|);
      t := t / 8 % 64;
      CountOf(|m|);
      TailFilled(m, data, 0);
      var at := 0;
      if t != 0 {
        var p := t;
        t := 64 - t;
        if len < t {
          SpliceAt(input[..], p, data);
          Copy(input, p, data);
          TailGrows(m, data);
          return;
        }
        CompleteBlock(p, data[..t], Whole(m));
        TailFilled(m, data, t);
        at := t;
      }
      at := ProcessBlocks(data, at, m);
      SpliceAt(input[..], 0, data[at..]);
      Copy(input, 0, data[at..]);
      TailLeft(m, data, at);
      assert input[..|m + data| % 64] == Tail(m + data);
    }

    /** Appends the length to the reversed last block and transforms. */
    method AppendLength(ghost n: nat)
      requires Valid() && bits0 == LowBits(n) && bits1 == HighBits(n)
      modifies buf, input
      ensures StateOf(buf[..])
              == Transform(StateOf(old(buf[..])), Words(Little, old(input[..56]) + LengthBytes(n)))
    {
      hide Transform, Words, ReverseGroups, StateOf, Splice, Store, LowBits, HighBits, ToWord;
      LastWords(endian, input[..], ToWord(bits0), ToWord(bits1));
      ByteReverse(endian, input, 14);
      Copy(input, 56, Store(endian, ToWord(bits0)));
      Copy(input, 60, Store(endian, ToWord(bits1)));
      MD5Transform(buf, Words(endian, input[..]));
    }

    /** The hash as it lies in memory, reversed into the digest. */
    method Emit() returns (digest: seq<byte>)
      requires Valid()
      ensures digest == Output(StateOf(buf[..]))
    {
      hide Store, Load, ReverseGroups, Splice, Output;
      var memory := new byte[16];
      ghost var st := StateOf(buf[..]);
      var laid := Store(endian, buf[0]) + Store(endian, buf[1]) + Store(endian, buf[2]) + Store(endian, buf[3]);
      SpliceAt(memory[..], 0, laid);
      LaidReversed(endian, st);
      Copy(memory, 0, laid);
      ByteReverse(endian, memory, 4);
      digest := memory[..];
    }

    method Final(ghost m: seq<byte>) returns (digest: seq<byte>)
      requires Represents(m)
      modifies this, buf, input
      ensures digest == Digest(m)
      ensures bits0 == 0 && bits1 == 0
      ensures forall i :: 0 <= i < 4 ==> buf[i] == 0
      ensures forall i :: 0 <= i < 64 ==> input[i] == 0
    {
      hide Chain, Transform, Words, StateOf, Splice, LengthBytes, LowBits, HighBits, Whole, Tail, Output;
      var count := bits0 / 8 % 64;
      CountOf(|m|);
      SpliceAt(input[..], count, [0x80]);
      Copy(input, count, [0x80]);
      var p := count + 1;
      count := 64 - 1 - count;
      assert input[..p] == Tail(m) + [0x80];
      if count < 8 {
        PadTwo(m);
        CompleteBlock(p, Zeros(count), Whole(m));
        SpliceAt(input[..], 0, Zeros(56));
        Copy(input, 0, Zeros(56));
      } else {
        PadOne(m);
        SpliceAt(input[..], p, Zeros(count - 8));
        Copy(input, p, Zeros(count - 8));
      }
      assert input[..56] == if count < 8 then Zeros(56) else Tail(m) + [0x80] + Zeros(count - 8);
      AppendLength(|m|);
      digest := Emit();
      forall i | 0 <= i < 4 { buf[i] := 0; }
      forall i | 0 <= i < 64 { input[i] := 0; }
      bits0 := 0;
      bits1 := 0;
    }

    /** The digest of what was taken in so far, computed on a copy. */
    method IntermediateFinal(ghost m: seq<byte>) returns (digest: seq<byte>)
      requires Represents(m)
      ensures digest == Digest(m)
    {
      hide Chain, StateOf, Splice, Whole, Tail, Digest, LowBits, HighBits;
      var copy := new Context(endian);
      forall i | 0 <= i < 4 { copy.buf[i] := buf[i]; }
      ghost var before := copy.input[..];
      var bytes := input[..];
      Copy(copy.input, 0, bytes);
      SpliceAt(before, 0, bytes);
      copy.bits0 := bits0;
      copy.bits1 := bits1;
      assert copy.buf[..] == buf[..] && bytes == input[..];
      assert Represents(m);
      digest := copy.Final(m);
    }
  }

  method MD5Sum(e: Endian, data: seq<byte>) returns (digest: seq<byte>)
    ensures digest == Digest(data)
  {
    hide Digest;
    var ctx := new Context(e);
    ctx.Init();
    ctx.Update(data, []);
    assert [] + data == data;
    digest := ctx.Final(data);
  }

  function Concat(chunks: seq<seq<byte>>): seq<byte> {
    if |chunks| == 0 then [] else Concat(chunks[..|chunks| - 1]) + chunks[|chunks| - 1]
  }

  /**
   However a message is cut, feeding the pieces to a context gives the digest of the whole, and the
   digest taken before each piece is that of the pieces before it.
   */
  method DigestOfChunks(e: Endian, chunks: seq<seq<byte>>) returns (digest: seq<byte>, partial: seq<seq<byte>>)
    ensures digest == Digest(Concat(chunks))
    ensures |partial| == |chunks|
    ensures forall i :: 0 <= i < |chunks| ==> partial[i] == Digest(Concat(chunks[..i]))
  {
    hide Digest, Context.Represents;
    var ctx := new Context(e);
    ctx.Init();
    partial := [];
    var i := 0;
    while i < |chunks|
      invariant 0 <= i <= |chunks|
      invariant fresh(ctx) && fresh(ctx.buf) && fresh(ctx.input)
      invariant ctx.Represents(Concat(chunks[..i]))
      invariant |partial| == i && forall j :: 0 <= j < i ==> partial[j] == Digest(Concat(chunks[..j]))
    {
      var sofar := ctx.IntermediateFinal(Concat(chunks[..i]));
      partial := partial + [sofar];
      ctx.Update(chunks[i], Concat(chunks[..i]));
      assert chunks[..i + 1][..i] == chunks[..i];
      i := i + 1;
    }
    assert chunks[..i] == chunks;
    digest := ctx.Final(Concat(chunks));
  }
}
