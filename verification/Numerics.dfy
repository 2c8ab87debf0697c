/** Arithmetic the floors share: clamping, and Python's `round`, which rounds halves to the even neighbour. */
module Numerics {

  function MaxR(a: real, b: real): real {
    if a < b then b else a
  }

  function MinR(a: real, b: real): real {
    if b < a then b else a
  }

  function AbsR(x: real): real {
    if x < 0.0 then -x else x
  }

  function MaxI(a: int, b: int): int {
    if a < b then b else a
  }

  function MinI(a: int, b: int): int {
    if b < a then b else a
  }

  /** Every score of the Captain ends in `max(0.0, min(100.0, score))`. */
  function ClampScore(x: real): real {
    MaxR(0.0, MinR(100.0, x))
  }

  /** Every head score ends in `max(0.0, min(1.0, score))`. */
  function ClampUnit(x: real): real {
    MaxR(0.0, MinR(1.0, x))
  }

  function NearestEven(x: real): int {
    var f := x.Floor;
    var d := x - f as real;
    if d < 0.5 || (d == 0.5 && f % 2 == 0) then f else f + 1
  }

  /** round(x, 1) */
  function Round1(x: real): real {
    NearestEven(x * 10.0) as real / 10.0
  }

  /** round(x, 2) */
  function Round2(x: real): real {
    NearestEven(x * 100.0) as real / 100.0
  }

  /** round(x, 3) */
  function Round3(x: real): real {
    NearestEven(x * 1000.0) as real / 1000.0
  }

  /** round(x, 4) */
  function Round4(x: real): real {
    NearestEven(x * 10000.0) as real / 10000.0
  }

  lemma NearestEvenMonotone(x: real, y: real)
    requires x <= y
    ensures NearestEven(x) <= NearestEven(y)
  {
  }

  lemma Round1Monotone(x: real, y: real)
    requires x <= y
    ensures Round1(x) <= Round1(y)
  {
    NearestEvenMonotone(x * 10.0, y * 10.0);
  }

  lemma Round4Monotone(x: real, y: real)
    requires x <= y
    ensures Round4(x) <= Round4(y)
  {
    NearestEvenMonotone(x * 10000.0, y * 10000.0);
  }

  /** Rounding moves a score by at most 0.05 and leaves a score on the 0.1 grid alone. */
  lemma Round1Near(x: real)
    ensures x - 0.05 <= Round1(x) <= x + 0.05
    ensures Round1(Round1(x)) == Round1(x)
  {
  }

  lemma Round1OfGrid(k: int)
    ensures Round1(k as real / 10.0) == k as real / 10.0
  {
  }

  lemma ProductMonotone(s: real, t: real, f: real, g: real)
    requires 0.0 <= s <= t && 0.0 <= f <= g
    ensures 0.0 <= s * f <= t * g
  {
  }

  function SumBy<T>(s: seq<T>, w: T -> real): real {
    if s == [] then 0.0 else SumBy(s[..|s| - 1], w) + w(s[|s| - 1])
  }

  lemma {:induction false} SumByRemove<T>(s: seq<T>, i: nat, w: T -> real)
    requires i < |s|
    ensures SumBy(s, w) == SumBy(s[..i] + s[i + 1..], w) + w(s[i])
  {
    var n := |s| - 1;
    if i == n {
      assert s[..i] + s[i + 1..] == s[..n];
    } else {
      SumByRemove(s[..n], i, w);
      var rest := s[..i] + s[i + 1..];
      assert rest[..|rest| - 1] == s[..n][..i] + s[..n][i + 1..];
    }
  }

  lemma WithoutOne<T>(s: seq<T>, i: nat)
    requires i < |s|
    ensures multiset(s[..i] + s[i + 1..]) == multiset(s) - multiset{s[i]}
  {
    assert s == s[..i] + [s[i]] + s[i + 1..];
  }

  lemma {:induction false} SumByPermutation<T>(a: seq<T>, c: seq<T>, w: T -> real)
    requires multiset(a) == multiset(c)
    ensures SumBy(a, w) == SumBy(c, w)
  {
    if a == [] {
      assert |multiset(c)| == 0;
    } else {
      var n := |a| - 1;
      assert a == a[..n] + [a[n]];
      assert a[n] in multiset(c);
      var i :| 0 <= i < |c| && c[i] == a[n];
      var rest := c[..i] + c[i + 1..];
      WithoutOne(c, i);
      SumByPermutation(a[..n], rest, w);
      SumByRemove(c, i, w);
    }
  }

  // ----- What the helpers mean -----

  lemma Extremes(a: real, b: real, i: int, j: int)
    ensures a <= MaxR(a, b) && b <= MaxR(a, b) && (MaxR(a, b) == a || MaxR(a, b) == b)
    ensures MinR(a, b) <= a && MinR(a, b) <= b && (MinR(a, b) == a || MinR(a, b) == b)
    ensures i <= MaxI(i, j) && j <= MaxI(i, j) && (MaxI(i, j) == i || MaxI(i, j) == j)
    ensures MinI(i, j) <= i && MinI(i, j) <= j && (MinI(i, j) == i || MinI(i, j) == j)
    ensures AbsR(a) >= 0.0 && (AbsR(a) == a || AbsR(a) == -a)
  {
  }

  lemma Clamps(x: real)
    ensures ClampScore(x) == if x <= 0.0 then 0.0 else if x >= 100.0 then 100.0 else x
    ensures ClampUnit(x) == if x <= 0.0 then 0.0 else if x >= 1.0 then 1.0 else x
  {
  }

  /** The nearest integer, and the even one of two that are equally near. */
  lemma NearestEvenIff(x: real, n: int)
    ensures NearestEven(x) == n <==>
            n as real - 0.5 < x < n as real + 0.5 || (n % 2 == 0 && (x == n as real - 0.5 || x == n as real + 0.5))
  {
  }

  /** Rounding to so many places is rounding the scaled number. */
  lemma RoundsOnGrid(x: real)
    ensures 10.0 * Round1(x) == NearestEven(10.0 * x) as real
    ensures 100.0 * Round2(x) == NearestEven(100.0 * x) as real
    ensures 1000.0 * Round3(x) == NearestEven(1000.0 * x) as real
    ensures 10000.0 * Round4(x) == NearestEven(10000.0 * x) as real
  {
  }
}
